/**
  The registry of the newer `acme` package: the same three lists and lookups as
  the legacy ACME registry, but a miss is a plain formatted error rather than an
  ItemNotFoundError. Its secure twin offers no lookups at all.
 */
module Acme {
  import opened Wrappers
  import opened Errors
  import opened Transform
  import opened AcmeProvider
  import opened Legacy = AcmeRegistry
  import opened NameIndex

  /** The ACME registry of the `acme` package. */
  datatype Registry = Registry(services: seq<AcmeService>, users: seq<AcmeUser>, providers: seq<AcmeProvider>)

  /** Its encrypted twin: lists and parameters only. */
  datatype SecureRegistry = SecureRegistry(
    services: seq<SecureAcmeService>,
    users: seq<SecureAcmeUser>,
    providers: seq<SecureAcmeProvider>,
    cryptoParams: CryptoParams)

  function ProviderNotFound(name: string): Error { Text("could not find provider " + name) }

  function ServiceNotFound(name: string): Error { Text("could not find service " + name) }

  function UserNotFound(name: string): Error { Text("could not find user " + name) }

  /** The first provider called `name`; "could not find provider <name>" exactly when there is none. */
  function GetProviderByName(r: Registry, name: string): (res: Result<AcmeProvider, Error>)
    ensures IsLookup(r.providers, ProviderName, name, ProviderNotFound(name), res)
  {
    FindByName(r.providers, ProviderName, name, ProviderNotFound(name))
  }

  function GetProviderNames(r: Registry): (res: seq<string>)
    ensures IsNameList(r.providers, ProviderName, res)
  {
    Names(r.providers, ProviderName)
  }

  /** The first service called `name`; "could not find service <name>" exactly when there is none. */
  function GetServiceByName(r: Registry, name: string): (res: Result<AcmeService, Error>)
    ensures IsLookup(r.services, ServiceName, name, ServiceNotFound(name), res)
  {
    FindByName(r.services, ServiceName, name, ServiceNotFound(name))
  }

  function GetServiceNames(r: Registry): (res: seq<string>)
    ensures IsNameList(r.services, ServiceName, res)
  {
    Names(r.services, ServiceName)
  }

  /** The first user called `name`; "could not find user <name>" exactly when there is none. */
  function GetUserByName(r: Registry, name: string): (res: Result<AcmeUser, Error>)
    ensures IsLookup(r.users, UserName, name, UserNotFound(name), res)
  {
    FindByName(r.users, UserName, name, UserNotFound(name))
  }

  function GetUserNames(r: Registry): (res: seq<string>)
    ensures IsNameList(r.users, UserName, res)
  {
    Names(r.users, UserName)
  }

  /**
    Over the same lists the legacy registry and this one find the same items and
    list the same names; they differ only in the text of a miss, which both start
    with "could not find ".
   */
  lemma AgreesWithLegacyRegistry(r: Registry, name: string)
    ensures var legacy := Legacy.AcmeRegistry(r.services, r.users, r.providers);
            && (GetProviderByName(r, name).Success? <==> Legacy.GetProviderByName(legacy, name).Success?)
            && (GetProviderByName(r, name).Success? ==> GetProviderByName(r, name) == Legacy.GetProviderByName(legacy, name))
            && (GetServiceByName(r, name).Success? ==> GetServiceByName(r, name) == Legacy.GetServiceByName(legacy, name))
            && (GetUserByName(r, name).Success? ==> GetUserByName(r, name) == Legacy.GetUserByName(legacy, name))
            && GetProviderNames(r) == Legacy.GetProviderNames(legacy)
            && Message(ProviderNotFound(name))[..15] == Message(Legacy.ProviderMissing(name))[..15]
  {
  }
}
