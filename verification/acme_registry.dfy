/**
  The ACME part of the certificate registry: the ACME services (directory
  endpoints), the ACME account users and the DNS providers, each looked up by
  name. A miss is an ItemNotFoundError naming the item type. The entity
  datatypes here also model the structurally identical `Service`, `User` and
  `ExternalAccountBinding` types of the newer `acme` package.
 */
module AcmeRegistry {
  import opened Wrappers
  import opened Errors
  import opened Transform
  import opened AcmeProvider
  import opened NameIndex

  /** An ACME directory endpoint. */
  datatype AcmeService = AcmeService(name: string, url: string)

  /** The encrypted twin of a service: the URL holds ciphertext. */
  datatype SecureAcmeService = SecureAcmeService(name: string, url: string, cryptoParams: CryptoParams)

  /** The key identifier and MAC key binding an ACME account to an external account. */
  datatype AcmeExternalAccountBinding = AcmeExternalAccountBinding(kid: string, hmac: string)

  /** The encrypted twin of an external account binding. */
  datatype SecureAcmeExternalAccountBinding = SecureAcmeExternalAccountBinding(kid: string, hmac: string, cryptoParams: CryptoParams)

  /** An ACME account. */
  datatype AcmeUser = AcmeUser(name: string, email: string, externalAccountBinding: AcmeExternalAccountBinding)

  /** The encrypted twin of an account. */
  datatype SecureAcmeUser = SecureAcmeUser(
    name: string,
    email: string,
    externalAccountBinding: SecureAcmeExternalAccountBinding,
    cryptoParams: CryptoParams)

  function ServiceName(s: AcmeService): string { s.name }

  function SecureServiceName(s: SecureAcmeService): string { s.name }

  function UserName(u: AcmeUser): string { u.name }

  function SecureUserName(u: SecureAcmeUser): string { u.name }

  /** The ACME registry: services, users and providers. */
  datatype AcmeRegistry = AcmeRegistry(services: seq<AcmeService>, users: seq<AcmeUser>, providers: seq<AcmeProvider>)

  /** The encrypted twin of the ACME registry. */
  datatype SecureAcmeRegistry = SecureAcmeRegistry(
    services: seq<SecureAcmeService>,
    users: seq<SecureAcmeUser>,
    providers: seq<SecureAcmeProvider>,
    cryptoParams: CryptoParams)

  function ProviderMissing(name: string): Error { NotFound(NewItemNotFoundError("acme provider", name)) }

  function ServiceMissing(name: string): Error { NotFound(NewItemNotFoundError("acme service", name)) }

  function UserMissing(name: string): Error { NotFound(NewItemNotFoundError("acme user", name)) }

  /** The first provider called `name`; an "acme provider" not-found error exactly when there is none. */
  function GetProviderByName(r: AcmeRegistry, name: string): (res: Result<AcmeProvider, Error>)
    ensures IsLookup(r.providers, ProviderName, name, ProviderMissing(name), res)
  {
    FindByName(r.providers, ProviderName, name, ProviderMissing(name))
  }

  /** The provider names, one per provider, in list order. */
  function GetProviderNames(r: AcmeRegistry): (res: seq<string>)
    ensures IsNameList(r.providers, ProviderName, res)
  {
    Names(r.providers, ProviderName)
  }

  /** The first service called `name`; an "acme service" not-found error exactly when there is none. */
  function GetServiceByName(r: AcmeRegistry, name: string): (res: Result<AcmeService, Error>)
    ensures IsLookup(r.services, ServiceName, name, ServiceMissing(name), res)
  {
    FindByName(r.services, ServiceName, name, ServiceMissing(name))
  }

  /** The service names, one per service, in list order. */
  function GetServiceNames(r: AcmeRegistry): (res: seq<string>)
    ensures IsNameList(r.services, ServiceName, res)
  {
    Names(r.services, ServiceName)
  }

  /** The first user called `name`; an "acme user" not-found error exactly when there is none. */
  function GetUserByName(r: AcmeRegistry, name: string): (res: Result<AcmeUser, Error>)
    ensures IsLookup(r.users, UserName, name, UserMissing(name), res)
  {
    FindByName(r.users, UserName, name, UserMissing(name))
  }

  /** The user names, one per user, in list order. */
  function GetUserNames(r: AcmeRegistry): (res: seq<string>)
    ensures IsNameList(r.users, UserName, res)
  {
    Names(r.users, UserName)
  }

  /** The first secure provider called `name`, with the plain registry's miss error. */
  function GetSecureProviderByName(r: SecureAcmeRegistry, name: string): (res: Result<SecureAcmeProvider, Error>)
    ensures IsLookup(r.providers, SecureProviderName, name, ProviderMissing(name), res)
  {
    FindByName(r.providers, SecureProviderName, name, ProviderMissing(name))
  }

  function GetSecureProviderNames(r: SecureAcmeRegistry): (res: seq<string>)
    ensures IsNameList(r.providers, SecureProviderName, res)
  {
    Names(r.providers, SecureProviderName)
  }

  /** The first secure service called `name`, with the plain registry's miss error. */
  function GetSecureServiceByName(r: SecureAcmeRegistry, name: string): (res: Result<SecureAcmeService, Error>)
    ensures IsLookup(r.services, SecureServiceName, name, ServiceMissing(name), res)
  {
    FindByName(r.services, SecureServiceName, name, ServiceMissing(name))
  }

  function GetSecureServiceNames(r: SecureAcmeRegistry): (res: seq<string>)
    ensures IsNameList(r.services, SecureServiceName, res)
  {
    Names(r.services, SecureServiceName)
  }

  /** The first secure user called `name`, with the plain registry's miss error. */
  function GetSecureUserByName(r: SecureAcmeRegistry, name: string): (res: Result<SecureAcmeUser, Error>)
    ensures IsLookup(r.users, SecureUserName, name, UserMissing(name), res)
  {
    FindByName(r.users, SecureUserName, name, UserMissing(name))
  }

  function GetSecureUserNames(r: SecureAcmeRegistry): (res: seq<string>)
    ensures IsNameList(r.users, SecureUserName, res)
  {
    Names(r.users, SecureUserName)
  }

  /** Each lookup consults its own list only: replacing the other two lists changes nothing. */
  lemma LookupsReadOwnList(r: AcmeRegistry, other: AcmeRegistry, name: string)
    ensures GetProviderByName(r.(services := other.services, users := other.users), name) == GetProviderByName(r, name)
    ensures GetServiceByName(r.(users := other.users, providers := other.providers), name) == GetServiceByName(r, name)
    ensures GetUserByName(r.(services := other.services, providers := other.providers), name) == GetUserByName(r, name)
  {
  }

  /**
    A secure provider list whose stored names match the plain list answers a
    provider lookup at the same position, and with the same error on a miss.
   */
  lemma SecureProviderLookupMirrorsPlain(r: AcmeRegistry, s: SecureAcmeRegistry, name: string)
    requires |r.providers| == |s.providers|
    requires forall i :: 0 <= i < |r.providers| ==> r.providers[i].name == s.providers[i].name
    ensures GetProviderByName(r, name).Success? <==> GetSecureProviderByName(s, name).Success?
    ensures GetProviderByName(r, name).Success? ==>
              exists i :: 0 <= i < |r.providers| && GetProviderByName(r, name).value == r.providers[i]
                                                 && GetSecureProviderByName(s, name).value == s.providers[i]
    ensures GetProviderByName(r, name).Failure? ==> GetSecureProviderByName(s, name) == Failure(ProviderMissing(name))
    ensures GetProviderNames(r) == GetSecureProviderNames(s)
  {
    MirroredLookups(r.providers, s.providers, ProviderName, SecureProviderName, name, ProviderMissing(name));
  }

  /** The provider-lookup miss names the item type and the name asked for, after the fixed message. */
  lemma ProviderMissText(name: string)
    ensures Message(ProviderMissing(name)) == "could not find acme provider " + name
  {
  }
}
