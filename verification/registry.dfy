/**
  The root of the registry: organizations looked up by name, each owning a
  registry of machines and one of certificates. Also the two constructors: the
  empty registry and the example registry that documents the configuration
  layout.
 */
module Registry {
  import opened Wrappers
  import opened Errors
  import opened Transform
  import opened NameIndex
  import opened AdcNode
  import opened AdcEnvironment
  import opened AdcRegistry
  import opened Variables = AcmeVariable
  import opened Providers = AcmeProvider
  import opened Acmes = AcmeRegistry
  import opened Certs = CertificateRegistry

  /** The field-less SDX registry. */
  datatype NetScalerSdxRegistry = NetScalerSdxRegistry

  /** The encrypted twin of the SDX registry. */
  datatype SecureNetScalerSdxRegistry = SecureNetScalerSdxRegistry(cryptoParams: CryptoParams)

  /** NetScaler machines: the ADC registry and the SDX registry. */
  datatype NetScalerRegistry = NetScalerRegistry(adc: NetScalerAdcRegistry, sdx: NetScalerSdxRegistry)

  datatype SecureNetScalerRegistry =
    SecureNetScalerRegistry(adc: SecureNetScalerAdcRegistry, sdx: SecureNetScalerSdxRegistry, cryptoParams: CryptoParams)

  /** All machines of an organization. */
  datatype MachinesRegistry = MachinesRegistry(netScaler: NetScalerRegistry)

  datatype SecureMachinesRegistry = SecureMachinesRegistry(netScaler: SecureNetScalerRegistry, cryptoParams: CryptoParams)

  /** What one organization owns. */
  datatype OrganizationRegistry = OrganizationRegistry(machines: MachinesRegistry, certificates: CertificateRegistry)

  datatype SecureOrganizationRegistry =
    SecureOrganizationRegistry(machines: SecureMachinesRegistry, certificates: SecureCertificateRegistry, cryptoParams: CryptoParams)

  /** A tenant of the registry. */
  datatype Organization = Organization(name: string, registry: OrganizationRegistry)

  datatype SecureOrganization = SecureOrganization(name: string, registry: SecureOrganizationRegistry, cryptoParams: CryptoParams)

  /** The whole registry. */
  datatype Registry = Registry(organizations: seq<Organization>)

  datatype SecureRegistry = SecureRegistry(organizations: seq<SecureOrganization>, cryptoParams: CryptoParams)

  function OrganizationName(o: Organization): string { o.name }

  function SecureOrganizationName(o: SecureOrganization): string { o.name }

  /** The zero organization registry: no environments, no ACME items, no passphrases. */
  const EmptyOrganizationRegistry: OrganizationRegistry :=
    OrganizationRegistry(
      MachinesRegistry(NetScalerRegistry(NetScalerAdcRegistry([]), NetScalerSdxRegistry)),
      Certs.CertificateRegistry(Acmes.AcmeRegistry([], [], []), []))

  /** An organization called `name` that owns nothing yet. */
  function NewOrganization(name: string): (o: Organization)
    ensures o.name == name
  {
    Organization(name, EmptyOrganizationRegistry)
  }

  /** The empty registry holds exactly one organization, the one with the empty name. */
  function NewEmptyRegistry(): (r: Registry)
    ensures |r.organizations| == 1 && r.organizations[0].name == ""
  {
    Registry([NewOrganization("")])
  }

  function OrganizationMissing(name: string): Error { NotFound(NewItemNotFoundError("organization", name)) }

  /** The first organization called `name`; an "organization" not-found error exactly when there is none. */
  function GetOrganizationByName(r: Registry, name: string): (res: Result<Organization, Error>)
    ensures IsLookup(r.organizations, OrganizationName, name, OrganizationMissing(name), res)
  {
    FindByName(r.organizations, OrganizationName, name, OrganizationMissing(name))
  }

  /** The organization names, one per organization, in list order. */
  function GetOrganizationNames(r: Registry): (res: seq<string>)
    ensures IsNameList(r.organizations, OrganizationName, res)
  {
    Names(r.organizations, OrganizationName)
  }

  /** The first secure organization called `name`, with the plain registry's miss error. */
  function GetSecureOrganizationByName(r: SecureRegistry, name: string): (res: Result<SecureOrganization, Error>)
    ensures IsLookup(r.organizations, SecureOrganizationName, name, OrganizationMissing(name), res)
  {
    FindByName(r.organizations, SecureOrganizationName, name, OrganizationMissing(name))
  }

  function GetSecureOrganizationNames(r: SecureRegistry): (res: seq<string>)
    ensures IsNameList(r.organizations, SecureOrganizationName, res)
  {
    Names(r.organizations, SecureOrganizationName)
  }

  /**
    A lookup succeeds exactly for the listed names, and the organization found
    for the `i`-th listed name is the first one carrying it, at or before `i`.
   */
  lemma OrganizationNamesAreFound(r: Registry, name: string, i: int)
    requires 0 <= i < |r.organizations|
    ensures GetOrganizationByName(r, name).Success? <==> name in GetOrganizationNames(r)
    ensures var found := GetOrganizationByName(r, GetOrganizationNames(r)[i]);
            && found.Success?
            && exists k :: 0 <= k <= i && FirstNamed(r.organizations, OrganizationName, r.organizations[i].name, k)
                                       && found.value == r.organizations[k]
  {
    FoundIffListed(r.organizations, OrganizationName, name, OrganizationMissing(name));
    NamesAreFound(r.organizations, OrganizationName, OrganizationMissing(GetOrganizationNames(r)[i]), i);
  }

  /** The empty registry finds its one organization under the empty name, and nothing else. */
  lemma EmptyRegistryLookups(name: string)
    ensures GetOrganizationByName(NewEmptyRegistry(), name).Success? <==> name == ""
    ensures GetOrganizationNames(NewEmptyRegistry()) == [""]
  {
  }

  /**
    Secure organizations whose names match the plain ones answer every lookup at
    the same position, fail with the same error, and list the same names.
   */
  lemma SecureLookupMirrorsPlain(r: Registry, s: SecureRegistry, name: string)
    requires |r.organizations| == |s.organizations|
    requires forall i :: 0 <= i < |r.organizations| ==> r.organizations[i].name == s.organizations[i].name
    ensures GetOrganizationByName(r, name).Success? <==> GetSecureOrganizationByName(s, name).Success?
    ensures GetOrganizationByName(r, name).Success? ==>
              exists i :: 0 <= i < |r.organizations| && GetOrganizationByName(r, name).value == r.organizations[i]
                                                     && GetSecureOrganizationByName(s, name).value == s.organizations[i]
    ensures GetOrganizationByName(r, name).Failure? ==> GetSecureOrganizationByName(s, name) == Failure(OrganizationMissing(name))
    ensures GetOrganizationNames(r) == GetSecureOrganizationNames(s)
  {
    MirroredLookups(r.organizations, s.organizations, OrganizationName, SecureOrganizationName, name, OrganizationMissing(name));
  }

  /** The single ADC environment of the example registry. */
  const ExampleEnvironment: NetScalerAdcEnvironment :=
    NetScalerAdcEnvironment(
      "netscaler adc environment name",
      NetScalerAdcNode("netscaler adc snip name", "netscaler adc snip ip address | fqdn"),
      [NetScalerAdcNode("netscaler adc nsip name", "netscaler adc nsip ip address | fqdn")],
      [NetScalerAdcCredential("netscaler adc credential name", "netscaler adc credential username", "netscaler adc credential password")],
      NetScalerAdcSettings(false, 30, "go-cts", true, false, "", false))

  /** The ACME registry of the example registry. */
  const ExampleAcme: Acmes.AcmeRegistry :=
    Acmes.AcmeRegistry(
      [AcmeService("acme service name", "acme service url")],
      [AcmeUser("acme user name", "acme user email", AcmeExternalAccountBinding("acme user kid value", "acme user hmac value"))],
      [Providers.AcmeProvider("acme provider name", "acme provider type", "acme challenge type http-01 | dns-01",
                                 [Variables.AcmeVariable("acme provider variable name", "acme provider variable value")])])

  /** A registry with one organization holding one item of every kind. */
  function NewExampleRegistry(): (r: Registry)
    ensures |r.organizations| == 1 && r.organizations[0].name == "organization name"
  {
    Registry([
      Organization(
        "organization name",
        OrganizationRegistry(
          MachinesRegistry(NetScalerRegistry(NetScalerAdcRegistry([ExampleEnvironment]), NetScalerSdxRegistry)),
          Certs.CertificateRegistry(ExampleAcme, [CertificatePassphrase("passphrase name", "passphrase value")])))])
  }

  /**
    In the example registry "organization name" is found, and its one ADC
    environment has a management node and one peer, so it offers two endpoints
    with the peer first.
   */
  lemma ExampleRegistryResolves()
    ensures GetOrganizationByName(NewExampleRegistry(), "organization name").Success?
    ensures var o := GetOrganizationByName(NewExampleRegistry(), "organization name").value;
            var envs := o.registry.machines.netScaler.adc.environments;
            && |envs| == 1
            && HasManagement(envs[0])
            && |envs[0].nodes| == 1
            && GetNodes(envs[0]) == envs[0].nodes + [envs[0].management]
            && GetEnvironmentByName(o.registry.machines.netScaler.adc, "netscaler adc environment name") == Success(envs[0])
  {
    var o := GetOrganizationByName(NewExampleRegistry(), "organization name").value;
    assert o == NewExampleRegistry().organizations[0];
  }
}
