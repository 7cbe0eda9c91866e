/**
  The NetScaler ADC registry: the ADC environments looked up by name. A miss
  is an ItemNotFoundError of type "netscaler adc environment".
 */
module AdcRegistry {
  import opened Wrappers
  import opened Errors
  import opened Transform
  import opened NameIndex
  import opened AdcEnvironment

  /** The ADC registry. */
  datatype NetScalerAdcRegistry = NetScalerAdcRegistry(environments: seq<NetScalerAdcEnvironment>)

  /** Its encrypted twin. */
  datatype SecureNetScalerAdcRegistry =
    SecureNetScalerAdcRegistry(environments: seq<SecureNetScalerAdcEnvironment>, cryptoParams: CryptoParams)

  function EnvironmentMissing(name: string): Error { NotFound(NewItemNotFoundError("netscaler adc environment", name)) }

  /** The first environment called `name`; a "netscaler adc environment" not-found error exactly when there is none. */
  function GetEnvironmentByName(r: NetScalerAdcRegistry, name: string): (res: Result<NetScalerAdcEnvironment, Error>)
    ensures IsLookup(r.environments, EnvironmentName, name, EnvironmentMissing(name), res)
  {
    FindByName(r.environments, EnvironmentName, name, EnvironmentMissing(name))
  }

  /** The environment names, one per environment, in list order. */
  function GetEnvironmentNames(r: NetScalerAdcRegistry): (res: seq<string>)
    ensures IsNameList(r.environments, EnvironmentName, res)
  {
    Names(r.environments, EnvironmentName)
  }

  /** The first secure environment called `name`, with the plain registry's miss error. */
  function GetSecureEnvironmentByName(r: SecureNetScalerAdcRegistry, name: string): (res: Result<SecureNetScalerAdcEnvironment, Error>)
    ensures IsLookup(r.environments, SecureEnvironmentName, name, EnvironmentMissing(name), res)
  {
    FindByName(r.environments, SecureEnvironmentName, name, EnvironmentMissing(name))
  }

  function GetSecureEnvironmentNames(r: SecureNetScalerAdcRegistry): (res: seq<string>)
    ensures IsNameList(r.environments, SecureEnvironmentName, res)
  {
    Names(r.environments, SecureEnvironmentName)
  }

  /**
    Secure environments whose names match the plain ones answer every lookup at
    the same position, fail with the same error, and list the same names.
   */
  lemma SecureLookupMirrorsPlain(r: NetScalerAdcRegistry, s: SecureNetScalerAdcRegistry, name: string)
    requires |r.environments| == |s.environments|
    requires forall i :: 0 <= i < |r.environments| ==> r.environments[i].name == s.environments[i].name
    ensures GetEnvironmentByName(r, name).Success? <==> GetSecureEnvironmentByName(s, name).Success?
    ensures GetEnvironmentByName(r, name).Success? ==>
              exists i :: 0 <= i < |r.environments| && GetEnvironmentByName(r, name).value == r.environments[i]
                                                    && GetSecureEnvironmentByName(s, name).value == s.environments[i]
    ensures GetEnvironmentByName(r, name).Failure? ==> GetSecureEnvironmentByName(s, name) == Failure(EnvironmentMissing(name))
    ensures GetEnvironmentNames(r) == GetSecureEnvironmentNames(s)
  {
    MirroredLookups(r.environments, s.environments, EnvironmentName, SecureEnvironmentName, name, EnvironmentMissing(name));
  }
}
