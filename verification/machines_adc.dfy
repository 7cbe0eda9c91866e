/**
  The ADC registry of the `machines/netscaler/adc` package: the same
  first-match lookup over ADC environments, with a plain formatted error on a
  miss. Its environments are the structurally identical `Environment` type,
  modelled by the ADC environment datatypes.
 */
module MachinesAdc {
  import opened Wrappers
  import opened Errors
  import opened Transform
  import opened NameIndex
  import opened AdcEnvironment
  import AdcRegistry

  /** The ADC registry of the `machines` tree. */
  datatype Registry = Registry(environments: seq<NetScalerAdcEnvironment>)

  /** Its encrypted twin: environments and parameters only. */
  datatype SecureRegistry = SecureRegistry(environments: seq<SecureNetScalerAdcEnvironment>, cryptoParams: CryptoParams)

  function EnvironmentNotFound(name: string): Error { Text("could not find environment " + name) }

  /** The first environment called `name`; "could not find environment <name>" exactly when there is none. */
  function GetEnvironmentByName(r: Registry, name: string): (res: Result<NetScalerAdcEnvironment, Error>)
    ensures IsLookup(r.environments, EnvironmentName, name, EnvironmentNotFound(name), res)
  {
    FindByName(r.environments, EnvironmentName, name, EnvironmentNotFound(name))
  }

  /** The environment names, one per environment, in list order. */
  function GetEnvironmentNames(r: Registry): (res: seq<string>)
    ensures IsNameList(r.environments, EnvironmentName, res)
  {
    Names(r.environments, EnvironmentName)
  }

  /**
    Over the same environments this registry and the legacy ADC registry find
    the same environment; only the text of a miss differs.
   */
  lemma AgreesWithLegacyRegistry(r: Registry, name: string)
    ensures var legacy := AdcRegistry.NetScalerAdcRegistry(r.environments);
            && (GetEnvironmentByName(r, name).Success? ==> GetEnvironmentByName(r, name) == AdcRegistry.GetEnvironmentByName(legacy, name))
            && (GetEnvironmentByName(r, name).Failure? <==> AdcRegistry.GetEnvironmentByName(legacy, name).Failure?)
            && (GetEnvironmentByName(r, name).Failure? ==> Message(GetEnvironmentByName(r, name).error) == "could not find environment " + name)
            && GetEnvironmentNames(r) == AdcRegistry.GetEnvironmentNames(legacy)
  {
  }
}
