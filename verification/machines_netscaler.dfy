/**
  The NetScaler registry of the `machines` tree: an ADC registry beside an SDX
  registry that has no fields. Its ADC queries delegate to the ADC registry
  and never read the SDX part.
 */
module MachinesNetScaler {
  import opened Wrappers
  import opened Errors
  import opened Transform
  import opened NameIndex
  import opened AdcEnvironment
  import MachinesAdc

  /** The SDX registry: declared, but without any field or query. */
  datatype SdxRegistry = SdxRegistry

  /** The encrypted twin of the SDX registry. */
  datatype SecureSdxRegistry = SecureSdxRegistry(cryptoParams: CryptoParams)

  /** The NetScaler registry of the `machines` tree. */
  datatype Registry = Registry(adc: MachinesAdc.Registry, sdx: SdxRegistry)

  /** Its encrypted twin. */
  datatype SecureRegistry = SecureRegistry(adc: MachinesAdc.SecureRegistry, sdx: SecureSdxRegistry, cryptoParams: CryptoParams)

  /** The first ADC environment called `name`, with the ADC registry's miss error. */
  function GetAdcEnvironmentByName(r: Registry, name: string): (res: Result<NetScalerAdcEnvironment, Error>)
    ensures IsLookup(r.adc.environments, EnvironmentName, name, MachinesAdc.EnvironmentNotFound(name), res)
  {
    MachinesAdc.GetEnvironmentByName(r.adc, name)
  }

  /** The ADC environment names, one per environment, in list order. */
  function GetAdcEnvironmentNames(r: Registry): (res: seq<string>)
    ensures IsNameList(r.adc.environments, EnvironmentName, res)
  {
    MachinesAdc.GetEnvironmentNames(r.adc)
  }

  /** Both queries answer as the ADC registry does, and neither reads the SDX part. */
  lemma AdcQueriesDelegate(r: Registry, sdx: SdxRegistry, name: string)
    ensures GetAdcEnvironmentByName(r, name) == MachinesAdc.GetEnvironmentByName(r.adc, name)
    ensures GetAdcEnvironmentNames(r) == MachinesAdc.GetEnvironmentNames(r.adc)
    ensures GetAdcEnvironmentByName(r.(sdx := sdx), name) == GetAdcEnvironmentByName(r, name)
    ensures GetAdcEnvironmentNames(r.(sdx := sdx)) == GetAdcEnvironmentNames(r)
  {
  }
}
