/**
  The leaf entities of an ADC environment: a node (one device endpoint), a login
  credential and the connection settings, with their encrypted twins. The same
  datatypes model the structurally identical `Node`, `Credential` and `Settings`
  types of the newer `netscaler/adc` package.
 */
module AdcNode {
  import opened Wrappers
  import opened Errors
  import opened Transform
  import Hex

  /** One device endpoint: a name and a network address. */
  datatype NetScalerAdcNode = NetScalerAdcNode(name: string, address: string)

  /** The encrypted twin of a node: the address holds ciphertext. */
  datatype SecureNetScalerAdcNode = SecureNetScalerAdcNode(name: string, address: string, cryptoParams: CryptoParams)

  /** The zero node, which an environment uses to mean "no management node". */
  const ZeroNode: NetScalerAdcNode := NetScalerAdcNode("", "")

  function NodeName(n: NetScalerAdcNode): string { n.name }

  function SecureNodeName(n: SecureNetScalerAdcNode): string { n.name }

  /** Builds a node; only the empty name with the empty address gives the zero node. */
  function NewNetScalerAdcNode(name: string, address: string): (n: NetScalerAdcNode)
    ensures n.name == name && n.address == address
    ensures n == ZeroNode <==> name == "" && address == ""
  {
    NetScalerAdcNode(name, address)
  }

  /** The field tags of a node: the name is in clear text, the address is encrypted. */
  const NodeFields: seq<FieldTag> := [FieldTag("name", false), FieldTag("address", true)]

  /** The field tags of the secure node. */
  const SecureNodeFields: seq<FieldTag> := [FieldTag("name", false), FieldTag("address", true), CryptoParamsField]

  /** Both forms tag the same fields the same way. */
  lemma NodeFormsParallel()
    ensures Parallel(NodeFields, SecureNodeFields)
    ensures !NodeFields[0].sensitive && NodeFields[1].sensitive
  {
  }

  /** The external engine converting one secure node, given the base16 text of the key. */
  type NodeEngine = (string, SecureNetScalerAdcNode) -> Result<NetScalerAdcNode, Error>

  /**
    SecureNetScalerAdcNode.Decrypt: the engine's node on success; the zero node
    and the engine's error on failure.
   */
  function DecryptNode(s: SecureNetScalerAdcNode, key: seq<Hex.byte>, engine: NodeEngine): (r: (NetScalerAdcNode, Option<Error>))
    ensures r.1.None? <==> engine(Hex.Encode(key), s).Success?
    ensures r.1.None? ==> r.0 == engine(Hex.Encode(key), s).value
    ensures r.1.Some? ==> r.0 == ZeroNode && r.1.value == engine(Hex.Encode(key), s).error
  {
    DecryptWith(engine, ZeroNode, key, s)
  }

  /** A device login. */
  datatype NetScalerAdcCredential = NetScalerAdcCredential(name: string, username: string, password: string)

  /** The encrypted twin of a credential: username and password hold ciphertext. */
  datatype SecureNetScalerAdcCredential =
    SecureNetScalerAdcCredential(name: string, username: string, password: string, cryptoParams: CryptoParams)

  function CredentialName(c: NetScalerAdcCredential): string { c.name }

  function SecureCredentialName(c: SecureNetScalerAdcCredential): string { c.name }

  /** Connection policy handed unchanged to the device client factory. */
  datatype NetScalerAdcSettings = NetScalerAdcSettings(
    useSsl: bool,
    timeout: int,
    userAgent: string,
    validateServerCertificate: bool,
    logTlsSecrets: bool,
    logTlsSecretsDestination: string,
    autoLogin: bool)
}
