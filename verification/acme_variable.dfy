/**
  An ACME DNS-provider variable: one environment variable the provider plugin
  reads, with its encrypted twin. The same datatypes model the structurally
  identical `Variable` types of the `certificates/acme` package.
 */
module AcmeVariable {
  import opened Wrappers
  import opened Errors
  import opened Transform
  import Hex

  /** One environment variable to inject: its key and its value. */
  datatype AcmeVariable = AcmeVariable(key: string, value: string)

  /** The encrypted twin of a variable: the value holds ciphertext, the key is clear text. */
  datatype SecureAcmeVariable = SecureAcmeVariable(key: string, value: string, cryptoParams: CryptoParams)

  /** The zero variable, returned alongside a decryption error. */
  const ZeroVariable: AcmeVariable := AcmeVariable("", "")

  function VariableKey(v: AcmeVariable): string { v.key }

  function SecureVariableKey(v: SecureAcmeVariable): string { v.key }

  /** Builds a variable; only the empty key with the empty value gives the zero variable. */
  function NewAcmeVariable(key: string, value: string): (v: AcmeVariable)
    ensures v.key == key && v.value == value
    ensures v == ZeroVariable <==> key == "" && value == ""
  {
    AcmeVariable(key, value)
  }

  /** The field tags of a variable: the key is in clear text, the value is encrypted. */
  const VariableFields: seq<FieldTag> := [FieldTag("key", false), FieldTag("value", true)]

  /** The field tags of the secure variable. */
  const SecureVariableFields: seq<FieldTag> := [FieldTag("key", false), FieldTag("value", true), CryptoParamsField]

  /** Both forms tag the same fields the same way; only the value is sensitive. */
  lemma VariableFormsParallel()
    ensures Parallel(VariableFields, SecureVariableFields)
    ensures !VariableFields[0].sensitive && VariableFields[1].sensitive
  {
  }

  /** The external engine converting one secure variable, given the base16 text of the key. */
  type VariableEngine = (string, SecureAcmeVariable) -> Result<AcmeVariable, Error>

  /**
    SecureAcmeVariable.Decrypt: the engine's variable on success; the zero
    variable and the engine's error on failure.
   */
  function DecryptVariable(s: SecureAcmeVariable, key: seq<Hex.byte>, engine: VariableEngine): (r: (AcmeVariable, Option<Error>))
    ensures r.1.None? <==> engine(Hex.Encode(key), s).Success?
    ensures r.1.None? ==> r.0 == engine(Hex.Encode(key), s).value
    ensures r.1.Some? ==> r.0 == ZeroVariable && r.1.value == engine(Hex.Encode(key), s).error
  {
    DecryptWith(engine, ZeroVariable, key, s)
  }

  /**
    The engine is handed a text twice as long as the key, and two keys that
    differ reach the engine as two different texts.
   */
  lemma EngineKeyText(key: seq<Hex.byte>, other: seq<Hex.byte>)
    ensures |Hex.Encode(key)| == 2 * |key|
    ensures key != other ==> Hex.Encode(key) != Hex.Encode(other)
  {
    Hex.EncodeInjective(key, other);
  }
}
