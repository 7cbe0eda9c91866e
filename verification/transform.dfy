/**
  The dual-representation contract. Every entity type `X` of the registry has an
  encrypted twin `SecureX` holding the same fields plus `CryptoParams`; both forms
  report the same transform pair, and the leaf twins offer a `Decrypt(key)` that
  asks the external transform engine to convert exactly one instance.
 */
module Transform {
  import opened Wrappers
  import opened Errors
  import Hex

  /** Per-instance encryption parameters, opaque to the registry. */
  datatype CryptoParams = CryptoParams(parameters: map<string, string>)

  /** A Go type, qualified by the import path of the package declaring it. */
  datatype GoType = GoType(package: string, name: string)

  /** The pair of Go types a transform converts between: `X` and `SecureX`. */
  datatype TransformConfig = TransformConfig(decrypted: GoType, encrypted: GoType)

  /** The transform pair both forms of the entity type `typeName` of package `pkg` report. */
  function ConfigFor(pkg: string, typeName: string): (c: TransformConfig)
    ensures c.decrypted == GoType(pkg, typeName)
    ensures c.encrypted.package == pkg
    ensures c.encrypted.name == "Secure" + typeName
    ensures |c.encrypted.name| == |typeName| + 6 && c.encrypted.name[6..] == typeName
  {
    TransformConfig(GoType(pkg, typeName), GoType(pkg, "Secure" + typeName))
  }

  /** Distinct entity types, same-named ones in different packages included, declare distinct transform pairs. */
  lemma ConfigIdentifiesType(p1: string, t1: string, p2: string, t2: string)
    ensures ConfigFor(p1, t1) == ConfigFor(p2, t2) <==> GoType(p1, t1) == GoType(p2, t2)
  {
  }

  /** A transform always converts between two different types: the twin is never the plain type itself. */
  lemma ConfigSidesDiffer(pkg: string, typeName: string)
    ensures ConfigFor(pkg, typeName).decrypted != ConfigFor(pkg, typeName).encrypted
  {
  }

  /** The root registry and the ACME registry are both called `Registry`, yet report different pairs. */
  lemma SameNamedRegistriesDiffer()
    ensures ConfigFor("pkg/registry", "Registry") != ConfigFor("pkg/registry/acme", "Registry")
    ensures ConfigFor("pkg/registry", "Registry").decrypted.name == ConfigFor("pkg/registry/acme", "Registry").decrypted.name
  {
    ConfigIdentifiesType("pkg/registry", "Registry", "pkg/registry/acme", "Registry");
  }

  /** The `secure` tag of one field: whether the engine encrypts it. */
  datatype FieldTag = FieldTag(name: string, sensitive: bool)

  /** The field the secure twin adds after the plain fields. */
  const CryptoParamsField: FieldTag := FieldTag("cryptoParams", false)

  /** The secure twin lists the plain fields with the same names and tags, in the same order, then CryptoParams. */
  ghost predicate Parallel(plain: seq<FieldTag>, secure: seq<FieldTag>)
  {
    secure == plain + [CryptoParamsField]
  }

  /**
    Decrypt(key) of a secure leaf entity: the engine is handed the base16 text of
    the key's bytes. On success its plain entity is returned unchanged; on failure
    the plain type's zero value is returned together with the engine's error.
   */
  function DecryptWith<S, T>(engine: (string, S) -> Result<T, Error>, zero: T, key: seq<Hex.byte>, s: S): (r: (T, Option<Error>))
    ensures engine(Hex.Encode(key), s).Success? ==> r == (engine(Hex.Encode(key), s).value, None)
    ensures engine(Hex.Encode(key), s).Failure? ==> r == (zero, Some(engine(Hex.Encode(key), s).error))
  {
    match engine(Hex.Encode(key), s)
    case Failure(err) => (zero, Some(err))
    case Success(plain) => (plain, None)
  }
}
