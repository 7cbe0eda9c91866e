/**
  The registry of the newer `certificates` package: the same passphrase list,
  lookup and doubled name list as the legacy certificate registry, with a plain
  formatted error on a miss and the `certificates/acme` package's registry beside
  it. That registry is not part of this model and nothing here reads it, so its
  type is a parameter `A` (and `SA` for the secure twin).
 */
module Certificates {
  import opened Wrappers
  import opened Errors
  import opened Transform
  import opened NameIndex
  import AcmeRegistry
  import opened Legacy = CertificateRegistry

  /** The certificate registry of the `certificates` package. */
  datatype Registry<A> = Registry(acme: A, passphrases: seq<CertificatePassphrase>)

  /** Its encrypted twin: lists and parameters only. */
  datatype SecureRegistry<SA> = SecureRegistry(
    acme: SA,
    passphrases: seq<SecureCertificatePassphrase>,
    cryptoParams: CryptoParams)

  function PassphraseNotFound(name: string): Error { Text("could not find passphrase " + name) }

  /** The first passphrase called `name`; "could not find passphrase <name>" exactly when there is none. */
  function GetPassphraseByName<A>(r: Registry<A>, name: string): (res: Result<CertificatePassphrase, Error>)
    ensures IsLookup(r.passphrases, PassphraseName, name, PassphraseNotFound(name), res)
  {
    FindByName(r.passphrases, PassphraseName, name, PassphraseNotFound(name))
  }

  /** As written: `n` empty entries, then the `n` passphrase names in list order. */
  function GetPassphraseNames<A>(r: Registry<A>): (res: seq<string>)
    ensures |res| == 2 * |r.passphrases|
    ensures forall i :: 0 <= i < |r.passphrases| ==> res[i] == ""
    ensures forall i :: 0 <= i < |r.passphrases| ==> res[|r.passphrases| + i] == r.passphrases[i].name
  {
    AppendNames(EmptyEntries(|r.passphrases|), r.passphrases, PassphraseName)
  }

  /** The passphrase name list the code evidently means: one name per passphrase, in list order. */
  function IntendedPassphraseNames<A>(r: Registry<A>): (res: seq<string>)
    ensures IsNameList(r.passphrases, PassphraseName, res)
    ensures forall i :: 0 <= i < |res| ==> GetPassphraseByName(r, res[i]).Success?
  {
    var res := Names(r.passphrases, PassphraseName);
    assert forall i :: 0 <= i < |res| ==> NameIndex.Named(r.passphrases, PassphraseName, res[i], i);
    res
  }

  /**
    The discrepancy on a concrete registry: two passphrases give four entries,
    two of them empty, where the intended list has the two names.
   */
  lemma PassphraseNamesCounterexample<A>(acme: A)
    ensures var r := Registry(acme, [CertificatePassphrase("a", "x"), CertificatePassphrase("b", "y")]);
            && GetPassphraseNames(r) == ["", "", "a", "b"]
            && IntendedPassphraseNames(r) == ["a", "b"]
            && GetPassphraseByName(r, GetPassphraseNames(r)[0]).Failure?
  {
    var r := Registry(acme, [CertificatePassphrase("a", "x"), CertificatePassphrase("b", "y")]);
    var names := GetPassphraseNames(r);
    assert names[0] == "" && names[1] == "" && names[2] == "a" && names[3] == "b";
    assert names == ["", "", "a", "b"];
  }

  /** Neither the lookup nor the name list consults the ACME part. */
  lemma PassphrasesIgnoreAcme<A>(r: Registry<A>, acme: A, name: string)
    ensures GetPassphraseByName(r.(acme := acme), name) == GetPassphraseByName(r, name)
    ensures GetPassphraseNames(r.(acme := acme)) == GetPassphraseNames(r)
  {
  }

  /** The name list has the legacy registry's doubled shape, entry for entry. */
  lemma NamesMatchLegacy<A>(r: Registry<A>, acme: AcmeRegistry.AcmeRegistry)
    ensures GetPassphraseNames(r) == Legacy.GetPassphraseNames(Legacy.CertificateRegistry(acme, r.passphrases))
  {
  }
}
