/**
  The certificate registry: the ACME registry and the named key passphrases.
  The passphrase name list is reproduced as the code builds it: the list is
  first allocated with one empty entry per passphrase and the names are then
  appended after those entries, so it holds twice as many entries as there are
  passphrases. `IntendedPassphraseNames` is the list the code evidently means.
 */
module CertificateRegistry {
  import opened Wrappers
  import opened Errors
  import opened Transform
  import opened AcmeRegistry
  import opened NameIndex

  /** A named private-key passphrase. */
  datatype CertificatePassphrase = CertificatePassphrase(name: string, value: string)

  /** The encrypted twin of a passphrase: the value holds ciphertext. */
  datatype SecureCertificatePassphrase = SecureCertificatePassphrase(name: string, value: string, cryptoParams: CryptoParams)

  function PassphraseName(p: CertificatePassphrase): string { p.name }

  function SecurePassphraseName(p: SecureCertificatePassphrase): string { p.name }

  /** The certificate registry. */
  datatype CertificateRegistry = CertificateRegistry(acme: AcmeRegistry, passphrases: seq<CertificatePassphrase>)

  /** Its encrypted twin. */
  datatype SecureCertificateRegistry = SecureCertificateRegistry(
    acme: SecureAcmeRegistry,
    passphrases: seq<SecureCertificatePassphrase>,
    cryptoParams: CryptoParams)

  function PassphraseMissing(name: string): Error { NotFound(NewItemNotFoundError("passphrase", name)) }

  /** The first passphrase called `name`; a "passphrase" not-found error exactly when there is none. */
  function GetPassphraseByName(r: CertificateRegistry, name: string): (res: Result<CertificatePassphrase, Error>)
    ensures IsLookup(r.passphrases, PassphraseName, name, PassphraseMissing(name), res)
  {
    FindByName(r.passphrases, PassphraseName, name, PassphraseMissing(name))
  }

  /** The first secure passphrase called `name`, with the plain registry's miss error. */
  function GetSecurePassphraseByName(r: SecureCertificateRegistry, name: string): (res: Result<SecureCertificatePassphrase, Error>)
    ensures IsLookup(r.passphrases, SecurePassphraseName, name, PassphraseMissing(name), res)
  {
    FindByName(r.passphrases, SecurePassphraseName, name, PassphraseMissing(name))
  }

  /** A list of `n` empty strings, as `make([]string, n)` allocates it. */
  function EmptyEntries(n: nat): (r: seq<string>)
    ensures |r| == n && forall i :: 0 <= i < n ==> r[i] == ""
  {
    seq(n, _ => "")
  }

  /** `go append` of each name of `ps` to `acc`, in list order: `acc` is kept and the names follow it. */
  function AppendNames<T>(acc: seq<string>, ps: seq<T>, nameOf: T -> string): (r: seq<string>)
    ensures |r| == |acc| + |ps|
    ensures r[..|acc|] == acc
    ensures forall i :: 0 <= i < |ps| ==> r[|acc| + i] == nameOf(ps[i])
    decreases |ps|
  {
    if |ps| == 0 then acc
    else
      var r := AppendNames(acc + [nameOf(ps[0])], ps[1..], nameOf);
      assert r[..|acc| + 1][..|acc|] == r[..|acc|];
      r
  }

  /**
    GetPassphraseNames as written: `2n` entries for `n` passphrases, the first
    `n` empty and the last `n` the passphrase names in list order.
   */
  function GetPassphraseNames(r: CertificateRegistry): (res: seq<string>)
    ensures |res| == 2 * |r.passphrases|
    ensures forall i :: 0 <= i < |r.passphrases| ==> res[i] == ""
    ensures forall i :: 0 <= i < |r.passphrases| ==> res[|r.passphrases| + i] == r.passphrases[i].name
  {
    AppendNames(EmptyEntries(|r.passphrases|), r.passphrases, PassphraseName)
  }

  /** The secure name list has the same doubled shape over the secure passphrases. */
  function GetSecurePassphraseNames(r: SecureCertificateRegistry): (res: seq<string>)
    ensures |res| == 2 * |r.passphrases|
    ensures forall i :: 0 <= i < |r.passphrases| ==> res[i] == ""
    ensures forall i :: 0 <= i < |r.passphrases| ==> res[|r.passphrases| + i] == r.passphrases[i].name
  {
    AppendNames(EmptyEntries(|r.passphrases|), r.passphrases, SecurePassphraseName)
  }

  /** The as-written list is empty exactly when there are no passphrases, and otherwise contains "". */
  lemma PassphraseNamesShape(r: CertificateRegistry)
    ensures GetPassphraseNames(r) == [] <==> r.passphrases == []
    ensures r.passphrases != [] ==> "" in GetPassphraseNames(r)
  {
    if r.passphrases != [] {
      assert GetPassphraseNames(r)[0] == "";
    }
  }

  /** The passphrase name list the code evidently means: one name per passphrase, in list order. */
  function IntendedPassphraseNames(r: CertificateRegistry): (res: seq<string>)
    ensures IsNameList(r.passphrases, PassphraseName, res)
  {
    Names(r.passphrases, PassphraseName)
  }

  /**
    The intended list is a name list in the sense every other level uses: every
    entry is found by GetPassphraseByName, and the as-written list is the
    intended one behind `n` empty entries.
   */
  lemma IntendedPassphraseNamesAreFound(r: CertificateRegistry, i: int)
    requires 0 <= i < |r.passphrases|
    ensures GetPassphraseByName(r, IntendedPassphraseNames(r)[i]).Success?
    ensures GetPassphraseNames(r) == EmptyEntries(|r.passphrases|) + IntendedPassphraseNames(r)
  {
    NamesAreFound(r.passphrases, PassphraseName, PassphraseMissing(IntendedPassphraseNames(r)[i]), i);
    assert GetPassphraseNames(r) == EmptyEntries(|r.passphrases|) + IntendedPassphraseNames(r);
  }

  /**
    The discrepancy on a concrete registry: one passphrase called "key" gives
    the as-written list ["", "key"], whose first entry names no passphrase,
    where the intended list is ["key"].
   */
  lemma PassphraseNamesCounterexample()
    ensures var r := CertificateRegistry(AcmeRegistry([], [], []), [CertificatePassphrase("key", "secret")]);
            && GetPassphraseNames(r) == ["", "key"]
            && IntendedPassphraseNames(r) == ["key"]
            && GetPassphraseByName(r, GetPassphraseNames(r)[0]).Failure?
  {
    var r := CertificateRegistry(AcmeRegistry([], [], []), [CertificatePassphrase("key", "secret")]);
    assert GetPassphraseNames(r)[0] == "";
  }
}
