/**
  An ACME DNS provider and the injection of its variables into the process
  environment, where the provider plugin reads them. Apply sets the variables in
  list order and stops at the first failure without rolling back; Reset blindly
  unsets every listed key. The secure provider decrypts each variable just
  before setting it. The `certificates/acme` package's `Provider` runs the same
  two loops; ProcessEnv.SetAll and ProcessEnv.UnsetAll model that copy directly.
 */
module AcmeProvider {
  import opened Wrappers
  import opened Errors
  import opened Transform
  import opened AcmeVariable
  import opened ProcessEnv
  import NameIndex
  import Hex

  /** A DNS provider: its name, plugin type, challenge kind and the variables the plugin reads. */
  datatype AcmeProvider = AcmeProvider(name: string, providerType: string, challenge: string, variables: seq<AcmeVariable>)

  /** The encrypted twin of a provider. */
  datatype SecureAcmeProvider = SecureAcmeProvider(
    name: string,
    providerType: string,
    challenge: string,
    variables: seq<SecureAcmeVariable>,
    cryptoParams: CryptoParams)

  function ProviderName(p: AcmeProvider): string { p.name }

  function SecureProviderName(p: SecureAcmeProvider): string { p.name }

  /** The stored keys of a secure variable list, read without decrypting anything. */
  function SecureKeys(vars: seq<SecureAcmeVariable>): seq<string> { NameIndex.Names(vars, SecureVariableKey) }

  /**
    AcmeProvider.ApplyEnvironmentVariables: every variable is set in list order
    and the call succeeds exactly when no Setenv is refused. On success a listed
    key holds the value of its last occurrence and every other key is untouched;
    on a refusal the call returns that refusal, the variables before it stay
    set and the variables after it are never set.
   */
  function ApplyEnvironmentVariables(p: AcmeProvider, env: Env, setenv: SetenvFault): (r: Effect)
    ensures r.err.None? <==> forall j :: 0 <= j < |p.variables| ==> setenv(p.variables[j].key, p.variables[j].value).None?
    ensures r.err.None? ==> Overridden(env, p.variables, r.env)
    ensures r.err.Some? ==>
              exists j :: && FirstSetRefusal(p.variables, setenv, j)
                          && r.err == setenv(p.variables[j].key, p.variables[j].value)
                          && Overridden(env, p.variables[..j], r.env)
  {
    SetAll(env, p.variables, setenv)
  }

  /**
    AcmeProvider.ResetEnvironmentVariables: every listed key is unset in list
    order and the call succeeds exactly when no Unsetenv is refused. On success
    the listed keys are absent, whatever they held before, and every other key is
    untouched; on a refusal only the keys before it have been removed.
   */
  function ResetEnvironmentVariables(p: AcmeProvider, env: Env, unsetenv: UnsetenvFault): (r: Effect)
    ensures r.err.None? <==> forall j :: 0 <= j < |p.variables| ==> unsetenv(p.variables[j].key).None?
    ensures r.err.None? ==>
              forall k :: Get(r.env, k) == if exists i :: 0 <= i < |p.variables| && p.variables[i].key == k then None else Get(env, k)
    ensures r.err.Some? ==>
              exists j :: && 0 <= j < |p.variables|
                          && r.err == unsetenv(p.variables[j].key)
                          && (forall i :: 0 <= i < j ==> unsetenv(p.variables[i].key).None?)
                          && Removed(env, Keys(p.variables)[..j], r.env)
  {
    var keys := Keys(p.variables);
    assert forall k :: k in keys <==> exists i :: 0 <= i < |p.variables| && p.variables[i].key == k;
    UnsetAll(env, keys, unsetenv)
  }

  /**
    The variables the engine converts before its first failure, in list order:
    each is exactly what the engine returned for the secure variable at the same
    position, and when the list is cut short the engine failed on the next one.
   */
  function DecryptedPrefix(svars: seq<SecureAcmeVariable>, key: seq<Hex.byte>, engine: VariableEngine): (r: seq<AcmeVariable>)
    ensures |r| <= |svars|
    ensures forall i :: 0 <= i < |r| ==> engine(Hex.Encode(key), svars[i]) == Success(r[i])
    ensures |r| < |svars| ==> engine(Hex.Encode(key), svars[|r|]).Failure?
  {
    if |svars| == 0 then []
    else match DecryptVariable(svars[0], key, engine)
      case (v, None) => [v] + DecryptedPrefix(svars[1..], key, engine)
      case (_, Some(_)) => []
  }

  /**
    The loop of SecureAcmeProvider.ApplyEnvironmentVariables over `svars`: it
    behaves as the plain apply over the variables decrypted before the first
    decryption failure, and then, if that apply succeeded, fails with the
    engine's error without setting the undecryptable variable or any after it.
   */
  function SecureSetAll(env: Env, svars: seq<SecureAcmeVariable>, key: seq<Hex.byte>, engine: VariableEngine, setenv: SetenvFault): (r: Effect)
    ensures var plain := DecryptedPrefix(svars, key, engine);
            var s := SetAll(env, plain, setenv);
            if |plain| == |svars| || s.err.Some? then r == s
            else r == Effect(s.env, Some(engine(Hex.Encode(key), svars[|plain|]).error))
    decreases |svars|
  {
    if |svars| == 0 then Effect(env, None)
    else
      var (v, derr) := DecryptVariable(svars[0], key, engine);
      if derr.Some? then Effect(env, derr)
      else match setenv(v.key, v.value)
        case Some(err) => Effect(env, Some(err))
        case None =>
          assert DecryptedPrefix(svars, key, engine) == [v] + DecryptedPrefix(svars[1..], key, engine);
          assert ([v] + DecryptedPrefix(svars[1..], key, engine))[1..] == DecryptedPrefix(svars[1..], key, engine);
          SecureSetAll(env[v.key := v.value], svars[1..], key, engine, setenv)
  }

  /**
    SecureAcmeProvider.ApplyEnvironmentVariables: each variable is decrypted with
    `key` and then set. It acts as the plain apply over the decrypted variables
    up to the first decryption failure; that failure is returned only when every
    set before it succeeded, and the variables set before it persist.
   */
  function SecureApplyEnvironmentVariables(p: SecureAcmeProvider, key: seq<Hex.byte>, engine: VariableEngine, env: Env, setenv: SetenvFault): (r: Effect)
    ensures var plain := DecryptedPrefix(p.variables, key, engine);
            var s := SetAll(env, plain, setenv);
            if |plain| == |p.variables| || s.err.Some? then r == s
            else r == Effect(s.env, Some(engine(Hex.Encode(key), p.variables[|plain|]).error))
  {
    SecureSetAll(env, p.variables, key, engine, setenv)
  }

  /**
    SecureAcmeProvider.ResetEnvironmentVariables: unsets the stored keys, which
    are clear text, without decrypting anything; on success the stored keys are
    absent and every other key is untouched.
   */
  function SecureResetEnvironmentVariables(p: SecureAcmeProvider, env: Env, unsetenv: UnsetenvFault): (r: Effect)
    ensures r.err.None? <==> forall j :: 0 <= j < |p.variables| ==> unsetenv(p.variables[j].key).None?
    ensures r.err.None? ==>
              forall k :: Get(r.env, k) == if exists i :: 0 <= i < |p.variables| && p.variables[i].key == k then None else Get(env, k)
    ensures r.err.Some? ==>
              exists j :: && 0 <= j < |p.variables|
                          && r.err == unsetenv(p.variables[j].key)
                          && (forall i :: 0 <= i < j ==> unsetenv(p.variables[i].key).None?)
                          && Removed(env, SecureKeys(p.variables)[..j], r.env)
  {
    var keys := SecureKeys(p.variables);
    assert forall k :: k in keys <==> exists i :: 0 <= i < |p.variables| && p.variables[i].key == k;
    UnsetAll(env, keys, unsetenv)
  }

  /**
    A successful apply followed by a successful reset leaves every listed key
    absent, whether or not it was set before, and every other key as it was.
   */
  lemma ApplyThenReset(p: AcmeProvider, env: Env, setenv: SetenvFault, unsetenv: UnsetenvFault)
    requires ApplyEnvironmentVariables(p, env, setenv).err.None?
    requires ResetEnvironmentVariables(p, ApplyEnvironmentVariables(p, env, setenv).env, unsetenv).err.None?
    ensures var final := ResetEnvironmentVariables(p, ApplyEnvironmentVariables(p, env, setenv).env, unsetenv).env;
            && (forall i :: 0 <= i < |p.variables| ==> p.variables[i].key !in final)
            && (forall k :: (forall i :: 0 <= i < |p.variables| ==> p.variables[i].key != k) ==> Get(final, k) == Get(env, k))
  {
    var mid := ApplyEnvironmentVariables(p, env, setenv).env;
    var final := ResetEnvironmentVariables(p, mid, unsetenv).env;
    forall i | 0 <= i < |p.variables|
      ensures p.variables[i].key !in final
    {
      assert Get(final, p.variables[i].key) == None;
    }
  }

  /** With no variables both operations succeed and leave the environment as it was. */
  lemma NoVariablesNoEffect(p: AcmeProvider, sp: SecureAcmeProvider, key: seq<Hex.byte>, engine: VariableEngine,
                            env: Env, setenv: SetenvFault, unsetenv: UnsetenvFault)
    requires p.variables == [] && sp.variables == []
    ensures ApplyEnvironmentVariables(p, env, setenv) == Effect(env, None)
    ensures ResetEnvironmentVariables(p, env, unsetenv) == Effect(env, None)
    ensures SecureApplyEnvironmentVariables(sp, key, engine, env, setenv) == Effect(env, None)
    ensures SecureResetEnvironmentVariables(sp, env, unsetenv) == Effect(env, None)
  {
  }

  /**
    The secure reset of a provider whose stored keys are those of a plain
    provider has exactly the plain reset's effect: the engine plays no part.
   */
  lemma SecureResetMatchesPlain(sp: SecureAcmeProvider, p: AcmeProvider, env: Env, unsetenv: UnsetenvFault)
    requires |sp.variables| == |p.variables|
    requires forall i :: 0 <= i < |p.variables| ==> sp.variables[i].key == p.variables[i].key
    ensures SecureResetEnvironmentVariables(sp, env, unsetenv) == ResetEnvironmentVariables(p, env, unsetenv)
  {
    assert SecureKeys(sp.variables) == Keys(p.variables);
  }

  /**
    When the engine keeps each variable's clear-text key, a successful secure
    apply followed by a successful secure reset leaves every stored key absent
    and every other key as it was.
   */
  lemma SecureApplyThenReset(p: SecureAcmeProvider, key: seq<Hex.byte>, engine: VariableEngine,
                             env: Env, setenv: SetenvFault, unsetenv: UnsetenvFault)
    requires forall i :: 0 <= i < |p.variables| && engine(Hex.Encode(key), p.variables[i]).Success? ==>
               engine(Hex.Encode(key), p.variables[i]).value.key == p.variables[i].key
    requires SecureApplyEnvironmentVariables(p, key, engine, env, setenv).err.None?
    requires SecureResetEnvironmentVariables(p, SecureApplyEnvironmentVariables(p, key, engine, env, setenv).env, unsetenv).err.None?
    ensures var final := SecureResetEnvironmentVariables(p, SecureApplyEnvironmentVariables(p, key, engine, env, setenv).env, unsetenv).env;
            && (forall i :: 0 <= i < |p.variables| ==> p.variables[i].key !in final)
            && (forall k :: (forall i :: 0 <= i < |p.variables| ==> p.variables[i].key != k) ==> Get(final, k) == Get(env, k))
  {
    var plain := DecryptedPrefix(p.variables, key, engine);
    var applied := SecureApplyEnvironmentVariables(p, key, engine, env, setenv);
    assert |plain| == |p.variables|;
    assert applied == SetAll(env, plain, setenv);
    var pp := AcmeProvider(p.name, p.providerType, p.challenge, plain);
    assert forall i :: 0 <= i < |plain| ==> plain[i].key == p.variables[i].key;
    SecureResetMatchesPlain(p, pp, applied.env, unsetenv);
    ApplyThenReset(pp, env, setenv, unsetenv);
  }
}
