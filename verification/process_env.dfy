/**
  The process environment as the ACME provider sees it: a map from variable
  names to values, changed one call at a time by `os.Setenv` and `os.Unsetenv`.
  Whether a call is refused is decided outside this model, so each call is a
  fault oracle: `None` when the call succeeds, `Some(err)` when it returns `err`.
 */
module ProcessEnv {
  import opened Wrappers
  import opened Errors
  import opened AcmeVariable
  import NameIndex

  type Env = map<string, string>

  /** The fault `os.Setenv(key, value)` returns, if any. */
  type SetenvFault = (string, string) -> Option<Error>

  /** The fault `os.Unsetenv(key)` returns, if any. */
  type UnsetenvFault = string -> Option<Error>

  /** The environment after a sequence of calls, and the error the sequence returned. */
  datatype Effect = Effect(env: Env, err: Option<Error>)

  /** The value of `k` in `env`, if it is set. */
  function Get(env: Env, k: string): Option<string>
  {
    if k in env then Some(env[k]) else None
  }

  /** Position `i` holds the last variable of `vars` keyed `k`. */
  ghost predicate LastKeyed(vars: seq<AcmeVariable>, k: string, i: int)
  {
    0 <= i < |vars| && vars[i].key == k && forall j :: i < j < |vars| ==> vars[j].key != k
  }

  /** The value the last variable keyed `k` carries: later duplicates win. */
  function LastValue(vars: seq<AcmeVariable>, k: string): (r: Option<string>)
    ensures r.None? <==> forall i :: 0 <= i < |vars| ==> vars[i].key != k
    ensures r.Some? ==> exists i :: LastKeyed(vars, k, i) && vars[i] == AcmeVariable(k, r.value)
  {
    if |vars| == 0 then None
    else if vars[|vars| - 1].key == k then
      assert LastKeyed(vars, k, |vars| - 1);
      Some(vars[|vars| - 1].value)
    else
      var front := vars[..|vars| - 1];
      assert forall i :: 0 <= i < |front| ==> front[i] == vars[i];
      assert forall i :: LastKeyed(front, k, i) ==> LastKeyed(vars, k, i);
      LastValue(front, k)
  }

  /** `env1` is `env0` overridden by `vars`: listed keys take their last value, all other keys are untouched. */
  ghost predicate Overridden(env0: Env, vars: seq<AcmeVariable>, env1: Env)
  {
    forall k :: Get(env1, k) == if LastValue(vars, k).Some? then LastValue(vars, k) else Get(env0, k)
  }

  /** `env1` is `env0` with exactly the keys in `keys` removed. */
  ghost predicate Removed(env0: Env, keys: seq<string>, env1: Env)
  {
    forall k :: Get(env1, k) == if k in keys then None else Get(env0, k)
  }

  /** Position `j` holds the first variable whose `Setenv` is refused. */
  ghost predicate FirstSetRefusal(vars: seq<AcmeVariable>, setenv: SetenvFault, j: int)
  {
    && 0 <= j < |vars|
    && setenv(vars[j].key, vars[j].value).Some?
    && forall i :: 0 <= i < j ==> setenv(vars[i].key, vars[i].value).None?
  }

  /** Position `j` holds the first key whose `Unsetenv` is refused. */
  ghost predicate FirstUnsetRefusal(keys: seq<string>, unsetenv: UnsetenvFault, j: int)
  {
    && 0 <= j < |keys|
    && unsetenv(keys[j]).Some?
    && forall i :: 0 <= i < j ==> unsetenv(keys[i]).None?
  }

  /** Looking at one more variable at the front only matters when no later variable shares its key. */
  lemma {:induction false} LastValueCons(vars: seq<AcmeVariable>, k: string)
    requires |vars| > 0
    ensures LastValue(vars, k) ==
              if LastValue(vars[1..], k).Some? then LastValue(vars[1..], k)
              else if vars[0].key == k then Some(vars[0].value)
              else None
    decreases |vars|
  {
    var n := |vars|;
    if n > 1 && vars[n - 1].key != k {
      assert vars[1..][..n - 2] == vars[..n - 1][1..];
      LastValueCons(vars[..n - 1], k);
    }
  }

  /**
    Setenv for each variable in list order, stopping at the first refusal. On
    success the environment is the old one overridden by the variables; on a
    refusal the variables before it stay set, the rest are untouched, and
    nothing is rolled back.
   */
  function SetAll(env: Env, vars: seq<AcmeVariable>, setenv: SetenvFault): (r: Effect)
    ensures r.err.None? <==> forall j :: 0 <= j < |vars| ==> setenv(vars[j].key, vars[j].value).None?
    ensures r.err.None? ==> Overridden(env, vars, r.env)
    ensures r.err.Some? ==>
              exists j :: && FirstSetRefusal(vars, setenv, j)
                          && r.err == setenv(vars[j].key, vars[j].value)
                          && Overridden(env, vars[..j], r.env)
    decreases |vars|
  {
    if |vars| == 0 then Effect(env, None)
    else
      var v := vars[0];
      match setenv(v.key, v.value)
      case Some(err) =>
        assert FirstSetRefusal(vars, setenv, 0);
        Effect(env, Some(err))
      case None =>
        var rest := SetAll(env[v.key := v.value], vars[1..], setenv);
        SetAllStep(env, vars, setenv, rest);
        rest
  }

  /** The inductive step of SetAll: the result for the tail, started from the first set, is the result for the whole list. */
  lemma SetAllStep(env: Env, vars: seq<AcmeVariable>, setenv: SetenvFault, rest: Effect)
    requires |vars| > 0 && setenv(vars[0].key, vars[0].value).None?
    requires rest.err.None? <==> forall j :: 0 <= j < |vars| - 1 ==> setenv(vars[1..][j].key, vars[1..][j].value).None?
    requires rest.err.None? ==> Overridden(env[vars[0].key := vars[0].value], vars[1..], rest.env)
    requires rest.err.Some? ==>
               exists j :: && FirstSetRefusal(vars[1..], setenv, j)
                           && rest.err == setenv(vars[1..][j].key, vars[1..][j].value)
                           && Overridden(env[vars[0].key := vars[0].value], vars[1..][..j], rest.env)
    ensures rest.err.None? <==> forall j :: 0 <= j < |vars| ==> setenv(vars[j].key, vars[j].value).None?
    ensures rest.err.None? ==> Overridden(env, vars, rest.env)
    ensures rest.err.Some? ==>
              exists j :: && FirstSetRefusal(vars, setenv, j)
                          && rest.err == setenv(vars[j].key, vars[j].value)
                          && Overridden(env, vars[..j], rest.env)
  {
    var v := vars[0];
    var env0 := env[v.key := v.value];
    assert forall j :: 0 <= j < |vars| - 1 ==> vars[1..][j] == vars[j + 1];
    if rest.err.None? {
      forall k
        ensures Get(rest.env, k) == if LastValue(vars, k).Some? then LastValue(vars, k) else Get(env, k)
      {
        LastValueCons(vars, k);
      }
    } else {
      var j :| && FirstSetRefusal(vars[1..], setenv, j)
               && rest.err == setenv(vars[1..][j].key, vars[1..][j].value)
               && Overridden(env0, vars[1..][..j], rest.env);
      assert FirstSetRefusal(vars, setenv, j + 1);
      var pre := vars[..j + 1];
      assert pre[1..] == vars[1..][..j];
      forall k
        ensures Get(rest.env, k) == if LastValue(pre, k).Some? then LastValue(pre, k) else Get(env, k)
      {
        LastValueCons(pre, k);
      }
    }
  }

  /**
    Unsetenv for each key in list order, stopping at the first refusal. Previous
    values are not restored: a key is simply absent afterwards.
   */
  function UnsetAll(env: Env, keys: seq<string>, unsetenv: UnsetenvFault): (r: Effect)
    ensures r.err.None? <==> forall j :: 0 <= j < |keys| ==> unsetenv(keys[j]).None?
    ensures r.err.None? ==> Removed(env, keys, r.env)
    ensures r.err.Some? ==>
              exists j :: && FirstUnsetRefusal(keys, unsetenv, j)
                          && r.err == unsetenv(keys[j])
                          && Removed(env, keys[..j], r.env)
    decreases |keys|
  {
    if |keys| == 0 then Effect(env, None)
    else
      match unsetenv(keys[0])
      case Some(err) =>
        assert FirstUnsetRefusal(keys, unsetenv, 0);
        Effect(env, Some(err))
      case None =>
        var rest := UnsetAll(env - {keys[0]}, keys[1..], unsetenv);
        UnsetAllStep(env, keys, unsetenv, rest);
        rest
  }

  /** The inductive step of UnsetAll. */
  lemma UnsetAllStep(env: Env, keys: seq<string>, unsetenv: UnsetenvFault, rest: Effect)
    requires |keys| > 0 && unsetenv(keys[0]).None?
    requires rest.err.None? <==> forall j :: 0 <= j < |keys| - 1 ==> unsetenv(keys[1..][j]).None?
    requires rest.err.None? ==> Removed(env - {keys[0]}, keys[1..], rest.env)
    requires rest.err.Some? ==>
               exists j :: && FirstUnsetRefusal(keys[1..], unsetenv, j)
                           && rest.err == unsetenv(keys[1..][j])
                           && Removed(env - {keys[0]}, keys[1..][..j], rest.env)
    ensures rest.err.None? <==> forall j :: 0 <= j < |keys| ==> unsetenv(keys[j]).None?
    ensures rest.err.None? ==> Removed(env, keys, rest.env)
    ensures rest.err.Some? ==>
              exists j :: && FirstUnsetRefusal(keys, unsetenv, j)
                          && rest.err == unsetenv(keys[j])
                          && Removed(env, keys[..j], rest.env)
  {
    assert forall j :: 0 <= j < |keys| - 1 ==> keys[1..][j] == keys[j + 1];
    assert forall k :: k in keys <==> k == keys[0] || k in keys[1..];
    if rest.err.Some? {
      var j :| && FirstUnsetRefusal(keys[1..], unsetenv, j)
               && rest.err == unsetenv(keys[1..][j])
               && Removed(env - {keys[0]}, keys[1..][..j], rest.env);
      assert FirstUnsetRefusal(keys, unsetenv, j + 1);
      var pre := keys[..j + 1];
      assert pre[1..] == keys[1..][..j];
      assert forall k :: k in pre <==> k == keys[0] || k in pre[1..];
    }
  }

  /** The keys of a variable list, in list order: what the reset loop hands to Unsetenv. */
  function Keys(vars: seq<AcmeVariable>): seq<string> { NameIndex.Names(vars, VariableKey) }

  /** Setting the variables never touches a key none of them carries, whether or not a Setenv is refused. */
  lemma SetAllKeepsUnlisted(env: Env, vars: seq<AcmeVariable>, setenv: SetenvFault, k: string)
    requires forall i :: 0 <= i < |vars| ==> vars[i].key != k
    ensures Get(SetAll(env, vars, setenv).env, k) == Get(env, k)
  {
    var applied := SetAll(env, vars, setenv);
    if applied.err.Some? {
      var j :| FirstSetRefusal(vars, setenv, j) && Overridden(env, vars[..j], applied.env);
      assert forall i :: 0 <= i < j ==> vars[..j][i].key != k;
      assert LastValue(vars[..j], k).None?;
    }
  }

  /**
    Reset is blind to how far apply got: after setting the variables (whether
    every Setenv succeeded or one was refused part-way) a successful unset of all
    their keys leaves every listed key absent and every other key as it was
    before the apply.
   */
  lemma ResetUndoesAnyApply(env: Env, vars: seq<AcmeVariable>, setenv: SetenvFault, unsetenv: UnsetenvFault)
    requires UnsetAll(SetAll(env, vars, setenv).env, Keys(vars), unsetenv).err.None?
    ensures var final := UnsetAll(SetAll(env, vars, setenv).env, Keys(vars), unsetenv).env;
            && (forall i :: 0 <= i < |vars| ==> vars[i].key !in final)
            && (forall k :: (forall i :: 0 <= i < |vars| ==> vars[i].key != k) ==> Get(final, k) == Get(env, k))
  {
    var mid := SetAll(env, vars, setenv).env;
    var keys := Keys(vars);
    var final := UnsetAll(mid, keys, unsetenv).env;
    assert Removed(mid, keys, final);
    forall i | 0 <= i < |vars|
      ensures vars[i].key !in final
    {
      assert keys[i] == vars[i].key;
      assert Get(final, keys[i]) == None;
    }
    forall k | forall i :: 0 <= i < |vars| ==> vars[i].key != k
      ensures Get(final, k) == Get(env, k)
    {
      assert k !in keys;
      SetAllKeepsUnlisted(env, vars, setenv, k);
    }
  }
}
