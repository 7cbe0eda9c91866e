/**
  The name index every container level of the registry offers: a first-match
  linear lookup by name and the ordered list of child names. Each level of the
  registry instantiates these with its own child type, name selector and miss
  error. Names are not required to be unique; a lookup returns the first match.
 */
module NameIndex {
  import opened Wrappers

  /** Position `i` of `s` holds an element called `name`. */
  ghost predicate Named<T>(s: seq<T>, nameOf: T -> string, name: string, i: int)
  {
    0 <= i < |s| && nameOf(s[i]) == name
  }

  /** Position `i` holds the first element of `s` called `name`. */
  ghost predicate FirstNamed<T>(s: seq<T>, nameOf: T -> string, name: string, i: int)
  {
    Named(s, nameOf, name, i) && forall j :: 0 <= j < i ==> nameOf(s[j]) != name
  }

  /** No element of `s` is called `name`. */
  ghost predicate Unnamed<T>(s: seq<T>, nameOf: T -> string, name: string)
  {
    forall j :: 0 <= j < |s| ==> nameOf(s[j]) != name
  }

  /**
    `r` is what a lookup of `name` over `s` must return: the first element called
    `name` when there is one, and the level's `miss` error exactly when there is none.
   */
  ghost predicate IsLookup<T, E>(s: seq<T>, nameOf: T -> string, name: string, miss: E, r: Result<T, E>)
  {
    && (r.Failure? <==> Unnamed(s, nameOf, name))
    && (r.Success? ==> exists i :: FirstNamed(s, nameOf, name, i) && r.value == s[i])
    && (r.Failure? ==> r.error == miss)
  }

  /** `r` lists the names of `s`: same length, same order, no sorting, no deduplication. */
  ghost predicate IsNameList<T>(s: seq<T>, nameOf: T -> string, r: seq<string>)
  {
    |r| == |s| && forall i :: 0 <= i < |s| ==> r[i] == nameOf(s[i])
  }

  /** The position of the first element called `name`, scanning in list order. */
  function FirstMatch<T>(s: seq<T>, nameOf: T -> string, name: string): (r: Option<nat>)
    ensures r.Some? ==> FirstNamed(s, nameOf, name, r.value)
    ensures r.None? <==> Unnamed(s, nameOf, name)
  {
    if |s| == 0 then None
    else if nameOf(s[0]) == name then Some(0)
    else match FirstMatch(s[1..], nameOf, name)
      case None => None
      case Some(i) => Some(i + 1)
  }

  /** The first element called `name`, or the level's `miss` error when there is none. */
  function FindByName<T, E>(s: seq<T>, nameOf: T -> string, name: string, miss: E): (r: Result<T, E>)
    ensures r.Success? <==> !Unnamed(s, nameOf, name)
    ensures r.Success? ==> exists i :: FirstNamed(s, nameOf, name, i) && r.value == s[i]
    ensures r.Failure? ==> r.error == miss
  {
    match FirstMatch(s, nameOf, name)
    case None => Failure(miss)
    case Some(i) => Success(s[i])
  }

  /** The names of the elements of `s`, in list order, neither sorted nor deduplicated. */
  function Names<T>(s: seq<T>, nameOf: T -> string): (r: seq<string>)
    ensures |r| == |s|
    ensures forall i :: 0 <= i < |s| ==> r[i] == nameOf(s[i])
  {
    if |s| == 0 then [] else [nameOf(s[0])] + Names(s[1..], nameOf)
  }

  /** A lookup succeeds exactly for the names the name list contains. */
  lemma FoundIffListed<T, E>(s: seq<T>, nameOf: T -> string, name: string, miss: E)
    ensures FindByName(s, nameOf, name, miss).Success? <==> name in Names(s, nameOf)
  {
    var ns := Names(s, nameOf);
    if name in ns {
      var i :| 0 <= i < |ns| && ns[i] == name;
      assert nameOf(s[i]) == name;
    }
  }

  /**
    Every listed name is found, and the element found is the first one carrying
    that name, at or before the listed position.
   */
  lemma NamesAreFound<T, E>(s: seq<T>, nameOf: T -> string, miss: E, i: int)
    requires 0 <= i < |s|
    ensures var r := FindByName(s, nameOf, Names(s, nameOf)[i], miss);
            && r.Success?
            && exists k :: 0 <= k <= i && FirstNamed(s, nameOf, nameOf(s[i]), k) && r.value == s[k]
  {
    var name := Names(s, nameOf)[i];
    assert nameOf(s[i]) == name;
    var k := FirstMatch(s, nameOf, name).value;
    assert k <= i;
  }

  /**
    Two lists carrying the same names position by position answer every lookup
    the same way: the first match sits at the same position in both.
   */
  lemma {:induction false} FirstMatchByNames<A, B>(s: seq<A>, t: seq<B>, nameOfS: A -> string, nameOfT: B -> string, name: string)
    requires |s| == |t|
    requires forall i :: 0 <= i < |s| ==> nameOfS(s[i]) == nameOfT(t[i])
    ensures FirstMatch(s, nameOfS, name) == FirstMatch(t, nameOfT, name)
    decreases |s|
  {
    if |s| > 0 && nameOfS(s[0]) != name {
      FirstMatchByNames(s[1..], t[1..], nameOfS, nameOfT, name);
    }
  }

  /**
    A lookup over the encrypted twins of a list mirrors the lookup over the plain
    list whenever the names agree: it succeeds for the same names, picks the same
    position, and a miss carries the same error.
   */
  lemma MirroredLookups<A, B, E>(s: seq<A>, t: seq<B>, nameOfS: A -> string, nameOfT: B -> string, name: string, miss: E)
    requires |s| == |t|
    requires forall i :: 0 <= i < |s| ==> nameOfS(s[i]) == nameOfT(t[i])
    ensures FindByName(s, nameOfS, name, miss).Success? <==> FindByName(t, nameOfT, name, miss).Success?
    ensures FindByName(s, nameOfS, name, miss).Success? ==>
              exists i :: 0 <= i < |s| && FindByName(s, nameOfS, name, miss).value == s[i]
                                       && FindByName(t, nameOfT, name, miss).value == t[i]
    ensures FindByName(s, nameOfS, name, miss).Failure? ==>
              FindByName(s, nameOfS, name, miss).error == FindByName(t, nameOfT, name, miss).error
    ensures Names(s, nameOfS) == Names(t, nameOfT)
  {
    FirstMatchByNames(s, t, nameOfS, nameOfT, name);
    assert |Names(s, nameOfS)| == |Names(t, nameOfT)|;
  }

  /** A match inside a prefix is still the first match once more elements are appended. */
  lemma {:induction false} FirstMatchAppend<T>(s: seq<T>, t: seq<T>, nameOf: T -> string, name: string)
    requires FirstMatch(s, nameOf, name).Some?
    ensures FirstMatch(s + t, nameOf, name) == FirstMatch(s, nameOf, name)
  {
    var k := FirstMatch(s, nameOf, name).value;
    var r := FirstMatch(s + t, nameOf, name);
    assert (s + t)[k] == s[k];
    assert !Unnamed(s + t, nameOf, name);
    assert forall j :: 0 <= j < k ==> (s + t)[j] == s[j];
  }
}
