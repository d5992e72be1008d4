/**
  Pure definitions behind the orchestration layer's loops over backend names:
  the first name satisfying a test, the names whose call failed, the registered
  names, the concatenation of per-backend key lists, and removal of the first
  occurrence of a name.
*/
module ChainSpec {
  import opened Wrappers

  /** The index of the first name satisfying `p`, or `|names|` when none does. */
  function FirstWhere(names: seq<string>, p: string -> bool): (i: nat)
    ensures i <= |names|
    ensures forall j :: 0 <= j < i ==> !p(names[j])
    ensures i < |names| ==> p(names[i])
  {
    if names == [] then 0
    else if p(names[0]) then 0
    else 1 + FirstWhere(names[1..], p)
  }

  /** The position of the first name that is registered and whose ping succeeds. */
  function FirstHealthy<V>(names: seq<string>, registry: map<string, V>, pingOk: string -> bool): (i: nat)
    ensures i <= |names|
    ensures forall j :: 0 <= j < i ==> names[j] !in registry || !pingOk(names[j])
    ensures i < |names| ==> names[i] in registry && pingOk(names[i])
  {
    FirstWhere(names, n => n in registry && pingOk(n))
  }

  /**
    The first healthy position is unique: an index before which no name is healthy,
    and which is itself healthy or the end of the list, is `FirstHealthy`.
  */
  lemma FirstHealthyAt<V>(names: seq<string>, registry: map<string, V>, pingOk: string -> bool, i: nat)
    requires i <= |names|
    requires forall j :: 0 <= j < i ==> names[j] !in registry || !pingOk(names[j])
    requires i < |names| ==> names[i] in registry && pingOk(names[i])
    ensures FirstHealthy(names, registry, pingOk) == i
  {
  }

  /** The names whose call failed, in the order they were called. */
  function Failures(names: seq<string>, ok: string -> bool): (r: seq<string>)
    ensures |r| <= |names|
    ensures forall n :: n in r <==> n in names && !ok(n)
  {
    if names == [] then []
    else Failures(names[..|names| - 1], ok) + (if ok(names[|names| - 1]) then [] else [names[|names| - 1]])
  }

  /** The names present in `registry`, in order (duplicates kept). */
  function RegisteredOf<V>(names: seq<string>, registry: map<string, V>): (r: seq<string>)
    ensures |r| <= |names|
    ensures forall n :: n in r <==> n in names && n in registry
  {
    if names == [] then []
    else RegisteredOf(names[..|names| - 1], registry)
         + (if names[|names| - 1] in registry then [names[|names| - 1]] else [])
  }

  /** The keys of every backend that answered, concatenated in order; failed backends contribute nothing. */
  function ConcatKeys(names: seq<string>, keysOf: string -> Option<seq<string>>): (r: seq<string>)
  {
    if names == [] then []
    else
      var last := names[|names| - 1];
      ConcatKeys(names[..|names| - 1], keysOf) + (match keysOf(last) case Some(ks) => ks case None => [])
  }

  /** A key is in the concatenation exactly when some backend in the list answered with it. */
  lemma {:induction false} ConcatKeysMembership(names: seq<string>, keysOf: string -> Option<seq<string>>, k: string)
    ensures k in ConcatKeys(names, keysOf) <==>
      exists n :: n in names && keysOf(n).Some? && k in keysOf(n).value
  {
    if names != [] {
      var init, last := names[..|names| - 1], names[|names| - 1];
      ConcatKeysMembership(init, keysOf, k);
      assert names == init + [last];
      if k in ConcatKeys(names, keysOf) && k !in ConcatKeys(init, keysOf) {
        assert keysOf(last).Some? && k in keysOf(last).value;
        assert last in names;
      }
    }
  }

  /** The concatenation is empty exactly when no backend answered with a key. */
  lemma {:induction false} ConcatKeysEmpty(names: seq<string>, keysOf: string -> Option<seq<string>>)
    ensures ConcatKeys(names, keysOf) == [] <==>
      forall n :: n in names && keysOf(n).Some? ==> keysOf(n).value == []
  {
    if names != [] {
      var init, last := names[..|names| - 1], names[|names| - 1];
      ConcatKeysEmpty(init, keysOf);
      assert names == init + [last];
      if ConcatKeys(names, keysOf) != [] {
        if ConcatKeys(init, keysOf) != [] {
          var n :| n in init && keysOf(n).Some? && keysOf(n).value != [];
          assert n in names;
        } else {
          assert keysOf(last).Some? && keysOf(last).value != [];
        }
      }
    }
  }

  /** The list with the first occurrence of `x` taken out; unchanged when `x` is absent. */
  function RemoveFirst(s: seq<string>, x: string): (r: seq<string>)
    ensures |r| == if x in s then |s| - 1 else |s|
    ensures forall y :: y in r ==> y in s
  {
    if s == [] then []
    else if s[0] == x then s[1..]
    else [s[0]] + RemoveFirst(s[1..], x)
  }

  /** Removal at the first occurrence: what precedes it and what follows it, in order. */
  lemma {:induction false} RemoveFirstAt(s: seq<string>, x: string, i: nat)
    requires i < |s| && s[i] == x && x !in s[..i]
    ensures RemoveFirst(s, x) == s[..i] + s[i + 1..]
  {
    if i > 0 {
      assert s[0] in s[..i];
      assert s[1..][..i - 1] == s[1..i];
      RemoveFirstAt(s[1..], x, i - 1);
    }
  }

  /** Removing an absent name changes nothing. */
  lemma {:induction false} RemoveFirstAbsent(s: seq<string>, x: string)
    requires x !in s
    ensures RemoveFirst(s, x) == s
  {
    if s != [] {
      assert s[0] != x;
      assert forall y :: y in s[1..] ==> y in s;
      RemoveFirstAbsent(s[1..], x);
    }
  }

  /** Exactly one copy of `x` goes, when there is one, and every other name stays. */
  lemma {:induction false} RemoveFirstMultiset(s: seq<string>, x: string)
    ensures multiset(RemoveFirst(s, x)) == multiset(s) - multiset{x}
  {
    if s != [] {
      assert s == [s[0]] + s[1..];
      if s[0] != x {
        RemoveFirstMultiset(s[1..], x);
      }
    }
  }

  /** Appending a name absent from the list and then removing it gives the list back. */
  lemma AppendThenRemoveFirst(s: seq<string>, x: string)
    requires x !in s
    ensures RemoveFirst(s + [x], x) == s
  {
    assert (s + [x])[..|s|] == s;
    RemoveFirstAt(s + [x], x, |s|);
  }
}
