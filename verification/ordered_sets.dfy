/** `OrderedSet`: a set that remembers insertion order by keeping its elements
    as the keys of a Python dict (`_d`). The dict's key order is the sequence
    `keys`; re-adding a present key keeps its place, removing and re-adding it
    moves it to the end. */
module OrderedSets {
  import opened Wrappers

  /** No element occurs twice. */
  ghost predicate Distinct<T>(s: seq<T>) {
    forall i, j :: 0 <= i < j < |s| ==> s[i] != s[j]
  }

  /** The keys after `_d[x] = None`. */
  function Added<T(==)>(s: seq<T>, x: T): seq<T> {
    if x in s then s else s + [x]
  }

  /** The keys after `_d.pop(x, None)`. */
  function Removed<T(==)>(s: seq<T>, x: T): (r: seq<T>)
    ensures |r| <= |s|
  {
    if s == [] then []
    else if s[0] == x then Removed(s[1..], x)
    else [s[0]] + Removed(s[1..], x)
  }

  /** The keys of `dict.fromkeys(init)`: each element at its first occurrence. */
  function FromKeys<T(==)>(init: seq<T>): seq<T>
    decreases |init|
  {
    if init == [] then [] else Added(FromKeys(init[..|init| - 1]), init[|init| - 1])
  }

  /** Outcome of `__getitem__`. */
  datatype Lookup<T> = Found(element: T) | OutOfRange | BadIndex

  /** Adding keeps distinctness, keeps every existing element at its rank, and
      grows the set by one exactly when the element is new. */
  lemma AddedSpec<T>(s: seq<T>, x: T)
    requires Distinct(s)
    ensures Distinct(Added(s, x))
    ensures forall i :: 0 <= i < |s| ==> Added(s, x)[i] == s[i]
    ensures x in s ==> Added(s, x) == s
    ensures x !in s ==> |Added(s, x)| == |s| + 1 && Added(s, x)[|s|] == x
    ensures forall y :: y in Added(s, x) <==> y in s || y == x
  {
  }

  /** Removing an absent element changes nothing. */
  lemma {:induction false} RemovedAbsent<T>(s: seq<T>, x: T)
    requires x !in s
    ensures Removed(s, x) == s
  {
    if s != [] {
      RemovedAbsent(s[1..], x);
    }
  }

  /** Removing a present element of a distinct sequence cuts out exactly its
      one occurrence; the others keep their relative order. */
  lemma {:induction false} RemovedAt<T>(s: seq<T>, i: int)
    requires Distinct(s) && 0 <= i < |s|
    ensures Removed(s, s[i]) == s[..i] + s[i + 1..]
  {
    if i == 0 {
      RemovedAbsent(s[1..], s[0]);
    } else {
      RemovedAt(s[1..], i - 1);
      assert s[1..][..i - 1] == s[1..i];
      assert s[1..][i..] == s[i + 1..];
    }
  }

  /** Removing keeps exactly the other elements. */
  lemma {:induction false} RemovedMembers<T>(s: seq<T>, x: T)
    ensures forall y :: y in Removed(s, x) <==> y in s && y != x
  {
    if s != [] {
      RemovedMembers(s[1..], x);
      assert forall y :: y in s <==> y == s[0] || y in s[1..];
    }
  }

  /** Removing keeps distinctness and shrinks a set that held the element by one. */
  lemma RemovedSpec<T>(s: seq<T>, x: T)
    requires Distinct(s)
    ensures Distinct(Removed(s, x))
    ensures x in s ==> |Removed(s, x)| == |s| - 1
    ensures x !in s ==> Removed(s, x) == s
  {
    if x in s {
      var i :| 0 <= i < |s| && s[i] == x;
      RemovedAt(s, i);
    } else {
      RemovedAbsent(s, x);
    }
  }

  /** `dict.fromkeys` keeps one copy of each element, in first-seen order. */
  lemma {:induction false} FromKeysSpec<T>(init: seq<T>)
    ensures Distinct(FromKeys(init))
    ensures forall y :: y in FromKeys(init) <==> y in init
    ensures |FromKeys(init)| <= |init|
    ensures forall k :: 0 <= k <= |init| ==> FromKeys(init[..k]) <= FromKeys(init)
    decreases |init|
  {
    if init != [] {
      var n := |init| - 1;
      FromKeysSpec(init[..n]);
      assert init[..n] + [init[n]] == init;
      AddedSpec(FromKeys(init[..n]), init[n]);
      forall k | 0 <= k <= |init|
        ensures FromKeys(init[..k]) <= FromKeys(init)
      {
        if k <= n {
          assert init[..n][..k] == init[..k];
        } else {
          assert init[..k] == init;
        }
      }
    }
  }

  class OrderedSet<T(==)> {
    /** The keys of `_d`, in insertion order. */
    var keys: seq<T>

    ghost predicate Valid()
      reads this
    {
      Distinct(keys)
    }

    /** `OrderedSet(iterable)`; an empty or absent iterable gives the empty set. */
    constructor (init: seq<T>)
      ensures Valid() && keys == FromKeys(init)
    {
      FromKeysSpec(init);
      keys := FromKeys(init);
    }

    method Add(x: T)
      requires Valid()
      modifies this
      ensures Valid() && keys == Added(old(keys), x)
    {
      AddedSpec(keys, x);
      if x !in keys {
        keys := keys + [x];
      }
    }

    method Clear()
      modifies this
      ensures Valid() && keys == []
    {
      keys := [];
    }

    method Discard(x: T)
      requires Valid()
      modifies this
      ensures Valid() && keys == Removed(old(keys), x)
    {
      RemovedSpec(keys, x);
      keys := Removed(keys, x);
    }

    /** `self[index]`: the element of that insertion rank. `islice` refuses a
        negative index with ValueError; an index at or past the end ends the
        iteration and becomes IndexError. */
    method GetItem(index: int) returns (r: Lookup<T>)
      requires Valid()
      ensures index < 0 <==> r.BadIndex?
      ensures index >= |keys| <==> r.OutOfRange?
      ensures r.Found? ==> 0 <= index < |keys| && r.element == keys[index]
      ensures r.Found? ==> forall j :: 0 <= j < |keys| && keys[j] == r.element ==> j == index
    {
      if index < 0 {
        r := BadIndex;
      } else if index < |keys| {
        r := Found(keys[index]);
      } else {
        r := OutOfRange;
      }
    }

    method Contains(x: T) returns (b: bool)
      ensures b <==> x in keys
    {
      b := x in keys;
    }

    method Length() returns (n: nat)
      ensures n == |keys|
    {
      n := |keys|;
    }

    /** `MutableSet.pop`: take the first element in iteration order and
        discard it; KeyError (None here) when the set is empty. */
    method Pop() returns (r: Option<T>)
      requires Valid()
      modifies this
      ensures Valid()
      ensures old(keys) == [] ==> r == None && keys == []
      ensures old(keys) != [] ==> r == Some(old(keys)[0]) && keys == old(keys)[1..]
    {
      if keys == [] {
        r := None;
      } else {
        var first := keys[0];
        RemovedAt(keys, 0);
        RemovedSpec(keys, first);
        r := Some(first);
        keys := Removed(keys, first);
      }
    }
  }
}
