/**
 * The callback registry of the physics system: three ordered lists of
 * participants (beforeStep, step, afterStep). Registering appends to every
 * list whose phase the participant implements; unregistering splices out
 * the element at `indexOf`, which for an absent participant is -1 and so
 * removes the LAST element of the list.
 */
module Registry {
  import opened JsArray

  /** `list.splice(list.indexOf(x), 1)`. */
  function RemoveFirst<T(==)>(list: seq<T>, x: T): seq<T>
  {
    SpliceOne(list, IndexOf(list, x))
  }

  /** The list after `if (implements) list.push(x)`. */
  function Registered<T>(list: seq<T>, implements: bool, x: T): seq<T>
  {
    if implements then list + [x] else list
  }

  /** The list after `if (implements) list.splice(list.indexOf(x), 1)`. */
  function Unregistered<T(==)>(list: seq<T>, implements: bool, x: T): seq<T>
  {
    if implements then RemoveFirst(list, x) else list
  }

  /** A present participant loses exactly its first occurrence; order is kept. */
  lemma RemoveFirstPresent<T>(list: seq<T>, x: T)
    requires x in list
    ensures 0 <= IndexOf(list, x) < |list|
    ensures list[IndexOf(list, x)] == x && x !in list[..IndexOf(list, x)]
    ensures RemoveFirst(list, x) == list[..IndexOf(list, x)] + list[IndexOf(list, x) + 1..]
  {
    var i := IndexOf(list, x);
    assert SpliceStart(|list|, i) == i;
  }

  /** Removing a present participant takes one copy of it out of the list's multiset. */
  lemma RemoveFirstMultiset<T>(list: seq<T>, x: T)
    requires x in list
    ensures multiset(RemoveFirst(list, x)) == multiset(list) - multiset{x}
  {
    RemoveFirstPresent(list, x);
    var i := IndexOf(list, x);
    var pre, post := list[..i], list[i + 1..];
    assert list == pre + [x] + post;
    assert multiset(list) == multiset(pre) + multiset{x} + multiset(post);
    assert multiset(RemoveFirst(list, x)) == multiset(pre) + multiset(post);
  }

  /** An absent participant makes `indexOf` return -1, so the last element goes. */
  lemma RemoveFirstAbsent<T>(list: seq<T>, x: T)
    requires x !in list
    ensures |list| == 0 ==> RemoveFirst(list, x) == []
    ensures |list| > 0 ==> RemoveFirst(list, x) == list[..|list| - 1]
  {
    SpliceMinusOne(list);
  }

  /** Unregistering right after registering restores a list that did not hold x. */
  lemma UnregisterAfterRegister<T>(list: seq<T>, implements: bool, x: T)
    requires x !in list
    ensures Unregistered(Registered(list, implements, x), implements, x) == list
  {
    if implements {
      var l := list + [x];
      assert l[..|list|] == list;
    }
  }

  /**
   * Without the freshness assumption, unregistering after registering still
   * restores the list up to order: it removes one copy of x, possibly an
   * earlier one than the copy just appended.
   */
  lemma UnregisterAfterRegisterMultiset<T>(list: seq<T>, implements: bool, x: T)
    ensures multiset(Unregistered(Registered(list, implements, x), implements, x)) == multiset(list)
  {
    if implements {
      RemoveFirstMultiset(list + [x], x);
    }
  }

  /** No deduplication: registering twice gives two more entries. */
  lemma RegisterTwice<T>(list: seq<T>, x: T)
    ensures multiset(Registered(Registered(list, true, x), true, x))[x] == multiset(list)[x] + 2
  {
    assert Registered(Registered(list, true, x), true, x) == list + [x, x];
  }
}
