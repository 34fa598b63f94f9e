/** Lists of records keyed by a string, as the front-end stores keep them:
    look-up of the first match, add-if-absent, merge into the first match,
    remove-all-matches and filtering, with the facts the stores rely on. */
module KeyedLists {
  import opened Common

  /** The keys of the records, in list order. */
  function Keys<T>(s: seq<T>, key: T -> string): (ks: seq<string>)
    ensures |ks| == |s| && forall i :: 0 <= i < |s| ==> ks[i] == key(s[i])
  {
    if s == [] then [] else Keys(s[..|s| - 1], key) + [key(s[|s| - 1])]
  }

  /** `findIndex`: the position of the first record with the key. */
  function FindIndex<T>(s: seq<T>, key: T -> string, v: string): (r: Option<nat>)
    ensures r.None? <==> v !in Keys(s, key)
    ensures r.Some? ==> r.value < |s| && key(s[r.value]) == v && forall i :: 0 <= i < r.value ==> key(s[i]) != v
  {
    if s == [] then None
    else if key(s[0]) == v then Some(0)
    else match FindIndex(s[1..], key, v)
      case None =>
        assert Keys(s, key) == [key(s[0])] + Keys(s[1..], key);
        None
      case Some(i) => Some(i + 1)
  }

  /** `some(...) ? nothing : push(x)`. */
  function AddIfAbsent<T>(s: seq<T>, key: T -> string, x: T): seq<T>
  {
    if key(x) in Keys(s, key) then s else s + [x]
  }

  /** `filter(r => key(r) !== v)`. */
  function RemoveKey<T>(s: seq<T>, key: T -> string, v: string): (r: seq<T>)
    ensures |r| <= |s|
  {
    if s == [] then [] else RemoveKey(s[..|s| - 1], key, v) + (if key(s[|s| - 1]) != v then [s[|s| - 1]] else [])
  }

  /** `filter(p)`. */
  function Select<T>(s: seq<T>, p: T -> bool): (r: seq<T>)
    ensures |r| <= |s|
  {
    if s == [] then [] else Select(s[..|s| - 1], p) + (if p(s[|s| - 1]) then [s[|s| - 1]] else [])
  }

  /** Replace the first record with the key by its merge with `p`; without a match, no change. */
  function UpdateFirst<T, P>(s: seq<T>, key: T -> string, v: string, merge: (T, P) -> T, p: P): seq<T>
  {
    match FindIndex(s, key, v)
    case None => s
    case Some(i) => s[i := merge(s[i], p)]
  }

  // ---- facts ----

  /** Searching a concatenation searches the first list, then the second. */
  lemma {:induction false} FindIndexAppend<T>(a: seq<T>, b: seq<T>, key: T -> string, v: string)
    ensures v in Keys(a, key) ==> FindIndex(a + b, key, v) == FindIndex(a, key, v)
    ensures v !in Keys(a, key) && v in Keys(b, key) ==> FindIndex(a + b, key, v) == Some(|a| + FindIndex(b, key, v).value)
    ensures v !in Keys(a, key) && v !in Keys(b, key) ==> FindIndex(a + b, key, v).None?
  {
    if a == [] {
      assert a + b == b;
    } else {
      assert (a + b)[1..] == a[1..] + b;
      assert Keys(a, key) == [key(a[0])] + Keys(a[1..], key);
      FindIndexAppend(a[1..], b, key, v);
    }
  }

  /** Adding keeps the keys distinct, and either appends the record or changes nothing. */
  lemma AddIfAbsentKeepsKeysDistinct<T>(s: seq<T>, key: T -> string, x: T)
    requires Distinct(Keys(s, key))
    ensures Distinct(Keys(AddIfAbsent(s, key, x), key))
    ensures key(x) in Keys(s, key) ==> AddIfAbsent(s, key, x) == s
    ensures key(x) !in Keys(s, key) ==> AddIfAbsent(s, key, x) == s + [x] && key(x) in Keys(AddIfAbsent(s, key, x), key)
  {
    var r := AddIfAbsent(s, key, x);
    if key(x) !in Keys(s, key) {
      assert Keys(r, key) == Keys(s, key) + [key(x)];
    }
  }

  /** Removing drops exactly the records with the key and keeps the order of the rest. */
  lemma {:induction false} RemoveKeyExactly<T>(s: seq<T>, key: T -> string, v: string)
    ensures IsSubsequence(RemoveKey(s, key, v), s)
    ensures forall x :: x in RemoveKey(s, key, v) <==> x in s && key(x) != v
    ensures v !in Keys(RemoveKey(s, key, v), key)
  {
    RemoveKeyInOrder(s, key, v);
    RemoveKeyMembers(s, key, v);
  }

  lemma {:induction false} RemoveKeyMembers<T>(s: seq<T>, key: T -> string, v: string)
    ensures forall x :: x in RemoveKey(s, key, v) <==> x in s && key(x) != v
    ensures v !in Keys(RemoveKey(s, key, v), key)
  {
    if s != [] {
      var init := s[..|s| - 1];
      var last := s[|s| - 1];
      RemoveKeyMembers(init, key, v);
      assert s == init + [last];
      var rest := RemoveKey(init, key, v);
      if key(last) != v {
        assert RemoveKey(s, key, v) == rest + [last];
        assert Keys(rest + [last], key) == Keys(rest, key) + [key(last)];
      } else {
        assert RemoveKey(s, key, v) == rest;
      }
    }
  }

  lemma {:induction false} RemoveKeyInOrder<T>(s: seq<T>, key: T -> string, v: string)
    ensures IsSubsequence(RemoveKey(s, key, v), s)
  {
    if s != [] {
      var init := s[..|s| - 1];
      RemoveKeyInOrder(init, key, v);
      var r := RemoveKey(s, key, v);
      if key(s[|s| - 1]) != v {
        assert r[..|r| - 1] == RemoveKey(init, key, v);
      } else {
        assert r == RemoveKey(init, key, v);
      }
    }
  }

  /** Removing keeps the keys of what is left distinct. */
  lemma {:induction false} RemoveKeyKeepsKeysDistinct<T>(s: seq<T>, key: T -> string, v: string)
    requires Distinct(Keys(s, key))
    ensures Distinct(Keys(RemoveKey(s, key, v), key))
  {
    if s != [] {
      var init := s[..|s| - 1];
      var last := s[|s| - 1];
      assert Keys(s, key) == Keys(init, key) + [key(last)];
      assert Distinct(Keys(init, key));
      RemoveKeyKeepsKeysDistinct(init, key, v);
      if key(last) != v {
        var rest := RemoveKey(init, key, v);
        RemoveKeyKeys(init, key, v);
        assert key(last) !in Keys(init, key);
        assert Keys(RemoveKey(s, key, v), key) == Keys(rest, key) + [key(last)];
        DistinctAppend(Keys(rest, key), key(last));
      }
    }
  }

  lemma {:induction false} RemoveKeyKeys<T>(s: seq<T>, key: T -> string, v: string)
    ensures forall w :: w in Keys(RemoveKey(s, key, v), key) ==> w in Keys(s, key)
  {
    if s != [] {
      var init := s[..|s| - 1];
      RemoveKeyKeys(init, key, v);
      assert Keys(s, key) == Keys(init, key) + [key(s[|s| - 1])];
      if key(s[|s| - 1]) != v {
        assert Keys(RemoveKey(s, key, v), key) == Keys(RemoveKey(init, key, v), key) + [key(s[|s| - 1])];
      }
    }
  }

  lemma DistinctAppend<T>(s: seq<T>, x: T)
    requires Distinct(s) && x !in s
    ensures Distinct(s + [x])
  {
  }

  /** Filtering keeps exactly the records that pass, in their order. */
  lemma {:induction false} SelectExactly<T>(s: seq<T>, p: T -> bool)
    ensures IsSubsequence(Select(s, p), s)
    ensures forall x :: x in Select(s, p) <==> x in s && p(x)
  {
    if s != [] {
      var init := s[..|s| - 1];
      SelectExactly(init, p);
      assert forall x :: x in s <==> x in init || x == s[|s| - 1];
      var r := Select(s, p);
      if p(s[|s| - 1]) {
        assert r[..|r| - 1] == Select(init, p);
      } else {
        assert r == Select(init, p);
      }
    }
  }

  /** Updating touches only the first record with the key; without one, nothing changes. */
  lemma UpdateFirstOnly<T, P>(s: seq<T>, key: T -> string, v: string, merge: (T, P) -> T, p: P)
    ensures v !in Keys(s, key) ==> UpdateFirst(s, key, v, merge, p) == s
    ensures |UpdateFirst(s, key, v, merge, p)| == |s|
    ensures forall i :: 0 <= i < |s| && Some(i) != FindIndex(s, key, v) ==> UpdateFirst(s, key, v, merge, p)[i] == s[i]
    ensures v in Keys(s, key) ==>
      var i := FindIndex(s, key, v).value;
      UpdateFirst(s, key, v, merge, p)[i] == merge(s[i], p) && forall k :: 0 <= k < i ==> key(s[k]) != v
  {
  }

  /** An update that keeps the key of the record it rewrites keeps all keys. */
  lemma UpdateFirstKeepsKeys<T, P>(s: seq<T>, key: T -> string, v: string, merge: (T, P) -> T, p: P)
    requires forall x :: key(merge(x, p)) == key(x)
    ensures Keys(UpdateFirst(s, key, v, merge, p), key) == Keys(s, key)
  {
  }
}
