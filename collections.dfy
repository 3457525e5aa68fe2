/** The array operations the store is built from: `filter` on a key,
    `find` by id, `map` with a merge on the matching records, and the set of
    keys a collection holds. Each works on any record type through a key
    function, so that one proof serves all six collections. */
module Collections {
  import opened Model

  /** The set of keys that occur in `s`. */
  function Keys<T(!new)>(s: seq<T>, key: T -> Id): (r: set<Id>)
    ensures forall x :: x in s ==> key(x) in r
  {
    if |s| == 0 then {} else {key(s[0])} + Keys(s[1..], key)
  }

  /** Every key in `Keys(s, key)` is the key of a record of `s`. */
  lemma {:induction false} KeyWitness<T(!new)>(s: seq<T>, key: T -> Id, k: Id) returns (x: T)
    requires k in Keys(s, key)
    ensures x in s && key(x) == k
  {
    if key(s[0]) == k {
      x := s[0];
    } else {
      x := KeyWitness(s[1..], key, k);
    }
  }

  /** `s.filter(x => keys.includes(key(x)))`. */
  function Keep<T(!new)>(s: seq<T>, key: T -> Id, keys: set<Id>): (r: seq<T>)
    ensures |r| <= |s|
    ensures forall x :: x in r <==> x in s && key(x) in keys
    ensures forall x :: multiset(r)[x] == if key(x) in keys then multiset(s)[x] else 0
  {
    if |s| == 0 then []
    else
      assert s == [s[0]] + s[1..];
      if key(s[0]) in keys then [s[0]] + Keep(s[1..], key, keys)
      else Keep(s[1..], key, keys)
  }

  /** `s.filter(x => !keys.includes(key(x)))`. */
  function Drop<T(!new)>(s: seq<T>, key: T -> Id, keys: set<Id>): (r: seq<T>)
    ensures |r| <= |s|
    ensures forall x :: x in r <==> x in s && key(x) !in keys
    ensures forall x :: multiset(r)[x] == if key(x) in keys then 0 else multiset(s)[x]
  {
    if |s| == 0 then []
    else
      assert s == [s[0]] + s[1..];
      if key(s[0]) in keys then Drop(s[1..], key, keys)
      else [s[0]] + Drop(s[1..], key, keys)
  }

  /** `s.find(x => key(x) === k)`: the first record with key `k`, if any. */
  function Find<T(!new)>(s: seq<T>, key: T -> Id, k: Id): (r: Option<T>)
    ensures r.None? <==> k !in Keys(s, key)
    ensures r.Some? ==> exists i :: 0 <= i < |s| && s[i] == r.value && key(s[i]) == k &&
                                    forall j :: 0 <= j < i ==> key(s[j]) != k
  {
    if |s| == 0 then None
    else if key(s[0]) == k then Some(s[0])
    else
      var r := Find(s[1..], key, k);
      FindShift(s, key, k, r);
      r
  }

  lemma FindShift<T(!new)>(s: seq<T>, key: T -> Id, k: Id, r: Option<T>)
    requires |s| > 0 && key(s[0]) != k
    requires r.Some? ==> exists i :: 0 <= i < |s| - 1 && s[1..][i] == r.value && key(s[1..][i]) == k &&
                                    forall j :: 0 <= j < i ==> key(s[1..][j]) != k
    ensures r.Some? ==> exists i :: 0 <= i < |s| && s[i] == r.value && key(s[i]) == k &&
                                    forall j :: 0 <= j < i ==> key(s[j]) != k
  {
    if r.Some? {
      var i :| 0 <= i < |s| - 1 && s[1..][i] == r.value && key(s[1..][i]) == k &&
               forall j :: 0 <= j < i ==> key(s[1..][j]) != k;
      forall j | 0 <= j < i + 1 ensures key(s[j]) != k {
        if j > 0 { assert s[j] == s[1..][j - 1]; }
      }
      assert s[i + 1] == r.value;
    }
  }

  /** A record appended under a key that `s` does not hold yet is what a
      search for that key finds. */
  lemma {:induction false} FindFresh<T(!new)>(s: seq<T>, key: T -> Id, x: T)
    requires key(x) !in Keys(s, key)
    ensures Find(s + [x], key, key(x)) == Some(x)
  {
    if |s| == 0 {
      assert s + [x] == [x];
    } else {
      assert (s + [x])[0] == s[0] && (s + [x])[1..] == s[1..] + [x];
      FindFresh(s[1..], key, x);
    }
  }

  /** `s.map(x => x.id === id ? {...x, ...patch, updatedAt: now} : x)`. */
  function UpdateWhere<D(!new), P>(s: seq<Rec<D>>, id: Id, patch: P, merge: (D, P) -> D, now: Stamp): (r: seq<Rec<D>>)
    ensures |r| == |s|
    ensures forall i :: 0 <= i < |s| ==>
      r[i] == if s[i].id == id then s[i].(data := merge(s[i].data, patch), updatedAt := Some(now)) else s[i]
  {
    if |s| == 0 then []
    else
      var head := if s[0].id == id then s[0].(data := merge(s[0].data, patch), updatedAt := Some(now)) else s[0];
      [head] + UpdateWhere(s[1..], id, patch, merge, now)
  }

  // ---- Laws of the operations ----

  /** A filter keeps the order of the records: filtering a concatenation
      is concatenating the filtered parts. */
  lemma {:induction false} KeepAppend<T(!new)>(s: seq<T>, t: seq<T>, key: T -> Id, keys: set<Id>)
    ensures Keep(s + t, key, keys) == Keep(s, key, keys) + Keep(t, key, keys)
  {
    if |s| == 0 {
      assert s + t == t;
    } else {
      var x, rest := s[0], s[1..];
      ConsSplit(s, t);
      KeepAppend(rest, t, key, keys);
      KeepCons(x, rest + t, key, keys);
      KeepCons(x, rest, key, keys);
      ConcatAssoc(if key(x) in keys then [x] else [], Keep(rest, key, keys), Keep(t, key, keys));
    }
  }

  lemma {:induction false} DropAppend<T(!new)>(s: seq<T>, t: seq<T>, key: T -> Id, keys: set<Id>)
    ensures Drop(s + t, key, keys) == Drop(s, key, keys) + Drop(t, key, keys)
  {
    if |s| == 0 {
      assert s + t == t;
    } else {
      var x, rest := s[0], s[1..];
      ConsSplit(s, t);
      DropAppend(rest, t, key, keys);
      DropCons(x, rest + t, key, keys);
      DropCons(x, rest, key, keys);
      ConcatAssoc(if key(x) !in keys then [x] else [], Drop(rest, key, keys), Drop(t, key, keys));
    }
  }

  lemma ConsSplit<T>(s: seq<T>, t: seq<T>)
    requires |s| > 0
    ensures s == [s[0]] + s[1..] && s + t == [s[0]] + (s[1..] + t)
  {
  }

  lemma ConcatAssoc<T>(a: seq<T>, b: seq<T>, c: seq<T>)
    ensures a + (b + c) == (a + b) + c
  {
  }

  lemma KeepCons<T(!new)>(x: T, s: seq<T>, key: T -> Id, keys: set<Id>)
    ensures Keep([x] + s, key, keys) == (if key(x) in keys then [x] else []) + Keep(s, key, keys)
  {
    assert ([x] + s)[0] == x && ([x] + s)[1..] == s;
  }

  lemma DropCons<T(!new)>(x: T, s: seq<T>, key: T -> Id, keys: set<Id>)
    ensures Drop([x] + s, key, keys) == (if key(x) !in keys then [x] else []) + Drop(s, key, keys)
  {
    assert ([x] + s)[0] == x && ([x] + s)[1..] == s;
  }

  lemma {:induction false} KeysAppend<T(!new)>(s: seq<T>, t: seq<T>, key: T -> Id)
    ensures Keys(s + t, key) == Keys(s, key) + Keys(t, key)
  {
    if |s| == 0 {
      assert s + t == t;
    } else {
      assert (s + t)[0] == s[0] && (s + t)[1..] == s[1..] + t;
      KeysAppend(s[1..], t, key);
    }
  }

  /** The keys of a prefix grow one record at a time. */
  lemma PrefixKeys<D(!new)>(s: seq<Rec<D>>, i: nat)
    requires i < |s|
    ensures Keys(s[..i + 1], IdOf) == Keys(s[..i], IdOf) + {s[i].id}
  {
    assert s[..i + 1] == s[..i] + [s[i]];
    KeysAppend(s[..i], [s[i]], IdOf);
  }

  /** Filtering out one set of keys and then another is filtering out both. */
  lemma {:induction false} DropDrop<T(!new)>(s: seq<T>, key: T -> Id, a: set<Id>, b: set<Id>)
    ensures Drop(Drop(s, key, a), key, b) == Drop(s, key, a + b)
  {
    if |s| > 0 {
      DropDrop(s[1..], key, a, b);
      if key(s[0]) !in a {
        assert Drop(s, key, a) == [s[0]] + Drop(s[1..], key, a);
        assert Drop(s, key, a)[1..] == Drop(s[1..], key, a);
      }
    }
  }

  /** Filtering out keys that no record has leaves the collection as it is. */
  lemma {:induction false} DropAbsent<T(!new)>(s: seq<T>, key: T -> Id, a: set<Id>)
    requires forall x :: x in s ==> key(x) !in a
    ensures Drop(s, key, a) == s
  {
    if |s| > 0 {
      assert s[0] in s && key(s[0]) !in a;
      assert forall x :: x in s[1..] ==> x in s;
      DropAbsent(s[1..], key, a);
      assert s == [s[0]] + s[1..];
    }
  }

  /** Filtering out the same keys twice is filtering them out once. */
  lemma DropIdempotent<T(!new)>(s: seq<T>, key: T -> Id, a: set<Id>)
    ensures Drop(Drop(s, key, a), key, a) == Drop(s, key, a)
  {
    DropAbsent(Drop(s, key, a), key, a);
  }

  lemma {:induction false} KeepNone<T(!new)>(s: seq<T>, key: T -> Id)
    ensures Keep(s, key, {}) == []
  {
    if |s| > 0 { KeepNone(s[1..], key); }
  }

  /** An update whose id matches no record leaves the collection unchanged. */
  lemma UpdateAbsent<D(!new), P>(s: seq<Rec<D>>, id: Id, patch: P, merge: (D, P) -> D, now: Stamp)
    requires id !in Keys(s, IdOf)
    ensures UpdateWhere(s, id, patch, merge, now) == s
  {
    var r := UpdateWhere(s, id, patch, merge, now);
    forall i | 0 <= i < |s| ensures r[i] == s[i] {
      assert s[i] in s;
      assert IdOf(s[i]) == s[i].id;
    }
  }

  /** An update never changes which ids a collection holds. */
  lemma {:induction false} UpdateKeepsIds<D(!new), P>(s: seq<Rec<D>>, id: Id, patch: P, merge: (D, P) -> D, now: Stamp)
    ensures Keys(UpdateWhere(s, id, patch, merge, now), IdOf) == Keys(s, IdOf)
  {
    if |s| > 0 {
      var r := UpdateWhere(s, id, patch, merge, now);
      assert r[1..] == UpdateWhere(s[1..], id, patch, merge, now);
      UpdateKeepsIds(s[1..], id, patch, merge, now);
    }
  }

  /** Every record after an update is either an old record or an old record
      with this id, merged and stamped. */
  lemma UpdateMembers<D(!new), P>(s: seq<Rec<D>>, id: Id, patch: P, merge: (D, P) -> D, now: Stamp, x: Rec<D>)
    requires x in UpdateWhere(s, id, patch, merge, now)
    ensures x in s || exists y :: y in s && y.id == id && x == y.(data := merge(y.data, patch), updatedAt := Some(now))
  {
    var r := UpdateWhere(s, id, patch, merge, now);
    var i :| 0 <= i < |r| && r[i] == x;
    assert s[i] in s;
  }
}
