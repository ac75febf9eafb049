/**
 * Replay protection for group messages: which event used a message index is kept in a
 * least recently used cache. The reference is the same check over an unbounded map.
 */
module ReplayCache {
  import opened Wrappers
  import opened Sequences
  import opened Dicts

  const CACHE_SIZE: nat := 100000

  /** Sender key, session id and message index. */
  type Key = (string, string, nat)

  datatype Info = Info(eventId: string, timestamp: int)

  datatype Use = Use(key: Key, info: Info)

  /** The cache; its keys go from the least to the most recently used one. */
  type Cache = Dict<Key, Info>

  /** One call of `message_index_ok`, over a cache of `n` entries. */
  function Check(n: nat, c: Cache, u: Use): (Cache, bool) {
    if u.key in c.vals then (Touch(c, u.key), c.vals[u.key] == u.info)
    else (Put(Evict(n, c), u.key, u.info), true)
  }

  /** A found key becomes the most recently used one. */
  function Touch(c: Cache, k: Key): Cache
    requires k in c.vals
  {
    Put(Pop(c, k), k, c.vals[k])
  }

  /** Room for one more entry. */
  function Evict(n: nat, c: Cache): Cache {
    if |c.keys| < n || c.keys == [] then c else Pop(c, c.keys[0])
  }

  function CacheAfter(n: nat, h: seq<Use>): Cache {
    if h == [] then Empty() else Check(n, CacheAfter(n, h[..|h| - 1]), h[|h| - 1]).0
  }

  /** The distinct keys of a history, by their last use. */
  function ByLastUse(h: seq<Use>): seq<Key> {
    if h == [] then [] else Remove(ByLastUse(h[..|h| - 1]), h[|h| - 1].key) + [h[|h| - 1].key]
  }

  predicate Used(h: seq<Use>, k: Key) {
    exists u :: u in h && u.key == k
  }

  /** The other keys used since the last use of `k`. */
  function OthersSince(h: seq<Use>, k: Key): set<Key> {
    if h == [] || h[|h| - 1].key == k then {} else OthersSince(h[..|h| - 1], k) + {h[|h| - 1].key}
  }

  lemma UsedNext(h: seq<Use>, k: Key)
    requires h != []
    ensures Used(h, k) <==> h[|h| - 1].key == k || Used(h[..|h| - 1], k)
  {
    assert h == h[..|h| - 1] + [h[|h| - 1]];
  }

  lemma {:induction false} ByLastUseHolds(h: seq<Use>)
    ensures Distinct(ByLastUse(h))
    ensures forall k :: k in ByLastUse(h) <==> Used(h, k)
  {
    if h == [] {
    } else {
      var before, k := h[..|h| - 1], h[|h| - 1].key;
      ByLastUseHolds(before);
      RemoveDistinct(ByLastUse(before), k);
      DistinctAppend(Remove(ByLastUse(before), k), k);
      forall j ensures j in ByLastUse(h) <==> Used(h, j) {
        UsedNext(h, j);
      }
    }
  }

  lemma {:induction false} RemoveConcat<T>(a: seq<T>, b: seq<T>, x: T)
    ensures Remove(a + b, x) == if x in a then Remove(a, x) + b else a + Remove(b, x)
  {
    if a == [] {
      assert a + b == b;
    } else {
      var head, tail := a[0], a[1..];
      assert (a + b)[0] == head && (a + b)[1..] == tail + b;
      assert a == [head] + tail;
      if head != x {
        assert Remove(a + b, x) == [head] + Remove(tail + b, x) && Remove(a, x) == [head] + Remove(tail, x);
        hide Remove;
        RemoveConcat(tail, b, x);
        Reassociate([head], Remove(tail, x), b);
        Reassociate([head], tail, Remove(b, x));
      }
    }
  }

  /** A use of another key, seen from `x`: the parts in front of it and behind it change on their own. */
  lemma RemoveAround<T>(a: seq<T>, x: T, b: seq<T>, y: T)
    requires y != x
    ensures Remove(a + [x] + b, y) + [y] ==
            (if y in a then Remove(a, y) else a) + [x] + ((if y in a then b else Remove(b, y)) + [y])
  {
    RemoveConcat(a + [x], b, y);
    RemoveConcat(a, [x], y);
    assert Remove([x], y) == [x];
    hide Remove;
    if y in a {
      Reassociate(Remove(a, y) + [x], b, [y]);
    } else {
      Reassociate(a + [x], Remove(b, y), [y]);
    }
  }

  /** The keys behind `k` in the order of last use are those used since. */
  lemma {:induction false} BehindIsOthersSince(h: seq<Use>, k: Key) returns (front: seq<Key>, behind: seq<Key>)
    requires Used(h, k)
    ensures ByLastUse(h) == front + [k] + behind
    ensures Elems(behind) == OthersSince(h, k)
  {
    var before, j := h[..|h| - 1], h[|h| - 1].key;
    if j == k {
      front, behind := Remove(ByLastUse(before), k), [];
      assert front + [k] + behind == front + [k];
    } else {
      UsedNext(h, k);
      ByLastUseHolds(before);
      var a, b := BehindIsOthersSince(before, k);
      RemoveAround(a, k, b, j);
      front := if j in a then Remove(a, j) else a;
      behind := (if j in a then b else Remove(b, j)) + [j];
      DistinctConcat(a + [k], b);
      BehindGrows(a, b, j);
      hide Remove, Distinct, Used, Elems;
    }
  }

  lemma BehindGrows<T>(a: seq<T>, b: seq<T>, y: T)
    requires Distinct(b)
    ensures Elems((if y in a then b else Remove(b, y)) + [y]) == Elems(b) + {y}
  {
    RemoveDistinct(b, y);
    assert Elems(Remove(b, y)) == Elems(b) - {y};
    hide Remove, Distinct;
    var r := if y in a then b else Remove(b, y);
    ElemsAppend(r, y);
    assert Elems(b) - {y} + {y} == Elems(b) + {y};
  }

  lemma ElemsAppend<T>(s: seq<T>, x: T)
    ensures Elems(s + [x]) == Elems(s) + {x}
  {
  }

  function LastOf<T>(n: nat, s: seq<T>): seq<T> {
    if |s| <= n then s else s[|s| - n..]
  }

  lemma LastOfConcat<T>(n: nat, a: seq<T>, b: seq<T>)
    requires |b| >= n || a == []
    ensures LastOf(n, a + b) == LastOf(n, b)
  {
    if a == [] {
      assert a + b == b;
    }
  }

  /** The kept keys after a use of `k`. */
  function NextKept(n: nat, kept: seq<Key>, k: Key): seq<Key> {
    (if k in kept then Remove(kept, k) else if |kept| < n || kept == [] then kept else kept[1..]) + [k]
  }

  lemma KeptNext(n: nat, kept: seq<Key>, k: Key)
    requires 0 < n && |kept| <= n
    ensures LastOf(n, (if k in kept then Remove(kept, k) else kept) + [k]) == NextKept(n, kept, k)
  {
    hide Remove;
    if k !in kept && |kept| == n {
      assert (kept + [k])[1..] == kept[1..] + [k];
    }
  }

  /** Moving `k` to the end commutes with keeping the last `n`. */
  lemma LastAfterUse(n: nat, s: seq<Key>, k: Key)
    requires n > 0 && Distinct(s)
    ensures LastOf(n, Remove(s, k) + [k]) == NextKept(n, LastOf(n, s), k)
  {
    var kept := LastOf(n, s);
    var gone := s[..|s| - |kept|];
    assert s == gone + kept;
    DistinctConcat(gone, kept);
    RemoveConcat(gone, kept, k);
    KeptNext(n, kept, k);
    assert k in gone ==> k in Elems(gone) && k !in Elems(kept);
    assert k in kept ==> k in Elems(kept);
    hide Distinct, Remove, Elems, NextKept;
    var rest := if k in kept then Remove(kept, k) else kept;
    var front := if k in gone then Remove(gone, k) else gone;
    Reassociate(front, rest, [k]);
    LastOfConcat(n, front, rest + [k]);
  }

  /** The cached keys are the `n` distinct keys used last. */
  lemma {:induction false} CacheHoldsLast(n: nat, h: seq<Use>)
    requires n > 0
    ensures CacheAfter(n, h).keys == LastOf(n, ByLastUse(h))
  {
    if h == [] {
    } else {
      var before, u := h[..|h| - 1], h[|h| - 1];
      CacheHoldsLast(n, before);
      ByLastUseHolds(before);
      LastAfterUse(n, ByLastUse(before), u.key);
      NextKeys(n, CacheAfter(n, before), u);
    }
  }

  lemma NextKeys(n: nat, c: Cache, u: Use)
    requires n > 0 && |c.keys| <= n
    ensures Check(n, c, u).0.keys == NextKept(n, c.keys, u.key)
  {
    KeysAre(c);
    RemoveDistinct(c.keys, u.key);
  }

  /** A key is cached exactly when it was used and fewer than `n` other keys were used since. */
  lemma CachedIff(n: nat, h: seq<Use>, k: Key)
    requires n > 0
    ensures k in CacheAfter(n, h).vals <==> Used(h, k) && |OthersSince(h, k)| < n
  {
    KeysAre(CacheAfter(n, h));
    CacheHoldsLast(n, h);
    ByLastUseHolds(h);
    var s := ByLastUse(h);
    if k in s {
      var front, behind := BehindIsOthersSince(h, k);
      DistinctConcat(front + [k], behind);
      DistinctCard(behind);
      DistinctIndices(s);
      assert s[|front|] == k;
      if |behind| < n && |s| > n {
        assert s[|s| - n..][|front| - (|s| - n)] == k;
      }
    }
  }

  /** The information of the use that put `k` into the cache the last time. */
  function Anchor(n: nat, h: seq<Use>, k: Key): Option<Info> {
    if h == [] then None
    else
      var before, u := h[..|h| - 1], h[|h| - 1];
      if u.key != k || (Used(before, k) && |OthersSince(before, k)| < n) then Anchor(n, before, k) else Some(u.info)
  }

  lemma {:induction false} CachedIsAnchor(n: nat, h: seq<Use>, k: Key)
    requires n > 0 && k in CacheAfter(n, h).vals
    ensures Anchor(n, h, k) == Some(CacheAfter(n, h).vals[k])
  {
    if h == [] {
    } else {
      var before, u := h[..|h| - 1], h[|h| - 1];
      CachedIff(n, before, k);
      if k in CacheAfter(n, before).vals {
        CachedIsAnchor(n, before, k);
      }
    }
  }

  /** The reference: the same check over a map without a limit. */
  function CheckAll(m: map<Key, Info>, u: Use): (map<Key, Info>, bool) {
    if u.key in m then (m, m[u.key] == u.info) else (m[u.key := u.info], true)
  }

  function AllAfter(h: seq<Use>): map<Key, Info> {
    if h == [] then map[] else CheckAll(AllAfter(h[..|h| - 1]), h[|h| - 1]).0
  }

  lemma {:induction false} AllKnowsUsed(h: seq<Use>, k: Key)
    ensures k in AllAfter(h) <==> Used(h, k)
  {
    if h == [] {
    } else {
      AllKnowsUsed(h[..|h| - 1], k);
      UsedNext(h, k);
    }
  }

  /**
   * Exactly when the cache gives the answer of the unbounded map: the key is new; or it was
   * dropped and the event is the first one; or it is cached and the event that put it there
   * and the first one are both this event or both another one.
   */
  lemma AgreesIff(n: nat, h: seq<Use>, u: Use)
    requires n > 0
    ensures
      var all := AllAfter(h);
      Check(n, CacheAfter(n, h), u).1 == CheckAll(all, u).1 <==>
      || !Used(h, u.key)
      || (if |OthersSince(h, u.key)| < n then (Anchor(n, h, u.key) == Some(u.info) <==> Get(all, u.key) == Some(u.info))
          else Get(all, u.key) == Some(u.info))
  {
    CachedIff(n, h, u.key);
    AllKnowsUsed(h, u.key);
    if u.key in CacheAfter(n, h).vals {
      CachedIsAnchor(n, h, u.key);
    }
  }

  function Get(m: map<Key, Info>, k: Key): Option<Info> {
    if k in m then Some(m[k]) else None
  }

  /** The cache and the unbounded map give the same answers to all uses of a history. */
  ghost predicate SameAnswers(n: nat, h: seq<Use>) {
    forall i :: 0 <= i < |h| ==> Check(n, CacheAfter(n, h[..i]), h[i]).1 == CheckAll(AllAfter(h[..i]), h[i]).1
  }

  /** Whenever a key comes back after `n` or more other keys, it comes back with its first event. */
  ghost predicate ReturnsAsFirst(n: nat, h: seq<Use>) {
    forall i :: 0 <= i < |h| && Used(h[..i], h[i].key) && |OthersSince(h[..i], h[i].key)| >= n ==>
      Get(AllAfter(h[..i]), h[i].key) == Some(h[i].info)
  }

  lemma Shorter(h: seq<Use>)
    requires h != []
    ensures var before := h[..|h| - 1]; forall i :: 0 <= i <= |before| ==> before[..i] == h[..i]
  {
  }

  /** As long as keys return with their first event, every cached event is the first one of its key. */
  lemma {:induction false} AnchorIsFirst(n: nat, h: seq<Use>, k: Key)
    requires n > 0 && ReturnsAsFirst(n, h)
    ensures Used(h, k) ==> Anchor(n, h, k) == Get(AllAfter(h), k)
  {
    if h == [] {
    } else {
      var before, u := h[..|h| - 1], h[|h| - 1];
      Shorter(h);
      AnchorIsFirst(n, before, k);
      AllKnowsUsed(before, k);
      UsedNext(h, k);
    }
  }

  /**
   * The refinement over whole histories: the cache answers every use like the unbounded map
   * exactly when each key that returns after `n` or more other keys returns with its first event.
   */
  lemma SameAnswersIff(n: nat, h: seq<Use>)
    requires n > 0
    ensures SameAnswers(n, h) <==> ReturnsAsFirst(n, h)
  {
    forall i | 0 <= i < |h| && SameAnswers(n, h) && Used(h[..i], h[i].key) && |OthersSince(h[..i], h[i].key)| >= n
      ensures Get(AllAfter(h[..i]), h[i].key) == Some(h[i].info)
    {
      AgreesIff(n, h[..i], h[i]);
    }
    forall i | 0 <= i < |h| && ReturnsAsFirst(n, h)
      ensures Check(n, CacheAfter(n, h[..i]), h[i]).1 == CheckAll(AllAfter(h[..i]), h[i]).1
    {
      assert ReturnsAsFirst(n, h[..i]) by {
        assert forall j :: 0 <= j < i ==> h[..i][..j] == h[..j];
      }
      AnchorIsFirst(n, h[..i], h[i].key);
      AgreesIff(n, h[..i], h[i]);
    }
  }

  /** Between two uses of `k` there were always fewer than `n` other keys. */
  ghost predicate NeverDropped(n: nat, h: seq<Use>, k: Key) {
    forall i :: 0 <= i < |h| && h[i].key == k && Used(h[..i], k) ==> |OthersSince(h[..i], k)| < n
  }

  lemma {:induction false} NeverDroppedKeepsFirst(n: nat, h: seq<Use>, k: Key)
    requires NeverDropped(n, h, k)
    ensures Anchor(n, h, k) == Get(AllAfter(h), k)
  {
    if h == [] {
    } else {
      var before := h[..|h| - 1];
      forall i | 0 <= i < |before| && before[i].key == k && Used(before[..i], k)
          ensures |OthersSince(before[..i], k)| < n {
        assert before[..i] == h[..i];
      }
      NeverDroppedKeepsFirst(n, before, k);
      AllKnowsUsed(before, k);
    }
  }

  /** While a key is never dropped, the cache answers like the unbounded map. */
  lemma AgreesWhileNeverDropped(n: nat, h: seq<Use>, u: Use)
    requires n > 0 && NeverDropped(n, h + [u], u.key)
    ensures Check(n, CacheAfter(n, h), u).1 == CheckAll(AllAfter(h), u).1
  {
    var all := h + [u];
    assert all[..|h|] == h;
    assert Used(h, u.key) ==> |OthersSince(h, u.key)| < n by {
      assert all[|h|].key == u.key;
    }
    forall i | 0 <= i < |h| && h[i].key == u.key && Used(h[..i], u.key) ensures |OthersSince(h[..i], u.key)| < n {
      assert all[..i] == h[..i] && all[i] == h[i];
    }
    NeverDroppedKeepsFirst(n, h, u.key);
    AgreesIff(n, h, u);
  }

  /** What is stored for a key does not change while it stays in the cache. */
  lemma StoredNeverChanges(n: nat, c: Cache, u: Use, k: Key)
    requires n > 0 && k in c.vals && k in Check(n, c, u).0.vals
    ensures Check(n, c, u).0.vals[k] == c.vals[k]
  {
  }

  const KEY: Key := ("", "", 0)

  /** `m` uses of distinct keys other than KEY. */
  function OtherUses(m: nat): seq<Use> {
    if m == 0 then [] else OtherUses(m - 1) + [Use(("", "", m), Info("", 0))]
  }

  lemma {:induction false} OthersSinceFirst(first: Info, m: nat)
    ensures var h := [Use(KEY, first)] + OtherUses(m);
      |OthersSince(h, KEY)| == m && forall k :: k in OthersSince(h, KEY) ==> k.2 <= m
  {
    if m == 0 {
    } else {
      var h := [Use(KEY, first)] + OtherUses(m);
      assert h[..|h| - 1] == [Use(KEY, first)] + OtherUses(m - 1);
      OthersSinceFirst(first, m - 1);
    }
  }

  lemma {:induction false} AllKeepsFirst(u: Use, h: seq<Use>)
    ensures u.key in AllAfter([u] + h) && AllAfter([u] + h)[u.key] == u.info
  {
    if h == [] {
      assert ([u] + h)[..0] == [];
    } else {
      assert ([u] + h)[..|h|] == [u] + h[..|h| - 1];
      AllKeepsFirst(u, h[..|h| - 1]);
    }
  }

  /**
   * Few other uses since the last one are not enough: for a cache of any size there is a
   * history after which the original event is turned away although its key was used just now.
   */
  lemma RecentUseIsNotEnough(n: nat)
    requires n > 0
    ensures
      var h := [Use(KEY, Info("$1", 0))] + OtherUses(n) + [Use(KEY, Info("$2", 0))];
      var u := Use(KEY, Info("$1", 0));
      && Used(h, KEY) && OthersSince(h, KEY) == {}
      && !Check(n, CacheAfter(n, h), u).1 && CheckAll(AllAfter(h), u).1
  {
    var first, again := Use(KEY, Info("$1", 0)), Use(KEY, Info("$2", 0));
    var before := [first] + OtherUses(n);
    var h := before + [again];
    assert h[..|h| - 1] == before && h[|h| - 1] == again && again in h;
    assert h == [first] + (OtherUses(n) + [again]);
    OthersSinceFirst(first.info, n);
    AllKeepsFirst(first, OtherUses(n) + [again]);
    assert Anchor(n, h, KEY) == Some(again.info);
    AgreesIff(n, h, first);
  }

  /** `message_index_store` and the check that uses it. */
  class ReplayGuard {
    const size: nat := CACHE_SIZE
    var store: Cache

    constructor ()
      ensures Valid() && store == Empty()
    {
      store := Empty();
    }

    ghost predicate Valid()
      reads this
    {
      |store.keys| <= size == 100000
    }

    /** Looking up a key of the cache also makes it the most recently used one. */
    method Lookup(k: Key) returns (r: Option<Info>)
      modifies this`store
      ensures r == Get(old(store).vals, k)
      ensures store == if k in old(store).vals then Touch(old(store), k) else old(store)
    {
      if k !in store.vals {
        return None;
      }
      var info := store.vals[k];
      store := Pop(store, k);
      store := Put(store, k, info);
      return Some(info);
    }

    /** Adding a key drops entries from the front until there is room. */
    method Add(k: Key, info: Info)
      requires Valid() && k !in store.vals
      modifies this`store
      ensures store == Put(Evict(size, old(store)), k, info)
    {
      KeysAre(store);
      while store.keys != [] && |store.keys| + 1 > size
        invariant |store.keys| <= |old(store).keys|
        invariant store == old(store) || (store == Evict(size, old(store)) && (store.keys == [] || |store.keys| < size))
        decreases |store.keys|
      {
        KeysAre(store);
        store := Pop(store, store.keys[0]);
      }
      store := Put(store, k, info);
    }

    method MessageIndexOk(senderKey: string, sessionId: string, index: nat, eventId: string, timestamp: int)
      returns (ok: bool)
      requires Valid()
      modifies this`store
      ensures Valid()
      ensures (store, ok) == Check(size, old(store), Use((senderKey, sessionId, index), Info(eventId, timestamp)))
    {
      var key: Key := (senderKey, sessionId, index);
      ghost var u := Use(key, Info(eventId, timestamp));
      NextKeys(size, store, u);
      var known := Lookup(key);
      if known.None? {
        Add(key, Info(eventId, timestamp));
        return true;
      }
      if known.value.eventId != eventId || known.value.timestamp != timestamp {
        return false;
      }
      return true;
    }
  }
}
