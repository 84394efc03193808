/** The size-bounded least-recently-used map (internal/auth/lru.go). A cache is its items, the most recently used
    first. */
module Lru {
  import opened Prelude

  datatype Item<V> = Item(key: string, val: V)

  /** Where a key stands, or the length when it is not held. */
  function Pos<V>(c: seq<Item<V>>, key: string): (k: nat)
    ensures k <= |c| && (k < |c| ==> c[k].key == key) && forall i :: 0 <= i < k ==> c[i].key != key
  {
    if c == [] then 0 else if c[0].key == key then 0 else 1 + Pos(c[1..], key)
  }

  predicate Holds<V>(c: seq<Item<V>>, key: string) { Pos(c, key) < |c| }

  function Value<V>(c: seq<Item<V>>, key: string): V
    requires Holds(c, key)
  {
    c[Pos(c, key)].val
  }

  function Remove<V>(c: seq<Item<V>>, key: string): seq<Item<V>> {
    var k := Pos(c, key);
    if k == |c| then c else c[..k] + c[k + 1..]
  }

  /** A hit moves the item to the front. */
  function Touch<V>(c: seq<Item<V>>, key: string): seq<Item<V>> {
    if Holds(c, key) then [Item(key, Value(c, key))] + Remove(c, key) else c
  }

  /** Storing puts the item in front and evicts from the back what no longer fits. */
  function Put<V>(c: seq<Item<V>>, max: nat, key: string, val: V): seq<Item<V>> {
    if Holds(c, key) then [Item(key, val)] + Remove(c, key) else ([Item(key, val)] + c)[..Min(|c| + 1, max)]
  }

  ghost predicate Distinct<V>(c: seq<Item<V>>) { forall i, j :: 0 <= i < j < |c| ==> c[i].key != c[j].key }

  // ------------------------------------------------------------------ what the operations keep

  lemma RemoveShape<V>(c: seq<Item<V>>, key: string)
    requires Distinct(c)
    ensures Distinct(Remove(c, key)) && !Holds(Remove(c, key), key) && |Remove(c, key)| == |c| - if Holds(c, key) then 1
        else 0
  {
    var p, r := Pos(c, key), Remove(c, key);
    assert p < |c| ==> forall i :: 0 <= i < |r| ==> r[i] == c[if i < p then i else i + 1];
  }

  lemma RemoveOther<V>(c: seq<Item<V>>, key: string, k: string)
    requires Distinct(c) && k != key
    ensures (Holds(Remove(c, key), k) <==> Holds(c, k)) && (Holds(c, k) ==> Value(Remove(c, key), k) == Value(c, k))
  {
    var p, r := Pos(c, key), Remove(c, key);
    RemoveShape(c, key);
    if p < |c| {
      assert forall i :: 0 <= i < |r| ==> r[i] == c[if i < p then i else i + 1];
      if Holds(c, k) {
        var q := Pos(c, k);
        Where(r, k, if q < p then q else q - 1);
      }
    }
  }

  lemma RemoveFacts<V>(c: seq<Item<V>>, key: string)
    requires Distinct(c)
    ensures Distinct(Remove(c, key)) && !Holds(Remove(c, key), key) && |Remove(c, key)| == |c| - if Holds(c, key) then 1
        else 0
    ensures forall k :: k != key ==>
              (Holds(Remove(c, key), k) <==> Holds(c, k)) && (Holds(c, k) ==> Value(Remove(c, key), k) == Value(c, k))
  {
    RemoveShape(c, key);
    forall k | k != key
      ensures (Holds(Remove(c, key), k) <==> Holds(c, k)) && (Holds(c, k) ==> Value(Remove(c, key), k) == Value(c, k))
    {
      RemoveOther(c, key, k);
    }
  }

  /** With distinct keys, a key is held at one place only. */
  lemma Where<V>(c: seq<Item<V>>, key: string, i: nat)
    requires Distinct(c) && i < |c| && c[i].key == key
    ensures Pos(c, key) == i
  {
  }

  lemma FrontFacts<V>(c: seq<Item<V>>, it: Item<V>)
    requires Distinct(c) && !Holds(c, it.key)
    ensures Distinct([it] + c) && Holds([it] + c, it.key) && Value([it] + c, it.key) == it.val
    ensures forall k :: k != it.key ==>
              (Holds([it] + c, k) <==> Holds(c, k)) && (Holds(c, k) ==> Value([it] + c, k) == Value(c, k))
  {
    assert ([it] + c)[1..] == c;
  }

  lemma TouchFacts<V>(c: seq<Item<V>>, key: string)
    requires Distinct(c)
    ensures Distinct(Touch(c, key)) && |Touch(c, key)| == |c|
    ensures forall k :: (Holds(Touch(c, key), k) <==> Holds(c, k))
                        && (Holds(c, k) ==> Value(Touch(c, key), k) == Value(c, k))
  {
    if Holds(c, key) {
      RemoveFacts(c, key);
      FrontFacts(Remove(c, key), Item(key, Value(c, key)));
    }
  }

  lemma {:induction false} PrefixHolds<V>(c: seq<Item<V>>, n: nat, key: string)
    requires n <= |c| && Holds(c[..n], key)
    ensures Holds(c, key) && Pos(c, key) == Pos(c[..n], key) && Value(c[..n], key) == Value(c, key)
  {
    if c[0].key != key {
      assert c[..n][1..] == c[1..][..n - 1];
      PrefixHolds(c[1..], n - 1, key);
    }
  }

  lemma PutFacts<V>(c: seq<Item<V>>, max: nat, key: string, val: V)
    requires Distinct(c) && |c| <= max && max > 0
    ensures var d := Put(c, max, key, val);
            && Distinct(d) && |d| <= max && Holds(d, key) && Value(d, key) == val
            && forall k :: k != key && Holds(d, k) ==> Holds(c, k) && Value(d, k) == Value(c, k)
  {
    if Holds(c, key) {
      RemoveFacts(c, key);
      FrontFacts(Remove(c, key), Item(key, val));
    } else {
      FrontFacts(c, Item(key, val));
      var all, n := [Item(key, val)] + c, Min(|c| + 1, max);
      forall k | k != key && Holds(all[..n], k) ensures Holds(c, k) && Value(all[..n], k) == Value(c, k) {
        PrefixHolds(all, n, k);
      }
    }
  }

  // ------------------------------------------------------------------ recency

  /** Uses of the cache: hits, stores and removals. */
  datatype Use = Hit(key: string) | Store(key: string) | Drop(key: string)

  function FirstAt(keys: seq<string>, key: string): (p: nat)
    ensures p <= |keys| && (p < |keys| ==> keys[p] == key) && forall i :: 0 <= i < p ==> keys[i] != key
  {
    if keys == [] || keys[0] == key then 0 else 1 + FirstAt(keys[1..], key)
  }

  function Without(keys: seq<string>, key: string): seq<string> {
    var p := FirstAt(keys, key);
    if p == |keys| then keys else keys[..p] + keys[p + 1..]
  }

  /** The reference: every key ever stored and not removed, the most recently used first. */
  function Recent(keys: seq<string>, u: Use): seq<string> {
    match u
    case Hit(k) => if k in keys then [k] + Without(keys, k) else keys
    case Store(k) => [k] + Without(keys, k)
    case Drop(k) => Without(keys, k)
  }

  ghost predicate Unique(keys: seq<string>) { forall i, j :: 0 <= i < j < |keys| ==> keys[i] != keys[j] }

  /** The cache holds the most recently used keys: it is a first part of the reference list. */
  ghost predicate MostRecent<V>(c: seq<Item<V>>, keys: seq<string>) {
    Unique(keys) && |c| <= |keys| && forall i :: 0 <= i < |c| ==> c[i].key == keys[i]
  }

  lemma SamePlace<V>(c: seq<Item<V>>, keys: seq<string>, key: string)
    requires MostRecent(c, keys)
    ensures Distinct(c) && if Holds(c, key) then FirstAt(keys, key) == Pos(c, key) else FirstAt(keys, key) >= |c|
  {
    var p := FirstAt(keys, key);
    if p < |c| { assert c[p].key == key; }
  }

  lemma WithoutUnique(keys: seq<string>, key: string)
    requires Unique(keys)
    ensures Unique(Without(keys, key)) && key !in Without(keys, key) && |Without(keys, key)| == |keys| - if key in keys
        then 1 else 0
  {
    var p, w := FirstAt(keys, key), Without(keys, key);
    if p < |keys| { assert forall i :: 0 <= i < |w| ==> w[i] == keys[if i < p then i else i + 1]; }
  }

  lemma DropKeeps<V>(c: seq<Item<V>>, keys: seq<string>, key: string)
    requires MostRecent(c, keys)
    ensures MostRecent(Remove(c, key), Without(keys, key))
  {
    SamePlace(c, keys, key);
    WithoutUnique(keys, key);
    var p, r, w := FirstAt(keys, key), Remove(c, key), Without(keys, key);
    forall i | 0 <= i < |r| ensures r[i].key == w[i] {
      if Holds(c, key) { assert r[i] == c[if i < p then i else i + 1] && w[i] == keys[if i < p then i else i + 1]; }
    }
  }

  lemma FrontKeeps<V>(c: seq<Item<V>>, keys: seq<string>, it: Item<V>)
    requires MostRecent(c, keys) && it.key !in keys
    ensures MostRecent([it] + c, [it.key] + keys)
  {
  }

  lemma HitKeeps<V>(c: seq<Item<V>>, keys: seq<string>, key: string)
    requires MostRecent(c, keys) && Holds(c, key)
    ensures MostRecent(Touch(c, key), Recent(keys, Hit(key)))
  {
    assert key in keys by { assert keys[Pos(c, key)] == key; }
    DropKeeps(c, keys, key);
    WithoutUnique(keys, key);
    FrontKeeps(Remove(c, key), Without(keys, key), Item(key, Value(c, key)));
  }

  lemma StoreKeeps<V>(c: seq<Item<V>>, max: nat, keys: seq<string>, key: string, val: V)
    requires MostRecent(c, keys) && |c| <= max
    ensures MostRecent(Put(c, max, key, val), Recent(keys, Store(key)))
  {
    DropKeeps(c, keys, key);
    WithoutUnique(keys, key);
    FrontKeeps(Remove(c, key), Without(keys, key), Item(key, val));
  }

  /** The cache holds exactly the most recently used keys that fit. */
  ghost predicate Exact<V>(c: seq<Item<V>>, max: nat, keys: seq<string>) {
    MostRecent(c, keys) && |c| == Min(|keys|, max)
  }

  /** Hits and stores keep it exact. */
  lemma UseKeepsExact<V>(c: seq<Item<V>>, max: nat, keys: seq<string>, key: string, val: V)
    requires Exact(c, max, keys) && max > 0
    ensures Exact(Put(c, max, key, val), max, Recent(keys, Store(key)))
    ensures Holds(c, key) ==> Exact(Touch(c, key), max, Recent(keys, Hit(key)))
  {
    StoreKeeps(c, max, keys, key, val);
    WithoutUnique(keys, key);
    SamePlace(c, keys, key);
    RemoveFacts(c, key);
    if Holds(c, key) {
      assert key in keys by { assert keys[Pos(c, key)] == key; }
      HitKeeps(c, keys, key);
    }
  }

  /** A removal keeps it exact if and only if the key is not held, or nothing that was evicted could take its place: an
      evicted key does not come back. */
  lemma RemovalIsExact<V>(c: seq<Item<V>>, max: nat, keys: seq<string>, key: string)
    requires Exact(c, max, keys)
    ensures MostRecent(Remove(c, key), Without(keys, key))
    ensures Exact(Remove(c, key), max, Without(keys, key)) <==> !Holds(c, key) || |keys| <= max
  {
    DropKeeps(c, keys, key);
    WithoutUnique(keys, key);
    SamePlace(c, keys, key);
    RemoveFacts(c, key);
    if Holds(c, key) { assert key in keys by { assert keys[Pos(c, key)] == key; } }
  }

  // ------------------------------------------------------------------ runs

  /** The reference of a run: all keys stored and not removed, most recently used first, and how many of those that
      would fit are missing from the cache, because an evicted key does not come back when room is made. */
  datatype Ref = Ref(keys: seq<string>, debt: nat)

  function Fitting(max: nat, r: Ref): nat { Min(|r.keys|, max) }

  /** The key is among those the cache holds. */
  predicate Held(max: nat, r: Ref, key: string) { FirstAt(r.keys, key) < Fitting(max, r) - r.debt }

  /** Removing a held key while others wait beyond the size leaves a gap. Storing a key that is not held closes one,
      unless all keys fit and it adds to them; so does removing an evicted key when all keys fit. */
  function RefNext(max: nat, r: Ref, u: Use): Ref {
    var keys, held := r.keys, Held(max, r, u.key);
    match u
    case Hit(k) => if held then r.(keys := [k] + Without(keys, k)) else r
    case Store(k) => Ref([k] + Without(keys, k), if !held && r.debt > 0 && (k in keys || |keys| >= max) then r.debt - 1
        else r.debt)
    case Drop(k) =>
      Ref(Without(keys, k),
          if held && |keys| > max then r.debt + 1
          else if !held && k in keys && |keys| <= max && r.debt > 0 then r.debt - 1
          else r.debt)
  }

  function RefAfter(max: nat, uses: seq<Use>): Ref {
    if uses == [] then Ref([], 0) else RefNext(max, RefAfter(max, uses[..|uses| - 1]), uses[|uses| - 1])
  }

  lemma RefOneMore(max: nat, uses: seq<Use>, u: Use)
    ensures RefAfter(max, uses + [u]) == RefNext(max, RefAfter(max, uses), u)
  {
    assert (uses + [u])[..|uses|] == uses;
  }

  /** One use of the cache; a store brings a value. */
  function Apply<V>(c: seq<Item<V>>, max: nat, u: Use, val: V): seq<Item<V>> {
    match u
    case Hit(k) => Touch(c, k)
    case Store(k) => Put(c, max, k, val)
    case Drop(k) => Remove(c, k)
  }

  function CacheAfter<V>(max: nat, uses: seq<Use>, vals: seq<V>): seq<Item<V>>
    requires |vals| == |uses|
  {
    if uses == [] then []
        else Apply(CacheAfter(max, uses[..|uses| - 1], vals[..|uses| - 1]), max, uses[|uses| - 1], vals[|uses| - 1])
  }

  /** The cache is the first keys of the reference, as many as fit less the gaps. */
  ghost predicate Follows<V>(c: seq<Item<V>>, max: nat, r: Ref) {
    MostRecent(c, r.keys) && |c| == Fitting(max, r) - r.debt
  }

  lemma HeldIsHeld<V>(c: seq<Item<V>>, max: nat, r: Ref, key: string)
    requires Follows(c, max, r)
    ensures Held(max, r, key) <==> Holds(c, key)
    ensures key in r.keys <==> FirstAt(r.keys, key) < |r.keys|
    ensures Holds(c, key) ==> key in r.keys
  {
    SamePlace(c, r.keys, key);
    if Holds(c, key) { assert r.keys[Pos(c, key)] == key; }
  }

  lemma HitFollows<V>(c: seq<Item<V>>, max: nat, r: Ref, key: string)
    requires Follows(c, max, r)
    ensures Follows(Touch(c, key), max, RefNext(max, r, Hit(key)))
  {
    HeldIsHeld(c, max, r, key);
    if Holds(c, key) {
      HitKeeps(c, r.keys, key);
      WithoutUnique(r.keys, key);
      TouchFacts(c, key);
    }
  }

  lemma StoreFollows<V>(c: seq<Item<V>>, max: nat, r: Ref, key: string, val: V)
    requires Follows(c, max, r) && max > 0
    ensures Follows(Put(c, max, key, val), max, RefNext(max, r, Store(key)))
  {
    HeldIsHeld(c, max, r, key);
    StoreKeeps(c, max, r.keys, key, val);
    WithoutUnique(r.keys, key);
    RemoveFacts(c, key);
    PutSize(c, max, key, val);
  }

  lemma PutSize<V>(c: seq<Item<V>>, max: nat, key: string, val: V)
    requires Distinct(c) && |c| <= max
    ensures |Put(c, max, key, val)| == if Holds(c, key) then |c| else Min(|c| + 1, max)
  {
    RemoveFacts(c, key);
  }

  lemma DropFollows<V>(c: seq<Item<V>>, max: nat, r: Ref, key: string)
    requires Follows(c, max, r)
    ensures Follows(Remove(c, key), max, RefNext(max, r, Drop(key)))
  {
    HeldIsHeld(c, max, r, key);
    DropKeeps(c, r.keys, key);
    WithoutUnique(r.keys, key);
    SamePlace(c, r.keys, key);
    RemoveFacts(c, key);
  }

  lemma UseFollows<V>(c: seq<Item<V>>, max: nat, r: Ref, u: Use, val: V)
    requires Follows(c, max, r) && max > 0
    ensures Follows(Apply(c, max, u, val), max, RefNext(max, r, u))
  {
    match u
    case Hit(k) => HitFollows(c, max, r, k);
    case Store(k) => StoreFollows(c, max, r, k, val);
    case Drop(k) => DropFollows(c, max, r, k);
  }

  /** In every run of hits, stores and removals the cache is exactly the first keys of the recency list, as many as
      fit less the gaps. */
  lemma {:induction false} CacheFollows<V>(max: nat, uses: seq<Use>, vals: seq<V>)
    requires |vals| == |uses| && max > 0
    ensures Follows(CacheAfter(max, uses, vals), max, RefAfter(max, uses))
  {
    if uses != [] {
      var n := |uses| - 1;
      CacheFollows(max, uses[..n], vals[..n]);
      UseFollows(CacheAfter(max, uses[..n], vals[..n]), max, RefAfter(max, uses[..n]), uses[n], vals[n]);
    }
  }

  /** So it holds exactly its most recently used keys if and only if no gap is left. */
  lemma ExactWithoutGaps<V>(max: nat, uses: seq<Use>, vals: seq<V>)
    requires |vals| == |uses| && max > 0
    ensures var c, r := CacheAfter(max, uses, vals), RefAfter(max, uses);
        MostRecent(c, r.keys) && (Exact(c, max, r.keys) <==> r.debt == 0)
  {
    CacheFollows(max, uses, vals);
  }

  lemma GapOpens()
    ensures RefNext(1, Ref([], 0), Store("a")) == Ref(["a"], 0) && RefNext(1, Ref(["a"], 0), Store("b"))
        == Ref(["b", "a"], 0)
    ensures RefNext(1, Ref(["b", "a"], 0), Drop("b")) == Ref(["a"], 1)
  {
    assert FirstAt(["a"], "b") == 1 && FirstAt(["b", "a"], "b") == 0;
    assert ["b", "a"][1..] == ["a"];
  }

  lemma GapCloses()
    ensures RefNext(1, Ref(["a"], 1), Store("d")) == Ref(["d", "a"], 0)
  {
    assert FirstAt(["a"], "d") == 1;
  }

  lemma RunOfThree(max: nat, u: Use, v: Use, w: Use)
    ensures RefAfter(max, [u, v, w]) == RefNext(max, RefNext(max, RefNext(max, Ref([], 0), u), v), w)
  {
    var none: seq<Use> := [];
    RefOneMore(max, none, u);
    RefOneMore(max, none + [u], v);
    RefOneMore(max, none + [u] + [v], w);
    assert none + [u] + [v] + [w] == [u, v, w];
  }

  /** A gap opens when the newest key is removed although an older one was evicted, and closes with the next store. */
  lemma EvictedKeyStaysAway()
    ensures var uses := [Store("a"), Store("b"), Drop("b")];
            && RefAfter(1, uses) == Ref(["a"], 1) && CacheAfter(1, uses, [0, 0, 0]) == []
            && !Exact(CacheAfter(1, uses, [0, 0, 0]), 1, RefAfter(1, uses).keys)
            && RefAfter(1, uses + [Store("d")]) == Ref(["d", "a"], 0)
  {
    var uses := [Store("a"), Store("b"), Drop("b")];
    GapOpens();
    GapCloses();
    RunOfThree(1, Store("a"), Store("b"), Drop("b"));
    RefOneMore(1, uses, Store("d"));
    CacheFollows(1, uses, [0, 0, 0]);
  }

  // ------------------------------------------------------------------ the implementation

  /** The list of keys and the map of values are kept in step. */
  ghost predicate InStep<V>(order: seq<string>, items: map<string, V>) {
    Unique(order) && forall k :: k in items <==> k in order
  }

  ghost function ViewOf<V>(order: seq<string>, items: map<string, V>): seq<Item<V>>
    requires InStep(order, items)
  {
    seq(|order|, i requires 0 <= i < |order| => Item(order[i], items[order[i]]))
  }

  lemma ViewPos<V>(order: seq<string>, items: map<string, V>, key: string)
    requires InStep(order, items)
    ensures Pos(ViewOf(order, items), key) == FirstAt(order, key) && (key in items <==> FirstAt(order, key) < |order|)
  {
    var c, p := ViewOf(order, items), FirstAt(order, key);
    assert forall i :: 0 <= i < |c| ==> c[i].key == order[i];
    assert Pos(c, key) == p;
  }

  lemma WithoutMembers(order: seq<string>, key: string, x: string)
    requires Unique(order)
    ensures x in Without(order, key) <==> x in order && x != key
  {
    var k, w := FirstAt(order, key), Without(order, key);
    if k < |order| {
      assert forall i :: 0 <= i < |w| ==> w[i] == order[if i < k then i else i + 1];
      if x in order && x != key {
        var i :| 0 <= i < |order| && order[i] == x;
        assert w[if i < k then i else i - 1] == x;
      }
    }
  }

  lemma RemoveInStep<V>(order: seq<string>, items: map<string, V>, key: string)
    requires InStep(order, items)
    ensures InStep(Without(order, key), items - {key})
  {
    WithoutUnique(order, key);
    forall x ensures x in items - {key} <==> x in Without(order, key) { WithoutMembers(order, key, x); }
  }

  lemma ViewRemove<V>(order: seq<string>, items: map<string, V>, key: string)
    requires InStep(order, items)
    ensures InStep(Without(order, key), items - {key})
    ensures ViewOf(Without(order, key), items - {key}) == Remove(ViewOf(order, items), key)
  {
    RemoveInStep(order, items, key);
    ViewPos(order, items, key);
    var k, c := FirstAt(order, key), ViewOf(order, items);
    var a, b := ViewOf(Without(order, key), items - {key}), Remove(c, key);
    if k < |order| {
      assert |a| == |b|;
      forall i | 0 <= i < |a| ensures a[i] == b[i] {
        var j := if i < k then i else i + 1;
        assert Without(order, key)[i] == order[j] && b[i] == c[j];
      }
    } else {
      assert items - {key} == items;
    }
  }

  lemma ViewFront<V>(order: seq<string>, items: map<string, V>, key: string, val: V)
    requires InStep(order, items) && key !in items
    ensures InStep([key] + order, items[key := val])
    ensures ViewOf([key] + order, items[key := val]) == [Item(key, val)] + ViewOf(order, items)
  {
  }

  lemma ViewPop<V>(order: seq<string>, items: map<string, V>)
    requires InStep(order, items) && order != []
    ensures var n := |order| - 1;
            && InStep(order[..n], items - {order[n]})
            && ViewOf(order[..n], items - {order[n]}) == ViewOf(order, items)[..n]
  {
    var n := |order| - 1;
    assert forall i :: 0 <= i < n ==> order[..n][i] == order[i];
    forall x | x in order && x != order[n] ensures x in order[..n] {
      var i :| 0 <= i < |order| && order[i] == x;
      assert order[..n][i] == x;
    }
  }

  class Cache<V> {
    const max: nat
    var order: seq<string>
    var items: map<string, V>

    ghost predicate Valid()
      reads this
    {
      InStep(order, items)
    }

    ghost function View(): seq<Item<V>>
      requires Valid()
      reads this
    {
      ViewOf(order, items)
    }

    constructor (max: nat)
      ensures Valid() && this.max == max && View() == []
    {
      this.max := max;
      order, items := [], map[];
    }

    method Get(key: string) returns (v: Option<V>)
      requires Valid()
      modifies this`order
      ensures Valid() && View() == Touch(old(View()), key)
      ensures v == if Holds(old(View()), key) then Some(Value(old(View()), key)) else None
    {
      ViewPos(order, items, key);
      if key !in items { return None; }
      v := Some(items[key]);
      ViewRemove(order, items, key);
      ViewFront(Without(order, key), items - {key}, key, items[key]);
      assert (items - {key})[key := items[key]] == items;
      order := [key] + Without(order, key);
    }

    method Delete(key: string)
      requires Valid()
      modifies this
      ensures Valid() && View() == Remove(old(View()), key)
    {
      ViewRemove(order, items, key);
      items, order := items - {key}, Without(order, key);
    }

    method Insert(key: string, val: V)
      requires Valid() && |order| <= max
      modifies this
      ensures Valid() && View() == Put(old(View()), max, key, val)
    {
      ViewPos(order, items, key);
      if key in items { Replace(key, val); } else { Push(key, val); }
    }

    method Replace(key: string, val: V)
      requires Valid() && key in items
      modifies this
      ensures Valid() && View() == [Item(key, val)] + Remove(old(View()), key)
    {
      ViewRemove(order, items, key);
      ViewFront(Without(order, key), items - {key}, key, val);
      assert (items - {key})[key := val] == items[key := val];
      items, order := items[key := val], [key] + Without(order, key);
    }

    method Push(key: string, val: V)
      requires Valid() && key !in items && |order| <= max
      modifies this
      ensures Valid() && View() == ([Item(key, val)] + old(View()))[..Min(|old(View())| + 1, max)]
    {
      ViewFront(order, items, key, val);
      order, items := [key] + order, items[key := val];
      Evict();
    }

    /** Drop the least recently used items that do not fit. */
    method Evict()
      requires Valid() && |order| <= max + 1
      modifies this
      ensures Valid() && View() == old(View())[..Min(|old(order)|, max)]
    {
      while |order| > max
        invariant Valid() && |order| <= |old(order)| && (|order| < |old(order)| ==> |order| == max)
            && View() == old(View())[..|order|]
      {
        ViewPop(order, items);
        var n := |order| - 1;
        items, order := items - {order[n]}, order[..n];
      }
    }
  }
}
