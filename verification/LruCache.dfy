/**
 * The LRU cache with time-to-live of internal/performance/cache.go.
 *
 * `Cache` is the value of the Go struct between two lock regions, `Apply` is the meaning of one
 * call, and the class `LruCache` carries the source's loops and updates, proved against `Apply`.
 * A list element is identified by an incarnation number, so that moving an element that was
 * removed meanwhile is a no-op even if its key was inserted again.
 */
module LruCache {
  import opened Sequences

  type Key = string
  type Value = string

  datatype Node = Node(id: nat, key: Key)
  datatype Item = Item(value: Value, size: int, expiresAt: int, element: Node)

  datatype Cache = Cache(maxSize: int, ttl: int, items: map<Key, Item>, lru: seq<Node>, nextElement: nat)

  datatype Op =
    | Get(key: Key, now: int)
    | Set(key: Key, value: Value, size: int, now: int)
    | Delete(key: Key)
    | Cleanup(now: int)
    | Clear

  function New(maxSize: int, ttl: int): Cache {
    Cache(maxSize, ttl, map[], [], 0)
  }

  /** `Set` evicts after inserting, so even a non-positive size leaves an empty list. */
  function Capacity(maxSize: int): nat {
    Max(maxSize, 0)
  }

  predicate Expired(item: Item, now: int) {
    now > item.expiresAt
  }

  /** list.MoveToFront: an element that is no longer in the list stays out. */
  function MoveToFront(lru: seq<Node>, e: Node): seq<Node> {
    if e in lru then [e] + Without(lru, e) else lru
  }

  function RemoveKey(c: Cache, key: Key): Cache {
    if key in c.items then c.(lru := Without(c.lru, c.items[key].element), items := c.items - {key}) else c
  }

  function EvictOldestItem(c: Cache): Cache {
    if c.lru == [] then c
    else c.(lru := DropLast(c.lru), items := c.items - {Last(c.lru).key})
  }

  function Insert(c: Cache, key: Key, value: Value, size: int, now: int): Cache {
    var e := Node(c.nextElement, key);
    c.(lru := [e] + c.lru, items := c.items[key := Item(value, size, now + c.ttl, e)], nextElement := c.nextElement + 1)
  }

  function SetItem(c: Cache, key: Key, value: Value, size: int, now: int): Cache {
    if key in c.items then
      var e := c.items[key].element;
      c.(items := c.items[key := Item(value, size, now + c.ttl, e)], lru := MoveToFront(c.lru, e))
    else
      var inserted := Insert(c, key, value, size, now);
      if |inserted.lru| > c.maxSize then EvictOldestItem(inserted) else inserted
  }

  predicate Hit(c: Cache, key: Key, now: int) {
    key in c.items && !Expired(c.items[key], now)
  }

  function Lookup(c: Cache, key: Key, now: int): Option<Value> {
    if Hit(c, key, now) then Some(c.items[key].value) else None
  }

  function GetItem(c: Cache, key: Key, now: int): Cache {
    if Hit(c, key, now) then c.(lru := MoveToFront(c.lru, c.items[key].element)) else RemoveKey(c, key)
  }

  function LiveItems(items: map<Key, Item>, now: int): map<Key, Item> {
    map k | k in items && !Expired(items[k], now) :: items[k]
  }

  /** The list elements whose key is in the map. */
  function Keep(lru: seq<Node>, live: map<Key, Item>): seq<Node> {
    Filter(lru, (n: Node) => n.key in live)
  }

  function Sweep(c: Cache, now: int): Cache {
    var live := LiveItems(c.items, now);
    c.(items := live, lru := Keep(c.lru, live))
  }

  function Apply(c: Cache, op: Op): Cache {
    match op
    case Get(key, now) => GetItem(c, key, now)
    case Set(key, value, size, now) => SetItem(c, key, value, size, now)
    case Delete(key) => RemoveKey(c, key)
    case Cleanup(now) => Sweep(c, now)
    case Clear => c.(items := map[], lru := [])
  }

  function Result(c: Cache, op: Op): Option<Value> {
    match op
    case Get(key, now) => Lookup(c, key, now)
    case _ => None
  }

  // ------------------------------------------------------------------ the representation

  /** The map and the recency list describe the same entries, each once, within capacity. */
  ghost predicate Valid(c: Cache) {
    Linked(c) && |c.lru| <= Capacity(c.maxSize)
  }

  ghost predicate Linked(c: Cache) {
    && (forall k :: k in c.items ==> c.items[k].element.key == k && c.items[k].element in c.lru)
    && (forall n :: n in c.lru ==> n.key in c.items && c.items[n.key].element == n && n.id < c.nextElement)
    && Distinct(c.lru)
  }

  lemma {:induction false} RemoveKeyValid(c: Cache, key: Key)
    requires Valid(c)
    ensures Valid(RemoveKey(c, key))
    ensures RemoveKey(c, key).items == c.items - {key}
  {
    if key in c.items {
      WithoutMembers(c.lru, c.items[key].element);
      WithoutDistinct(c.lru, c.items[key].element);
    } else {
      assert c.items - {key} == c.items;
    }
  }

  /** Moving any element of any age keeps the representation; this is the second half of a split `Get`. */
  lemma {:induction false} MoveToFrontValid(c: Cache, e: Node)
    requires Valid(c)
    ensures Valid(c.(lru := MoveToFront(c.lru, e)))
    ensures forall n :: n in MoveToFront(c.lru, e) <==> n in c.lru
  {
    WithoutMembers(c.lru, e);
    WithoutDistinct(c.lru, e);
  }

  lemma {:induction false} InsertLinked(c: Cache, key: Key, value: Value, size: int, now: int)
    requires Linked(c) && key !in c.items
    ensures Linked(Insert(c, key, value, size, now))
  {
  }

  lemma {:induction false} EvictLinked(c: Cache)
    requires Linked(c)
    ensures Linked(EvictOldestItem(c))
  {
    if c.lru != [] {
      var last := Last(c.lru);
      assert DropLast(c.lru) + [last] == c.lru;
      assert last !in DropLast(c.lru);
      assert forall n :: n in c.lru <==> n in DropLast(c.lru) || n == last;
      assert forall n :: n in DropLast(c.lru) ==> n.key != last.key;
    }
  }

  lemma {:induction false} SetValid(c: Cache, key: Key, value: Value, size: int, now: int)
    requires Valid(c)
    ensures Valid(SetItem(c, key, value, size, now))
    ensures SetItem(c, key, value, size, now).maxSize == c.maxSize && SetItem(c, key, value, size, now).ttl == c.ttl
  {
    if key in c.items {
      MoveToFrontValid(c, c.items[key].element);
    } else {
      InsertLinked(c, key, value, size, now);
      EvictLinked(Insert(c, key, value, size, now));
    }
  }

  lemma {:induction false} SweepValid(c: Cache, now: int)
    requires Valid(c)
    ensures Valid(Sweep(c, now))
  {
    var live := LiveItems(c.items, now);
    FilterMembers(c.lru, (n: Node) => n.key in live);
    FilterDistinct(c.lru, (n: Node) => n.key in live);
  }

  lemma {:induction false} ApplyValid(c: Cache, op: Op)
    requires Valid(c)
    ensures Valid(Apply(c, op))
  {
    match op
    case Get(key, now) =>
      if Hit(c, key, now) { MoveToFrontValid(c, c.items[key].element); } else { RemoveKeyValid(c, key); }
    case Set(key, value, size, now) => SetValid(c, key, value, size, now);
    case Delete(key) => RemoveKeyValid(c, key);
    case Cleanup(now) => SweepValid(c, now);
    case Clear =>
  }

  /**
   * The lock regions when `Get` is split: a lookup changes nothing, and some time later either
   * `Delete` runs or the element found by the lookup is moved, whatever happened between.
   * `Clear` is not interleaved: list.Init does not detach the elements it drops.
   */
  datatype LockStep = Whole(op: Op) | MoveLater(e: Node)

  ghost predicate NeverClears(steps: seq<LockStep>) {
    forall i :: 0 <= i < |steps| ==> steps[i] != Whole(Clear)
  }

  function ApplyLocked(c: Cache, s: LockStep): Cache {
    match s
    case Whole(op) => Apply(c, op)
    case MoveLater(e) => c.(lru := MoveToFront(c.lru, e))
  }

  function RunLocked(c: Cache, steps: seq<LockStep>): Cache {
    if steps == [] then c else ApplyLocked(RunLocked(c, DropLast(steps)), Last(steps))
  }

  /** Every state reachable by interleaved lock regions is a valid representation. */
  lemma {:induction false} ReachableValid(maxSize: int, ttl: int, steps: seq<LockStep>)
    requires NeverClears(steps)
    ensures Valid(RunLocked(New(maxSize, ttl), steps))
    ensures RunLocked(New(maxSize, ttl), steps).maxSize == maxSize
  {
    if steps != [] {
      ReachableValid(maxSize, ttl, DropLast(steps));
      var c := RunLocked(New(maxSize, ttl), DropLast(steps));
      match Last(steps)
      case Whole(op) => ApplyValid(c, op);
      case MoveLater(e) => MoveToFrontValid(c, e);
    }
  }

  // ------------------------------------------------------------------ atomic runs

  function Run(c: Cache, ops: seq<Op>): Cache {
    if ops == [] then c else Apply(Run(c, DropLast(ops)), Last(ops))
  }

  lemma {:induction false} RunValid(c: Cache, ops: seq<Op>)
    requires Valid(c)
    ensures Valid(Run(c, ops))
    ensures Run(c, ops).maxSize == c.maxSize && Run(c, ops).ttl == c.ttl
  {
    if ops != [] {
      RunValid(c, DropLast(ops));
      ApplyValid(Run(c, DropLast(ops)), Last(ops));
    }
  }

  /** The result of the last call of a run. */
  function LastResult(c: Cache, ops: seq<Op>): Option<Value>
    requires ops != []
  {
    Result(Run(c, DropLast(ops)), Last(ops))
  }

  // ------------------------------------------------------------------ least recently used

  /** `op` stores `key` or finds it alive. */
  predicate Touches(c: Cache, op: Op, key: Key) {
    match op
    case Get(k, now) => k == key && Hit(c, key, now)
    case Set(k, _, _, _) => k == key
    case _ => false
  }

  /** When `key` was last touched, counted in calls; 0 if never. */
  function LastTouch(c: Cache, ops: seq<Op>, key: Key): nat {
    if ops == [] then 0
    else if Touches(Run(c, DropLast(ops)), Last(ops), key) then |ops|
    else LastTouch(c, DropLast(ops), key)
  }

  ghost predicate OrderedBy(lru: seq<Node>, rank: Key -> nat) {
    forall i, j :: 0 <= i < j < |lru| ==> rank(lru[i].key) > rank(lru[j].key)
  }

  /** The list is ordered by last touch, newest first. */
  ghost predicate RecencyOrdered(c: Cache, ops: seq<Op>) {
    OrderedBy(Run(c, ops).lru, k => LastTouch(c, ops, k))
  }

  lemma {:induction false} LastTouchBound(c: Cache, ops: seq<Op>, key: Key)
    ensures LastTouch(c, ops, key) <= |ops|
  {
    if ops != [] {
      LastTouchBound(c, DropLast(ops), key);
    }
  }

  lemma {:induction false} SubsequenceOrdered(a: seq<Node>, b: seq<Node>, rank: Key -> nat)
    requires IsSubsequence(a, b) && OrderedBy(b, rank)
    ensures OrderedBy(a, rank)
  {
    if a != [] {
      if a[0] == b[0] {
        SubsequenceOrdered(a[1..], b[1..], rank);
        forall j | 0 < j < |a|
          ensures rank(a[0].key) > rank(a[j].key)
        {
          assert a[1..][j - 1] == a[j];
          SubsequenceMembers(a[1..], b[1..], a[j]);
        }
        assert forall i :: 0 < i < |a| ==> a[i] == a[1..][i - 1];
      } else {
        SubsequenceOrdered(a, b[1..], rank);
      }
    }
  }

  /** Deleting elements and putting a newer one in front keeps the order. */
  lemma {:induction false} OrderStep(was: seq<Node>, lru: seq<Node>, before: Key -> nat, after: Key -> nat, top: nat)
    requires OrderedBy(was, before)
    requires forall n :: n in was ==> before(n.key) < top
    requires lru != [] && after(lru[0].key) == top && IsSubsequence(lru[1..], was)
    requires forall n :: n in lru[1..] ==> after(n.key) == before(n.key)
    ensures OrderedBy(lru, after)
  {
    SubsequenceOrdered(lru[1..], was, before);
    forall i, j | 0 <= i < j < |lru|
      ensures after(lru[i].key) > after(lru[j].key)
    {
      assert lru[1..][j - 1] == lru[j];
      SubsequenceMembers(lru[1..], was, lru[j]);
      if i > 0 {
        assert lru[1..][i - 1] == lru[i];
      }
    }
  }

  ghost predicate NoneTouched(c: Cache, op: Op, nodes: seq<Node>) {
    forall n :: n in nodes ==> !Touches(c, op, n.key)
  }

  /** A call deletes elements from the list and puts at most the touched key in front. */
  lemma {:induction false} ApplyShape(c: Cache, op: Op)
    requires Valid(c)
    ensures var lru := Apply(c, op).lru;
            || (IsSubsequence(lru, c.lru) && NoneTouched(c, op, lru))
            || (lru != [] && Touches(c, op, lru[0].key) && IsSubsequence(lru[1..], c.lru)
                && NoneTouched(c, op, lru[1..]))
  {
    var lru := Apply(c, op).lru;
    match op
    case Get(key, now) =>
      if key in c.items {
        var e := c.items[key].element;
        WithoutIsSubsequence(c.lru, e);
        WithoutMembers(c.lru, e);
      } else {
        SubsequenceOfItself(c.lru);
      }
    case Set(key, value, size, now) =>
      if key in c.items {
        var e := c.items[key].element;
        WithoutIsSubsequence(c.lru, e);
        WithoutMembers(c.lru, e);
      } else {
        SubsequenceOfItself(c.lru);
        var inserted := Insert(c, key, value, size, now);
        if |inserted.lru| > c.maxSize && c.lru != [] {
          DropLastCons(inserted.lru[0], c.lru);
          assert lru == [inserted.lru[0]] + DropLast(c.lru);
          assert lru[1..] == DropLast(c.lru);
          DropLastIsSubsequence(c.lru, c.lru);
          assert forall n :: n in DropLast(c.lru) ==> n in c.lru;
        }
      }
    case Delete(key) =>
      if key in c.items {
        WithoutIsSubsequence(c.lru, c.items[key].element);
      } else {
        SubsequenceOfItself(c.lru);
      }
    case Cleanup(now) =>
      var live := LiveItems(c.items, now);
      FilterIsSubsequence(c.lru, (n: Node) => n.key in live);
    case Clear =>
  }

  /** In every run the list is the recency order: newest touch first. */
  lemma {:induction false} RecencyOrder(maxSize: int, ttl: int, ops: seq<Op>)
    ensures RecencyOrdered(New(maxSize, ttl), ops)
  {
    if ops != [] {
      var c0, prefix, op := New(maxSize, ttl), DropLast(ops), Last(ops);
      RecencyOrder(maxSize, ttl, prefix);
      RunValid(c0, prefix);
      var c := Run(c0, prefix);
      ApplyShape(c, op);
      var lru := Apply(c, op).lru;
      var before, after := k => LastTouch(c0, prefix, k), k => LastTouch(c0, ops, k);
      if IsSubsequence(lru, c.lru) && NoneTouched(c, op, lru) {
        SubsequenceOrdered(lru, c.lru, before);
        assert OrderedBy(lru, after);
      } else {
        forall n | n in c.lru
          ensures before(n.key) < |ops|
        {
          LastTouchBound(c0, prefix, n.key);
        }
        OrderStep(c.lru, lru, before, after, |ops|);
      }
    }
  }

  /** A `Set` that exceeds the size drops the entry whose last touch is the oldest, and only that one. */
  lemma {:induction false} EvictsLeastRecent(
      maxSize: int, ttl: int, ops: seq<Op>, key: Key, value: Value, size: int, now: int)
    requires var c := Run(New(maxSize, ttl), ops); key !in c.items && |c.lru| == maxSize > 0
    ensures var c0 := New(maxSize, ttl);
            var c := Run(c0, ops);
            var d := SetItem(c, key, value, size, now);
            exists victim :: victim in c.items
              && d.items.Keys == c.items.Keys - {victim} + {key}
              && forall k :: k in c.items && k != victim ==> LastTouch(c0, ops, k) > LastTouch(c0, ops, victim)
  {
    var c0 := New(maxSize, ttl);
    var c := Run(c0, ops);
    RunValid(c0, ops);
    RecencyOrder(maxSize, ttl, ops);
    var victim := Last(c.lru).key;
    assert Last([Node(c.nextElement, key)] + c.lru) == Last(c.lru);
    forall k | k in c.items && k != victim
      ensures LastTouch(c0, ops, k) > LastTouch(c0, ops, victim)
    {
      var i :| 0 <= i < |c.lru| && c.lru[i] == c.items[k].element;
      assert i < |c.lru| - 1;
    }
    assert victim in c.items;
  }

  // ------------------------------------------------------------------ coherence

  /** What an unbounded store without expiry would hold for `key`: the value and time of its last `Set`. */
  function Stored(ops: seq<Op>, key: Key): Option<(Value, int)> {
    if ops == [] then None
    else
      match Last(ops)
      case Set(k, value, _, now) => if k == key then Some((value, now)) else Stored(DropLast(ops), key)
      case Delete(k) => if k == key then None else Stored(DropLast(ops), key)
      case Clear => None
      case _ => Stored(DropLast(ops), key)
  }

  /** An entry found after a call was stored by it or was there before. */
  lemma EntryOrigin(c: Cache, op: Op, key: Key)
    requires key in Apply(c, op).items
    ensures var item := Apply(c, op).items[key];
            if op.Set? && op.key == key then item.value == op.value && item.expiresAt == op.now + c.ttl
            else key in c.items && item.value == c.items[key].value && item.expiresAt == c.items[key].expiresAt
    ensures !op.Clear? && !(op.Delete? && op.key == key)
  {
  }

  /** A cached entry is never stale: it is the last value set, expiring `ttl` after that call. */
  lemma {:induction false} Coherent(maxSize: int, ttl: int, ops: seq<Op>)
    ensures var c := Run(New(maxSize, ttl), ops);
            forall k :: k in c.items ==>
              && Stored(ops, k).Some?
              && c.items[k].value == Stored(ops, k).value.0
              && c.items[k].expiresAt == Stored(ops, k).value.1 + ttl
  {
    if ops != [] {
      Coherent(maxSize, ttl, DropLast(ops));
      var before := Run(New(maxSize, ttl), DropLast(ops));
      RunValid(New(maxSize, ttl), DropLast(ops));
      forall k | k in Apply(before, Last(ops)).items
        ensures var item := Apply(before, Last(ops)).items[k];
                Stored(ops, k).Some? && item.value == Stored(ops, k).value.0
                    && item.expiresAt == Stored(ops, k).value.1 + ttl
      {
        EntryOrigin(before, Last(ops), k);
      }
    }
  }

  // ------------------------------------------------------------------ inclusion

  function Keys(lru: seq<Node>): seq<Key> {
    if lru == [] then [] else [lru[0].key] + Keys(lru[1..])
  }

  lemma {:induction false} KeysLength(lru: seq<Node>)
    ensures |Keys(lru)| == |lru|
    ensures forall i :: 0 <= i < |lru| ==> Keys(lru)[i] == lru[i].key
  {
    if lru != [] {
      KeysLength(lru[1..]);
    }
  }

  lemma {:induction false} KeysWithout(lru: seq<Node>, e: Node)
    requires forall n :: n in lru && n.key == e.key ==> n == e
    ensures Keys(Without(lru, e)) == Without(Keys(lru), e.key)
  {
    if lru != [] {
      assert lru[0] in lru;
      KeysWithout(lru[1..], e);
    }
  }

  lemma {:induction false} KeysFilter(lru: seq<Node>, live: map<Key, Item>)
    ensures Keys(Keep(lru, live)) == Filter(Keys(lru), (k: Key) => k in live)
  {
    if lru != [] {
      KeysFilter(lru[1..], live);
    }
  }

  ghost predicate SameEntry(a: Item, b: Item) {
    a.value == b.value && a.size == b.size && a.expiresAt == b.expiresAt
  }

  /** The small cache holds a subsequence of the large one, with equal entries. */
  ghost predicate Included(small: Cache, large: Cache) {
    && Valid(small) && Valid(large)
    && small.ttl == large.ttl && small.maxSize <= large.maxSize
    && IsSubsequence(Keys(small.lru), Keys(large.lru))
    && (forall k :: k in small.items ==> k in large.items && SameEntry(small.items[k], large.items[k]))
    && |large.lru| - |small.lru| <= Capacity(large.maxSize) - Capacity(small.maxSize)
  }

  /** The recency list of keys after pushing `key` into a cache of capacity `cap`. */
  function Pushed(keys: seq<Key>, key: Key, cap: nat): seq<Key> {
    var full := [key] + Without(keys, key);
    if |full| > cap then DropLast(full) else full
  }

  lemma {:induction false} KeysOfValid(c: Cache)
    requires Valid(c)
    ensures forall k :: k in c.items <==> k in Keys(c.lru)
    ensures Distinct(Keys(c.lru)) && |Keys(c.lru)| == |c.lru|
  {
    KeysLength(c.lru);
    forall k | k in c.items
      ensures k in Keys(c.lru)
    {
      var i :| 0 <= i < |c.lru| && c.lru[i] == c.items[k].element;
      assert Keys(c.lru)[i] == k;
    }
    forall i, j | 0 <= i < j < |c.lru|
      ensures Keys(c.lru)[i] != Keys(c.lru)[j]
    {
      assert c.lru[i] in c.lru && c.lru[j] in c.lru && c.lru[i] != c.lru[j];
    }
  }

  lemma {:induction false} MoveKeys(c: Cache, key: Key)
    requires Valid(c) && key in c.items
    ensures Keys(MoveToFront(c.lru, c.items[key].element)) == [key] + Without(Keys(c.lru), key)
  {
    var e := c.items[key].element;
    KeysWithout(c.lru, e);
    assert ([e] + Without(c.lru, e))[1..] == Without(c.lru, e);
  }

  lemma {:induction false} SetKeysPresent(c: Cache, key: Key)
    requires Valid(c) && key in c.items
    ensures Keys(MoveToFront(c.lru, c.items[key].element)) == Pushed(Keys(c.lru), key, Capacity(c.maxSize))
  {
    KeysOfValid(c);
    WithoutDistinct(Keys(c.lru), key);
    MoveKeys(c, key);
  }

  lemma {:induction false} SetKeysNew(c: Cache, e: Node)
    requires Valid(c) && e.key !in c.items
    ensures var lru := [e] + c.lru;
            Keys(if |lru| > Capacity(c.maxSize) then DropLast(lru) else lru)
                == Pushed(Keys(c.lru), e.key, Capacity(c.maxSize))
  {
    var lru := [e] + c.lru;
    KeysOfValid(c);
    WithoutMembers(Keys(c.lru), e.key);
    assert lru[1..] == c.lru;
    KeysLength(lru);
    KeysLength(DropLast(lru));
    assert Keys(DropLast(lru)) == DropLast(Keys(lru));
  }

  /** On the key lists `Set` is a push, whether or not the key was present. */
  lemma {:induction false} SetKeys(c: Cache, key: Key, value: Value, size: int, now: int)
    requires Valid(c)
    ensures Keys(SetItem(c, key, value, size, now).lru) == Pushed(Keys(c.lru), key, Capacity(c.maxSize))
  {
    if key in c.items {
      SetKeysPresent(c, key);
    } else {
      SetKeysNew(c, Node(c.nextElement, key));
    }
  }

  /** Removing a key from both lists does not widen the gap between them. */
  lemma {:induction false} WithoutGap(small: seq<Key>, large: seq<Key>, key: Key)
    requires IsSubsequence(small, large) && Distinct(small) && Distinct(large)
    ensures |Without(small, key)| == |small| - (if key in small then 1 else 0)
    ensures |Without(large, key)| == |large| - (if key in large then 1 else 0)
    ensures key in small ==> key in large
  {
    WithoutMembers(small, key);
    WithoutMembers(large, key);
    WithoutDistinct(small, key);
    WithoutDistinct(large, key);
    if key in small {
      SubsequenceMembers(small, large, key);
    }
  }

  /** The heart of inclusion: pushing the same key keeps the subsequence and the length gap. */
  lemma {:induction false} PushedIncluded(small: seq<Key>, large: seq<Key>, key: Key, s: nat, l: nat)
    requires IsSubsequence(small, large) && Distinct(small) && Distinct(large)
    requires |small| <= s <= l && |large| <= l && |large| - |small| <= l - s
    ensures IsSubsequence(Pushed(small, key, s), Pushed(large, key, l))
    ensures |Pushed(large, key, l)| - |Pushed(small, key, s)| <= l - s
  {
    var a, b := [key] + Without(small, key), [key] + Without(large, key);
    WithoutGap(small, large, key);
    assert |b| > l ==> |a| > s; // the large cache evicts only together with the small one
    WithoutBoth(small, large, key);
    SubsequenceConsBoth(Without(small, key), Without(large, key), key);
    if |b| > l {
      SubsequenceDropLast(a, b);
    } else if |a| > s {
      DropLastIsSubsequence(a, b);
    }
  }

  /** Inclusion of the lists decides which keys are shared. */
  lemma {:induction false} IncludedFromKeys(small: Cache, large: Cache)
    requires Valid(small) && Valid(large)
    requires small.ttl == large.ttl && small.maxSize <= large.maxSize
    requires IsSubsequence(Keys(small.lru), Keys(large.lru))
    requires forall k :: k in small.items && k in large.items ==> SameEntry(small.items[k], large.items[k])
    requires |Keys(large.lru)| - |Keys(small.lru)| <= Capacity(large.maxSize) - Capacity(small.maxSize)
    ensures Included(small, large)
  {
    KeysOfValid(small);
    KeysOfValid(large);
    forall k | k in small.items
      ensures k in large.items
    {
      SubsequenceMembers(Keys(small.lru), Keys(large.lru), k);
    }
  }

  /** In `d` the key holds the new entry, if anything, and every other entry comes from `c`. */
  ghost predicate Stores(c: Cache, d: Cache, key: Key, value: Value, size: int, expiresAt: int) {
    && (key in d.items ==> SameEntry(d.items[key], Item(value, size, expiresAt, Node(0, key))))
    && (forall k :: k in d.items && k != key ==> k in c.items && d.items[k] == c.items[k])
  }

  lemma {:induction false} SetEntries(c: Cache, key: Key, value: Value, size: int, now: int)
    ensures Stores(c, SetItem(c, key, value, size, now), key, value, size, now + c.ttl)
  {
  }

  /** Two caches that stored the same entry and pushed the same key stay included, however they did it. */
  lemma {:induction false} StoreIncluded(
      small: Cache, large: Cache, small': Cache, large': Cache, key: Key, value: Value, size: int, expiresAt: int)
    requires Included(small, large) && Valid(small') && Valid(large')
    requires small'.ttl == small.ttl && large'.ttl == large.ttl && small'.maxSize == small.maxSize
        && large'.maxSize == large.maxSize
    requires Stores(small, small', key, value, size, expiresAt) && Stores(large, large', key, value, size, expiresAt)
    requires Keys(small'.lru) == Pushed(Keys(small.lru), key, Capacity(small.maxSize))
    requires Keys(large'.lru) == Pushed(Keys(large.lru), key, Capacity(large.maxSize))
    ensures Included(small', large')
  {
    KeysOfValid(small);
    KeysOfValid(large);
    PushedIncluded(Keys(small.lru), Keys(large.lru), key, Capacity(small.maxSize), Capacity(large.maxSize));
    IncludedFromKeys(small', large');
  }

  lemma {:induction false} SetIncluded(small: Cache, large: Cache, key: Key, value: Value, size: int, now: int)
    requires Included(small, large)
    ensures Included(SetItem(small, key, value, size, now), SetItem(large, key, value, size, now))
  {
    var small', large' := SetItem(small, key, value, size, now), SetItem(large, key, value, size, now);
    SetValid(small, key, value, size, now);
    SetValid(large, key, value, size, now);
    SetKeys(small, key, value, size, now);
    SetKeys(large, key, value, size, now);
    SetEntries(small, key, value, size, now);
    SetEntries(large, key, value, size, now);
    StoreIncluded(small, large, small', large', key, value, size, now + small.ttl);
  }

  lemma {:induction false} RemoveKeys(c: Cache, key: Key)
    requires Valid(c)
    ensures Keys(RemoveKey(c, key).lru) == Without(Keys(c.lru), key)
  {
    KeysOfValid(c);
    WithoutMembers(Keys(c.lru), key);
    if key in c.items {
      KeysWithout(c.lru, c.items[key].element);
    }
  }

  lemma {:induction false} RemoveIncluded(small: Cache, large: Cache, key: Key)
    requires Included(small, large)
    ensures Included(RemoveKey(small, key), RemoveKey(large, key))
  {
    RemoveKeyValid(small, key);
    RemoveKeyValid(large, key);
    RemoveKeys(small, key);
    RemoveKeys(large, key);
    KeysOfValid(small);
    KeysOfValid(large);
    WithoutBoth(Keys(small.lru), Keys(large.lru), key);
    WithoutMembers(Keys(small.lru), key);
    WithoutDistinct(Keys(small.lru), key);
    WithoutMembers(Keys(large.lru), key);
    WithoutDistinct(Keys(large.lru), key);
    IncludedFromKeys(RemoveKey(small, key), RemoveKey(large, key));
  }

  /** The small cache may miss where the large one hits: the move concerns the large list only. */
  lemma {:induction false} GetIncluded(small: Cache, large: Cache, key: Key, now: int)
    requires Included(small, large)
    ensures Included(GetItem(small, key, now), GetItem(large, key, now))
  {
    if !Hit(large, key, now) {
      RemoveIncluded(small, large, key);
    } else {
      var ks, kl := Keys(small.lru), Keys(large.lru);
      KeysOfValid(small);
      KeysOfValid(large);
      MoveToFrontValid(large, large.items[key].element);
      MoveKeys(large, key);
      WithoutMembers(kl, key);
      WithoutDistinct(kl, key);
      WithoutBoth(ks, kl, key);
      WithoutMembers(ks, key);
      WithoutDistinct(ks, key);
      if key in small.items {
        MoveToFrontValid(small, small.items[key].element);
        MoveKeys(small, key);
        SubsequenceConsBoth(Without(ks, key), Without(kl, key), key);
      } else {
        RemoveKeyValid(small, key);
        SubsequenceConsRight(ks, Without(kl, key), key);
      }
      IncludedFromKeys(GetItem(small, key, now), GetItem(large, key, now));
    }
  }

  /** Filtering two lists by predicates that agree on the shorter one keeps it a subsequence, and the gap. */
  lemma {:induction false} FilterIncluded(a: seq<Key>, b: seq<Key>, p: Key -> bool, q: Key -> bool)
    requires IsSubsequence(a, b)
    requires forall k :: k in a ==> p(k) == q(k)
    ensures IsSubsequence(Filter(a, p), Filter(b, q))
    ensures |Filter(b, q)| - |Filter(a, p)| <= |b| - |a|
  {
    if a == [] {
      FilterMembers(b, q);
    } else if a[0] == b[0] {
      FilterIncluded(a[1..], b[1..], p, q);
      assert a[0] in a;
      if p(a[0]) {
        SubsequenceConsBoth(Filter(a[1..], p), Filter(b[1..], q), a[0]);
      }
    } else {
      FilterIncluded(a, b[1..], p, q);
      if q(b[0]) {
        SubsequenceConsRight(Filter(a, p), Filter(b[1..], q), b[0]);
      }
    }
  }

  lemma {:induction false} SweepIncluded(small: Cache, large: Cache, now: int)
    requires Included(small, large)
    ensures Included(Sweep(small, now), Sweep(large, now))
  {
    SweepValid(small, now);
    SweepValid(large, now);
    KeysOfValid(small);
    KeysOfValid(large);
    var ps, pl := LiveItems(small.items, now), LiveItems(large.items, now);
    KeysFilter(small.lru, ps);
    KeysFilter(large.lru, pl);
    FilterIncluded(Keys(small.lru), Keys(large.lru), (k: Key) => k in ps, (k: Key) => k in pl);
    IncludedFromKeys(Sweep(small, now), Sweep(large, now));
  }

  lemma ClearIncluded(small: Cache, large: Cache)
    requires Included(small, large)
    ensures Included(Apply(small, Clear), Apply(large, Clear))
  {
  }

  lemma {:induction false} ApplyIncluded(small: Cache, large: Cache, op: Op)
    requires Included(small, large)
    ensures Included(Apply(small, op), Apply(large, op))
  {
    match op
    case Get(key, now) => GetIncluded(small, large, key, now);
    case Set(key, value, size, now) => SetIncluded(small, large, key, value, size, now);
    case Delete(key) => RemoveIncluded(small, large, key);
    case Cleanup(now) => SweepIncluded(small, large, now);
    case Clear => ClearIncluded(small, large);
  }

  /** LRU inclusion over every run: the smaller of two caches fed the same calls stays inside the larger. */
  lemma {:induction false} Inclusion(s: int, l: int, ttl: int, ops: seq<Op>)
    requires s <= l
    ensures Included(Run(New(s, ttl), ops), Run(New(l, ttl), ops))
  {
    if ops != [] {
      Inclusion(s, l, ttl, DropLast(ops));
      ApplyIncluded(Run(New(s, ttl), DropLast(ops)), Run(New(l, ttl), DropLast(ops)), Last(ops));
    }
  }

  /** Every hit of the small cache is the same hit in the large one: enlarging a cache never loses a hit. */
  lemma {:induction false} HitsIncluded(s: int, l: int, ttl: int, ops: seq<Op>)
    requires s <= l && ops != []
    ensures LastResult(New(s, ttl), ops).Some? ==> LastResult(New(l, ttl), ops) == LastResult(New(s, ttl), ops)
  {
    Inclusion(s, l, ttl, DropLast(ops));
  }

  // ------------------------------------------------------------------ the reference

  /** What a cache should be: entries with the times they were set and last touched, no list, no elements. */
  datatype Entry = Entry(value: Value, setAt: int, touched: nat)

  /** Without the entries that no other is older than. */
  ghost function DropOldest(m: map<Key, Entry>): map<Key, Entry> {
    map k | k in m && exists j :: j in m && m[j].touched < m[k].touched :: m[k]
  }

  /** One call; `clock` is its number. An entry lives for `ttl` after it was set, that moment included. */
  ghost function RefApply(maxSize: int, ttl: int, m: map<Key, Entry>, op: Op, clock: nat): map<Key, Entry> {
    match op
    case Get(key, now) =>
      if key in m && now <= m[key].setAt + ttl then m[key := m[key].(touched := clock)] else m - {key}
    case Set(key, value, _, now) =>
      var stored := m[key := Entry(value, now, clock)];
      if |stored| > maxSize then DropOldest(stored) else stored
    case Delete(key) => m - {key}
    case Cleanup(now) => map k | k in m && now <= m[k].setAt + ttl :: m[k]
    case Clear => map[]
  }

  ghost function RefRun(maxSize: int, ttl: int, ops: seq<Op>): map<Key, Entry> {
    if ops == [] then map[] else RefApply(maxSize, ttl, RefRun(maxSize, ttl, DropLast(ops)), Last(ops), |ops|)
  }

  ghost predicate SameKeys(c: Cache, m: map<Key, Entry>) {
    forall k :: k in c.items <==> k in m
  }

  /** The cache holds the same entries, with the same values and times. */
  ghost predicate Holds(c: Cache, m: map<Key, Entry>, touched: Key -> nat) {
    && SameKeys(c, m)
    && forall k :: k in m ==>
         c.items[k].value == m[k].value && c.items[k].expiresAt == m[k].setAt + c.ttl && m[k].touched == touched(k)
  }

  lemma {:induction false} SizeOfValid(c: Cache)
    requires Valid(c)
    ensures |c.items| == |c.lru|
  {
    KeysOfValid(c);
    SizeOfToSet(Keys(c.lru));
    assert c.items.Keys == ToSet(Keys(c.lru));
  }

  /** The back of the list is the oldest entry. */
  lemma {:induction false} BackIsOldest(c: Cache, m: map<Key, Entry>, key: Key, e: Entry, touched: Key -> nat)
    requires Valid(c) && Holds(c, m, touched) && OrderedBy(c.lru, touched) && key !in m
    requires forall n :: n in c.lru ==> touched(n.key) < e.touched
    ensures DropOldest(m[key := e]) == (if c.lru == [] then map[] else m[key := e] - {Last(c.lru).key})
  {
    var stored := m[key := e];
    if c.lru == [] {
      assert forall k :: k in m ==> k in c.items;
      assert m.Keys == {};
    } else {
      var back := Last(c.lru).key;
      assert back in m && touched(back) == m[back].touched;
      forall k | k in stored && k != back
        ensures stored[back].touched < stored[k].touched
      {
        if k != key {
          var i :| 0 <= i < |c.lru| && c.lru[i] == c.items[k].element;
          assert i < |c.lru| - 1;
        }
      }
    }
  }

  lemma {:induction false} SizeOfHeld(c: Cache, m: map<Key, Entry>, touched: Key -> nat, key: Key, e: Entry)
    requires Valid(c) && Holds(c, m, touched)
    ensures |m[key := e]| == |c.lru| + if key in m then 0 else 1
  {
    SizeOfValid(c);
    assert m.Keys == c.items.Keys;
    assert m[key := e].Keys == m.Keys + {key};
    assert |m[key := e].Keys| == |m.Keys| + if key in m then 0 else 1;
  }

  lemma {:induction false} SetHolds(
      c: Cache, m: map<Key, Entry>, op: Op, clock: nat, was: Key -> nat, touched: Key -> nat)
    requires Valid(c) && Holds(c, m, was) && OrderedBy(c.lru, was) && op.Set?
    requires forall n :: n in c.lru ==> was(n.key) < clock
    requires forall k :: touched(k) == if k == op.key then clock else was(k)
    ensures Holds(Apply(c, op), RefApply(c.maxSize, c.ttl, m, op, clock), touched)
  {
    var e := Entry(op.value, op.now, clock);
    SizeOfHeld(c, m, was, op.key, e);
    if op.key in c.items {
      assert RefApply(c.maxSize, c.ttl, m, op, clock) == m[op.key := e];
    } else {
      BackIsOldest(c, m, op.key, e, was);
      SetDrops(c, op);
      NewKeyHolds(c, m, op, clock, was, touched);
    }
  }

  lemma {:induction false} NewKeyHolds(
      c: Cache, m: map<Key, Entry>, op: Op, clock: nat, was: Key -> nat, touched: Key -> nat)
    requires Valid(c) && Holds(c, m, was) && op.Set? && op.key !in c.items
    requires forall k :: touched(k) == if k == op.key then clock else was(k)
    ensures var inserted := Insert(c, op.key, op.value, op.size, op.now);
            var stored := m[op.key := Entry(op.value, op.now, clock)];
            && Holds(inserted, stored, touched)
            && forall k :: Holds(inserted.(items := inserted.items - {k}), stored - {k}, touched)
  {
  }

  lemma SetDrops(c: Cache, op: Op)
    requires op.Set? && op.key !in c.items
    ensures var inserted := Insert(c, op.key, op.value, op.size, op.now);
            Apply(c, op).items ==
              if |c.lru| + 1 <= c.maxSize then inserted.items
              else if c.lru == [] then inserted.items - {op.key} else inserted.items - {Last(c.lru).key}
  {
    var e := Node(c.nextElement, op.key);
    assert Last([e] + c.lru) == if c.lru == [] then e else Last(c.lru);
  }

  lemma {:induction false} OtherCallsHold(
      c: Cache, m: map<Key, Entry>, op: Op, clock: nat, was: Key -> nat, touched: Key -> nat)
    requires Valid(c) && Holds(c, m, was) && !op.Set?
    requires forall k :: touched(k) == if Touches(c, op, k) then clock else was(k)
    ensures Holds(Apply(c, op), RefApply(c.maxSize, c.ttl, m, op, clock), touched)
  {
    if op.Get? || op.Delete? {
      RemoveKeyValid(c, op.key);
    }
  }

  /**
   * In every run the cache holds what the reference holds: the entry of a key is the one last set, it is served
   * up to `ttl` after that, a call past that time removes it, and a new key in a full cache drops the entry
   * touched longest ago.
   */
  lemma {:induction false} RefinesReference(maxSize: int, ttl: int, ops: seq<Op>)
    ensures var c0 := New(maxSize, ttl);
            Holds(Run(c0, ops), RefRun(maxSize, ttl, ops), k => LastTouch(c0, ops, k))
  {
    if ops != [] {
      var c0, prefix, op := New(maxSize, ttl), DropLast(ops), Last(ops);
      var c, m := Run(c0, prefix), RefRun(maxSize, ttl, prefix);
      var was, touched := k => LastTouch(c0, prefix, k), k => LastTouch(c0, ops, k);
      RefinesReference(maxSize, ttl, prefix);
      RunValid(c0, prefix);
      RecencyOrder(maxSize, ttl, prefix);
      forall n | n in c.lru
        ensures was(n.key) < |ops|
      {
        LastTouchBound(c0, prefix, n.key);
      }
      if op.Set? {
        SetHolds(c, m, op, |ops|, was, touched);
      } else {
        OtherCallsHold(c, m, op, |ops|, was, touched);
      }
    }
  }

  /** What a Set leaves of the map; which entry a full cache drops is `EvictsLeastRecent`. */
  lemma {:induction false} SetMeans(c: Cache, key: Key, value: Value, size: int, now: int)
    requires Valid(c)
    ensures var d := SetItem(c, key, value, size, now);
            && (key in d.items ==> d.items[key].value == value && d.items[key].expiresAt == now + c.ttl)
            && (forall k :: k in d.items && k != key ==> k in c.items && d.items[k] == c.items[k])
            && (key in c.items || |c.lru| < c.maxSize ==> d.items.Keys == c.items.Keys + {key})
  {
    SetEntries(c, key, value, size, now);
  }

  /** A Get answers the value last set if the key is held and at most `ttl` has passed; otherwise it removes the key. */
  lemma {:induction false} GetServes(maxSize: int, ttl: int, ops: seq<Op>, key: Key, now: int)
    ensures var c := Run(New(maxSize, ttl), ops);
            var live := key in c.items && Stored(ops, key).Some? && now <= Stored(ops, key).value.1 + ttl;
            && Lookup(c, key, now) == (if live then Some(Stored(ops, key).value.0) else None)
            && Apply(c, Get(key, now)).items == if live then c.items else c.items - {key}
  {
    Coherent(maxSize, ttl, ops);
    RunValid(New(maxSize, ttl), ops);
    RemoveKeyValid(Run(New(maxSize, ttl), ops), key);
  }

  /** Cleanup keeps a key exactly if its last Set is at most `ttl` old. */
  lemma {:induction false} CleanupKeeps(maxSize: int, ttl: int, ops: seq<Op>, now: int, key: Key)
    requires key in Run(New(maxSize, ttl), ops).items
    ensures Stored(ops, key).Some?
    ensures key in Apply(Run(New(maxSize, ttl), ops), Cleanup(now)).items <==> now <= Stored(ops, key).value.1 + ttl
  {
    Coherent(maxSize, ttl, ops);
  }

  // ------------------------------------------------------------------ the struct

  /** `c` without the keys in `gone`. */
  ghost function Pruned(c: Cache, gone: set<Key>): Cache {
    c.(items := c.items - gone, lru := Keep(c.lru, c.items - gone))
  }

  lemma {:induction false} PrunedNone(c: Cache)
    requires Valid(c)
    ensures Pruned(c, {}) == c
  {
    assert c.items - {} == c.items;
    FilterMembers(c.lru, (n: Node) => n.key in c.items - {});
  }

  /** Removing one more key's element from the list is filtering by one key less. */
  lemma {:induction false} PrunedStep(c: Cache, gone: set<Key>, key: Key)
    requires Valid(c)
    ensures RemoveKey(Pruned(c, gone), key) == Pruned(c, gone + {key})
  {
    var more, less := c.items - gone, c.items - (gone + {key});
    if key in more {
      var e := c.items[key].element;
      assert more - {key} == less;
      FilterMembers(c.lru, (n: Node) => n.key in more);
      WithoutIsFilter(Keep(c.lru, more), e, less);
      FilterFilter(c.lru, (n: Node) => n.key in more, (n: Node) => n.key in less);
    } else {
      assert more == less;
    }
  }

  lemma {:induction false} WithoutIsFilter(lru: seq<Node>, e: Node, live: map<Key, Item>)
    requires forall n :: n in lru ==> (n.key in live <==> n != e)
    ensures Without(lru, e) == Keep(lru, live)
  {
    if lru != [] {
      assert lru[0] in lru;
      WithoutIsFilter(lru[1..], e, live);
    }
  }

  class LruCache {
    const maxSize: int
    const ttl: int
    var items: map<Key, Item>
    var lru: seq<Node>
    var nextElement: nat
    var hits: nat
    var misses: nat
    var evictions: nat

    ghost function Contents(): Cache
      reads this
    {
      Cache(maxSize, ttl, items, lru, nextElement)
    }

    constructor (maxSize: int, ttl: int)
      ensures Contents() == New(maxSize, ttl) && Valid(Contents())
      ensures hits == misses == evictions == 0
    {
      this.maxSize, this.ttl := maxSize, ttl;
      items, lru, nextElement := map[], [], 0;
      hits, misses, evictions := 0, 0, 0;
    }

    method Get(key: Key, now: int) returns (value: Option<Value>)
      requires Valid(Contents())
      modifies this
      ensures Contents() == Apply(old(Contents()), Op.Get(key, now)) && Valid(Contents())
      ensures value == Lookup(old(Contents()), key, now)
      ensures value ==
                if key in old(items) && now <= old(items)[key].expiresAt then Some(old(items)[key].value) else None
      ensures items == if value.Some? then old(items) else old(items) - {key}
      ensures hits == old(hits) + (if value.Some? then 1 else 0)
      ensures misses == old(misses) + (if value.None? then 1 else 0) && evictions == old(evictions)
    {
      ApplyValid(Contents(), Op.Get(key, now));
      RemoveKeyValid(Contents(), key);
      if key !in items {
        misses := misses + 1;
        return None;
      }
      var item := items[key];
      if now > item.expiresAt {
        Delete(key);
        misses := misses + 1;
        return None;
      }
      lru := MoveToFront(lru, item.element);
      hits := hits + 1;
      return Some(item.value);
    }

    method Set(key: Key, value: Value, size: int, now: int)
      requires Valid(Contents())
      modifies this
      ensures Contents() == Apply(old(Contents()), Op.Set(key, value, size, now)) && Valid(Contents())
      ensures key in items ==> items[key].value == value && items[key].expiresAt == now + ttl
      ensures forall k :: k in items && k != key ==> k in old(items) && items[k] == old(items)[k]
      ensures key in old(items) || |old(lru)| < maxSize ==> items.Keys == old(items).Keys + {key}
      ensures evictions == old(evictions) + (if key !in old(items) && |old(lru)| >= maxSize then 1 else 0)
      ensures hits == old(hits) && misses == old(misses)
    {
      ghost var c := Contents();
      SetMeans(c, key, value, size, now);
      if key in items {
        var item := items[key].(value := value, size := size, expiresAt := now + ttl);
        items := items[key := item];
        lru := MoveToFront(lru, item.element);
        assert Contents() == SetItem(c, key, value, size, now);
        SetValid(c, key, value, size, now);
        return;
      }
      var element := Node(nextElement, key);
      nextElement := nextElement + 1;
      lru := [element] + lru;
      items := items[key := Item(value, size, now + ttl, element)];
      assert Contents() == Insert(c, key, value, size, now);
      if |lru| > maxSize {
        EvictOldest();
      }
      assert Contents() == SetItem(c, key, value, size, now);
      SetValid(c, key, value, size, now);
    }

    method EvictOldest()
      modifies this
      ensures Contents() == EvictOldestItem(old(Contents()))
      ensures evictions == old(evictions) + (if old(lru) != [] then 1 else 0)
      ensures hits == old(hits) && misses == old(misses)
    {
      if lru != [] {
        var element := lru[|lru| - 1];
        lru := lru[..|lru| - 1];
        items := items - {element.key};
        evictions := evictions + 1;
      }
    }

    method Delete(key: Key)
      requires Valid(Contents())
      modifies this
      ensures Contents() == Apply(old(Contents()), Op.Delete(key)) && Valid(Contents())
      ensures items == old(items) - {key}
      ensures hits == old(hits) && misses == old(misses) && evictions == old(evictions)
    {
      ApplyValid(Contents(), Op.Delete(key));
      RemoveKeyValid(Contents(), key);
      Remove(key);
    }

    /** The removal that `Delete` and `cleanup` both spell out. */
    method Remove(key: Key)
      modifies this
      ensures Contents() == RemoveKey(old(Contents()), key)
      ensures hits == old(hits) && misses == old(misses) && evictions == old(evictions)
    {
      if key in items {
        lru := Without(lru, items[key].element);
        items := items - {key};
      }
    }

    method Clear()
      modifies this
      ensures Contents() == Apply(old(Contents()), Op.Clear) && Valid(Contents()) && items == map[]
      ensures hits == old(hits) && misses == old(misses) && evictions == old(evictions)
    {
      items, lru := map[], [];
    }

    method Cleanup(now: int)
      requires Valid(Contents())
      modifies this
      ensures Contents() == Apply(old(Contents()), Op.Cleanup(now)) && Valid(Contents())
      ensures items == map k | k in old(items) && now <= old(items)[k].expiresAt :: old(items)[k]
      ensures hits == old(hits) && misses == old(misses) && evictions == old(evictions)
    {
      ghost var c := Contents();
      var keysToDelete := CollectExpired(now);
      RemoveAll(keysToDelete);
      assert c.items - ToSet(keysToDelete) == LiveItems(c.items, now);
      SweepValid(c, now);
    }

    /** The second loop of `cleanup`. */
    method RemoveAll(keys: seq<Key>)
      requires Valid(Contents())
      modifies this
      ensures Contents() == Pruned(old(Contents()), ToSet(keys))
      ensures hits == old(hits) && misses == old(misses) && evictions == old(evictions)
    {
      ghost var c := Contents();
      PrunedNone(c);
      assert ToSet(keys[..0]) == {};
      for i := 0 to |keys|
        invariant Contents() == Pruned(c, ToSet(keys[..i]))
        invariant hits == old(hits) && misses == old(misses) && evictions == old(evictions)
      {
        PrunedStep(c, ToSet(keys[..i]), keys[i]);
        assert ToSet(keys[..i + 1]) == ToSet(keys[..i]) + {keys[i]} by {
          assert keys[..i + 1] == keys[..i] + [keys[i]];
        }
        Remove(keys[i]);
      }
      assert keys[..|keys|] == keys;
    }

    /** The first loop of `cleanup`; the map is visited in any order. */
    method CollectExpired(now: int) returns (keysToDelete: seq<Key>)
      ensures forall k :: k in keysToDelete <==> k in items && Expired(items[k], now)
    {
      keysToDelete := [];
      var rest := items.Keys;
      while rest != {}
        invariant rest <= items.Keys
        invariant forall k :: k in keysToDelete <==> k in items && k !in rest && Expired(items[k], now)
        decreases rest
      {
        var key :| key in rest;
        if now > items[key].expiresAt {
          keysToDelete := keysToDelete + [key];
        }
        rest := rest - {key};
      }
    }
  }
}
