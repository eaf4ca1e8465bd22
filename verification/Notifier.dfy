/**
 * Notification retention of internal/governance/notifier.go.
 *
 * CleanupOld drops what is too old and then all but the newest entries. Which of several equally old
 * entries survives depends on map iteration order, so the outcome is a relation: `IsRetention`.
 */
module Notifier {
  import opened Sequences

  type Id = string

  datatype Notification = Notification(id: Id, timestamp: int, title: string, read: bool)

  type Store = map<Id, Notification>

  ghost predicate Keyed(m: Store) {
    forall k :: k in m ==> m[k].id == k
  }

  /** The keys of the entries that are not older than `cutoff`. */
  ghost function InAge(m: Store, cutoff: int): set<Id> {
    set k | k in m && m[k].timestamp >= cutoff
  }

  ghost function Restrict(m: Store, keys: set<Id>): Store {
    map k | k in m && k in keys :: m[k]
  }

  /** `kept` is what a cleanup may leave of `m`: as many as allowed, and none dropped that is newer. */
  ghost predicate IsRetention(m: Store, kept: set<Id>, cutoff: int, max: nat) {
    && kept <= InAge(m, cutoff)
    && |kept| == (if |InAge(m, cutoff)| <= max then |InAge(m, cutoff)| else max)
    && forall j, k :: j in kept && k in InAge(m, cutoff) - kept ==> m[j].timestamp >= m[k].timestamp
  }

  // ------------------------------------------------------------------ what a cleanup keeps

  lemma SubsetSize<T>(a: set<T>, b: set<T>)
    requires a <= b
    ensures |a| <= |b|
    ensures |a| == |b| ==> a == b
  {
    assert b == a + (b - a);
    assert |b| == |a| + |b - a|;
  }

  /** An entry in age survives if at most `max` are at least as new, and is dropped if `max` are newer. */
  lemma {:induction false} RankDecides(m: Store, kept: set<Id>, cutoff: int, max: nat, k: Id)
    requires IsRetention(m, kept, cutoff, max) && k in m
    ensures m[k].timestamp < cutoff ==> k !in kept
    ensures m[k].timestamp >= cutoff ==>
              && (|set j | j in m && m[j].timestamp >= m[k].timestamp| <= max ==> k in kept)
              && (|set j | j in m && m[j].timestamp > m[k].timestamp| >= max ==> k !in kept)
  {
    var asNew := set j | j in m && m[j].timestamp >= m[k].timestamp;
    var newer := set j | j in m && m[j].timestamp > m[k].timestamp;
    if m[k].timestamp < cutoff {
    } else if k in kept {
      SubsetSize(newer + {k}, kept);
    } else {
      SubsetSize(kept + {k}, asNew);
      SubsetSize(kept, InAge(m, cutoff));
    }
  }

  ghost predicate DistinctTimes(m: Store) {
    forall j, k :: j in m && k in m && j != k ==> m[j].timestamp != m[k].timestamp
  }

  /** Only ties leave a choice. */
  lemma {:induction false} RetentionUnique(m: Store, a: set<Id>, b: set<Id>, cutoff: int, max: nat)
    requires IsRetention(m, a, cutoff, max) && IsRetention(m, b, cutoff, max) && DistinctTimes(m)
    ensures a == b
  {
    assert forall j, k :: j in a - b && k in b - a ==> m[j].timestamp == m[k].timestamp;
    if a <= b {
      SubsetSize(a, b);
    } else {
      SubsetSize(b, a);
    }
  }

  /** Cleaning up on the way changes nothing: a later cleanup leaves what it would have left anyway. */
  lemma {:induction false} CleanupsCompose(m: Store, first: set<Id>, second: set<Id>, c1: int, c2: int, max: nat)
    requires c1 <= c2 && IsRetention(m, first, c1, max)
    requires IsRetention(Restrict(m, first), second, c2, max)
    ensures IsRetention(m, second, c2, max)
  {
    var r := Restrict(m, first);
    assert InAge(r, c2) <= InAge(m, c2) <= InAge(m, c1);
    SubsetSize(first, InAge(m, c1));
    if InAge(m, c2) <= first {
      assert InAge(r, c2) == InAge(m, c2);
    } else {
      var x :| x in InAge(m, c2) && x !in first;
      assert InAge(r, c2) == first;
      SubsetSize(first, InAge(m, c2));
    }
  }

  /** A second cleanup at the same time removes nothing. */
  lemma {:induction false} CleanupIdempotent(m: Store, first: set<Id>, second: set<Id>, cutoff: int, max: nat)
    requires IsRetention(m, first, cutoff, max) && IsRetention(Restrict(m, first), second, cutoff, max)
    ensures second == first
  {
    assert InAge(Restrict(m, first), cutoff) == first;
    SubsetSize(second, first);
  }

  // ------------------------------------------------------------------ runs

  datatype State = State(notifications: Store, enabled: bool)

  datatype Step =
    | Send(notification: Notification)
    | SetEnabled(enabled: bool)
    | MarkAsRead(id: Id)
    | CleanupOld(now: int, ghost kept: set<Id>) // `kept` resolves the ties

  const MAX_NOTIFICATIONS: nat := 1000
  const MAX_AGE: int := 30 * 24 * 3600 * 1_000_000_000 // 30 days, in nanoseconds

  ghost function Next(s: State, step: Step): State {
    match step
    case Send(n) => if s.enabled then s.(notifications := s.notifications[n.id := n]) else s
    case SetEnabled(enabled) => s.(enabled := enabled)
    case MarkAsRead(id) =>
      if id in s.notifications then
        s.(notifications := s.notifications[id := s.notifications[id].(read := true)])
      else s
    case CleanupOld(now, kept) =>
      if IsRetention(s.notifications, kept, now - MAX_AGE, MAX_NOTIFICATIONS) then
        s.(notifications := Restrict(s.notifications, kept))
      else s
  }

  ghost function Run(steps: seq<Step>): State {
    if steps == [] then State(map[], true) else Next(Run(DropLast(steps)), Last(steps))
  }

  /** The number of notifications sent since the last cleanup that took place. */
  ghost function SentSinceCleanup(steps: seq<Step>): nat {
    if steps == [] then 0
    else
      var before := SentSinceCleanup(DropLast(steps));
      match Last(steps)
      case Send(_) => before + 1
      case CleanupOld(now, kept) =>
        if IsRetention(Run(DropLast(steps)).notifications, kept, now - MAX_AGE, MAX_NOTIFICATIONS) then 0 else before
      case _ => before
  }

  lemma {:induction false} SendGrows(m: Store, n: Notification)
    ensures |m[n.id := n]| <= |m| + 1
    ensures Keyed(m) ==> Keyed(m[n.id := n])
  {
    SubsetSize(m[n.id := n].Keys, m.Keys + {n.id});
  }

  lemma {:induction false} RestrictShrinks(m: Store, kept: set<Id>)
    requires kept <= m.Keys
    ensures Restrict(m, kept).Keys == kept && |Restrict(m, kept)| == |kept|
    ensures Keyed(m) ==> Keyed(Restrict(m, kept))
  {
    assert |Restrict(m, kept)| == |Restrict(m, kept).Keys|;
  }

  lemma {:induction false} MarkKeepsSize(m: Store, id: Id)
    requires id in m
    ensures var m' := m[id := m[id].(read := true)];
            |m'| == |m| && (Keyed(m) ==> Keyed(m'))
  {
    var m' := m[id := m[id].(read := true)];
    assert m'.Keys == m.Keys;
    assert |m'| == |m'.Keys| && |m| == |m.Keys|;
  }

  /** In every run each entry is filed under its own ID, and the store exceeds the limit by recent arrivals only. */
  lemma {:induction false} StoreBounded(steps: seq<Step>)
    ensures Keyed(Run(steps).notifications)
    ensures |Run(steps).notifications| <= MAX_NOTIFICATIONS + SentSinceCleanup(steps)
  {
    if steps != [] {
      StoreBounded(DropLast(steps));
      var m := Run(DropLast(steps)).notifications;
      match Last(steps)
      case Send(n) => SendGrows(m, n);
      case SetEnabled(_) =>
      case MarkAsRead(id) => if id in m { MarkKeepsSize(m, id); }
      case CleanupOld(now, kept) =>
        if IsRetention(m, kept, now - MAX_AGE, MAX_NOTIFICATIONS) {
          RestrictShrinks(m, kept);
        }
    }
  }

  /** Sending is on unless it was switched off last. */
  function Enabled(steps: seq<Step>): bool {
    if steps == [] then true
    else if Last(steps).SetEnabled? then Last(steps).enabled
    else Enabled(DropLast(steps))
  }

  /** What a store that never forgets holds for `id`: the last one sent while sending was on, read if marked since. */
  function LastSent(steps: seq<Step>, id: Id): Option<Notification> {
    if steps == [] then None
    else
      var before := LastSent(DropLast(steps), id);
      match Last(steps)
      case Send(n) => if n.id == id && Enabled(DropLast(steps)) then Some(n) else before
      case MarkAsRead(marked) =>
        if marked == id && before.Some? then Some(before.value.(read := true)) else before
      case _ => before
  }

  /** `id` was sent, while sending was on, and no cleanup since has dropped it. */
  ghost predicate Present(steps: seq<Step>, id: Id) {
    steps != [] &&
    match Last(steps)
    case Send(n) => (n.id == id && Enabled(DropLast(steps))) || Present(DropLast(steps), id)
    case CleanupOld(now, kept) =>
      Present(DropLast(steps), id)
      && (id in kept || !IsRetention(Run(DropLast(steps)).notifications, kept, now - MAX_AGE, MAX_NOTIFICATIONS))
    case _ => Present(DropLast(steps), id)
  }

  /** In every run the store holds what was sent and not dropped, as it was last sent, and read exactly if marked. */
  lemma {:induction false} HoldsLastSent(steps: seq<Step>, id: Id)
    ensures Run(steps).enabled == Enabled(steps)
    ensures id in Run(steps).notifications <==> Present(steps, id)
    ensures id in Run(steps).notifications ==> LastSent(steps, id) == Some(Run(steps).notifications[id])
  {
    if steps != [] {
      HoldsLastSent(DropLast(steps), id);
    }
  }

  // ------------------------------------------------------------------ the implementation

  predicate NewestFirst(a: Notification, b: Notification) {
    a.timestamp >= b.timestamp
  }

  /** `list` holds every entry of `m` once. */
  ghost predicate Lists(list: seq<Notification>, m: Store) {
    && (forall i :: 0 <= i < |list| ==> list[i].id in m && m[list[i].id] == list[i])
    && (forall i, j :: 0 <= i < j < |list| ==> list[i].id != list[j].id)
    && |list| == |m|
    && forall k :: k in m ==> m[k] in list
  }

  lemma {:induction false} ReorderedLists(list: seq<Notification>, sorted: seq<Notification>, m: Store)
    requires Lists(list, m) && multiset(list) == multiset(sorted)
    ensures Lists(sorted, m)
  {
    assert Distinct(list);
    Permutation(list, sorted);
    assert |multiset(list)| == |multiset(sorted)|;
    assert forall i :: 0 <= i < |sorted| ==> sorted[i] in list;
  }

  ghost function FirstIds(list: seq<Notification>, n: nat): set<Id>
    requires n <= |list|
  {
    if n == 0 then {} else FirstIds(list, n - 1) + {list[n - 1].id}
  }

  lemma {:induction false} FirstIdAt(list: seq<Notification>, n: nat, id: Id) returns (i: nat)
    requires n <= |list| && id in FirstIds(list, n)
    ensures i < n && list[i].id == id
  {
    if id == list[n - 1].id {
      i := n - 1;
    } else {
      i := FirstIdAt(list, n - 1, id);
    }
  }

  lemma {:induction false} FirstIdsCount(list: seq<Notification>, n: nat)
    requires n <= |list| && forall i, j :: 0 <= i < j < |list| ==> list[i].id != list[j].id
    ensures |FirstIds(list, n)| == n
  {
    if n > 0 {
      FirstIdsCount(list, n - 1);
      if list[n - 1].id in FirstIds(list, n - 1) {
        var i := FirstIdAt(list, n - 1, list[n - 1].id);
        assert false;
      }
    }
  }

  lemma {:induction false} FirstIdsHas(list: seq<Notification>, n: nat, i: nat)
    requires i < n <= |list|
    ensures list[i].id in FirstIds(list, n)
  {
    if i < n - 1 {
      FirstIdsHas(list, n - 1, i);
    }
  }

  lemma {:induction false} FirstAreNewest(m: Store, sorted: seq<Notification>, max: nat, j: Id, k: Id)
    requires Lists(sorted, m) && Keyed(m) && SortedBy(sorted, NewestFirst) && max < |sorted|
    requires j in FirstIds(sorted, max) && k in m && k !in FirstIds(sorted, max)
    ensures j in m && m[j].timestamp >= m[k].timestamp
  {
    var a := FirstIdAt(sorted, max, j);
    var b :| 0 <= b < |sorted| && sorted[b] == m[k];
    if b < max {
      FirstIdsHas(sorted, max, b);
    }
    assert a < b && NewestFirst(sorted[a], sorted[b]);
  }

  /** The IDs of the first entries of a sorted list form a retention. */
  lemma {:induction false} NewestAreRetained(m: Store, sorted: seq<Notification>, max: nat, cutoff: int)
    requires Lists(sorted, m) && Keyed(m) && SortedBy(sorted, NewestFirst) && max < |m|
    requires InAge(m, cutoff) == m.Keys
    ensures IsRetention(m, FirstIds(sorted, max), cutoff, max)
  {
    var kept := FirstIds(sorted, max);
    FirstIdsCount(sorted, max);
    assert |m.Keys| == |m|;
    forall k | k in kept
      ensures k in m
    {
      var i := FirstIdAt(sorted, max, k);
    }
    forall j, k | j in kept && k in m.Keys - kept
      ensures m[j].timestamp >= m[k].timestamp
    {
      FirstAreNewest(m, sorted, max, j, k);
    }
  }

  class Notifier {
    var notifications: Store
    var enabled: bool

    ghost function Contents(): State
      reads this
    {
      State(notifications, enabled)
    }

    constructor ()
      ensures Contents() == Run([])
    {
      notifications, enabled := map[], true;
    }

    method SendNotification(n: Notification)
      modifies this
      ensures Contents() == Next(old(Contents()), Send(n))
      ensures notifications == if enabled then old(notifications)[n.id := n] else old(notifications)
    {
      if !enabled {
        return;
      }
      notifications := notifications[n.id := n];
    }

    method MarkAsRead(id: Id) returns (found: bool)
      modifies this
      ensures found <==> id in old(notifications)
      ensures Contents() == Next(old(Contents()), Step.MarkAsRead(id))
      ensures found ==> notifications == old(notifications)[id := old(notifications)[id].(read := true)]
      ensures !found ==> notifications == old(notifications)
    {
      if id !in notifications {
        return false;
      }
      notifications := notifications[id := notifications[id].(read := true)];
      return true;
    }

    /** All entries, in the order in which a map happens to be iterated. */
    static method Collect(m: Store) returns (list: seq<Notification>)
      requires Keyed(m)
      ensures Lists(list, m)
    {
      list := [];
      var ids := m.Keys;
      while ids != {}
        invariant ids <= m.Keys && |list| + |ids| == |m.Keys|
        invariant forall i :: 0 <= i < |list| ==> list[i].id in m && list[i].id !in ids && m[list[i].id] == list[i]
        invariant forall i, j :: 0 <= i < j < |list| ==> list[i].id != list[j].id
        invariant forall k :: k in m.Keys - ids ==> m[k] in list
      {
        var id :| id in ids;
        list := list + [m[id]];
        ids := ids - {id};
      }
      assert |m.Keys| == |m|;
    }

    method GetNotifications() returns (list: seq<Notification>)
      requires Keyed(notifications)
      ensures Lists(list, notifications) && SortedBy(list, NewestFirst)
      ensures |list| == |notifications| && forall k :: k in notifications ==> notifications[k] in list
      ensures forall i, j :: 0 <= i < j < |list| ==> list[i].timestamp >= list[j].timestamp
    {
      var collected := Collect(notifications);
      list := SortBy(collected, NewestFirst);
      ReorderedLists(collected, list, notifications);
    }

    static method DropOlder(m: Store, cutoff: int) returns (rest: Store, removed: nat)
      ensures rest == Restrict(m, InAge(m, cutoff)) && removed == |m| - |rest|
    {
      rest, removed := m, 0;
      var ids := m.Keys;
      while ids != {}
        invariant ids <= m.Keys && removed == |m.Keys| - |rest.Keys|
        invariant rest == map k | k in m && (k in ids || m[k].timestamp >= cutoff) :: m[k]
      {
        var id :| id in ids;
        if m[id].timestamp < cutoff {
          rest := rest - {id};
          removed := removed + 1;
          assert m.Keys == m.Keys + {id};
        }
        ids := ids - {id};
      }
      assert |m.Keys| == |m| && |rest.Keys| == |rest|;
    }

    static method KeepNewest(m: Store, max: nat, ghost cutoff: int) returns (rest: Store, removed: nat)
      requires Keyed(m) && max < |m| && InAge(m, cutoff) == m.Keys
      ensures IsRetention(m, rest.Keys, cutoff, max) && rest == Restrict(m, rest.Keys) && removed == |m| - |rest|
    {
      var list := Collect(m);
      var sorted := SortBy(list, NewestFirst);
      ReorderedLists(list, sorted, m);
      rest := FirstOf(m, sorted, max);
      NewestAreRetained(m, sorted, max, cutoff);
      assert |rest| == |rest.Keys|;
      removed := |sorted| - max;
    }

    static method FirstOf(m: Store, sorted: seq<Notification>, max: nat) returns (rest: Store)
      requires max < |sorted| && forall i :: 0 <= i < |sorted| ==> sorted[i].id in m && m[sorted[i].id] == sorted[i]
      ensures rest.Keys == FirstIds(sorted, max)
      ensures rest == Restrict(m, rest.Keys)
    {
      rest := map[];
      var i := 0;
      while i < max && i < |sorted|
        invariant 0 <= i <= max
        invariant rest.Keys == FirstIds(sorted, i)
        invariant rest == Restrict(m, rest.Keys)
      {
        rest := Added(m, rest, sorted[i]);
        i := i + 1;
      }
    }

    static method Added(m: Store, was: Store, n: Notification) returns (rest: Store)
      requires was == Restrict(m, was.Keys) && n.id in m && m[n.id] == n
      ensures rest.Keys == was.Keys + {n.id} && rest == Restrict(m, rest.Keys)
    {
      rest := was[n.id := n];
    }

    /** The ghost result tells how the ties were resolved. */
    method CleanupOld(now: int) returns (removed: nat, ghost kept: set<Id>)
      requires Keyed(notifications)
      modifies this
      ensures IsRetention(old(notifications), kept, now - MAX_AGE, MAX_NOTIFICATIONS)
      ensures Contents() == Next(old(Contents()), Step.CleanupOld(now, kept)) && Keyed(notifications)
      ensures |notifications| <= 1000 && kept == notifications.Keys
      ensures forall k :: k in notifications ==> k in old(notifications) && notifications[k] == old(notifications)[k]
      ensures forall k :: k in notifications ==> notifications[k].timestamp >= now - 30 * 86_400_000_000_000
      ensures |old(notifications)| <= 1000 ==>
                forall k :: k in old(notifications) && old(notifications)[k].timestamp >= now - 30 * 86_400_000_000_000
                            ==> k in notifications
      ensures removed == |old(notifications)| - |notifications|
    {
      ghost var all, cutoff := notifications, now - MAX_AGE;
      notifications, removed := DropOlder(notifications, now - MAX_AGE);
      ghost var young := notifications;
      assert young.Keys == InAge(all, cutoff) == InAge(young, cutoff);
      assert |young| == |young.Keys|;
      if |notifications| > MAX_NOTIFICATIONS {
        var dropped;
        notifications, dropped := KeepNewest(notifications, MAX_NOTIFICATIONS, cutoff);
        removed := removed + dropped;
      }
      kept := notifications.Keys;
      assert notifications == Restrict(all, kept);
    }
  }
}
