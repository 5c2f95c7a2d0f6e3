/**
 * The bounded read cache: a map of entries, a queue of recency records in
 * which a record is dead once its stamp no longer matches its entry's, a byte
 * charge and a write epoch. Every method is proved to do to the recency list
 * (`RecencyList.Lru`) what that list's operation of the same name does.
 */
module ReadCaching {
  import opened Prelude
  import opened StoragePaths
  import opened RecencyList

  datatype Slot = Slot(cached: Cached, stamp: nat, charge: nat)

  datatype Record = Record(path: string, stamp: nat)

  predicate Live(entries: map<string, Slot>, record: Record)
  {
    record.path in entries && entries[record.path].stamp == record.stamp
  }

  /** `order.retain(live)`. */
  function Retain(entries: map<string, Slot>, order: seq<Record>): seq<Record>
  {
    if order == [] then []
    else (if Live(entries, order[0]) then [order[0]] else []) + Retain(entries, order[1..])
  }

  /** The recency list the queue stands for: its live records, in order. */
  function Items(entries: map<string, Slot>, order: seq<Record>): seq<Item>
  {
    if order == [] then []
    else
      var record := order[0];
      (if Live(entries, record)
       then [Item(record.path, entries[record.path].cached, entries[record.path].charge)] else [])
      + Items(entries, order[1..])
  }

  /** Stamps strictly increase along the queue and none is yet to be given out. */
  ghost predicate Stamped(order: seq<Record>, nextStamp: nat)
  {
    && (forall i, j :: 0 <= i < j < |order| ==> order[i].stamp < order[j].stamp)
    && (forall i :: 0 <= i < |order| ==> order[i].stamp < nextStamp)
  }

  /** Each entry has a record carrying its stamp (one, since stamps are distinct). */
  ghost predicate Recorded(entries: map<string, Slot>, order: seq<Record>)
  {
    forall path :: path in entries ==> Record(path, entries[path].stamp) in order
  }

  lemma {:induction false} ItemsConcat(entries: map<string, Slot>, a: seq<Record>, b: seq<Record>)
    ensures Items(entries, a + b) == Items(entries, a) + Items(entries, b)
  {
    if a == [] {
      assert a + b == b;
    } else {
      assert (a + b)[1..] == a[1..] + b;
      ItemsConcat(entries, a[1..], b);
    }
  }

  /** Compaction forgets only dead records: the list it stands for is the same. */
  lemma {:induction false} RetainKeepsItems(entries: map<string, Slot>, order: seq<Record>)
    ensures Items(entries, Retain(entries, order)) == Items(entries, order)
    ensures |Retain(entries, order)| == |Items(entries, order)|
    ensures forall record :: record in Retain(entries, order) <==> record in order && Live(entries, record)
  {
    if order != [] {
      RetainKeepsItems(entries, order[1..]);
      assert order == [order[0]] + order[1..];
      ItemsConcat(entries, if Live(entries, order[0]) then [order[0]] else [], Retain(entries, order[1..]));
    }
  }

  lemma {:induction false} RetainStamped(entries: map<string, Slot>, order: seq<Record>, nextStamp: nat)
    requires Stamped(order, nextStamp)
    ensures Stamped(Retain(entries, order), nextStamp)
  {
    if order != [] {
      RetainStamped(entries, order[1..], nextStamp);
      RetainKeepsItems(entries, order[1..]);
      StampedHead(order, Retain(entries, order[1..]), nextStamp);
    }
  }

  lemma StampedHead(order: seq<Record>, some: seq<Record>, nextStamp: nat)
    requires order != [] && Stamped(order, nextStamp) && Stamped(some, nextStamp)
    requires forall record :: record in some ==> record in order[1..]
    ensures Stamped([order[0]] + some, nextStamp)
  {
    forall i | 0 <= i < |some| ensures order[0].stamp < some[i].stamp {
      assert some[i] in order[1..];
    }
  }

  /** Dropping an entry removes its path from the list and nothing else. */
  lemma {:induction false} ItemsAfterDrop(entries: map<string, Slot>, order: seq<Record>, path: string)
    ensures Items(entries - {path}, order) == Without(Items(entries, order), path)
  {
    if order != [] {
      ItemsAfterDrop(entries, order[1..], path);
      WithoutConcat(Items(entries, order[..1]), Items(entries, order[1..]), path);
      ItemsConcat(entries, order[..1], order[1..]);
      assert order[..1] + order[1..] == order;
    }
  }

  lemma {:induction false} WithoutConcat(a: seq<Item>, b: seq<Item>, path: string)
    ensures Without(a + b, path) == Without(a, path) + Without(b, path)
  {
    if a == [] {
      assert a + b == b;
    } else {
      assert (a + b)[1..] == a[1..] + b;
      WithoutConcat(a[1..], b, path);
    }
  }

  /** An entry restamped past every record is off the list until it is recorded. */
  lemma {:induction false} ItemsAfterRestamp(
    entries: map<string, Slot>, order: seq<Record>, path: string, slot: Slot)
    requires Stamped(order, slot.stamp)
    ensures Items(entries[path := slot], order) == Without(Items(entries, order), path)
  {
    if order != [] {
      ItemsAfterRestamp(entries, order[1..], path, slot);
      WithoutConcat(Items(entries, order[..1]), Items(entries, order[1..]), path);
      ItemsConcat(entries, order[..1], order[1..]);
      assert order[..1] + order[1..] == order;
    }
  }

  /** The list holds each entry once, under its own path, and nothing else. */
  lemma {:induction false} ItemsAreEntries(entries: map<string, Slot>, order: seq<Record>, nextStamp: nat)
    requires Stamped(order, nextStamp)
    ensures Distinct(Items(entries, order))
    ensures forall item :: item in Items(entries, order) <==>
              && item.path in entries && Record(item.path, entries[item.path].stamp) in order
              && item == Item(item.path, entries[item.path].cached, entries[item.path].charge)
  {
    if order != [] {
      var rest := order[1..];
      ItemsAreEntries(entries, rest, nextStamp);
      assert order == [order[0]] + rest;
      if Live(entries, order[0]) {
        var tail := Items(entries, rest);
        forall i | 0 <= i < |tail| ensures tail[i].path != order[0].path {
          assert tail[i] in tail;
          assert Record(tail[i].path, entries[tail[i].path].stamp) in rest;
          assert order[0] !in rest;
        }
      }
    }
  }

  /** As many items as entries, so a compacted queue is within its bound. */
  lemma ItemCount(entries: map<string, Slot>, order: seq<Record>, nextStamp: nat)
    requires Stamped(order, nextStamp)
    ensures |Items(entries, order)| <= |entries|
  {
    ItemsAreEntries(entries, order, nextStamp);
    var items := Items(entries, order);
    var paths := seq(|items|, i requires 0 <= i < |items| => items[i].path);
    forall i | 0 <= i < |paths| ensures paths[i] in entries.Keys {
      assert items[i] in items;
    }
    DistinctBound(paths, entries.Keys);
  }

  /** Looking an entry up in the map and in the list agree. */
  lemma FindIsEntry(entries: map<string, Slot>, order: seq<Record>, nextStamp: nat, path: string)
    requires Stamped(order, nextStamp) && Recorded(entries, order)
    ensures Find(Items(entries, order), path) ==
            if path in entries then Some(Item(path, entries[path].cached, entries[path].charge)) else None
  {
    ItemsAreEntries(entries, order, nextStamp);
    FindIsMember(Items(entries, order), path);
    if path in entries {
      FindMember(Items(entries, order), Item(path, entries[path].cached, entries[path].charge));
    }
  }

  /** What every step of every operation keeps. */
  ghost predicate Consistent(entries: map<string, Slot>, order: seq<Record>, charged: nat, nextStamp: nat)
  {
    && Stamped(order, nextStamp)
    && Recorded(entries, order)
    && charged == Total(Items(entries, order))
  }

  /** Each entry has exactly one live record in the queue; any other of its path is dead. */
  lemma OneLiveRecord(entries: map<string, Slot>, order: seq<Record>, charged: nat, nextStamp: nat, path: string)
    returns (at: nat)
    requires Consistent(entries, order, charged, nextStamp) && path in entries
    ensures at < |order| && order[at].path == path && Live(entries, order[at])
    ensures forall i :: 0 <= i < |order| && i != at && order[i].path == path ==> !Live(entries, order[i])
  {
    assert Record(path, entries[path].stamp) in order;
    at :| 0 <= at < |order| && order[at] == Record(path, entries[path].stamp);
  }

  /** A hit: restamp the entry, record it at the back. */
  lemma AfterHit(entries: map<string, Slot>, order: seq<Record>, charged: nat, stamp: nat, path: string)
    requires Consistent(entries, order, charged, stamp) && path in entries
    ensures var slot := entries[path].(stamp := stamp);
            var after, queue := entries[path := slot], order + [Record(path, stamp)];
            && Consistent(after, queue, charged, stamp + 1)
            && Find(Items(entries, order), path) == Some(Item(path, slot.cached, slot.charge))
            && Items(after, queue) ==
                 Without(Items(entries, order), path) + [Item(path, slot.cached, slot.charge)]
  {
    var slot := entries[path].(stamp := stamp);
    var items := Items(entries, order);
    FindIsEntry(entries, order, stamp, path);
    ItemsAreEntries(entries, order, stamp);
    AfterPush(entries, order, path, slot);
    TotalWithout(items, path);
    TotalConcat(Without(items, path), [Item(path, slot.cached, slot.charge)]);
  }

  /** An entry given a fresh stamp and recorded at the back, new or not. */
  lemma AfterPush(entries: map<string, Slot>, order: seq<Record>, path: string, slot: Slot)
    requires Stamped(order, slot.stamp) && Recorded(entries, order)
    ensures var after, queue := entries[path := slot], order + [Record(path, slot.stamp)];
            && Stamped(queue, slot.stamp + 1) && Recorded(after, queue)
            && Items(after, queue) ==
                 Without(Items(entries, order), path) + [Item(path, slot.cached, slot.charge)]
  {
    var after, last := entries[path := slot], [Record(path, slot.stamp)];
    ItemsAfterRestamp(entries, order, path, slot);
    ItemsConcat(after, order, last);
    assert (order + last)[|order|] == last[0];
    forall p | p in after ensures Record(p, after[p].stamp) in order + last {
      if p != path { assert Record(p, entries[p].stamp) in order; }
    }
  }

  /** An admitted object recorded at the back, once its old entry is gone. */
  lemma AfterAdmit(entries: map<string, Slot>, order: seq<Record>, charged: nat, stamp: nat,
                   path: string, cached: Cached, cost: nat, before: seq<Item>)
    requires Consistent(entries, order, charged, stamp)
    requires Items(entries, order) == Without(before, path)
    ensures var after, queue := entries[path := Slot(cached, stamp, cost)], order + [Record(path, stamp)];
            && Consistent(after, queue, charged + cost, stamp + 1)
            && Items(after, queue) == Without(before, path) + [Item(path, cached, cost)]
  {
    AfterPush(entries, order, path, Slot(cached, stamp, cost));
    TotalConcat(Without(before, path), [Item(path, cached, cost)]);
    WithoutAgain(before, path);
  }

  /** An entry dropped from the map: its record is dead where it stands. */
  lemma AfterDrop(entries: map<string, Slot>, order: seq<Record>, charged: nat, nextStamp: nat, path: string)
    requires Consistent(entries, order, charged, nextStamp)
    ensures Items(entries - {path}, order) == Without(Items(entries, order), path)
    ensures path in entries ==>
              && entries[path].charge <= charged
              && Consistent(entries - {path}, order, charged - entries[path].charge, nextStamp)
    ensures path !in entries ==> entries - {path} == entries
  {
    var items := Items(entries, order);
    FindIsEntry(entries, order, nextStamp, path);
    ItemsAfterDrop(entries, order, path);
    ItemsAreEntries(entries, order, nextStamp);
    if path in entries { TotalWithout(items, path); }
  }

  /** A dead record popped off the front changes nothing ... */
  lemma AfterDeadPop(entries: map<string, Slot>, order: seq<Record>, charged: nat, nextStamp: nat)
    requires Consistent(entries, order, charged, nextStamp) && order != [] && !Live(entries, order[0])
    ensures Items(entries, order[1..]) == Items(entries, order)
    ensures Consistent(entries, order[1..], charged, nextStamp)
  {
    assert order == [order[0]] + order[1..];
    assert [] + Items(entries, order[1..]) == Items(entries, order[1..]);
  }

  /** ... and a live one, with its entry, is the list's first item. */
  lemma AfterLivePop(entries: map<string, Slot>, order: seq<Record>, charged: nat, nextStamp: nat)
    requires Consistent(entries, order, charged, nextStamp) && order != [] && Live(entries, order[0])
    ensures var path, items := order[0].path, Items(entries, order);
            && items != [] && entries[path].charge <= charged
            && Items(entries - {path}, order[1..]) == items[1..]
            && Consistent(entries - {path}, order[1..], charged - entries[path].charge, nextStamp)
  {
    var path, rest, items := order[0].path, order[1..], Items(entries, order);
    var tail := Items(entries, rest);
    assert order == [order[0]] + rest;
    assert items[1..] == tail;
    ItemsAreEntries(entries, order, nextStamp);
    FirstIsDistinct(items);
    WithoutAbsent(tail, path);
    ItemsAfterDrop(entries, rest, path);
    forall p | p in entries - {path} ensures Record(p, entries[p].stamp) in rest {
      assert Record(p, entries[p].stamp) in order;
    }
  }

  lemma FirstIsDistinct(items: seq<Item>)
    requires Distinct(items) && items != []
    ensures Find(items[1..], items[0].path).None?
  {
    FindIsMember(items[1..], items[0].path);
  }

  class ReadCache {
    var entries: map<string, Slot>
    var order: seq<Record>
    var charged: nat
    const budget: nat
    const maxEntry: nat
    var nextStamp: nat
    var epoch: nat

    ghost predicate Coherent()
      reads this
    {
      Consistent(entries, order, charged, nextStamp)
    }

    /** What holds between operations. */
    ghost predicate Valid()
      reads this
    {
      && Coherent()
      && charged <= budget
      && |order| <= 2 * |entries| + 16
    }

    ghost function Model(): Lru
      reads this
    {
      Lru(Items(entries, order), budget, maxEntry, epoch)
    }

    constructor (budget: nat, maxEntry: nat)
      ensures Valid() && Model() == Lru([], budget, maxEntry, 0)
    {
      entries, order, charged := map[], [], 0;
      this.budget, this.maxEntry := budget, maxEntry;
      nextStamp, epoch := 0, 0;
    }

    method GetCached(folder: string, key: string) returns (hit: Option<Cached>)
      requires Valid()
      modifies this
      ensures Valid() && Model() == Get(old(Model()), ObjectPath(folder, key))
      ensures hit == match Find(old(Model().items), ObjectPath(folder, key))
                     case None => None
                     case Some(item) => Some(item.cached)
    {
      var path := ObjectPath(folder, key);
      var stamp := nextStamp;
      FindIsEntry(entries, order, nextStamp, path);
      ghost var goal := Get(Model(), path);
      if path !in entries {
        assert goal == Model();
        return None;
      }
      AfterHit(entries, order, charged, stamp, path);
      var slot := entries[path].(stamp := stamp);
      entries := entries[path := slot];
      var cached := slot.cached;
      nextStamp := nextStamp + 1;
      order := order + [Record(path, stamp)];
      assert Model() == goal;
      Compact();
      return Some(cached);
    }

    function Ticket(): nat
      reads this
    {
      epoch
    }

    method InsertReadBytes(ticket: nat, folder: string, key: string, data: Bytes, info: ObjectInfo)
      requires Valid()
      modifies this
      ensures Valid()
      ensures Model() == InsertRead(old(Model()), ticket, ObjectPath(folder, key), Cached(data, info))
    {
      if ticket == Ticket() {
        InsertBytes(folder, key, data, info);
      }
    }

    method InvalidateKey(folder: string, key: string) returns (ticket: nat)
      requires Valid()
      modifies this
      ensures Valid() && Model() == Invalidate(old(Model()), ObjectPath(folder, key))
      ensures ticket == Model().epoch
    {
      RemovePath(ObjectPath(folder, key));
      epoch := epoch + 1;
      ticket := Ticket();
    }

    method InvalidateAllUnder(folder: string) returns (ticket: nat)
      requires Valid()
      modifies this
      ensures Valid() && Model() == InvalidateFolder(old(Model()), folder)
      ensures ticket == Model().epoch
    {
      RemoveAllUnder(folder);
      epoch := epoch + 1;
      ticket := Ticket();
    }

    method InsertWrittenBytes(ticket: nat, folder: string, key: string, data: Bytes, info: ObjectInfo)
      requires Valid()
      modifies this
      ensures Valid()
      ensures Model() == InsertWritten(old(Model()), ticket, ObjectPath(folder, key), Cached(data, info))
    {
      var undisturbed := ticket == Ticket();
      var _ := InvalidateKey(folder, key);
      if undisturbed {
        InsertBytes(folder, key, data, info);
      }
    }

    method InsertBytes(folder: string, key: string, data: Bytes, info: ObjectInfo)
      requires Valid()
      modifies this
      ensures Valid()
      ensures Model() == Insert(old(Model()), ObjectPath(folder, key), Cached(data, info))
    {
      var path := ObjectPath(folder, key);
      var cost := Charge(path, data, info);
      if |data| > maxEntry || cost > budget {
        RemovePath(path);
        return;
      }
      ghost var goal, before := Insert(Model(), path, Cached(data, info)), Items(entries, order);
      RemovePath(path);
      PushEntry(path, Cached(data, info), cost, before);
      EvictToBudget(Items(entries, order));
      assert Model() == goal;
      Compact();
    }

    /** An admitted object joins the queue at the back; the total may pass the budget. */
    method PushEntry(path: string, cached: Cached, cost: nat, ghost before: seq<Item>)
      requires Coherent() && Items(entries, order) == Without(before, path)
      modifies this
      ensures Coherent() && epoch == old(epoch)
      ensures Items(entries, order) == Without(before, path) + [Item(path, cached, cost)]
    {
      AfterAdmit(entries, order, charged, nextStamp, path, cached, cost, before);
      var stamp := nextStamp;
      nextStamp := nextStamp + 1;
      charged := charged + cost;
      entries := entries[path := Slot(cached, stamp, cost)];
      order := order + [Record(path, stamp)];
    }

    /** The eviction loop of an insertion: it ends, within budget. */
    method EvictToBudget(ghost all: seq<Item>)
      requires Coherent() && Items(entries, order) == all
      modifies this
      ensures Coherent() && charged <= budget && epoch == old(epoch)
      ensures Items(entries, order) == Evict(all, budget)
    {
      while charged > budget
        invariant Coherent() && epoch == old(epoch)
        invariant Evict(Items(entries, order), budget) == Evict(all, budget)
        decreases |order|
      {
        EvictOne();
      }
    }

    method RemoveAllUnder(folder: string)
      requires Valid()
      modifies this
      ensures Valid() && Model() == RemoveFolder(old(Model()), folder)
    {
      var doomed := set path | path in entries && Under(folder, path);
      while doomed != {}
        invariant Valid() && epoch == old(epoch)
        invariant doomed == set path | path in entries && Under(folder, path)
        invariant WithoutFolder(Items(entries, order), folder) == old(RemoveFolder(Model(), folder).items)
        decreases doomed
      {
        var path :| path in doomed;
        WithoutFolderAfterOne(Items(entries, order), folder, path);
        RemovePath(path);
        doomed := doomed - {path};
      }
      ItemsAreEntries(entries, order, nextStamp);
      forall item | item in Items(entries, order) ensures !Under(folder, item.path) {
        assert item.path !in doomed;
      }
      WithoutFolderAbsent(Items(entries, order), folder);
    }

    method RemovePath(path: string)
      requires Coherent() && charged <= budget
      modifies this
      ensures Valid() && Model() == Remove(old(Model()), path)
      ensures entries == old(entries) - {path} && nextStamp == old(nextStamp)
    {
      ghost var goal, left := Remove(Model(), path), entries - {path};
      AfterDrop(entries, order, charged, nextStamp, path);
      if path in entries {
        var slot := entries[path];
        entries := entries - {path};
        charged := charged - slot.charge;
      }
      assert entries == left && Model() == goal && Coherent();
      Compact();
    }

    /** Drop the least recently used entry, with the dead records before it. */
    method EvictOne()
      requires Coherent() && charged > budget
      modifies this
      ensures Coherent() && Items(entries, order) == old(Items(entries, order))[1..]
      ensures |order| < |old(order)| && epoch == old(epoch)
    {
      while |order| > 0
        invariant Coherent() && entries == old(entries) && epoch == old(epoch) && charged == old(charged)
        invariant Items(entries, order) == old(Items(entries, order))
        invariant |order| <= |old(order)|
      {
        var record := order[0];
        if Live(entries, record) {
          AfterLivePop(entries, order, charged, nextStamp);
        } else {
          AfterDeadPop(entries, order, charged, nextStamp);
        }
        order := order[1..];
        if Live(entries, record) {
          var slot := entries[record.path];
          entries := entries - {record.path};
          charged := charged - slot.charge;
          return;
        }
      }
    }

    method Compact()
      requires Coherent() && charged <= budget
      modifies this`order
      ensures Valid() && Items(entries, order) == old(Items(entries, order))
    {
      if |order| <= 2 * |entries| + 16 {
        return;
      }
      RetainKeepsItems(entries, order);
      RetainStamped(entries, order, nextStamp);
      ItemCount(entries, order, nextStamp);
      order := Retain(entries, order);
    }
  }
}
