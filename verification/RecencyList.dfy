/**
 * The read cache as its callers understand it: a duplicate-free list of
 * objects, least recently used first, within a budget. `ReadCache` implements
 * it with a map and a lazily cleaned queue.
 */
module RecencyList {
  import opened Prelude
  import opened StoragePaths

  const ENTRY_OVERHEAD_BYTES: nat := 256

  datatype ObjectInfo = ObjectInfo(key: string, size: int, contentType: string, lastModified: int)

  datatype Cached = Cached(data: Bytes, info: ObjectInfo)

  datatype Item = Item(path: string, cached: Cached, charge: nat)

  datatype Lru = Lru(items: seq<Item>, budget: nat, maxEntry: nat, epoch: nat)

  /** What an entry costs against the budget. */
  function Charge(path: string, data: Bytes, info: ObjectInfo): nat
  {
    |data| + 2 * Utf8Length(path) + Utf8Length(info.key) + Utf8Length(info.contentType) + ENTRY_OVERHEAD_BYTES
  }

  /** A string's length in the source's terms: bytes of UTF-8. */
  function Utf8Length(text: string): nat
  {
    if text == "" then 0 else Utf8Width(text[0]) + Utf8Length(text[1..])
  }

  function Utf8Width(c: char): nat
  {
    if c as int < 0x80 then 1 else if c as int < 0x800 then 2 else if c as int < 0x1_0000 then 3 else 4
  }

  predicate Admitted(c: Lru, path: string, cached: Cached)
  {
    |cached.data| <= c.maxEntry && Charge(path, cached.data, cached.info) <= c.budget
  }

  function Total(items: seq<Item>): nat
  {
    if items == [] then 0 else items[0].charge + Total(items[1..])
  }

  function Without(items: seq<Item>, path: string): (r: seq<Item>)
  {
    if items == [] then []
    else (if items[0].path == path then [] else [items[0]]) + Without(items[1..], path)
  }

  function WithoutFolder(items: seq<Item>, folder: string): (r: seq<Item>)
  {
    if items == [] then []
    else (if Under(folder, items[0].path) then [] else [items[0]]) + WithoutFolder(items[1..], folder)
  }

  /** The item held for `path`, if the list has one. */
  function Find(items: seq<Item>, path: string): Option<Item>
  {
    if items == [] then None
    else if items[0].path == path then Some(items[0])
    else Find(items[1..], path)
  }

  /** Drop least recently used items until the total fits. */
  function Evict(items: seq<Item>, budget: nat): seq<Item>
  {
    if Total(items) <= budget then items else Evict(items[1..], budget)
  }

  ghost predicate Distinct(items: seq<Item>)
  {
    forall i, j :: 0 <= i < j < |items| ==> items[i].path != items[j].path
  }

  // ─── The operations ─────────────────────────────────────────────────────

  /** A hit moves the object to the most recent end; a miss changes nothing. */
  function Get(c: Lru, path: string): Lru
  {
    match Find(c.items, path)
    case None => c
    case Some(item) => c.(items := Without(c.items, path) + [item])
  }

  function Remove(c: Lru, path: string): Lru
  {
    c.(items := Without(c.items, path))
  }

  function RemoveFolder(c: Lru, folder: string): Lru
  {
    c.(items := WithoutFolder(c.items, folder))
  }

  function Insert(c: Lru, path: string, cached: Cached): Lru
  {
    if !Admitted(c, path, cached) then Remove(c, path)
    else
      var item := Item(path, cached, Charge(path, cached.data, cached.info));
      c.(items := Evict(Without(c.items, path) + [item], c.budget))
  }

  function Invalidate(c: Lru, path: string): Lru
  {
    Remove(c, path).(epoch := c.epoch + 1)
  }

  function InvalidateFolder(c: Lru, folder: string): Lru
  {
    RemoveFolder(c, folder).(epoch := c.epoch + 1)
  }

  function InsertRead(c: Lru, ticket: nat, path: string, cached: Cached): Lru
  {
    if ticket == c.epoch then Insert(c, path, cached) else c
  }

  function InsertWritten(c: Lru, ticket: nat, path: string, cached: Cached): Lru
  {
    var voided := Invalidate(c, path);
    if ticket == c.epoch then Insert(voided, path, cached) else voided
  }

  // ─── Structure ──────────────────────────────────────────────────────────

  lemma {:induction false} TotalConcat(a: seq<Item>, b: seq<Item>)
    ensures Total(a + b) == Total(a) + Total(b)
  {
    if a == [] {
      assert a + b == b;
    } else {
      assert (a + b)[1..] == a[1..] + b;
      TotalConcat(a[1..], b);
    }
  }

  lemma {:induction false} FindIsMember(items: seq<Item>, path: string)
    ensures Find(items, path).Some? <==> exists i :: 0 <= i < |items| && items[i].path == path
    ensures Find(items, path).Some? ==> Find(items, path).value in items && Find(items, path).value.path == path
  {
    if items != [] {
      FindIsMember(items[1..], path);
      if items[0].path != path && exists i :: 0 <= i < |items| && items[i].path == path {
        var i :| 0 <= i < |items| && items[i].path == path;
        assert items[1..][i - 1].path == path;
      }
    }
  }

  lemma {:induction false} FindMember(items: seq<Item>, item: Item)
    requires Distinct(items) && item in items
    ensures Find(items, item.path) == Some(item)
  {
    if items[0] != item {
      var i :| 0 <= i < |items| && items[i] == item;
      assert items[1..][i - 1] == item;
      FindMember(items[1..], item);
    }
  }

  lemma {:induction false} FindConcat(a: seq<Item>, b: seq<Item>, path: string)
    ensures Find(a + b, path) == if Find(a, path).Some? then Find(a, path) else Find(b, path)
  {
    if a == [] {
      assert a + b == b;
    } else {
      assert (a + b)[1..] == a[1..] + b;
      FindConcat(a[1..], b, path);
    }
  }

  /** Removing a path leaves exactly the other items, in order. */
  lemma {:induction false} WithoutFacts(items: seq<Item>, path: string)
    ensures forall item :: item in Without(items, path) <==> item in items && item.path != path
    ensures Distinct(items) ==> Distinct(Without(items, path))
    ensures |Without(items, path)| <= |items|
  {
    if items != [] {
      WithoutFacts(items[1..], path);
      assert items == [items[0]] + items[1..];
      if Distinct(items) { DistinctHead(items, Without(items[1..], path)); }
    }
  }

  /** A distinct list of some of the later items can take the first one in front. */
  lemma DistinctHead(items: seq<Item>, some: seq<Item>)
    requires items != [] && Distinct(items) && Distinct(some)
    requires forall item :: item in some ==> item in items[1..]
    ensures Distinct([items[0]] + some)
  {
    forall i | 0 <= i < |some| ensures some[i].path != items[0].path {
      assert some[i] in items[1..];
    }
  }

  lemma {:induction false} WithoutFolderFacts(items: seq<Item>, folder: string)
    ensures forall item :: item in WithoutFolder(items, folder) <==> item in items && !Under(folder, item.path)
    ensures Distinct(items) ==> Distinct(WithoutFolder(items, folder))
  {
    if items != [] {
      WithoutFolderFacts(items[1..], folder);
      assert items == [items[0]] + items[1..];
      if Distinct(items) { DistinctHead(items, WithoutFolder(items[1..], folder)); }
    }
  }

  lemma {:induction false} WithoutAbsent(items: seq<Item>, path: string)
    requires Find(items, path).None?
    ensures Without(items, path) == items
  {
    if items != [] {
      WithoutAbsent(items[1..], path);
      assert items == [items[0]] + items[1..];
    }
  }

  lemma WithoutAgain(items: seq<Item>, path: string)
    ensures Without(Without(items, path), path) == Without(items, path)
  {
    FindWithout(items, path, path);
    WithoutAbsent(Without(items, path), path);
  }

  lemma {:induction false} TotalWithout(items: seq<Item>, path: string)
    requires Distinct(items) && Find(items, path).Some?
    ensures Total(items) == Total(Without(items, path)) + Find(items, path).value.charge
  {
    var rest := items[1..];
    if items[0].path == path {
      FindIsMember(rest, path);
      WithoutAbsent(rest, path);
      assert [] + Without(rest, path) == rest;
    } else {
      TotalWithout(rest, path);
      TotalConcat([items[0]], Without(rest, path));
    }
  }

  lemma {:induction false} FindWithout(items: seq<Item>, path: string, other: string)
    ensures Find(Without(items, path), other) == if other == path then None else Find(items, other)
  {
    if items != [] {
      FindWithout(items[1..], path, other);
      FindConcat(if items[0].path == path then [] else [items[0]], Without(items[1..], path), other);
    }
  }

  lemma {:induction false} FindWithoutFolder(items: seq<Item>, folder: string, other: string)
    ensures Find(WithoutFolder(items, folder), other) == if Under(folder, other) then None else Find(items, other)
  {
    if items != [] {
      FindWithoutFolder(items[1..], folder, other);
      FindConcat(if Under(folder, items[0].path) then [] else [items[0]], WithoutFolder(items[1..], folder), other);
    }
  }

  /** Removing a folder's objects one at a time, in any order. */
  lemma {:induction false} WithoutFolderAfterOne(items: seq<Item>, folder: string, path: string)
    requires Under(folder, path)
    ensures WithoutFolder(Without(items, path), folder) == WithoutFolder(items, folder)
  {
    if items != [] {
      var rest := items[1..];
      WithoutFolderAfterOne(rest, folder, path);
      if items[0].path == path {
        assert [] + Without(rest, path) == Without(rest, path);
        assert [] + WithoutFolder(rest, folder) == WithoutFolder(rest, folder);
      } else {
        var w := Without(items, path);
        assert w == [items[0]] + Without(rest, path);
        assert w[1..] == Without(rest, path);
      }
    }
  }

  lemma {:induction false} WithoutFolderAbsent(items: seq<Item>, folder: string)
    requires forall item :: item in items ==> !Under(folder, item.path)
    ensures WithoutFolder(items, folder) == items
  {
    if items != [] {
      WithoutFolderAbsent(items[1..], folder);
      assert items == [items[0]] + items[1..];
    }
  }

  // ─── What eviction and insertion mean ───────────────────────────────────

  /** Eviction drops the shortest front prefix that meets the budget. */
  lemma {:induction false} EvictIsShortestPrefix(items: seq<Item>, budget: nat) returns (n: nat)
    ensures n <= |items| && Evict(items, budget) == items[n..]
    ensures Total(items[n..]) <= budget
    ensures forall k :: 0 <= k < n ==> Total(items[k..]) > budget
  {
    assert items[0..] == items;
    if Total(items) <= budget {
      n := 0;
    } else {
      var m := EvictIsShortestPrefix(items[1..], budget);
      n := m + 1;
      assert items[1..][m..] == items[n..];
      forall k | 0 <= k < n ensures Total(items[k..]) > budget {
        if k > 0 { assert items[1..][k - 1..] == items[k..]; }
      }
    }
  }

  lemma FindAfterEvict(items: seq<Item>, budget: nat, path: string)
    requires Distinct(items)
    ensures Distinct(Evict(items, budget))
    ensures KeptOrGone(Find(items, path), Find(Evict(items, budget), path))
  {
    var n := EvictIsShortestPrefix(items, budget);
    FindIsMember(items[n..], path);
    if Find(items[n..], path).Some? {
      var item := Find(items[n..], path).value;
      assert item in items;
      FindMember(items, item);
    }
  }

  predicate KeptOrGone<T(==)>(before: Option<T>, after: Option<T>)
  {
    after.None? || after == before
  }

  /**
   * An admitted object is held, most recent, with the total within budget, and
   * exactly the shortest least recent prefix of the others is evicted for it.
   */
  lemma InsertAdmitted(c: Lru, path: string, cached: Cached) returns (n: nat)
    requires Distinct(c.items) && Admitted(c, path, cached)
    ensures var r, others := Insert(c, path, cached).items, Without(c.items, path);
            var item := Item(path, cached, Charge(path, cached.data, cached.info));
            && n <= |others|
            && r == others[n..] + [item]
            && Total(r) <= c.budget
            && (forall k :: 0 <= k < n ==> Total(others[k..]) + item.charge > c.budget)
  {
    var others := Without(c.items, path);
    var item := Item(path, cached, Charge(path, cached.data, cached.info));
    var all := others + [item];
    n := EvictIsShortestPrefix(all, c.budget);
    KeptNewest(others, item, c.budget, n);
    forall k | 0 <= k < n ensures Total(others[k..]) + item.charge > c.budget {
      assert all[k..] == others[k..] + [item];
      TotalConcat(others[k..], [item]);
    }
  }

  /** Eviction stops before the object just inserted: it fits on its own. */
  lemma KeptNewest(others: seq<Item>, item: Item, budget: nat, n: nat)
    requires item.charge <= budget && n <= |others| + 1
    requires forall k :: 0 <= k < n ==> Total((others + [item])[k..]) > budget
    ensures n <= |others| && (others + [item])[n..] == others[n..] + [item]
  {
    assert (others + [item])[|others|..] == [item];
    assert Total([item]) == item.charge;
  }

  /**
   * What a later lookup finds: the object just inserted if it was admitted,
   * nothing if it was not, and for every other path its old bytes or nothing -
   * its old bytes, if there was nothing to make room for.
   */
  lemma FindAfterInsert(c: Lru, path: string, cached: Cached, other: string)
    requires Distinct(c.items)
    ensures Distinct(Insert(c, path, cached).items)
    ensures var found := Find(Insert(c, path, cached).items, other);
            var fits := |cached.data| <= c.maxEntry && Charge(path, cached.data, cached.info) <= c.budget;
            if other != path then KeptOrGone(Find(c.items, other), found) && (!fits ==> found == Find(c.items, other))
            else if fits then found == Some(Item(path, cached, Charge(path, cached.data, cached.info)))
            else found == None
  {
    var others := Without(c.items, path);
    WithoutFacts(c.items, path);
    FindWithout(c.items, path, other);
    if Admitted(c, path, cached) {
      var item := Item(path, cached, Charge(path, cached.data, cached.info));
      FindConcat(others, [item], other);
      assert Distinct(others + [item]);
      FindAfterEvict(others + [item], c.budget, other);
      var n := InsertAdmitted(c, path, cached);
      assert (others[n..] + [item])[|others| - n] == item;
      FindMember(others[n..] + [item], item);
    }
  }

  /** A hit returns what is held and only reorders; every lookup is unchanged. */
  lemma FindAfterGet(c: Lru, path: string, other: string)
    requires Distinct(c.items)
    ensures Distinct(Get(c, path).items)
    ensures Find(Get(c, path).items, other) == Find(c.items, other)
  {
    FindIsMember(c.items, path);
    WithoutFacts(c.items, path);
    FindWithout(c.items, path, other);
    if Find(c.items, path).Some? {
      FindConcat(Without(c.items, path), [Find(c.items, path).value], other);
    }
  }
  // ─── Recency ────────────────────────────────────────────────────────────

  /** Removing the one item of a path closes the gap and moves nothing. */
  lemma {:induction false} WithoutIs(items: seq<Item>, at: nat)
    requires Distinct(items) && at < |items|
    ensures Without(items, items[at].path) == items[..at] + items[at + 1..]
  {
    var rest, path := items[1..], items[at].path;
    if at == 0 {
      FindIsMember(rest, path);
      WithoutAbsent(rest, path);
      assert items[..0] + items[1..] == rest;
      assert [] + Without(rest, path) == rest;
    } else {
      WithoutIs(rest, at - 1);
      assert items[..at] == [items[0]] + rest[..at - 1];
      assert items[at + 1..] == rest[at..];
    }
  }

  /** A folder's removal goes item by item, wherever they stand: what stays keeps its order. */
  lemma {:induction false} WithoutFolderIsAFilter(a: seq<Item>, item: Item, b: seq<Item>, folder: string)
    ensures WithoutFolder(a + [item] + b, folder) ==
            WithoutFolder(a, folder) + (if Under(folder, item.path) then [] else [item]) + WithoutFolder(b, folder)
  {
    var all := a + [item] + b;
    if a == [] {
      assert all == [item] + b && all[1..] == b;
    } else {
      assert all[0] == a[0] && all[1..] == a[1..] + [item] + b;
      WithoutFolderIsAFilter(a[1..], item, b, folder);
    }
  }

  /** A hit: the object goes to the most recent end, and the others close up in their order. */
  lemma HitIsMostRecent(c: Lru, at: nat)
    requires Distinct(c.items) && at < |c.items|
    ensures Get(c, c.items[at].path) ==
            Lru(c.items[..at] + c.items[at + 1..] + [c.items[at]], c.budget, c.maxEntry, c.epoch)
  {
    FindMember(c.items, c.items[at]);
    WithoutIs(c.items, at);
  }

  /**
   * What recency is for: after a hit on `path`, an insertion of another object
   * drops it only if it drops everything that was held before.
   */
  lemma HitIsDroppedLast(c: Lru, path: string, newcomer: string, cached: Cached, other: string)
    requires Distinct(c.items) && Find(c.items, path).Some? && newcomer != path && other != newcomer
    requires Find(Insert(Get(c, path), newcomer, cached).items, path).None?
    ensures Find(Insert(Get(c, path), newcomer, cached).items, other).None?
  {
    var hit := Get(c, path);
    FindAfterGet(c, path, path);
    FindAfterInsert(hit, newcomer, cached, path);
    if Admitted(hit, newcomer, cached) {
      LastHeldStays(c, path, newcomer, cached);
      var item := Item(newcomer, cached, Charge(newcomer, cached.data, cached.info));
      FindIsMember([item], other);
    }
  }

  /** Everything held before is dropped, if the object just hit is. */
  lemma LastHeldStays(c: Lru, path: string, newcomer: string, cached: Cached)
    requires Distinct(c.items) && Find(c.items, path).Some? && newcomer != path
    requires Admitted(Get(c, path), newcomer, cached)
    requires Find(Insert(Get(c, path), newcomer, cached).items, path).None?
    ensures var item := Item(newcomer, cached, Charge(newcomer, cached.data, cached.info));
            Insert(Get(c, path), newcomer, cached).items == [item]
  {
    var hit, held := Get(c, path), Find(c.items, path).value;
    var item := Item(newcomer, cached, Charge(newcomer, cached.data, cached.info));
    FindAfterGet(c, path, path);
    FindIsMember(c.items, path);
    var others := Without(hit.items, newcomer);
    WithoutLast(Without(c.items, path), held, newcomer);
    var n := InsertAdmitted(hit, newcomer, cached);
    if n < |others| {
      assert (others[n..] + [item])[|others| - 1 - n] == held;
      FindIsMember(others[n..] + [item], path);
    }
  }

  lemma {:induction false} WithoutLast(items: seq<Item>, last: Item, path: string)
    requires last.path != path
    ensures Without(items + [last], path) == Without(items, path) + [last]
  {
    if items == [] {
      assert items + [last] == [last] && [last][1..] == [];
    } else {
      assert (items + [last])[1..] == items[1..] + [last];
      WithoutLast(items[1..], last, path);
    }
  }

  // ─── What reads and writes cache ────────────────────────────────────────

  /** A read is cached, if it fits, exactly when its ticket is current; a stale one changes nothing. */
  lemma ReadIsCachedIff(c: Lru, ticket: nat, path: string, cached: Cached, other: string)
    requires Distinct(c.items)
    ensures var r := InsertRead(c, ticket, path, cached);
            && r.epoch == c.epoch
            && (ticket != c.epoch ==> r == c)
            && (ticket == c.epoch && |cached.data| <= c.maxEntry
                && Charge(path, cached.data, cached.info) <= c.budget ==>
                  Find(r.items, path) == Some(Item(path, cached, Charge(path, cached.data, cached.info))))
            && (other != path ==> KeptOrGone(Find(c.items, other), Find(r.items, other)))
  {
    FindAfterInsert(c, path, cached, path);
    FindAfterInsert(c, path, cached, other);
  }

  /** A report of a path drops that path and no other, and makes every older ticket stale. */
  lemma ReportDropsIt(c: Lru, path: string, other: string)
    ensures var r := Invalidate(c, path);
            && r.epoch == c.epoch + 1 && r.budget == c.budget && r.maxEntry == c.maxEntry
            && Find(r.items, other) == if other == path then None else Find(c.items, other)
  {
    FindWithout(c.items, path, other);
  }

  lemma FolderReportDropsIt(c: Lru, folder: string, other: string)
    ensures var r := InvalidateFolder(c, folder);
            && r.epoch == c.epoch + 1 && r.budget == c.budget && r.maxEntry == c.maxEntry
            && Find(r.items, other) == if Under(folder, other) then None else Find(c.items, other)
  {
    FindWithoutFolder(c.items, folder, other);
  }

  /** A finished write is cached, if it fits, exactly when nothing else was reported since its ticket. */
  lemma WriteIsCachedIff(c: Lru, ticket: nat, path: string, cached: Cached, other: string)
    requires Distinct(c.items)
    ensures var r := InsertWritten(c, ticket, path, cached);
            var fits := |cached.data| <= c.maxEntry && Charge(path, cached.data, cached.info) <= c.budget;
            && r.epoch == c.epoch + 1
            && Find(r.items, path) ==
                 (if ticket == c.epoch && fits
                  then Some(Item(path, cached, Charge(path, cached.data, cached.info))) else None)
            && (other != path ==>
                  && KeptOrGone(Find(c.items, other), Find(r.items, other))
                  && (!(ticket == c.epoch && fits) ==> Find(r.items, other) == Find(c.items, other)))
  {
    var voided := Invalidate(c, path);
    WithoutFacts(c.items, path);
    ReportDropsIt(c, path, path);
    ReportDropsIt(c, path, other);
    FindAfterInsert(voided, path, cached, path);
    FindAfterInsert(voided, path, cached, other);
  }

  // ─── Memory ─────────────────────────────────────────────────────────────

  /** Every item is charged what `Charge` says. */
  ghost predicate Priced(items: seq<Item>)
  {
    forall item :: item in items ==> item.charge == Charge(item.path, item.cached.data, item.cached.info)
  }

  /** The object bytes held. */
  function Held(items: seq<Item>): nat
  {
    if items == [] then 0 else |items[0].cached.data| + Held(items[1..])
  }

  /** Whatever is held within the budget, its bytes and its overhead are. */
  lemma {:induction false} HeldWithinTotal(items: seq<Item>)
    requires Priced(items)
    ensures Held(items) + ENTRY_OVERHEAD_BYTES * |items| <= Total(items)
  {
    if items != [] {
      assert items[0] in items;
      HeldWithinTotal(items[1..]);
    }
  }

  /** Every operation keeps every item priced. */
  lemma OperationsKeepPrices(c: Lru, path: string, folder: string, ticket: nat, cached: Cached)
    requires Priced(c.items)
    ensures Priced(Get(c, path).items)
    ensures Priced(Invalidate(c, path).items) && Priced(InvalidateFolder(c, folder).items)
    ensures Priced(InsertRead(c, ticket, path, cached).items) && Priced(InsertWritten(c, ticket, path, cached).items)
  {
    FindIsMember(c.items, path);
    WithoutFacts(c.items, path);
    WithoutFolderFacts(c.items, folder);
    InsertKeepsPrices(c, path, cached);
    InsertKeepsPrices(Invalidate(c, path), path, cached);
  }

  lemma InsertKeepsPrices(c: Lru, path: string, cached: Cached)
    requires Priced(c.items)
    ensures Priced(Insert(c, path, cached).items)
  {
    WithoutFacts(c.items, path);
    var item := Item(path, cached, Charge(path, cached.data, cached.info));
    var n := EvictIsShortestPrefix(Without(c.items, path) + [item], c.budget);
  }
}
