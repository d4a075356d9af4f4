/** The region inventory: a paged listing filtered and attributed to node groups, its cache, and the
    per-group lists taken from it (ens.go). */
module Inventory {
  import opened Prelude
  import opened Reservations
  import opened Ownership

  /** An instance as the cloud lists it. */
  datatype Raw = Raw(id: string, name: string, status: string)

  // ---- what the inventory means ----------------------------------------------------------------

  predicate Gone(status: string) {
    status == "Released" || status == "Releasing"
  }

  predicate Listed(groups: seq<Group>, raw: Raw) {
    GroupIdOf(groups, raw.name) != "" && !Gone(raw.status)
  }

  function Entry(groups: seq<Group>, raw: Raw): Instance {
    Instance(raw.id, raw.name, GroupIdOf(groups, raw.name), raw.status)
  }

  /** The inventory of a whole listing, in its order. */
  function InventoryOf(groups: seq<Group>, all: seq<Raw>): (r: seq<Instance>)
    ensures |r| <= |all|
  {
    if |all| == 0 then []
    else
      var last := all[|all| - 1];
      InventoryOf(groups, all[..|all| - 1]) + if Listed(groups, last) then [Entry(groups, last)] else []
  }

  lemma {:induction false} InventoryOfConcat(groups: seq<Group>, a: seq<Raw>, b: seq<Raw>)
    ensures InventoryOf(groups, a + b) == InventoryOf(groups, a) + InventoryOf(groups, b)
  {
    if b == [] {
      assert a + b == a;
    } else {
      assert (a + b)[..|a + b| - 1] == a + b[..|b| - 1];
      InventoryOfConcat(groups, a, b[..|b| - 1]);
    }
  }

  /** Exactly the attributed instances that are neither released nor releasing appear, with their own id, name
      and status, under the group their name resolves to. */
  lemma {:induction false} InventoryHoldsTheListed(groups: seq<Group>, all: seq<Raw>, x: Instance)
    ensures x in InventoryOf(groups, all) <==>
      exists raw :: raw in all && raw.status !in {"Released", "Releasing"}
        && x.id == raw.id && x.name == raw.name && x.status == raw.status
        && GroupIdOf(groups, raw.name) == x.groupId != ""
  {
    if all != [] {
      var init, last := all[..|all| - 1], all[|all| - 1];
      InventoryHoldsTheListed(groups, init, x);
      assert all == init + [last];
    }
  }

  /** The inventory keeps the order of the listing and lists each entry once per occurrence: together with
      `InventoryOfConcat` this determines it. */
  lemma InventoryOfOne(groups: seq<Group>, raw: Raw)
    ensures InventoryOf(groups, [raw])
         == if GroupIdOf(groups, raw.name) == "" || raw.status in {"Released", "Releasing"} then []
            else [Instance(raw.id, raw.name, GroupIdOf(groups, raw.name), raw.status)]
  {
    assert [raw][..0] == [];
  }

  // ---- paging ----------------------------------------------------------------------------------

  const PAGE_SIZE := 100

  /** The largest listing whose page arithmetic stays within 32 bits. */
  const MAX_LISTING := 2_147_483_600

  function Pages(total: nat): nat {
    Max(1, (total + PAGE_SIZE - 1) / PAGE_SIZE)
  }

  /** One page for an empty listing, and otherwise one for every hundred instances begun. */
  lemma PagesExactly(total: nat)
    ensures Pages(total) == if total == 0 then 1 else (total + 99) / 100
  {
  }

  function Page(all: seq<Raw>, page: nat): seq<Raw>
    requires 0 < page
  {
    all[Min((page - 1) * PAGE_SIZE, |all|)..Min(page * PAGE_SIZE, |all|)]
  }

  /** The exit test of the page loop, in 32-bit arithmetic. */
  predicate LastPage(page: nat, total: nat) {
    Wrap32(page * PAGE_SIZE) >= total
  }

  /** The loop stops after the last page of a listing, and not before, exactly when the rounded-up
      total fits in 32 bits. */
  lemma PagingStopsExactly(total: nat)
    requires total <= MAX_INT32
    ensures LastPage(Pages(total), total) <==> total <= MAX_LISTING
    ensures forall page :: 0 < page < Pages(total) ==> !LastPage(page, total)
  {
    if total > MAX_LISTING {
      assert Pages(total) == 21_474_837;
      assert Wrap32(2_147_483_700) == 2_147_483_700 - 0x1_0000_0000;
    }
    forall page | 0 < page < Pages(total) ensures !LastPage(page, total) {
      assert page * PAGE_SIZE < total;
    }
  }

  /** The listing up to and including a page. */
  function Upto(all: seq<Raw>, page: nat): seq<Raw> {
    all[..Min(page * PAGE_SIZE, |all|)]
  }

  lemma PageExtends(groups: seq<Group>, all: seq<Raw>, page: nat)
    requires 0 < page
    ensures InventoryOf(groups, Upto(all, page))
         == InventoryOf(groups, Upto(all, page - 1)) + InventoryOf(groups, Page(all, page))
  {
    assert Upto(all, page) == Upto(all, page - 1) + Page(all, page);
    InventoryOfConcat(groups, Upto(all, page - 1), Page(all, page));
  }

  class Region {
    const groups: seq<Group>
    const ttl: int
    var cache: seq<Instance>       // empty means absent, like the nil slice of the source
    var cacheAt: Option<Time>      // None after an invalidation

    constructor (groups: seq<Group>, ttl: int)
      ensures this.groups == groups && this.ttl == ttl && cache == [] && cacheAt == None
    {
      this.groups, this.ttl, cache, cacheAt := groups, ttl, [], None;
    }

    predicate CacheIsFresh(now: Time)
      reads this
    {
      cache != [] && cacheAt.Some? && Since(now, cacheAt.value) < ttl
    }

    method InvalidateCache()
      modifies this`cacheAt
      ensures cacheAt == None
      ensures forall now :: !CacheIsFresh(now)
    {
      cacheAt := None;
    }

    method Collect(items: seq<Raw>) returns (owned: seq<Instance>)
      ensures owned == InventoryOf(groups, items)
    {
      owned := [];
      for k := 0 to |items|
        invariant owned == InventoryOf(groups, items[..k])
      {
        assert items[..k + 1][..k] == items[..k];
        var gid := Attribute(groups, items[k].name);
        if gid == "" {
          continue;
        }
        if items[k].status == "Released" || items[k].status == "Releasing" {
          continue;
        }
        owned := owned + [Instance(items[k].id, items[k].name, gid, items[k].status)];
      }
      assert items[..|items|] == items;
    }

    /** Reads a stable listing page by page. The pages in `failing` return an error, and those in `absent`
        a reply without a body, which ends the loop as if the listing were over. `pages` is the last page
        read. */
    method Fetch(all: seq<Raw>, failing: set<nat>, absent: set<nat>)
      returns (r: Result<seq<Instance>, string>, pages: nat)
      requires |all| <= MAX_LISTING
      ensures Reads(all, failing, absent, pages)
      ensures r.Err? <==> pages in failing
      ensures r.Ok? ==> r.value == InventoryOf(groups, Obtained(all, absent, pages))
      ensures 1 <= pages <= (if |all| == 0 then 1 else (|all| + 99) / 100)
      ensures forall p :: 1 <= p < pages ==> p !in failing && p !in absent
      ensures r.Ok? && pages !in absent ==>
        pages == (if |all| == 0 then 1 else (|all| + 99) / 100) && r.value == InventoryOf(groups, all)
      ensures r.Ok? && pages in absent ==>
        100 * (pages - 1) <= |all| && r.value == InventoryOf(groups, all[..100 * (pages - 1)])
    {
      PagingStopsExactly(|all|);
      PagesExactly(|all|);
      var owned: seq<Instance> := [];
      pages := 1;
      while true
        invariant 1 <= pages <= Pages(|all|)
        invariant owned == InventoryOf(groups, Upto(all, pages - 1))
        invariant forall p :: 1 <= p < pages ==> p !in failing && p !in absent
        decreases Pages(|all|) - pages
      {
        if pages in failing {
          return Err("DescribeInstances"), pages;
        }
        if pages in absent {
          break;
        }
        var found := Collect(Page(all, pages));
        PageExtends(groups, all, pages);
        owned := owned + found;
        if Wrap32(pages * PAGE_SIZE) >= |all| {
          break;
        }
        pages := pages + 1;
      }
      r := Ok(owned);
      ReadWhole(all, absent, pages);
    }

    /** Serves a fresh cache unless forced; otherwise fetches and remembers the result. */
    method DescribeRegion(force: bool, now: Time, all: seq<Raw>, failing: set<nat>, absent: set<nat>)
      returns (r: Result<seq<Instance>, string>, pages: nat)
      requires |all| <= MAX_LISTING
      modifies this
      ensures !force && old(CacheIsFresh(now)) ==>
        r == Ok(old(cache)) && pages == 0 && cache == old(cache) && cacheAt == old(cacheAt)
      ensures force || !old(CacheIsFresh(now)) ==>
        && Reads(all, failing, absent, pages) && (r.Err? <==> pages in failing)
        && (r.Ok? ==> r.value == InventoryOf(groups, Obtained(all, absent, pages)))
        && (r.Ok? ==> cache == r.value && cacheAt == Some(now))
        && (r.Err? ==> cache == old(cache) && cacheAt == old(cacheAt))
      ensures pages == 0 <==>
        && !force && old(cache) != [] && old(cacheAt).Some?
        && Since(now, old(cacheAt).value) < ttl
      ensures pages > 0 && r.Ok? && pages !in absent ==> r.value == InventoryOf(groups, all)
    {
      if !force && CacheIsFresh(now) {
        return Ok(cache), 0;
      }
      r, pages := Fetch(all, failing, absent);
      if r.Ok? {
        cache, cacheAt := r.value, Some(now);
      }
    }
  }

  /** The reading ends at the first page that fails or has no body, and at the last page otherwise. */
  ghost predicate Reads(all: seq<Raw>, failing: set<nat>, absent: set<nat>, last: nat) {
    && 1 <= last <= Pages(|all|)
    && (forall page :: 1 <= page < last ==> page !in failing && page !in absent)
    && (last in failing || last in absent || last == Pages(|all|))
  }

  /** The part of the listing a successful reading has seen. */
  ghost function Obtained(all: seq<Raw>, absent: set<nat>, last: nat): seq<Raw>
    requires 1 <= last
  {
    Upto(all, if last in absent then last - 1 else last)
  }

  /** What was read before the last page, if that has no body, and all of it otherwise. */
  lemma ReadWhole(all: seq<Raw>, absent: set<nat>, last: nat)
    requires 1 <= last <= Pages(|all|) && (last in absent || last == Pages(|all|))
    ensures last !in absent ==> Obtained(all, absent, last) == all
    ensures last in absent ==> 100 * (last - 1) <= |all| && Obtained(all, absent, last) == all[..100 * (last - 1)]
  {
  }

  /** A reading without errors yields the inventory of the whole listing exactly when no page before the
      last instance lacked its body; such a page silently cuts the inventory short. */
  lemma WholeListingExactly(all: seq<Raw>, failing: set<nat>, absent: set<nat>, last: nat)
    requires Reads(all, failing, absent, last) && last !in failing
    ensures Obtained(all, absent, last) == all <==>
      all == [] || forall page :: 1 <= page <= Pages(|all|) ==> page !in absent
  {
    if last in absent && all != [] {
      assert (last - 1) * PAGE_SIZE < |all|;
    }
  }

  // ---- per-group lists -------------------------------------------------------------------------

  function OwnedBy(all: seq<Instance>, gid: string): (r: seq<Instance>)
    ensures |r| <= |all|
  {
    if |all| == 0 then []
    else
      var last := all[|all| - 1];
      OwnedBy(all[..|all| - 1], gid) + if last.groupId == gid then [last] else []
  }

  method OwnedInstances(all: seq<Instance>, gid: string) returns (out: seq<Instance>)
    ensures out == OwnedBy(all, gid)
  {
    out := [];
    for k := 0 to |all|
      invariant out == OwnedBy(all[..k], gid)
    {
      assert all[..k + 1][..k] == all[..k];
      if all[k].groupId == gid {
        out := out + [all[k]];
      }
    }
    assert all[..|all|] == all;
  }

  /** Taking the instances of one group is a filter. */
  lemma {:induction false} OwnedByIsFilter(a: seq<Instance>, b: seq<Instance>, gid: string, x: Instance)
    ensures OwnedBy(a + b, gid) == OwnedBy(a, gid) + OwnedBy(b, gid)
    ensures OwnedBy([x], gid) == if x.groupId == gid then [x] else []
  {
    assert [x][..0] == [];
    if b == [] {
      assert a + b == a;
    } else {
      assert (a + b)[..|a + b| - 1] == a + b[..|b| - 1];
      OwnedByIsFilter(a, b[..|b| - 1], gid, x);
    }
  }

  function TotalOwned(groups: seq<Group>, all: seq<Instance>): nat {
    if |groups| == 0 then 0
    else TotalOwned(groups[..|groups| - 1], all) + |OwnedBy(all, groups[|groups| - 1].id)|
  }

  lemma {:induction false} OneMoreOwned(groups: seq<Group>, all: seq<Instance>, x: Instance)
    requires forall i, j :: 0 <= i < j < |groups| ==> groups[i].id != groups[j].id
    ensures TotalOwned(groups, all + [x]) == TotalOwned(groups, all)
         + if exists g :: g in groups && g.id == x.groupId then 1 else 0
  {
    assert (all + [x])[..|all|] == all;
    if groups != [] {
      var init, last := groups[..|groups| - 1], groups[|groups| - 1];
      OneMoreOwned(init, all, x);
      assert groups == init + [last];
      if last.id == x.groupId {
        assert forall g :: g in init ==> g.id != last.id;
      }
    }
  }

  lemma {:induction false} OwnedPartition(groups: seq<Group>, all: seq<Instance>)
    requires forall i, j :: 0 <= i < j < |groups| ==> groups[i].id != groups[j].id
    requires forall x :: x in all ==> exists g :: g in groups && g.id == x.groupId
    ensures TotalOwned(groups, all) == |all|
  {
    if all == [] {
      NothingOwned(groups);
    } else {
      var init, last := all[..|all| - 1], all[|all| - 1];
      assert all == init + [last];
      assert forall x :: x in init ==> x in all;
      OwnedPartition(groups, init);
      OneMoreOwned(groups, init, last);
      assert last in all;
    }
  }

  lemma {:induction false} NothingOwned(groups: seq<Group>)
    ensures TotalOwned(groups, []) == 0
  {
    if groups != [] {
      NothingOwned(groups[..|groups| - 1]);
    }
  }

  lemma {:induction false} AttributedToAGroup(groups: seq<Group>, name: string)
    requires GroupIdOf(groups, name) != ""
    ensures exists g :: g in groups && g.id == GroupIdOf(groups, name)
  {
    ResolversAgree(groups, name);
    OwnerIsLongest(groups, name);
  }

  /** The target sizes reported for the groups of an accepted configuration add up to the whole
      inventory: every listed instance is counted for exactly one group. */
  lemma GroupSizesAddUp(groups: seq<Group>, all: seq<Raw>)
    requires Unique(groups)
    ensures TotalOwned(groups, InventoryOf(groups, all)) == |InventoryOf(groups, all)|
  {
    var inventory := InventoryOf(groups, all);
    forall x | x in inventory ensures exists g :: g in groups && g.id == x.groupId {
      InventoryHoldsTheListed(groups, all, x);
      AttributedToAGroup(groups, x.name);
    }
    OwnedPartition(groups, inventory);
  }

  /** Under an accepted configuration the list of one group is exactly the inventory of the names that
      start with its prefix. */
  lemma {:induction false} OwnedByPrefix(groups: seq<Group>, k: nat, all: seq<Raw>, x: Instance)
    requires PrefixesDisjoint(groups) && Unique(groups) && Identified(groups) && k < |groups|
    ensures x in OwnedBy(InventoryOf(groups, all), groups[k].id) <==>
      exists raw :: raw in all && raw.status !in {"Released", "Releasing"} && groups[k].namePrefix <= raw.name
        && x == Instance(raw.id, raw.name, groups[k].id, raw.status)
  {
    OwnedByIn(InventoryOf(groups, all), groups[k].id, x);
    InventoryHoldsTheListed(groups, all, x);
    forall raw | raw in all ensures GroupIdOf(groups, raw.name) == groups[k].id <==> groups[k].namePrefix <= raw.name {
      AttributedByPrefix(groups, k, raw.name);
    }
  }

  lemma AttributedByPrefix(groups: seq<Group>, k: nat, name: string)
    requires PrefixesDisjoint(groups) && Unique(groups) && Identified(groups) && k < |groups|
    ensures GroupIdOf(groups, name) == groups[k].id <==> groups[k].namePrefix <= name
  {
    var prefix := groups[k].namePrefix;
    if prefix <= name {
      assert name == prefix + name[|prefix|..];
      NamesResolveToTheirGroup(groups, k, name[|prefix|..]);
    }
    if GroupIdOf(groups, name) == groups[k].id {
      ResolversAgree(groups, name);
      OwnerIsLongest(groups, name);
      var j :| 0 <= j < |groups| && groups[j] == Owner(groups, name).value;
      assert j == k;
    }
  }

  lemma {:induction false} OwnedByIn(all: seq<Instance>, gid: string, x: Instance)
    ensures x in OwnedBy(all, gid) <==> x in all && x.groupId == gid
  {
    if all != [] {
      OwnedByIn(all[..|all| - 1], gid, x);
      assert all == all[..|all| - 1] + [all[|all| - 1]];
    }
  }
}
