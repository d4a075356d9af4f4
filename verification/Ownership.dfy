/** Which node group owns an ENS instance: the startup guard on name prefixes, the two longest-prefix
    resolvers, operation names, and provider ids (groups.go, ens.go). */
module Ownership {
  import opened Prelude
  import opened Reservations

  /** A node group; `measured` says that it has a template of its own. */
  datatype Group = Group(
    id: string, nodepoolId: string, namePrefix: string, min: int32, max: int32, instanceType: string, measured: bool)

  // ---- the startup guard -----------------------------------------------------------------------

  /** No prefix is a prefix of another one, in either direction; in particular no two are equal. */
  ghost predicate PrefixesDisjoint(groups: seq<Group>) {
    forall i, j :: 0 <= i < |groups| && 0 <= j < |groups| && i != j ==> !(groups[i].namePrefix <= groups[j].namePrefix)
  }

  ghost predicate SharedPrefix(groups: seq<Group>) {
    exists i, j :: 0 <= i < j < |groups| && groups[i].namePrefix == groups[j].namePrefix
  }

  ghost predicate LongestFirst(xs: seq<string>) {
    forall i, j :: 0 <= i < j < |xs| ==> |xs[i]| >= |xs[j]|
  }

  function Insert(x: string, xs: seq<string>): (r: seq<string>)
    ensures multiset(r) == multiset(xs) + multiset{x}
  {
    if xs == [] || |x| >= |xs[0]| then [x] + xs
    else
      assert xs == [xs[0]] + xs[1..];
      [xs[0]] + Insert(x, xs[1..])
  }

  lemma {:induction false} InsertKeepsOrder(x: string, xs: seq<string>)
    requires LongestFirst(xs)
    ensures LongestFirst(Insert(x, xs))
  {
    if xs != [] && |x| < |xs[0]| {
      InsertKeepsOrder(x, xs[1..]);
      InsertedAreKnown(x, xs[1..], |xs[0]|);
    }
  }

  lemma {:induction false} InsertedAreKnown(x: string, xs: seq<string>, bound: nat)
    requires |x| <= bound && forall i :: 0 <= i < |xs| ==> |xs[i]| <= bound
    ensures forall i :: 0 <= i < |Insert(x, xs)| ==> |Insert(x, xs)[i]| <= bound
  {
    if xs != [] && |x| < |xs[0]| {
      InsertedAreKnown(x, xs[1..], bound);
    }
  }

  function SortByLength(xs: seq<string>): (r: seq<string>)
    ensures multiset(r) == multiset(xs) && LongestFirst(r)
  {
    if xs == [] then []
    else
      assert xs == [xs[0]] + xs[1..];
      var rest := SortByLength(xs[1..]);
      InsertKeepsOrder(xs[0], rest);
      Insert(xs[0], rest)
  }

  ghost predicate Nested(xs: seq<string>) {
    exists p, q :: p in xs && q in xs && p != q && q <= p
  }

  /** One direction suffices: after sorting, a proper prefix can only stand behind what it starts. */
  method FindNested(xs: seq<string>) returns (found: bool)
    requires forall i, j :: 0 <= i < j < |xs| ==> xs[i] != xs[j]
    ensures found <==> Nested(xs)
  {
    var sorted := SortByLength(xs);
    SortedHasSame(xs, sorted);
    for i := 0 to |sorted|
      invariant forall a, b :: 0 <= a < i && a < b < |sorted| ==> !(sorted[b] <= sorted[a])
    {
      for j := i + 1 to |sorted|
        invariant forall b :: i < b < j ==> !(sorted[b] <= sorted[i])
      {
        if sorted[j] <= sorted[i] {
          assert sorted[i] in xs && sorted[j] in xs && sorted[i] != sorted[j];
          return true;
        }
      }
    }
    NestedInSorted(xs, sorted);
    return false;
  }

  lemma NestedInSorted(xs: seq<string>, sorted: seq<string>)
    requires LongestFirst(sorted) && forall x :: x in xs ==> x in sorted
    ensures Nested(xs) ==> exists a, b :: 0 <= a < b < |sorted| && sorted[b] <= sorted[a]
  {
    if p, q :| p in xs && q in xs && p != q && q <= p {
      assert p == q + p[|q|..];
      var a, b :| 0 <= a < |sorted| && 0 <= b < |sorted| && sorted[a] == p && sorted[b] == q;
      assert a < b;
    }
  }

  lemma SortedHasSame(xs: seq<string>, sorted: seq<string>)
    requires multiset(sorted) == multiset(xs)
    requires forall i, j :: 0 <= i < j < |xs| ==> xs[i] != xs[j]
    ensures forall x :: x in sorted <==> x in xs
    ensures forall i, j :: 0 <= i < j < |sorted| ==> sorted[i] != sorted[j]
  {
    forall x ensures x in sorted <==> x in xs {
      assert x in sorted <==> x in multiset(sorted);
    }
    forall i, j | 0 <= i < j < |sorted| ensures sorted[i] != sorted[j] {
      if sorted[i] == sorted[j] {
        TwiceIsTwo(sorted, i, j);
        OnceIsOne(xs, sorted[i]);
      }
    }
  }

  lemma TwiceIsTwo(xs: seq<string>, i: nat, j: nat)
    requires i < j < |xs| && xs[i] == xs[j]
    ensures multiset(xs)[xs[i]] >= 2
  {
    assert xs == xs[..j] + xs[j..];
    assert multiset(xs) == multiset(xs[..j]) + multiset(xs[j..]);
    assert xs[..j][i] in multiset(xs[..j]) && xs[j..][0] in multiset(xs[j..]);
  }

  lemma {:induction false} OnceIsOne(xs: seq<string>, x: string)
    requires forall i, j :: 0 <= i < j < |xs| ==> xs[i] != xs[j]
    ensures multiset(xs)[x] <= 1
  {
    if xs != [] {
      var init, last := xs[..|xs| - 1], xs[|xs| - 1];
      assert xs == init + [last];
      OnceIsOne(init, x);
      assert last !in init;
      assert last !in multiset(init);
    }
  }

  datatype ConfigError =
    | NoGroups | MissingIdentity | PrefixShared | PrefixNested | DuplicateId | DuplicateNodepool | BadRange
    | BadSyntax | NoTemplate

  /** The guard accepts a list of groups exactly when no prefix is a prefix of another one. */
  method PrefixGuard(groups: seq<Group>) returns (error: Option<ConfigError>)
    ensures error.None? <==> PrefixesDisjoint(groups)
    ensures error == Some(PrefixShared) <==> SharedPrefix(groups)
    ensures error.Some? ==> error.value.PrefixShared? || error.value.PrefixNested?
  {
    var prefixes: seq<string> := [];
    var seen: set<string> := {};
    for k := 0 to |groups|
      invariant |prefixes| == k && forall i :: 0 <= i < k ==> prefixes[i] == groups[i].namePrefix
      invariant forall p :: p in seen <==> p in prefixes
      invariant forall i, j :: 0 <= i < j < k ==> prefixes[i] != prefixes[j]
    {
      if groups[k].namePrefix in seen {
        assert groups[k].namePrefix <= groups[k].namePrefix;
        return Some(PrefixShared);
      }
      seen := seen + {groups[k].namePrefix};
      prefixes := prefixes + [groups[k].namePrefix];
    }
    var nested := FindNested(prefixes);
    NestedExactly(groups, prefixes);
    error := if nested then Some(PrefixNested) else None;
  }

  lemma NestedExactly(groups: seq<Group>, prefixes: seq<string>)
    requires |prefixes| == |groups| && forall i :: 0 <= i < |groups| ==> prefixes[i] == groups[i].namePrefix
    requires forall i, j :: 0 <= i < j < |groups| ==> prefixes[i] != prefixes[j]
    ensures !Nested(prefixes) <==> PrefixesDisjoint(groups)
  {
    if Nested(prefixes) {
      var p, q :| p in prefixes && q in prefixes && p != q && q <= p;
      var i, j :| 0 <= i < |prefixes| && 0 <= j < |prefixes| && prefixes[i] == p && prefixes[j] == q;
      assert groups[j].namePrefix <= groups[i].namePrefix;
    }
    if i, j :| 0 <= i < |groups| && 0 <= j < |groups| && i != j && groups[i].namePrefix <= groups[j].namePrefix {
      assert prefixes[i] in prefixes && prefixes[j] in prefixes && prefixes[i] != prefixes[j];
    }
  }

  // ---- the checks a configuration passes -------------------------------------------------------

  const DEFAULT_MAX: int32 := 4

  /** The shared defaults, and the syntax checks on disk size, bandwidth, labels, taints, nodepool id and
      template quantities of a group, which are not part of this model. */
  datatype Defaults = Defaults(instanceType: string, templateParses: bool, syntaxOk: Group -> bool)

  function Filled(d: Defaults, g: Group): Group {
    g.(nodepoolId := if g.nodepoolId == "" then g.id else g.nodepoolId,
       max := if g.max == 0 then DEFAULT_MAX else g.max,
       instanceType := if g.instanceType == "" then d.instanceType else g.instanceType)
  }

  function AllFilled(d: Defaults, raw: seq<Group>): (groups: seq<Group>)
    ensures |groups| == |raw|
  {
    seq(|raw|, i requires 0 <= i < |raw| => Filled(d, raw[i]))
  }

  ghost predicate Identified(groups: seq<Group>) {
    forall i :: 0 <= i < |groups| ==> groups[i].id != "" && groups[i].namePrefix != ""
  }

  ghost predicate Unique(groups: seq<Group>) {
    forall i, j :: 0 <= i < j < |groups| ==>
      groups[i].id != groups[j].id && groups[i].nodepoolId != groups[j].nodepoolId
  }

  ghost predicate InRange(groups: seq<Group>) {
    forall i :: 0 <= i < |groups| ==> 0 <= groups[i].min <= groups[i].max
  }

  /** Every group passes the syntax checks, and one on another instance type has its own template. */
  ghost predicate Simulatable(d: Defaults, groups: seq<Group>) {
    forall i :: 0 <= i < |groups| ==>
      d.syntaxOk(groups[i]) && (groups[i].instanceType == d.instanceType || groups[i].measured)
  }

  ghost predicate Accepted(d: Defaults, groups: seq<Group>) {
    && groups != [] && Identified(groups) && PrefixesDisjoint(groups)
    && d.templateParses && Unique(groups) && InRange(groups) && Simulatable(d, groups)
  }

  /** The startup conditions in terms of the configuration as written: an absent nodepool is the group's id, an
      absent maximum is four, and an absent instance type is the shared default. */
  lemma AcceptedExactly(d: Defaults, raw: seq<Group>)
    ensures Accepted(d, AllFilled(d, raw)) <==>
      && raw != [] && d.templateParses
      && (forall i :: 0 <= i < |raw| ==>
            && raw[i].id != "" && raw[i].namePrefix != ""
            && 0 <= raw[i].min <= (if raw[i].max == 0 then 4 else raw[i].max)
            && (raw[i].instanceType in {"", d.instanceType} || raw[i].measured) && d.syntaxOk(Filled(d, raw[i])))
      && (forall i, j :: 0 <= i < |raw| && 0 <= j < |raw| && i != j ==> !(raw[i].namePrefix <= raw[j].namePrefix))
      && (forall i, j :: 0 <= i < j < |raw| ==>
            && raw[i].id != raw[j].id
            && (if raw[i].nodepoolId == "" then raw[i].id else raw[i].nodepoolId)
               != (if raw[j].nodepoolId == "" then raw[j].id else raw[j].nodepoolId))
  {
    var groups := AllFilled(d, raw);
    assert forall i :: 0 <= i < |raw| ==> groups[i] == Filled(d, raw[i]);
  }

  method LoadGroups(d: Defaults, raw: seq<Group>) returns (r: Result<seq<Group>, ConfigError>)
    ensures r.Ok? <==> Accepted(d, AllFilled(d, raw))
    ensures r.Ok? ==> r.value == AllFilled(d, raw)
    ensures r.Ok? ==> |r.value| == |raw| && forall i :: 0 <= i < |raw| ==>
      && r.value[i].id == raw[i].id && r.value[i].namePrefix == raw[i].namePrefix && r.value[i].min == raw[i].min
      && r.value[i].nodepoolId == (if raw[i].nodepoolId == "" then raw[i].id else raw[i].nodepoolId)
      && r.value[i].max == (if raw[i].max == 0 then 4 else raw[i].max)
      && r.value[i].instanceType == (if raw[i].instanceType == "" then d.instanceType else raw[i].instanceType)
      && r.value[i].measured == raw[i].measured
    ensures r == Err(NoGroups) <==> raw == []
    ensures r == Err(MissingIdentity) <==> raw != [] && !Identified(AllFilled(d, raw))
    ensures r == Err(PrefixShared) <==> raw != [] && Identified(AllFilled(d, raw)) && SharedPrefix(AllFilled(d, raw))
  {
    if raw == [] {
      return Err(NoGroups);
    }
    var groups: seq<Group> := [];
    for k := 0 to |raw|
      invariant groups == AllFilled(d, raw)[..k] && Identified(groups)
    {
      if raw[k].id == "" || raw[k].namePrefix == "" {
        assert AllFilled(d, raw)[k] == Filled(d, raw[k]);
        return Err(MissingIdentity);
      }
      groups := groups + [Filled(d, raw[k])];
    }
    assert groups == AllFilled(d, raw);
    var guard := PrefixGuard(groups);
    if guard.Some? {
      return Err(guard.value);
    }
    var invalid := Validate(d, groups);
    r := if invalid.Some? then Err(invalid.value) else Ok(groups);
  }

  method Validate(d: Defaults, groups: seq<Group>) returns (error: Option<ConfigError>)
    ensures error.None? <==> d.templateParses && Unique(groups) && InRange(groups) && Simulatable(d, groups)
    ensures error.Some? ==> !error.value.NoGroups? && !error.value.MissingIdentity? && !error.value.PrefixShared?
  {
    if !d.templateParses {
      return Some(BadSyntax);
    }
    var seenId: set<string>, seenNodepool: set<string> := {}, {};
    for k := 0 to |groups|
      invariant seenId == set i | 0 <= i < k :: groups[i].id
      invariant seenNodepool == set i | 0 <= i < k :: groups[i].nodepoolId
      invariant Unique(groups[..k]) && InRange(groups[..k]) && Simulatable(d, groups[..k])
    {
      if groups[k].id in seenId {
        return Some(DuplicateId);
      }
      seenId := seenId + {groups[k].id};
      if groups[k].nodepoolId in seenNodepool {
        return Some(DuplicateNodepool);
      }
      seenNodepool := seenNodepool + {groups[k].nodepoolId};
      if groups[k].min < 0 || groups[k].max < groups[k].min {
        return Some(BadRange);
      }
      if !d.syntaxOk(groups[k]) {
        return Some(BadSyntax);
      }
      if groups[k].instanceType != d.instanceType && !groups[k].measured {
        return Some(NoTemplate);
      }
      assert groups[..k + 1] == groups[..k] + [groups[k]];
    }
    assert groups[..|groups|] == groups;
    return None;
  }

  // ---- looking a group up ----------------------------------------------------------------------

  function GroupById(groups: seq<Group>, id: string): Option<Group> {
    if groups == [] then None else if groups[0].id == id then Some(groups[0]) else GroupById(groups[1..], id)
  }

  lemma {:induction false} GroupByIdExactly(groups: seq<Group>, id: string)
    ensures GroupById(groups, id).None? <==> forall g :: g in groups ==> g.id != id
    ensures forall g :: GroupById(groups, id) == Some(g) ==> g in groups && g.id == id
  {
    if groups != [] && groups[0].id != id {
      GroupByIdExactly(groups[1..], id);
      assert groups == [groups[0]] + groups[1..];
    }
  }

  method FindGroup(groups: seq<Group>, id: string) returns (g: Option<Group>)
    ensures g == GroupById(groups, id)
  {
    for k := 0 to |groups|
      invariant GroupById(groups, id) == GroupById(groups[k..], id)
    {
      if groups[k].id == id {
        return Some(groups[k]);
      }
    }
    g := None;
  }

  // ---- the two resolvers -----------------------------------------------------------------------

  predicate Matches(g: Group, name: string) {
    g.namePrefix <= name
  }

  /** The group the delete path resolves a name to: the first one with the longest matching prefix. */
  function Owner(groups: seq<Group>, name: string): Option<Group> {
    if |groups| == 0 then None
    else
      var owner, candidate := Owner(groups[..|groups| - 1], name), groups[|groups| - 1];
      if Matches(candidate, name) && (owner.None? || |candidate.namePrefix| > |owner.value.namePrefix|)
      then Some(candidate) else owner
  }

  method GroupForInstanceName(groups: seq<Group>, name: string) returns (owner: Option<Group>)
    ensures owner == Owner(groups, name)
  {
    owner := None;
    for k := 0 to |groups|
      invariant owner == Owner(groups[..k], name)
    {
      assert groups[..k + 1][..k] == groups[..k];
      var candidate := groups[k];
      if Matches(candidate, name) && (owner.None? || |candidate.namePrefix| > |owner.value.namePrefix|) {
        owner := Some(candidate);
      }
    }
    assert groups[..|groups|] == groups;
  }

  /** The group id the inventory attributes a name to, with the length of the prefix that won; the
      empty id means that no group owns the name. */
  function Attribution(groups: seq<Group>, name: string): (string, int) {
    if |groups| == 0 then ("", -1)
    else
      var (gid, longest) := Attribution(groups[..|groups| - 1], name);
      var g := groups[|groups| - 1];
      if Matches(g, name) && |g.namePrefix| > longest then (g.id, |g.namePrefix|) else (gid, longest)
  }

  function GroupIdOf(groups: seq<Group>, name: string): string {
    Attribution(groups, name).0
  }

  method Attribute(groups: seq<Group>, name: string) returns (gid: string)
    ensures gid == GroupIdOf(groups, name)
  {
    gid := "";
    var longest := -1;
    for k := 0 to |groups|
      invariant (gid, longest) == Attribution(groups[..k], name)
    {
      assert groups[..k + 1][..k] == groups[..k];
      if Matches(groups[k], name) && |groups[k].namePrefix| > longest {
        gid, longest := groups[k].id, |groups[k].namePrefix|;
      }
    }
    assert groups[..|groups|] == groups;
  }

  /** The two resolvers agree on every list of groups, disjoint or not. */
  lemma {:induction false} ResolversAgree(groups: seq<Group>, name: string)
    ensures Attribution(groups, name)
         == match Owner(groups, name) case None => ("", -1) case Some(g) => (g.id, |g.namePrefix|)
  {
    if groups != [] {
      ResolversAgree(groups[..|groups| - 1], name);
    }
  }

  /** What longest-prefix resolution means, without the loop: the owner is a matching group of the
      list, no match has a longer prefix, and there is an owner as soon as there is a match. */
  lemma {:induction false} OwnerIsLongest(groups: seq<Group>, name: string)
    ensures Owner(groups, name).None? <==> forall g :: g in groups ==> !(g.namePrefix <= name)
    ensures Owner(groups, name).Some? ==>
      var owner := Owner(groups, name).value;
      && owner in groups && owner.namePrefix <= name
      && forall g :: g in groups && g.namePrefix <= name ==> |g.namePrefix| <= |owner.namePrefix|
  {
    if groups != [] {
      OwnerIsLongest(groups[..|groups| - 1], name);
      assert groups == groups[..|groups| - 1] + [groups[|groups| - 1]];
    }
  }

  /** On lists that are not disjoint the first of the longest matches wins. */
  lemma {:induction false} OwnerIsFirst(groups: seq<Group>, name: string) returns (k: nat)
    requires Owner(groups, name).Some?
    ensures k < |groups| && Owner(groups, name) == Some(groups[k])
    ensures forall j :: 0 <= j < k && groups[j].namePrefix <= name ==>
      |groups[j].namePrefix| < |groups[k].namePrefix|
  {
    var init, last := groups[..|groups| - 1], groups[|groups| - 1];
    if Owner(groups, name) == Owner(init, name) {
      k := OwnerIsFirst(init, name);
    } else {
      k := |groups| - 1;
      OwnerIsLongest(init, name);
      assert forall j :: 0 <= j < k ==> groups[j] == init[j];
    }
  }

  /** Under an accepted configuration every name that starts with a group's prefix belongs to that
      group on both paths, and to no other group. */
  lemma NamesResolveToTheirGroup(groups: seq<Group>, k: nat, suffix: string)
    requires PrefixesDisjoint(groups) && k < |groups|
    ensures Owner(groups, groups[k].namePrefix + suffix) == Some(groups[k])
    ensures GroupIdOf(groups, groups[k].namePrefix + suffix) == groups[k].id
    ensures forall j :: 0 <= j < |groups| && j != k ==> !Matches(groups[j], groups[k].namePrefix + suffix)
  {
    var name := groups[k].namePrefix + suffix;
    assert Matches(groups[k], name) && groups[k] in groups;
    forall j | 0 <= j < |groups| && Matches(groups[j], name) ensures j == k {
      Comparable(groups[j].namePrefix, groups[k].namePrefix, name);
    }
    OwnerIsLongest(groups, name);
    ResolversAgree(groups, name);
  }

  /** The guard is exactly what ownership needs: prefixes are disjoint if and only if no name at all
      matches two groups. */
  lemma GuardIsExact(groups: seq<Group>)
    ensures PrefixesDisjoint(groups) <==> forall name: string, i, j ::
      0 <= i < |groups| && 0 <= j < |groups| && Matches(groups[i], name) && Matches(groups[j], name) ==> i == j
  {
    if PrefixesDisjoint(groups) {
      forall name: string, i, j
        | 0 <= i < |groups| && 0 <= j < |groups| && Matches(groups[i], name) && Matches(groups[j], name)
        ensures i == j
      {
        Comparable(groups[i].namePrefix, groups[j].namePrefix, name);
      }
    } else {
      var i, j :| 0 <= i < |groups| && 0 <= j < |groups| && i != j && groups[i].namePrefix <= groups[j].namePrefix;
      assert Matches(groups[i], groups[j].namePrefix) && Matches(groups[j], groups[j].namePrefix);
    }
  }

  /** The order of the groups is irrelevant: any two accepted lists of the same groups agree. */
  lemma OrderIsIrrelevant(groups: seq<Group>, others: seq<Group>, name: string)
    requires PrefixesDisjoint(groups) && PrefixesDisjoint(others)
    requires forall g :: g in groups <==> g in others
    ensures Owner(groups, name) == Owner(others, name)
    ensures GroupIdOf(groups, name) == GroupIdOf(others, name)
  {
    OwnerIsLongest(groups, name);
    OwnerIsLongest(others, name);
    ResolversAgree(groups, name);
    ResolversAgree(others, name);
    if Owner(groups, name).Some? {
      var a, b := Owner(groups, name).value, Owner(others, name).value;
      assert b in groups && a.namePrefix <= b.namePrefix && b.namePrefix <= a.namePrefix;
      var i, j :| 0 <= i < |groups| && 0 <= j < |groups| && groups[i] == a && groups[j] == b;
    }
  }

  // ---- operation names -------------------------------------------------------------------------

  /** The instance name of one order: the group prefix, a random 16-bit id in hexadecimal, and the
      Unix second of the order in decimal. */
  function OperationName(namePrefix: string, opId: string, stamp: string): string {
    namePrefix + ("-op" + opId + "-" + stamp)
  }

  /** Whatever the cloud appends to make instance names unique, an ordered instance belongs to the
      group that ordered it. */
  lemma OrderedInstancesAreOwned(groups: seq<Group>, k: nat, opId: string, stamp: string, unique: string)
    requires PrefixesDisjoint(groups) && k < |groups|
    ensures GroupIdOf(groups, OperationName(groups[k].namePrefix, opId, stamp) + unique) == groups[k].id
    ensures Owner(groups, OperationName(groups[k].namePrefix, opId, stamp) + unique) == Some(groups[k])
  {
    var suffix := "-op" + opId + "-" + stamp + unique;
    assert OperationName(groups[k].namePrefix, opId, stamp) + unique == groups[k].namePrefix + suffix;
    NamesResolveToTheirGroup(groups, k, suffix);
  }

  /** Operations of one group whose ids and stamps have fixed lengths and differ are prefix-free, as
      the closed form of the guard count needs. */
  lemma OperationNamesPrefixFree(namePrefix: string, ops: set<(string, string)>)
    requires forall o :: o in ops ==> |o.0| == 4 && |o.1| == 10
    ensures PrefixFree(set o | o in ops :: OperationName(namePrefix, o.0, o.1))
    ensures forall a, b :: a in ops && b in ops && a != b ==>
      OperationName(namePrefix, a.0, a.1) != OperationName(namePrefix, b.0, b.1)
  {
    EqualLengthPrefixFree(set o | o in ops :: OperationName(namePrefix, o.0, o.1));
    forall a, b | a in ops && b in ops && OperationName(namePrefix, a.0, a.1) == OperationName(namePrefix, b.0, b.1)
      ensures a == b
    {
      OperationNameParts(namePrefix, a.0, a.1);
      OperationNameParts(namePrefix, b.0, b.1);
    }
  }

  lemma OperationNameParts(namePrefix: string, opId: string, stamp: string)
    requires |opId| == 4
    ensures |OperationName(namePrefix, opId, stamp)| == |namePrefix| + 8 + |stamp|
    ensures OperationName(namePrefix, opId, stamp)[|namePrefix| + 3..|namePrefix| + 7] == opId
    ensures OperationName(namePrefix, opId, stamp)[|namePrefix| + 8..] == stamp
  {
  }

  // ---- provider ids ----------------------------------------------------------------------------

  function ProviderId(region: string, instanceId: string): string {
    region + "." + instanceId
  }

  predicate IdCharacter(c: char) {
    'a' <= c <= 'z' || '0' <= c <= '9'
  }

  /** The documented shape of an ENS instance id. */
  predicate IdShape(id: string) {
    && 3 <= |id| && id[..2] == "i-"
    && forall k :: 2 <= k < |id| ==> IdCharacter(id[k])
  }

  /** The parse of the mutating paths; the empty string means refusal. */
  function StrictInstanceId(region: string, providerId: string): string {
    var prefix := region + ".";
    if !(prefix <= providerId) then ""
    else
      var id := providerId[|prefix|..];
      if IdShape(id) then id else ""
  }

  function DotIndex(s: string): (i: int)
    ensures -1 <= i < |s|
    ensures i >= 0 ==> s[i] == '.' && '.' !in s[..i]
    ensures i < 0 ==> '.' !in s
  {
    if s == [] then -1
    else if s[0] == '.' then 0
    else
      var i := DotIndex(s[1..]);
      if i < 0 then -1 else i + 1
  }

  /** The lenient parse of the read-only paths. */
  function LenientInstanceId(providerId: string): string {
    var i := DotIndex(providerId);
    if i > 0 then providerId[i + 1..] else ""
  }

  /** A provider id yields a release candidate exactly when it is this region's rendering of an id of
      the documented shape, and then that id. */
  lemma StrictInstanceIdExact(region: string, providerId: string, id: string)
    ensures StrictInstanceId(region, providerId) == id && id != "" <==>
            providerId == ProviderId(region, id) && IdShape(id)
    ensures StrictInstanceId(region, providerId) == id && id != "" <==>
      && providerId == region + "." + id && 3 <= |id| && id[0] == 'i' && id[1] == '-'
      && forall k :: 2 <= k < |id| ==> 'a' <= id[k] <= 'z' || '0' <= id[k] <= '9'
  {
    var prefix := region + ".";
    if prefix <= providerId {
      assert providerId == prefix + providerId[|prefix|..];
    }
    if providerId == ProviderId(region, id) {
      assert prefix <= providerId && providerId[|prefix|..] == id;
    }
  }

  /** The lenient parse takes what stands behind the first dot, unless that dot comes first. */
  lemma LenientExactly(head: string, tail: string)
    requires '.' !in head
    ensures LenientInstanceId(head + "." + tail) == if head == "" then "" else tail
    ensures LenientInstanceId(head) == ""
  {
    var pid := head + "." + tail;
    assert pid[|head|] == '.';
    FirstDot(pid, |head|);
    assert forall j :: 0 <= j < |head| ==> pid[j] == head[j];
    assert pid[|head| + 1..] == tail;
  }

  /** The read path recovers every id exactly when the region is non-empty and has no dot; then the
      two paths can never disagree about a release candidate. */
  lemma LenientRoundTrip(region: string, id: string)
    requires IdShape(id)
    ensures LenientInstanceId(ProviderId(region, id)) == StrictInstanceId(region, ProviderId(region, id)) == id
      <==> region != "" && '.' !in region
  {
    var pid := ProviderId(region, id);
    StrictInstanceIdExact(region, pid, id);
    var i := DotIndex(pid);
    assert pid[|region|] == '.';
    if '.' in region {
      var k :| 0 <= k < |region| && region[k] == '.';
      assert pid[k] == '.';
      FirstDot(pid, k);
      assert |pid[i + 1..]| > |id|;
    } else {
      FirstDot(pid, |region|);
      assert pid[|region| + 1..] == id;
    }
  }

  lemma FirstDot(s: string, k: nat)
    requires k < |s| && s[k] == '.'
    ensures 0 <= DotIndex(s) <= k
  {
    var i := DotIndex(s);
    assert forall j :: 0 <= j < i ==> s[..i][j] == s[j];
  }
}
