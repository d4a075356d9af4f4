/** The node deletion RPC: fail-closed ownership, release before Node removal, one failure entry per
    unfinished node, and convergence under retry (server.go). */
module DeleteNodes {
  import opened Prelude
  import opened Reservations
  import opened Ownership
  import Inventory

  /** A node of a request; an absent nodepool label is the empty string. */
  datatype Node = Node(name: string, providerId: string, nodepool: string)

  // ---- what the APIs may do --------------------------------------------------------------------

  /** An uncached lookup may fail, or answer from a stale view. */
  datatype Lookup = Truthful | Stale | LookupFails

  datatype Faults = Faults(lookup: Lookup, release: Call, removal: Call)

  predicate Clean(f: Faults) {
    f == Faults(Truthful, Works, Works)
  }

  datatype Effect =
    | LookedUp(id: string, found: bool)
    | LookupFailed(id: string)
    | Released(id: string, accepted: bool)
    | Removed(node: string, ok: bool)

  /** The living instances and the Node objects. */
  datatype State = State(live: set<string>, nodes: set<string>)

  /** What never changes during a deletion: the region, the groups, the requested group, and the name
      of every instance that ever existed. */
  datatype Context = Context(region: string, groups: seq<Group>, g: Group, names: map<string, string>)

  function LookupFinds(names: map<string, string>, live: set<string>, id: string, l: Lookup): bool {
    if l == Stale then id !in live && id in names else id in live && id in names
  }

  /** Releasing an instance that no longer exists is success, unless the call itself fails. */
  function ReleaseEffect(live: set<string>, id: string, c: Call): (set<string>, bool) {
    (if c == Fails then live else live - {id}, c == Works)
  }

  // ---- one node, as a function -----------------------------------------------------------------

  datatype Handled = Handled(state: State, failed: bool, log: seq<Effect>)

  function RemoveNode(s: State, node: Node, f: Faults, log: seq<Effect>): Handled {
    if node.name == "" then Handled(s, false, log)
    else Handled(s.(nodes := if f.removal == Fails then s.nodes else s.nodes - {node.name}),
                 f.removal != Works, log + [Removed(node.name, f.removal == Works)])
  }

  function ReleaseThenRemove(s: State, node: Node, id: string, f: Faults, log: seq<Effect>): Handled {
    var (live, accepted) := ReleaseEffect(s.live, id, f.release);
    var log' := log + [Released(id, accepted)];
    if accepted then RemoveNode(s.(live := live), node, f, log') else Handled(s.(live := live), true, log')
  }

  function HandleNode(c: Context, cached: map<string, string>, node: Node, f: Faults, s: State): Handled {
    if node.nodepool != "" && node.nodepool != c.g.nodepoolId then Handled(s, true, [])
    else
      var id := StrictInstanceId(c.region, node.providerId);
      if id == "" then Handled(s, true, [])
      else if id in cached then
        if cached[id] != c.g.id then Handled(s, true, []) else ReleaseThenRemove(s, node, id, f, [])
      else if f.lookup == LookupFails then Handled(s, true, [LookupFailed(id)])
      else if !LookupFinds(c.names, s.live, id, f.lookup) then RemoveNode(s, node, f, [LookedUp(id, false)])
      else
        var owner := Owner(c.groups, c.names[id]);
        if owner.None? || owner.value.id != c.g.id then Handled(s, true, [LookedUp(id, true)])
        else ReleaseThenRemove(s, node, id, f, [LookedUp(id, true)])
  }

  // ---- a whole batch, as a function ------------------------------------------------------------

  datatype Batch = Batch(state: State, failures: nat, logs: seq<seq<Effect>>)

  function HandleAll(c: Context, cached: map<string, string>, nodes: seq<Node>, faults: seq<Faults>,
    s: State): (r: Batch)
    requires |faults| == |nodes|
    ensures |r.logs| == |nodes|
  {
    if |nodes| == 0 then Batch(s, 0, [])
    else
      var n := |nodes| - 1;
      var before := HandleAll(c, cached, nodes[..n], faults[..n], s);
      var h := HandleNode(c, cached, nodes[n], faults[n], before.state);
      Batch(h.state, before.failures + if h.failed then 1 else 0, before.logs + [h.log])
  }

  // ---- the server ------------------------------------------------------------------------------

  /** The cached inventory as the map the batch loop consults; a later entry of one id wins. */
  function ById(owned: seq<Instance>): map<string, string> {
    if |owned| == 0 then map[]
    else ById(owned[..|owned| - 1])[owned[|owned| - 1].id := owned[|owned| - 1].groupId]
  }

  /** The cloud and the cluster, as the RPC sees them. */
  class Estate {
    const names: map<string, string>
    var live: set<string>
    var nodes: set<string>

    function Now(): State
      reads this
    {
      State(live, nodes)
    }

    constructor (names: map<string, string>, live: set<string>, nodes: set<string>)
      ensures this.names == names && Now() == State(live, nodes)
    {
      this.names, this.live, this.nodes := names, live, nodes;
    }

    /** The lookup as the cloud answers it: it may list other instances, and may still list a released
        one. */
    method Describe(id: string, l: Lookup) returns (r: Result<Option<seq<Inventory.Raw>>, string>)
      ensures r.Err? <==> l == LookupFails
      ensures r.Ok? ==> Answers(r.value, id, if LookupFinds(names, live, id, l) then Some(names[id]) else None)
    {
      if l == LookupFails {
        return Err("DescribeInstances");
      }
      var found := if l == Stale then id !in live && id in names else id in live && id in names;
      if found {
        assert FirstIsAlive([Inventory.Raw(id, names[id], "Running")], 0, id, names[id]);
        return Ok(Some([Inventory.Raw(id, names[id], "Running")]));
      }
      if * {
        return Ok(None);
      } else if * {
        return Ok(Some([]));
      }
      return Ok(Some([Inventory.Raw(id, "", "Released")]));
    }

    method InstanceById(id: string, l: Lookup) returns (r: Result<Option<string>, string>)
      ensures r.Err? <==> l == LookupFails
      ensures r.Ok? ==> r.value == if LookupFinds(names, live, id, l) then Some(names[id]) else None
    {
      var reply := Describe(id, l);
      if reply.Err? {
        return Err(reply.error);
      }
      if reply.value.None? {
        return Ok(None);
      }
      var items := reply.value.value;
      for k := 0 to |items|
        invariant forall j :: 0 <= j < k ==> items[j].id != id
      {
        if items[k].id != id {
          continue;
        }
        if Inventory.Gone(items[k].status) {
          return Ok(None);
        }
        return Ok(Some(items[k].name));
      }
      r := Ok(None);
    }

    /** The release as the cloud answers it: an unknown instance is an error with a code of its own, and a call
        that fails is answered with another code or not at all. */
    method ReleasePostPaid(id: string, c: Call) returns (r: ApiReply)
      modifies this`live
      ensures live == if c == Fails then old(live) else old(live) - {id}
      ensures c == Works ==> r == if id in old(live) then Fine else ApiError("InstanceIdNotFound")
      ensures c != Works ==> r == Transport || (r.ApiError? && r.code != "InstanceIdNotFound")
    {
      r := if c == Works then if id in live then Fine else ApiError(INSTANCE_ID_NOT_FOUND) else Transport;
      if c == Fails {
        if * {
          r := ApiError("Throttling");
        }
      } else {
        live := live - {id};
      }
    }

    method ReleaseInstance(id: string, c: Call) returns (accepted: bool)
      modifies this`live
      ensures (live, accepted) == ReleaseEffect(old(live), id, c)
      ensures accepted <==> c == Works
      ensures live == if c == Fails then old(live) else old(live) - {id}
    {
      var reply := ReleasePostPaid(id, c);
      accepted := reply.Fine? || IsInstanceGone(reply);
    }

    /** The deletion as the cluster answers it. */
    method DeleteNode(name: string, c: Call) returns (r: ApiReply)
      modifies this`nodes
      ensures nodes == if c == Fails then old(nodes) else old(nodes) - {name}
      ensures c == Works ==> r == if name in old(nodes) then Fine else ApiError("NotFound")
      ensures c != Works ==> r == Transport || (r.ApiError? && r.code != "NotFound")
    {
      r := if c == Works then if name in nodes then Fine else ApiError(NOT_FOUND) else Transport;
      if c == Fails {
        if * {
          r := ApiError("Forbidden");
        }
      } else {
        nodes := nodes - {name};
      }
    }

    method DeleteNodeObject(name: string, c: Call) returns (ok: bool)
      modifies this`nodes
      ensures nodes == if c == Fails then old(nodes) else old(nodes) - {name}
      ensures ok == (c == Works)
    {
      var reply := DeleteNode(name, c);
      ok := reply.Fine? || reply == ApiError(NOT_FOUND);
    }
  }

  const INSTANCE_ID_NOT_FOUND := "InstanceIdNotFound"
  const NOT_FOUND := "NotFound"

  /** A call succeeds, is answered with an error code, or gets no answer. */
  datatype ApiReply = Fine | ApiError(code: string) | Transport

  /** Only the structured error code says that an instance is gone. */
  predicate IsInstanceGone(r: ApiReply) {
    r.ApiError? && r.code == INSTANCE_ID_NOT_FOUND
  }

  /** A reply to a lookup shows the first entry of the id alive under the given name, or no living entry. */
  ghost predicate Answers(body: Option<seq<Inventory.Raw>>, id: string, name: Option<string>) {
    match name
    case None =>
      body.Some? ==>
        forall k :: 0 <= k < |body.value| && body.value[k].id == id ==> Inventory.Gone(body.value[k].status)
    case Some(n) =>
      body.Some? && exists k :: FirstIsAlive(body.value, k, id, n)
  }

  predicate FirstIsAlive(items: seq<Inventory.Raw>, k: int, id: string, name: string) {
    && 0 <= k < |items| && items[k].id == id && items[k].name == name && !Inventory.Gone(items[k].status)
    && forall j :: 0 <= j < k ==> items[j].id != id
  }

  datatype Reply = Deleted | DescribeFailed | DeleteFailed(failures: nat, total: nat)

  class Server {
    const region: string
    const groups: seq<Group>
    const estate: Estate

    constructor (region: string, groups: seq<Group>, estate: Estate)
      ensures this.region == region && this.groups == groups && this.estate == estate
    {
      this.region, this.groups, this.estate := region, groups, estate;
    }

    function ContextFor(g: Group): Context {
      Context(region, groups, g, estate.names)
    }

    /** Handles one node and reports whether it is left unfinished, with the API calls made for it. */
    method DeleteOne(g: Group, byId: map<string, string>, node: Node, f: Faults)
      returns (failed: bool, log: seq<Effect>)
      modifies estate
      ensures Handled(estate.Now(), failed, log) == HandleNode(ContextFor(g), byId, node, f, old(estate.Now()))
    {
      log := [];
      if node.nodepool != "" && node.nodepool != g.nodepoolId {
        return true, log;
      }
      var id := StrictInstanceId(region, node.providerId);
      if id == "" {
        return true, log;
      }
      if id in byId {
        if byId[id] != g.id {
          return true, log;
        }
      } else {
        var found := estate.InstanceById(id, f.lookup);
        if found.Err? {
          return true, [LookupFailed(id)];
        }
        if found.value.None? {
          log := [LookedUp(id, false)];
          if node.name != "" {
            var ok := estate.DeleteNodeObject(node.name, f.removal);
            return !ok, log + [Removed(node.name, ok)];
          }
          return false, log;
        }
        log := [LookedUp(id, true)];
        var owner := GroupForInstanceName(groups, found.value.value);
        if owner.None? || owner.value.id != g.id {
          return true, log;
        }
      }
      var accepted := estate.ReleaseInstance(id, f.release);
      log := log + [Released(id, accepted)];
      if !accepted {
        return true, log;
      }
      if node.name != "" {
        var ok := estate.DeleteNodeObject(node.name, f.removal);
        return !ok, log + [Removed(node.name, ok)];
      }
      failed := false;
    }

    method NodeGroupDeleteNodes(g: Group, owned: Result<seq<Instance>, string>, nodes: seq<Node>, faults: seq<Faults>)
      returns (reply: Reply, logs: seq<seq<Effect>>)
      requires |faults| == |nodes|
      modifies estate
      ensures owned.Err? ==> reply == DescribeFailed && logs == [] && estate.Now() == old(estate.Now())
      ensures owned.Ok? ==>
        var batch := HandleAll(ContextFor(g), ById(owned.value), nodes, faults, old(estate.Now()));
        && estate.Now() == batch.state && logs == batch.logs
        && reply == if batch.failures == 0 then Deleted else DeleteFailed(batch.failures, |nodes|)
      ensures reply == Deleted && TruthfulLookups(faults) && old(estate.live) <= estate.names.Keys ==>
        forall k :: 0 <= k < |nodes| ==>
          && StrictInstanceId(region, nodes[k].providerId) !in estate.live
          && (nodes[k].name != "" ==> nodes[k].name !in estate.nodes)
    {
      if owned.Err? {
        return DescribeFailed, [];
      }
      var byId: map<string, string> := map[];
      for k := 0 to |owned.value|
        invariant byId == ById(owned.value[..k])
      {
        assert owned.value[..k + 1][..k] == owned.value[..k];
        byId := byId[owned.value[k].id := owned.value[k].groupId];
      }
      assert owned.value[..|owned.value|] == owned.value;
      var failures: nat := 0;
      logs := [];
      for k := 0 to |nodes|
        invariant Batch(estate.Now(), failures, logs)
               == HandleAll(ContextFor(g), byId, nodes[..k], faults[..k], old(estate.Now()))
      {
        assert nodes[..k + 1][..k] == nodes[..k] && faults[..k + 1][..k] == faults[..k];
        var failed, log := DeleteOne(g, byId, nodes[k], faults[k]);
        if failed {
          failures := failures + 1;
        }
        logs := logs + [log];
      }
      assert nodes[..|nodes|] == nodes && faults[..|faults|] == faults;
      reply := if failures > 0 then DeleteFailed(failures, |nodes|) else Deleted;
      if failures == 0 && TruthfulLookups(faults) && old(estate.live) <= estate.names.Keys {
        SuccessMeansGone(ContextFor(g), byId, nodes, faults, old(estate.Now()));
      }
    }
  }

  // ---- what a node comes to, over the state ----------------------------------------------------

  /** An accepted release means that the instance is gone: with truthful lookups, a node that is reported done,
      or whose Node object vanished, has no living instance; and one that is reported done has no Node. */
  lemma DoneMeansGone(c: Context, cached: map<string, string>, node: Node, f: Faults, s: State)
    requires s.live <= c.names.Keys && f.lookup != Stale
    ensures var h := HandleNode(c, cached, node, f, s);
      && (!h.failed || (node.name in s.nodes && node.name !in h.state.nodes) ==>
            StrictInstanceId(c.region, node.providerId) !in h.state.live)
      && (!h.failed && node.name != "" ==> node.name !in h.state.nodes)
  {
  }

  /** Which nodes are refused, untouched: a foreign label, a malformed id, an instance the cache or a truthful
      lookup attributes to anybody else, or a failed lookup. */
  lemma RefusedUntouched(c: Context, cached: map<string, string>, node: Node, f: Faults, s: State)
    requires Configured(c) && Honest(c, cached) && s.live <= c.names.Keys
    ensures var id, h := StrictInstanceId(c.region, node.providerId), HandleNode(c, cached, node, f, s);
      (|| (node.nodepool != "" && node.nodepool != c.g.nodepoolId)
       || id == ""
       || (id in cached && Owner(c.groups, c.names[id]) != Some(c.g))
       || (id !in cached && f.lookup == LookupFails)
       || (id !in cached && id in s.live && f.lookup == Truthful && Owner(c.groups, c.names[id]) != Some(c.g)))
      ==> h.failed && h.state == s && forall e :: e in h.log ==> !e.Released? && !e.Removed?
  {
    var id := StrictInstanceId(c.region, node.providerId);
    if id in c.names {
      OwnerIsGroup(c, c.names[id]);
    }
  }

  /** A node of the group, with a truthful lookup: which failures it reports, and exactly what it takes away. */
  lemma OwnedNodeExactly(c: Context, cached: map<string, string>, node: Node, f: Faults, s: State)
    requires Configured(c) && Honest(c, cached) && s.live <= c.names.Keys
    requires node.nodepool == "" || node.nodepool == c.g.nodepoolId
    requires var id := StrictInstanceId(c.region, node.providerId);
      id != "" && id in c.names && Owner(c.groups, c.names[id]) == Some(c.g) && (id in cached || f.lookup == Truthful)
    ensures var id, h := StrictInstanceId(c.region, node.providerId), HandleNode(c, cached, node, f, s);
      var released := (id in cached || id in s.live) && f.release != Fails;
      var cleared := (id !in cached && id !in s.live) || f.release == Works;
      && h.state.live == (if released then s.live - {id} else s.live)
      && h.state.nodes == (if cleared && node.name != "" && f.removal != Fails then s.nodes - {node.name} else s.nodes)
      && (h.failed <==> !cleared || (node.name != "" && f.removal != Works))
  {
    var id := StrictInstanceId(c.region, node.providerId);
    OwnerIsGroup(c, c.names[id]);
  }

  // ---- safety of every batch -------------------------------------------------------------------

  /** A cached inventory may be out of date, but attributes each instance by its name. */
  ghost predicate Honest(c: Context, cached: map<string, string>) {
    forall id :: id in cached ==> id in c.names && cached[id] == GroupIdOf(c.groups, c.names[id])
  }

  /** What the cloud lists under an id has that instance's name. */
  ghost predicate TruthfullyNamed(c: Context, all: seq<Inventory.Raw>) {
    forall raw :: raw in all ==> raw.id in c.names && c.names[raw.id] == raw.name
  }

  /** The cached inventory the batch consults is honest, whatever part of the truth it lists. */
  lemma {:induction false} InventoryIsHonest(c: Context, all: seq<Inventory.Raw>)
    requires TruthfullyNamed(c, all)
    ensures Honest(c, ById(Inventory.InventoryOf(c.groups, all)))
  {
    if all != [] {
      var init, last := all[..|all| - 1], all[|all| - 1];
      InventoryIsHonest(c, init);
      assert last in all;
      var owned := Inventory.InventoryOf(c.groups, init);
      if Inventory.Listed(c.groups, last) {
        var entry := Inventory.Entry(c.groups, last);
        assert (owned + [entry])[..|owned|] == owned;
        assert ById(Inventory.InventoryOf(c.groups, all)) == ById(owned)[entry.id := entry.groupId];
      } else {
        assert owned + [] == owned;
      }
    }
  }

  /** The group is one of an accepted configuration. */
  ghost predicate Configured(c: Context) {
    c.g in c.groups && Unique(c.groups) && Identified(c.groups)
  }

  ghost predicate OwnedByRequest(c: Context, id: string) {
    id in c.names && Owner(c.groups, c.names[id]) == Some(c.g)
  }

  /** The id may be released: it is the one the node names, and its name belongs to the group. */
  ghost predicate MayRelease(c: Context, node: Node, id: string) {
    id == StrictInstanceId(c.region, node.providerId) && OwnedByRequest(c, id)
  }

  /** Every release of a node's log is permitted, and a Node object is removed only as the last call,
      directly after an accepted release or an uncached lookup that found nothing. */
  ghost predicate SafeLog(c: Context, node: Node, log: seq<Effect>) {
    && (forall k :: 0 <= k < |log| && log[k].Released? ==> MayRelease(c, node, log[k].id))
    && forall k :: 0 <= k < |log| && log[k].Removed? ==>
         && log[k].node == node.name && k == |log| - 1 && 0 < k
         && Gone(node, c, log[k - 1])
  }

  ghost predicate Gone(node: Node, c: Context, e: Effect) {
    var id := StrictInstanceId(c.region, node.providerId);
    e == Released(id, true) || e == LookedUp(id, false)
  }

  /** The node is finished: its instance is gone and its Node object, if it names one, was removed. */
  ghost predicate Completed(c: Context, node: Node, log: seq<Effect>) {
    if node.name == "" then 0 < |log| && Gone(node, c, log[|log| - 1])
    else 1 < |log| && log[|log| - 1] == Removed(node.name, true) && Gone(node, c, log[|log| - 2])
  }

  lemma OwnerIsGroup(c: Context, name: string)
    requires Configured(c)
    ensures GroupIdOf(c.groups, name) == c.g.id <==> Owner(c.groups, name) == Some(c.g)
    ensures Owner(c.groups, name).Some? && Owner(c.groups, name).value.id == c.g.id ==>
      Owner(c.groups, name) == Some(c.g)
  {
    ResolversAgree(c.groups, name);
    OwnerIsLongest(c.groups, name);
    if Owner(c.groups, name).Some? {
      var i :| 0 <= i < |c.groups| && c.groups[i] == c.g;
      var j :| 0 <= j < |c.groups| && c.groups[j] == Owner(c.groups, name).value;
    } else {
      assert c.g.id != "";
    }
  }

  ghost predicate NoRemoval(log: seq<Effect>) {
    forall k :: 0 <= k < |log| ==> !log[k].Removed?
  }

  ghost predicate ReleasesAllowed(c: Context, node: Node, log: seq<Effect>) {
    forall k :: 0 <= k < |log| && log[k].Released? ==> MayRelease(c, node, log[k].id)
  }

  lemma RemoveIsSafe(c: Context, node: Node, f: Faults, s: State, log: seq<Effect>)
    requires 0 < |log| && NoRemoval(log) && ReleasesAllowed(c, node, log) && Gone(node, c, log[|log| - 1])
    ensures var h := RemoveNode(s, node, f, log);
      SafeLog(c, node, h.log) && (h.failed <==> !Completed(c, node, h.log))
  {
  }

  lemma ReleaseIsSafe(c: Context, node: Node, id: string, f: Faults, s: State, log: seq<Effect>)
    requires NoRemoval(log) && ReleasesAllowed(c, node, log) && MayRelease(c, node, id)
    ensures var h := ReleaseThenRemove(s, node, id, f, log);
      SafeLog(c, node, h.log) && (h.failed <==> !Completed(c, node, h.log))
  {
    var (live, accepted) := ReleaseEffect(s.live, id, f.release);
    if accepted {
      RemoveIsSafe(c, node, f, s.(live := live), log + [Released(id, true)]);
    }
  }

  lemma NodeIsSafe(c: Context, cached: map<string, string>, node: Node, f: Faults, s: State)
    requires Configured(c) && Honest(c, cached)
    ensures var h := HandleNode(c, cached, node, f, s);
      SafeLog(c, node, h.log) && (h.failed <==> !Completed(c, node, h.log))
  {
    var id := StrictInstanceId(c.region, node.providerId);
    if id in c.names {
      OwnerIsGroup(c, c.names[id]);
      if OwnedByRequest(c, id) {
        ReleaseIsSafe(c, node, id, f, s, []);
        ReleaseIsSafe(c, node, id, f, s, [LookedUp(id, true)]);
      }
    }
    RemoveIsSafe(c, node, f, s, [LookedUp(id, false)]);
  }

  ghost function Unfinished(c: Context, nodes: seq<Node>, logs: seq<seq<Effect>>): set<int>
    requires |nodes| == |logs|
  {
    set k | 0 <= k < |nodes| && !Completed(c, nodes[k], logs[k])
  }

  /** Every release and removal of a batch is safe, whatever the APIs do. */
  lemma {:induction false} BatchIsSafe(c: Context, cached: map<string, string>, nodes: seq<Node>,
    faults: seq<Faults>, s: State, k: nat)
    requires |faults| == |nodes| && Configured(c) && Honest(c, cached) && k < |nodes|
    ensures SafeLog(c, nodes[k], HandleAll(c, cached, nodes, faults, s).logs[k])
  {
    var n := |nodes| - 1;
    var before := HandleAll(c, cached, nodes[..n], faults[..n], s);
    if k < n {
      BatchIsSafe(c, cached, nodes[..n], faults[..n], s, k);
    } else {
      NodeIsSafe(c, cached, nodes[n], faults[n], before.state);
    }
  }

  /** The failure count is the number of unfinished nodes. */
  lemma {:induction false} FailuresAreUnfinished(c: Context, cached: map<string, string>, nodes: seq<Node>,
    faults: seq<Faults>, s: State)
    requires |faults| == |nodes| && Configured(c) && Honest(c, cached)
    ensures var batch := HandleAll(c, cached, nodes, faults, s);
      batch.failures == |Unfinished(c, nodes, batch.logs)|
  {
    var batch := HandleAll(c, cached, nodes, faults, s);
    if nodes == [] {
      assert Unfinished(c, nodes, batch.logs) == {};
    } else {
      var n := |nodes| - 1;
      var before := HandleAll(c, cached, nodes[..n], faults[..n], s);
      FailuresAreUnfinished(c, cached, nodes[..n], faults[..n], s);
      NodeIsSafe(c, cached, nodes[n], faults[n], before.state);
      UnfinishedGrows(c, nodes, batch.logs);
      assert batch.logs[..n] == before.logs;
    }
  }

  /** The batch reports no failure exactly when every node was finished. */
  lemma SuccessMeansAllFinished(c: Context, cached: map<string, string>, nodes: seq<Node>, faults: seq<Faults>,
    s: State)
    requires |faults| == |nodes| && Configured(c) && Honest(c, cached)
    ensures var batch := HandleAll(c, cached, nodes, faults, s);
      batch.failures == 0 <==> forall k :: 0 <= k < |nodes| ==> Completed(c, nodes[k], batch.logs[k])
  {
    var batch := HandleAll(c, cached, nodes, faults, s);
    FailuresAreUnfinished(c, cached, nodes, faults, s);
    if batch.failures == 0 {
      forall k | 0 <= k < |nodes| ensures Completed(c, nodes[k], batch.logs[k]) {
        assert k !in Unfinished(c, nodes, batch.logs);
      }
    } else {
      var k :| k in Unfinished(c, nodes, batch.logs);
    }
  }

  lemma UnfinishedGrows(c: Context, nodes: seq<Node>, logs: seq<seq<Effect>>)
    requires |nodes| == |logs| > 0
    ensures var n := |nodes| - 1;
      |Unfinished(c, nodes, logs)|
        == |Unfinished(c, nodes[..n], logs[..n])| + if Completed(c, nodes[n], logs[n]) then 0 else 1
  {
    var n := |nodes| - 1;
    var rest := Unfinished(c, nodes[..n], logs[..n]);
    assert Unfinished(c, nodes, logs) == rest + if Completed(c, nodes[n], logs[n]) then {} else {n} by {
      forall k | 0 <= k < n ensures k in Unfinished(c, nodes, logs) <==> k in rest {
        assert nodes[k] == nodes[..n][k] && logs[k] == logs[..n][k];
      }
    }
    assert n !in rest;
  }

  lemma NodeTakesOnlyOwned(c: Context, cached: map<string, string>, node: Node, f: Faults, s: State, id: string)
    requires Configured(c) && Honest(c, cached)
    requires id in s.live && id !in HandleNode(c, cached, node, f, s).state.live
    ensures MayRelease(c, node, id) && (node.nodepool == "" || node.nodepool == c.g.nodepoolId)
  {
    var candidate := StrictInstanceId(c.region, node.providerId);
    if candidate in c.names {
      OwnerIsGroup(c, c.names[candidate]);
    }
  }

  /** Whatever the APIs do, an instance that disappears belongs to the requested group, by its name, and some
      node of the batch whose label agrees names it. */
  lemma {:induction false} BatchTakesOnlyOwned(c: Context, cached: map<string, string>, nodes: seq<Node>,
    faults: seq<Faults>, s: State, id: string)
    returns (k: nat)
    requires |faults| == |nodes| && Configured(c) && Honest(c, cached)
    requires id in s.live && id !in HandleAll(c, cached, nodes, faults, s).state.live
    ensures id in c.names && Owner(c.groups, c.names[id]) == Some(c.g)
    ensures k < |nodes| && id == StrictInstanceId(c.region, nodes[k].providerId)
    ensures nodes[k].nodepool == "" || nodes[k].nodepool == c.g.nodepoolId
  {
    var n := |nodes| - 1;
    var before := HandleAll(c, cached, nodes[..n], faults[..n], s);
    if id in before.state.live {
      NodeTakesOnlyOwned(c, cached, nodes[n], faults[n], before.state, id);
      k := n;
    } else {
      k := BatchTakesOnlyOwned(c, cached, nodes[..n], faults[..n], s, id);
    }
  }

  ghost predicate TruthfulLookups(faults: seq<Faults>) {
    forall k :: 0 <= k < |faults| ==> faults[k].lookup != Stale
  }

  /** None of the batch's instances is alive, and none of its Nodes is there. */
  ghost predicate NothingLeft(c: Context, nodes: seq<Node>, s: State) {
    forall k :: 0 <= k < |nodes| ==>
      && StrictInstanceId(c.region, nodes[k].providerId) !in s.live
      && (nodes[k].name != "" ==> nodes[k].name !in s.nodes)
  }

  lemma NothingLeftLater(c: Context, nodes: seq<Node>, s: State, s': State)
    requires nodes != [] && NothingLeft(c, nodes[..|nodes| - 1], s) && s'.live <= s.live && s'.nodes <= s.nodes
    requires var last := nodes[|nodes| - 1];
      && StrictInstanceId(c.region, last.providerId) !in s'.live
      && (last.name != "" ==> last.name !in s'.nodes)
    ensures NothingLeft(c, nodes, s')
  {
    assert forall k :: 0 <= k < |nodes| - 1 ==> nodes[..|nodes| - 1][k] == nodes[k];
  }

  /** With truthful lookups, whatever else fails: a batch that reports success leaves none of its instances and
      none of its Nodes behind. */
  lemma {:induction false} SuccessMeansGone(
    c: Context, cached: map<string, string>, nodes: seq<Node>, faults: seq<Faults>, s: State)
    requires |faults| == |nodes| && TruthfulLookups(faults) && s.live <= c.names.Keys
    requires HandleAll(c, cached, nodes, faults, s).failures == 0
    ensures NothingLeft(c, nodes, HandleAll(c, cached, nodes, faults, s).state)
  {
    if nodes != [] {
      var n := |nodes| - 1;
      var before := HandleAll(c, cached, nodes[..n], faults[..n], s).state;
      SuccessMeansGone(c, cached, nodes[..n], faults[..n], s);
      BatchProgresses(c, cached, nodes[..n], faults[..n], s);
      DoneMeansGone(c, cached, nodes[n], faults[n], before);
      NodeProgresses(c, cached, nodes[n], faults[n], before);
      NothingLeftLater(c, nodes, before, HandleAll(c, cached, nodes, faults, s).state);
    }
  }

  /** With truthful lookups a Node that vanishes is one of the batch, its label agrees, and its instance is gone. */
  lemma {:induction false} VanishedNodesAreEmpty(
    c: Context, cached: map<string, string>, nodes: seq<Node>, faults: seq<Faults>, s: State, name: string)
    returns (k: nat)
    requires |faults| == |nodes| && TruthfulLookups(faults) && s.live <= c.names.Keys
    requires name in s.nodes && name !in HandleAll(c, cached, nodes, faults, s).state.nodes
    ensures k < |nodes| && nodes[k].name == name
    ensures StrictInstanceId(c.region, nodes[k].providerId) !in HandleAll(c, cached, nodes, faults, s).state.live
    ensures nodes[k].nodepool == "" || nodes[k].nodepool == c.g.nodepoolId
  {
    var n := |nodes| - 1;
    var before := HandleAll(c, cached, nodes[..n], faults[..n], s).state;
    BatchProgresses(c, cached, nodes[..n], faults[..n], s);
    NodeProgresses(c, cached, nodes[n], faults[n], before);
    if name in before.nodes {
      DoneMeansGone(c, cached, nodes[n], faults[n], before);
      k := n;
    } else {
      k := VanishedNodesAreEmpty(c, cached, nodes[..n], faults[..n], s, name);
    }
  }

  // ---- convergence under retry -----------------------------------------------------------------

  ghost function BatchIds(c: Context, nodes: seq<Node>): set<string> {
    set k | 0 <= k < |nodes| :: StrictInstanceId(c.region, nodes[k].providerId)
  }

  ghost function BatchNames(nodes: seq<Node>): set<string> {
    set k | 0 <= k < |nodes| :: nodes[k].name
  }

  /** A call only ever takes instances and Node objects of its batch away. */
  ghost predicate Progress(c: Context, nodes: seq<Node>, s: State, s': State) {
    && s'.live <= s.live && s.live <= s'.live + BatchIds(c, nodes)
    && s'.nodes <= s.nodes && s.nodes <= s'.nodes + BatchNames(nodes)
  }

  lemma NodeProgresses(c: Context, cached: map<string, string>, node: Node, f: Faults, s: State)
    ensures var s' := HandleNode(c, cached, node, f, s).state;
      && s'.live <= s.live <= s'.live + {StrictInstanceId(c.region, node.providerId)}
      && s'.nodes <= s.nodes <= s'.nodes + {node.name}
  {
  }

  lemma {:induction false} BatchProgresses(c: Context, cached: map<string, string>, nodes: seq<Node>,
    faults: seq<Faults>, s: State)
    requires |faults| == |nodes|
    ensures Progress(c, nodes, s, HandleAll(c, cached, nodes, faults, s).state)
  {
    if nodes != [] {
      var n := |nodes| - 1;
      BatchProgresses(c, cached, nodes[..n], faults[..n], s);
      NodeProgresses(c, cached, nodes[n], faults[n], HandleAll(c, cached, nodes[..n], faults[..n], s).state);
      LastOfBatch(c, nodes);
    }
  }

  lemma LastOfBatch(c: Context, nodes: seq<Node>)
    requires nodes != []
    ensures var n := |nodes| - 1;
      && BatchIds(c, nodes) == BatchIds(c, nodes[..n]) + {StrictInstanceId(c.region, nodes[n].providerId)}
      && BatchNames(nodes) == BatchNames(nodes[..n]) + {nodes[n].name}
  {
    assert forall k :: 0 <= k < |nodes| - 1 ==> nodes[..|nodes| - 1][k] == nodes[k];
  }

  /** A node that can be deleted: its label agrees or is absent, its id is well-formed, and its
      instance is gone or owned by the group. */
  ghost predicate Deletable(c: Context, node: Node, live: set<string>) {
    var id := StrictInstanceId(c.region, node.providerId);
    && (node.nodepool == "" || node.nodepool == c.g.nodepoolId)
    && id != "" && (id in live ==> OwnedByRequest(c, id))
  }

  /** The cache does not attribute the node's instance to another group. */
  ghost predicate CacheAgrees(c: Context, cached: map<string, string>, node: Node) {
    var id := StrictInstanceId(c.region, node.providerId);
    id in cached ==> cached[id] == c.g.id
  }

  /** Every node of the batch can be deleted, and the cache stands in the way of none. */
  ghost predicate AllDeletable(c: Context, cached: map<string, string>, nodes: seq<Node>, live: set<string>) {
    forall k :: 0 <= k < |nodes| ==> Deletable(c, nodes[k], live) && CacheAgrees(c, cached, nodes[k])
  }

  lemma AllDeletableButLast(c: Context, cached: map<string, string>, nodes: seq<Node>, live: set<string>)
    requires nodes != []
    ensures var n := |nodes| - 1;
      AllDeletable(c, cached, nodes, live) <==>
        AllDeletable(c, cached, nodes[..n], live) && Deletable(c, nodes[n], live) && CacheAgrees(c, cached, nodes[n])
  {
    assert forall k :: 0 <= k < |nodes| - 1 ==> nodes[..|nodes| - 1][k] == nodes[k];
  }

  /** Without API failures a deletable node is finished: its instance and its Node object are gone. */
  lemma CleanNode(c: Context, cached: map<string, string>, node: Node, f: Faults, s: State)
    requires Clean(f) && Deletable(c, node, s.live) && CacheAgrees(c, cached, node)
    ensures var h := HandleNode(c, cached, node, f, s);
      && !h.failed
      && h.state.live == s.live - {StrictInstanceId(c.region, node.providerId)}
      && h.state.nodes == s.nodes - if node.name == "" then {} else {node.name}
  {
  }

  /** Taking a batch away and then one more node is taking the longer batch away. */
  lemma TakenInTurn(c: Context, nodes: seq<Node>, s: State)
    requires nodes != []
    ensures var n := |nodes| - 1;
      && s.live - BatchIds(c, nodes)
         == s.live - BatchIds(c, nodes[..n]) - {StrictInstanceId(c.region, nodes[n].providerId)}
      && s.nodes - (BatchNames(nodes) - {""})
         == s.nodes - (BatchNames(nodes[..n]) - {""}) - if nodes[n].name == "" then {} else {nodes[n].name}
  {
    LastOfBatch(c, nodes);
  }

  lemma {:induction false} CleanBatch(c: Context, cached: map<string, string>, nodes: seq<Node>,
    faults: seq<Faults>, s: State)
    requires |faults| == |nodes| && forall k :: 0 <= k < |nodes| ==> Clean(faults[k])
    requires AllDeletable(c, cached, nodes, s.live)
    ensures var batch := HandleAll(c, cached, nodes, faults, s);
      && batch.failures == 0
      && batch.state == State(s.live - BatchIds(c, nodes), s.nodes - (BatchNames(nodes) - {""}))
  {
    if nodes != [] {
      var n := |nodes| - 1;
      AllDeletableButLast(c, cached, nodes, s.live);
      CleanBatch(c, cached, nodes[..n], faults[..n], s);
      var before := HandleAll(c, cached, nodes[..n], faults[..n], s).state;
      CleanNode(c, cached, nodes[n], faults[n], before);
      TakenInTurn(c, nodes, s);
    }
  }

  /** A clean call leaves a node unfinished exactly when the node is not deletable or the cache attributes
      its instance to another group; an unfinished node changes nothing. */
  lemma CleanNodeExactly(c: Context, cached: map<string, string>, node: Node, f: Faults, s: State)
    requires Clean(f) && Configured(c) && Honest(c, cached) && s.live <= c.names.Keys
    ensures var h := HandleNode(c, cached, node, f, s);
      && (h.failed <==> !(Deletable(c, node, s.live) && CacheAgrees(c, cached, node)))
      && (h.failed ==> h.state == s)
  {
    var id := StrictInstanceId(c.region, node.providerId);
    if id in c.names {
      OwnerIsGroup(c, c.names[id]);
    }
  }

  /** Earlier nodes of a batch do not change whether a node is deletable. */
  lemma DeletableAnyway(c: Context, cached: map<string, string>, nodes: seq<Node>, faults: seq<Faults>,
    s: State, node: Node)
    requires |faults| == |nodes| && Configured(c) && Honest(c, cached)
    ensures Deletable(c, node, HandleAll(c, cached, nodes, faults, s).state.live) <==> Deletable(c, node, s.live)
  {
    var id := StrictInstanceId(c.region, node.providerId);
    BatchProgresses(c, cached, nodes, faults, s);
    if id in s.live && id !in HandleAll(c, cached, nodes, faults, s).state.live {
      var k := BatchTakesOnlyOwned(c, cached, nodes, faults, s, id);
    }
  }

  /** A clean call fails exactly when some node of the batch could not be deleted to begin with. */
  lemma {:induction false} CleanBatchExactly(c: Context, cached: map<string, string>, nodes: seq<Node>,
    faults: seq<Faults>, s: State)
    requires |faults| == |nodes| && forall k :: 0 <= k < |nodes| ==> Clean(faults[k])
    requires Configured(c) && Honest(c, cached) && s.live <= c.names.Keys
    ensures HandleAll(c, cached, nodes, faults, s).failures == 0 <==> AllDeletable(c, cached, nodes, s.live)
  {
    if nodes != [] {
      var n := |nodes| - 1;
      var before := HandleAll(c, cached, nodes[..n], faults[..n], s).state;
      CleanBatchExactly(c, cached, nodes[..n], faults[..n], s);
      DeletableAnyway(c, cached, nodes[..n], faults[..n], s, nodes[n]);
      BatchProgresses(c, cached, nodes[..n], faults[..n], s);
      CleanNodeExactly(c, cached, nodes[n], faults[n], before);
      AllDeletableButLast(c, cached, nodes, s.live);
    }
  }

  /** One attempt at the batch: the cache it used and the failures it met. */
  datatype Attempt = Attempt(cached: map<string, string>, faults: seq<Faults>)

  ghost function AfterAttempts(c: Context, nodes: seq<Node>, attempts: seq<Attempt>, s: State): State
    requires forall a :: 0 <= a < |attempts| ==> |attempts[a].faults| == |nodes|
  {
    if |attempts| == 0 then s
    else
      var n := |attempts| - 1;
      HandleAll(c, attempts[n].cached, nodes, attempts[n].faults, AfterAttempts(c, nodes, attempts[..n], s)).state
  }

  lemma {:induction false} AttemptsProgress(c: Context, nodes: seq<Node>, attempts: seq<Attempt>, s: State)
    requires forall a :: 0 <= a < |attempts| ==> |attempts[a].faults| == |nodes|
    ensures Progress(c, nodes, s, AfterAttempts(c, nodes, attempts, s))
  {
    if attempts != [] {
      var n := |attempts| - 1;
      AttemptsProgress(c, nodes, attempts[..n], s);
      BatchProgresses(c, attempts[n].cached, nodes, attempts[n].faults, AfterAttempts(c, nodes, attempts[..n], s));
    }
  }

  /** After any number of attempts, failing in any way, the first attempt without API failures
      succeeds; then exactly the batch's instances and named Node objects are gone. */
  lemma RetriesConverge(c: Context, nodes: seq<Node>, attempts: seq<Attempt>, last: Attempt, s: State)
    requires forall a :: 0 <= a < |attempts| ==> |attempts[a].faults| == |nodes|
    requires |last.faults| == |nodes| && forall k :: 0 <= k < |nodes| ==> Clean(last.faults[k])
    requires AllDeletable(c, last.cached, nodes, s.live)
    requires "" !in s.nodes
    ensures var batch := HandleAll(c, last.cached, nodes, last.faults, AfterAttempts(c, nodes, attempts, s));
      && batch.failures == 0
      && batch.state == State(s.live - BatchIds(c, nodes), s.nodes - BatchNames(nodes))
  {
    AttemptsProgress(c, nodes, attempts, s);
    var before := AfterAttempts(c, nodes, attempts, s);
    CleanBatch(c, last.cached, nodes, last.faults, before);
    assert before.live - BatchIds(c, nodes) == s.live - BatchIds(c, nodes);
    assert before.nodes - (BatchNames(nodes) - {""}) == s.nodes - BatchNames(nodes);
  }

  ghost predicate HonestAttempts(c: Context, nodes: seq<Node>, attempts: seq<Attempt>) {
    forall a :: 0 <= a < |attempts| ==> |attempts[a].faults| == |nodes| && Honest(c, attempts[a].cached)
  }

  /** Failing attempts never make a node deletable, nor stop it from being so. */
  lemma {:induction false} DeletableAfterAttempts(
    c: Context, nodes: seq<Node>, attempts: seq<Attempt>, s: State, node: Node)
    requires Configured(c) && HonestAttempts(c, nodes, attempts)
    ensures Deletable(c, node, AfterAttempts(c, nodes, attempts, s).live) <==> Deletable(c, node, s.live)
  {
    if attempts != [] {
      var n := |attempts| - 1;
      DeletableAfterAttempts(c, nodes, attempts[..n], s, node);
      var before := AfterAttempts(c, nodes, attempts[..n], s);
      DeletableAnyway(c, attempts[n].cached, nodes, attempts[n].faults, before, node);
    }
  }

  /** After any number of failing attempts, the first one without API failures succeeds if and only if every
      node was deletable to begin with and its cache attributes no instance of the batch to another group. */
  lemma RetrySucceedsExactly(c: Context, nodes: seq<Node>, attempts: seq<Attempt>, last: Attempt, s: State)
    requires Configured(c) && HonestAttempts(c, nodes, attempts) && s.live <= c.names.Keys
    requires |last.faults| == |nodes| && Honest(c, last.cached)
    requires forall k :: 0 <= k < |nodes| ==> Clean(last.faults[k])
    ensures HandleAll(c, last.cached, nodes, last.faults, AfterAttempts(c, nodes, attempts, s)).failures == 0 <==>
      forall k :: 0 <= k < |nodes| ==>
        var node, id := nodes[k], StrictInstanceId(c.region, nodes[k].providerId);
        && (node.nodepool == "" || node.nodepool == c.g.nodepoolId)
        && id != "" && (id in s.live ==> id in c.names && Owner(c.groups, c.names[id]) == Some(c.g))
        && (id in last.cached ==> last.cached[id] == c.g.id)
  {
    var before := AfterAttempts(c, nodes, attempts, s);
    AttemptsProgress(c, nodes, attempts, s);
    CleanBatchExactly(c, last.cached, nodes, last.faults, before);
    forall k | 0 <= k < |nodes|
      ensures Deletable(c, nodes[k], before.live) <==> Deletable(c, nodes[k], s.live)
    {
      DeletableAfterAttempts(c, nodes, attempts, s, nodes[k]);
    }
  }
}
