/** Guarded orders: the ceiling and deadline gates, outcome classes, and the per-group order state
    (ens.go, reservations.go, and NodeGroupIncreaseSize in server.go). */
module Orders {
  import opened Prelude
  import opened Reservations
  import opened ReservationHistory
  import Ownership

  // ---- the ceiling gate ------------------------------------------------------------------------

  /** The ceiling decision adds in 32 bits, like the source. */
  predicate MaxGuard(owned: int, count: int32, max: int32) {
    !(Wrap32(Wrap32(owned) + count) > max)
  }

  /** The guard is the intended comparison exactly when the sum fits in 32 bits. */
  lemma MaxGuardExact(owned: nat, count: int32, max: int32)
    requires owned <= MAX_INT32 && 0 < count && 0 <= max
    ensures (MaxGuard(owned, count, max) <==> owned + count <= max) <==> owned + count <= MAX_INT32
  {
    if owned + count > MAX_INT32 {
      assert Wrap32(owned + count) == owned + count - 0x1_0000_0000;
    }
  }

  /** What the guard decides for every count, without wrap-around in the statement: the sum of the owned
      and the ordered instances, taken modulo 2^32, is at most the maximum or in the negative half. */
  lemma MaxGuardModular(owned: nat, count: int32, max: int32)
    requires 0 < count && 0 <= max
    ensures MaxGuard(owned, count, max) <==>
      (owned + count) % 0x1_0000_0000 <= max || (owned + count) % 0x1_0000_0000 >= 0x8000_0000
  {
    var low := Wrap32(owned);
    var turns := (owned + 0x8000_0000) / 0x1_0000_0000;
    assert low == owned - turns * 0x1_0000_0000;
  }

  /** Beyond 32 bits the guard lets an order through: one instance owned, a maximum of four, and the
      largest possible increase. */
  lemma MaxGuardWraps()
    ensures MaxGuard(1, MAX_INT32, 4) && 1 + MAX_INT32 > 4
  {
    assert Wrap32(1 + MAX_INT32) == -0x8000_0000;
  }

  // ---- the deadline gate -----------------------------------------------------------------------

  const ORDER_READ_TIMEOUT_MS := 60000
  const MIN_REMAINING := 500 * MILLISECOND

  datatype Caller = Caller(dead: bool, deadline: Option<Time>)

  datatype Refusal = DeadCaller | NearlyDead(remaining: int)

  /** The read timeout in milliseconds the submit must use, or a refusal. */
  function OrderBudget(caller: Caller, now: Time): Result<int, Refusal> {
    if caller.dead then Err(DeadCaller)
    else match caller.deadline
      case None => Ok(ORDER_READ_TIMEOUT_MS)
      case Some(deadline) =>
        var remaining := Since(deadline, now);
        if remaining <= MIN_REMAINING then Err(NearlyDead(remaining)) else Ok(remaining / MILLISECOND)
  }

  /** A caller is served exactly when it is alive and has more than half a second left. A deadline
      caller gets at least 500 ms and never more than it has left; it loses less than a millisecond
      unless its deadline lies beyond what a 64-bit duration can hold. */
  lemma OrderBudgetExact(caller: Caller, now: Time)
    ensures OrderBudget(caller, now).Ok? <==>
      !caller.dead && (caller.deadline.Some? ==> caller.deadline.value - now > 500 * MILLISECOND)
    ensures OrderBudget(caller, now).Ok? && caller.deadline.Some? ==>
      var remaining, ms := caller.deadline.value - now, OrderBudget(caller, now).value;
      && 500 <= ms && ms * MILLISECOND <= remaining
      && (remaining < (ms + 1) * MILLISECOND <==> remaining < 9_223_372_036_855 * MILLISECOND)
    ensures OrderBudget(caller, now).Ok? && caller.deadline.None? ==>
      OrderBudget(caller, now).value == 60_000
    ensures OrderBudget(caller, now) == Err(DeadCaller) <==> caller.dead
  {
  }

  // ---- outcome classes -------------------------------------------------------------------------

  datatype Outcome = Rejected | Accepted | Uncertain

  datatype Submission = Submission(ids: seq<string>, outcome: Outcome, failed: bool)

  /** What the create call returned: the confirmed ids, a definite refusal, or a transport failure
      after which the order may have been accepted. */
  datatype Rpc = Confirmed(ids: seq<string>) | Refused | Ambiguous

  /** One look while reconciling an ambiguous order by listing. */
  datatype Poll = Cancelled | Failed | Listing(all: seq<Instance>)

  predicate Complete(poll: Poll, op: string, want: int32) {
    poll.Listing? && Wrap32(|Claimed(poll.all, op)|) >= want
  }

  /** The first `a` looks neither ended the wait nor were cancelled. */
  predicate StillWaiting(polls: seq<Poll>, a: nat, op: string, want: int32)
    requires a <= |polls|
  {
    forall b :: 0 <= b < a ==> !polls[b].Cancelled? && !Complete(polls[b], op, want)
  }

  /** The ids a reconciliation by listing settles on: the first look that is cancelled or complete decides,
      and the final look if none is. */
  function AwaitedIds(op: string, want: int32, polls: seq<Poll>, final: Poll): seq<string> {
    if polls == [] then if final.Listing? then Ids(Claimed(final.all, op)) else []
    else if polls[0].Cancelled? then []
    else if Complete(polls[0], op, want) then Ids(Claimed(polls[0].all, op))
    else AwaitedIds(op, want, polls[1..], final)
  }

  /** Which look decides: those before it failed or showed fewer instances of the operation than wanted; it is
      the first that is cancelled or shows enough, or the final one if there is no such. */
  lemma {:induction false} AwaitedExactly(op: string, want: int32, polls: seq<Poll>, final: Poll, a: nat)
    requires a <= |polls|
    requires forall b :: 0 <= b < a ==> !polls[b].Cancelled?
    requires forall b :: 0 <= b < a && polls[b].Listing? ==> Wrap32(|Claimed(polls[b].all, op)|) < want
    ensures a < |polls| && polls[a].Cancelled? ==> AwaitedIds(op, want, polls, final) == []
    ensures a < |polls| && polls[a].Listing? && Wrap32(|Claimed(polls[a].all, op)|) >= want ==>
      AwaitedIds(op, want, polls, final) == Ids(Claimed(polls[a].all, op))
    ensures a == |polls| && final.Listing? ==> AwaitedIds(op, want, polls, final) == Ids(Claimed(final.all, op))
    ensures a == |polls| && !final.Listing? ==> AwaitedIds(op, want, polls, final) == []
  {
    if a > 0 {
      assert forall b :: 0 <= b < a - 1 ==> polls[1..][b] == polls[b + 1];
      AwaitedExactly(op, want, polls[1..], final, a - 1);
    }
  }

  /** Every settled id is of an instance of this operation that one of the looks listed. */
  lemma {:induction false} AwaitedAreListed(op: string, want: int32, polls: seq<Poll>, final: Poll)
    ensures var ids := AwaitedIds(op, want, polls, final);
      ids == [] || exists poll :: poll in polls + [final] && poll.Listing? && ids == Ids(Claimed(poll.all, op))
  {
    if polls == [] {
      assert final in polls + [final];
    } else if !polls[0].Cancelled? {
      assert polls[0] in polls + [final];
      AwaitedAreListed(op, want, polls[1..], final);
      assert polls[1..] + [final] == (polls + [final])[1..];
    }
  }

  method AwaitOpInstances(op: string, want: int32, polls: seq<Poll>, final: Poll) returns (ids: seq<string>)
    ensures forall a :: 0 <= a < |polls| && StillWaiting(polls, a, op, want) && polls[a].Cancelled? ==> ids == []
    ensures forall a :: 0 <= a < |polls| && StillWaiting(polls, a, op, want) && Complete(polls[a], op, want) ==>
      ids == Ids(Claimed(polls[a].all, op))
    ensures StillWaiting(polls, |polls|, op, want) ==>
      ids == if final.Listing? then Ids(Claimed(final.all, op)) else []
    ensures ids == AwaitedIds(op, want, polls, final)
  {
    for a := 0 to |polls|
      invariant StillWaiting(polls, a, op, want)
      invariant AwaitedIds(op, want, polls, final) == AwaitedIds(op, want, polls[a..], final)
    {
      match polls[a] {
        case Cancelled => return [];
        case Failed =>
        case Listing(all) =>
          ids := InstancesWithPrefix(all, op);
          if Wrap32(|ids|) >= want {
            return;
          }
      }
    }
    ids := [];
    if final.Listing? {
      ids := InstancesWithPrefix(final.all, op);
    }
  }

  /** Classifies an order: rejected exactly on a definite refusal, and an ambiguous one counts as
      accepted only when a listing showed exactly the ordered number of its instances. Its ids are what
      the reconciliation settled on, in either case. */
  method SubmitOrder(rpc: Rpc, op: string, count: int32, polls: seq<Poll>, final: Poll) returns (s: Submission)
    ensures s.outcome == Rejected <==> rpc.Refused?
    ensures s.failed <==> s.outcome != Accepted
    ensures rpc.Confirmed? ==> s == Submission(rpc.ids, Accepted, false)
    ensures rpc.Refused? ==> s.ids == []
    ensures rpc.Ambiguous? ==> s.ids == AwaitedIds(op, count, polls, final)
    ensures rpc.Ambiguous? ==> (s.outcome == Accepted <==> Wrap32(|s.ids|) == count)
    ensures rpc.Ambiguous? ==> forall a :: 0 <= a < |polls| && StillWaiting(polls, a, op, count) ==>
      Complete(polls[a], op, count) && |Claimed(polls[a].all, op)| == count ==> s.outcome == Accepted
  {
    match rpc {
      case Confirmed(ids) => return Submission(ids, Accepted, false);
      case Refused => return Submission([], Rejected, true);
      case Ambiguous =>
        var ids := AwaitOpInstances(op, count, polls, final);
        if Wrap32(|ids|) == count {
          return Submission(ids, Accepted, false);
        }
        return Submission(ids, Uncertain, true);
    }
  }

  // ---- one guarded order -----------------------------------------------------------------------

  datatype Order = Order(op: string, count: int32, max: int32, now: Time)

  /** The world an order meets: its inventory, its caller, the clock at the deadline gate, and what a
      submit with a given budget would do. */
  datatype Surroundings = Surroundings(
    inventory: Result<seq<Instance>, string>, caller: Caller, clock: Time, submit: int -> Submission)

  datatype Reply =
    | InventoryFailed(message: string)
    | CeilingRefused
    | CallerRefused(refusal: Refusal)
    | Submitted(budget: int, submission: Submission)

  /** The whole effect of a guarded order on the ledger of its group. */
  ghost predicate GuardedOrder(before: Ledger, after: Ledger, o: Order, s: Surroundings, reply: Reply) {
    if s.inventory.Err? then reply == InventoryFailed(s.inventory.error) && after == before
    else
      var settled := Reconciled(before, s.inventory.value, o.now);
      if !MaxGuard(Effective(before, s.inventory.value, o.now), o.count, o.max) then
        reply == CeilingRefused && after == settled
      else match OrderBudget(s.caller, s.clock)
        case Err(refusal) => reply == CallerRefused(refusal) && after == settled
        case Ok(budget) =>
          && reply == Submitted(budget, s.submit(budget))
          && after == if s.submit(budget).outcome == Rejected then settled - {o.op}
                      else settled[o.op := Reservation(o.count, o.now, 0)]
  }

  method ExecuteGuardedOrder(state: GroupOrderState, o: Order, s: Surroundings) returns (reply: Reply)
    modifies state
    ensures GuardedOrder(old(state.reservations), state.reservations, o, s, reply)
  {
    if s.inventory.Err? {
      return InventoryFailed(s.inventory.error);
    }
    var effective := state.EffectiveOwned(s.inventory.value, o.now);
    if !MaxGuard(effective, o.count, o.max) {
      return CeilingRefused;
    }
    var budget := OrderBudget(s.caller, s.clock);
    if budget.Err? {
      return CallerRefused(budget.error);
    }
    ghost var settled := state.reservations;
    state.reservations := state.reservations[o.op := Reservation(o.count, o.now, 0)];
    var submission := s.submit(budget.value);
    if submission.outcome == Rejected {
      state.reservations := state.reservations - {o.op};
      assert state.reservations == settled - {o.op};
    }
    reply := Submitted(budget.value, submission);
  }

  /** The ledger events behind a reply. */
  ghost function LedgerEvents(o: Order, s: Surroundings, reply: Reply): seq<Event> {
    if s.inventory.Err? then []
    else
      [Reconcile(s.inventory.value, o.now)]
      + (if reply.Submitted? then [Reserve(o.op, o.count, o.now)] else [])
      + if reply.Submitted? && reply.submission.outcome == Rejected then [Reject(o.op)] else []
  }

  lemma {:induction false} ReplayOne(m: Ledger, e: Event)
    ensures Replay(m, [e]) == Apply(m, e)
  {
    assert [e][..0] == [];
  }

  lemma {:induction false} ReplayMore(m: Ledger, history: seq<Event>, e: Event)
    ensures Replay(m, history + [e]) == Apply(Replay(m, history), e)
  {
    assert (history + [e])[..|history|] == history;
  }

  /** Every guarded order is a piece of ledger history, so all history lemmas speak about orders. */
  lemma {:induction false} GuardedOrderIsHistory(before: Ledger, after: Ledger, o: Order, s: Surroundings, reply: Reply)
    requires GuardedOrder(before, after, o, s, reply)
    ensures after == Replay(before, LedgerEvents(o, s, reply))
  {
    if s.inventory.Ok? {
      var first := Reconcile(s.inventory.value, o.now);
      ReplayOne(before, first);
      if reply.Submitted? {
        ReplayMore(before, [first], Reserve(o.op, o.count, o.now));
        if reply.submission.outcome == Rejected {
          ReplayMore(before, [first] + [Reserve(o.op, o.count, o.now)], Reject(o.op));
          assert LedgerEvents(o, s, reply) == [first] + [Reserve(o.op, o.count, o.now)] + [Reject(o.op)];
        } else {
          assert LedgerEvents(o, s, reply) == [first] + [Reserve(o.op, o.count, o.now)];
        }
      } else {
        assert LedgerEvents(o, s, reply) == [first];
      }
    }
  }

  /** The exact outcome of an order, whatever its surroundings: which gate decides, what is submitted with which
      budget, that only a submitted and not rejected order leaves a reservation of its own, that a failed
      inventory changes nothing, and that every other reservation is exactly the reconciled one. */
  lemma OrderOutcome(before: Ledger, after: Ledger, o: Order, s: Surroundings, reply: Reply)
    requires GuardedOrder(before, after, o, s, reply)
    requires o.op !in before
    ensures o.op in after <==> reply.Submitted? && reply.submission.outcome != Rejected
    ensures o.op in after ==> after[o.op] == Reservation(o.count, o.now, 0)
    ensures reply.InventoryFailed? <==> s.inventory.Err?
    ensures reply.InventoryFailed? ==> after == before && reply.message == s.inventory.error
    ensures reply.CeilingRefused? <==>
      s.inventory.Ok? && !MaxGuard(Effective(before, s.inventory.value, o.now), o.count, o.max)
    ensures reply.CallerRefused? <==>
      && s.inventory.Ok? && MaxGuard(Effective(before, s.inventory.value, o.now), o.count, o.max)
      && (s.caller.dead || (s.caller.deadline.Some? && s.caller.deadline.value - s.clock <= 500 * MILLISECOND))
    ensures reply.Submitted? <==>
      && s.inventory.Ok? && MaxGuard(Effective(before, s.inventory.value, o.now), o.count, o.max)
      && !s.caller.dead && (s.caller.deadline.Some? ==> s.caller.deadline.value - s.clock > 500 * MILLISECOND)
    ensures reply.Submitted? ==> reply.submission == s.submit(reply.budget)
    ensures reply.Submitted? && s.caller.deadline.None? ==> reply.budget == 60_000
    ensures s.inventory.Ok? ==>
      var effective := Effective(before, s.inventory.value, o.now);
      0 <= effective && 0 < o.count && effective + o.count <= MAX_INT32 ==>
        (reply.CeilingRefused? <==> effective + o.count > o.max)
    ensures s.inventory.Ok? ==> forall other :: other != o.op ==>
      && (other in after <==> other in Reconciled(before, s.inventory.value, o.now))
      && (other in after ==> after[other] == Reconciled(before, s.inventory.value, o.now)[other])
    ensures after.Keys - {o.op} <= before.Keys
    ensures reply.Submitted? && s.caller.deadline.Some? ==>
      && 500 <= reply.budget && reply.budget * MILLISECOND <= s.caller.deadline.value - s.clock
      && !s.caller.dead
    ensures forall other :: other in after && other != o.op ==>
      after[other].expected == before[other].expected && after[other].created == before[other].created
  {
    OrderBudgetExact(s.caller, s.clock);
  }

  /** Which gate decides, and the one reservation an order may add. */
  lemma GatesDecide(before: Ledger, after: Ledger, o: Order, s: Surroundings, reply: Reply)
    requires GuardedOrder(before, after, o, s, reply)
    ensures reply.CeilingRefused? <==>
      s.inventory.Ok? && !MaxGuard(Effective(before, s.inventory.value, o.now), o.count, o.max)
    ensures reply.Submitted? <==>
      && s.inventory.Ok? && MaxGuard(Effective(before, s.inventory.value, o.now), o.count, o.max)
      && OrderBudget(s.caller, s.clock).Ok?
    ensures forall op :: op in after && op !in before ==>
      && op == o.op && reply.Submitted? && reply.submission.outcome != Rejected
      && after[op] == Reservation(o.count, o.now, 0)
  {
  }

  // ---- the order states of all groups ----------------------------------------------------------

  class Cloud {
    var orders: map<string, GroupOrderState>

    /** Every group has an order state of its own. */
    ghost predicate Valid()
      reads this
    {
      forall a, b :: a in orders && b in orders && a != b ==> orders[a] != orders[b]
    }

    /** The ledger a group has now; a group that never ordered has an empty one. */
    ghost function LedgerOf(id: string): Ledger
      reads this, orders.Values
    {
      if id in orders then orders[id].reservations else map[]
    }

    constructor ()
      ensures Valid() && orders == map[]
    {
      orders := map[];
    }

    method OrderState(id: string) returns (state: GroupOrderState)
      requires Valid()
      modifies this
      ensures Valid() && id in orders && state == orders[id]
      ensures old(orders).Keys <= orders.Keys == old(orders).Keys + {id}
      ensures forall other :: other in old(orders) ==> orders[other] == old(orders)[other]
      ensures id !in old(orders) ==> fresh(state) && state.reservations == map[]
    {
      if id !in orders {
        var created := new GroupOrderState();
        orders := orders[id := created];
      }
      state := orders[id];
    }

    /** Orders `count` instances for a group: nothing is ordered without a preparation, and then nothing
        changes; a prepared order is a guarded order on the group's ledger, and no other ledger changes. */
    method RunInstances(g: Ownership.Group, count: int32, now: Time, p: Preparation, s: Surroundings)
      returns (r: Attempt)
      requires Valid()
      modifies this, orders.Values
      ensures Valid()
      ensures r.NothingToOrder? <==> count <= 0
      ensures r.Unprepared? <==> count > 0 && (!p.userdataOk || p.opId.None?)
      ensures !r.Ordered? ==> LedgerOf(g.id) == old(LedgerOf(g.id))
      ensures r.Ordered? ==> GuardedOrder(old(LedgerOf(g.id)), LedgerOf(g.id), OrderOf(g, count, now, p), s, r.reply)
      ensures r.Ordered? ==>
        (r.reply.CeilingRefused? <==>
           s.inventory.Ok? && !MaxGuard(Effective(old(LedgerOf(g.id)), s.inventory.value, now), count, g.max))
      ensures r.Ordered? && r.reply.Submitted? ==>
        s.inventory.Ok? && MaxGuard(Effective(old(LedgerOf(g.id)), s.inventory.value, now), count, g.max)
      ensures forall op :: op in LedgerOf(g.id) && op !in old(LedgerOf(g.id)) ==>
        && r.Ordered? && r.reply.Submitted? && r.reply.submission.outcome != Rejected
        && op == g.namePrefix + "-op" + p.opId.value + "-" + p.stamp && LedgerOf(g.id)[op] == Reservation(count, now, 0)
      ensures forall other :: other != g.id ==> LedgerOf(other) == old(LedgerOf(other))
    {
      if count <= 0 {
        return NothingToOrder;
      }
      if !p.userdataOk || p.opId.None? {
        return Unprepared;
      }
      var state := OrderState(g.id);
      var o := OrderOf(g, count, now, p);
      var reply := ExecuteGuardedOrder(state, o, s);
      OrderOfIsFor(g, count, now, p);
      GatesDecide(old(LedgerOf(g.id)), LedgerOf(g.id), o, s, reply);
      r := Ordered(reply);
    }

    /** The size increase RPC: an advisory check on the cached count, then the guarded order. Each way it can
        end has its code, and whenever no order was submitted only reconciling may have changed a ledger. */
    method IncreaseSize(groups: seq<Ownership.Group>, id: string, delta: int32,
                        cached: Result<seq<Instance>, string>, now: Time, p: Preparation, s: Surroundings)
      returns (code: Code)
      requires Valid()
      modifies this, orders.Values
      ensures Valid()
      ensures forall other :: other != id ==> LedgerOf(other) == old(LedgerOf(other))
      ensures code == NotFound <==> forall g :: g in groups ==> g.id != id
      ensures code == NotFound ==> LedgerOf(id) == old(LedgerOf(id))
      ensures var g := Ownership.GroupById(groups, id);
        g.Some? ==>
          if cached.Err? || (MaxGuard(|cached.value|, delta, g.value.max) && delta > 0 && !Prepared(p)) then
            code == Internal && LedgerOf(id) == old(LedgerOf(id))
          else if !MaxGuard(|cached.value|, delta, g.value.max) then
            code == OutOfRange && LedgerOf(id) == old(LedgerOf(id))
          else if delta <= 0 then
            code == Done && LedgerOf(id) == old(LedgerOf(id))
          else
            exists reply ::
              && GuardedOrder(old(LedgerOf(id)), LedgerOf(id), OrderOf(g.value, delta, now, p), s, reply)
              && code == CodeOf(reply)
      ensures var g := Ownership.GroupById(groups, id);
        code == OutOfRange <==>
          && g.Some? && cached.Ok?
          && (|| !MaxGuard(|cached.value|, delta, g.value.max)
              || (&& delta > 0 && p.userdataOk && p.opId.Some? && s.inventory.Ok?
                  && !MaxGuard(Effective(old(LedgerOf(id)), s.inventory.value, now), delta, g.value.max)))
      ensures var g := Ownership.GroupById(groups, id);
        code == Done <==>
          && g.Some? && cached.Ok? && MaxGuard(|cached.value|, delta, g.value.max)
          && (delta > 0 ==>
                && p.userdataOk && p.opId.Some? && s.inventory.Ok?
                && MaxGuard(Effective(old(LedgerOf(id)), s.inventory.value, now), delta, g.value.max)
                && OrderBudget(s.caller, s.clock).Ok? && !s.submit(OrderBudget(s.caller, s.clock).value).failed)
      ensures forall op :: op in LedgerOf(id) && op !in old(LedgerOf(id)) ==>
        var g := Ownership.GroupById(groups, id);
        && g.Some? && p.opId.Some? && op == g.value.namePrefix + "-op" + p.opId.value + "-" + p.stamp
        && LedgerOf(id)[op] == Reservation(delta, now, 0)
      ensures var g := Ownership.GroupById(groups, id);
        g.Some? && code == Done && delta > 0 && Truthful(s) ==>
          && Prepared(p) && OrderOf(g.value, delta, now, p).op in LedgerOf(id)
          && LedgerOf(id)[OrderOf(g.value, delta, now, p).op] == Reservation(delta, now, 0)
    {
      Ownership.GroupByIdExactly(groups, id);
      var g := Ownership.FindGroup(groups, id);
      if g.None? {
        return NotFound;
      }
      if cached.Err? {
        return Internal;
      }
      if !MaxGuard(|cached.value|, delta, g.value.max) {
        return OutOfRange;
      }
      var r := RunInstances(g.value, delta, now, p, s);
      match r {
        case NothingToOrder => code := Done;
        case Unprepared => code := Internal;
        case Ordered(reply) => code := CodeOf(reply);
      }
    }
  }

  /** What precedes an order: the userdata of the new nodes, the random operation id, and the Unix second. */
  datatype Preparation = Preparation(userdataOk: bool, opId: Option<string>, stamp: string)

  predicate Prepared(p: Preparation) {
    p.userdataOk && p.opId.Some?
  }

  function OrderOf(g: Ownership.Group, count: int32, now: Time, p: Preparation): Order
    requires Prepared(p)
  {
    Order(Ownership.OperationName(g.namePrefix, p.opId.value, p.stamp), count, g.max, now)
  }

  /** An order carries the group's own maximum, and a name under its prefix. */
  lemma OrderOfIsFor(g: Ownership.Group, count: int32, now: Time, p: Preparation)
    requires Prepared(p)
    ensures OrderOf(g, count, now, p).max == g.max && OrderOf(g, count, now, p).count == count
    ensures OrderOf(g, count, now, p).op == g.namePrefix + "-op" + p.opId.value + "-" + p.stamp
    ensures g.namePrefix <= OrderOf(g, count, now, p).op
  {
    var name := g.namePrefix + "-op" + p.opId.value + "-" + p.stamp;
    assert OrderOf(g, count, now, p).op == name;
  }

  datatype Attempt = NothingToOrder | Unprepared | Ordered(reply: Reply)

  /** Every submit reports a failure exactly for an order that did not count as accepted, as `SubmitOrder`
      does. */
  ghost predicate Truthful(s: Surroundings) {
    forall budget :: s.submit(budget).failed <==> s.submit(budget).outcome != Accepted
  }

  datatype Code = Done | NotFound | OutOfRange | Internal

  function CodeOf(reply: Reply): Code {
    match reply
    case CeilingRefused => OutOfRange
    case Submitted(_, submission) => if submission.failed then Internal else Done
    case _ => Internal
  }
}
