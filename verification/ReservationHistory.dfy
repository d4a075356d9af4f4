/** The life of one reservation over any history of inventories, orders and rejections. */
module ReservationHistory {
  import opened Prelude
  import opened Reservations

  /** Everything that can happen to the ledger of a group while its lock is held. */
  datatype Event =
    | Reconcile(owned: seq<Instance>, now: Time)
    | Reserve(op: string, count: int32, now: Time)
    | Reject(op: string)

  function Apply(m: Ledger, e: Event): Ledger {
    match e
    case Reconcile(owned, now) => Reconciled(m, owned, now)
    case Reserve(op, count, now) => m[op := Reservation(count, now, 0)]
    case Reject(op) => m - {op}
  }

  function Replay(m: Ledger, history: seq<Event>): Ledger {
    if |history| == 0 then m
    else Apply(Replay(m, history[..|history| - 1]), history[|history| - 1])
  }

  /** The operation was ordered by the first event and its name is not used again. */
  ghost predicate OrderedOnce(history: seq<Event>, op: string, count: int32, created: Time) {
    && 0 < |history| && history[0] == Reserve(op, count, created)
    && forall k :: 0 < k < |history| && history[k].Reserve? ==> history[k].op != op
  }

  /** How many inventories in a row, up to now, showed nothing of the operation. */
  function EmptyLooks(history: seq<Event>, op: string): nat {
    if |history| == 0 then 0
    else
      var before := EmptyLooks(history[..|history| - 1], op);
      match history[|history| - 1]
      case Reconcile(owned, _) => if VisibleOf(owned, op) == 0 then before + 1 else 0
      case Reserve(name, _, _) => if name == op then 0 else before
      case Reject(_) => before
  }

  /** What removes the reservation: full visibility, expiry, or a definite rejection. */
  predicate Leaves(op: string, count: int32, created: Time, emptyBefore: nat, e: Event) {
    match e
    case Reconcile(owned, now) =>
      || VisibleOf(owned, op) >= count
      || (VisibleOf(owned, op) == 0 && emptyBefore >= 1 && Since(now, created) >= RESERVATION_TTL)
    case Reserve(_, _, _) => false
    case Reject(name) => name == op
  }

  /** While it lives, a reservation remembers its order, and its miss counter is exactly the number
      of consecutive empty inventories. */
  lemma {:induction false} LiveReservation(m: Ledger, history: seq<Event>, op: string, count: int32, created: Time)
    requires OrderedOnce(history, op, count, created)
    requires op in Replay(m, history)
    ensures Replay(m, history)[op] == Reservation(count, created, EmptyLooks(history, op))
  {
    if |history| > 1 {
      LiveReservation(m, history[..|history| - 1], op, count, created);
    }
  }

  /** A live reservation leaves the ledger in one step exactly for one of the listed reasons. */
  lemma LeavesExactlyBy(m: Ledger, history: seq<Event>, e: Event, op: string, count: int32, created: Time)
    requires OrderedOnce(history, op, count, created)
    requires e.Reserve? ==> e.op != op
    requires op in Replay(m, history)
    ensures op !in Replay(m, history + [e]) <==> Leaves(op, count, created, EmptyLooks(history, op), e)
  {
    LiveReservation(m, history, op, count, created);
    assert (history + [e])[..|history|] == history;
  }

  /** The reasons in full: an inventory that shows all of it, a second empty inventory past fifteen minutes, or
      its rejection. */
  lemma LeavesFor(m: Ledger, history: seq<Event>, e: Event, op: string, count: int32, created: Time)
    requires OrderedOnce(history, op, count, created)
    requires e.Reserve? ==> e.op != op
    requires op in Replay(m, history)
    ensures e.Reconcile? && |e.owned| <= MAX_INT32 ==>
      (op !in Replay(m, history + [e]) <==>
         var n := |Claimed(e.owned, op)|;
         n >= count || (n == 0 && EmptyLooks(history, op) >= 1 && e.now - created >= 15 * 60 * SECOND))
    ensures !e.Reconcile? ==> (op !in Replay(m, history + [e]) <==> e == Reject(op))
  {
    LeavesExactlyBy(m, history, e, op, count, created);
  }

  /** Once gone, a reservation stays gone, and some step of its history removed it for a listed reason. */
  lemma {:induction false} GoneForAReason(m: Ledger, history: seq<Event>, op: string, count: int32, created: Time)
    returns (k: nat)
    requires OrderedOnce(history, op, count, created)
    requires op !in Replay(m, history)
    ensures 0 < k < |history| && op in Replay(m, history[..k])
    ensures Leaves(op, count, created, EmptyLooks(history[..k], op), history[k])
  {
    var init := history[..|history| - 1];
    if |history| > 1 && op !in Replay(m, init) {
      k := GoneForAReason(m, init, op, count, created);
      assert init[..k] == history[..k];
    } else {
      k := |history| - 1;
      assert history == init + [history[k]];
      LeavesExactlyBy(m, init, history[k], op, count, created);
    }
  }

  /** An expiry needs the reservation to be at least 15 minutes old and two empty inventories in a row. */
  lemma {:induction false} ExpiryNeedsTwoEmptyLooks(history: seq<Event>, op: string, count: int32,
    created: Time, k: nat)
    requires OrderedOnce(history, op, count, created)
    requires 0 < k < |history| && history[k].Reconcile?
    requires Leaves(op, count, created, EmptyLooks(history[..k], op), history[k])
    requires VisibleOf(history[k].owned, op) < count
    ensures history[k].now - created >= 900 * SECOND && VisibleOf(history[k].owned, op) == 0
    ensures exists j :: 0 < j < k && history[j].Reconcile? && VisibleOf(history[j].owned, op) == 0
              && forall i :: j < i < k ==> !history[i].Reconcile?
  {
    var j := LastEmptyLook(history[..k], op, count, created);
  }

  lemma {:induction false} LastEmptyLook(history: seq<Event>, op: string, count: int32, created: Time) returns (j: nat)
    requires OrderedOnce(history, op, count, created)
    requires EmptyLooks(history, op) >= 1
    ensures 0 < j < |history| && history[j].Reconcile? && VisibleOf(history[j].owned, op) == 0
    ensures forall i :: j < i < |history| ==> !history[i].Reconcile?
  {
    j := |history| - 1;
    if !history[j].Reconcile? {
      j := LastEmptyLook(history[..j], op, count, created);
    }
  }

  /** Two empty inventories in a row, the second at or past the lifetime, always remove the reservation. */
  lemma {:induction false} TwoEmptyLooksExpire(m: Ledger, history: seq<Event>, op: string, count: int32,
    created: Time, j: nat, k: nat)
    requires OrderedOnce(history, op, count, created)
    requires 0 < j < k < |history| && history[j].Reconcile? && history[k].Reconcile?
    requires VisibleOf(history[j].owned, op) == 0 && VisibleOf(history[k].owned, op) == 0
    requires forall i :: j < i < k ==> !history[i].Reconcile?
    requires history[k].now - created >= 15 * 60 * SECOND
    ensures op !in Replay(m, history)
  {
    EmptyLooksPersist(history, op, j, k);
    if op in Replay(m, history[..k]) {
      LeavesExactlyBy(m, history[..k], history[k], op, count, created);
      assert history[..k] + [history[k]] == history[..k + 1];
    } else {
      StaysGone(m, history, op, k, k + 1);
    }
    StaysGone(m, history, op, k + 1, |history|);
    assert history[..|history|] == history;
  }

  lemma {:induction false} EmptyLooksPersist(history: seq<Event>, op: string, j: nat, k: nat)
    requires j < k <= |history| && history[j].Reconcile? && VisibleOf(history[j].owned, op) == 0
    requires forall i :: j < i < k ==> !history[i].Reconcile? && !(history[i].Reserve? && history[i].op == op)
    ensures EmptyLooks(history[..k], op) >= 1
  {
    assert history[..k][..k - 1] == history[..k - 1];
    if j + 1 < k {
      EmptyLooksPersist(history, op, j, k - 1);
    }
  }

  lemma {:induction false} StaysGone(m: Ledger, history: seq<Event>, op: string, j: nat, k: nat)
    requires j <= k <= |history| && op !in Replay(m, history[..j])
    requires forall i :: j <= i < k && history[i].Reserve? ==> history[i].op != op
    ensures op !in Replay(m, history[..k])
  {
    if j < k {
      StaysGone(m, history, op, j, k - 1);
      assert history[..k][..k - 1] == history[..k - 1];
    }
  }
}
