/** Order reservations of one node group: how a fresh inventory reconciles them and which count
    the ceiling guard then uses (reservations.go). */
module Reservations {
  import opened Prelude
  import opened Sums

  datatype Instance = Instance(id: string, name: string, groupId: string, status: string)

  const RESERVATION_TTL := 15 * 60 * SECOND
  const EXPIRY_MISSES := 2

  datatype Reservation = Reservation(expected: int32, created: Time, misses: nat)

  type Ledger = map<string, Reservation>

  // ---- the instances an operation can claim --------------------------------------------------

  /** The instances whose name starts with the prefix, in inventory order. */
  function Claimed(all: seq<Instance>, prefix: string): (r: seq<Instance>)
    ensures |r| <= |all|
  {
    if |all| == 0 then []
    else
      var last := all[|all| - 1];
      Claimed(all[..|all| - 1], prefix) + if prefix <= last.name then [last] else []
  }

  /** Claiming is a filter: it keeps the order, works listing by listing, and takes an instance exactly when
      its name starts with the prefix. */
  lemma {:induction false} ClaimedIsFilter(a: seq<Instance>, b: seq<Instance>, prefix: string, x: Instance)
    ensures Claimed(a + b, prefix) == Claimed(a, prefix) + Claimed(b, prefix)
    ensures Claimed([x], prefix) == if prefix <= x.name then [x] else []
    ensures x in Claimed(a, prefix) <==> x in a && prefix <= x.name
  {
    assert [x][..0] == [];
    ClaimedIn(a, prefix);
    if b == [] {
      assert a + b == a;
    } else {
      assert (a + b)[..|a + b| - 1] == a + b[..|b| - 1];
      ClaimedIsFilter(a, b[..|b| - 1], prefix, x);
    }
  }

  lemma {:induction false} ClaimedIn(all: seq<Instance>, prefix: string)
    ensures forall x :: x in Claimed(all, prefix) <==> x in all && prefix <= x.name
  {
    if all != [] {
      var init, last := all[..|all| - 1], all[|all| - 1];
      ClaimedIn(init, prefix);
      assert all == init + [last];
    }
  }

  /** The instances no operation of the set claims. */
  ghost function Unclaimed(all: seq<Instance>, ops: set<string>): (r: seq<Instance>)
    ensures |r| <= |all|
  {
    if |all| == 0 then []
    else
      var last := all[|all| - 1];
      Unclaimed(all[..|all| - 1], ops) + if exists op :: op in ops && op <= last.name then [] else [last]
  }

  function Ids(all: seq<Instance>): (r: seq<string>)
    ensures |r| == |all|
    ensures forall i :: 0 <= i < |all| ==> r[i] == all[i].id
  {
    seq(|all|, i requires 0 <= i < |all| => all[i].id)
  }

  method InstancesWithPrefix(all: seq<Instance>, prefix: string) returns (ids: seq<string>)
    ensures ids == Ids(Claimed(all, prefix))
  {
    ids := [];
    for k := 0 to |all|
      invariant ids == Ids(Claimed(all[..k], prefix))
    {
      assert all[..k + 1][..k] == all[..k];
      if prefix <= all[k].name {
        ids := ids + [all[k].id];
      }
    }
    assert all[..|all|] == all;
  }

  // ---- one reservation against one inventory ---------------------------------------------------

  datatype Fate = Cleared | Expired | Kept(r: Reservation)

  function FateOf(r: Reservation, visible: int32, now: Time): Fate {
    if visible >= r.expected then Cleared
    else if visible == 0 then
      var looked := r.(misses := r.misses + 1);
      if Since(now, r.created) >= RESERVATION_TTL && looked.misses >= EXPIRY_MISSES then Expired
      else Kept(looked)
    else Kept(r.(misses := 0))
  }

  /** What a reservation still adds to the visible count. */
  function Adds(r: Reservation, visible: int32, now: Time): int {
    if FateOf(r, visible, now).Kept? then Wrap32(r.expected - visible) else 0
  }

  function VisibleOf(owned: seq<Instance>, op: string): int32 {
    Wrap32(|Claimed(owned, op)|)
  }

  function FateIn(m: Ledger, op: string, owned: seq<Instance>, now: Time): Fate
    requires op in m
  {
    FateOf(m[op], VisibleOf(owned, op), now)
  }

  // ---- the whole ledger ------------------------------------------------------------------------

  function Reconciled(m: Ledger, owned: seq<Instance>, now: Time): Ledger {
    map op | op in m && FateIn(m, op, owned, now).Kept? :: FateIn(m, op, owned, now).r
  }

  /** What reconciling does to any one reservation. It leaves the ledger exactly if all of it is visible, or if
      nothing is, it is fifteen minutes old and the look before showed nothing either. Otherwise it keeps its
      order, and counts the looks that showed nothing. */
  lemma ReconciledExactly(m: Ledger, owned: seq<Instance>, now: Time, op: string)
    requires |owned| <= MAX_INT32 && op in m
    ensures var n, r := |Claimed(owned, op)|, m[op];
      op !in Reconciled(m, owned, now) <==>
        n >= r.expected || (n == 0 && now - r.created >= 15 * 60 * SECOND && r.misses >= 1)
    ensures op in Reconciled(m, owned, now) ==>
      Reconciled(m, owned, now)[op]
        == Reservation(m[op].expected, m[op].created, if |Claimed(owned, op)| == 0 then m[op].misses + 1 else 0)
  {
  }

  /** The ledger when the reservations in `todo` have not been visited yet. */
  function PartlyReconciled(m: Ledger, todo: set<string>, owned: seq<Instance>, now: Time): Ledger {
    map op | op in m && (op in todo || FateIn(m, op, owned, now).Kept?)
      :: if op in todo then m[op] else FateIn(m, op, owned, now).r
  }

  lemma PartlyReconciledStep(m: Ledger, todo: set<string>, op: string, owned: seq<Instance>, now: Time)
    requires op in todo && todo <= m.Keys
    ensures PartlyReconciled(m, todo - {op}, owned, now)
         == match FateIn(m, op, owned, now)
            case Kept(r) => PartlyReconciled(m, todo, owned, now)[op := r]
            case _ => PartlyReconciled(m, todo, owned, now) - {op}
  {
  }

  ghost function Outstanding(m: Ledger, owned: seq<Instance>, now: Time): string -> int {
    op => if op in m then Adds(m[op], VisibleOf(owned, op), now) else 0
  }

  ghost function Effective(m: Ledger, owned: seq<Instance>, now: Time): int {
    |owned| + Sum(m.Keys, Outstanding(m, owned, now))
  }

  // ---- closed form of the guard count ----------------------------------------------------------

  /** No operation name is a prefix of another one. */
  ghost predicate PrefixFree(ops: set<string>) {
    forall a, b :: a in ops && b in ops && a <= b ==> a == b
  }

  /** The capacity one reservation stands for: nothing once expired, otherwise the larger of what
      was ordered and what is visible. */
  ghost function Claim(m: Ledger, owned: seq<Instance>, now: Time): string -> int {
    op => if op !in m || FateIn(m, op, owned, now).Expired? then 0
          else Max(m[op].expected, |Claimed(owned, op)|)
  }

  ghost function ClaimedCount(owned: seq<Instance>): string -> int {
    op => |Claimed(owned, op)|
  }

  /** Distinct operation names of one length are prefix-free. */
  lemma EqualLengthPrefixFree(ops: set<string>)
    requires forall a, b :: a in ops && b in ops ==> |a| == |b|
    ensures PrefixFree(ops)
  {
    forall a, b | a in ops && b in ops && a <= b ensures a == b {
      assert b[..|a|] == b;
    }
  }

  lemma {:induction false} SumOneMore(ops: set<string>, f: string -> int, g: string -> int, k: string)
    requires k in ops && g(k) == f(k) + 1
    requires forall op :: op in ops && op != k ==> g(op) == f(op)
    ensures Sum(ops, g) == Sum(ops, f) + 1
  {
    SumSplit(ops, f, k);
    SumSplit(ops, g, k);
    SumEq(ops - {k}, f, g);
  }

  /** Prefix-free operations claim disjoint instances, so claims and the rest partition the inventory. */
  lemma {:induction false} ClaimsPartition(owned: seq<Instance>, ops: set<string>)
    requires PrefixFree(ops)
    ensures |owned| == |Unclaimed(owned, ops)| + Sum(ops, ClaimedCount(owned))
  {
    if owned == [] {
      SumZero(ops, ClaimedCount(owned));
    } else {
      var init, last := owned[..|owned| - 1], owned[|owned| - 1];
      ClaimsPartition(init, ops);
      if op :| op in ops && op <= last.name {
        forall other | other in ops && other != op ensures !(other <= last.name) {
          assert other <= last.name ==> other <= op || op <= other;
        }
        SumOneMore(ops, ClaimedCount(init), ClaimedCount(owned), op);
      } else {
        SumEq(ops, ClaimedCount(init), ClaimedCount(owned));
      }
    }
  }

  lemma {:induction false} SumZero(ops: set<string>, f: string -> int)
    requires forall op :: op in ops ==> f(op) == 0
    ensures Sum(ops, f) == 0
  {
    if ops != {} {
      var k :| k in ops;
      SumSplit(ops, f, k);
      SumZero(ops - {k}, f);
    }
  }

  /** A reservation stands for nothing once two looks showed nothing and fifteen minutes passed, and otherwise for
      the larger of what was ordered and what is visible. */
  lemma ClaimExactly(m: Ledger, owned: seq<Instance>, now: Time, op: string)
    requires op in m && |owned| <= MAX_INT32
    ensures var n, r := |Claimed(owned, op)|, m[op];
      Claim(m, owned, now)(op)
        == if n == 0 < r.expected && now - r.created >= 15 * 60 * SECOND && r.misses >= 1 then 0
           else if n > r.expected then n else r.expected
  {
  }

  /** The guard count, independent of the order in which the reservations were visited: what no
      operation claims, plus what each reservation stands for. */
  lemma ClosedForm(m: Ledger, owned: seq<Instance>, now: Time)
    requires PrefixFree(m.Keys)
    requires |owned| <= MAX_INT32
    requires forall op :: op in m ==> 0 <= m[op].expected
    ensures Effective(m, owned, now) == |Unclaimed(owned, m.Keys)| + Sum(m.Keys, Claim(m, owned, now))
  {
    ClaimsPartition(owned, m.Keys);
    SumAdd(m.Keys, ClaimedCount(owned), Outstanding(m, owned, now), Claim(m, owned, now));
  }

  // ---- the order state of one group ------------------------------------------------------------

  class GroupOrderState {
    var reservations: Ledger

    constructor ()
      ensures reservations == map[]
    {
      reservations := map[];
    }

    /** Reconciles one reservation and returns what it still adds to the guard count. */
    method Visit(op: string, owned: seq<Instance>, now: Time) returns (outstanding: int)
      requires op in reservations
      modifies this
      ensures reservations == match FateIn(old(reservations), op, owned, now)
                              case Kept(r) => old(reservations)[op := r]
                              case _ => old(reservations) - {op}
      ensures outstanding == Adds(old(reservations)[op], VisibleOf(owned, op), now)
      ensures |owned| <= MAX_INT32 && 0 <= old(reservations)[op].expected ==>
        outstanding == if op in reservations then old(reservations)[op].expected - |Claimed(owned, op)| else 0
    {
      var r := reservations[op];
      var ids := InstancesWithPrefix(owned, op);
      var visible := Wrap32(|ids|);
      if visible >= r.expected {
        reservations := reservations - {op};
        return 0;
      }
      if visible == 0 {
        r := r.(misses := r.misses + 1);
        if Since(now, r.created) >= RESERVATION_TTL && r.misses >= EXPIRY_MISSES {
          reservations := reservations - {op};
          return 0;
        }
      } else {
        r := r.(misses := 0);
      }
      reservations := reservations[op := r];
      outstanding := Wrap32(r.expected - visible);
    }

    /** Visits the reservations in an arbitrary order, as the iteration of a hash map does. */
    method EffectiveOwned(owned: seq<Instance>, now: Time) returns (effective: int)
      modifies this
      ensures reservations == Reconciled(old(reservations), owned, now)
      ensures effective == Effective(old(reservations), owned, now)
    {
      ghost var m := reservations;
      ghost var f := Outstanding(m, owned, now);
      effective := |owned|;
      var todo := reservations.Keys;
      assert m == PartlyReconciled(m, m.Keys, owned, now);
      while todo != {}
        invariant todo <= m.Keys
        invariant reservations == PartlyReconciled(m, todo, owned, now)
        invariant effective + Sum(todo, f) == |owned| + Sum(m.Keys, f)
        decreases todo
      {
        var op :| op in todo;
        SumSplit(todo, f, op);
        PartlyReconciledStep(m, todo, op, owned, now);
        var outstanding := Visit(op, owned, now);
        effective := effective + outstanding;
        todo := todo - {op};
      }
    }
  }
}
