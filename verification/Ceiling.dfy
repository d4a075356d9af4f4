/** The whole-run ceiling: the orders of one group interleaved with a cloud that lands instances late,
    shows them late and loses them to releases that do not take the order lock. */
module Ceiling {
  import opened Prelude
  import opened Sums
  import opened Reservations
  import opened Orders

  // ---- the world -------------------------------------------------------------------------------

  /** A fact about an instance that never changes: its name and the operation that created it, if it
      was created by an order of this process. */
  datatype Birth = Birth(name: string, op: Option<string>)

  type Births = map<string, Birth>

  /** The operations that reached the cloud, and what became of them. */
  datatype Book = Book(
    ledger: Ledger,              // the live reservations
    ordered: map<string, int32>, // every operation submitted, with its count
    refused: set<string>,        // those the cloud definitely refused
    expired: set<string>)        // those whose reservation expired

  /** Where the holder of the order lock is. */
  datatype Phase =
    | Idle
    | Reading(o: Order, seenBefore: set<string>)
    | Read(o: Order, owned: seq<Instance>)
    | Settled(o: Order, effective: int)
    | Submitting(op: string)

  datatype World = World(
    max: int32,
    phase: Phase,
    book: Book,
    born: Births,       // every instance that ever existed in the group
    alive: set<string>, // those not released yet
    seen: set<string>)  // those some inventory has shown

  ghost function LandedOf(born: Births, op: string): set<string> {
    set id | id in born && born[id].op == Some(op)
  }

  /** The operation neither holds a reservation nor lost one to expiry. */
  ghost predicate IsSettled(book: Book, op: Option<string>) {
    op.None? || (op.value !in book.ledger && op.value !in book.expired)
  }

  ghost function SettledAlive(book: Book, born: Births, alive: set<string>): set<string> {
    set id | id in alive && id in born && IsSettled(book, born[id].op)
  }

  ghost function ExpectedOf(m: Ledger): string -> int {
    op => if op in m then m[op].expected else 0
  }

  ghost function OrderedOf(ordered: map<string, int32>): string -> int {
    op => if op in ordered then ordered[op] else 0
  }

  ghost function Reserved(m: Ledger): int {
    Sum(m.Keys, ExpectedOf(m))
  }

  /** The capacity already promised: what the live reservations expect, and the living instances of
      every operation that no longer needs one. */
  ghost function Committed(w: World): int {
    Reserved(w.book.ledger) + |SettledAlive(w.book, w.born, w.alive)|
  }

  /** What all expired reservations together expected. */
  ghost function ExpiredTotal(book: Book): int {
    Sum(book.expired, OrderedOf(book.ordered))
  }

  // ---- what the environment is trusted with ----------------------------------------------------

  /** An operation name nobody used before, and which no existing instance name starts with. */
  ghost predicate FreshName(w: World, op: string) {
    && PrefixFree(w.book.ordered.Keys + {op}) && op !in w.book.ordered
    && forall id :: id in w.born ==> !(op <= w.born[id].name)
  }

  ghost predicate Named(born: Births, owned: seq<Instance>) {
    forall i :: 0 <= i < |owned| ==> owned[i].id in born && owned[i].name == born[owned[i].id].name
  }

  ghost predicate Distinct(owned: seq<Instance>) {
    forall i, j :: 0 <= i < j < |owned| ==> owned[i].id != owned[j].id
  }

  ghost function IdSet(owned: seq<Instance>): set<string> {
    set i | 0 <= i < |owned| :: owned[i].id
  }

  /** An inventory shows instances of the group under their names and each at most once. It may show
      released ones and miss unseen ones, but not miss an instance that was seen before the listing
      began and is still alive when it ends. */
  ghost predicate Shows(w: World, seenBefore: set<string>, owned: seq<Instance>) {
    && |owned| <= MAX_INT32
    && Named(w.born, owned) && Distinct(owned)
    && seenBefore * w.alive <= IdSet(owned)
  }

  // ---- steps -----------------------------------------------------------------------------------

  datatype Step =
    | Begin(o: Order)                       // an order takes the group lock
    | ListFails                             // its inventory fails
    | ListReturns(owned: seq<Instance>)     // its inventory returns
    | Reconcile                             // reservations are reconciled
    | Refuse                                // ceiling or deadline refusal
    | Reserve                               // both gates passed: reserve and submit
    | Finish(outcome: Outcome)              // the submit returns
    | Land(id: string, name: string, op: string)
    | Observe(ids: set<string>)             // any other inventory shows instances
    | Release(id: string)                   // any release, with or without the lock

  ghost function Expiring(m: Ledger, owned: seq<Instance>, now: Time): set<string> {
    set op | op in m && FateIn(m, op, owned, now).Expired?
  }

  ghost function ReconcileBook(book: Book, owned: seq<Instance>, now: Time): Book {
    book.(ledger := Reconciled(book.ledger, owned, now), expired := book.expired + Expiring(book.ledger, owned, now))
  }

  ghost function ReserveBook(book: Book, o: Order): Book {
    book.(ledger := book.ledger[o.op := Reservation(o.count, o.now, 0)], ordered := book.ordered[o.op := o.count])
  }

  ghost function RejectBook(book: Book, op: string): Book {
    book.(ledger := book.ledger - {op}, refused := book.refused + {op})
  }

  ghost predicate Next(w: World, step: Step, w': World) {
    match step
    case Begin(o) =>
      && w.phase.Idle? && 0 < o.count && o.max == w.max
      && w' == w.(phase := Reading(o, w.seen))
    case ListFails =>
      && w.phase.Reading?
      && w' == w.(phase := Idle)
    case ListReturns(owned) =>
      && w.phase.Reading? && Shows(w, w.phase.seenBefore, owned)
      && w' == w.(phase := Read(w.phase.o, owned), seen := w.seen + IdSet(owned))
    case Reconcile =>
      && w.phase.Read?
      && w' == w.(phase := Settled(w.phase.o, Effective(w.book.ledger, w.phase.owned, w.phase.o.now)),
                  book := ReconcileBook(w.book, w.phase.owned, w.phase.o.now))
    case Refuse =>
      && w.phase.Settled?
      && w' == w.(phase := Idle)
    case Reserve =>
      && w.phase.Settled? && FreshName(w, w.phase.o.op)
      && MaxGuard(w.phase.effective, w.phase.o.count, w.max) && w.phase.effective + w.phase.o.count <= MAX_INT32
      && w' == w.(phase := Submitting(w.phase.o.op), book := ReserveBook(w.book, w.phase.o))
    case Finish(outcome) =>
      && w.phase.Submitting?
      && (outcome == Rejected ==> LandedOf(w.born, w.phase.op) == {})
      && w' == w.(phase := Idle, book := if outcome == Rejected then RejectBook(w.book, w.phase.op) else w.book)
    case Land(id, name, op) =>
      && id !in w.born && op in w.book.ordered && op !in w.book.refused && op <= name
      && |LandedOf(w.born, op)| < w.book.ordered[op]
      && w' == w.(born := w.born[id := Birth(name, Some(op))], alive := w.alive + {id})
    case Observe(ids) =>
      && ids <= w.born.Keys
      && w' == w.(seen := w.seen + ids)
    case Release(id) =>
      && w' == w.(alive := w.alive - {id})
  }

  /** Everything alive at the start is visible, came from elsewhere, and fits under the maximum. */
  ghost predicate Init(w: World) {
    && w.phase == Idle && w.book == Book(map[], map[], {}, {})
    && w.alive <= w.born.Keys == w.seen
    && (forall id :: id in w.born ==> w.born[id].op == None)
    && |w.alive| <= w.max
  }

  /** A run lists its steps and the world after each of them. */
  datatype Run = Start(now: World) | Then(before: Run, step: Step, now: World)

  ghost predicate IsRun(start: World, run: Run) {
    match run
    case Start(w) => w == start
    case Then(before, step, w) => IsRun(start, before) && Next(before.now, step, w)
  }

  // ---- the invariant ---------------------------------------------------------------------------

  ghost predicate BookOk(book: Book) {
    && PrefixFree(book.ordered.Keys)
    && book.ledger.Keys <= book.ordered.Keys && book.expired <= book.ordered.Keys
    && book.refused <= book.ordered.Keys
    && book.ledger.Keys !! book.expired && book.refused !! book.ledger.Keys && book.refused !! book.expired
    && (forall op :: op in book.ordered ==> 0 < book.ordered[op])
    && (forall op :: op in book.ledger ==> book.ledger[op].expected == book.ordered[op])
  }

  /** Every instance that was not there at the start carries the name of the operation that made it. */
  ghost predicate BirthsOk(book: Book, born: Births) {
    && (forall id :: id in born && born[id].op.Some? ==>
          born[id].op.value in book.ordered && born[id].op.value <= born[id].name)
    && (forall id, op :: id in born && born[id].op.None? && op in book.ordered ==> !(op <= born[id].name))
    && (forall op :: op in book.ordered ==> |LandedOf(born, op)| <= book.ordered[op])
    && (forall op :: op in book.refused ==> LandedOf(born, op) == {})
  }

  /** Operations without a reservation have landed everything they ever will. */
  ghost predicate AllLanded(book: Book, born: Births) {
    forall op :: op in book.ordered && op !in book.refused && IsSettled(book, Some(op)) ==>
      |LandedOf(born, op)| == book.ordered[op]
  }

  /** All instances of such operations belong to the set. */
  ghost predicate Covers(book: Book, born: Births, ids: set<string>) {
    forall id :: id in born && IsSettled(book, born[id].op) ==> id in ids
  }

  ghost predicate PhaseOk(w: World) {
    match w.phase
    case Idle => true
    case Reading(o, seenBefore) => 0 < o.count && o.max == w.max && Covers(w.book, w.born, seenBefore)
    case Read(o, owned) =>
      && 0 < o.count && o.max == w.max && |owned| <= MAX_INT32
      && Named(w.born, owned) && Distinct(owned) && IdSet(owned) <= w.seen
      && SettledAlive(w.book, w.born, w.alive) <= IdSet(owned)
    case Settled(o, effective) => 0 < o.count && o.max == w.max && Committed(w) <= effective
    case Submitting(op) => op in w.book.ledger
  }

  ghost predicate Inv(w: World) {
    && BookOk(w.book) && BirthsOk(w.book, w.born) && AllLanded(w.book, w.born)
    && w.alive <= w.born.Keys && Covers(w.book, w.born, w.seen)
    && PhaseOk(w) && Committed(w) <= w.max
  }

  // ---- counting --------------------------------------------------------------------------------

  lemma {:induction false} SubsetSize<T>(a: set<T>, b: set<T>)
    requires a <= b
    ensures |a| <= |b| && (|a| == |b| ==> a == b)
  {
    assert b == a + (b - a);
    assert |b| == |a| + |b - a|;
  }

  lemma {:induction false} IdSetSize(owned: seq<Instance>)
    ensures |IdSet(owned)| <= |owned|
    ensures Distinct(owned) ==> |IdSet(owned)| == |owned|
  {
    if owned == [] {
      assert IdSet(owned) == {};
    } else {
      var init, last := owned[..|owned| - 1], owned[|owned| - 1];
      IdSetSize(init);
      assert IdSet(owned) == IdSet(init) + {last.id} by {
        assert forall i :: 0 <= i < |init| ==> init[i] == owned[i];
        assert forall i :: 0 <= i < |owned| ==> (owned[i] == last || owned[i] == init[i]);
      }
    }
  }

  lemma {:induction false} ClaimedDistinct(owned: seq<Instance>, op: string)
    requires Distinct(owned)
    ensures Distinct(Claimed(owned, op))
  {
    if owned != [] {
      var init, last := owned[..|owned| - 1], owned[|owned| - 1];
      ClaimedDistinct(init, op);
      ClaimedIn(init, op);
      var claimed := Claimed(init, op);
      forall i | 0 <= i < |claimed| ensures claimed[i].id != last.id {
        assert claimed[i] in init;
      }
    }
  }

  lemma {:induction false} UnclaimedIn(owned: seq<Instance>, ops: set<string>)
    ensures forall x :: x in owned && (forall op :: op in ops ==> !(op <= x.name)) ==> x in Unclaimed(owned, ops)
  {
    if owned != [] {
      var init, last := owned[..|owned| - 1], owned[|owned| - 1];
      UnclaimedIn(init, ops);
      assert owned == init + [last];
    }
  }

  /** The living instances created by some operation of the set. */
  ghost function AliveOf(born: Births, alive: set<string>, ops: set<string>): set<string> {
    set id | id in alive && id in born && born[id].op.Some? && born[id].op.value in ops
  }

  lemma {:induction false} AliveBound(born: Births, alive: set<string>, ops: set<string>, bound: string -> int)
    requires forall op :: op in ops ==> |LandedOf(born, op)| <= bound(op)
    ensures |AliveOf(born, alive, ops)| <= Sum(ops, bound)
  {
    if ops == {} {
      assert AliveOf(born, alive, ops) == {};
    } else {
      var op :| op in ops;
      AliveBound(born, alive, ops - {op}, bound);
      SumSplit(ops, bound, op);
      SubsetSize(AliveOf(born, alive, ops), AliveOf(born, alive, ops - {op}) + LandedOf(born, op));
    }
  }

  // ---- the reconcile step ----------------------------------------------------------------------

  /** The operation whose name starts an instance name is the one that created the instance. */
  lemma CreatorByName(book: Book, born: Births, id: string, op: string)
    requires BookOk(book) && BirthsOk(book, born)
    requires id in born && op in book.ordered && op <= born[id].name
    ensures born[id].op == Some(op)
  {
    if born[id].op.Some? {
      Comparable(born[id].op.value, op, born[id].name);
    }
  }

  /** Whatever an inventory shows under an operation's name was landed by that operation. */
  lemma VisibleAreLanded(book: Book, born: Births, owned: seq<Instance>, op: string)
    requires BookOk(book) && BirthsOk(book, born) && Named(born, owned) && op in book.ordered
    ensures IdSet(Claimed(owned, op)) <= LandedOf(born, op)
  {
    var claimed := Claimed(owned, op);
    forall i | 0 <= i < |claimed| ensures claimed[i].id in LandedOf(born, op) {
      ClaimedIn(owned, op);
      assert claimed[i] in owned;
      CreatorByName(book, born, claimed[i].id, op);
    }
  }

  /** Full visibility means that everything the operation will ever land is in the inventory. */
  lemma ClearedIsComplete(book: Book, born: Births, owned: seq<Instance>, now: Time, op: string)
    requires BookOk(book) && BirthsOk(book, born)
    requires Named(born, owned) && Distinct(owned) && |owned| <= MAX_INT32
    requires op in book.ledger && FateIn(book.ledger, op, owned, now).Cleared?
    ensures |LandedOf(born, op)| == book.ordered[op] && LandedOf(born, op) <= IdSet(owned)
  {
    var claimed := Claimed(owned, op);
    VisibleAreLanded(book, born, owned, op);
    ClaimedDistinct(owned, op);
    IdSetSize(claimed);
    SubsetSize(IdSet(claimed), LandedOf(born, op));
    forall i | 0 <= i < |claimed| ensures claimed[i].id in IdSet(owned) {
      ClaimedIn(owned, op);
      assert claimed[i] in owned;
    }
  }

  ghost function Cleared(m: Ledger, owned: seq<Instance>, now: Time): set<string> {
    set op | op in m && FateIn(m, op, owned, now).Cleared?
  }

  /** Living instances of settled operations are visible and claimed by no reservation. */
  lemma SettledAreUnclaimed(book: Book, born: Births, alive: set<string>, owned: seq<Instance>)
    requires BookOk(book) && BirthsOk(book, born) && Named(born, owned)
    requires SettledAlive(book, born, alive) <= IdSet(owned)
    ensures |SettledAlive(book, born, alive)| <= |Unclaimed(owned, book.ledger.Keys)|
  {
    var rest := Unclaimed(owned, book.ledger.Keys);
    forall id | id in SettledAlive(book, born, alive) ensures id in IdSet(rest) {
      var i :| 0 <= i < |owned| && owned[i].id == id;
      forall op | op in book.ledger ensures !(op <= owned[i].name) {
        if op <= owned[i].name {
          CreatorByName(book, born, id, op);
        }
      }
      UnclaimedIn(owned, book.ledger.Keys);
      assert owned[i] in rest;
    }
    SubsetSize(SettledAlive(book, born, alive), IdSet(rest));
    IdSetSize(rest);
  }

  /** The parts a ledger falls into when it is reconciled. */
  lemma ReconcileParts(m: Ledger, owned: seq<Instance>, now: Time, f: string -> int)
    ensures Sum(m.Keys, f)
         == Sum(Reconciled(m, owned, now).Keys, f) + Sum(Cleared(m, owned, now), f) + Sum(Expiring(m, owned, now), f)
  {
    var kept, cleared, expiring := Reconciled(m, owned, now).Keys, Cleared(m, owned, now), Expiring(m, owned, now);
    SumUnion(kept, cleared, f);
    SumUnion(kept + cleared, expiring, f);
    assert kept + cleared + expiring == m.Keys;
  }

  lemma ReservedAfter(m: Ledger, owned: seq<Instance>, now: Time)
    requires forall op :: op in m ==> 0 < m[op].expected
    ensures Reserved(Reconciled(m, owned, now)) + Sum(Cleared(m, owned, now), ExpectedOf(m)) <= Reserved(m)
  {
    var m' := Reconciled(m, owned, now);
    ReconcileParts(m, owned, now, ExpectedOf(m));
    SumNonNegative(Expiring(m, owned, now), ExpectedOf(m));
    SumEq(m'.Keys, ExpectedOf(m'), ExpectedOf(m));
  }

  /** A reservation that does not expire stands for at least what it expects. */
  lemma ClaimCovers(m: Ledger, owned: seq<Instance>, now: Time, ops: set<string>)
    requires ops <= m.Keys && ops !! Expiring(m, owned, now)
    ensures Sum(ops, ExpectedOf(m)) <= Sum(ops, Claim(m, owned, now))
  {
    SumLe(ops, ExpectedOf(m), Claim(m, owned, now));
  }

  /** The guard count covers the lasting reservations, the cleared ones and the unclaimed instances. */
  lemma EffectiveCovers(m: Ledger, owned: seq<Instance>, now: Time)
    requires PrefixFree(m.Keys) && |owned| <= MAX_INT32
    requires forall op :: op in m ==> 0 < m[op].expected
    ensures Reserved(Reconciled(m, owned, now)) + Sum(Cleared(m, owned, now), ExpectedOf(m))
            + |Unclaimed(owned, m.Keys)| <= Effective(m, owned, now)
  {
    var m' := Reconciled(m, owned, now);
    ReconcileParts(m, owned, now, Claim(m, owned, now));
    SumNonNegative(Expiring(m, owned, now), Claim(m, owned, now));
    ClaimCovers(m, owned, now, Cleared(m, owned, now));
    ClaimCovers(m, owned, now, m'.Keys);
    SumEq(m'.Keys, ExpectedOf(m'), ExpectedOf(m));
    ClosedForm(m, owned, now);
  }

  /** Only operations cleared by this inventory become settled. */
  lemma NewlySettled(book: Book, born: Births, alive: set<string>, owned: seq<Instance>, now: Time)
    requires BookOk(book) && BirthsOk(book, born)
    ensures |SettledAlive(ReconcileBook(book, owned, now), born, alive)|
         <= |SettledAlive(book, born, alive)| + Sum(Cleared(book.ledger, owned, now), ExpectedOf(book.ledger))
  {
    var cleared := Cleared(book.ledger, owned, now);
    AliveBound(born, alive, cleared, ExpectedOf(book.ledger));
    SubsetSize(SettledAlive(ReconcileBook(book, owned, now), born, alive),
      SettledAlive(book, born, alive) + AliveOf(born, alive, cleared));
  }

  /** Reconciling never raises the committed capacity, and the guard count covers what remains. */
  lemma ReconcileCovers(w: World, w': World)
    requires Inv(w) && Next(w, Reconcile, w')
    ensures Committed(w') <= Committed(w) && Committed(w') <= w'.phase.effective
  {
    var owned, now := w.phase.owned, w.phase.o.now;
    NewlySettled(w.book, w.born, w.alive, owned, now);
    ReservedAfter(w.book.ledger, owned, now);
    EffectiveCovers(w.book.ledger, owned, now);
    SettledAreUnclaimed(w.book, w.born, w.alive, owned);
  }

  lemma ReconcileBookOk(book: Book, born: Births, owned: seq<Instance>, now: Time)
    requires BookOk(book) && BirthsOk(book, born)
    ensures BookOk(ReconcileBook(book, owned, now)) && BirthsOk(ReconcileBook(book, owned, now), born)
  {
  }

  lemma ReconcileSettles(book: Book, born: Births, seen: set<string>, owned: seq<Instance>, now: Time)
    requires BookOk(book) && BirthsOk(book, born) && AllLanded(book, born) && Covers(book, born, seen)
    requires Named(born, owned) && Distinct(owned) && |owned| <= MAX_INT32 && IdSet(owned) <= seen
    ensures AllLanded(ReconcileBook(book, owned, now), born) && Covers(ReconcileBook(book, owned, now), born, seen)
  {
    var book' := ReconcileBook(book, owned, now);
    forall op | op in book.ordered && op !in book.refused && IsSettled(book', Some(op))
      ensures |LandedOf(born, op)| == book.ordered[op]
    {
      if op in book.ledger {
        ClearedIsComplete(book, born, owned, now, op);
      }
    }
    forall id | id in born && IsSettled(book', born[id].op) ensures id in seen {
      if !IsSettled(book, born[id].op) {
        ClearedIsComplete(book, born, owned, now, born[id].op.value);
        assert id in LandedOf(born, born[id].op.value);
      }
    }
  }

  lemma ReconcileKeeps(w: World, w': World)
    requires Inv(w) && Next(w, Reconcile, w')
    ensures Inv(w')
  {
    ReconcileCovers(w, w');
    ReconcileBookOk(w.book, w.born, w.phase.owned, w.phase.o.now);
    ReconcileSettles(w.book, w.born, w.seen, w.phase.owned, w.phase.o.now);
  }

  // ---- the other steps -------------------------------------------------------------------------

  lemma ReservedPlus(m: Ledger, op: string, r: Reservation)
    requires op !in m
    ensures Reserved(m[op := r]) == Reserved(m) + r.expected
  {
    var m' := m[op := r];
    SumSplit(m'.Keys, ExpectedOf(m'), op);
    assert m'.Keys - {op} == m.Keys;
    SumEq(m.Keys, ExpectedOf(m'), ExpectedOf(m));
  }

  lemma ReservedMinus(m: Ledger, op: string)
    requires op in m
    ensures Reserved(m - {op}) == Reserved(m) - m[op].expected
  {
    var m' := m - {op};
    SumSplit(m.Keys, ExpectedOf(m), op);
    assert m'.Keys == m.Keys - {op};
    SumEq(m'.Keys, ExpectedOf(m'), ExpectedOf(m));
  }

  lemma ReservedNonNegative(m: Ledger)
    requires forall op :: op in m ==> 0 < m[op].expected
    ensures 0 <= Reserved(m)
  {
    SumNonNegative(m.Keys, ExpectedOf(m));
  }

  /** A new reservation never pushes the committed capacity over the maximum. */
  lemma ReserveCommits(w: World, w': World)
    requires Inv(w) && Next(w, Reserve, w')
    ensures Committed(w') == Committed(w) + w.phase.o.count <= w.max
  {
    var o := w.phase.o;
    ReservedNonNegative(w.book.ledger);
    MaxGuardExact(w.phase.effective, o.count, w.max);
    ReservedPlus(w.book.ledger, o.op, Reservation(o.count, o.now, 0));
    assert SettledAlive(w'.book, w.born, w.alive) == SettledAlive(w.book, w.born, w.alive);
  }

  lemma ReserveBookOk(book: Book, o: Order)
    requires BookOk(book) && 0 < o.count
    requires PrefixFree(book.ordered.Keys + {o.op}) && o.op !in book.ordered
    ensures BookOk(ReserveBook(book, o))
  {
    assert ReserveBook(book, o).ordered.Keys == book.ordered.Keys + {o.op};
  }

  lemma ReserveBirthsOk(book: Book, born: Births, o: Order)
    requires BirthsOk(book, born) && o.op !in book.ordered && 0 < o.count
    requires forall id :: id in born ==> !(o.op <= born[id].name)
    ensures BirthsOk(ReserveBook(book, o), born)
  {
    assert LandedOf(born, o.op) == {};
  }

  lemma ReserveSettles(book: Book, born: Births, seen: set<string>, o: Order)
    requires AllLanded(book, born) && Covers(book, born, seen) && o.op !in book.ordered
    ensures AllLanded(ReserveBook(book, o), born) && Covers(ReserveBook(book, o), born, seen)
  {
  }

  lemma ReserveKeeps(w: World, w': World)
    requires Inv(w) && Next(w, Reserve, w')
    ensures Inv(w')
  {
    ReserveCommits(w, w');
    ReserveBookOk(w.book, w.phase.o);
    ReserveBirthsOk(w.book, w.born, w.phase.o);
    ReserveSettles(w.book, w.born, w.seen, w.phase.o);
  }

  lemma RejectBookOk(book: Book, born: Births, op: string)
    requires BookOk(book) && BirthsOk(book, born) && op in book.ledger && LandedOf(born, op) == {}
    ensures BookOk(RejectBook(book, op)) && BirthsOk(RejectBook(book, op), born)
  {
  }

  /** Nobody was made by a refused operation, so the same instances are settled as before. */
  lemma RejectSettles(book: Book, born: Births, op: string, id: string)
    requires LandedOf(born, op) == {} && id in born
    ensures IsSettled(RejectBook(book, op), born[id].op) == IsSettled(book, born[id].op)
  {
    assert born[id].op == Some(op) ==> id in LandedOf(born, op);
  }

  lemma RejectKeeps(w: World, w': World)
    requires Inv(w) && Next(w, Finish(Rejected), w')
    ensures Inv(w')
  {
    RejectBookOk(w.book, w.born, w.phase.op);
    forall id | id in w.born ensures IsSettled(w'.book, w.born[id].op) == IsSettled(w.book, w.born[id].op) {
      RejectSettles(w.book, w.born, w.phase.op, id);
    }
    assert SettledAlive(w'.book, w.born, w.alive) == SettledAlive(w.book, w.born, w.alive);
    ReservedMinus(w.book.ledger, w.phase.op);
  }

  lemma LandedAfter(born: Births, id: string, birth: Birth, op: string)
    requires id !in born
    ensures LandedOf(born[id := birth], op) == LandedOf(born, op) + if birth.op == Some(op) then {id} else {}
  {
  }

  lemma LandBirthsOk(book: Book, born: Births, id: string, name: string, op: string)
    requires BirthsOk(book, born)
    requires id !in born && op in book.ordered && op !in book.refused && op <= name
    requires |LandedOf(born, op)| < book.ordered[op]
    ensures BirthsOk(book, born[id := Birth(name, Some(op))])
  {
    var birth := Birth(name, Some(op));
    forall other | other in book.ordered ensures |LandedOf(born[id := birth], other)| <= book.ordered[other] {
      LandedAfter(born, id, birth, other);
    }
    forall other | other in book.refused ensures LandedOf(born[id := birth], other) == {} {
      LandedAfter(born, id, birth, other);
    }
  }

  lemma LandAllLanded(book: Book, born: Births, id: string, name: string, op: string)
    requires AllLanded(book, born) && id !in born && op in book.ordered && op !in book.refused
    requires |LandedOf(born, op)| < book.ordered[op]
    ensures !IsSettled(book, Some(op)) && AllLanded(book, born[id := Birth(name, Some(op))])
  {
    forall other | other in book.ordered && other !in book.refused && IsSettled(book, Some(other))
      ensures |LandedOf(born[id := Birth(name, Some(op))], other)| == book.ordered[other]
    {
      LandedAfter(born, id, Birth(name, Some(op)), other);
    }
  }

  /** An instance of an unsettled operation is outside every count of settled ones. */
  lemma LandSettles(book: Book, born: Births, alive: set<string>, id: string, birth: Birth)
    requires id !in born && alive <= born.Keys && !IsSettled(book, birth.op)
    ensures SettledAlive(book, born[id := birth], alive + {id}) == SettledAlive(book, born, alive)
  {
  }

  lemma LandKeeps(w: World, id: string, name: string, op: string, w': World)
    requires Inv(w) && Next(w, Land(id, name, op), w')
    ensures Inv(w')
  {
    LandBirthsOk(w.book, w.born, id, name, op);
    LandAllLanded(w.book, w.born, id, name, op);
    LandSettles(w.book, w.born, w.alive, id, Birth(name, Some(op)));
    assert Committed(w') == Committed(w);
    assert PhaseOk(w');
  }

  lemma ReleaseKeeps(w: World, id: string, w': World)
    requires Inv(w) && Next(w, Release(id), w')
    ensures Inv(w')
  {
    SubsetSize(SettledAlive(w.book, w.born, w'.alive), SettledAlive(w.book, w.born, w.alive));
  }

  lemma ListReturnsKeeps(w: World, owned: seq<Instance>, w': World)
    requires Inv(w) && Next(w, ListReturns(owned), w')
    ensures Inv(w')
  {
    forall id | id in SettledAlive(w.book, w.born, w.alive) ensures id in IdSet(owned) {
      assert id in w.phase.seenBefore * w.alive;
    }
  }

  lemma StepKeeps(w: World, step: Step, w': World)
    requires Inv(w) && Next(w, step, w')
    ensures Inv(w') && w'.max == w.max
  {
    match step
    case ListReturns(owned) => ListReturnsKeeps(w, owned, w');
    case Reconcile => ReconcileKeeps(w, w');
    case Reserve => ReserveKeeps(w, w');
    case Finish(outcome) => if outcome == Rejected { RejectKeeps(w, w'); }
    case Land(id, name, op) => LandKeeps(w, id, name, op, w');
    case Release(id) => ReleaseKeeps(w, id, w');
    case _ =>
  }

  lemma InitHolds(w: World)
    requires Init(w)
    ensures Inv(w)
  {
    assert SettledAlive(w.book, w.born, w.alive) == w.alive;
  }

  // ---- the theorems ----------------------------------------------------------------------------

  lemma {:induction false} InvAlways(start: World, run: Run)
    requires IsRun(start, run) && Inv(start)
    ensures Inv(run.now) && run.now.max == start.max
  {
    match run
    case Start(w) =>
    case Then(before, step, w) =>
      InvAlways(start, before);
      StepKeeps(before.now, step, w);
  }

  lemma AliveWithinCommitted(w: World)
    requires Inv(w)
    ensures |w.alive| <= Committed(w) + |AliveOf(w.born, w.alive, w.book.expired)|
    ensures |AliveOf(w.born, w.alive, w.book.expired)| <= ExpiredTotal(w.book)
  {
    var book, m := w.book, w.book.ledger;
    AliveBound(w.born, w.alive, m.Keys, ExpectedOf(m));
    AliveBound(w.born, w.alive, book.expired, OrderedOf(book.ordered));
    SubsetSize(w.alive, SettledAlive(book, w.born, w.alive)
      + AliveOf(w.born, w.alive, m.Keys) + AliveOf(w.born, w.alive, book.expired));
  }

  /** Only an expiry counts as one: an operation joins the expired ones exactly when reconciling meets its
      reservation with nothing visible, fifteen minutes old, and an empty look before. */
  lemma ExpiresExactly(w: World, step: Step, w': World, op: string)
    requires Inv(w) && Next(w, step, w') && op !in w.book.expired
    ensures op in w'.book.expired <==>
      && step.Reconcile? && op in w.book.ledger && |Claimed(w.phase.owned, op)| == 0
      && w.phase.o.now - w.book.ledger[op].created >= 15 * 60 * SECOND && w.book.ledger[op].misses >= 1
  {
  }

  /** After every run the living instances exceed the maximum by at most the living instances of operations
      whose reservation expired: an expired order that never lands costs nothing, all of them together no
      more than they expected, and while none expired the maximum holds. */
  lemma CeilingHolds(start: World, run: Run)
    requires Init(start) && IsRun(start, run)
    ensures Committed(run.now) <= start.max
    ensures |run.now.alive| <= start.max + |AliveOf(run.now.born, run.now.alive, run.now.book.expired)|
    ensures |AliveOf(run.now.born, run.now.alive, run.now.book.expired)| <= ExpiredTotal(run.now.book)
    ensures run.now.book.expired == {} ==> |run.now.alive| <= start.max
  {
    InitHolds(start);
    InvAlways(start, run);
    AliveWithinCommitted(run.now);
  }

  // ---- the imperative order is such a run ------------------------------------------------------

  /** What is trusted about one order: its inventory is honest, its name is fresh, and the count and
      the guard count add up within 32 bits. */
  ghost predicate Trusted(w: World, o: Order, s: Surroundings) {
    && 0 < o.count && o.max == w.max && FreshName(w, o.op)
    && (s.inventory.Ok? ==>
          && Shows(w, w.seen, s.inventory.value)
          && Effective(w.book.ledger, s.inventory.value, o.now) + o.count <= MAX_INT32)
  }

  /** The world once the lock is taken, the inventory read and the ledger reconciled. */
  ghost function AfterReconcile(w: World, o: Order, owned: seq<Instance>): World {
    w.(phase := Settled(o, Effective(w.book.ledger, owned, o.now)), book := ReconcileBook(w.book, owned, o.now),
       seen := w.seen + IdSet(owned))
  }

  lemma ReconcileRun(start: World, before: Run, o: Order, owned: seq<Instance>) returns (run: Run)
    requires IsRun(start, before)
    requires before.now.phase.Idle? && 0 < o.count && o.max == before.now.max
    requires Shows(before.now, before.now.seen, owned)
    ensures IsRun(start, run) && run.now == AfterReconcile(before.now, o, owned)
  {
    var w := before.now;
    var reading := w.(phase := Reading(o, w.seen));
    run := Then(before, Begin(o), reading);
    var read := reading.(phase := Read(o, owned), seen := w.seen + IdSet(owned));
    run := Then(run, ListReturns(owned), read);
    assert IsRun(start, run);
    run := Then(run, Reconcile, AfterReconcile(w, o, owned));
  }

  /** The world once a reconciled order has been submitted and answered. */
  ghost function AfterSubmit(w: World, o: Order, outcome: Outcome): World {
    var book := ReserveBook(w.book, o);
    w.(phase := Idle, book := if outcome == Rejected then RejectBook(book, o.op) else book)
  }

  lemma SubmitRun(start: World, before: Run, outcome: Outcome) returns (run: Run)
    requires IsRun(start, before) && before.now.phase.Settled?
    requires FreshName(before.now, before.now.phase.o.op) && LandedOf(before.now.born, before.now.phase.o.op) == {}
    requires MaxGuard(before.now.phase.effective, before.now.phase.o.count, before.now.max)
    requires before.now.phase.effective + before.now.phase.o.count <= MAX_INT32
    ensures IsRun(start, run) && run.now == AfterSubmit(before.now, before.now.phase.o, outcome)
  {
    var w, o := before.now, before.now.phase.o;
    var submitting := w.(phase := Submitting(o.op), book := ReserveBook(w.book, o));
    run := Then(before, Reserve, submitting);
    assert IsRun(start, run);
    run := Then(run, Finish(outcome), AfterSubmit(w, o, outcome));
  }

  /** Everything a guarded order does to the ledger of an idle group is a run of the step system. */
  lemma OrderIsARun(w: World, after: Ledger, o: Order, s: Surroundings, reply: Reply) returns (run: Run)
    requires w.phase.Idle? && BookOk(w.book) && BirthsOk(w.book, w.born) && Trusted(w, o, s)
    requires GuardedOrder(w.book.ledger, after, o, s, reply)
    ensures IsRun(w, run) && run.now.phase.Idle? && run.now.book.ledger == after
  {
    if s.inventory.Err? {
      run := Then(Start(w), Begin(o), w.(phase := Reading(o, w.seen)));
      return Then(run, ListFails, w);
    }
    var before: Run := Start(w);
    assert IsRun(w, before);
    run := ReconcileRun(w, before, o, s.inventory.value);
    if !reply.Submitted? {
      return Then(run, Refuse, run.now.(phase := Idle));
    }
    FreshLandsNothing(w.book, w.born, o.op);
    var settled := run.now;
    assert FreshName(settled, o.op);
    run := SubmitRun(w, run, reply.submission.outcome);
    LedgerAfterSubmit(settled, o, reply.submission.outcome);
  }

  lemma FreshLandsNothing(book: Book, born: Births, op: string)
    requires BirthsOk(book, born) && op !in book.ordered
    ensures LandedOf(born, op) == {}
  {
  }

  lemma LedgerAfterSubmit(w: World, o: Order, outcome: Outcome)
    ensures AfterSubmit(w, o, outcome).book.ledger
         == if outcome == Rejected then w.book.ledger - {o.op}
            else w.book.ledger[o.op := Reservation(o.count, o.now, 0)]
  {
    assert w.book.ledger[o.op := Reservation(o.count, o.now, 0)] - {o.op} == w.book.ledger - {o.op};
  }

  // ---- the bound is reached --------------------------------------------------------------------

  lemma EffectiveOfEmpty(m: Ledger, op: string, now: Time)
    requires m.Keys <= {op}
    ensures Effective(m, [], now) == if op in m then Adds(m[op], 0, now) else 0
  {
    if op in m {
      SumSplit(m.Keys, Outstanding(m, [], now), op);
      assert m.Keys - {op} == {};
    } else {
      assert m.Keys == {};
    }
  }

  ghost const NOTHING := World(1, Idle, Book(map[], map[], {}, {}), map[], {}, {})
  ghost const IMPATIENT := Order("b", 1, 1, RESERVATION_TTL)

  /** The world after the first order: its instance is invisible. */
  ghost const INVISIBLE := NOTHING.(book := Book(map["a" := Reservation(1, 0, 0)], map["a" := 1], {}, {}))

  lemma FirstOrder() returns (run: Run)
    ensures IsRun(NOTHING, run) && run.now == INVISIBLE
  {
    EffectiveOfEmpty(map[], "a", 0);
    run := ReconcileRun(NOTHING, Start(NOTHING), Order("a", 1, 1, 0), []);
    assert run.now == NOTHING.(phase := Settled(Order("a", 1, 1, 0), 0));
    run := SubmitRun(NOTHING, run, Uncertain);
  }

  lemma FirstMiss(before: Run) returns (run: Run)
    requires IsRun(NOTHING, before) && before.now == INVISIBLE
    ensures IsRun(NOTHING, run)
    ensures run.now == INVISIBLE.(book := INVISIBLE.book.(ledger := map["a" := Reservation(1, 0, 1)]))
  {
    EffectiveOfEmpty(INVISIBLE.book.ledger, "a", RESERVATION_TTL);
    run := ReconcileRun(NOTHING, before, IMPATIENT, []);
    assert FateIn(INVISIBLE.book.ledger, "a", [], RESERVATION_TTL) == Kept(Reservation(1, 0, 1));
    assert run.now.book.ledger == map["a" := Reservation(1, 0, 1)];
    run := Then(run, Refuse, run.now.(phase := Idle));
  }

  ghost const FORGOTTEN := Book(map[], map["a" := 1], {}, {"a"})

  lemma SecondMiss(before: Run) returns (run: Run)
    requires IsRun(NOTHING, before)
    requires before.now == INVISIBLE.(book := INVISIBLE.book.(ledger := map["a" := Reservation(1, 0, 1)]))
    ensures IsRun(NOTHING, run) && run.now == NOTHING.(phase := Settled(IMPATIENT, 0), book := FORGOTTEN)
  {
    EffectiveOfEmpty(before.now.book.ledger, "a", RESERVATION_TTL);
    run := ReconcileRun(NOTHING, before, IMPATIENT, []);
    assert FateIn(before.now.book.ledger, "a", [], RESERVATION_TTL) == Fate.Expired;
  }

  lemma SecondOrder(before: Run) returns (run: Run)
    requires IsRun(NOTHING, before) && before.now == NOTHING.(phase := Settled(IMPATIENT, 0), book := FORGOTTEN)
    ensures IsRun(NOTHING, run) && run.now.born == map[] && run.now.alive == {}
    ensures run.now.book.ordered == map["a" := 1, "b" := 1]
    ensures run.now.book.refused == {} && run.now.book.expired == {"a"}
  {
    run := SubmitRun(NOTHING, before, Accepted);
  }

  /** Expiry is a real exception: with a maximum of one, an order that stays invisible until its
      reservation expires and then lands leaves two instances alive. */
  lemma ExpiryOvershoots() returns (start: World, run: Run)
    ensures Init(start) && IsRun(start, run)
    ensures |run.now.alive| == 2 && start.max == 1 && ExpiredTotal(run.now.book) == 1
  {
    start := NOTHING;
    run := FirstOrder();
    run := FirstMiss(run);
    run := SecondMiss(run);
    run := SecondOrder(run);
    run := LandBoth(start, run);
    SumSplit({"a"}, OrderedOf(run.now.book.ordered), "a");
    assert {"a"} - {"a"} == {};
  }

  lemma LandBoth(start: World, before: Run) returns (run: Run)
    requires IsRun(start, before) && before.now.born == map[] && before.now.alive == {}
    requires before.now.book.ordered == map["a" := 1, "b" := 1] && before.now.book.refused == {}
    ensures IsRun(start, run) && |run.now.alive| == 2 && run.now.book == before.now.book
  {
    var w := before.now;
    assert LandedOf(w.born, "a") == {};
    var born := w.born["i-1" := Birth("a1", Some("a"))];
    run := Then(before, Land("i-1", "a1", "a"), w.(born := born, alive := {"i-1"}));
    assert LandedOf(born, "b") == {};
    var last := run.now.(born := born["i-2" := Birth("b1", Some("b"))], alive := {"i-1"} + {"i-2"});
    assert IsRun(start, run);
    run := Then(run, Land("i-2", "b1", "b"), last);
  }
}
