/** What a replica can come to: a run that hands the Lease over, a run that leaves a handler with a live
    context, and exactly when a replica can end up as a follower that never competes again. */
module HandoffRuns {
  import opened Leadership
  import opened Handoff

  const ME := "a"

  ghost const ORIGIN := System(LeaseState("", 0), map[ME := Dead(Booted(Pod(false, 0)))])

  /** The run leads to a state with this replica and this Lease. */
  ghost predicate ShowsFrom(start: System, run: Run, id: string, p: Replica, l: LeaseState) {
    IsRun(start, run) && id in run.now.replicas && run.now.replicas[id] == p && run.now.lease == l
  }

  lemma Extend(start: System, before: Run, id: string, p: Replica, l: LeaseState, m: Move, p': Replica)
    returns (run: Run)
    requires ShowsFrom(start, before, id, p, l) && ReplicaNext(p, m, p') && LeaseAllows(id, l, p.sh, m)
    ensures ShowsFrom(start, run, id, p', LeaseAfter(id, l, m))
  {
    run := Then(before, By(id, m), System(LeaseAfter(id, l, m), before.now.replicas[id := p']));
  }

  ghost predicate Shows(run: Run, p: Replica, l: LeaseState) {
    ShowsFrom(ORIGIN, run, ME, p, l)
  }

  lemma Do(before: Run, p: Replica, l: LeaseState, m: Move, p': Replica) returns (run: Run)
    requires Shows(before, p, l) && ReplicaNext(p, m, p') && LeaseAllows(ME, l, p.sh, m)
    ensures Shows(run, p', LeaseAfter(ME, l, m))
  {
    run := Extend(ORIGIN, before, ME, p, l, m, p');
  }

  // ---- common beginning --------------------------------------------------------------------------

  ghost const CANDIDATE := Booted(Pod(false, 1)).(stage := Electing, el := Election(Trying, false))
  ghost const CHOSEN := CANDIDATE.(el := Election(Holding, false), term := Term(Launched, false, false, false))

  /** Startup in its order, up to the acquisition of the Lease. */
  lemma Startup() returns (run: Run)
    ensures Shows(run, CHOSEN, LeaseState(ME, 1))
  {
    run := Start(ORIGIN);
    var p := Dead(Booted(Pod(false, 0)));
    var booting := Booted(Pod(false, 1));
    run := Do(run, p, LeaseState("", 0), Life(Restart), booting);
    run := Do(run, booting, LeaseState("", 0), Life(Purge(true, true)), booting.(stage := Purged));
    run := Do(run, booting.(stage := Purged), LeaseState("", 0), Life(Listen), booting.(stage := Listening));
    run := Do(run, booting.(stage := Listening), LeaseState("", 0), Life(Elect), CANDIDATE);
    run := Do(run, CANDIDATE, LeaseState("", 0), Elector(Acquire), CHOSEN);
  }

  // ---- a clean handoff ---------------------------------------------------------------------------

  ghost const PUBLISHING := CHOSEN.(rec := Begin(CHOSEN.rec), term := Term(Publishing, false, false, false))
  ghost const LEADING := PUBLISHING.(pod := Pod(true, 1), term := Term(Working, false, true, false))

  lemma Lead() returns (run: Run)
    ensures Shows(run, LEADING, LeaseState(ME, 1))
  {
    run := Startup();
    run := Do(run, CHOSEN, LeaseState(ME, 1), Call(BeginTerm), PUBLISHING);
    run := Do(run, PUBLISHING, LeaseState(ME, 1), Call(Published), LEADING);
  }

  ghost const HALTING := LEADING.(
    pod := Pod(false, 1), rec := Recorded(HealthStopped(LEADING.rec)), term := Term(Working, true, true, false),
    sh := Shutdown(JoiningTerm, true, true, true, LeaseState("", 0), false))

  lemma HaltLeading() returns (run: Run)
    ensures Shows(run, HALTING, LeaseState(ME, 1))
  {
    run := Lead();
    var l := LeaseState(ME, 1);
    var p := LEADING.(sh := LEADING.sh.(at := Signalled), rec := HealthStopped(LEADING.rec));
    run := Do(run, LEADING, l, Halt(Signal), p);
    var q := p.(sh := p.sh.(at := Recording, withTerm := true), rec := Recorded(p.rec));
    run := Do(run, p, l, Halt(RecordShutdown), q);
    p := q.(sh := q.sh.(at := Asked, wasLeader := true));
    run := Do(run, q, l, Halt(AskElector(true)), p);
    q := p.(sh := p.sh.(at := Unlabelling));
    run := Do(run, p, l, Halt(StopFollower), q);
    p := q.(sh := q.sh.(at := Cancelling), pod := Pod(false, 1));
    run := Do(run, q, l, Halt(RemoveLabel(true)), p);
    run := Do(run, p, l, Halt(CancelOwnTerm), HALTING);
  }

  ghost const UNWOUND := HALTING.(rec := End(HALTING.rec), term := Term(Returned, true, false, true))

  lemma UnwindTerm() returns (run: Run)
    ensures Shows(run, UNWOUND, LeaseState(ME, 1))
  {
    run := HaltLeading();
    var l, p := LeaseState(ME, 1), HALTING;
    var q := p.(term := Term(Working, true, false, false));
    run := Do(run, p, l, Call(WorkerReturns), q);
    p := q.(term := Term(Unwinding, true, false, false));
    run := Do(run, q, l, Call(TermOver), p);
    q := p.(term := Term(Flipping, true, false, false));
    run := Do(run, p, l, Call(CancelTerm), q);
    p := q.(rec := End(q.rec), term := Term(CallbackPoint.Closing, true, false, false));
    run := Do(run, q, l, Call(FlipState), p);
    q := p.(term := Term(Leaving, true, false, true));
    run := Do(run, p, l, Call(CloseDone), q);
    run := Do(run, q, l, Call(CallbackReturns), UNWOUND);
  }

  ghost const CUT := UNWOUND.(el := Election(Holding, true), sh := UNWOUND.sh.(at := JoiningElection))

  lemma DrainAndCut() returns (run: Run)
    ensures Shows(run, CUT, LeaseState(ME, 1))
  {
    run := UnwindTerm();
    var l, p := LeaseState(ME, 1), UNWOUND.(sh := UNWOUND.sh.(at := Draining));
    run := Do(run, UNWOUND, l, Halt(JoinTerm(true)), p);
    var q := p.(sh := p.sh.(at := StoppingElection));
    run := Do(run, p, l, Halt(Drain(true)), q);
    run := Do(run, q, l, Halt(CancelElection), CUT);
  }

  ghost const JOINED := CUT.(el := Election(Gone, true), sh := CUT.sh.(at := Clearing))

  lemma JoinEverything() returns (run: Run)
    ensures Shows(run, JOINED, LeaseState(ME, 1))
  {
    run := DrainAndCut();
    var l, p := LeaseState(ME, 1), CUT.(el := Election(Stopping, true));
    run := Do(run, CUT, l, Elector(Stop), p);
    var q := p.(el := Election(Gone, true));
    run := Do(run, p, l, Elector(Stopped), q);
    p := q.(sh := q.sh.(at := JoiningCallback));
    run := Do(run, q, l, Halt(JoinElection(true)), p);
    run := Do(run, p, l, Halt(JoinCallback(true)), JOINED);
  }

  /** The fast handoff is not only safe, it happens: a leader whose term, handlers, election and callback
      all end in time clears the Lease it still holds. */
  lemma CleanShutdownHandsOver() returns (run: Run)
    ensures Init(ORIGIN) && IsRun(ORIGIN, run) && ME in run.now.replicas
    ensures run.now.replicas[ME].sh.cleared && run.now.lease.holder == ""
  {
    run := JoinEverything();
    var l := LeaseState(ME, 1);
    var p := JOINED.(sh := JOINED.sh.(at := Fetched, fetched := l));
    run := Do(run, JOINED, l, Halt(GetLease(true, l)), p);
    run := Do(run, p, l, Halt(PutLease(true)), p.(sh := p.sh.(at := Finished, cleared := true)));
  }

  // ---- a demotion that leaves a context alive ----------------------------------------------------

  /** A run to a handler that outlives leadership with a live context: it is admitted while the label is
      still being published, and the publication fails for good. */
  lemma LiveContextWithoutLeadership() returns (run: Run)
    ensures Init(ORIGIN) && IsRun(ORIGIN, run) && ME in run.now.replicas
    ensures var p := run.now.replicas[ME];
      p.rpc.handlers > 0 && !p.rec.leader && !p.term.cancelled
  {
    run := Startup();
    var l := LeaseState(ME, 1);
    run := Do(run, CHOSEN, l, Call(BeginTerm), PUBLISHING);
    var p := PUBLISHING.(rec := K8s(PUBLISHING.rec, true));
    run := Do(run, PUBLISHING, l, Life(Reachable(true)), p);
    var q := p.(rpc := Traffic(1, 1));
    run := Do(run, p, l, Life(Admit), q);
    p := q.(term := q.term.(at := Unwinding), dem := q.dem.(onPublish := Pending));
    run := Do(run, q, l, Call(Relinquish), p);
    run := Do(run, p, l, Demote(false, RecordDemotion), p.(dem := p.dem.(onPublish := Won), rec := Demoted(p.rec)));
  }

  // ---- a loss before the term begins -------------------------------------------------------------

  /** The process runs, its election is over, its term too, and nobody is going to end the process. */
  predicate Stranded(p: Replica) {
    && p.stage.Electing? && p.el.at.Gone? && p.term.at.Returned?
    && !p.rec.leader && !p.rec.shuttingDown && p.dem.onStopped.NoDemotion? && p.dem.onPublish.NoDemotion?
  }

  lemma StrandedStep(p: Replica, m: Move, p': Replica)
    requires Stranded(p) && ReplicaNext(p, m, p')
    ensures Stranded(p') || p'.stage.Down? || p'.rec.shuttingDown
  {
  }

  lemma StrandedOrEnding(s: System, step: Step, s': System, id: string)
    requires Inv(s) && Next(s, step, s') && id in s.replicas
    ensures id in s'.replicas && s.replicas[id].pod.incarnation <= s'.replicas[id].pod.incarnation
    ensures var p, p' := s.replicas[id], s'.replicas[id];
      (Stranded(p) || p.stage.Down? || p.rec.shuttingDown) && p'.pod.incarnation == p.pod.incarnation ==>
        Stranded(p') || p'.stage.Down? || p'.rec.shuttingDown
  {
    if step.By? && step.id == id {
      var p, p' := s.replicas[id], s'.replicas[id];
      MovesAreOk(p, step.move, p');
      if Stranded(p) {
        StrandedStep(p, step.move, p');
      }
    }
  }

  /** A stranded process stays so until it is signalled or dies: on no run does it become a leader, a
      candidate or a demoted process again. */
  lemma {:induction false} StrandedStays(start: System, first: Run, later: Run, id: string)
    requires Init(start) && IsRun(start, first) && IsRun(first.now, later)
    requires id in first.now.replicas && Stranded(first.now.replicas[id])
    ensures id in later.now.replicas
    ensures later.now.replicas[id].pod.incarnation >= first.now.replicas[id].pod.incarnation
    ensures var p := later.now.replicas[id];
      p.pod.incarnation == first.now.replicas[id].pod.incarnation ==>
        Stranded(p) || p.stage.Down? || p.rec.shuttingDown
  {
    match later
    case Start(s) =>
    case Then(before, step, s) =>
      StrandedStays(start, first, before, id);
      InvHolds(start, first);
      InvAlways(first.now, before);
      StrandedOrEnding(before.now, step, s, id);
  }

  /** The election is over before the launched acquisition callback began its term. */
  predicate LostEarly(p: Replica) {
    && p.stage.Electing? && p.el.at.Gone? && p.term.at.Launched? && !p.term.worker && !p.term.done
    && !p.rec.shuttingDown && p.dem.onStopped.NoDemotion? && p.dem.onPublish.NoDemotion?
  }

  /** The end of the callback of such a term. */
  function Unwind(p: Replica): Replica {
    p.(rec := End(p.rec), term := Term(Returned, true, false, true))
  }

  lemma UnwindLate(start: System, before: Run, id: string, p: Replica, l: LeaseState) returns (run: Run)
    requires ShowsFrom(start, before, id, p, l) && p.stage.Electing? && p.term == Term(Unwinding, true, false, false)
    ensures ShowsFrom(start, run, id, Unwind(p), l)
  {
    var q := p.(term := Term(Flipping, true, false, false));
    run := Extend(start, before, id, p, l, Call(CancelTerm), q);
    var r := q.(rec := End(q.rec), term := Term(CallbackPoint.Closing, true, false, false));
    run := Extend(start, run, id, q, l, Call(FlipState), r);
    q := r.(term := Term(Leaving, true, false, true));
    run := Extend(start, run, id, r, l, Call(CloseDone), q);
    run := Extend(start, run, id, q, l, Call(CallbackReturns), Unwind(p));
  }

  /** The late callback begins its term on a cancelled context, unwinds, and strands the process. */
  lemma LateTermStrands(start: System, before: Run, id: string, p: Replica, l: LeaseState) returns (run: Run)
    requires ShowsFrom(start, before, id, p, l) && LostEarly(p)
    ensures IsRun(start, run) && id in run.now.replicas && run.now.replicas[id].pod == p.pod
    ensures Stranded(run.now.replicas[id]) && run.now.replicas[id].rec.everLed
  {
    var q := p.(rec := Begin(p.rec), term := Term(Publishing, true, false, false));
    run := Extend(start, before, id, p, l, Call(BeginTerm), q);
    var r := q.(term := Term(Unwinding, true, false, false));
    run := Extend(start, run, id, q, l, Call(PublishInterrupted), r);
    run := UnwindLate(start, run, id, r, l);
  }

  /** The election may give up at any moment after acquiring. */
  lemma LoseEarly(start: System, before: Run, id: string, p: Replica, l: LeaseState) returns (run: Run)
    requires ShowsFrom(start, before, id, p, l) && p.el.at.Holding? && LostEarly(p.(el := p.el.(at := Gone)))
    requires !p.rec.everLed
    ensures ShowsFrom(start, run, id, p.(el := p.el.(at := Gone)), l)
  {
    var q := p.(el := p.el.(at := Stopping));
    run := Extend(start, before, id, p, l, Elector(Stop), q);
    run := Extend(start, run, id, q, l, Elector(Stopped), p.(el := p.el.(at := Gone)));
  }

  /** If the election gives up after acquiring but before its acquisition callback began the term, the
      stop callback takes the process for one that never led: no demotion follows, and the process stays
      up as a follower whose election is over. */
  lemma LossBeforeTermStrands() returns (run: Run)
    ensures Init(ORIGIN) && IsRun(ORIGIN, run) && ME in run.now.replicas
    ensures Stranded(run.now.replicas[ME]) && run.now.replicas[ME].rec.everLed
  {
    run := Startup();
    run := LoseEarly(ORIGIN, run, ME, CHOSEN, LeaseState(ME, 1));
    run := LateTermStrands(ORIGIN, run, ME, CHOSEN.(el := Election(Gone, false)), LeaseState(ME, 1));
  }

  /** The process is over, its shutdown is recorded, or it led and its election has yet to report the end
      of leadership. */
  predicate Answerable(p: Replica) {
    p.stage.Down? || p.rec.shuttingDown || (p.rec.everLed && p.el.at in {Holding, Stopping, Demoting})
  }

  lemma AnswerableThroughHalt(p: Replica, a: ShutdownStep, p': Replica)
    requires Sound(p) && Answerable(p) && ShutdownNext(p, a, p')
    ensures Answerable(p')
  {
  }

  lemma AnswerableThroughDemotion(p: Replica, byElection: bool, a: DemotionStep, p': Replica)
    requires Answerable(p) && DemotionNext(p, byElection, a, p')
    ensures Answerable(p')
  {
  }

  lemma AnswerableThroughLife(p: Replica, a: LifeStep, p': Replica)
    requires Sound(p) && Answerable(p) && LifeNext(p, a, p') && p'.pod.incarnation == p.pod.incarnation
    ensures Answerable(p')
  {
  }

  lemma AnswerableStays(s: System, step: Step, s': System, id: string)
    requires Inv(s) && Next(s, step, s') && id in s.replicas
    ensures id in s'.replicas && s.replicas[id].pod.incarnation <= s'.replicas[id].pod.incarnation
    ensures Answerable(s.replicas[id]) && s'.replicas[id].pod.incarnation == s.replicas[id].pod.incarnation ==>
      Answerable(s'.replicas[id])
  {
    if step.By? && step.id == id {
      var p, p' := s.replicas[id], s'.replicas[id];
      MovesAreOk(p, step.move, p');
      if Answerable(p) && p'.pod.incarnation == p.pod.incarnation {
        match step.move
        case Life(a) => AnswerableThroughLife(p, a, p');
        case Demote(byElection, a) => AnswerableThroughDemotion(p, byElection, a, p');
        case Halt(a) => AnswerableThroughHalt(p, a, p');
        case _ =>
      }
    }
  }

  /** A process that has led while its election still runs never strands, as long as it lives. */
  lemma {:induction false} NeverStrandsLater(start: System, first: Run, later: Run, id: string)
    requires Init(start) && IsRun(start, first) && IsRun(first.now, later)
    requires id in first.now.replicas && Answerable(first.now.replicas[id])
    ensures id in later.now.replicas
    ensures later.now.replicas[id].pod.incarnation >= first.now.replicas[id].pod.incarnation
    ensures later.now.replicas[id].pod.incarnation == first.now.replicas[id].pod.incarnation ==>
      Answerable(later.now.replicas[id]) && !Stranded(later.now.replicas[id])
  {
    InvHolds(start, first);
    match later
    case Start(s) =>
    case Then(before, step, s) =>
      NeverStrandsLater(start, first, before, id);
      InvAlways(first.now, before);
      AnswerableStays(before.now, step, s, id);
  }

  /** Some continuation strands the replica before it restarts. */
  ghost predicate CanStrand(s: System, id: string)
    requires id in s.replicas
  {
    exists later :: IsRun(s, later) && StrandsIn(s, later, id)
  }

  ghost predicate StrandsIn(s: System, later: Run, id: string)
    requires id in s.replicas
  {
    && id in later.now.replicas && Stranded(later.now.replicas[id])
    && later.now.replicas[id].pod.incarnation == s.replicas[id].pod.incarnation
  }

  /** The election runs and no shutdown is recorded. */
  predicate Competing(p: Replica) {
    p.stage.Electing? && p.el.at in {Trying, Holding, Stopping} && !p.rec.shuttingDown
  }

  /** Before its term began, an election that ends at once strands the process. */
  lemma CanStrandBefore(s: System, id: string)
    requires Inv(s) && id in s.replicas && Competing(s.replicas[id]) && !Begun(s.replicas[id].term.at)
    ensures CanStrand(s, id)
  {
    var p, run := s.replicas[id], Start(s);
    var l := s.lease;
    if p.el.at.Trying? {
      var q := p.(el := p.el.(at := Holding), term := p.term.(at := Launched));
      run := Extend(s, run, id, p, l, Elector(Acquire), q);
      p, l := q, LeaseAfter(id, l, Elector(Acquire));
    }
    if p.el.at.Holding? {
      run := LoseEarly(s, run, id, p, l);
    } else {
      run := Extend(s, run, id, p, l, Elector(Stopped), p.(el := p.el.(at := Gone)));
    }
    run := LateTermStrands(s, run, id, p.(el := p.el.(at := Gone)), l);
    assert StrandsIn(s, run, id);
  }

  /** The exact condition: a reachable process whose election runs and that is not shutting down can still
      end up stranded if and only if its term has not begun yet. */
  lemma StrandsExactly(start: System, run: Run, id: string)
    requires Init(start) && IsRun(start, run) && id in run.now.replicas && Competing(run.now.replicas[id])
    ensures CanStrand(run.now, id) <==> run.now.replicas[id].term.at in {NotLaunched, Launched}
  {
    InvHolds(start, run);
    if !Begun(run.now.replicas[id].term.at) {
      CanStrandBefore(run.now, id);
    } else if later :| IsRun(run.now, later) && StrandsIn(run.now, later, id) {
      NeverStrandsLater(start, run, later, id);
    }
  }

  /** In every reachable state the stop callback of the election demotes if and only if the term has begun
      and no shutdown is recorded. */
  lemma StopDemotesExactly(start: System, run: Run, id: string, next: System)
    requires Init(start) && IsRun(start, run) && id in run.now.replicas
    requires Next(run.now, By(id, Elector(Stopped)), next)
    ensures var p := run.now.replicas[id];
      next.replicas[id].dem.onStopped == Pending <==> p.term.at !in {NotLaunched, Launched} && !p.rec.shuttingDown
  {
    InvHolds(start, run);
  }
}
