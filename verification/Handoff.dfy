/** Replicas over one Lease: startup, election, the leadership term, demotion, graceful shutdown and the
    fast handoff, as interleaved steps of the goroutines over the locked record (leader.go, main.go). */
module Handoff {
  import opened Leadership

  // ---- program points ---------------------------------------------------------------------------

  /** How far the process has come; the election starts last. */
  datatype Stage = Down | Booting | Purged | Listening | Electing

  /** The election goroutine. */
  datatype ElectionPoint = Idle | Trying | Holding | Stopping | Demoting | Gone

  datatype Election = Election(at: ElectionPoint, cancelled: bool)

  /** The acquisition callback, from its launch to the close of its channel. */
  datatype CallbackPoint =
    | NotLaunched | Launched | Publishing | Working | Unwinding | Flipping | Closing | Leaving | Returned

  /** The callback with its term: whether the term context is cancelled, whether the background worker
      runs, and whether the done channel is closed. */
  datatype Term = Term(at: CallbackPoint, cancelled: bool, worker: bool, done: bool)

  /** A demotion goroutine; `Lost` means that somebody else had recorded the shutdown already. */
  datatype DemotionPoint = NoDemotion | Pending | Won | TermCancelled | Waited | ElectionStopped | Lost

  /** The demotion of the election's stop callback, which may have been given a term, the demotion of a
      failed publication, and the calls of exit(1). */
  datatype Demotions = Demotions(onStopped: DemotionPoint, withTerm: bool, onPublish: DemotionPoint, exits: nat)

  /** The shutdown goroutine; `Yielded` means that a demotion had recorded the shutdown already. */
  datatype ShutdownPoint =
    | NotSignalled | Signalled | Yielded | Recording | Asked | Unlabelling | Cancelling | JoiningTerm | Draining
    | StoppingElection | JoiningElection | JoiningCallback | Clearing | Fetched | Finished

  datatype LeaseState = LeaseState(holder: string, version: nat)

  /** The shutdown with its locals, and whether it cleared the Lease. */
  datatype Shutdown = Shutdown(
    at: ShutdownPoint, withTerm: bool, wasLeader: bool, quiesced: bool, fetched: LeaseState, cleared: bool)

  /** The handlers in flight, and how many RPCs were ever admitted. */
  datatype Traffic = Traffic(handlers: nat, admitted: nat)

  /** The pod carries the leader label across restarts of its container. */
  datatype Pod = Pod(labelled: bool, incarnation: nat)

  datatype Replica = Replica(
    pod: Pod, stage: Stage, rec: Locked, el: Election, term: Term, dem: Demotions, sh: Shutdown, rpc: Traffic)

  function Booted(pod: Pod): Replica {
    Replica(pod, Booting, Fresh(true), Election(Idle, false),
      Term(NotLaunched, false, false, false), Demotions(NoDemotion, false, NoDemotion, 0),
      Shutdown(NotSignalled, false, false, true, LeaseState("", 0), false), Traffic(0, 0))
  }

  /** The end of a process takes its handlers and its worker with it. */
  function Dead(p: Replica): Replica {
    p.(stage := Down, term := p.term.(worker := false), rpc := p.rpc.(handlers := 0))
  }

  predicate Begun(at: CallbackPoint) {
    !at.NotLaunched? && !at.Launched?
  }

  /** Cancelling the election, or its end, cancels the context the term context derives from. */
  predicate ParentCancelled(el: Election) {
    el.cancelled || el.at.Stopping? || el.at.Demoting? || el.at.Gone?
  }

  function CancelBegun(t: Term): Term {
    if Begun(t.at) then t.(cancelled := true) else t
  }

  // ---- steps of the process and its handlers -----------------------------------------------------

  datatype LifeStep =
    | Restart | Purge(ok: bool, applied: bool) | Abort | Listen | Elect
    | Admit | HandlerReturns | Reachable(ok: bool) | Crash

  predicate Serves(stage: Stage) {
    stage.Listening? || stage.Electing?
  }

  ghost predicate LifeNext(p: Replica, a: LifeStep, p': Replica) {
    match a
    case Restart => p.stage.Down? && p' == Booted(p.pod.(incarnation := p.pod.incarnation + 1))
    case Purge(ok, applied) =>
      && p.stage.Booting?
      && p' == p.(pod := p.pod.(labelled := if ok || applied then false else p.pod.labelled),
                  stage := if ok then Purged else Booting)
    case Abort => p.stage.Booting? && p' == Dead(p)
    case Listen => p.stage.Purged? && p' == p.(stage := Listening)
    case Elect => p.stage.Listening? && p' == p.(stage := Electing, el := Election(Trying, false))
    case Admit =>
      && Serves(p.stage) && Admits(true, p.rec, p.term.cancelled)
      && p' == p.(rpc := Traffic(p.rpc.handlers + 1, p.rpc.admitted + 1))
    case HandlerReturns => p.rpc.handlers > 0 && p' == p.(rpc := p.rpc.(handlers := p.rpc.handlers - 1))
    case Reachable(ok) => Serves(p.stage) && p' == p.(rec := K8s(p.rec, ok))
    case Crash => !p.stage.Down? && p' == Dead(p)
  }

  // ---- steps of the election goroutine -----------------------------------------------------------

  datatype ElectionStep = Acquire | Renew | Stop | Stopped

  ghost predicate ElectionNext(p: Replica, a: ElectionStep, p': Replica) {
    && p.stage.Electing?
    && match a
       case Acquire => p.el.at.Trying? && p' == p.(el := p.el.(at := Holding), term := p.term.(at := Launched))
       case Renew => p.el.at.Holding? && p' == p
       case Stop =>
         && (p.el.at.Holding? || (p.el.at.Trying? && p.el.cancelled))
         && p' == p.(el := p.el.(at := Stopping), term := CancelBegun(p.term))
       case Stopped =>
         && p.el.at.Stopping?
         && p' == if p.rec.shuttingDown || !p.rec.everLed then p.(el := p.el.(at := Gone))
                  else p.(el := p.el.(at := Demoting), dem := p.dem.(onStopped := Pending, withTerm := p.rec.installed))
  }

  // ---- steps of the acquisition callback ---------------------------------------------------------

  datatype CallbackStep =
    | BeginTerm | PublishFails(applied: bool) | Published | PublishInterrupted | Relinquish
    | WorkerReturns | TermOver | CancelTerm | FlipState | CloseDone | CallbackReturns

  ghost predicate CallbackNext(p: Replica, a: CallbackStep, p': Replica) {
    && p.stage.Electing?
    && match a
       case BeginTerm =>
         && p.term.at.Launched?
         && p' == if p.rec.shuttingDown then p.(term := p.term.(at := Leaving))
                  else p.(rec := Begin(p.rec), term := p.term.(at := Publishing, cancelled := ParentCancelled(p.el)))
       case PublishFails(applied) =>
         && p.term.at.Publishing?
         && p' == p.(pod := p.pod.(labelled := p.pod.labelled || applied))
       case Published =>
         && p.term.at.Publishing?
         && p' == p.(pod := p.pod.(labelled := true), term := p.term.(at := Working, worker := true))
       case PublishInterrupted =>
         p.term.at.Publishing? && p.term.cancelled && p' == p.(term := p.term.(at := Unwinding))
       case Relinquish =>
         p.term.at.Publishing? && p' == p.(term := p.term.(at := Unwinding), dem := p.dem.(onPublish := Pending))
       case WorkerReturns => p.term.worker && p' == p.(term := p.term.(worker := false))
       case TermOver =>
         p.term.at.Working? && p.term.cancelled && !p.term.worker && p' == p.(term := p.term.(at := Unwinding))
       case CancelTerm => p.term.at.Unwinding? && p' == p.(term := p.term.(at := Flipping, cancelled := true))
       case FlipState => p.term.at.Flipping? && p' == p.(rec := End(p.rec), term := p.term.(at := Closing))
       case CloseDone => p.term.at.Closing? && p' == p.(term := p.term.(at := Leaving, done := true))
       case CallbackReturns => p.term.at.Leaving? && p' == p.(term := p.term.(at := Returned))
  }

  // ---- steps of the two demotion goroutines ------------------------------------------------------

  datatype DemotionStep = RecordDemotion | CancelItsTerm | StopWaiting | StopTheElection | Exit

  function At(dem: Demotions, byElection: bool): DemotionPoint {
    if byElection then dem.onStopped else dem.onPublish
  }

  function To(dem: Demotions, byElection: bool, d: DemotionPoint): Demotions {
    if byElection then dem.(onStopped := d) else dem.(onPublish := d)
  }

  ghost predicate DemotionNext(p: Replica, byElection: bool, a: DemotionStep, p': Replica) {
    && p.stage.Electing?
    && match a
       case RecordDemotion =>
         && At(p.dem, byElection).Pending?
         && p' == if p.rec.shuttingDown
                  then p.(dem := To(p.dem, byElection, Lost), el := if byElection then p.el.(at := Gone) else p.el)
                  else p.(dem := To(p.dem, byElection, Won), rec := Demoted(p.rec))
       case CancelItsTerm =>
         && At(p.dem, byElection).Won?
         && p' == p.(dem := To(p.dem, byElection, TermCancelled),
                     term := if byElection && !p.dem.withTerm then p.term else p.term.(cancelled := true))
       case StopWaiting =>
         At(p.dem, byElection).TermCancelled? && p' == p.(dem := To(p.dem, byElection, Waited))
       case StopTheElection =>
         && At(p.dem, byElection).Waited?
         && p' == p.(dem := To(p.dem, byElection, ElectionStopped),
                     el := p.el.(cancelled := true), term := CancelBegun(p.term))
       case Exit =>
         && At(p.dem, byElection).ElectionStopped?
         && p' == Dead(p).(dem := p.dem.(exits := p.dem.exits + 1))
  }

  // ---- steps of the shutdown goroutine -----------------------------------------------------------

  /** `inTime` says that a bounded wait saw its channel closed; `applied` that a write took effect. */
  datatype ShutdownStep =
    | Signal | RecordShutdown | AskElector(isLeader: bool) | StopFollower | RemoveLabel(applied: bool)
    | CancelOwnTerm | JoinTerm(inTime: bool) | Drain(inTime: bool) | CancelElection
    | JoinElection(inTime: bool) | JoinCallback(inTime: bool)
    | GetLease(ok: bool, l: LeaseState) | PutLease(applied: bool) | Leave

  /** The part of the shutdown that only moves its own goroutine on. */
  ghost predicate Joins(p: Replica, a: ShutdownStep, sh': Shutdown) {
    var sh := p.sh;
    match a
    case AskElector(isLeader) => sh.at.Recording? && sh' == sh.(at := Asked, wasLeader := isLeader, quiesced := true)
    case JoinTerm(inTime) =>
      && sh.at.JoiningTerm? && (inTime ==> p.term.done)
      && sh' == sh.(at := Draining, quiesced := sh.quiesced && inTime)
    case Drain(inTime) =>
      && sh.at.Draining? && (inTime ==> p.rpc.handlers == 0)
      && sh' == sh.(at := StoppingElection, quiesced := sh.quiesced && inTime)
    case JoinElection(inTime) =>
      && sh.at.JoiningElection? && (inTime ==> p.el.at.Gone?)
      && sh' == sh.(at := if sh.wasLeader then JoiningCallback else Finished, quiesced := sh.quiesced && inTime)
    case JoinCallback(inTime) =>
      && sh.at.JoiningCallback? && (inTime ==> p.term.at.Returned?)
      && sh' == sh.(at := if sh.quiesced && inTime then Clearing else Finished, quiesced := sh.quiesced && inTime)
    case GetLease(ok, l) =>
      && sh.at.Clearing?
      && sh' == if ok then sh.(at := Fetched, fetched := l) else sh.(at := Finished)
    case PutLease(applied) => sh.at.Fetched? && sh' == sh.(at := Finished, cleared := applied)
    case _ => false
  }

  ghost predicate ShutdownNext(p: Replica, a: ShutdownStep, p': Replica) {
    && p.stage.Electing?
    && match a
       case Signal => p.sh.at.NotSignalled? && p' == p.(sh := p.sh.(at := Signalled), rec := HealthStopped(p.rec))
       case RecordShutdown =>
         && p.sh.at.Signalled?
         && p' == if p.rec.shuttingDown then p.(sh := p.sh.(at := Yielded))
                  else p.(sh := p.sh.(at := Recording, withTerm := p.rec.installed), rec := Recorded(p.rec))
       case StopFollower =>
         && p.sh.at.Asked?
         && var moved := p.(sh := p.sh.(at := if p.sh.withTerm then Unlabelling else Draining));
            p' == if p.sh.wasLeader then moved
                  else moved.(el := p.el.(cancelled := true), term := CancelBegun(p.term))
       case RemoveLabel(applied) =>
         && p.sh.at.Unlabelling?
         && p' == p.(sh := p.sh.(at := Cancelling), pod := p.pod.(labelled := p.pod.labelled && !applied))
       case CancelOwnTerm =>
         p.sh.at.Cancelling? && p' == p.(sh := p.sh.(at := JoiningTerm), term := p.term.(cancelled := true))
       case CancelElection =>
         && p.sh.at.StoppingElection?
         && p' == p.(sh := p.sh.(at := JoiningElection), el := p.el.(cancelled := true), term := CancelBegun(p.term))
       case Leave => p.sh.at.Finished? && p' == Dead(p)
       case _ => Joins(p, a, p'.sh) && p' == p.(sh := p'.sh)
  }

  // ---- what one replica keeps --------------------------------------------------------------------

  predicate OwnsDemotion(d: DemotionPoint) {
    d.Won? || d.TermCancelled? || d.Waited? || d.ElectionStopped?
  }

  predicate OwnsShutdown(at: ShutdownPoint) {
    !at.NotSignalled? && !at.Signalled? && !at.Yielded?
  }

  predicate InTerm(at: CallbackPoint) {
    at.Publishing? || at.Working? || at.Unwinding? || at.Flipping?
  }

  /** Before the election starts nothing but startup happened. */
  predicate StartupOk(p: Replica) {
    p.stage.Booting? || p.stage.Purged? || p.stage.Listening? ==>
      && p.el.at.Idle? && p.term == Term(NotLaunched, false, false, false)
      && p.dem == Demotions(NoDemotion, false, NoDemotion, 0) && p.sh.at.NotSignalled? && !p.sh.cleared
      && !p.rec.leader && !p.rec.everLed && !p.rec.shuttingDown && !p.el.cancelled
  }

  /** The life of the term. */
  predicate TermOk(rec: Locked, el: Election, t: Term) {
    && (rec.installed <==> InTerm(t.at)) && (rec.leader ==> rec.installed)
    && (rec.installed ==> rec.everLed) && (rec.everLed ==> Begun(t.at))
    && (Begun(t.at) && !rec.shuttingDown ==> rec.everLed)
    && (el.at.Idle? || el.at.Trying? ==> t.at.NotLaunched?)
    && (t.at.NotLaunched? ==> el.at.Idle? || el.at.Trying? || el.cancelled)
    && (rec.installed && ParentCancelled(el) ==> t.cancelled)
    && (t.worker ==> t.at.Working?)
    && (t.at.Flipping? || t.at.Closing? ==> t.cancelled)
    && (t.done ==> t.cancelled && (t.at.Leaving? || t.at.Returned?))
  }

  /** One terminal path. */
  predicate PathOk(shuttingDown: bool, dem: Demotions, sh: Shutdown) {
    && (shuttingDown <==> OwnsShutdown(sh.at) || OwnsDemotion(dem.onStopped) || OwnsDemotion(dem.onPublish))
    && !(OwnsShutdown(sh.at) && (OwnsDemotion(dem.onStopped) || OwnsDemotion(dem.onPublish)))
    && !(OwnsDemotion(dem.onStopped) && OwnsDemotion(dem.onPublish))
    && (dem.exits > 0 ==> OwnsDemotion(dem.onStopped) || OwnsDemotion(dem.onPublish))
    && (sh.cleared ==> sh.at.Finished?)
  }

  /** Where the demotions come from. */
  predicate OriginOk(stage: Stage, el: Election, t: Term, dem: Demotions) {
    && (dem.onPublish != NoDemotion ==> Begun(t.at) && !t.at.Publishing? && !t.at.Working?)
    && (dem.onStopped != NoDemotion ==> el.at == if dem.onStopped.Lost? then Gone else Demoting)
    && (if stage.Down? then dem.exits <= 1 else dem.exits == 0)
  }

  predicate PastCallback(at: ShutdownPoint) {
    at.Clearing? || at.Fetched?
  }

  predicate PastElection(at: ShutdownPoint) {
    at.JoiningCallback? || PastCallback(at)
  }

  predicate PastDrain(at: ShutdownPoint) {
    at.StoppingElection? || at.JoiningElection? || PastElection(at)
  }

  predicate PastTerm(at: ShutdownPoint) {
    at.Draining? || PastDrain(at)
  }

  /** Nothing of the leadership is left running, and nothing can start again. */
  predicate Quiet(p: Replica) {
    p.rec.shuttingDown && p.rpc.handlers == 0 && !p.term.worker && p.el.at.Gone? && p.term.at.Returned?
  }

  /** What the shutdown has proven while it still counts as quiesced. */
  predicate DrainOk(p: Replica) {
    && (PastDrain(p.sh.at) && p.sh.quiesced ==> p.rpc.handlers == 0)
    && (PastElection(p.sh.at) && p.sh.quiesced ==> p.el.at.Gone?)
    && (PastElection(p.sh.at) ==> p.sh.wasLeader)
    && (PastCallback(p.sh.at) ==> p.sh.quiesced && p.term.at.Returned?)
    && (PastTerm(p.sh.at) && p.sh.withTerm ==> p.term.cancelled && (p.sh.quiesced ==> p.term.done))
    && (p.sh.at.JoiningTerm? ==> p.term.cancelled)
    && (p.sh.at.Unlabelling? || p.sh.at.Cancelling? || p.sh.at.JoiningTerm? ==> p.sh.withTerm)
    && (OwnsShutdown(p.sh.at) ==> (p.rec.installed ==> p.sh.withTerm) && (p.sh.withTerm ==> p.rec.everLed))
    && (p.sh.cleared ==> p.sh.wasLeader && Quiet(p) && (p.sh.withTerm ==> p.term.done))
  }

  predicate LabelOk(pod: Pod, stage: Stage, everLed: bool) {
    pod.labelled && !everLed ==> stage.Down? || stage.Booting?
  }

  /** The shutdown cancels the election of a follower before it drains, and of a leader after. */
  predicate ElectionCut(sh: Shutdown) {
    match sh.at
    case NotSignalled | Signalled | Yielded | Recording | Asked => false
    case Unlabelling | Cancelling | JoiningTerm | Draining | StoppingElection => !sh.wasLeader
    case _ => true
  }

  predicate CutOk(el: Election, dem: Demotions, sh: Shutdown) {
    el.cancelled <==> dem.onStopped.ElectionStopped? || dem.onPublish.ElectionStopped? || ElectionCut(sh)
  }

  /** Whose context is still live: handlers need a term, and a term without leadership is cancelled unless
      a failed publication recorded its demotion and is about to cancel it. */
  predicate ContextOk(rec: Locked, t: Term, dem: Demotions, handlers: nat) {
    && (handlers > 0 ==> rec.everLed)
    && (rec.everLed && !rec.installed ==> t.cancelled)
    && (rec.installed && !rec.leader ==> t.cancelled || dem.onPublish.Won?)
    && (dem.onPublish.TermCancelled? || dem.onPublish.Waited? || dem.onPublish.ElectionStopped? ==> t.cancelled)
    && (OwnsDemotion(dem.onStopped) || OwnsDemotion(dem.onPublish) ==> !rec.leader)
  }

  /** A term works only behind a published label, until a graceful shutdown takes the label away. */
  predicate RoutedOk(pod: Pod, t: Term, sh: Shutdown) {
    t.at.Working? && !OwnsShutdown(sh.at) ==> pod.labelled
  }

  predicate Sound(p: Replica) {
    && CutOk(p.el, p.dem, p.sh) && ContextOk(p.rec, p.term, p.dem, p.rpc.handlers)
    && StartupOk(p) && TermOk(p.rec, p.el, p.term) && PathOk(p.rec.shuttingDown, p.dem, p.sh)
    && OriginOk(p.stage, p.el, p.term, p.dem) && DrainOk(p) && LabelOk(p.pod, p.stage, p.rec.everLed) && Mirrors(p.rec)
    && RoutedOk(p.pod, p.term, p.sh)
  }

  lemma LifeKeeps(p: Replica, a: LifeStep, p': Replica)
    requires Sound(p) && LifeNext(p, a, p')
    ensures Sound(p')
  {
  }

  lemma ElectionKeeps(p: Replica, a: ElectionStep, p': Replica)
    requires Sound(p) && ElectionNext(p, a, p')
    ensures Sound(p')
  {
  }

  lemma CallbackKeeps(p: Replica, a: CallbackStep, p': Replica)
    requires Sound(p) && CallbackNext(p, a, p')
    ensures Sound(p')
  {
  }

  lemma RecordDemotionKeeps(p: Replica, byElection: bool, p': Replica)
    requires Sound(p) && DemotionNext(p, byElection, RecordDemotion, p')
    ensures Sound(p')
  {
  }

  lemma RestOfDemotionKeeps(p: Replica, byElection: bool, a: DemotionStep, p': Replica)
    requires Sound(p) && DemotionNext(p, byElection, a, p') && !a.RecordDemotion?
    ensures Sound(p')
  {
  }

  lemma DemotionKeeps(p: Replica, byElection: bool, a: DemotionStep, p': Replica)
    requires Sound(p) && DemotionNext(p, byElection, a, p')
    ensures Sound(p')
  {
    if a.RecordDemotion? {
      RecordDemotionKeeps(p, byElection, p');
    } else {
      RestOfDemotionKeeps(p, byElection, a, p');
    }
  }

  lemma JoinsKeep(p: Replica, a: ShutdownStep, sh': Shutdown)
    requires Sound(p) && p.stage.Electing? && Joins(p, a, sh')
    ensures Sound(p.(sh := sh'))
  {
  }

  predicate IsJoin(a: ShutdownStep) {
    || a.AskElector? || a.JoinTerm? || a.Drain? || a.JoinElection? || a.JoinCallback? || a.GetLease? || a.PutLease?
  }

  predicate IsRecord(a: ShutdownStep) {
    a.Signal? || a.RecordShutdown? || a.RemoveLabel? || a.Leave?
  }

  predicate CutsElection(a: ShutdownStep) {
    a.StopFollower? || a.CancelElection?
  }

  lemma RecordsKeep(p: Replica, a: ShutdownStep, p': Replica)
    requires Sound(p) && ShutdownNext(p, a, p') && IsRecord(a)
    ensures Sound(p')
  {
  }

  lemma CutsKeep(p: Replica, a: ShutdownStep, p': Replica)
    requires Sound(p) && ShutdownNext(p, a, p') && CutsElection(a)
    ensures Sound(p')
  {
  }

  lemma CancelOwnTermKeeps(p: Replica, p': Replica)
    requires Sound(p) && ShutdownNext(p, CancelOwnTerm, p')
    ensures Sound(p')
  {
  }

  lemma ShutdownKeeps(p: Replica, a: ShutdownStep, p': Replica)
    requires Sound(p) && ShutdownNext(p, a, p')
    ensures Sound(p')
  {
    if IsJoin(a) {
      JoinsKeep(p, a, p'.sh);
    } else if IsRecord(a) {
      RecordsKeep(p, a, p');
    } else if CutsElection(a) {
      CutsKeep(p, a, p');
    } else {
      CancelOwnTermKeeps(p, p');
    }
  }

  // ---- the replicas and their Lease --------------------------------------------------------------

  datatype Move =
    | Life(life: LifeStep)
    | Elector(election: ElectionStep)
    | Call(callback: CallbackStep)
    | Demote(byElection: bool, demotion: DemotionStep)
    | Halt(shutdown: ShutdownStep)

  ghost predicate ReplicaNext(p: Replica, m: Move, p': Replica) {
    match m
    case Life(a) => LifeNext(p, a, p')
    case Elector(a) => ElectionNext(p, a, p')
    case Call(a) => CallbackNext(p, a, p')
    case Demote(byElection, a) => DemotionNext(p, byElection, a, p')
    case Halt(a) => ShutdownNext(p, a, p')
  }

  lemma ReplicaKeeps(p: Replica, m: Move, p': Replica)
    requires Sound(p) && ReplicaNext(p, m, p')
    ensures Sound(p')
  {
    match m
    case Life(a) => LifeKeeps(p, a, p');
    case Elector(a) => ElectionKeeps(p, a, p');
    case Call(a) => CallbackKeeps(p, a, p');
    case Demote(byElection, a) => DemotionKeeps(p, byElection, a, p');
    case Halt(a) => ShutdownKeeps(p, a, p');
  }

  /** The Lease answers the read of the owner check, and accepts a clear only at the version read. */
  predicate LeaseAllows(id: string, l: LeaseState, sh: Shutdown, m: Move) {
    && (m.Halt? && m.shutdown.GetLease? && m.shutdown.ok ==> m.shutdown.l == l && l.holder == id)
    && (m.Halt? && m.shutdown.PutLease? && m.shutdown.applied ==> l.version == sh.fetched.version)
  }

  /** Every write of the Lease raises its version. */
  function LeaseAfter(id: string, l: LeaseState, m: Move): LeaseState {
    if m.Elector? && (m.election.Acquire? || m.election.Renew?) then LeaseState(id, l.version + 1)
    else if m == Halt(PutLease(true)) then LeaseState("", l.version + 1)
    else l
  }

  /** Any number of replicas, by identity, over one Lease. */
  datatype System = System(lease: LeaseState, replicas: map<string, Replica>)

  /** A replica makes a move, or somebody else writes the Lease. */
  datatype Step = By(id: string, move: Move) | Outside(holder: string)

  ghost predicate Next(s: System, step: Step, s': System) {
    match step
    case By(id, m) =>
      && id in s.replicas && id in s'.replicas
      && ReplicaNext(s.replicas[id], m, s'.replicas[id])
      && LeaseAllows(id, s.lease, s.replicas[id].sh, m)
      && s' == System(LeaseAfter(id, s.lease, m), s.replicas[id := s'.replicas[id]])
    case Outside(holder) => s' == s.(lease := LeaseState(holder, s.lease.version + 1))
  }

  /** At the start no replica runs; labels left behind by earlier processes may be anywhere. */
  ghost predicate Init(s: System) {
    forall id :: id in s.replicas ==> s.replicas[id] == Dead(Booted(s.replicas[id].pod))
  }

  datatype Run = Start(now: System) | Then(before: Run, step: Step, now: System)

  ghost predicate IsRun(start: System, run: Run) {
    match run
    case Start(s) => s == start
    case Then(before, step, s) => IsRun(start, before) && Next(before.now, step, s)
  }

  /** What the shutdown of a replica read of the Lease is still true as long as nobody wrote it. */
  ghost predicate ReadOk(id: string, l: LeaseState, sh: Shutdown) {
    sh.at.Fetched? ==>
      && sh.fetched.holder == id && sh.fetched.version <= l.version
      && (sh.fetched.version == l.version ==> l.holder == id)
  }

  ghost predicate Inv(s: System) {
    forall id :: id in s.replicas ==> Sound(s.replicas[id]) && ReadOk(id, s.lease, s.replicas[id].sh)
  }

  lemma ReadKeeps(id: string, l: LeaseState, p: Replica, m: Move, p': Replica)
    requires ReplicaNext(p, m, p') && LeaseAllows(id, l, p.sh, m) && ReadOk(id, l, p.sh)
    ensures ReadOk(id, LeaseAfter(id, l, m), p'.sh)
  {
  }

  lemma StepKeeps(s: System, step: Step, s': System)
    requires Inv(s) && Next(s, step, s')
    ensures Inv(s')
  {
    if step.By? {
      var p, p' := s.replicas[step.id], s'.replicas[step.id];
      ReplicaKeeps(p, step.move, p');
      ReadKeeps(step.id, s.lease, p, step.move, p');
    }
  }

  lemma {:induction false} InvAlways(start: System, run: Run)
    requires IsRun(start, run) && Inv(start)
    ensures Inv(run.now)
  {
    match run
    case Start(s) =>
    case Then(before, step, s) =>
      InvAlways(start, before);
      StepKeeps(before.now, step, s);
  }

  lemma InvHolds(start: System, run: Run)
    requires Init(start) && IsRun(start, run)
    ensures Inv(run.now)
  {
    forall id | id in start.replicas ensures Sound(start.replicas[id]) {
      assert Sound(Dead(Booted(start.replicas[id].pod)));
    }
    InvAlways(start, run);
  }

  // ---- the theorems ------------------------------------------------------------------------------

  /** What one move of a replica can and cannot do. */
  predicate MoveOk(p: Replica, p': Replica) {
    && p.pod.incarnation <= p'.pod.incarnation
    && (p.pod.incarnation == p'.pod.incarnation ==>
          && (p.rec.shuttingDown ==> p'.rec.shuttingDown)
          && (p.sh.cleared ==> p'.sh.cleared)
          && p.dem.exits <= p'.dem.exits)
    && (p'.rec.installed && !p.rec.installed ==> !p.rec.shuttingDown && p.term.at.Launched?)
    && (p'.rpc.admitted > p.rpc.admitted ==>
          Serving(p.rec) && p.rec.installed && !p.term.cancelled && p.stage.Electing?)
  }

  lemma HaltsAreOk(p: Replica, a: ShutdownStep, p': Replica)
    requires Sound(p) && ShutdownNext(p, a, p')
    ensures MoveOk(p, p')
  {
  }

  lemma CallsAreOk(p: Replica, a: CallbackStep, p': Replica)
    requires Sound(p) && CallbackNext(p, a, p')
    ensures MoveOk(p, p')
  {
  }

  lemma DemotesAreOk(p: Replica, byElection: bool, a: DemotionStep, p': Replica)
    requires Sound(p) && DemotionNext(p, byElection, a, p')
    ensures MoveOk(p, p')
  {
  }

  lemma LivesAreOk(p: Replica, a: LifeStep, p': Replica)
    requires Sound(p) && LifeNext(p, a, p')
    ensures MoveOk(p, p')
  {
  }

  lemma ElectsAreOk(p: Replica, a: ElectionStep, p': Replica)
    requires ElectionNext(p, a, p')
    ensures MoveOk(p, p')
  {
  }

  lemma MovesAreOk(p: Replica, m: Move, p': Replica)
    requires Sound(p) && ReplicaNext(p, m, p')
    ensures MoveOk(p, p')
  {
    match m
    case Life(a) => LivesAreOk(p, a, p');
    case Elector(a) => ElectsAreOk(p, a, p');
    case Call(a) => CallsAreOk(p, a, p');
    case Demote(byElection, a) => DemotesAreOk(p, byElection, a, p');
    case Halt(a) => HaltsAreOk(p, a, p');
  }

  /** Fast handoff is safe: a process that cleared the Lease has no handler, no worker, no election and
      no callback running, and its shutdown recorded, at that state and for the rest of its life; and it
      never admits another RPC. */
  lemma {:induction false} HandoffIsSafe(start: System, first: Run, later: Run, id: string)
    requires Init(start) && IsRun(start, first) && IsRun(first.now, later)
    requires id in first.now.replicas && first.now.replicas[id].sh.cleared
    ensures id in later.now.replicas
    ensures later.now.replicas[id].pod.incarnation >= first.now.replicas[id].pod.incarnation
    ensures later.now.replicas[id].pod.incarnation == first.now.replicas[id].pod.incarnation ==>
      var p := later.now.replicas[id];
      && p.sh.cleared && p.sh.wasLeader && (p.sh.withTerm ==> p.term.done)
      && p.rec.shuttingDown && p.rpc.handlers == 0 && !p.term.worker && p.el.at == Gone && p.term.at == Returned
      && p.rpc.admitted <= first.now.replicas[id].rpc.admitted
  {
    InvHolds(start, first);
    match later
    case Start(s) =>
    case Then(before, step, s) =>
      HandoffIsSafe(start, first, before, id);
      InvAlways(first.now, before);
      StepKeeps(before.now, step, s);
      if step.By? && step.id == id {
        MovesAreOk(before.now.replicas[id], step.move, s.replicas[id]);
      }
  }

  /** The clear never takes the Lease from a peer: in every reachable state, a step that clears the Lease
      on behalf of a replica finds that replica as the holder just before. */
  lemma ClearNeverSteals(start: System, run: Run, id: string, next: System)
    requires Init(start) && IsRun(start, run)
    requires Next(run.now, By(id, Halt(PutLease(true))), next)
    ensures run.now.lease.holder == id && next.lease == LeaseState("", run.now.lease.version + 1)
  {
    InvHolds(start, run);
  }

  /** A replica that serves its port but has not led since it started does not carry the leader label,
      whatever crashes, exits and restarts went before. */
  lemma NoStaleLabel(start: System, run: Run, id: string)
    requires Init(start) && IsRun(start, run) && id in run.now.replicas
    ensures var p := run.now.replicas[id];
      p.stage in {Listening, Electing} && !p.rec.everLed ==> !p.pod.labelled
  {
    InvHolds(start, run);
  }

  /** One terminal path per process: a recorded shutdown has exactly one owner among the graceful
      shutdown and the two demotions, exit(1) is called at most once, and never by a process that
      cleared the Lease. */
  lemma OneTerminalPath(start: System, run: Run, id: string)
    requires Init(start) && IsRun(start, run) && id in run.now.replicas
    ensures var p := run.now.replicas[id];
      var graceful := p.sh.at !in {NotSignalled, Signalled, Yielded};
      var stopped := p.dem.onStopped in {Won, TermCancelled, Waited, ElectionStopped};
      var published := p.dem.onPublish in {Won, TermCancelled, Waited, ElectionStopped};
      && (p.rec.shuttingDown <==> graceful || stopped || published)
      && !(graceful && stopped) && !(graceful && published) && !(stopped && published)
      && p.dem.exits <= 1 && (p.sh.cleared ==> p.dem.exits == 0)
  {
    InvHolds(start, run);
  }

  /** Within the life of a process a recorded shutdown is never taken back. */
  lemma ShutdownIsFinal(start: System, run: Run, step: Step, next: System, id: string)
    requires Init(start) && IsRun(start, run) && Next(run.now, step, next) && id in run.now.replicas
    requires run.now.replicas[id].rec.shuttingDown
    requires next.replicas[id].pod.incarnation == run.now.replicas[id].pod.incarnation
    ensures next.replicas[id].rec.shuttingDown
  {
    InvHolds(start, run);
    if step.By? && step.id == id {
      MovesAreOk(run.now.replicas[id], step.move, next.replicas[id]);
    }
  }

  /** The term: leadership implies an installed term, the named health status is the serving condition,
      once the done channel is closed the context is cancelled and the worker has returned, and the worker
      runs only in an installed term behind a published label, until a graceful shutdown removes it. */
  lemma TermLifecycle(start: System, run: Run, id: string)
    requires Init(start) && IsRun(start, run) && id in run.now.replicas
    ensures var p := run.now.replicas[id];
      && (p.rec.leader ==> p.rec.installed && p.rec.everLed)
      && (p.term.done ==> p.term.cancelled && !p.term.worker)
      && (!p.rec.healthDown ==> (p.rec.named <==> p.rec.leader && p.rec.k8sOk && !p.rec.shuttingDown))
      && (p.term.worker ==>
            p.rec.installed && (p.pod.labelled || p.sh.at !in {NotSignalled, Signalled, Yielded}))
  {
    InvHolds(start, run);
  }

  /** No term starts after a shutdown was recorded, and every RPC is admitted under a term whose context
      is live. */
  lemma StartsAndAdmissions(start: System, run: Run, step: Step, next: System, id: string)
    requires Init(start) && IsRun(start, run) && Next(run.now, step, next) && id in run.now.replicas
    ensures var p, p' := run.now.replicas[id], next.replicas[id];
      && (p'.rec.installed && !p.rec.installed ==> !p.rec.shuttingDown)
      && (p'.rpc.admitted > p.rpc.admitted ==>
            p.rec.leader && p.rec.k8sOk && !p.rec.shuttingDown && p.rec.installed && !p.term.cancelled)
  {
    InvHolds(start, run);
    if step.By? && step.id == id {
      MovesAreOk(run.now.replicas[id], step.move, next.replicas[id]);
    }
  }

  lemma OnlyDemotionsExit(p: Replica, m: Move, p': Replica)
    requires ReplicaNext(p, m, p') && p'.dem.exits > p.dem.exits
    ensures m.Demote? && m.demotion.Exit?
  {
  }

  /** A process at the end of a demotion. */
  predicate Ended(p: Replica) {
    && p.stage == Down && p.rec.shuttingDown && !p.rec.leader && p.el.cancelled && p.rpc.handlers == 0
    && (p.rec.everLed ==> p.term.cancelled) && !p.term.worker && !p.sh.cleared
  }

  lemma ExitEnds(p: Replica, byElection: bool, p': Replica)
    requires Sound(p) && DemotionNext(p, byElection, Exit, p')
    ensures Ended(p')
  {
  }

  /** What a demotion leaves behind when it exits: no leadership, a cancelled term and election, nothing running,
      and the Lease as it was. */
  lemma ExitLeavesTheLease(start: System, run: Run, step: Step, next: System, id: string)
    requires Init(start) && IsRun(start, run) && Next(run.now, step, next) && id in run.now.replicas
    requires next.replicas[id].dem.exits > run.now.replicas[id].dem.exits
    ensures next.lease == run.now.lease
    ensures var p := next.replicas[id];
      && p.stage == Down && p.rec.shuttingDown && !p.rec.leader && p.el.cancelled && p.rpc.handlers == 0
      && (p.rec.everLed ==> p.term.cancelled) && !p.term.worker && !p.sh.cleared
  {
    InvHolds(start, run);
    var p, p' := run.now.replicas[id], next.replicas[id];
    if step.By? && step.id == id {
      OnlyDemotionsExit(p, step.move, p');
      ExitEnds(p, step.move.byElection, p');
    }
  }

  /** A graceful shutdown takes care of the term there is: past it, no term is installed with a live context, and
      the shutdown still counts as quiesced only if its term is done. It never waits for a term that was not. */
  lemma ShutdownEndsItsTerm(start: System, run: Run, id: string)
    requires Init(start) && IsRun(start, run) && id in run.now.replicas
    ensures var p := run.now.replicas[id];
      && (p.sh.at in {Draining, StoppingElection, JoiningElection, JoiningCallback, Clearing, Fetched} ==>
            && (p.rec.installed || p.sh.withTerm ==> p.term.cancelled)
            && (p.rec.installed ==> !p.sh.quiesced) && (p.sh.withTerm && p.sh.quiesced ==> p.term.done))
      && (p.sh.at in {Unlabelling, Cancelling, JoiningTerm} ==> p.rec.everLed)
  {
    InvHolds(start, run);
  }

  /** The Lease is retained through the drain: while a graceful shutdown unlabels, cancels its term, waits
      for it and drains its handlers, its election keeps renewing if it was a leader, and is cancelled if it
      was a follower, so that a terminating candidate cannot acquire. */
  lemma LeaseRetainedThroughDrain(start: System, run: Run, id: string)
    requires Init(start) && IsRun(start, run) && id in run.now.replicas
    ensures var p := run.now.replicas[id];
      p.sh.at in {Unlabelling, Cancelling, JoiningTerm, Draining, StoppingElection} ==>
        (p.el.cancelled <==> !p.sh.wasLeader)
  {
    InvHolds(start, run);
  }

  /** No handler outlives leadership with a live context, with one exception: between the record of a
      demotion after a failed publication and its cancellation of the term. With handlers in flight these
      are exactly the states in which a context lives on without leadership. */
  lemma ContextsDieWithLeadership(start: System, run: Run, id: string)
    requires Init(start) && IsRun(start, run) && id in run.now.replicas
    ensures var p := run.now.replicas[id];
      p.rpc.handlers > 0 ==> (!p.rec.leader && !p.term.cancelled <==> p.dem.onPublish.Won? && !p.term.cancelled)
  {
    InvHolds(start, run);
  }

  /** A demotion that takes leadership away while handlers are in flight leaves them a live context exactly
      if a failed publication demotes and the term was not cancelled before. */
  lemma DemotionAndContexts(start: System, run: Run, id: string, byElection: bool, next: System)
    requires Init(start) && IsRun(start, run) && id in run.now.replicas
    requires Next(run.now, By(id, Demote(byElection, RecordDemotion)), next)
    requires run.now.replicas[id].rpc.handlers > 0 && !run.now.replicas[id].rec.shuttingDown
    ensures !next.replicas[id].rec.leader && next.replicas[id].rpc.handlers > 0
    ensures !next.replicas[id].term.cancelled <==> !byElection && !run.now.replicas[id].term.cancelled
  {
    InvHolds(start, run);
  }
}
