/** The state of one replica that the leadership mutex guards, every section of the source that holds
    the mutex, and the two bounded retry loops (leader.go). */
module Leadership {
  import opened Prelude

  // ---- the locked record -----------------------------------------------------------------------

  /** `installed` says that a term handle is set, `named` is the status of the named health service, and
      `healthDown` that the health server was shut down and ignores later writes. */
  datatype Locked = Locked(
    leader: bool, k8sOk: bool, shuttingDown: bool, everLed: bool, installed: bool, named: bool, healthDown: bool)

  predicate Serving(l: Locked) {
    l.leader && l.k8sOk && !l.shuttingDown
  }

  function Publish(l: Locked): Locked {
    if l.healthDown then l else l.(named := Serving(l))
  }

  function Fresh(elect: bool): Locked {
    Publish(Locked(!elect, false, false, !elect, false, false, false))
  }

  function K8s(l: Locked, ok: bool): Locked {
    if l.k8sOk == ok then l else Publish(l.(k8sOk := ok))
  }

  function Begin(l: Locked): Locked {
    if l.shuttingDown then l else Publish(l.(installed := true, everLed := true, leader := true))
  }

  function End(l: Locked): Locked {
    Publish(l.(installed := false, leader := false))
  }

  function Demoted(l: Locked): Locked {
    if l.shuttingDown then l else Publish(l.(shuttingDown := true, leader := false))
  }

  function Recorded(l: Locked): Locked {
    if l.shuttingDown then l else Publish(l.(shuttingDown := true))
  }

  function HealthStopped(l: Locked): Locked {
    l.(named := false, healthDown := true)
  }

  /** Admission with election on; without election only a shutdown rejects. */
  predicate Admits(elect: bool, l: Locked, cancelled: bool) {
    if elect then Serving(l) && l.installed && !cancelled else !l.shuttingDown
  }

  /** Until the health server is shut down, the named service mirrors the serving condition. */
  predicate Mirrors(l: Locked) {
    !l.healthDown ==> l.named == Serving(l)
  }

  /** Nobody is admitted, and nothing advertised, but by a leader that reaches Kubernetes and is not shutting
      down; under election it also takes an installed term whose context is live. */
  lemma AdmitsExactly(elect: bool, l: Locked, cancelled: bool)
    ensures Admits(elect, l, cancelled) <==>
      if elect then l.leader && l.k8sOk && !l.shuttingDown && l.installed && !cancelled else !l.shuttingDown
    ensures Mirrors(l) && !l.healthDown ==> (l.named <==> l.leader && l.k8sOk && !l.shuttingDown)
  {
  }

  /** Whenever the mutex is released the named health service says what admission would use. */
  lemma EverySectionMirrors(elect: bool, l: Locked, ok: bool)
    ensures Mirrors(Fresh(elect))
    ensures Mirrors(l) ==> Mirrors(K8s(l, ok)) && Mirrors(Begin(l)) && Mirrors(End(l)) && Mirrors(Demoted(l))
    ensures Mirrors(l) ==> Mirrors(Recorded(l)) && Mirrors(HealthStopped(l))
  {
  }

  /** How long a demotion waits for its term at most. */
  const DEMOTION_WAIT := 5 * SECOND

  // ---- the mutex-protected sections --------------------------------------------------------------

  class LeaderTerm {
    var cancelled: bool // the term context is cancelled
    var done: bool      // the done channel is closed

    constructor (cancelled: bool)
      ensures this.cancelled == cancelled && !done
    {
      this.cancelled, done := cancelled, false;
    }

    method Cancel()
      modifies this
      ensures cancelled && done == old(done)
    {
      cancelled := true;
    }
  }

  class NamedHealth {
    var serving: bool
    var down: bool

    constructor ()
      ensures !serving && !down
    {
      serving, down := false, false;
    }

    method SetServingStatus(ok: bool)
      modifies this
      ensures down == old(down) && serving == if down then old(serving) else ok
    {
      if !down {
        serving := ok;
      }
    }

    /** Publishes a terminal status; later writes are ignored. */
    method Shutdown()
      modifies this
      ensures down && !serving
    {
      serving, down := false, true;
    }
  }

  class Leader {
    const elect: bool
    const health: NamedHealth
    var leader: bool
    var k8sOk: bool
    var shuttingDown: bool
    var everLed: bool
    var term: LeaderTerm?
    var electionCancelled: bool

    function View(): Locked
      reads this, health
    {
      Locked(leader, k8sOk, shuttingDown, everLed, term != null, health.serving, health.down)
    }

    constructor (elect: bool)
      ensures this.elect == elect && fresh(health) && View() == Fresh(elect) && term == null
      ensures leader == everLed == !elect && !k8sOk && !shuttingDown && !health.serving && !health.down
    {
      this.elect := elect;
      health := new NamedHealth();
      leader, everLed := !elect, !elect;
      k8sOk, shuttingDown, term, electionCancelled := false, false, null, false;
      new;
      PublishLocked();
    }

    method PublishLocked()
      modifies health
      ensures View() == Publish(old(View()))
    {
      health.SetServingStatus(leader && k8sOk && !shuttingDown);
    }

    method SetK8sOk(ok: bool)
      modifies this`k8sOk, health
      ensures View() == K8s(old(View()), ok)
      ensures k8sOk == ok && health.down == old(health.down)
      ensures health.serving ==
        if old(health.down) || old(k8sOk) == ok then old(health.serving) else leader && ok && !shuttingDown
    {
      if k8sOk == ok {
        return;
      }
      k8sOk := ok;
      PublishLocked();
    }

    /** Checks the serving state and captures the term under one lock. */
    method Admit() returns (captured: LeaderTerm?, ok: bool)
      ensures ok == Admits(elect, View(), term != null && term.cancelled)
      ensures elect ==> (ok <==> leader && k8sOk && !shuttingDown && term != null && !term.cancelled)
      ensures !elect ==> (ok <==> !shuttingDown)
      ensures captured == if ok && elect then term else null
      ensures ok && elect ==> captured != null && !captured.cancelled
    {
      if !elect {
        return null, !shuttingDown;
      }
      if !(leader && k8sOk && !shuttingDown) {
        return null, false;
      }
      if term == null || term.cancelled {
        return null, false;
      }
      return term, true;
    }

    /** Installs a term, or refuses it once a shutdown is recorded. */
    method BeginTerm(parentCancelled: bool) returns (t: LeaderTerm?)
      modifies this`term, this`everLed, this`leader, health
      ensures View() == Begin(old(View()))
      ensures t == null <==> old(shuttingDown)
      ensures t == null ==> term == old(term) && View() == old(View())
      ensures t != null ==> leader && everLed && health.down == old(health.down)
      ensures t != null ==> health.serving == if health.down then old(health.serving) else k8sOk
      ensures t != null ==> fresh(t) && term == t && t.cancelled == parentCancelled && !t.done
    {
      if shuttingDown {
        return null;
      }
      t := new LeaderTerm(parentCancelled);
      term, everLed, leader := t, true, true;
      PublishLocked();
    }

    /** Cancels the term first, then flips the state, then closes its done channel. */
    method EndTerm(t: LeaderTerm)
      modifies this`term, this`leader, health, t
      ensures old(term) == t ==> View() == End(old(View()))
      ensures old(term) != t ==> View() == Publish(old(View()).(leader := false)) && term == old(term)
      ensures t.cancelled && t.done && !leader && term != t && (old(term) != t ==> term == old(term))
      ensures !health.down ==> !health.serving
      ensures old(term) == t ==> term == null
    {
      t.Cancel();
      if term == t {
        term := null;
      }
      leader := false;
      PublishLocked();
      t.done := true;
    }

    /** The locked part of a demotion; `won` says that it owns the rest of the life of the process. */
    method RecordDemotion() returns (won: bool)
      modifies this`shuttingDown, this`leader, health
      ensures View() == Demoted(old(View())) && won == !old(shuttingDown)
      ensures shuttingDown && leader == (old(leader) && !won)
      ensures won && !health.down ==> !health.serving
      ensures !won ==> health.serving == old(health.serving)
    {
      if shuttingDown {
        return false;
      }
      shuttingDown, leader := true, false;
      PublishLocked();
      won := true;
    }

    /** A whole demotion: reject new RPCs, cancel the term, wait for its end for at most five seconds, stop
        the election, exit. The caller that loses the record touches nothing and does not wait. `ends` says
        how long after the cancellation the done channel closes, if ever. */
    method Demote(t: LeaderTerm?, ends: Option<nat>) returns (exits: bool, waited: nat)
      modifies this`shuttingDown, this`leader, this`electionCancelled, health, t
      ensures View() == Demoted(old(View())) && exits == !old(shuttingDown)
      ensures exits ==> electionCancelled && (t != null ==> t.cancelled)
      ensures !exits ==> electionCancelled == old(electionCancelled) && (t != null ==> t.cancelled == old(t.cancelled))
      ensures t != null ==> t.done == old(t.done)
      ensures waited <= 5 * SECOND && (waited > 0 ==> exits && t != null && !t.done)
      ensures exits && t != null && !t.done ==> waited == 5 * SECOND || (ends.Some? && waited == ends.value)
    {
      waited := 0;
      exits := RecordDemotion();
      if !exits {
        return;
      }
      if t != null {
        t.Cancel();
        waited := if t.done then 0 else if ends.Some? then Min(ends.value, DEMOTION_WAIT) else DEMOTION_WAIT;
      }
      electionCancelled := true;
    }

    /** What the acquisition callback leaves behind when nothing interferes with it: after a recorded
        shutdown nothing changed, and otherwise an ended term and no leadership. Only a published label
        lets the background worker start; a label that can never be published relinquishes. */
    method OnStartedLeading(parentCancelled: bool, patches: seq<Patch>)
      returns (t: LeaderTerm?, published: bool, relinquish: bool)
      modifies this`term, this`everLed, this`leader, health
      ensures old(shuttingDown) ==> t == null && !published && !relinquish && View() == old(View())
      ensures !old(shuttingDown) ==>
        && t != null && t.cancelled && t.done && View() == End(Begin(old(View())))
        && (published <==> RetryOf(patches) == Succeeded)
        && (relinquish <==> RetryOf(patches) == Permanently || RetryOf(patches) == Exhausted)
    {
      t := BeginTerm(parentCancelled);
      published, relinquish := false, false;
      if t == null {
        return;
      }
      published, relinquish := PublishRouting(patches);
      EndTerm(t);
    }

    /** The locked part of a graceful shutdown, with the term it has to wait for. */
    method RecordShutdown() returns (won: bool, t: LeaderTerm?)
      modifies this`shuttingDown, health
      ensures View() == Recorded(old(View())) && won == !old(shuttingDown)
      ensures t == if won then term else null
      ensures shuttingDown && (won && !health.down ==> !health.serving)
      ensures !won ==> health.serving == old(health.serving)
    {
      if shuttingDown {
        return false, null;
      }
      shuttingDown := true;
      PublishLocked();
      return true, term;
    }

    /** The whole stop callback of the election. A process that led and is not shutting down never serves
        again: it loses leadership, admits no RPC whatever term it still has, and exits with its term
        cancelled. Any other process is left exactly as it was. */
    method OnStoppedLeading(ends: Option<nat>) returns (exits: bool, waited: nat)
      modifies this`shuttingDown, this`leader, this`electionCancelled, health, term
      ensures exits <==> old(everLed) && !old(shuttingDown)
      ensures exits ==> electionCancelled && shuttingDown && !leader && waited <= 5 * SECOND
      ensures exits ==> forall cancelled :: !Admits(elect, View(), cancelled)
      ensures exits && term != null ==> term.cancelled
      ensures !exits ==> View() == old(View()) && electionCancelled == old(electionCancelled) && waited == 0
      ensures term == old(term) && (!exits && term != null ==> term.cancelled == old(term.cancelled))
    {
      if shuttingDown || !everLed {
        return false, 0;
      }
      exits, waited := Demote(term, ends);
    }
  }

  /** How a signalled shutdown begins: the health server ends with a terminal status, then the shutdown is
      recorded. From then on nothing is admitted and no later status gets through. */
  method BeginShutdown(l: Leader) returns (won: bool, t: LeaderTerm?)
    modifies l`shuttingDown, l.health
    ensures l.View() == Recorded(HealthStopped(old(l.View()))) && won == !old(l.shuttingDown)
    ensures l.View().healthDown && !l.View().named && forall cancelled :: !Admits(l.elect, l.View(), cancelled)
    ensures l.health.down && !l.health.serving && l.shuttingDown
    ensures t == if won then l.term else null
  {
    l.health.Shutdown();
    won, t := l.RecordShutdown();
  }

  // ---- the bounded retry loops -------------------------------------------------------------------

  /** One label patch and whether the context was done during the wait after it. */
  datatype Patch = Applied | PermanentError | TransientError(cancelled: bool)

  datatype Retry = Succeeded | Permanently | Interrupted | Exhausted

  /** What a run of label patches comes to: the first patch that is not a plain transient error decides. */
  function RetryOf(patches: seq<Patch>): Retry {
    if patches == [] then Exhausted
    else match patches[0]
      case Applied => Succeeded
      case PermanentError => Permanently
      case TransientError(cancelled) => if cancelled then Interrupted else RetryOf(patches[1..])
  }

  /** Whatever a retry loop reports, some patch is the reason, and every patch before it was a plain
      transient error; it reports exhaustion exactly when all of them were. */
  lemma {:induction false} RetryReason(patches: seq<Patch>) returns (k: nat)
    ensures k <= |patches| && forall j :: 0 <= j < k ==> patches[j] == TransientError(false)
    ensures RetryOf(patches) == Exhausted <==> k == |patches|
    ensures RetryOf(patches) == Succeeded <==> k < |patches| && patches[k] == Applied
    ensures RetryOf(patches) == Permanently <==> k < |patches| && patches[k] == PermanentError
    ensures RetryOf(patches) == Interrupted <==> k < |patches| && patches[k] == TransientError(true)
  {
    if patches == [] || patches[0] != TransientError(false) {
      k := 0;
    } else {
      k := RetryReason(patches[1..]);
      k := k + 1;
    }
  }

  /** Removes a label left by an earlier incarnation; anything but success must keep the process from
      listening. Without election there is nothing to purge. */
  method PurgeStaleLabel(elect: bool, patches: seq<Patch>) returns (ok: bool, failure: Retry)
    ensures ok <==> !elect || RetryOf(patches) == Succeeded
    ensures !ok ==> failure == RetryOf(patches)
  {
    if !elect {
      return true, Succeeded;
    }
    for attempt := 0 to |patches|
      invariant RetryOf(patches[attempt..]) == RetryOf(patches)
    {
      match patches[attempt] {
        case Applied => return true, Succeeded;
        case PermanentError => return false, Permanently;
        case TransientError(cancelled) =>
          if cancelled {
            return false, Interrupted;
          }
      }
    }
    return false, Exhausted;
  }

  /** Publishes the leader label. A leader that can never become routable relinquishes; one whose term
      was cancelled meanwhile does not. */
  method PublishRouting(patches: seq<Patch>) returns (published: bool, relinquish: bool)
    ensures published <==> RetryOf(patches) == Succeeded
    ensures relinquish <==> RetryOf(patches) == Permanently || RetryOf(patches) == Exhausted
  {
    for attempt := 0 to |patches|
      invariant RetryOf(patches[attempt..]) == RetryOf(patches)
    {
      match patches[attempt] {
        case Applied => return true, false;
        case PermanentError => return false, true;
        case TransientError(cancelled) =>
          if cancelled {
            return false, false;
          }
      }
    }
    return false, true;
  }
}
