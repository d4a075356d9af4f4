/** The one deadline of a graceful shutdown: how long the whole orchestration takes, when it overruns, and
    when it counts as quiesced, whatever its waits run into (leader.go, main.go). */
module ShutdownDeadline {
  import opened Prelude

  const LABEL_LIMIT := 3 * SECOND
  const RELEASE_WINDOW := 3 * SECOND

  /** A channel is closed at some instant, or never. */
  type Closing = Option<Time>

  predicate ClosedBy(c: Closing, t: Time) {
    c.Some? && c.value <= t
  }

  predicate Before(c: Closing, t: Time) {
    c.Some? && c.value < t
  }

  /** A wait that ends at `t` sees its channel; at a tie the source may pick either. */
  predicate Seen(c: Closing, t: Time, seesTies: bool) {
    Before(c, t) || (c == Some(t) && seesTies)
  }

  /** What a shutdown runs into: whether it asks a leader, whether a term was installed, how long the label
      removal takes if nobody stops it, when the term, the graceful stop, the election and the callback end,
      how long the graceful stop still blocks after a hard stop (for ever if absent), whether a wait that
      ends with its channel at the same instant still sees it, and how long the release takes. */
  datatype Circumstances = Circumstances(
    elect: bool, wasLeader: bool, hasTerm: bool, labelTakes: nat,
    termDone: Closing, handlersDone: Closing, runDone: Closing, callbackDone: Closing,
    lingers: Option<nat>, seesTies: bool, releaseTakes: nat)

  /** How the server stopped: on its own, by force, or never. */
  datatype Stop = Graceful | Hard | NeverStops

  /** What a shutdown comes to: it hangs, leaves the Lease to expire, or goes on to clear it. */
  datatype Outcome = Hangs | Kept | Released

  class Clock {
    var now: Time

    constructor (now: Time)
      ensures this.now == now
    {
      this.now := now;
    }

    /** Lets work run that stops at its limit. */
    method Spend(takes: nat, limit: nat)
      modifies this
      ensures now == old(now) + Min(takes, limit)
    {
      now := now + Min(takes, limit);
    }

    /** Waits for a channel at most `d`; an exhausted limit still takes one look. */
    method WaitChan(c: Closing, d: int, seesTies: bool) returns (ok: bool)
      modifies this
      ensures ok <==>
        && c.Some?
        && (c.value <= old(now) || (d > 0 && (c.value < old(now) + d || (c.value == old(now) + d && seesTies))))
      ensures old(now) <= now <= old(now) + Max(0, d)
      ensures ClosedBy(c, old(now) + d) ==> now == Max(old(now), c.value)
      ensures !ok ==> now == old(now) + Max(0, d)
    {
      if d <= 0 || ClosedBy(c, now) {
        return ClosedBy(c, now);
      }
      if c.Some? && (c.value < now + d || (c.value == now + d && seesTies)) {
        now := c.value;
        return true;
      }
      now := now + d;
      return false;
    }

    /** Stops the gRPC server: gracefully while there is time left, then hard. A hard stop does not cut the
        wait for the graceful one, which has no limit of its own. */
    method StopGrpc(c: Closing, lingers: Option<nat>, remaining: int, seesTies: bool) returns (stop: Stop)
      modifies this
      ensures stop.Graceful? <==>
        && remaining > 0 && c.Some?
        && (c.value < old(now) + remaining || (c.value == old(now) + remaining && seesTies))
      ensures stop.Graceful? ==> now == Max(old(now), c.value)
      ensures stop.Hard? ==> lingers.Some? && now == old(now) + Max(0, remaining) + lingers.value
      ensures stop.NeverStops? ==> lingers.None?
    {
      if remaining > 0 {
        var drained := WaitChan(c, remaining, seesTies);
        if drained {
          return Graceful;
        }
      }
      if lingers.None? {
        return NeverStops;
      }
      now := now + lingers.value;
      return Hard;
    }

    /** Tries to remove the leader label for at most three seconds of the remaining time. */
    method RemoveLabelBestEffort(elect: bool, takes: nat, limit: int)
      modifies this
      ensures now == old(now) + if elect && limit > 0 then Min(takes, Min(limit, 3 * SECOND)) else 0
    {
      if !elect {
        return;
      }
      var bounded := if limit > LABEL_LIMIT then LABEL_LIMIT else limit;
      if bounded <= 0 {
        return;
      }
      Spend(takes, bounded);
    }

    /** The second half of a shutdown: join the election, a leader's callback, and release after proven
        quiescence. */
    method JoinAndRelease(c: Circumstances, deadline: Time, stopped: bool) returns (outcome: Outcome)
      requires stopped ==> now < deadline || (now == deadline && c.seesTies)
      modifies this
      ensures outcome == Released <==> c.elect && c.wasLeader && stopped && JoinsBy(c, deadline)
      ensures outcome == Kept || outcome == Released
      ensures outcome == Kept ==> old(now) <= now <= Max(old(now), deadline)
      ensures outcome == Released ==> old(now) <= now <= deadline + Min(c.releaseTakes, RELEASE_WINDOW)
    {
      var quiesced, wasLeader := stopped, c.elect && c.wasLeader;
      var joined := WaitChan(c.runDone, deadline - now, c.seesTies);
      if !joined {
        quiesced := false;
      }
      if wasLeader {
        var returned := WaitChan(c.callbackDone, deadline - now, c.seesTies);
        if !returned {
          quiesced := false;
        }
      }
      if wasLeader && quiesced {
        Spend(c.releaseTakes, RELEASE_WINDOW);
        outcome := Released;
      } else {
        outcome := Kept;
      }
    }

    /** The orchestration after the shutdown was recorded.

        It hangs exactly if the drain misses the deadline and the hard stop does not end it either; otherwise
        it exceeds its budget by the release or by what a hard stop left over, never by both. It releases
        exactly if a leader asked and everything it depends on was over by the deadline. The promise of one
        deadline, budget plus release window, holds exactly if the server drains in time or its hard stop
        lingers no longer than the window; a server that stops at once when told to always keeps it. */
    method Shutdown(c: Circumstances, budget: int) returns (outcome: Outcome)
      modifies this
      ensures outcome == Hangs <==> !DrainsInTime(c, old(now), budget) && c.lingers.None?
      ensures outcome == Released <==>
        c.elect && c.wasLeader && DrainsInTime(c, old(now), budget) && JoinsBy(c, old(now) + budget)
      ensures DrainsInTime(c, old(now), budget) ==>
        old(now) <= now <= old(now) + budget + if outcome == Released then Min(c.releaseTakes, RELEASE_WINDOW) else 0
      ensures !DrainsInTime(c, old(now), budget) && c.lingers.Some? ==>
        now == old(now) + Max(0, budget) + c.lingers.value
      ensures outcome != Hangs && now <= old(now) + Max(0, budget) + RELEASE_WINDOW <==>
        DrainsInTime(c, old(now), budget) || (c.lingers.Some? && c.lingers.value <= RELEASE_WINDOW)
      ensures c.lingers == Some(0) ==>
        now <= old(now) + Max(0, budget) + if outcome == Released then 3 * SECOND else 0
      ensures outcome == Released ==>
        && c.elect && c.wasLeader && budget > 0
        && (c.hasTerm ==> c.termDone.Some? && c.termDone.value < old(now) + budget)
        && forall done :: done in {c.handlersDone, c.runDone, c.callbackDone} ==>
             done.Some? && done.value <= old(now) + budget
      ensures
        && c.elect && c.wasLeader && budget > 3 * SECOND
        && (c.hasTerm ==> c.termDone.Some? && c.termDone.value < old(now) + budget)
        && (forall done :: done in {c.handlersDone, c.runDone, c.callbackDone} ==>
              done.Some? && done.value < old(now) + budget)
        ==> outcome == Released
      ensures
        && c.lingers.Some?
        && (|| budget <= 0 || c.handlersDone.None? || c.handlersDone.value > old(now) + budget
            || (c.hasTerm && (c.termDone.None? || c.termDone.value >= old(now) + budget)))
        ==>
        outcome == Kept && now == old(now) + Max(0, budget) + c.lingers.value
    {
      var deadline := now + budget;
      var quiesced := true;
      if c.hasTerm {
        RemoveLabelBestEffort(c.elect, c.labelTakes, deadline - now);
        var ended := WaitChan(c.termDone, deadline - now, c.seesTies);
        if !ended {
          quiesced := false;
        }
      }
      assert now <= Max(old(now), deadline);
      assert now < deadline <==> TermEndsInTime(c, old(now), budget);
      assert now < deadline ==> quiesced;
      var stop := StopGrpc(c.handlersDone, c.lingers, deadline - now, c.seesTies);
      assert stop.Graceful? <==> DrainsInTime(c, old(now), budget);
      if stop.NeverStops? {
        return Hangs;
      }
      if !stop.Graceful? {
        quiesced := false;
      }
      outcome := JoinAndRelease(c, deadline, quiesced);
    }
  }

  /** The term, if there is one, is over strictly before the deadline, and so is the label removal. */
  predicate TermEndsInTime(c: Circumstances, start: Time, budget: int) {
    && budget > 0
    && (c.hasTerm ==>
          && Before(c.termDone, start + budget)
          && (c.elect ==> Min(c.labelTakes, LABEL_LIMIT) < budget))
  }

  /** The graceful stop gets its turn before the deadline and ends by then. */
  predicate DrainsInTime(c: Circumstances, start: Time, budget: int) {
    TermEndsInTime(c, start, budget) && Seen(c.handlersDone, start + budget, c.seesTies)
  }

  /** The election and the callback are over by the deadline. */
  predicate JoinsBy(c: Circumstances, deadline: Time) {
    Seen(c.runDone, deadline, c.seesTies) && Seen(c.callbackDone, deadline, c.seesTies)
  }

  /** A handler that ignores its cancelled context for a minute holds a shutdown of ten seconds for as
      long. */
  method SlowHandlerOverruns() returns (end: Time)
    ensures end == 60 * SECOND && end > 10 * SECOND + RELEASE_WINDOW
  {
    var clock := new Clock(0);
    var handler, lingers := Some(60 * SECOND), Some(50 * SECOND);
    var c := Circumstances(true, true, true, 0, Some(0), handler, Some(0), Some(0), lingers, true, 0);
    var outcome := clock.Shutdown(c, 10 * SECOND);
    end := clock.now;
  }
}
