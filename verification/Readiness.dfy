/** The readiness loop: one probe at once and one per tick, publishing transitions only and nothing
    after cancellation (readiness.go), and the tee that feeds the leadership plane (main.go). */
module Readiness {
  import opened Prelude

  /** One probe: whether the root context was already cancelled before the ping, what the ping said,
      and whether the context was cancelled when the ping returned. */
  datatype Probe = Probe(cancelledBefore: bool, ok: bool, cancelledAfter: bool)

  predicate Cancelled(p: Probe) {
    p.cancelledBefore || p.cancelledAfter
  }

  /** The outcomes of the probes before the first one that observes cancellation. */
  function Outcomes(probes: seq<Probe>): (r: seq<bool>)
    ensures |r| <= |probes|
  {
    if probes == [] || Cancelled(probes[0]) then [] else [probes[0].ok] + Outcomes(probes[1..])
  }

  /** Exactly the probes before the first one that sees the context cancelled, before its ping or after it, have
      an outcome, and it is what the ping said. */
  lemma {:induction false} OutcomesExactly(probes: seq<Probe>, n: nat)
    requires n <= |probes| && forall k :: 0 <= k < n ==> !probes[k].cancelledBefore && !probes[k].cancelledAfter
    requires n < |probes| ==> probes[n].cancelledBefore || probes[n].cancelledAfter
    ensures |Outcomes(probes)| == n && forall k :: 0 <= k < n ==> Outcomes(probes)[k] == probes[k].ok
  {
    if n > 0 {
      assert forall k :: 0 <= k < n - 1 ==> probes[1..][k] == probes[k + 1];
      OutcomesExactly(probes[1..], n - 1);
    }
  }

  /** One more outcome, published only if it differs from the last published status. */
  function Push(published: seq<bool>, ok: bool): seq<bool> {
    if published != [] && published[|published| - 1] == ok then published else published + [ok]
  }

  /** Adjacent repeats removed. */
  function Transitions(outcomes: seq<bool>): (r: seq<bool>)
    ensures |r| <= |outcomes|
    ensures outcomes != [] ==> r != []
  {
    if |outcomes| == 0 then []
    else Push(Transitions(outcomes[..|outcomes| - 1]), outcomes[|outcomes| - 1])
  }

  lemma TransitionsPush(outcomes: seq<bool>, ok: bool)
    ensures Transitions(outcomes + [ok]) == Push(Transitions(outcomes), ok)
  {
    assert (outcomes + [ok])[..|outcomes|] == outcomes;
  }

  /** The health server and the leadership plane as the loop writes them: every status published to
      the kubelet-facing service, and the reachability the leadership plane knows. */
  class Sink {
    var published: seq<bool>
    var k8sOk: bool

    constructor ()
      ensures published == [] && !k8sOk
    {
      published, k8sOk := [], false;
    }

    method SetServingStatus(ok: bool)
      modifies this
      ensures published == old(published) + [ok] && k8sOk == ok
    {
      published := published + [ok];
      k8sOk := ok;
    }
  }

  class Controller {
    const sink: Sink
    var serving: Option<bool> // no result yet, or the last published one

    constructor (sink: Sink)
      ensures this.sink == sink && serving == None
    {
      this.sink, serving := sink, None;
    }

    /** One probe; it publishes only a change, and nothing once it observes cancellation. */
    method Check(p: Probe) returns (cancelled: bool)
      modifies this, sink
      ensures cancelled <==> p.cancelledBefore || p.cancelledAfter
      ensures cancelled || old(serving) == Some(p.ok) ==>
        serving == old(serving) && sink.published == old(sink.published) && sink.k8sOk == old(sink.k8sOk)
      ensures !cancelled && old(serving) != Some(p.ok) ==>
        serving == Some(p.ok) && sink.published == old(sink.published) + [p.ok] && sink.k8sOk == p.ok
    {
      if p.cancelledBefore {
        return true;
      }
      if p.cancelledAfter {
        return true;
      }
      if serving == Some(p.ok) {
        return false;
      }
      serving := Some(p.ok);
      sink.SetServingStatus(p.ok);
      return false;
    }

    /** The controller remembers the last published status, and so does the leadership plane. */
    ghost predicate InStep()
      reads this, sink
    {
      && serving == (if sink.published == [] then None else Some(sink.published[|sink.published| - 1]))
      && (sink.k8sOk <==> serving == Some(true))
    }

    /** A probe that does not observe cancellation pushes its outcome. */
    method Step(p: Probe) returns (cancelled: bool)
      requires InStep()
      modifies this, sink
      ensures InStep() && cancelled == Cancelled(p)
      ensures sink.published == if cancelled then old(sink.published) else Push(old(sink.published), p.ok)
    {
      cancelled := Check(p);
    }

    /** The loop over the probes that its ticks drive; it returns when a probe observes cancellation
        or when the context is done instead of another tick. */
    method ReadinessLoop(probes: seq<Probe>)
      requires serving == None && sink.published == [] && !sink.k8sOk
      modifies this, sink
      ensures sink.published == Transitions(Outcomes(probes))
      ensures sink.k8sOk <==> sink.published != [] && sink.published[|sink.published| - 1]
    {
      for k := 0 to |probes|
        invariant After(sink.published, probes[k..]) == After([], probes) && InStep()
      {
        assert probes[k..][1..] == probes[k + 1..];
        var stop := Step(probes[k]);
        if stop {
          break;
        }
      }
      AfterAll([], probes);
      assert [] + Outcomes(probes) == Outcomes(probes);
    }
  }

  /** What is published once the remaining probes have run. */
  function After(published: seq<bool>, probes: seq<Probe>): seq<bool>
    decreases probes
  {
    if probes == [] || Cancelled(probes[0]) then published else After(Push(published, probes[0].ok), probes[1..])
  }

  lemma OutcomesNext(done: seq<bool>, probes: seq<Probe>)
    ensures probes == [] || Cancelled(probes[0]) ==> done + Outcomes(probes) == done
    ensures probes != [] && !Cancelled(probes[0]) ==>
      done + Outcomes(probes) == done + [probes[0].ok] + Outcomes(probes[1..])
  {
  }

  lemma {:induction false} AfterAll(done: seq<bool>, probes: seq<Probe>)
    ensures After(Transitions(done), probes) == Transitions(done + Outcomes(probes))
    decreases probes
  {
    OutcomesNext(done, probes);
    if probes != [] && !Cancelled(probes[0]) {
      TransitionsPush(done, probes[0].ok);
      AfterAll(done + [probes[0].ok], probes[1..]);
    }
  }

  // ---- what the published statuses mean --------------------------------------------------------

  /** Nothing in a sequence repeats its predecessor. */
  ghost predicate NoRepeats(s: seq<bool>) {
    forall k :: 0 <= k < |s| - 1 ==> s[k] != s[k + 1]
  }

  /** The outcomes are the published statuses, each of them occurring one or more times in a row. */
  ghost predicate Stutters(published: seq<bool>, outcomes: seq<bool>) {
    if |outcomes| == 0 then published == []
    else
      var n, m := |outcomes| - 1, |published| - 1;
      && 0 <= m && published[m] == outcomes[n]
      && (Stutters(published, outcomes[..n]) || Stutters(published[..m], outcomes[..n]))
  }

  lemma {:induction false} TransitionsStutter(outcomes: seq<bool>)
    ensures NoRepeats(Transitions(outcomes)) && Stutters(Transitions(outcomes), outcomes)
  {
    if outcomes != [] {
      var init, last := outcomes[..|outcomes| - 1], outcomes[|outcomes| - 1];
      var before := Transitions(init);
      TransitionsStutter(init);
      assert (before + [last])[..|before|] == before;
    }
  }

  lemma PushRestores(published: seq<bool>)
    requires NoRepeats(published) && published != []
    ensures var m := |published| - 1;
      Push(published, published[m]) == published && Push(published[..m], published[m]) == published
  {
  }

  lemma {:induction false} StutterDetermines(published: seq<bool>, outcomes: seq<bool>)
    requires NoRepeats(published) && Stutters(published, outcomes)
    ensures published == Transitions(outcomes)
    decreases |outcomes|
  {
    if outcomes != [] {
      var m, init := |published| - 1, outcomes[..|outcomes| - 1];
      PushRestores(published);
      if Stutters(published, init) {
        StutterDetermines(published, init);
      } else {
        StutterDetermines(published[..m], init);
      }
    }
  }

  /** The published statuses are the one sequence without repeats whose stuttering the outcomes are. */
  lemma TransitionsExactly(published: seq<bool>, outcomes: seq<bool>)
    ensures published == Transitions(outcomes) <==>
      (forall k :: 0 <= k < |published| - 1 ==> published[k] != published[k + 1]) && Stutters(published, outcomes)
  {
    TransitionsStutter(outcomes);
    if NoRepeats(published) && Stutters(published, outcomes) {
      StutterDetermines(published, outcomes);
    }
  }

  /** Probes after the first observed cancellation have no influence at all. */
  lemma {:induction false} NothingAfterCancellation(before: seq<Probe>, p: Probe, after: seq<Probe>)
    requires p.cancelledBefore || p.cancelledAfter
    ensures Transitions(Outcomes(before + [p] + after)) == Transitions(Outcomes(before))
  {
    CutAtCancellation(before, p, after);
  }

  lemma {:induction false} CutAtCancellation(before: seq<Probe>, p: Probe, after: seq<Probe>)
    requires Cancelled(p)
    ensures Outcomes(before + [p] + after) == Outcomes(before)
  {
    if before == [] {
      assert (before + [p] + after)[0] == p;
    } else {
      assert (before + [p] + after)[1..] == before[1..] + [p] + after;
      CutAtCancellation(before[1..], p, after);
    }
  }
}
