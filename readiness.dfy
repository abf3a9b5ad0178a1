/**
 * The readiness polls of the controllers (checkDeployment, checkStatefulSet,
 * checkDaemonSet, checkJob, checkCronJob, checkService, checkNamespace).
 *
 * Each poll re-arms itself with a timer and has no attempt bound. Here the
 * answers of the API server to the successive `get` calls are a finite feed
 * of observations; a poll over the feed either settles at some observation
 * or is still pending after the last one. A callback that throws outside a
 * `try` (or calls an absent `reject`) leaves the poll's promise unsettled
 * for ever, which is the verdict `Stall`.
 */
module Readiness {
  import opened Wrappers
  import opened Json

  /** The resource kinds that poll for readiness. */
  datatype Kind = Deployment | StatefulSet | DaemonSet | Job | CronJob | Service | Namespace

  /** The answer to one `get`: the object read, or an API error. */
  datatype Observation = Found(obj: Json) | GetFailed

  /** What one poll step does: settle the wait, schedule another step, or throw. */
  datatype Verdict = Resolve | Reject | Again | Stall

  /** JavaScript `x > 0`. */
  predicate Positive(v: JsVal)
  {
    var n := ToNumber(v);
    n.Some? && n.value.mant > 0
  }

  /** `x === s` for a string literal s. */
  predicate Is(v: JsVal, field: string, s: string)
  {
    StrictEq(Prop(v, field), Str(s))
  }

  function Status(o: Json): JsVal { Prop(Some(o), "status") }

  /** Deployments ('updated' also needs updatedReplicas) and statefulSets. */
  function ReplicaVerdict(needsUpdated: bool, outcome: string, o: Json): Verdict
  {
    var s := Status(o);
    if outcome == "creation" then
      if IsNullish(s) then Stall
      else if Positive(Prop(s, "readyReplicas")) then Resolve
      else Again
    else if outcome == "updated" then
      if IsNullish(s) then Stall
      else if (!needsUpdated || Positive(Prop(s, "updatedReplicas"))) && Positive(Prop(s, "readyReplicas")) then Resolve
      else Again
    else PhaseVerdict(outcome, s)
  }

  /** The common 'deletion' test on a successful get: any phase but 'Terminating' ends the wait. */
  function PhaseVerdict(outcome: string, s: JsVal): Verdict
  {
    if outcome == "deletion" then
      if IsNullish(s) then Stall
      else if !Is(s, "phase", "Terminating") then Resolve
      else Again
    else Again
  }

  function DaemonSetVerdict(outcome: string, o: Json): Verdict
  {
    var s := Status(o);
    if outcome == "creation" || outcome == "update" then
      if IsNullish(s) then Stall
      else if StrictEq(Prop(s, "numberReady"), Prop(s, "desiredNumberScheduled")) then Resolve
      else Again
    else PhaseVerdict(outcome, s)
  }

  /** The condition a job poll examines: the first of status.conditions, or `{}` when there is none. */
  function FirstCondition(s: JsVal): JsVal
  {
    var cs := Prop(s, "conditions");
    if Truthy(cs) && Truthy(Prop(cs, "length")) then Prop(cs, "0") else Some(JObj(map[]))
  }

  /**
   * Jobs and cronJobs. Everything runs inside a `try` whose `catch` only
   * logs, so a throwing read, or a Failed condition with no `reject`
   * callback to call, stalls the poll.
   */
  function JobVerdict(outcome: string, hasReject: bool, o: Json): Verdict
  {
    var s := Status(o);
    if IsNullish(s) then Stall
    else if outcome == "completion" || outcome == "updated" then
      var c := FirstCondition(s);
      if IsNullish(c) then Stall
      else if Is(c, "type", "Complete") && Is(c, "status", "True") then Resolve
      else if Is(c, "type", "Failed") && Is(c, "status", "True") then (if hasReject then Reject else Stall)
      else Again
    else Again
  }

  function ServiceVerdict(outcome: string, o: Json): Verdict
  {
    var s := Status(o);
    if outcome == "creation" || outcome == "update" then
      if IsNullish(s) then Stall
      else if Truthy(Prop(s, "loadBalancer")) then Resolve
      else Again
    else Again
  }

  /** Namespaces log `status.phase` before testing anything, so a missing status always throws. */
  function NamespaceVerdict(outcome: string, o: Json): Verdict
  {
    var s := Status(o);
    if IsNullish(s) then Stall
    else if outcome == "creation" && Is(s, "phase", "Active") then Resolve
    else if outcome == "deletion" && !Is(s, "phase", "Terminating") then Resolve
    else Again
  }

  /** One poll step of the given kind on one observation. */
  function Check(kind: Kind, outcome: string, hasReject: bool, obs: Observation): Verdict
  {
    match obs
    case GetFailed => if outcome == "deletion" then Resolve else Again
    case Found(o) =>
      match kind
      case Deployment => ReplicaVerdict(true, outcome, o)
      case StatefulSet => ReplicaVerdict(false, outcome, o)
      case DaemonSet => DaemonSetVerdict(outcome, o)
      case Job => JobVerdict(outcome, hasReject, o)
      case CronJob => JobVerdict(outcome, hasReject, o)
      case Service => ServiceVerdict(outcome, o)
      case Namespace => NamespaceVerdict(outcome, o)
  }

  // ------------------------------------------------------------------ polling

  /** How a wait stands after a feed: settled one way, stalled for ever, or still pending. */
  datatype Settled = Resolved | Rejected | Stalled | Pending

  datatype Polled = Polled(settled: Settled, used: nat)

  function Settles(v: Verdict): Settled
  {
    match v
    case Resolve => Resolved
    case Reject => Rejected
    case Stall => Stalled
    case Again => Pending
  }

  /** The first n steps of a wait all ask for another one. */
  predicate AllAgain(kind: Kind, outcome: string, hasReject: bool, feed: seq<Observation>, n: nat)
    requires n <= |feed|
  {
    forall i :: 0 <= i < n ==> Check(kind, outcome, hasReject, feed[i]) == Again
  }

  /** One poll step of the given kind, as the function the timer calls. */
  function Stepper(kind: Kind, outcome: string, hasReject: bool): Observation -> Verdict
  {
    obs => Check(kind, outcome, hasReject, obs)
  }

  /** The verdicts of the successive steps of a wait, one per observation. */
  function Verdicts(check: Observation -> Verdict, feed: seq<Observation>): (vs: seq<Verdict>)
    ensures |vs| == |feed|
    ensures forall i :: 0 <= i < |feed| ==> vs[i] == check(feed[i])
  {
    seq(|feed|, i requires 0 <= i < |feed| => check(feed[i]))
  }

  /** A wait over its verdicts: it stops at the first one that is not `Again`. */
  function Run(vs: seq<Verdict>): (r: Polled)
    ensures r.used <= |vs|
    ensures r.settled == Pending <==> forall i :: 0 <= i < |vs| ==> vs[i] == Again
    ensures r.settled == Pending ==> r.used == |vs|
    ensures r.settled != Pending ==>
      0 < r.used && (forall i :: 0 <= i < r.used - 1 ==> vs[i] == Again) && Settles(vs[r.used - 1]) == r.settled
  {
    if |vs| == 0 then Polled(Pending, 0)
    else if vs[0] != Again then Polled(Settles(vs[0]), 1)
    else
      var rest := Run(vs[1..]);
      assert forall i :: 1 <= i < |vs| ==> vs[i] == vs[1..][i - 1];
      if rest.settled != Pending then Polled(rest.settled, rest.used + 1)
      else Polled(Pending, |vs|)
  }

  /**
   * The wait over a feed of observations: the verdicts of its steps, up to
   * the first that does not ask for another one.
   */
  function Poll(kind: Kind, outcome: string, hasReject: bool, feed: seq<Observation>): (r: Polled)
    ensures r.used <= |feed|
  {
    Run(Verdicts(Stepper(kind, outcome, hasReject), feed))
  }

  /**
   * A wait settles at the first step that does not ask for another one,
   * having used the observations up to it; otherwise it is still pending.
   */
  lemma PollMeaning(kind: Kind, outcome: string, hasReject: bool, feed: seq<Observation>)
    ensures var r := Poll(kind, outcome, hasReject, feed);
      && (r.settled == Pending <==> AllAgain(kind, outcome, hasReject, feed, |feed|))
      && (r.settled == Pending ==> r.used == |feed|)
      && (r.settled != Pending ==>
        0 < r.used && AllAgain(kind, outcome, hasReject, feed, r.used - 1)
        && Settles(Check(kind, outcome, hasReject, feed[r.used - 1])) == r.settled)
  {
    RunMeaning(Stepper(kind, outcome, hasReject), feed);
  }

  /** The same over any step function. */
  lemma RunMeaning(check: Observation -> Verdict, feed: seq<Observation>)
    ensures var r := Run(Verdicts(check, feed));
      && (r.settled == Pending <==> forall i :: 0 <= i < |feed| ==> check(feed[i]) == Again)
      && (r.settled != Pending ==>
        0 < r.used && (forall i :: 0 <= i < r.used - 1 ==> check(feed[i]) == Again)
        && Settles(check(feed[r.used - 1])) == r.settled)
  {
  }

  // ------------------------------------------------------------------ delays

  /** `wait || 500`, and 250 for namespaces. */
  function Initial(kind: Kind): real { if kind == Namespace then 250.0 else 500.0 }

  /** Jobs and namespaces grow their delay without a bound; the others stop at 5000 ms. */
  predicate Capped(kind: Kind) { kind != Job && kind != Namespace }

  /** `next = ms + ms / 2`, then `if (next > 5000) next = 5000` where the source caps it. */
  function Next(kind: Kind, ms: real): real
  {
    var n := ms + ms / 2.0;
    if Capped(kind) && n > 5000.0 then 5000.0 else n
  }

  /** The delay before poll step k (counting from 0). */
  function Delay(kind: Kind, k: nat): real
  {
    if k == 0 then Initial(kind) else Next(kind, Delay(kind, k - 1))
  }

  /** The time spent in the timers of the first n steps. */
  function Waited(kind: Kind, n: nat): real
  {
    if n == 0 then 0.0 else Waited(kind, n - 1) + Delay(kind, n - 1)
  }

  function Growth(k: nat): (g: real)
    ensures g >= 1.0
  {
    if k == 0 then 1.0 else 1.5 * Growth(k - 1)
  }

  function Min(x: real, y: real): real { if x <= y then x else y }

  /**
   * The polls of one wait, step by step: each step first sleeps its delay,
   * then reads one observation. Returns how the wait stands, the steps taken
   * and the time slept.
   */
  method Await(check: Observation -> Verdict, kind: Kind, feed: seq<Observation>)
    returns (settled: Settled, steps: nat, slept: real)
    ensures Polled(settled, steps) == Run(Verdicts(check, feed))
    ensures slept == Waited(kind, steps)
  {
    ghost var vs := Verdicts(check, feed);
    var ms := Initial(kind);
    steps, slept := 0, 0.0;
    settled := Pending;
    while steps < |feed|
      invariant steps <= |feed|
      invariant ms == Delay(kind, steps) && slept == Waited(kind, steps)
      invariant forall i :: 0 <= i < steps ==> vs[i] == Again
      decreases |feed| - steps
    {
      DelayStep(kind, steps);
      slept := slept + ms;
      var v := check(feed[steps]);
      if v != Again {
        settled := Settles(v);
        steps := steps + 1;
        RunFirstSettled(vs, steps);
        return;
      }
      ms := Next(kind, ms);
      steps := steps + 1;
    }
    RunAllAgain(vs);
  }

  /** One more step: the next delay and the time slept so far. */
  lemma DelayStep(kind: Kind, k: nat)
    ensures Delay(kind, k + 1) == Next(kind, Delay(kind, k))
    ensures Waited(kind, k + 1) == Waited(kind, k) + Delay(kind, k)
  {
  }

  /** A wait none of whose verdicts settles it is pending after all of them. */
  lemma RunAllAgain(vs: seq<Verdict>)
    requires forall i :: 0 <= i < |vs| ==> vs[i] == Again
    ensures Run(vs) == Polled(Pending, |vs|)
  {
  }

  /** A wait is determined by its first verdict that is not `Again`. */
  lemma {:induction false} RunFirstSettled(vs: seq<Verdict>, n: nat)
    requires 0 < n <= |vs|
    requires forall i :: 0 <= i < n - 1 ==> vs[i] == Again
    requires vs[n - 1] != Again
    ensures Run(vs) == Polled(Settles(vs[n - 1]), n)
  {
    if n > 1 {
      var tail := vs[1..];
      assert forall i :: 0 <= i < n - 2 ==> tail[i] == vs[i + 1];
      RunFirstSettled(tail, n - 1);
    }
  }

  /** A poll is determined by its first step that is not `Again`. */
  lemma PollFirstSettled(kind: Kind, outcome: string, hasReject: bool, feed: seq<Observation>, n: nat)
    requires 0 < n <= |feed|
    requires AllAgain(kind, outcome, hasReject, feed, n - 1)
    requires Check(kind, outcome, hasReject, feed[n - 1]) != Again
    ensures Poll(kind, outcome, hasReject, feed) == Polled(Settles(Check(kind, outcome, hasReject, feed[n - 1])), n)
  {
    var vs := Verdicts(Stepper(kind, outcome, hasReject), feed);
    RunFirstSettled(vs, n);
  }

  // ------------------------------------------------------------------ lemmas

  /** A poll settles within the feed exactly when some step of it does not ask for another. */
  lemma PollSettlesIffSomeStepDoes(kind: Kind, outcome: string, hasReject: bool, feed: seq<Observation>)
    ensures Poll(kind, outcome, hasReject, feed).settled != Pending
      <==> exists i :: 0 <= i < |feed| && Check(kind, outcome, hasReject, feed[i]) != Again
  {
    PollMeaning(kind, outcome, hasReject, feed);
  }

  /** Whatever the observations, a failed get ends a 'deletion' wait and retries any other. */
  lemma FailedGetEndsOnlyDeletion(kind: Kind, outcome: string, hasReject: bool)
    ensures Check(kind, outcome, hasReject, GetFailed) == (if outcome == "deletion" then Resolve else Again)
  {
  }

  /** Deployments: 'creation' needs a ready replica, 'updated' an updated and a ready one. */
  lemma DeploymentReadiness(o: Json)
    requires !IsNullish(Status(o))
    ensures Check(Deployment, "creation", false, Found(o)) == Resolve <==> Positive(Prop(Status(o), "readyReplicas"))
    ensures Check(Deployment, "updated", false, Found(o)) == Resolve
      <==> Positive(Prop(Status(o), "updatedReplicas")) && Positive(Prop(Status(o), "readyReplicas"))
    ensures Check(Deployment, "deletion", false, Found(o)) == Resolve <==> !Is(Status(o), "phase", "Terminating")
  {
  }

  /** StatefulSets: 'updated' needs only a ready replica. */
  lemma StatefulSetUpdatedNeedsOnlyReady(o: Json)
    requires !IsNullish(Status(o))
    ensures Check(StatefulSet, "updated", false, Found(o)) == Resolve <==> Positive(Prop(Status(o), "readyReplicas"))
  {
  }

  /** upgradeStatefulSet waits for 'update', which no step of the statefulSet poll accepts: it never settles. */
  lemma {:induction false} StatefulSetUpdateNeverSettles(hasReject: bool, feed: seq<Observation>)
    ensures Poll(StatefulSet, "update", hasReject, feed) == Polled(Pending, |feed|)
  {
    PollMeaning(StatefulSet, "update", hasReject, feed);
    assert AllAgain(StatefulSet, "update", hasReject, feed, |feed|);
  }

  /** A poll for an outcome its kind does not know never resolves or rejects (jobs may still stall). */
  lemma UnknownOutcomeNeverEnds(kind: Kind, outcome: string, hasReject: bool, feed: seq<Observation>)
    requires outcome !in {"creation", "updated", "update", "deletion", "completion"}
    ensures Poll(kind, outcome, hasReject, feed).settled in {Pending, Stalled}
  {
    PollMeaning(kind, outcome, hasReject, feed);
    var r := Poll(kind, outcome, hasReject, feed);
    if r.settled != Pending {
      var v := Check(kind, outcome, hasReject, feed[r.used - 1]);
      assert v == Stall || v == Again;
    }
  }

  /** DaemonSets: creation and update are ready when numberReady === desiredNumberScheduled, so an empty status is ready. */
  lemma DaemonSetReadiness(o: Json)
    requires !IsNullish(Status(o))
    ensures Check(DaemonSet, "creation", false, Found(o)) == Resolve
      <==> StrictEq(Prop(Status(o), "numberReady"), Prop(Status(o), "desiredNumberScheduled"))
    ensures Check(DaemonSet, "update", false, Found(o)) == Check(DaemonSet, "creation", false, Found(o))
    ensures Check(DaemonSet, "creation", false, Found(JObj(map["status" := JObj(map[])]))) == Resolve
  {
  }

  /** Jobs: the first condition decides; Complete/True resolves, Failed/True rejects only when there is a reject. */
  lemma JobConditions(o: Json, outcome: string, hasReject: bool, c: Json)
    requires outcome == "completion" || outcome == "updated"
    requires !IsNullish(Status(o)) && FirstCondition(Status(o)) == Some(c) && c != JNull
    ensures Check(Job, outcome, hasReject, Found(o)) == Resolve
      <==> Is(Some(c), "type", "Complete") && Is(Some(c), "status", "True")
    ensures Check(Job, outcome, hasReject, Found(o)) == Reject
      <==> hasReject && Is(Some(c), "type", "Failed") && Is(Some(c), "status", "True")
    ensures Check(CronJob, outcome, hasReject, Found(o)) == Check(Job, outcome, hasReject, Found(o))
  {
  }

  /** Without conditions the examined condition is `{}`, which never ends the wait. */
  lemma JobWithoutConditionsWaits(o: Json, outcome: string, hasReject: bool)
    requires !IsNullish(Status(o)) && !Truthy(Prop(Status(o), "conditions"))
    ensures Check(Job, outcome, hasReject, Found(o)) == Again
  {
  }

  /** A job or cronJob wait without a reject never rejects: a Failed condition stalls it instead. */
  lemma JobWithoutRejectNeverRejects(kind: Kind, outcome: string, feed: seq<Observation>)
    requires kind == Job || kind == CronJob
    ensures Poll(kind, outcome, false, feed).settled != Rejected
  {
    PollMeaning(kind, outcome, false, feed);
    var r := Poll(kind, outcome, false, feed);
    if r.settled != Pending {
      assert Check(kind, outcome, false, feed[r.used - 1]) != Reject;
    }
  }

  /** A service 'deletion' wait ends only on a failed get, and always resolves at the first one. */
  lemma ServiceDeletionEndsOnFailedGet(hasReject: bool, feed: seq<Observation>)
    ensures Poll(Service, "deletion", hasReject, feed).settled == Resolved <==> GetFailed in feed
    ensures Poll(Service, "deletion", hasReject, feed).settled in {Resolved, Pending}
  {
    var vs := Verdicts(Stepper(Service, "deletion", hasReject), feed);
    forall i | 0 <= i < |feed| ensures vs[i] == (if feed[i].GetFailed? then Resolve else Again) {
      ServiceDeletionStep(hasReject, feed[i]);
    }
    DeletionRun(feed, vs);
  }

  /** A service poll step for 'deletion': only a failed get ends it. */
  lemma ServiceDeletionStep(hasReject: bool, obs: Observation)
    ensures Check(Service, "deletion", hasReject, obs) == if obs.GetFailed? then Resolve else Again
  {
  }

  /** A wait whose steps resolve on a failed get and otherwise stall or go on. */
  lemma DeletionRun(feed: seq<Observation>, vs: seq<Verdict>)
    requires |vs| == |feed|
    requires forall i :: 0 <= i < |feed| ==> (vs[i] == Resolve <==> feed[i].GetFailed?) && vs[i] != Reject
    ensures Run(vs).settled == Resolved ==> GetFailed in feed
    ensures Run(vs).settled != Rejected
    ensures (forall i :: 0 <= i < |feed| ==> vs[i] != Stall) ==> (Run(vs).settled == Resolved <==> GetFailed in feed)
    ensures (forall i :: 0 <= i < |feed| ==> vs[i] != Stall) ==> Run(vs).settled in {Resolved, Pending}
  {
    var r := Run(vs);
    if r.settled != Pending {
      assert feed[r.used - 1] in feed;
    }
    if GetFailed in feed {
      var i :| 0 <= i < |feed| && feed[i] == GetFailed;
      assert vs[i] != Again;
    }
  }

  /**
   * A job or cronJob 'deletion' wait resolves only on a failed get; a
   * successful get asks again, or stalls when the object has no status.
   */
  lemma JobDeletionEndsOnFailedGet(kind: Kind, hasReject: bool, feed: seq<Observation>)
    requires kind == Job || kind == CronJob
    ensures Poll(kind, "deletion", hasReject, feed).settled == Resolved ==> GetFailed in feed
    ensures Poll(kind, "deletion", hasReject, feed).settled != Rejected
    ensures (forall i :: 0 <= i < |feed| && feed[i].Found? ==> !IsNullish(Status(feed[i].obj))) ==>
      (Poll(kind, "deletion", hasReject, feed).settled == Resolved <==> GetFailed in feed)
  {
    var vs := Verdicts(Stepper(kind, "deletion", hasReject), feed);
    forall i | 0 <= i < |feed|
      ensures vs[i] == if feed[i].GetFailed? then Resolve else if IsNullish(Status(feed[i].obj)) then Stall else Again
    {
      JobDeletionStep(kind, hasReject, feed[i]);
    }
    DeletionRun(feed, vs);
  }

  /** A job poll step for 'deletion': a failed get ends it, a missing status stalls it. */
  lemma JobDeletionStep(kind: Kind, hasReject: bool, obs: Observation)
    requires kind == Job || kind == CronJob
    ensures Check(kind, "deletion", hasReject, obs)
      == if obs.GetFailed? then Resolve else if IsNullish(Status(obs.obj)) then Stall else Again
  {
  }

  /** Services: creation and update end when status.loadBalancer is truthy. */
  lemma ServiceReadiness(o: Json, outcome: string)
    requires outcome == "creation" || outcome == "update"
    requires !IsNullish(Status(o))
    ensures Check(Service, outcome, false, Found(o)) == Resolve <==> Truthy(Prop(Status(o), "loadBalancer"))
  {
  }

  /** Namespaces: 'creation' needs phase 'Active', 'deletion' any phase but 'Terminating'. */
  lemma NamespaceReadiness(o: Json)
    requires !IsNullish(Status(o))
    ensures Check(Namespace, "creation", false, Found(o)) == Resolve <==> Is(Status(o), "phase", "Active")
    ensures Check(Namespace, "deletion", false, Found(o)) == Resolve <==> !Is(Status(o), "phase", "Terminating")
  {
  }

  /** The delay grows by half each step; capped kinds stop at 5000 ms. */
  lemma {:induction false} DelayClosedForm(kind: Kind, k: nat)
    ensures Delay(kind, k) == if Capped(kind) then Min(Initial(kind) * Growth(k), 5000.0) else Initial(kind) * Growth(k)
  {
    if k > 0 {
      DelayClosedForm(kind, k - 1);
    }
  }

  lemma {:induction false} GrowthMonotone(j: nat, k: nat)
    requires j <= k
    ensures Growth(j) <= Growth(k)
  {
    if j < k {
      GrowthMonotone(j, k - 1);
    }
  }

  /** From the seventh step on, a capped delay is 5000 ms: 500, 750, 1125, 1687.5, 2531.25, 3796.875, then 5000. */
  lemma CapReached(kind: Kind, k: nat)
    requires Capped(kind) && k >= 6
    ensures Delay(kind, k) == 5000.0
    ensures Delay(kind, 5) == 3796.875
  {
    DelayClosedForm(kind, k);
    GrowthMonotone(6, k);
    assert Growth(6) == 11.390625;
    DelayClosedForm(kind, 5);
    assert Growth(5) == 7.59375;
  }

  /** Uncapped delays grow without bound: after k steps a job waits 500·1.5^k ms. */
  lemma UncappedDelay(k: nat)
    ensures Delay(Job, k) == 500.0 * Growth(k)
    ensures Delay(Namespace, k) == 250.0 * Growth(k)
  {
    DelayClosedForm(Job, k);
    DelayClosedForm(Namespace, k);
  }
}
