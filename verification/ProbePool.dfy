/** ProbeMonitor.Check: a bounded pool of workers probes the ready instances while one collector gathers the
    results.  The pool is a state machine over the steps of the workers, the feeder, the collector and
    cancellation; a schedule is any sequence of them. */
module ProbePool {
  import opened Text
  import opened Domain

  /** What a probe finds: a status, or that the monitor itself is misconfigured. */
  datatype Probe = Good(health: Health) | Misconfigured

  datatype Result = Found(name: string, health: Health) | Failure(name: string)

  datatype Worker = Idle | Probing(job: nat) | Sending(result: Result) | Exited

  datatype Verdict = Running | Failed | Finished(statuses: map<string, Health>)

  /** `probed` records every finished probe; `queue` is the buffered results channel, whose capacity is the
      number of ready instances. */
  datatype Pool = Pool(
    ready: seq<string>, counts: map<string, int>, workers: seq<Worker>, next: nat, feeding: bool,
    queue: seq<Result>, closed: bool, cancelled: bool,
    out: map<string, Health>, remaining: set<string>, verdict: Verdict, probed: map<string, Probe>)

  // ---------------------------------------------------------------- before the workers start

  const DEFAULT_WORKERS := 10

  /** workersPerCR. */
  function Workers(configured: int, readyCount: nat): int {
    var limit := if configured <= 0 then DEFAULT_WORKERS else configured;
    if readyCount > 0 && limit > readyCount then readyCount else limit
  }

  /** As many workers as asked for, 10 by default, but never more than there is to probe and never none. */
  lemma WorkersBounded(configured: int, readyCount: nat)
    requires readyCount > 0
    ensures var asked, n := if configured > 0 then configured else 10, Workers(configured, readyCount);
            1 <= n <= readyCount && n <= asked && (n == asked || n == readyCount)
  {
  }

  function CountOf(counts: map<string, int>, name: string): int { if name in counts then counts[name] else 0 }

  predicate IsReady(counts: map<string, int>, name: string) { CountOf(counts, name) != 0 }

  /** An enabled instance of that name with, or without, a ready pod. */
  ghost predicate Listed(spec: Spec, instances: seq<Observation>, counts: map<string, int>, ready: bool, n: string) {
    exists o :: o in instances && o.name == n && !Disabled(spec, n) && IsReady(counts, n) == ready
  }

  lemma ListedNext(spec: Spec, instances: seq<Observation>, counts: map<string, int>, ready: bool, i: nat, n: string)
    requires i < |instances|
    ensures Listed(spec, instances[..i + 1], counts, ready, n) <==>
            Listed(spec, instances[..i], counts, ready, n) || (instances[i].name == n && !Disabled(spec, n) && IsReady(counts, n) == ready)
  {
    TakeNext(instances, i);
  }

  /** Instances without a ready pod are unhealthy without a probe; disabled ones are left out altogether. */
  method Split(spec: Spec, instances: seq<Observation>, counts: map<string, int>) returns (out: map<string, Health>, ready: seq<string>)
    ensures forall n :: n in out <==> Listed(spec, instances, counts, false, n)
    ensures forall n :: n in out ==> out[n] == Health(false, 0)
    ensures forall n :: n in ready <==> Listed(spec, instances, counts, true, n)
    ensures NoDup(Names(instances)) ==> NoDup(ready)
  {
    out, ready := map[], [];
    for i := 0 to |instances|
      invariant forall n :: n in out <==> Listed(spec, instances[..i], counts, false, n)
      invariant forall n :: n in out ==> out[n] == Health(false, 0)
      invariant forall n :: n in ready <==> Listed(spec, instances[..i], counts, true, n)
      invariant NoDup(Names(instances)) ==> NoDup(ready)
    {
      var o := instances[i];
      forall n { ListedNext(spec, instances, counts, false, i, n); }
      forall n { ListedNext(spec, instances, counts, true, i, n); }
      if NoDup(Names(instances)) {
        FreshName(instances, i);
        assert !Listed(spec, instances[..i], counts, true, o.name);
      }
      if !Disabled(spec, o.name) {
        if !IsReady(counts, o.name) { out := out[o.name := Health(false, 0)]; } else { ready := ready + [o.name]; }
      }
    }
    assert instances[..|instances|] == instances;
  }

  lemma FreshName(instances: seq<Observation>, i: nat)
    requires i < |instances| && NoDup(Names(instances))
    ensures forall o :: o in instances[..i] ==> o.name != instances[i].name
  {
    forall o | o in instances[..i] ensures o.name != instances[i].name {
      var k :| 0 <= k < i && instances[k] == o;
      assert Names(instances)[k] != Names(instances)[i];
    }
  }

  ghost predicate Init(p: Pool, notReady: map<string, Health>, limit: nat) {
    && NoDup(p.ready) && (forall n :: n in p.ready ==> n !in notReady)
    && p.workers == seq(limit, _ => Idle) && p.next == 0 && p.feeding && p.queue == [] && !p.closed && !p.cancelled
    && p.out == notReady && p.remaining == Elements(p.ready) && p.verdict == Running && p.probed == map[]
  }

  // ---------------------------------------------------------------- the steps

  datatype Step =
    | Feed(w: nat) | StopFeeding | Leave(w: nat) | Probed(w: nat, found: Probe) | Send(w: nat) | GiveUp(w: nat)
    | CloseResults | Collect | Finish | CollectClosed | CollectCancelled | Cancel

  predicate Enabled(p: Pool, s: Step) {
    match s
    case Feed(w) => p.feeding && p.next < |p.ready| && w < |p.workers| && p.workers[w].Idle?
    case StopFeeding => p.feeding && (p.cancelled || p.next == |p.ready|)
    case Leave(w) => !p.feeding && w < |p.workers| && p.workers[w].Idle?
    case Probed(w, _) => w < |p.workers| && p.workers[w].Probing? && p.workers[w].job < |p.ready|
    case Send(w) => w < |p.workers| && p.workers[w].Sending? && |p.queue| < |p.ready|
    case GiveUp(w) => w < |p.workers| && p.workers[w].Sending? && p.workers[w].result.Found? && p.cancelled
    case CloseResults => !p.closed && forall w :: 0 <= w < |p.workers| ==> p.workers[w].Exited?
    case Collect => p.verdict.Running? && p.remaining != {} && p.queue != []
    case Finish => p.verdict.Running? && p.remaining == {}
    case CollectClosed => p.verdict.Running? && p.remaining != {} && p.queue == [] && p.closed
    case CollectCancelled => p.verdict.Running? && p.remaining != {} && p.cancelled
    case Cancel => !p.cancelled
  }

  function Reports(p: Pool, name: string, found: Probe): Result {
    if p.cancelled || found.Misconfigured? then Failure(name)
    else Found(name, found.health.(ready := CountOf(p.counts, name)))
  }

  function Do(p: Pool, s: Step): Pool
    requires Enabled(p, s)
  {
    match s
    case Feed(w) => p.(workers := p.workers[w := Probing(p.next)], next := p.next + 1)
    case StopFeeding => p.(feeding := false)
    case Leave(w) => p.(workers := p.workers[w := Exited])
    case Probed(w, found) =>
      var name := p.ready[p.workers[w].job];
      p.(workers := p.workers[w := Sending(Reports(p, name, found))], probed := p.probed[name := found])
    case Send(w) =>
      var r := p.workers[w].result;
      p.(queue := p.queue + [r], workers := p.workers[w := if r.Failure? then Exited else Idle])
    case GiveUp(w) => p.(workers := p.workers[w := Exited])
    case CloseResults => p.(closed := true)
    case Collect =>
      var r := p.queue[0];
      if r.Failure? then p.(queue := p.queue[1..], verdict := Failed)
      else p.(queue := p.queue[1..], out := p.out[r.name := r.health], remaining := p.remaining - {r.name})
    case Finish => p.(verdict := Finished(p.out))
    case CollectClosed => p.(verdict := Failed)
    case CollectCancelled => p.(verdict := Failed)
    case Cancel => p.(cancelled := true)
  }

  ghost predicate Leads(p: Pool, s: Step, q: Pool) { Enabled(p, s) && q == Do(p, s) }

  ghost predicate IsSchedule(states: seq<Pool>, steps: seq<Step>) {
    && |states| == |steps| + 1
    && forall i :: 0 <= i < |steps| ==> Leads(states[i], steps[i], states[i + 1])
  }

  predicate HasExited(p: Pool, w: nat) { w < |p.workers| && p.workers[w].Exited? }

  lemma StepKeepsExited(p: Pool, s: Step, w: nat)
    requires Enabled(p, s) && HasExited(p, w)
    ensures HasExited(Do(p, s), w) && s != Feed(w)
  {
  }

  lemma {:induction false} ExitedStays(states: seq<Pool>, steps: seq<Step>, i: nat, j: nat, w: nat)
    requires IsSchedule(states, steps) && i <= j <= |steps| && HasExited(states[i], w)
    ensures HasExited(states[j], w)
    decreases j - i
  {
    if i < j {
      ExitedStays(states, steps, i, j - 1, w);
      assert Leads(states[j - 1], steps[j - 1], states[j]);
      StepKeepsExited(states[j - 1], steps[j - 1], w);
    }
  }

  /** A worker that has sent a configuration failure takes no further instance. */
  lemma FailureEndsWorker(states: seq<Pool>, steps: seq<Step>, i: nat, j: nat, w: nat)
    requires IsSchedule(states, steps) && i < j < |steps| && steps[i] == Send(w)
    requires w < |states[i].workers| && states[i].workers[w].Sending? && states[i].workers[w].result.Failure?
    ensures steps[j] != Feed(w)
  {
    assert Leads(states[i], steps[i], states[i + 1]) && Leads(states[j], steps[j], states[j + 1]);
    assert HasExited(states[i + 1], w);
    ExitedStays(states, steps, i + 1, j, w);
    StepKeepsExited(states[j], steps[j], w);
  }

  // ---------------------------------------------------------------- the invariant

  function Busy(workers: seq<Worker>): nat {
    if workers == [] then 0
    else Busy(workers[..|workers| - 1]) + if workers[|workers| - 1].Probing? || workers[|workers| - 1].Sending? then 1 else 0
  }

  /** The result is what the finished probe of that ready instance found. */
  ghost predicate Genuine(ready: seq<string>, counts: map<string, int>, probed: map<string, Probe>, r: Result) {
    && r.name in ready
    && (r.Found? ==> r.name in probed && probed[r.name].Good? && r.health == probed[r.name].health.(ready := CountOf(counts, r.name)))
  }

  /** Every job in progress is another instance's, handed out already and not yet probed. */
  ghost predicate Jobs(ready: seq<string>, workers: seq<Worker>, next: nat, probed: map<string, Probe>) {
    && next <= |ready|
    && (forall w :: 0 <= w < |workers| && workers[w].Probing? ==> workers[w].job < next && ready[workers[w].job] !in probed)
    && (forall v, w :: 0 <= v < w < |workers| && workers[v].Probing? && workers[w].Probing? ==> workers[v].job != workers[w].job)
    && (forall i :: next <= i < |ready| ==> ready[i] !in probed)
  }

  ghost predicate Truthful(ready: seq<string>, counts: map<string, int>, probed: map<string, Probe>, workers: seq<Worker>, queue: seq<Result>) {
    && (forall r :: r in queue ==> Genuine(ready, counts, probed, r))
    && (forall w :: 0 <= w < |workers| && workers[w].Sending? ==> Genuine(ready, counts, probed, workers[w].result))
  }

  ghost predicate Gathered(ready: seq<string>, counts: map<string, int>, probed: map<string, Probe>, out: map<string, Health>,
                           remaining: set<string>, notReady: map<string, Health>) {
    && remaining <= Elements(ready)
    && out.Keys == notReady.Keys + (Elements(ready) - remaining)
    && (forall n :: n in notReady ==> out[n] == notReady[n])
    && (forall n :: n in ready && n !in remaining ==> Genuine(ready, counts, probed, Found(n, out[n])))
  }

  ghost predicate Inv(p: Pool, notReady: map<string, Health>, limit: nat) {
    && NoDup(p.ready) && (forall n :: n in p.ready ==> n !in notReady)
    && |p.workers| == limit
    && |p.queue| + Busy(p.workers) <= p.next
    && Jobs(p.ready, p.workers, p.next, p.probed)
    && Truthful(p.ready, p.counts, p.probed, p.workers, p.queue)
    && Gathered(p.ready, p.counts, p.probed, p.out, p.remaining, notReady)
    && (p.verdict.Finished? ==> p.remaining == {} && p.verdict.statuses == p.out)
  }

  // ---------------------------------------------------------------- every step keeps it

  lemma {:induction false} BusyUpdate(workers: seq<Worker>, w: nat, to: Worker)
    requires w < |workers|
    ensures Busy(workers[w := to]) + (if workers[w].Probing? || workers[w].Sending? then 1 else 0)
         == Busy(workers) + (if to.Probing? || to.Sending? then 1 else 0)
  {
    var n := |workers| - 1;
    if w == n {
      assert workers[w := to][..n] == workers[..n];
    } else {
      assert workers[w := to][..n] == workers[..n][w := to];
      BusyUpdate(workers[..n], w, to);
    }
  }

  lemma {:induction false} NoneBusy(workers: seq<Worker>)
    requires forall w :: 0 <= w < |workers| ==> workers[w].Idle?
    ensures Busy(workers) == 0
  {
    if workers != [] { NoneBusy(workers[..|workers| - 1]); }
  }

  lemma InitInv(p: Pool, notReady: map<string, Health>, limit: nat)
    requires Init(p, notReady, limit)
    ensures Inv(p, notReady, limit)
  {
    NoneBusy(p.workers);
    assert Elements(p.ready) - p.remaining == {};
  }

  lemma FeedKeeps(p: Pool, notReady: map<string, Health>, limit: nat, w: nat)
    requires Inv(p, notReady, limit) && Enabled(p, Feed(w))
    ensures Inv(Do(p, Feed(w)), notReady, limit)
  {
    BusyUpdate(p.workers, w, Probing(p.next));
  }

  lemma ProbedKeeps(p: Pool, notReady: map<string, Health>, limit: nat, w: nat, found: Probe)
    requires Inv(p, notReady, limit) && Enabled(p, Probed(w, found))
    ensures Inv(Do(p, Probed(w, found)), notReady, limit)
  {
    var q := Do(p, Probed(w, found));
    BusyUpdate(p.workers, w, q.workers[w]);
    assert forall r :: Genuine(p.ready, p.counts, p.probed, r) ==> Genuine(q.ready, q.counts, q.probed, r);
    assert Genuine(q.ready, q.counts, q.probed, q.workers[w].result);
  }

  lemma SendKeeps(p: Pool, notReady: map<string, Health>, limit: nat, w: nat)
    requires Inv(p, notReady, limit) && Enabled(p, Send(w))
    ensures Inv(Do(p, Send(w)), notReady, limit)
  {
    BusyUpdate(p.workers, w, Do(p, Send(w)).workers[w]);
  }

  lemma ExitKeeps(p: Pool, notReady: map<string, Health>, limit: nat, w: nat, s: Step)
    requires s == Leave(w) || s == GiveUp(w)
    requires Inv(p, notReady, limit) && Enabled(p, s)
    ensures Inv(Do(p, s), notReady, limit)
  {
    BusyUpdate(p.workers, w, Exited);
  }

  lemma GatherOne(ready: seq<string>, counts: map<string, int>, probed: map<string, Probe>, out: map<string, Health>,
                  remaining: set<string>, notReady: map<string, Health>, r: Result)
    requires Gathered(ready, counts, probed, out, remaining, notReady) && Genuine(ready, counts, probed, r) && r.Found?
    requires forall n :: n in ready ==> n !in notReady
    ensures Gathered(ready, counts, probed, out[r.name := r.health], remaining - {r.name}, notReady)
  {
    assert r.name in Elements(ready);
    assert Genuine(ready, counts, probed, Found(r.name, r.health));
  }

  lemma CollectKeeps(p: Pool, notReady: map<string, Health>, limit: nat)
    requires Inv(p, notReady, limit) && Enabled(p, Collect)
    ensures Inv(Do(p, Collect), notReady, limit)
  {
    var r := p.queue[0];
    assert r in p.queue;
    if r.Found? { GatherOne(p.ready, p.counts, p.probed, p.out, p.remaining, notReady, r); }
  }

  lemma StepFrame(p: Pool, s: Step, q: Pool)
    requires Leads(p, s, q)
    ensures q.ready == p.ready && q.counts == p.counts
  {
    match s
    case Feed(_) =>
    case Probed(_, _) =>
    case Send(_) =>
    case Collect =>
    case _ =>
  }

  lemma StepKeeps(p: Pool, s: Step, q: Pool, notReady: map<string, Health>, limit: nat)
    requires Inv(p, notReady, limit) && Leads(p, s, q)
    ensures Inv(q, notReady, limit)
  {
    match s
    case Feed(w) => FeedKeeps(p, notReady, limit, w);
    case Leave(w) => ExitKeeps(p, notReady, limit, w, s);
    case Probed(w, found) => ProbedKeeps(p, notReady, limit, w, found);
    case Send(w) => SendKeeps(p, notReady, limit, w);
    case GiveUp(w) => ExitKeeps(p, notReady, limit, w, s);
    case Collect => CollectKeeps(p, notReady, limit);
    case _ =>
  }

  lemma {:induction false} ScheduleKeeps(states: seq<Pool>, steps: seq<Step>, notReady: map<string, Health>, limit: nat, k: nat)
    requires IsSchedule(states, steps) && Init(states[0], notReady, limit) && k < |states|
    ensures Inv(states[k], notReady, limit) && states[k].ready == states[0].ready && states[k].counts == states[0].counts
  {
    if k == 0 {
      InitInv(states[0], notReady, limit);
    } else {
      ScheduleKeeps(states, steps, notReady, limit, k - 1);
      StepKeeps(states[k - 1], steps[k - 1], states[k], notReady, limit);
      StepFrame(states[k - 1], steps[k - 1], states[k]);
    }
  }

  // ---------------------------------------------------------------- what a schedule promises

  /** A returned status map holds exactly the enabled instances: those without a ready pod as they were set down,
      every ready one with what its own probe found, and no probe found the monitor misconfigured. */
  lemma FinishedIsComplete(states: seq<Pool>, steps: seq<Step>, notReady: map<string, Health>, limit: nat, k: nat)
    requires IsSchedule(states, steps) && Init(states[0], notReady, limit) && k < |states|
    requires states[k].verdict.Finished?
    ensures states[k].verdict.statuses.Keys == notReady.Keys + Elements(states[0].ready)
    ensures forall n :: n in notReady ==> states[k].verdict.statuses[n] == notReady[n]
    ensures forall n :: n in states[0].ready ==>
      && n in states[k].probed && states[k].probed[n].Good?
      && states[k].verdict.statuses[n] == states[k].probed[n].health.(ready := CountOf(states[0].counts, n))
  {
    ScheduleKeeps(states, steps, notReady, limit, k);
    var p := states[k];
    assert forall n :: n in p.ready ==> Genuine(p.ready, p.counts, p.probed, Found(n, p.out[n]));
  }

  /** A worker with a result to hand over never waits: the results channel has room for it. */
  lemma SendNeverBlocks(states: seq<Pool>, steps: seq<Step>, notReady: map<string, Health>, limit: nat, k: nat, w: nat)
    requires IsSchedule(states, steps) && Init(states[0], notReady, limit) && k < |states|
    requires w < |states[k].workers| && states[k].workers[w].Sending?
    ensures Enabled(states[k], Send(w))
  {
    ScheduleKeeps(states, steps, notReady, limit, k);
    BusyUpdate(states[k].workers, w, Exited);
  }

  /** A probe outcome once recorded is never replaced: every ready instance is probed at most once. */
  lemma ProbedOnce(states: seq<Pool>, steps: seq<Step>, notReady: map<string, Health>, limit: nat, k: nat)
    requires IsSchedule(states, steps) && Init(states[0], notReady, limit) && k < |steps| && steps[k].Probed?
    requires Leads(states[k], steps[k], states[k + 1])
    ensures states[k].ready[states[k].workers[steps[k].w].job] !in states[k].probed
  {
    ScheduleKeeps(states, steps, notReady, limit, k);
  }

  function InProgress(workers: seq<Worker>): nat {
    if workers == [] then 0 else InProgress(workers[..|workers| - 1]) + if workers[|workers| - 1].Probing? then 1 else 0
  }

  lemma {:induction false} InProgressWithin(workers: seq<Worker>)
    ensures InProgress(workers) <= |workers|
  {
    if workers != [] { InProgressWithin(workers[..|workers| - 1]); }
  }

  lemma AtMostLimitProbes(states: seq<Pool>, steps: seq<Step>, notReady: map<string, Health>, limit: nat, k: nat)
    requires IsSchedule(states, steps) && Init(states[0], notReady, limit) && k < |states|
    ensures InProgress(states[k].workers) <= limit
  {
    ScheduleKeeps(states, steps, notReady, limit, k);
    InProgressWithin(states[k].workers);
  }

  // ---------------------------------------------------------------- it always returns

  /** Until the call has returned some step other than cancellation is enabled. */
  lemma NoDeadlock(states: seq<Pool>, steps: seq<Step>, notReady: map<string, Health>, limit: nat, k: nat) returns (s: Step)
    requires IsSchedule(states, steps) && Init(states[0], notReady, limit) && k < |states|
    requires states[k].verdict.Running?
    ensures s != Cancel && Enabled(states[k], s)
  {
    ScheduleKeeps(states, steps, notReady, limit, k);
    var p := states[k];
    if p.remaining == {} {
      s := Finish;
    } else if p.queue != [] {
      s := Collect;
    } else if w: nat :| w < |p.workers| && p.workers[w].Sending? {
      SendNeverBlocks(states, steps, notReady, limit, k, w);
      s := Send(w);
    } else if w: nat :| w < |p.workers| && p.workers[w].Probing? {
      s := Probed(w, Misconfigured);
    } else if w: nat :| w < |p.workers| && p.workers[w].Idle? {
      s := if !p.feeding then Leave(w) else if p.next < |p.ready| then Feed(w) else StopFeeding;
    } else {
      s := if p.closed then CollectClosed else CloseResults;
    }
  }

  /** The call has returned and left no goroutine behind. */
  predicate Over(p: Pool) {
    !p.verdict.Running? && !p.feeding && p.closed && forall w :: 0 <= w < |p.workers| ==> p.workers[w].Exited?
  }

  /** A schedule that cannot be continued has returned and left no worker, feeder or closer running. */
  lemma NoLeak(states: seq<Pool>, steps: seq<Step>, notReady: map<string, Health>, limit: nat, k: nat) returns (s: Step)
    requires IsSchedule(states, steps) && Init(states[0], notReady, limit) && k < |states|
    requires !Over(states[k])
    ensures Enabled(states[k], s)
  {
    var p := states[k];
    if p.verdict.Running? {
      s := NoDeadlock(states, steps, notReady, limit, k);
    } else if !p.cancelled {
      s := Cancel;
    } else if p.feeding {
      s := StopFeeding;
    } else if w: nat :| w < |p.workers| && !p.workers[w].Exited? {
      ScheduleKeeps(states, steps, notReady, limit, k);
      match p.workers[w] {
        case Idle => s := Leave(w);
        case Probing(_) => s := Probed(w, Misconfigured);
        case Sending(_) =>
          SendNeverBlocks(states, steps, notReady, limit, k, w);
          s := Send(w);
      }
    } else {
      s := CloseResults;
    }
  }

  function WorkerWork(w: Worker): nat {
    match w
    case Idle => 1
    case Probing(_) => 4
    case Sending(_) => 3
    case Exited => 0
  }

  function Work(workers: seq<Worker>): nat {
    if workers == [] then 0 else Work(workers[..|workers| - 1]) + WorkerWork(workers[|workers| - 1])
  }

  lemma {:induction false} WorkUpdate(workers: seq<Worker>, w: nat, to: Worker)
    requires w < |workers|
    ensures Work(workers[w := to]) + WorkerWork(workers[w]) == Work(workers) + WorkerWork(to)
  {
    var n := |workers| - 1;
    if w == n {
      assert workers[w := to][..n] == workers[..n];
    } else {
      assert workers[w := to][..n] == workers[..n][w := to];
      WorkUpdate(workers[..n], w, to);
    }
  }

  function Flag(b: bool): nat { if b then 1 else 0 }

  /** An upper bound on the steps still to come. */
  function Left(p: Pool): int {
    4 * (|p.ready| - p.next) + Work(p.workers) + |p.queue|
      + Flag(p.feeding) + Flag(!p.closed) + Flag(!p.cancelled) + Flag(p.verdict.Running?)
  }

  lemma FeedConsumes(p: Pool, w: nat)
    requires Enabled(p, Feed(w))
    ensures Left(Do(p, Feed(w))) < Left(p)
  {
    WorkUpdate(p.workers, w, Probing(p.next));
  }

  lemma ProbedConsumes(p: Pool, w: nat, found: Probe)
    requires Enabled(p, Probed(w, found))
    ensures Left(Do(p, Probed(w, found))) < Left(p)
  {
    WorkUpdate(p.workers, w, Do(p, Probed(w, found)).workers[w]);
  }

  lemma SendConsumes(p: Pool, w: nat)
    requires Enabled(p, Send(w))
    ensures Left(Do(p, Send(w))) < Left(p)
  {
    WorkUpdate(p.workers, w, Do(p, Send(w)).workers[w]);
  }

  lemma ExitConsumes(p: Pool, w: nat, s: Step)
    requires (s == Leave(w) || s == GiveUp(w)) && Enabled(p, s)
    ensures Left(Do(p, s)) < Left(p)
  {
    WorkUpdate(p.workers, w, Exited);
  }

  lemma CollectConsumes(p: Pool)
    requires Enabled(p, Collect)
    ensures Left(Do(p, Collect)) < Left(p)
  {
    assert |Do(p, Collect).queue| == |p.queue| - 1;
  }

  lemma VerdictConsumes(p: Pool, s: Step)
    requires Enabled(p, s) && (s.Finish? || s.CollectClosed? || s.CollectCancelled?)
    ensures Left(Do(p, s)) < Left(p)
  {
    assert !Do(p, s).verdict.Running?;
  }

  lemma FlagConsumes(p: Pool, s: Step)
    requires Enabled(p, s) && (s.StopFeeding? || s.CloseResults? || s.Cancel?)
    ensures Left(Do(p, s)) < Left(p)
  {
    assert Do(p, s).workers == p.workers;
  }

  lemma StepConsumes(p: Pool, s: Step, q: Pool)
    requires Leads(p, s, q)
    ensures Left(q) < Left(p)
  {
    match s
    case Feed(w) => FeedConsumes(p, w);
    case Leave(w) => ExitConsumes(p, w, s);
    case Probed(w, found) => ProbedConsumes(p, w, found);
    case Send(w) => SendConsumes(p, w);
    case GiveUp(w) => ExitConsumes(p, w, s);
    case Collect => CollectConsumes(p);
    case Finish => VerdictConsumes(p, s);
    case CollectClosed => VerdictConsumes(p, s);
    case CollectCancelled => VerdictConsumes(p, s);
    case _ => FlagConsumes(p, s);
  }

  lemma {:induction false} Consumed(states: seq<Pool>, steps: seq<Step>, k: nat)
    requires IsSchedule(states, steps) && k < |states|
    ensures Left(states[k]) <= Left(states[0]) - k
  {
    if k > 0 {
      Consumed(states, steps, k - 1);
      StepConsumes(states[k - 1], steps[k - 1], states[k]);
    }
  }

  lemma {:induction false} AllIdle(workers: seq<Worker>)
    requires forall w :: 0 <= w < |workers| ==> workers[w].Idle?
    ensures Work(workers) == |workers|
  {
    if workers != [] { AllIdle(workers[..|workers| - 1]); }
  }

  /** Every schedule is finite, whatever the interleaving: four steps for each ready instance, one for each worker
      and the four that close the pool. */
  lemma ScheduleIsBounded(states: seq<Pool>, steps: seq<Step>, notReady: map<string, Health>, limit: nat)
    requires IsSchedule(states, steps) && Init(states[0], notReady, limit)
    ensures |steps| <= 4 * |states[0].ready| + limit + 4
  {
    ScheduleKeeps(states, steps, notReady, limit, |steps|);
    Consumed(states, steps, |steps|);
    AllIdle(states[0].workers);
  }
}
