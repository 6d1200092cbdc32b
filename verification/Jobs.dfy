/** Jobs for the master: the intrusive queue, the adapter's loops over it, and the worker
    thread that runs them while the dispatcher keeps pushing. */
module Jobs {

  // ---------------------------------------------------------------- the queue

  class Job {
    const id: nat
    var status: int
    var next: Job?

    constructor (id: nat)
      ensures this.id == id && next == null && status == 0
    {
      this.id, status, next := id, 0, null;
    }
  }

  const EIO: int := 5

  /** JobQueue: linked through the jobs themselves, oldest in front. */
  class JobQueue {
    var front: Job?
    var back: Job?
    var size: nat
    var total: nat
    ghost var jobs: seq<Job>

    ghost predicate Linked()
      reads this, jobs
    {
      && (forall i :: 0 <= i < |jobs| - 1 ==> jobs[i].next == jobs[i + 1])
      && (|jobs| > 0 ==> jobs[|jobs| - 1].next == null)
    }

    ghost predicate Valid()
      reads this, jobs
    {
      && size == |jobs|
      && (forall i, j :: 0 <= i < j < |jobs| ==> jobs[i] != jobs[j])
      && (if jobs == [] then front == null && back == null else front == jobs[0] && back == jobs[|jobs| - 1])
      && Linked()
    }

    constructor ()
      ensures Valid() && jobs == [] && total == 0
    {
      front, back, size, total, jobs := null, null, 0, 0, [];
    }

    method Push(job: Job)
      requires Valid() && job !in jobs && job.next == null
      modifies this, back
      ensures Valid() && jobs == old(jobs) + [job] && total == old(total) + 1
    {
      if back == null {
        front := job;
      } else {
        back.next := job;
      }
      back := job;
      size, total := size + 1, total + 1;
      jobs := jobs + [job];
    }

    method Pop() returns (job: Job?)
      requires Valid()
      modifies this, front
      ensures Valid() && total == old(total)
      ensures old(jobs) == [] ==> job == null && jobs == []
      ensures old(jobs) != [] ==> job == old(jobs)[0] && jobs == old(jobs)[1..] && job.next == null
      ensures job != null ==> job.status == old(job.status)
    {
      job := null;
      if front != null {
        job := front;
        front := job.next;
        job.next := null;
        if front == null { back := null; }
        size := size - 1;
        jobs := jobs[1..];
      }
    }
  }

  /** What goes through the notifier's pipe to the dispatcher. */
  datatype Pulse = Finished(job: nat, ok: bool) | Connected | Disconnected

  function Ids(jobs: seq<Job>): (r: seq<nat>)
    ensures |r| == |jobs|
  {
    seq(|jobs|, i requires 0 <= i < |jobs| => jobs[i].id)
  }

  function FailAll(ids: seq<nat>): seq<Pulse> {
    seq(|ids|, i requires 0 <= i < |ids| => Finished(ids[i], false))
  }

  /** MasterAdapter::removePending: every queued job is reported, failed, in order. */
  method RemovePending(q: JobQueue) returns (pulses: seq<Pulse>)
    requires q.Valid()
    modifies q, q.jobs
    ensures q.Valid() && q.jobs == [] && q.total == old(q.total)
    ensures pulses == FailAll(Ids(old(q.jobs)))
    ensures forall j :: j in old(q.jobs) ==> j.status == EIO
  {
    hide Ids, FailAll, FailuresOf;
    pulses := [];
    ghost var all := q.jobs;
    NoFailures(all);
    ghost var n := 0;
    var job := q.Pop();
    while job != null
      invariant q.Valid() && n <= |all| && q.total == old(q.total)
      invariant job == null ==> n == |all| && q.jobs == []
      invariant job != null ==> n < |all| && job == all[n] && q.jobs == all[n + 1..]
      invariant pulses == FailuresOf(all, n)
      invariant forall i :: 0 <= i < n ==> all[i].status == EIO
      decreases |all| - n
    {
      assert job !in q.jobs;
      job.status := EIO;
      pulses := pulses + [Finished(job.id, false)];
      NextFailure(all, n);
      n := n + 1;
      job := q.Pop();
    }
    AllFailures(all);
  }

  /** The failures of the first n jobs. */
  ghost function FailuresOf(all: seq<Job>, n: nat): seq<Pulse>
    requires n <= |all|
  {
    FailAll(Ids(all[..n]))
  }

  lemma NoFailures(all: seq<Job>)
    ensures FailuresOf(all, 0) == []
  {
  }

  lemma AllFailures(all: seq<Job>)
    ensures FailuresOf(all, |all|) == FailAll(Ids(all))
  {
    assert all[..|all|] == all;
  }

  /** How far executePending gets when `answers[i]` tells whether the link survives the
      i-th job: up to the first failure, or through the whole queue. */
  function Executed(answers: seq<bool>, n: nat): (k: nat)
    requires |answers| >= n
    ensures k <= n
    ensures forall i :: 0 <= i < k - 1 ==> answers[i]
    ensures k < n ==> k > 0 && !answers[k - 1]
    decreases n
  {
    if n == 0 then 0 else if !answers[0] then 1 else 1 + Executed(answers[1..], n - 1)
  }

  /** The reports of jobs of which `answers` tells whether they were answered and `accepts`
      whether the master then accepted them. */
  function Reports(ids: seq<nat>, answers: seq<bool>, accepts: seq<bool>): seq<Pulse>
    requires |answers| >= |ids| && |accepts| >= |ids|
  {
    seq(|ids|, i requires 0 <= i < |ids| => Finished(ids[i], answers[i] && accepts[i]))
  }

  lemma NoReports(answers: seq<bool>, accepts: seq<bool>)
    ensures Reports(Ids([]), answers, accepts) == [] && FailAll(Ids([])) == []
  {
  }

  lemma NextReport(all: seq<Job>, n: nat, answers: seq<bool>, accepts: seq<bool>)
    requires n < |all| <= |answers| && |all| <= |accepts|
    ensures ReportsOf(all, n + 1, answers, accepts) == ReportsOf(all, n, answers, accepts) + [Finished(all[n].id, answers[n] && accepts[n])]
  {
  }

  lemma NextFailure(all: seq<Job>, n: nat)
    requires n < |all|
    ensures FailuresOf(all, n + 1) == FailuresOf(all, n) + [Finished(all[n].id, false)]
  {
  }

  lemma {:induction false} ExecutedIs(answers: seq<bool>, n: nat, k: nat)
    requires |answers| >= n && k <= n && (forall i :: 0 <= i < k - 1 ==> answers[i])
    requires k == n || (k > 0 && !answers[k - 1])
    ensures k == Executed(answers, n)
    decreases n
  {
    if n > 0 && answers[0] {
      ExecutedIs(answers[1..], n - 1, k - 1);
    }
  }

  /** MasterAdapter::executePending: jobs are run and reported in order until the link
      fails; the rest stays queued. */
  method ExecutePending(q: JobQueue, answers: seq<bool>, accepts: seq<bool>) returns (rc: bool, pulses: seq<Pulse>)
    requires q.Valid() && |answers| >= |q.jobs| && |accepts| >= |q.jobs|
    modifies q, q.jobs
    ensures var k := Executed(answers, |old(q.jobs)|);
            && q.Valid() && q.jobs == old(q.jobs)[k..]
            && pulses == Reports(Ids(old(q.jobs)[..k]), answers, accepts)
            && rc == (k == 0 || answers[k - 1])
  {
    hide Ids, Reports, Executed, ReportsOf;
    rc, pulses := true, [];
    ghost var all := q.jobs;
    NoReports(answers, accepts);
    assert ReportsOf(all, 0, answers, accepts) == [] by { assert all[..0] == []; ReportsAre(all, 0, answers, accepts); }
    var n := 0;
    var job := q.Pop();
    while job != null
      invariant q.Valid() && n <= |all| && rc
      invariant job == null ==> n == |all| && q.jobs == []
      invariant job != null ==> n < |all| && job == all[n] && q.jobs == all[n + 1..]
      invariant forall i :: 0 <= i < n ==> answers[i]
      invariant pulses == ReportsOf(all, n, answers, accepts)
      decreases |all| - n
    {
      rc := answers[n];
      pulses := pulses + [Finished(job.id, rc && accepts[n])];
      NextReport(all, n, answers, accepts);
      n := n + 1;
      if !rc {
        break;
      }
      job := q.Pop();
    }
    ExecutedIs(answers, |all|, n);
    ReportsAre(all, n, answers, accepts);
    assert q.jobs == all[n..];
  }

  /** The reports of the first n jobs. */
  ghost function ReportsOf(all: seq<Job>, n: nat, answers: seq<bool>, accepts: seq<bool>): seq<Pulse>
    requires n <= |all| <= |answers| && |all| <= |accepts|
  {
    Reports(Ids(all[..n]), answers, accepts)
  }

  lemma ReportsAre(all: seq<Job>, n: nat, answers: seq<bool>, accepts: seq<bool>)
    requires n <= |all| <= |answers| && |all| <= |accepts|
    ensures ReportsOf(all, n, answers, accepts) == Reports(Ids(all[..n]), answers, accepts)
  {
  }

  // ---------------------------------------------------------------- the worker thread

  /** Where the worker stands, between two actions visible to the dispatcher. */
  datatype Pc =
    | Start | Top
    | Removing | Failing(job: nat) | Connecting | Authenticating | Identifying | Announcing
    | Executing | Running(job: nat) | Pinging | Dropping | Reporting | Waiting
    | Leaving | LastReport | Stopped

  datatype Thread = Thread(
    pc: Pc, active: bool, connected: bool, timeout: bool, queue: seq<nat>,
    pushed: seq<nat>, pulses: seq<Pulse>)

  datatype Event =
    | Push(job: nat)                       // eval, by the dispatcher
    | Stop                                 // stop, by the dispatcher
    | Turn(answer: bool, success: bool)    // the worker's next action, with the network's answer

  /** One action of the worker. `answer` is what the network says to a connect, a ping or
      a job; a job can be answered and still be rejected. */
  function WorkerStep(t: Thread, answer: bool, success: bool): Thread {
    match t.pc
    case Start => t.(active := true, timeout := true, pc := Top)
    case Top =>
      if !t.active then t.(pc := Leaving)
      else if !t.connected then t.(pc := Removing) else t.(pc := Executing)
    case Removing =>
      if t.queue == [] then t.(pc := Connecting) else t.(queue := t.queue[1..], pc := Failing(t.queue[0]))
    case Failing(j) => t.(pulses := t.pulses + [Finished(j, false)], pc := Removing)
    case Connecting => if answer then t.(connected := true, pc := Authenticating) else t.(pc := Top)
    case Authenticating => if answer then t.(pc := Identifying) else t.(connected := false, pc := Top)
    case Identifying => if answer then t.(pc := Announcing) else t.(connected := false, pc := Top)
    case Announcing => t.(pulses := t.pulses + [Connected], pc := Top)
    case Executing =>
      if t.queue == [] then t.(pc := if t.timeout then Pinging else Waiting)
      else t.(queue := t.queue[1..], pc := Running(t.queue[0]))
    case Running(j) =>
      t.(pulses := t.pulses + [Finished(j, answer && success)], pc := if answer then Executing else Dropping)
    case Pinging => t.(pc := if answer then Waiting else Dropping)
    case Dropping => t.(connected := false, pc := Reporting)
    case Reporting => t.(pulses := t.pulses + [Disconnected], pc := Waiting)
    case Waiting => t.(timeout := answer, pc := Top)
    case Leaving => t.(connected := false, pc := LastReport)
    case LastReport => t.(pulses := t.pulses + [Disconnected], pc := Stopped)
    case Stopped => t
  }

  function Step(t: Thread, e: Event): Thread {
    match e
    case Push(j) => t.(queue := t.queue + [j], pushed := t.pushed + [j])
    case Stop => t.(active := false)
    case Turn(answer, success) => WorkerStep(t, answer, success)
  }

  const INITIAL := Thread(Start, false, false, true, [], [], [])

  /** Any interleaving of the two threads. */
  function After(es: seq<Event>): Thread {
    if es == [] then INITIAL else Step(After(es[..|es| - 1]), es[|es| - 1])
  }

  /** The jobs reported, in order. */
  function Done(pulses: seq<Pulse>): seq<nat> {
    if pulses == [] then []
    else
      var last := pulses[|pulses| - 1];
      Done(pulses[..|pulses| - 1]) + (if last.Finished? then [last.job] else [])
  }

  /** The session as the dispatcher sees it: did the last link pulse say connected? */
  function InSession(pulses: seq<Pulse>): bool {
    if pulses == [] then false
    else
      var last := pulses[|pulses| - 1];
      if last.Finished? then InSession(pulses[..|pulses| - 1]) else last.Connected?
  }

  function InHand(pc: Pc): seq<nat> {
    match pc
    case Failing(j) => [j]
    case Running(j) => [j]
    case _ => []
  }

  ghost predicate Conserved(t: Thread) {
    t.pushed == Done(t.pulses) + InHand(t.pc) + t.queue
  }

  /** What the worker's place says about the link and the session. */
  ghost predicate Placed(t: Thread) {
    match t.pc
    case Start => !t.connected && !InSession(t.pulses)
    case Top => t.connected == InSession(t.pulses)
    case Waiting => t.connected == InSession(t.pulses)
    case Removing => !t.connected && !InSession(t.pulses)
    case Failing(_) => !t.connected && !InSession(t.pulses)
    case Connecting => !t.connected && !InSession(t.pulses)
    case Authenticating => t.connected && !InSession(t.pulses)
    case Identifying => t.connected && !InSession(t.pulses)
    case Announcing => t.connected && !InSession(t.pulses)
    case Executing => t.connected && InSession(t.pulses)
    case Running(_) => t.connected && InSession(t.pulses)
    case Pinging => t.connected && InSession(t.pulses)
    case Dropping => t.connected && InSession(t.pulses)
    case Reporting => !t.connected && InSession(t.pulses)
    case Leaving => t.connected == InSession(t.pulses)
    case LastReport => !t.connected
    case Stopped => !t.connected && !InSession(t.pulses)
  }

  ghost predicate Within(pulses: seq<Pulse>) {
    forall i :: 0 <= i < |pulses| && pulses[i].Finished? && pulses[i].ok ==> InSession(pulses[..i])
  }

  ghost predicate Inv(t: Thread) {
    Conserved(t) && Placed(t) && Within(t.pulses)
  }

  lemma NextPulse(pulses: seq<Pulse>, p: Pulse)
    requires Within(pulses) && (p.Finished? && p.ok ==> InSession(pulses))
    ensures Within(pulses + [p])
    ensures Done(pulses + [p]) == Done(pulses) + (if p.Finished? then [p.job] else [])
    ensures InSession(pulses + [p]) == if p.Finished? then InSession(pulses) else p.Connected?
  {
    var after := pulses + [p];
    assert after[..|after| - 1] == pulses;
    forall i | 0 <= i < |after| && after[i].Finished? && after[i].ok ensures InSession(after[..i]) {
      assert i < |pulses| ==> after[..i] == pulses[..i];
    }
  }

  /** The three kinds of action: take a job, send a pulse, or neither. */
  ghost predicate Takes(t: Thread, t': Thread) {
    t.queue != [] && t'.queue == t.queue[1..] && InHand(t.pc) == [] && InHand(t'.pc) == [t.queue[0]] && t'.pulses == t.pulses
  }

  ghost predicate Sends(t: Thread, t': Thread, p: Pulse) {
    && t'.queue == t.queue && t'.pulses == t.pulses + [p] && InHand(t'.pc) == []
    && InHand(t.pc) == (if p.Finished? then [p.job] else [])
    && (p.Finished? && p.ok ==> t.pc.Running?)
  }

  ghost predicate Rests(t: Thread, t': Thread) {
    t'.queue == t.queue && t'.pulses == t.pulses && InHand(t.pc) == InHand(t'.pc)
  }

  predicate Talks(pc: Pc) {
    pc.Failing? || pc.Announcing? || pc.Running? || pc.Reporting? || pc.LastReport?
  }

  function Said(pc: Pc, ok: bool): Pulse
    requires Talks(pc)
  {
    match pc
    case Failing(j) => Finished(j, false)
    case Running(j) => Finished(j, ok)
    case Announcing => Connected
    case _ => Disconnected
  }

  lemma Talk(t: Thread, answer: bool, success: bool)
    requires Talks(t.pc)
    ensures WorkerStep(t, answer, success).pushed == t.pushed
    ensures Sends(t, WorkerStep(t, answer, success), Said(t.pc, answer && success))
  {
  }

  lemma Moves(t: Thread, answer: bool, success: bool)
    ensures var t' := WorkerStep(t, answer, success);
            t'.pushed == t.pushed && (Takes(t, t') || Rests(t, t') || exists p :: Sends(t, t', p))
  {
    hide WorkerStep, Takes, Rests, Sends;
    if Talks(t.pc) { Talk(t, answer, success); } else { MovesSilently(t, answer, success); }
  }

  lemma MovesSilently(t: Thread, answer: bool, success: bool)
    requires !Talks(t.pc)
    ensures var t' := WorkerStep(t, answer, success); t'.pushed == t.pushed && (Takes(t, t') || Rests(t, t'))
  {
    hide WorkerStep, Takes, Rests, Talks;
    if (t.pc.Removing? || t.pc.Executing?) && t.queue != [] { TakesOne(t, answer, success); } else { RestsHere(t, answer, success); }
  }

  lemma TakesOne(t: Thread, answer: bool, success: bool)
    requires (t.pc.Removing? || t.pc.Executing?) && t.queue != []
    ensures var t' := WorkerStep(t, answer, success); t'.pushed == t.pushed && Takes(t, t')
  {
  }

  lemma RestsHere(t: Thread, answer: bool, success: bool)
    requires !Talks(t.pc) && !((t.pc.Removing? || t.pc.Executing?) && t.queue != [])
    ensures var t' := WorkerStep(t, answer, success); t'.pushed == t.pushed && Rests(t, t')
  {
  }

  lemma MoveConserves(t: Thread, t': Thread)
    requires Conserved(t) && Within(t.pulses) && (t.pc.Running? ==> InSession(t.pulses)) && t'.pushed == t.pushed
    requires Takes(t, t') || Rests(t, t') || exists p :: Sends(t, t', p)
    ensures Conserved(t')
  {
    hide Done, Within, InSession, InHand;
    if Takes(t, t') {
      assert t.queue == [t.queue[0]] + t'.queue;
      assert Done(t.pulses) + [] + t.queue == Done(t.pulses) + [t.queue[0]] + t'.queue;
    } else if !Rests(t, t') {
      var p :| Sends(t, t', p);
      NextPulse(t.pulses, p);
      assert Done(t'.pulses) == Done(t.pulses) + InHand(t.pc);
      assert Done(t'.pulses) + [] == Done(t'.pulses);
    }
  }

  lemma WorkerKeepsInv(t: Thread, answer: bool, success: bool)
    requires Inv(t)
    ensures Inv(WorkerStep(t, answer, success))
  {
    hide Within, Done, WorkerStep, Conserved, Takes, Rests, Sends, InSession;
    Moves(t, answer, success);
    MoveConserves(t, WorkerStep(t, answer, success));
    WorkerPulses(t, answer, success);
  }

  lemma WorkerPulses(t: Thread, answer: bool, success: bool)
    requires Within(t.pulses) && Placed(t)
    ensures Within(WorkerStep(t, answer, success).pulses) && Placed(WorkerStep(t, answer, success))
  {
    hide Within, Done, InSession;
    match t.pc
    case Failing(j) => NextPulse(t.pulses, Finished(j, false));
    case Announcing => NextPulse(t.pulses, Connected);
    case Running(j) => NextPulse(t.pulses, Finished(j, answer && success));
    case Reporting => NextPulse(t.pulses, Disconnected);
    case LastReport => NextPulse(t.pulses, Disconnected);
    case _ =>
  }

  lemma StepKeepsInv(t: Thread, e: Event)
    requires Inv(t)
    ensures Inv(Step(t, e))
  {
    match e
    case Turn(answer, success) => WorkerKeepsInv(t, answer, success);
    case Push(j) => assert t.pushed + [j] == Done(t.pulses) + InHand(t.pc) + (t.queue + [j]);
    case Stop =>
  }

  lemma {:induction false} AlwaysInv(es: seq<Event>)
    ensures Inv(After(es))
  {
    if es != [] {
      AlwaysInv(es[..|es| - 1]);
      StepKeepsInv(After(es[..|es| - 1]), es[|es| - 1]);
    }
  }

  /** Exactly once, first in first out: under every interleaving the pushed jobs are the
      reported ones, then the one in hand, then the queued ones, in the order of pushing;
      so the k-th report is about the k-th job pushed. */
  lemma JobsConserved(es: seq<Event>)
    ensures var t := After(es);
            && t.pushed == Done(t.pulses) + InHand(t.pc) + t.queue
            && |Done(t.pulses)| <= |t.pushed|
            && forall k :: 0 <= k < |Done(t.pulses)| ==> Done(t.pulses)[k] == t.pushed[k]
  {
    AlwaysInv(es);
  }

  /** A job is reported successful only within a session: after a connected pulse with no
      disconnected pulse in between. */
  lemma SuccessOnlyInSession(es: seq<Event>, i: nat)
    requires i < |After(es).pulses| && After(es).pulses[i].Finished? && After(es).pulses[i].ok
    ensures InSession(After(es).pulses[..i])
  {
    AlwaysInv(es);
  }

  lemma PushedBy(t: Thread, e: Event)
    ensures Step(t, e).pushed == t.pushed + (if e.Push? then [e.job] else [])
  {
  }

  lemma {:induction false} JobsMeanPushes(es: seq<Event>)
    ensures After(es).pushed == Pushes(es)
  {
    if es != [] {
      JobsMeanPushes(es[..|es| - 1]);
      PushedBy(After(es[..|es| - 1]), es[|es| - 1]);
    }
  }

  /** The jobs handed over by the dispatcher. */
  function Pushes(es: seq<Event>): seq<nat> {
    if es == [] then []
    else
      var last := es[|es| - 1];
      Pushes(es[..|es| - 1]) + (if last.Push? then [last.job] else [])
  }

  /** With distinct jobs, no job is reported twice, and none is both reported and queued. */
  lemma ReportedOnce(es: seq<Event>)
    requires forall i, j :: 0 <= i < j < |Pushes(es)| ==> Pushes(es)[i] != Pushes(es)[j]
    ensures var t := After(es);
            && (forall i, j :: 0 <= i < j < |Done(t.pulses)| ==> Done(t.pulses)[i] != Done(t.pulses)[j])
            && (forall x :: x in Done(t.pulses) ==> x !in t.queue)
  {
    AlwaysInv(es);
    JobsMeanPushes(es);
    var t := After(es);
    hide After, Done, Pushes;
    var d, n := Done(t.pulses), |t.pushed| - |t.queue|;
    assert forall i :: 0 <= i < |d| ==> d[i] == t.pushed[i];
    forall x | x in d ensures x !in t.queue {
      var i :| 0 <= i < |d| && d[i] == x;
      assert t.pushed[i] == x;
      forall j | 0 <= j < |t.queue| ensures t.queue[j] != x {
        assert t.pushed[n + j] == t.queue[j];
      }
    }
  }

  // ---------------------------------------------------------------- what the worker gets done

  /** Several turns in a row, with what the network says at each. */
  function Turns(t: Thread, says: seq<(bool, bool)>): Thread
    decreases |says|
  {
    if says == [] then t else Turns(WorkerStep(t, says[0].0, says[0].1), says[1..])
  }

  lemma {:induction false} TurnsAre(es: seq<Event>, says: seq<(bool, bool)>)
    ensures After(es + seq(|says|, i requires 0 <= i < |says| => Turn(says[i].0, says[i].1))) == Turns(After(es), says)
    decreases |says|
  {
    hide WorkerStep;
    var all := seq(|says|, i requires 0 <= i < |says| => Turn(says[i].0, says[i].1));
    if says == [] {
      assert es + all == es;
    } else {
      var first, rest := all[0], all[1..];
      assert rest == seq(|says[1..]|, i requires 0 <= i < |says[1..]| => Turn(says[1..][i].0, says[1..][i].1));
      assert es + all == es + [first] + rest && (es + [first])[..|es|] == es;
      TurnsAre(es + [first], says[1..]);
    }
  }

  /** The loop starts, and each time looks at the flag and at the link. */
  lemma LoopStarts(t: Thread, says: (bool, bool))
    requires t.pc.Start? || t.pc.Top? || t.pc.Waiting?
    ensures var t' := Turns(t, [says]);
            && t' == t.(pc := t'.pc, active := t'.active, timeout := t'.timeout)
            && match t.pc
               case Start => t'.pc == Top && t'.active && t'.timeout
               case Top => t'.active == t.active && t'.timeout == t.timeout
                           && t'.pc == if !t.active then Leaving else if t.connected then Executing else Removing
               case Waiting => t'.pc == Top && t'.timeout == says.0 && t'.active == t.active
  {
    OneTurn(t, says);
  }

  lemma OneTurn(t: Thread, a: (bool, bool))
    ensures Turns(t, [a]) == WorkerStep(t, a.0, a.1)
  {
    var says := [a];
    assert says[1..] == [];
    hide WorkerStep;
    assert Turns(WorkerStep(t, a.0, a.1), says[1..]) == WorkerStep(t, a.0, a.1);
  }

  lemma {:induction false} TurnsJoin(t: Thread, a: seq<(bool, bool)>, b: seq<(bool, bool)>)
    ensures Turns(t, a + b) == Turns(Turns(t, a), b)
    decreases |a|
  {
    hide WorkerStep;
    if a == [] {
      assert a + b == b;
    } else {
      TurnsJoin(WorkerStep(t, a[0].0, a[0].1), a[1..], b);
      assert (a + b)[0] == a[0] && (a + b)[1..] == a[1..] + b;
    }
  }

  lemma TwoTurns(t: Thread, a: (bool, bool), b: (bool, bool))
    ensures Turns(t, [a, b]) == WorkerStep(WorkerStep(t, a.0, a.1), b.0, b.1)
  {
    hide WorkerStep;
    TurnsJoin(t, [a], [b]);
    assert [a] + [b] == [a, b];
    OneTurn(t, a);
    OneTurn(WorkerStep(t, a.0, a.1), b);
  }

  lemma ThreeTurns(t: Thread, a: (bool, bool), b: (bool, bool), c: (bool, bool))
    ensures Turns(t, [a, b, c]) == WorkerStep(WorkerStep(WorkerStep(t, a.0, a.1), b.0, b.1), c.0, c.1)
  {
    hide WorkerStep;
    TurnsJoin(t, [a, b], [c]);
    assert [a, b] + [c] == [a, b, c];
    TwoTurns(t, a, b);
    OneTurn(WorkerStep(WorkerStep(t, a.0, a.1), b.0, b.1), c);
  }

  /** Without a link every queued job fails, in order, before the worker connects: these are the
      reports of removePending. */
  lemma {:induction false} PendingFail(t: Thread, says: seq<(bool, bool)>)
    requires t.pc.Removing? && |says| == 2 * |t.queue| + 1
    ensures Turns(t, says) == t.(pc := Connecting, queue := [], pulses := t.pulses + FailAll(t.queue))
    decreases |t.queue|
  {
    if t.queue == [] {
      assert says == [says[0]];
      OneTurn(t, says[0]);
      assert t.pulses + FailAll([]) == t.pulses;
    } else {
      var t2 := t.(queue := t.queue[1..], pulses := t.pulses + [Finished(t.queue[0], false)]);
      assert says == [says[0], says[1]] + says[2..];
      TurnsJoin(t, [says[0], says[1]], says[2..]);
      TwoTurns(t, says[0], says[1]);
      PendingFail(t2, says[2..]);
      assert FailAll(t.queue) == [Finished(t.queue[0], false)] + FailAll(t.queue[1..]);
    }
  }

  /** Three yes answers bring up the link, and the session is announced; any no leaves it down. */
  lemma Connects(t: Thread, a: (bool, bool), b: (bool, bool), c: (bool, bool), d: (bool, bool))
    requires t.pc.Connecting? && !t.connected
    ensures !a.0 ==> Turns(t, [a]) == t.(pc := Top)
    ensures a.0 && !b.0 ==> Turns(t, [a, b]) == t.(pc := Top)
    ensures a.0 && b.0 && !c.0 ==> Turns(t, [a, b, c]) == t.(pc := Top)
    ensures a.0 && b.0 && c.0 ==> Turns(t, [a, b, c, d]) == t.(pc := Top, connected := true, pulses := t.pulses + [Connected])
  {
    OneTurn(t, a);
    TwoTurns(t, a, b);
    ThreeTurns(t, a, b, c);
    TurnsJoin(t, [a, b, c], [d]);
    OneTurn(Turns(t, [a, b, c]), d);
    assert [a, b, c] + [d] == [a, b, c, d];
  }

  /** The turns of k jobs: each is taken, and then run with its answer. */
  function Runs(answers: seq<bool>, accepts: seq<bool>, k: nat): (r: seq<(bool, bool)>)
    requires k <= |answers| && k <= |accepts|
    ensures |r| == 2 * k
    decreases k
  {
    if k == 0 then [] else [(true, true), (answers[0], accepts[0])] + Runs(answers[1..], accepts[1..], k - 1)
  }

  /** The worker after the first k jobs of its queue. */
  function RanTo(t: Thread, answers: seq<bool>, accepts: seq<bool>, k: nat): Thread
    requires k <= |t.queue| <= |answers| && |t.queue| <= |accepts|
  {
    t.(pc := if k == 0 || answers[k - 1] then Executing else Dropping, queue := t.queue[k..],
       pulses := t.pulses + Reports(t.queue[..k], answers, accepts))
  }

  /** The worker after its queue, up to the first job that is not answered. */
  function Ran(t: Thread, answers: seq<bool>, accepts: seq<bool>): Thread
    requires |answers| >= |t.queue| && |accepts| >= |t.queue|
  {
    RanTo(t, answers, accepts, Executed(answers, |t.queue|))
  }

  /** With the link up the worker's turns are executePending: jobs are run and reported in order up to
      the first that is not answered, and only that one takes the worker out of the loop. */
  lemma {:induction false} PendingRun(t: Thread, answers: seq<bool>, accepts: seq<bool>)
    requires t.pc.Executing? && |answers| >= |t.queue| && |accepts| >= |t.queue|
    ensures Turns(t, Runs(answers, accepts, Executed(answers, |t.queue|))) == Ran(t, answers, accepts)
    decreases |t.queue|
  {
    hide WorkerStep, Ran, Executed, Runs;
    RanNext(t, answers, accepts);
    if t.queue != [] {
      var said := [(true, true), (answers[0], accepts[0])];
      JobTurns(t, answers[0], accepts[0]);
      if answers[0] {
        PendingRun(FirstRan(t, answers, accepts), answers[1..], accepts[1..]);
        TurnsJoin(t, said, Runs(answers[1..], accepts[1..], Executed(answers[1..], |t.queue| - 1)));
      } else {
        assert said + [] == said;
      }
    }
  }

  /** The worker after its queue, job by job. */
  lemma RanNext(t: Thread, answers: seq<bool>, accepts: seq<bool>)
    requires t.pc.Executing? && |answers| >= |t.queue| && |accepts| >= |t.queue|
    ensures t.queue == [] ==> Ran(t, answers, accepts) == t && Runs(answers, accepts, Executed(answers, |t.queue|)) == []
    ensures t.queue != [] && answers[0] ==> Ran(t, answers, accepts) == Ran(FirstRan(t, answers, accepts), answers[1..], accepts[1..])
    ensures t.queue != [] && !answers[0] ==> Ran(t, answers, accepts) == FirstRan(t, answers, accepts).(pc := Dropping)
    ensures t.queue != [] ==> RunsNext(answers, accepts, |t.queue|)
  {
    hide Runs, Executed, RunsNext, RanTo;
    ExecutedNext(answers, |t.queue|);
    if t.queue == [] {
      RanNone(t, answers, accepts);
      NoRuns(answers, accepts);
    } else {
      RunsAre(answers, accepts, |t.queue|);
      RanToNext(t, answers, accepts, Executed(answers, |t.queue|));
    }
  }

  /** The worker after the head of its queue. */
  function FirstRan(t: Thread, answers: seq<bool>, accepts: seq<bool>): Thread
    requires 0 < |t.queue| <= |answers| && |t.queue| <= |accepts|
  {
    t.(queue := t.queue[1..], pulses := t.pulses + [Finished(t.queue[0], answers[0] && accepts[0])])
  }

  lemma RanNone(t: Thread, answers: seq<bool>, accepts: seq<bool>)
    requires t.pc.Executing? && t.queue == []
    ensures RanTo(t, answers, accepts, 0) == t
  {
    NothingReported(t, answers, accepts);
    hide Reports;
  }

  lemma RanToNext(t: Thread, answers: seq<bool>, accepts: seq<bool>, k: nat)
    requires t.pc.Executing? && 0 < k <= |t.queue| <= |answers| && |t.queue| <= |accepts|
    ensures answers[0] ==> RanTo(t, answers, accepts, k) == RanTo(FirstRan(t, answers, accepts), answers[1..], accepts[1..], k - 1)
    ensures k == 1 && !answers[0] ==> RanTo(t, answers, accepts, k) == FirstRan(t, answers, accepts).(pc := Dropping)
  {
    FirstReported(t.queue, answers, accepts, k);
    QueueNext(t.queue, k);
    hide Reports;
    var rest := Reports(t.queue[1..][..k - 1], answers[1..], accepts[1..]);
    var first := Finished(t.queue[0], answers[0] && accepts[0]);
    assert t.pulses + ([first] + rest) == t.pulses + [first] + rest;
    if k == 1 {
      NothingReported(t.(queue := []), answers[1..], accepts[1..]);
      assert t.queue[1..][..0] == [];
    }
  }

  lemma QueueNext(q: seq<nat>, k: nat)
    requires 0 < k <= |q|
    ensures q[1..][k - 1..] == q[k..]
  {
  }

  lemma ExecutedNext(answers: seq<bool>, n: nat)
    requires |answers| >= n
    ensures Executed(answers, n) == if n == 0 then 0 else if answers[0] then 1 + Executed(answers[1..], n - 1) else 1
  {
  }

  lemma NoRuns(answers: seq<bool>, accepts: seq<bool>)
    ensures Runs(answers, accepts, 0) == []
  {
  }

  ghost predicate RunsNext(answers: seq<bool>, accepts: seq<bool>, n: nat)
    requires 0 < n <= |answers| && n <= |accepts|
  {
    Runs(answers, accepts, Executed(answers, n))
    == [(true, true), (answers[0], accepts[0])] + if answers[0] then Runs(answers[1..], accepts[1..], Executed(answers[1..], n - 1)) else []
  }

  lemma RunsAre(answers: seq<bool>, accepts: seq<bool>, n: nat)
    requires 0 < n <= |answers| && n <= |accepts|
    ensures RunsNext(answers, accepts, n)
  {
    ExecutedNext(answers, n);
    hide Executed;
    NoRuns(answers[1..], accepts[1..]);
  }

  /** One job: it is taken, run and reported. */
  lemma JobTurns(t: Thread, answer: bool, accept: bool)
    requires t.pc.Executing? && t.queue != []
    ensures Turns(t, [(true, true), (answer, accept)])
         == t.(pc := if answer then Executing else Dropping, queue := t.queue[1..],
               pulses := t.pulses + [Finished(t.queue[0], answer && accept)])
  {
    TwoTurns(t, (true, true), (answer, accept));
  }

  lemma NothingReported(t: Thread, answers: seq<bool>, accepts: seq<bool>)
    requires t.queue == []
    ensures t.pulses + Reports(t.queue[..0], answers, accepts) == t.pulses && t.queue[0..] == t.queue
  {
  }

  lemma FirstReported(ids: seq<nat>, answers: seq<bool>, accepts: seq<bool>, k: nat)
    requires 0 < k <= |ids| && |ids| <= |answers| && |ids| <= |accepts|
    ensures Reports(ids[..k], answers, accepts)
         == [Finished(ids[0], answers[0] && accepts[0])] + Reports(ids[1..][..k - 1], answers[1..], accepts[1..])
  {
  }

  /** The head job is reported as answered and accepted or not; without an answer the link is dropped
      and the session ends. */
  lemma HeadServed(t: Thread, a: (bool, bool), b: (bool, bool), c: (bool, bool), d: (bool, bool), e: (bool, bool))
    requires t.pc.Top? && t.active && t.connected && t.queue != []
    ensures var t3 := Turns(t, [a, b, c]);
            && t3.pulses == t.pulses + [Finished(t.queue[0], c.0 && c.1)] && t3.queue == t.queue[1..]
            && (if c.0 then t3.pc == Executing && t3.connected
                else Turns(t3, [d, e]) == t3.(pc := Waiting, connected := false, pulses := t3.pulses + [Disconnected]))
  {
    ThreeTurns(t, a, b, c);
    TwoTurns(Turns(t, [a, b, c]), d, e);
    hide Turns;
  }

  /** With the queue empty the worker waits, after a ping if its last wait timed out; without an answer
      to the ping the link is dropped and the session ends. */
  lemma QueueServed(t: Thread, a: (bool, bool), b: (bool, bool), c: (bool, bool), d: (bool, bool))
    requires t.pc.Executing? && t.connected && t.queue == []
    ensures !t.timeout ==> Turns(t, [a]) == t.(pc := Waiting)
    ensures t.timeout && b.0 ==> Turns(t, [a, b]) == t.(pc := Waiting)
    ensures t.timeout && !b.0 ==>
              Turns(Turns(t, [a, b]), [c, d]) == t.(pc := Waiting, connected := false, pulses := t.pulses + [Disconnected])
  {
    OneTurn(t, a);
    TwoTurns(t, a, b);
    TwoTurns(Turns(t, [a, b]), c, d);
  }

  /** Once stopped the worker leaves at the top of its loop, with a last disconnected pulse. */
  lemma Stops(t: Thread, a: (bool, bool), b: (bool, bool), c: (bool, bool))
    requires t.pc.Top? && !t.active
    ensures Turns(t, [a, b, c]) == t.(pc := Stopped, connected := false, pulses := t.pulses + [Disconnected])
  {
    ThreeTurns(t, a, b, c);
  }

  // ---------------------------------------------------------------- who is reported as done

  /** The event that reports the k-th job. */
  ghost predicate ReportedAt(es: seq<Event>, k: nat, i: int) {
    && 0 <= i < |es| && es[i].Turn?
    && |Done(After(es[..i]).pulses)| == k && |Done(After(es[..i + 1]).pulses)| == k + 1
  }

  lemma NextDone(t: Thread, e: Event)
    ensures var t' := Step(t, e);
            && (t'.pulses == t.pulses || exists p :: t'.pulses == t.pulses + [p])
            && |Done(t.pulses)| <= |Done(t'.pulses)| <= |Done(t.pulses)| + 1
            && (!e.Turn? ==> t'.pulses == t.pulses)
  {
    if e.Turn? && Talks(t.pc) {
      Talk(t, e.answer, e.success);
      var p := Said(t.pc, e.answer && e.success);
      assert (t.pulses + [p])[..|t.pulses|] == t.pulses;
    }
  }

  /** What the worker's turn says about the k-th job. */
  ghost predicate Verdict(t: Thread, t': Thread, k: nat, answer: bool, success: bool) {
    && k < |t.pushed| && (t.pc == Running(t.pushed[k]) || t.pc == Failing(t.pushed[k]))
    && (t.pc.Running? <==> InSession(t.pulses)) && (t.pc.Running? ==> t.connected)
    && t'.pulses == t.pulses + [Finished(t.pushed[k], InSession(t.pulses) && answer && success)]
  }

  /** Over all runs: the k-th job pushed, if it was reported, was reported by one turn of the worker,
      and as done exactly when the worker had taken it within a session and it was then answered and
      accepted; otherwise the link was down, or there was no answer, or the master refused. */
  lemma ReportedOkIff(es: seq<Event>, k: nat)
    requires k < |Done(After(es).pulses)|
    ensures exists i :: ReportedAt(es, k, i)
    ensures forall i :: ReportedAt(es, k, i) ==> Verdict(After(es[..i]), After(es[..i + 1]), k, es[i].answer, es[i].success)
  {
    SomeReport(es, k);
    forall i | ReportedAt(es, k, i)
      ensures Verdict(After(es[..i]), After(es[..i + 1]), k, es[i].answer, es[i].success)
    {
      AlwaysInv(es[..i]);
      assert es[..i + 1][..i] == es[..i] && es[..i + 1][i] == es[i];
      AfterLast(es[..i + 1]);
      hide After, Inv, Step, Done, Verdict;
      ReportIs(After(es[..i]), es[i], k);
    }
  }

  lemma {:induction false} SomeReport(es: seq<Event>, k: nat)
    requires k < |Done(After(es).pulses)|
    ensures exists i :: ReportedAt(es, k, i)
  {
    hide Done, Step;
    if es == [] {
      NoneDone();
    } else {
      var n := |es| - 1;
      NextDone(After(es[..n]), es[n]);
      AfterLast(es);
      hide After;
      if k < |Done(After(es[..n]).pulses)| {
        SomeReport(es[..n], k);
        var i :| ReportedAt(es[..n], k, i);
        assert es[..n][..i] == es[..i] && es[..n][..i + 1] == es[..i + 1] && es[..n][i] == es[i];
        assert ReportedAt(es, k, i);
      } else {
        assert es[..n + 1] == es;
        assert ReportedAt(es, k, n);
      }
    }
  }

  lemma NoneDone()
    ensures Done(INITIAL.pulses) == [] && After([]) == INITIAL
  {
  }

  lemma ReportIs(t: Thread, e: Event, k: nat)
    requires Inv(t) && e.Turn? && |Done(t.pulses)| == k && |Done(Step(t, e).pulses)| == k + 1
    ensures Verdict(t, Step(t, e), k, e.answer, e.success)
  {
    hide Done, InSession, Within;
    NextDone(t, e);
    if Talks(t.pc) {
      Talk(t, e.answer, e.success);
      hide WorkerStep;
      DoneSaid(t.pulses, Said(t.pc, e.answer && e.success));
      NthPushed(Done(t.pulses), InHand(t.pc), t.queue);
    } else {
      SaysNothing(t, e.answer, e.success);
    }
  }

  lemma DoneSaid(pulses: seq<Pulse>, p: Pulse)
    ensures Done(pulses + [p]) == Done(pulses) + (if p.Finished? then [p.job] else [])
  {
    assert (pulses + [p])[..|pulses|] == pulses;
  }

  lemma NthPushed(a: seq<nat>, b: seq<nat>, c: seq<nat>)
    ensures b != [] ==> |a + b + c| > |a| && (a + b + c)[|a|] == b[0]
  {
  }

  lemma SaysNothing(t: Thread, answer: bool, success: bool)
    requires !Talks(t.pc)
    ensures WorkerStep(t, answer, success).pulses == t.pulses
  {
  }

  /** The session is given up exactly after a job or a ping that was not answered. */
  lemma {:induction false} DroppedIff(es: seq<Event>)
    ensures After(es).pc.Dropping? <==> exists i :: Unanswered(es, i)
  {
    hide After, Unanswered;
    if es == [] {
      NoneDone();
      assert forall i :: !Unanswered([], i) by { NothingUnanswered(); }
    } else if es[|es| - 1].Turn? {
      LastTurn(es);
    } else {
      var es' := es[..|es| - 1];
      DroppedIff(es');
      SameTurns(es);
      if i :| Unanswered(es, i) { assert Unanswered(es', i); }
      if i :| Unanswered(es', i) { assert Unanswered(es, i); }
    }
  }

  lemma NothingUnanswered()
    ensures forall i :: !Unanswered([], i)
  {
  }

  ghost predicate NoTurn(es: seq<Event>) {
    forall e :: e in es ==> !e.Turn?
  }

  /** The unanswered turn, if it is the last one. */
  ghost predicate Unanswered(es: seq<Event>, i: int) {
    0 <= i < |es| && es[i].Turn? && !es[i].answer && (After(es[..i]).pc.Running? || After(es[..i]).pc.Pinging?) && NoTurn(es[i + 1..])
  }

  lemma LastTurn(es: seq<Event>)
    requires es != [] && es[|es| - 1].Turn?
    ensures forall i :: Unanswered(es, i) ==> i == |es| - 1
    ensures Unanswered(es, |es| - 1) <==> After(es).pc.Dropping?
  {
    var n := |es| - 1;
    AfterLast(es);
    DropsWhen(After(es[..n]), es[n].answer, es[n].success);
    hide After, WorkerStep;
    forall i | 0 <= i < n ensures !Unanswered(es, i) {
      assert es[i + 1..][n - i - 1] == es[n];
    }
    assert es[n + 1..] == [];
  }

  lemma DropsWhen(t: Thread, answer: bool, success: bool)
    ensures WorkerStep(t, answer, success).pc.Dropping? <==> !answer && (t.pc.Running? || t.pc.Pinging?)
  {
  }

  lemma AfterLast(es: seq<Event>)
    requires es != []
    ensures After(es) == Step(After(es[..|es| - 1]), es[|es| - 1])
  {
  }

  lemma SameTurns(es: seq<Event>)
    requires es != [] && !es[|es| - 1].Turn?
    ensures forall i :: Unanswered(es, i) <==> Unanswered(es[..|es| - 1], i)
    ensures After(es).pc == After(es[..|es| - 1]).pc
  {
    AfterLast(es);
    hide After, Unanswered;
    forall i ensures Unanswered(es, i) <==> Unanswered(es[..|es| - 1], i) { SameTurn(es, i); }
  }

  lemma SameTurn(es: seq<Event>, i: int)
    requires es != [] && !es[|es| - 1].Turn?
    ensures Unanswered(es, i) <==> Unanswered(es[..|es| - 1], i)
  {
    var n := |es| - 1;
    hide After, NoTurn;
    if 0 <= i < n {
      assert es[..n][..i] == es[..i] && es[..n][i] == es[i];
      TailTurns(es, i);
    }
  }

  lemma TailTurns(es: seq<Event>, i: nat)
    requires i + 1 < |es| && !es[|es| - 1].Turn?
    ensures NoTurn(es[i + 1..]) <==> NoTurn(es[..|es| - 1][i + 1..])
  {
    assert es[i + 1..] == es[..|es| - 1][i + 1..] + [es[|es| - 1]];
  }
}
