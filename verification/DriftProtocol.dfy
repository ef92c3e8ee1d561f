/** Co-evolving populations as a protocol: each one runs epochs of work, calls
    its drift-cap hook between them (gigaevo/adversarial/sync.py), and reads the
    others' progress from snapshots that may be out of date. */
module DriftProtocol {
  import opened ProgressSync

  type PopId = nat

  /** Between two calls of its hook a population is working and has handled
      `done` programs; `Starting` is the time before the first call. */
  datatype Phase = Starting | Working(done: nat) | Polling

  datatype Pop = Pop(progress: nat, counters: Counters, phase: Phase)

  /** The hook settings of one population, the most programs it handles between
      two calls, and the size of the seed population it ingests before the
      first. */
  datatype Params = Params(cap: nat, every: nat, batch: nat, seeds: nat, opponents: seq<PopId>)

  type World = seq<Pop>

  ghost predicate ValidParams(setup: seq<Params>) {
    forall i :: 0 <= i < |setup| ==>
      && setup[i].every >= 1
      && setup[i].opponents != []
      && (forall k :: 0 <= k < |setup[i].opponents| ==> setup[i].opponents[k] < |setup|)
  }

  /** Every epoch gets at least one program handled. */
  ghost predicate Productive(setup: seq<Params>) {
    ValidParams(setup) && forall i :: 0 <= i < |setup| ==> setup[i].batch >= 1
  }

  ghost predicate Init(setup: seq<Params>, w: World) {
    && |w| == |setup|
    && forall i :: 0 <= i < |w| ==> w[i] == Pop(0, Counters(0, true), Starting)
  }

  // ---------------------------------------------------------------- steps

  datatype Step = CallHook(i: PopId) | TakePoll(i: PopId, seen: seq<int>) | Handle(i: PopId)

  /** A snapshot may be missing (0) or old, but never ahead of the run. */
  ghost predicate Plausible(setup: seq<Params>, w: World, i: PopId, seen: seq<int>)
    requires i < |w| == |setup|
  {
    && |seen| == |setup[i].opponents|
    && forall k :: 0 <= k < |seen| && setup[i].opponents[k] < |w| ==> 0 <= seen[k] <= w[setup[i].opponents[k]].progress
  }

  function Called(every: nat, p: Pop): Pop {
    var (kind, counters) := OnCall(every, p.counters);
    Pop(p.progress, counters, if kind == Check then Polling else Working(0))
  }

  ghost predicate Enabled(setup: seq<Params>, w: World, s: Step) {
    && s.i < |w| == |setup|
    && match s
       case CallHook(i) => !w[i].phase.Polling?
       case TakePoll(i, seen) => w[i].phase.Polling? && Plausible(setup, w, i, seen)
       case Handle(i) =>
         || (w[i].phase.Working? && w[i].phase.done < setup[i].batch)
         || (w[i].phase.Starting? && w[i].progress < setup[i].seeds)
  }

  function Moved(param: Params, p: Pop, s: Step): Pop {
    match s
    case CallHook(_) => Called(param.every, p)
    case TakePoll(_, seen) => if Drift(p.progress, seen) <= param.cap then p.(phase := Working(0)) else p
    case Handle(_) => Pop(p.progress + 1, p.counters, if p.phase.Working? then Working(p.phase.done + 1) else p.phase)
  }

  function Next(setup: seq<Params>, w: World, s: Step): World
    requires s.i < |w| == |setup|
  {
    w[s.i := Moved(setup[s.i], w[s.i], s)]
  }

  ghost predicate Reaches(setup: seq<Params>, w: World, steps: seq<Step>, w': World)
    decreases |steps|
  {
    if steps == [] then w' == w
    else Enabled(setup, w, steps[0]) && Reaches(setup, Next(setup, w, steps[0]), steps[1..], w')
  }

  // ---------------------------------------------------------------- the drift bound

  function Max(a: int, b: int): int { if a >= b then a else b }

  /** The most a population can lead an opponent by. */
  function Bound(p: Params): int {
    Max(p.cap + p.every * p.batch, p.seeds + (2 * p.every - 1) * p.batch)
  }

  /** The lead a population may have right after a check or the baseline call. */
  function Slack(p: Params): int {
    Max(p.cap, p.seeds + (p.every - 1) * p.batch)
  }

  /** The most programs handled since the last synchronising call. */
  function Spent(p: Params, pop: Pop): int {
    match pop.phase
    case Starting => 0
    case Working(done) => pop.counters.calls * p.batch + done
    case Polling => p.every * p.batch
  }

  ghost predicate LeadOk(p: Params, pop: Pop, opponent: nat) {
    if pop.counters.first then pop.progress <= p.seeds + Spent(p, pop) - (if pop.phase.Working? then p.batch else 0)
    else pop.progress - opponent <= Slack(p) + Spent(p, pop)
  }

  ghost predicate PhaseOk(p: Params, pop: Pop) {
    && pop.counters.calls < p.every
    && (pop.phase.Working? ==> pop.phase.done <= p.batch)
    && (pop.phase.Starting? ==> pop.counters == Counters(0, true) && pop.progress <= p.seeds)
    && (pop.phase.Polling? ==> pop.counters == Counters(0, false))
    && (pop.phase.Working? && pop.counters.first ==> pop.counters.calls >= 1)
  }

  lemma {:induction false} TimesGrows(a: nat, k: nat, b: nat)
    requires a <= k
    ensures a * b <= k * b
    decreases k
  {
    if a < k {
      TimesGrows(a, k - 1, b);
      assert k * b == (k - 1) * b + b;
    }
  }

  lemma {:induction false} TimesStep(a: nat, k: nat, b: nat)
    requires a < k
    ensures a * b + b == (a + 1) * b <= k * b
    ensures (k - 1) * b + k * b == (2 * k - 1) * b
  {
    TimesGrows(a + 1, k, b);
    assert (2 * k - 1) * b == ((k - 1) + k) * b;
  }

  lemma {:induction false} SpentIsBounded(p: Params, pop: Pop)
    requires p.every >= 1 && PhaseOk(p, pop)
    ensures Spent(p, pop) <= p.every * p.batch
    ensures Slack(p) + p.every * p.batch == Bound(p)
  {
    TimesStep(pop.counters.calls, p.every, p.batch);
  }

  /** Calling the hook: a working population that has handled at most `batch`
      programs moves to the next call. */
  lemma {:induction false} CallKeepsLead(p: Params, pop: Pop, opponent: nat)
    requires p.every >= 1 && PhaseOk(p, pop) && LeadOk(p, pop, opponent) && !pop.phase.Polling?
    ensures PhaseOk(p, Called(p.every, pop)) && LeadOk(p, Called(p.every, pop), opponent)
  {
    TimesStep(pop.counters.calls, p.every, p.batch);
  }

  ghost predicate PopOk(setup: seq<Params>, w: World, i: PopId, k: nat) {
    i < |w| == |setup| && k < |setup[i].opponents| && setup[i].opponents[k] < |w| ==>
      PhaseOk(setup[i], w[i]) && LeadOk(setup[i], w[i], w[setup[i].opponents[k]].progress)
  }

  ghost predicate Inv(setup: seq<Params>, w: World) {
    |w| == |setup| && forall i: PopId, k: nat :: PopOk(setup, w, i, k)
  }

  /** A population only ever gains progress, so a step of one never hurts the
      lead of another. */
  lemma {:induction false} LeadSurvives(p: Params, pop: Pop, before: nat, after: nat)
    requires LeadOk(p, pop, before) && before <= after
    ensures LeadOk(p, pop, after)
  {
  }

  lemma {:induction false} PollKeepsLead(setup: seq<Params>, w: World, i: PopId, k: nat, seen: seq<int>)
    requires ValidParams(setup) && PopOk(setup, w, i, k) && Enabled(setup, w, TakePoll(i, seen)) && k < |seen|
    ensures PhaseOk(setup[i], Moved(setup[i], w[i], TakePoll(i, seen)))
    ensures LeadOk(setup[i], Moved(setup[i], w[i], TakePoll(i, seen)), w[setup[i].opponents[k]].progress)
  {
    DriftIsLeadOverEveryOpponent(w[i].progress, seen, setup[i].cap);
  }

  lemma {:induction false} MoveKeepsLead(setup: seq<Params>, w: World, s: Step, k: nat)
    requires ValidParams(setup) && PopOk(setup, w, s.i, k) && Enabled(setup, w, s) && k < |setup[s.i].opponents|
    ensures PhaseOk(setup[s.i], Moved(setup[s.i], w[s.i], s))
    ensures LeadOk(setup[s.i], Moved(setup[s.i], w[s.i], s), w[setup[s.i].opponents[k]].progress)
  {
    match s
    case CallHook(i) => CallKeepsLead(setup[i], w[i], w[setup[i].opponents[k]].progress);
    case TakePoll(i, seen) => PollKeepsLead(setup, w, i, k, seen);
    case Handle(_) =>
  }

  lemma {:induction false} StepKeepsInv(setup: seq<Params>, w: World, s: Step)
    requires ValidParams(setup) && Inv(setup, w) && Enabled(setup, w, s)
    ensures Inv(setup, Next(setup, w, s))
  {
    var w' := Next(setup, w, s);
    forall i: PopId, k: nat ensures PopOk(setup, w', i, k) {
      assert PopOk(setup, w, i, k);
      if i < |w| && k < |setup[i].opponents| {
        var j := setup[i].opponents[k];
        if i == s.i {
          MoveKeepsLead(setup, w, s, k);
        }
        assert w[j].progress <= w'[j].progress;
        LeadSurvives(setup[i], w'[i], w[j].progress, w'[j].progress);
      }
    }
  }

  lemma {:induction false} RunKeepsInv(setup: seq<Params>, w: World, steps: seq<Step>, w': World)
    requires ValidParams(setup) && Inv(setup, w) && Reaches(setup, w, steps, w')
    ensures Inv(setup, w')
    decreases |steps|
  {
    if steps != [] {
      StepKeepsInv(setup, w, steps[0]);
      RunKeepsInv(setup, Next(setup, w, steps[0]), steps[1..], w');
    }
  }

  /** In every reachable state a population leads none of its opponents by more
      than max(cap + K * B, seeds + (2K - 1) * B), whatever the readings missed. */
  lemma {:induction false} DriftIsBounded(setup: seq<Params>, w0: World, steps: seq<Step>, w: World, i: PopId, k: nat)
    requires ValidParams(setup) && Init(setup, w0) && Reaches(setup, w0, steps, w)
    requires i < |setup| && k < |setup[i].opponents|
    ensures |w| == |setup|
    ensures w[i].progress - w[setup[i].opponents[k]].progress <= Bound(setup[i])
  {
    RunKeepsInv(setup, w0, steps, w);
    assert PopOk(setup, w, i, k);
    SpentIsBounded(setup[i], w[i]);
  }

  // ---------------------------------------------------------------- the protocol and the hook

  /** The snapshots a poll finds: the population's own progress, and what is
      seen of the others, a missing one being seen as zero. */
  ghost predicate Shows(p: Poll, own: nat, seen: seq<int>) {
    && p.own == Snapshot(own)
    && |p.opponents| == |seen|
    && forall j :: 0 <= j < |seen| ==> p.opponents[j] == Snapshot(seen[j]) || (seen[j] == 0 && !p.opponents[j].Snapshot?)
  }

  lemma {:induction false} PollDecides(cap: int, p: Poll, own: nat, seen: seq<int>)
    requires Shows(p, own, seen)
    ensures Passes(cap, p) <==> Drift(own, seen) <= cap
  {
    PassesIff(cap, p);
    assert Readings(p.opponents) == seen;
  }

  /** The polls a population takes along a run. */
  ghost predicate Takes(setup: seq<Params>, w: World, steps: seq<Step>, i: PopId, polls: seq<Poll>)
    requires i < |w| == |setup|
    decreases |steps|
  {
    if steps == [] || steps[0].i >= |w| then polls == []
    else
      var next := Next(setup, w, steps[0]);
      if steps[0].TakePoll? && steps[0].i == i then
        polls != [] && Shows(polls[0], w[i].progress, steps[0].seen) && Takes(setup, next, steps[1..], i, polls[1..])
      else Takes(setup, next, steps[1..], i, polls)
  }

  /** The population does nothing but poll. */
  ghost predicate OnlyPolls(steps: seq<Step>, i: PopId) {
    forall k :: 0 <= k < |steps| && steps[k].i == i ==> steps[k].TakePoll?
  }

  lemma {:induction false} RestOnlyPolls(steps: seq<Step>, i: PopId)
    requires steps != [] && OnlyPolls(steps, i)
    ensures OnlyPolls(steps[1..], i)
  {
    forall k | 0 <= k < |steps| - 1 && steps[1..][k].i == i ensures steps[1..][k].TakePoll? {
      assert steps[1..][k] == steps[k + 1];
    }
  }

  /** Once let through it takes no more polls. */
  lemma {:induction false} NoPollsLater(setup: seq<Params>, w: World, steps: seq<Step>, w': World, i: PopId, polls: seq<Poll>)
    requires i < |w| == |setup| && Reaches(setup, w, steps, w') && OnlyPolls(steps, i) && !w[i].phase.Polling?
    requires Takes(setup, w, steps, i, polls)
    ensures polls == [] && i < |w'| && w'[i] == w[i]
    decreases |steps|
  {
    if steps != [] {
      RestOnlyPolls(steps, i);
      NoPollsLater(setup, Next(setup, w, steps[0]), steps[1..], w', i, polls);
    }
  }

  /** Every poll but the last keeps it waiting, and the last one if it is still
      waiting at the end. */
  ghost predicate PollsTell(p: Params, polls: seq<Poll>, after: Pop) {
    && (forall k :: 0 <= k < |polls| - 1 ==> !Passes(p.cap, polls[k]))
    && (after.phase.Polling? || after.phase == Working(0))
    && (after.phase.Polling? <==> polls == [] || !Passes(p.cap, polls[|polls| - 1]))
  }

  lemma {:induction false} PollsTellOnward(p: Params, polls: seq<Poll>, after: Pop)
    requires polls != [] && !Passes(p.cap, polls[0]) && PollsTell(p, polls[1..], after)
    ensures PollsTell(p, polls, after)
  {
    forall k | 0 <= k < |polls| - 1 ensures !Passes(p.cap, polls[k]) {
      assert k > 0 ==> polls[k] == polls[1..][k - 1];
    }
  }

  lemma {:induction false} PollsAlongARun(setup: seq<Params>, w: World, steps: seq<Step>, w': World, i: PopId, polls: seq<Poll>)
    requires i < |w| == |setup| && Reaches(setup, w, steps, w') && OnlyPolls(steps, i) && w[i].phase.Polling?
    requires Takes(setup, w, steps, i, polls)
    ensures i < |w'| && PollsTell(setup[i], polls, w'[i])
    decreases |steps|
  {
    if steps != [] {
      var next := Next(setup, w, steps[0]);
      RestOnlyPolls(steps, i);
      if steps[0].i != i {
        PollsAlongARun(setup, next, steps[1..], w', i, polls);
      } else {
        PollDecides(setup[i].cap, polls[0], w[i].progress, steps[0].seen);
        if next[i].phase.Polling? {
          PollsAlongARun(setup, next, steps[1..], w', i, polls[1..]);
          PollsTellOnward(setup[i], polls, w'[i]);
        } else {
          NoPollsLater(setup, next, steps[1..], w', i, polls[1..]);
        }
      }
    }
  }

  /** The protocol is the hook's: on the snapshots a polling population finds
      along any run, and before the timeout, a check of the hook returns exactly
      when the protocol lets the population go on, at its last poll, and is still
      waiting exactly when the protocol has it polling. */
  lemma {:induction false} ProtocolIsTheHook(setup: seq<Params>, w: World, steps: seq<Step>, w': World, i: PopId,
                                             polls: seq<Poll>, timeout: real, outcome: Outcome)
    requires i < |w| == |setup| && Reaches(setup, w, steps, w') && OnlyPolls(steps, i) && w[i].phase.Polling?
    requires Takes(setup, w, steps, i, polls) && forall k :: 0 <= k < |polls| ==> polls[k].elapsed <= timeout
    requires CheckEnds(setup[i].cap, timeout, polls, outcome)
    ensures i < |w'|
    ensures outcome == StillWaiting <==> w'[i].phase.Polling?
    ensures outcome.WithinCap? <==> w'[i].phase == Working(0)
    ensures outcome.WithinCap? ==> outcome.polls == |polls| - 1
  {
    PollsAlongARun(setup, w, steps, w', i, polls);
  }

  // ---------------------------------------------------------------- the bound is reached

  ghost predicate Can(setup: seq<Params>, w: World, w': World) {
    exists steps :: Reaches(setup, w, steps, w')
  }

  lemma {:induction false} CanStep(setup: seq<Params>, w: World, s: Step)
    requires Enabled(setup, w, s)
    ensures Can(setup, w, Next(setup, w, s))
  {
    assert Reaches(setup, Next(setup, w, s), [s][1..], Next(setup, w, s));
    assert Reaches(setup, w, [s], Next(setup, w, s));
  }

  lemma {:induction false} ReachesOnward(setup: seq<Params>, w: World, one: seq<Step>, w1: World, two: seq<Step>, w2: World)
    requires Reaches(setup, w, one, w1) && Reaches(setup, w1, two, w2)
    ensures Reaches(setup, w, one + two, w2)
    decreases |one|
  {
    if one == [] {
      assert one + two == two;
    } else {
      ReachesOnward(setup, Next(setup, w, one[0]), one[1..], w1, two, w2);
      assert (one + two)[1..] == one[1..] + two;
    }
  }

  lemma {:induction false} CanOnward(setup: seq<Params>, w: World, w1: World, w2: World)
    requires Can(setup, w, w1) && Can(setup, w1, w2)
    ensures Can(setup, w, w2)
  {
    var one :| Reaches(setup, w, one, w1);
    var two :| Reaches(setup, w1, two, w2);
    ReachesOnward(setup, w, one, w1, two, w2);
  }

  /** Two populations: the one with the given settings, and an opponent that
      has not started. */
  function Pair(p: Params): seq<Params> {
    [p.(opponents := [1]), Params(0, 1, 1, 0, [0])]
  }

  const IDLE_POP := Pop(0, Counters(0, true), Starting)

  ghost predicate Alone(p: Params, from: Pop, to: Pop) {
    Can(Pair(p), [from, IDLE_POP], [to, IDLE_POP])
  }

  lemma {:induction false} AloneStep(p: Params, pop: Pop, s: Step)
    requires s.i == 0 && Enabled(Pair(p), [pop, IDLE_POP], s)
    ensures Alone(p, pop, Moved(Pair(p)[0], pop, s))
  {
    CanStep(Pair(p), [pop, IDLE_POP], s);
    assert Next(Pair(p), [pop, IDLE_POP], s) == [Moved(Pair(p)[0], pop, s), IDLE_POP];
  }

  lemma {:induction false} AloneOnward(p: Params, a: Pop, b: Pop, c: Pop)
    requires Alone(p, a, b) && Alone(p, b, c)
    ensures Alone(p, a, c)
  {
    CanOnward(Pair(p), [a, IDLE_POP], [b, IDLE_POP], [c, IDLE_POP]);
  }

  lemma {:induction false} AloneStay(p: Params, a: Pop)
    ensures Alone(p, a, a)
  {
    assert Reaches(Pair(p), [a, IDLE_POP], [], [a, IDLE_POP]);
  }

  /** Handling `n` more programs of the current epoch. */
  lemma {:induction false} Burst(p: Params, x: nat, c: Counters, n: nat)
    requires n <= p.batch
    ensures Alone(p, Pop(x, c, Working(0)), Pop(x + n, c, Working(n)))
    decreases n
  {
    if n == 0 {
      AloneStay(p, Pop(x, c, Working(0)));
    } else {
      Burst(p, x, c, n - 1);
      AloneStep(p, Pop(x + n - 1, c, Working(n - 1)), Handle(0));
      AloneOnward(p, Pop(x, c, Working(0)), Pop(x + n - 1, c, Working(n - 1)), Pop(x + n, c, Working(n)));
    }
  }

  /** One epoch of `m` programs, ended by a call of the hook. */
  lemma {:induction false} Epoch(p: Params, x: nat, c: Counters, m: nat)
    requires m <= p.batch
    ensures Alone(p, Pop(x, c, Working(0)), Called(p.every, Pop(x + m, c, Working(m))))
  {
    Burst(p, x, c, m);
    AloneStep(p, Pop(x + m, c, Working(m)), CallHook(0));
    AloneOnward(p, Pop(x, c, Working(0)), Pop(x + m, c, Working(m)), Called(p.every, Pop(x + m, c, Working(m))));
  }

  /** `n` epochs of `m` programs whose hook calls are all skipped. */
  lemma {:induction false} SkippedEpochs(p: Params, x: nat, calls: nat, first: bool, n: nat, m: nat)
    requires m <= p.batch && calls + n < p.every
    ensures Alone(p, Pop(x, Counters(calls, first), Working(0)), Pop(x + n * m, Counters(calls + n, first), Working(0)))
    decreases n
  {
    var start := Pop(x, Counters(calls, first), Working(0));
    if n == 0 {
      AloneStay(p, start);
    } else {
      var y: nat := x + (n - 1) * m;
      SkippedEpochs(p, x, calls, first, n - 1, m);
      Epoch(p, y, Counters(calls + n - 1, first), m);
      assert y + m == x + n * m;
      AloneOnward(p, start, Pop(y, Counters(calls + n - 1, first), Working(0)), Pop(x + n * m, Counters(calls + n, first), Working(0)));
    }
  }

  function Checkpoint(x: nat): Pop { Pop(x, Counters(0, false), Working(0)) }

  lemma {:induction false} Ingest(p: Params, n: nat)
    requires n <= p.seeds
    ensures Alone(p, IDLE_POP, Pop(n, Counters(0, true), Starting))
    decreases n
  {
    if n == 0 {
      AloneStay(p, IDLE_POP);
    } else {
      Ingest(p, n - 1);
      AloneStep(p, Pop(n - 1, Counters(0, true), Starting), Handle(0));
      AloneOnward(p, IDLE_POP, Pop(n - 1, Counters(0, true), Starting), Pop(n, Counters(0, true), Starting));
    }
  }

  /** The unchecked start: the seeds, and `every - 1` epochs of `m` programs
      before the baseline call. */
  lemma {:induction false} BaselineAt(p: Params, m: nat)
    requires p.every >= 1 && m <= p.batch
    ensures Alone(p, IDLE_POP, Checkpoint(p.seeds + (p.every - 1) * m))
  {
    var seeded := Pop(p.seeds, Counters(0, true), Starting);
    Ingest(p, p.seeds);
    AloneStep(p, seeded, CallHook(0));
    AloneOnward(p, IDLE_POP, seeded, Called(p.every, seeded));
    if p.every > 1 {
      var x: nat := p.seeds + (p.every - 2) * m;
      SkippedEpochs(p, p.seeds, 1, true, p.every - 2, m);
      AloneOnward(p, IDLE_POP, Called(p.every, seeded), Pop(x, Counters(p.every - 1, true), Working(0)));
      Epoch(p, x, Counters(p.every - 1, true), m);
      assert x + m == p.seeds + (p.every - 1) * m;
      AloneOnward(p, IDLE_POP, Pop(x, Counters(p.every - 1, true), Working(0)), Checkpoint(p.seeds + (p.every - 1) * m));
    }
  }

  /** A checked period that handles one program and passes the check. */
  lemma {:induction false} OneMore(p: Params, x: nat)
    requires p.every >= 1 && p.batch >= 1 && x + 1 <= p.cap
    ensures Alone(p, Checkpoint(x), Checkpoint(x + 1))
  {
    var last := Pop(x, Counters(p.every - 1, false), Working(0));
    var waiting := Pop(x + 1, Counters(0, false), Polling);
    SkippedEpochs(p, x, 0, false, p.every - 1, 0);
    Epoch(p, x, Counters(p.every - 1, false), 1);
    AloneOnward(p, Checkpoint(x), last, waiting);
    AloneStep(p, waiting, TakePoll(0, [0]));
    AloneOnward(p, Checkpoint(x), waiting, Checkpoint(x + 1));
  }

  lemma {:induction false} CheckpointAt(p: Params, x: nat)
    requires p.every >= 1 && p.batch >= 1 && p.seeds <= x <= p.cap
    ensures Alone(p, IDLE_POP, Checkpoint(x))
    decreases x
  {
    if x == p.seeds {
      BaselineAt(p, 0);
    } else {
      CheckpointAt(p, x - 1);
      OneMore(p, x - 1);
      AloneOnward(p, IDLE_POP, Checkpoint(x - 1), Checkpoint(x));
    }
  }

  /** A whole period of full epochs up to, but not including, its check. */
  lemma {:induction false} FullPeriod(p: Params, x: nat)
    requires p.every >= 1
    ensures Alone(p, Checkpoint(x), Pop(x + p.every * p.batch, Counters(p.every - 1, false), Working(p.batch)))
  {
    var y: nat := x + (p.every - 1) * p.batch;
    SkippedEpochs(p, x, 0, false, p.every - 1, p.batch);
    Burst(p, y, Counters(p.every - 1, false), p.batch);
    TimesStep(p.every - 1, p.every, p.batch);
    AloneOnward(p, Checkpoint(x), Pop(y, Counters(p.every - 1, false), Working(0)),
                Pop(x + p.every * p.batch, Counters(p.every - 1, false), Working(p.batch)));
  }

  /** The bound is exact: for every setting some run reaches it, so the lead
      does exceed the configured cap. */
  lemma {:induction false} BoundIsReached(p: Params)
    requires p.every >= 1 && p.batch >= 1
    ensures Init(Pair(p), [IDLE_POP, IDLE_POP]) && ValidParams(Pair(p))
    ensures exists w: World :: Can(Pair(p), [IDLE_POP, IDLE_POP], w) && |w| == 2 && w[0].progress - w[1].progress == Bound(p) > p.cap
  {
    var x := Slack(p);
    TimesGrows(0, p.every - 1, p.batch);
    if p.cap >= p.seeds + (p.every - 1) * p.batch {
      CheckpointAt(p, p.cap);
    } else {
      BaselineAt(p, p.batch);
    }
    FullPeriod(p, x);
    var last := Pop(x + p.every * p.batch, Counters(p.every - 1, false), Working(p.batch));
    AloneOnward(p, IDLE_POP, Checkpoint(x), last);
    SpentIsBounded(p, last);
    TimesGrows(1, p.every, p.batch);
    assert Can(Pair(p), [IDLE_POP, IDLE_POP], [last, IDLE_POP]);
  }

  // ---------------------------------------------------------------- who waits for whom

  function Exact(setup: seq<Params>, w: World, i: PopId): (seen: seq<int>)
    requires i < |w| == |setup|
    ensures |seen| == |setup[i].opponents|
  {
    seq(|setup[i].opponents|, k requires 0 <= k < |setup[i].opponents| =>
      if setup[i].opponents[k] < |w| then w[setup[i].opponents[k]].progress else 0)
  }

  ghost predicate WaitsFor(setup: seq<Params>, w: World, i: PopId, j: PopId) {
    && i < |w| == |setup| && j < |w|
    && w[i].phase.Polling? && j in setup[i].opponents
    && w[i].progress - w[j].progress > setup[i].cap
  }

  ghost predicate Blocked(setup: seq<Params>, w: World, i: PopId) {
    exists j: PopId :: WaitsFor(setup, w, i, j)
  }

  /** A polling population that reads its opponents exactly goes on exactly
      when it waits for none of them. */
  lemma {:induction false} BlockedIff(setup: seq<Params>, w: World, i: PopId)
    requires ValidParams(setup) && i < |w| == |setup| && w[i].phase.Polling?
    ensures Enabled(setup, w, TakePoll(i, Exact(setup, w, i)))
    ensures Next(setup, w, TakePoll(i, Exact(setup, w, i)))[i].phase.Polling? <==> Blocked(setup, w, i)
  {
    var seen := Exact(setup, w, i);
    DriftIsLeadOverEveryOpponent(w[i].progress, seen, setup[i].cap);
    if Drift(w[i].progress, seen) > setup[i].cap {
      var k :| 0 <= k < |seen| && w[i].progress - seen[k] > setup[i].cap;
      assert WaitsFor(setup, w, i, setup[i].opponents[k]);
    }
    if Blocked(setup, w, i) {
      var j: PopId :| WaitsFor(setup, w, i, j);
      var k :| 0 <= k < |setup[i].opponents| && setup[i].opponents[k] == j;
      assert seen[k] == w[j].progress;
    }
  }

  ghost predicate WaitChain(setup: seq<Params>, w: World, chain: seq<PopId>) {
    forall k :: 0 <= k < |chain| - 1 ==> WaitsFor(setup, w, chain[k], chain[k + 1])
  }

  /** Along a chain of waits the progress strictly falls, so no chain comes
      back to a population it has visited. */
  lemma {:induction false} WaitsGoDownhill(setup: seq<Params>, w: World, chain: seq<PopId>, a: nat, b: nat)
    requires WaitChain(setup, w, chain) && a < b < |chain|
    ensures chain[a] < |w| && chain[b] < |w|
    ensures w[chain[b]].progress + (b - a) <= w[chain[a]].progress
    ensures chain[a] != chain[b]
    decreases b - a
  {
    assert WaitsFor(setup, w, chain[a], chain[a + 1]);
    if a + 1 < b {
      WaitsGoDownhill(setup, w, chain, a + 1, b);
    }
  }

  /** Every blocked population is at the head of a chain of waits that ends in
      one that is not blocked. */
  lemma {:induction false} ChainsEndUnblocked(setup: seq<Params>, w: World, i: PopId) returns (chain: seq<PopId>)
    requires i < |w| == |setup|
    ensures chain != [] && chain[0] == i && WaitChain(setup, w, chain)
    ensures chain[|chain| - 1] < |w| && !Blocked(setup, w, chain[|chain| - 1])
    decreases w[i].progress
  {
    if Blocked(setup, w, i) {
      var j: PopId :| WaitsFor(setup, w, i, j);
      var rest := ChainsEndUnblocked(setup, w, j);
      chain := [i] + rest;
    } else {
      chain := [i];
    }
  }

  ghost predicate Slowest(w: World, i: PopId) {
    i < |w| && forall j: PopId :: j < |w| ==> w[i].progress <= w[j].progress
  }

  lemma {:induction false} SlowestIsNeverBlocked(setup: seq<Params>, w: World, i: PopId)
    requires Slowest(w, i)
    ensures !Blocked(setup, w, i)
  {
  }

  /** A ring of populations that all keep polling has misread somebody: one of
      them saw less progress of the next, or the last of the first, than there
      was. */
  lemma {:induction false} RingNeedsAMisreading(w: World, ring: seq<PopId>, caps: seq<nat>, seen: seq<int>)
    requires |ring| == |caps| == |seen| > 0
    requires forall k :: 0 <= k < |ring| ==> ring[k] < |w| && w[ring[k]].progress - seen[k] > caps[k]
    ensures seen[|ring| - 1] < w[ring[0]].progress || exists k :: 0 <= k < |ring| - 1 && seen[k] < w[ring[k + 1]].progress
  {
    if forall k :: 0 <= k < |ring| - 1 ==> seen[k] >= w[ring[k + 1]].progress {
      RingDescends(w, ring, caps, seen, |ring| - 1);
    }
  }

  lemma {:induction false} RingDescends(w: World, ring: seq<PopId>, caps: seq<nat>, seen: seq<int>, n: nat)
    requires |ring| == |caps| == |seen| && n < |ring|
    requires forall k :: 0 <= k < |ring| ==> ring[k] < |w| && w[ring[k]].progress - seen[k] > caps[k]
    requires forall k :: 0 <= k < |ring| - 1 ==> seen[k] >= w[ring[k + 1]].progress
    ensures w[ring[n]].progress <= w[ring[0]].progress
    decreases n
  {
    if n > 0 {
      RingDescends(w, ring, caps, seen, n - 1);
      assert seen[n - 1] >= w[ring[n - 1 + 1]].progress;
    }
  }

  /** With readings stuck at zero the two populations of a pair can both poll
      for ever: a poll changes neither exactly when both are past their cap. */
  lemma {:induction false} MissingSnapshotsBlockBothIff(setup: seq<Params>, w: World)
    requires |setup| == |w| == 2 && setup[0].opponents == [1] && setup[1].opponents == [0]
    requires w[0].phase.Polling? && w[1].phase.Polling?
    ensures forall i: PopId :: i < 2 ==> Enabled(setup, w, TakePoll(i, [0]))
    ensures (forall i: PopId :: i < 2 ==> Next(setup, w, TakePoll(i, [0])) == w)
            <==> w[0].progress > setup[0].cap && w[1].progress > setup[1].cap
  {
    forall i: PopId | i < 2
      ensures Enabled(setup, w, TakePoll(i, [0]))
      ensures Next(setup, w, TakePoll(i, [0])) == w <==> w[i].progress > setup[i].cap
    {
      DriftIsLeadOverEveryOpponent(w[i].progress, [0], setup[i].cap);
      var p' := Moved(setup[i], w[i], TakePoll(i, [0]));
      assert w[i := p'][i] == p';
      assert p' == w[i] ==> w[i := p'] == w;
    }
  }

  // ---------------------------------------------------------------- no population is stuck

  ghost predicate Advances(setup: seq<Params>, w: World, j: PopId, p: Pop) {
    j < |w| && p.progress == w[j].progress + 1 && Can(setup, w, w[j := p])
  }

  ghost predicate CanAdvance(setup: seq<Params>, w: World, j: PopId) {
    exists p :: Advances(setup, w, j, p)
  }

  lemma {:induction false} WorkingAdvances(setup: seq<Params>, w: World, j: PopId)
    requires ValidParams(setup) && j < |w| == |setup|
    requires w[j].phase.Working? && w[j].phase.done < setup[j].batch
    ensures CanAdvance(setup, w, j)
  {
    CanStep(setup, w, Handle(j));
    assert Advances(setup, w, j, Moved(setup[j], w[j], Handle(j)));
  }

  lemma {:induction false} AdvancesOnward(setup: seq<Params>, w: World, j: PopId, mid: Pop)
    requires j < |w| && mid.progress == w[j].progress && Can(setup, w, w[j := mid])
    requires CanAdvance(setup, w[j := mid], j)
    ensures CanAdvance(setup, w, j)
  {
    var p :| Advances(setup, w[j := mid], j, p);
    assert w[j := mid][j := p] == w[j := p];
    CanOnward(setup, w, w[j := mid], w[j := p]);
    assert Advances(setup, w, j, p);
  }

  lemma {:induction false} PollingAdvances(setup: seq<Params>, w: World, j: PopId)
    requires Productive(setup) && Slowest(w, j) && |w| == |setup| && w[j].phase.Polling?
    ensures CanAdvance(setup, w, j)
  {
    var s := TakePoll(j, Exact(setup, w, j));
    BlockedIff(setup, w, j);
    SlowestIsNeverBlocked(setup, w, j);
    CanStep(setup, w, s);
    var mid := Moved(setup[j], w[j], s);
    WorkingAdvances(setup, w[j := mid], j);
    AdvancesOnward(setup, w, j, mid);
  }

  /** The slowest population can always handle one more program, and nobody
      else has to move for it. */
  lemma {:induction false} SlowestAdvances(setup: seq<Params>, w: World, j: PopId)
    requires Productive(setup) && Slowest(w, j) && |w| == |setup|
    ensures CanAdvance(setup, w, j)
  {
    if w[j].phase.Polling? {
      PollingAdvances(setup, w, j);
    } else if w[j].phase.Working? && w[j].phase.done < setup[j].batch {
      WorkingAdvances(setup, w, j);
    } else {
      CanStep(setup, w, CallHook(j));
      var mid := Called(setup[j].every, w[j]);
      if mid.phase.Polling? {
        PollingAdvances(setup, w[j := mid], j);
      } else {
        WorkingAdvances(setup, w[j := mid], j);
      }
      AdvancesOnward(setup, w, j, mid);
    }
  }

  function Shortfall(w: World, target: nat): nat
    decreases |w|
  {
    if w == [] then 0
    else (if w[0].progress < target then target - w[0].progress else 0) + Shortfall(w[1..], target)
  }

  lemma {:induction false} ShortfallFalls(w: World, target: nat, j: PopId, p: Pop)
    requires j < |w| && w[j].progress < target && p.progress == w[j].progress + 1
    ensures Shortfall(w[j := p], target) + 1 == Shortfall(w, target)
    decreases |w|
  {
    if j == 0 {
      assert w[j := p][1..] == w[1..];
    } else {
      assert w[j := p][1..] == w[1..][j - 1 := p];
      ShortfallFalls(w[1..], target, j - 1, p);
    }
  }

  function SlowestOf(w: World): (j: PopId)
    requires w != []
    ensures Slowest(w, j)
    decreases |w|
  {
    if |w| == 1 then 0
    else
      var rest := SlowestOf(w[1..]);
      assert forall j :: 0 < j < |w| ==> w[j] == w[1..][j - 1];
      if w[0].progress <= w[1..][rest].progress then 0 else rest + 1
  }

  ghost predicate CaughtUp(w: World, w': World, target: nat) {
    && |w'| == |w|
    && forall i: PopId :: i < |w| ==> w'[i].progress >= target && (w[i].progress >= target ==> w'[i] == w[i])
  }

  /** The others can always catch up with `target` while every population that
      is already there stands still. */
  lemma {:induction false} OthersCatchUp(setup: seq<Params>, w: World, target: nat)
    requires Productive(setup) && |w| == |setup|
    ensures exists w' :: Can(setup, w, w') && CaughtUp(w, w', target)
    decreases Shortfall(w, target)
  {
    if w != [] && w[SlowestOf(w)].progress < target {
      var j := SlowestOf(w);
      SlowestAdvances(setup, w, j);
      var p :| Advances(setup, w, j, p);
      ShortfallFalls(w, target, j, p);
      OthersCatchUp(setup, w[j := p], target);
      var w' :| Can(setup, w[j := p], w') && CaughtUp(w[j := p], w', target);
      CanOnward(setup, w, w[j := p], w');
    } else {
      assert Reaches(setup, w, [], w);
      assert Can(setup, w, w);
    }
  }

  /** No deadlock and no starvation by the rules: from every state, reachable or
      not, there is a run after which a given polling population has passed its
      check without having moved. */
  lemma {:induction false} EveryoneGetsThrough(setup: seq<Params>, w: World, i: PopId)
    requires Productive(setup) && i < |w| == |setup| && w[i].phase.Polling?
    ensures exists w' :: Can(setup, w, w') && |w'| == |w| && w'[i] == w[i].(phase := Working(0))
  {
    OthersCatchUp(setup, w, w[i].progress);
    var w1 :| Can(setup, w, w1) && CaughtUp(w, w1, w[i].progress);
    BlockedIff(setup, w1, i);
    var s := TakePoll(i, Exact(setup, w1, i));
    CanStep(setup, w1, s);
    CanOnward(setup, w, w1, Next(setup, w1, s));
  }
}
