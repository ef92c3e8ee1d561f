/** The drift-cap hook that one population calls between its epochs
    (gigaevo/adversarial/sync.py). */
module ProgressSync {
  import opened Wrappers

  // ---------------------------------------------------------------- configuration

  datatype Config = Config(sources: nat, driftCap: int, syncEvery: int)

  datatype ConfigError = NoSources | NoCap | NegativeCap(cap: int)

  /** `minDelta` is the deprecated name of `driftCap` and yields to it. */
  function Configure(sources: nat, driftCap: Option<int>, minDelta: Option<int>, syncEvery: int): (r: Result<Config, ConfigError>)
    ensures r.Ok? <==> sources > 0 && exists cap: nat :: driftCap == Some(cap) || (driftCap.None? && minDelta == Some(cap))
    ensures r.Ok? ==> WellFormed(r.value) && r.value.sources == sources
    ensures r.Ok? ==> Some(r.value.driftCap) == if driftCap.Some? then driftCap else minDelta
    ensures r.Ok? ==> if syncEvery > 0 then r.value.syncEvery == syncEvery else r.value.syncEvery == 1
  {
    if sources == 0 then Err(NoSources)
    else if driftCap.None? && minDelta.None? then Err(NoCap)
    else
      var cap := if driftCap.Some? then driftCap.value else minDelta.value;
      if cap < 0 then Err(NegativeCap(cap))
      else
        assert driftCap == Some(cap as nat) || (driftCap.None? && minDelta == Some(cap as nat));
        Ok(Config(sources, cap, if syncEvery > 1 then syncEvery else 1))
  }

  predicate WellFormed(cfg: Config) {
    cfg.sources > 0 && cfg.driftCap >= 0 && cfg.syncEvery >= 1
  }

  // ---------------------------------------------------------------- reading progress

  /** What one poll of a run's snapshot can find. */
  datatype Reading = Missing | Corrupt | Failed | Snapshot(programsProcessed: int)

  function Progress(r: Reading): int {
    match r
    case Missing => 0
    case Corrupt => 0
    case Failed => 0
    case Snapshot(n) => n
  }

  function Min(values: seq<int>): (m: int)
    ensures values == [] ==> m == 0
    ensures values != [] ==> m in values
    ensures forall v :: v in values ==> m <= v
    decreases |values|
  {
    if |values| == 0 then 0
    else if |values| == 1 then values[0]
    else
      var rest := Min(values[1..]);
      assert forall v :: v in values ==> v == values[0] || v in values[1..];
      if values[0] <= rest then values[0] else rest
  }

  function Readings(rs: seq<Reading>): (values: seq<int>)
    ensures |values| == |rs| && forall k :: 0 <= k < |rs| ==> values[k] == Progress(rs[k])
  {
    seq(|rs|, k requires 0 <= k < |rs| => Progress(rs[k]))
  }

  /** How far `own` is ahead of the slowest opponent reading. */
  function Drift(own: int, opponents: seq<int>): int {
    own - Min(opponents)
  }

  /** The drift is within the cap exactly when no opponent reads more than the
      cap behind. */
  lemma {:induction false} DriftIsLeadOverEveryOpponent(own: int, opponents: seq<int>, cap: int)
    requires opponents != []
    ensures Drift(own, opponents) <= cap <==> forall k :: 0 <= k < |opponents| ==> own - opponents[k] <= cap
  {
    var k :| 0 <= k < |opponents| && opponents[k] == Min(opponents);
    if forall k :: 0 <= k < |opponents| ==> own - opponents[k] <= cap {
      assert own - opponents[k] <= cap;
    }
    if Drift(own, opponents) <= cap {
      forall k | 0 <= k < |opponents| ensures own - opponents[k] <= cap {
        assert opponents[k] in opponents;
      }
    }
  }

  // ---------------------------------------------------------------- one call

  /** One turn of the polling loop: the readings it takes and the time since
      the call began. */
  datatype Poll = Poll(own: Reading, opponents: seq<Reading>, elapsed: real)

  datatype Kind = Skip | Baseline | Check

  datatype Outcome = Skipped | Baselined | WithinCap(polls: nat) | TimedOut(polls: nat) | StillWaiting

  datatype Counters = Counters(calls: nat, first: bool)

  /** What a call with these counters does, and the counters it leaves. */
  function OnCall(syncEvery: int, h: Counters): (Kind, Counters) {
    if h.calls + 1 < syncEvery then (Skip, h.(calls := h.calls + 1))
    else if h.first then (Baseline, Counters(0, false))
    else (Check, h.(calls := 0))
  }

  /** `own` leads what is read by at most the cap; nothing readable is zero. */
  ghost predicate LeadsByAtMost(own: int, r: Reading, cap: int) {
    if r.Snapshot? then own - r.programsProcessed <= cap else own <= cap
  }

  /** The poll reads no opponent more than the cap behind. */
  ghost predicate Passes(cap: int, p: Poll) {
    var own := if p.own.Snapshot? then p.own.programsProcessed else 0;
    if p.opponents == [] then own <= cap
    else forall j :: 0 <= j < |p.opponents| ==> LeadsByAtMost(own, p.opponents[j], cap)
  }

  lemma {:induction false} PassesIff(cap: int, p: Poll)
    ensures Passes(cap, p) <==> Drift(Progress(p.own), Readings(p.opponents)) <= cap
  {
    var own, values := Progress(p.own), Readings(p.opponents);
    if p.opponents != [] {
      DriftIsLeadOverEveryOpponent(own, values, cap);
      assert forall j :: 0 <= j < |values| ==> (own - values[j] <= cap <==> LeadsByAtMost(own, p.opponents[j], cap));
    }
  }

  ghost predicate Sleeps(cap: int, timeout: real, p: Poll) {
    !Passes(cap, p) && p.elapsed <= timeout
  }

  /** A check ends at the first poll within the cap, or at the first one over
      the cap and past the timeout, and sleeps before that. */
  ghost predicate CheckEnds(cap: int, timeout: real, polls: seq<Poll>, outcome: Outcome) {
    match outcome
    case WithinCap(n) => n < |polls| && Passes(cap, polls[n]) && forall k :: 0 <= k < n ==> Sleeps(cap, timeout, polls[k])
    case TimedOut(n) =>
      && n < |polls| && !Passes(cap, polls[n]) && polls[n].elapsed > timeout
      && forall k :: 0 <= k < n ==> Sleeps(cap, timeout, polls[k])
    case StillWaiting => forall k :: 0 <= k < |polls| ==> Sleeps(cap, timeout, polls[k])
    case _ => false
  }

  function CallMany(syncEvery: int, h: Counters, n: nat): Counters {
    if n == 0 then h else OnCall(syncEvery, CallMany(syncEvery, h, n - 1)).1
  }

  /** Of any `syncEvery` calls in a row exactly the last one reaches the drift
      check: the others are skipped, and the counters come back to the start. */
  lemma {:induction false} OneCheckPerPeriod(syncEvery: int, first: bool, n: nat)
    requires 1 <= syncEvery
    requires n < syncEvery
    ensures CallMany(syncEvery, Counters(0, first), n) == Counters(n, first)
    ensures OnCall(syncEvery, Counters(n, first)).0 == (if n + 1 < syncEvery then Skip else if first then Baseline else Check)
    ensures n + 1 == syncEvery ==> CallMany(syncEvery, Counters(0, first), n + 1) == Counters(0, false)
  {
    if n > 0 {
      OneCheckPerPeriod(syncEvery, first, n - 1);
    }
  }

  class ProgressBasedSyncHook {
    const driftCap: int
    const syncEvery: int
    const timeout: real
    var epochCallCount: nat
    var firstCall: bool

    constructor (cfg: Config, timeout: real)
      requires WellFormed(cfg)
      ensures driftCap == cfg.driftCap && syncEvery == cfg.syncEvery && this.timeout == timeout
      ensures State() == Counters(0, true)
    {
      driftCap, syncEvery, this.timeout := cfg.driftCap, cfg.syncEvery, timeout;
      epochCallCount, firstCall := 0, true;
    }

    function State(): Counters
      reads this
    {
      Counters(epochCallCount, firstCall)
    }

    /** The call, against the polls the environment will answer; `StillWaiting`
        is a call that has used them up and has not returned. */
    method Call(polls: seq<Poll>) returns (outcome: Outcome)
      modifies this
      ensures State() == OnCall(syncEvery, old(State())).1
      ensures OnCall(syncEvery, old(State())).0 == Skip <==> outcome == Skipped
      ensures OnCall(syncEvery, old(State())).0 == Baseline <==> outcome == Baselined
      ensures OnCall(syncEvery, old(State())).0 == Check <==> CheckEnds(driftCap, timeout, polls, outcome)
    {
      epochCallCount := epochCallCount + 1;
      if epochCallCount < syncEvery {
        return Skipped;
      }
      epochCallCount := 0;
      if firstCall {
        firstCall := false;
        return Baselined;
      }
      var i := 0;
      while i < |polls|
        invariant 0 <= i <= |polls| && epochCallCount == 0 && !firstCall
        invariant forall k :: 0 <= k < i ==> Sleeps(driftCap, timeout, polls[k])
      {
        PassesIff(driftCap, polls[i]);
        var own := Progress(polls[i].own);
        var opponents := Min(Readings(polls[i].opponents));
        if own - opponents <= driftCap {
          return WithinCap(i);
        }
        if polls[i].elapsed > timeout {
          return TimedOut(i);
        }
        i := i + 1;
      }
      return StillWaiting;
    }
  }
}
