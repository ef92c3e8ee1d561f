/** The pipeline stage that turns one evaluation into tracker entries
    (gigaevo/adversarial/dg_tracker_stage.py). */
module DGTrackerStages {
  import opened Wrappers
  import opened DGTrackers
  import opened DGImprovementTrackers

  datatype Role = Constructor | Improver

  function RoleName(role: Role): string { if role == Constructor then "constructor" else "improver" }

  /** A delta as an artifact carries it: absent, not a number, or measured. */
  datatype Measure = Absent | NaN | Number(value: real)

  datatype Record = Record(delta: Measure, rest: Metrics)

  datatype Artifact = Artifact(role: Option<string>, perOppDelta: seq<Measure>, perOppMetrics: Option<seq<Record>>)

  /** The validator's result: not a pair at all, or a pair whose artifact may
      not be a dict. */
  datatype Payload = BadShape | Pair(artifact: Option<Artifact>)

  /** The deltas of a bare list get a record with the validity flag set. */
  function Synthesised(delta: Measure): Record { Record(delta, map["is_valid" := 1.0]) }

  /** The records that drive the loop: the full metrics when the artifact has
      them, else the bare deltas. */
  function Driving(artifact: Option<Artifact>): seq<Record> {
    if artifact.None? then []
    else if artifact.value.perOppMetrics.Some? then artifact.value.perOppMetrics.value
    else seq(|artifact.value.perOppDelta|, i requires 0 <= i < |artifact.value.perOppDelta| => Synthesised(artifact.value.perOppDelta[i]))
  }

  predicate RoleClash(role: Role, artifact: Option<Artifact>) {
    artifact.Some? && artifact.value.role.Some? && artifact.value.role.value != RoleName(role)
  }

  predicate Accepts(role: Role, opponents: seq<string>, payload: Payload) {
    payload.Pair? && !RoleClash(role, payload.artifact) && |Driving(payload.artifact)| == |opponents|
  }

  /** D improves, G constructs: the program is the D of the pair in a D run and
      the G of it in a G run. */
  function EntryFor(role: Role, program: string, opponent: string, r: Record): (e: Entry)
    requires r.delta.Number?
  {
    var metrics := r.rest[DELTA := r.delta.value];
    if role == Improver then Entry(program, opponent, metrics) else Entry(opponent, program, metrics)
  }

  function Entries(role: Role, program: string, opponents: seq<string>, records: seq<Record>): Batch
    requires |opponents| == |records|
    decreases |records|
  {
    if records == [] then [] else
      var n := |records| - 1;
      var before := Entries(role, program, opponents[..n], records[..n]);
      if records[n].delta.Number? then before + [EntryFor(role, program, opponents[n], records[n])] else before
  }

  ghost predicate Measured(opponents: seq<string>, records: seq<Record>, i: int)
    requires |opponents| == |records|
  {
    0 <= i < |records| && records[i].delta.Number?
  }

  /** The entries are exactly the measured opponents, each on its own side of
      the pair; those without a measurement leave no trace. */
  lemma {:induction false} EntriesAre(role: Role, program: string, opponents: seq<string>, records: seq<Record>, e: Entry)
    requires |opponents| == |records|
    ensures WellFormed(Entries(role, program, opponents, records))
    ensures e in Entries(role, program, opponents, records)
            <==> exists i :: Measured(opponents, records, i) && e == EntryFor(role, program, opponents[i], records[i])
    decreases |records|
  {
    if records != [] {
      var n := |records| - 1;
      EntriesAre(role, program, opponents[..n], records[..n], e);
      assert forall i :: Measured(opponents[..n], records[..n], i) <==> Measured(opponents, records, i) && i < n;
    }
  }

  /** No opponent is measured twice. */
  ghost predicate MeasuredOnce(opponents: seq<string>, records: seq<Record>)
    requires |opponents| == |records|
  {
    forall i, j :: Measured(opponents, records, i) && Measured(opponents, records, j) && i != j ==> opponents[i] != opponents[j]
  }

  ghost predicate SamePair(a: Entry, b: Entry) { About(a, b.d, b.g) }

  lemma {:induction false} PairIsItsOpponent(role: Role, program: string, a: string, b: string, r: Record, s: Record)
    requires r.delta.Number? && s.delta.Number?
    ensures SamePair(EntryFor(role, program, a, r), EntryFor(role, program, b, s)) <==> a == b
  {
  }

  lemma {:induction false} AppendedPairs(batch: Batch, e: Entry)
    ensures DistinctPairs(batch + [e]) <==> DistinctPairs(batch) && forall x :: x in batch ==> !SamePair(x, e)
  {
    var all := batch + [e];
    if DistinctPairs(all) {
      forall x | x in batch ensures !SamePair(x, e) {
        var i :| 0 <= i < |batch| && batch[i] == x;
        assert all[i] == x && all[|batch|] == e;
      }
      forall i, j | 0 <= i < j < |batch| ensures !About(batch[i], batch[j].d, batch[j].g) {
        assert all[i] == batch[i] && all[j] == batch[j];
      }
    } else {
      var i, j :| 0 <= i < j < |all| && About(all[i], all[j].d, all[j].g);
      assert all[i] == batch[i] && batch[i] in batch;
      if j < |batch| {
        assert all[j] == batch[j];
      }
    }
  }

  /** The batch repeats no pair, which is what keeps the tracker's indices in
      agreement, exactly when no opponent is measured twice. */
  lemma {:induction false} BatchIsDistinctIff(role: Role, program: string, opponents: seq<string>, records: seq<Record>)
    requires |opponents| == |records|
    ensures DistinctPairs(Entries(role, program, opponents, records)) <==> MeasuredOnce(opponents, records)
    decreases |records|
  {
    if records != [] {
      var n := |records| - 1;
      var before := Entries(role, program, opponents[..n], records[..n]);
      BatchIsDistinctIff(role, program, opponents[..n], records[..n]);
      OnceByLast(opponents, records);
      if records[n].delta.Number? {
        var e := EntryFor(role, program, opponents[n], records[n]);
        AppendedPairs(before, e);
        LastIsNew(role, program, opponents, records);
      }
    }
  }

  ghost predicate LastUnmeasuredBefore(opponents: seq<string>, records: seq<Record>)
    requires |opponents| == |records| > 0
  {
    forall i :: 0 <= i < |records| - 1 && Measured(opponents, records, i) ==> opponents[i] != opponents[|records| - 1]
  }

  lemma {:induction false} OnceByLast(opponents: seq<string>, records: seq<Record>)
    requires |opponents| == |records| > 0
    ensures var n := |records| - 1;
            MeasuredOnce(opponents, records)
            <==> MeasuredOnce(opponents[..n], records[..n]) && (records[n].delta.Number? ==> LastUnmeasuredBefore(opponents, records))
  {
    var n := |records| - 1;
    assert forall i :: Measured(opponents[..n], records[..n], i) <==> Measured(opponents, records, i) && i < n;
    if MeasuredOnce(opponents, records) && records[n].delta.Number? {
      assert Measured(opponents, records, n);
    }
  }

  lemma {:induction false} LastIsNew(role: Role, program: string, opponents: seq<string>, records: seq<Record>)
    requires |opponents| == |records| > 0 && records[|records| - 1].delta.Number?
    ensures var n := |records| - 1;
            (forall x :: x in Entries(role, program, opponents[..n], records[..n])
               ==> !SamePair(x, EntryFor(role, program, opponents[n], records[n])))
            <==> LastUnmeasuredBefore(opponents, records)
  {
    var n := |records| - 1;
    var before := Entries(role, program, opponents[..n], records[..n]);
    var e := EntryFor(role, program, opponents[n], records[n]);
    if forall x :: x in before ==> !SamePair(x, e) {
      forall i | 0 <= i < n && Measured(opponents, records, i) ensures opponents[i] != opponents[n] {
        var x := EntryFor(role, program, opponents[i], records[i]);
        EntriesAre(role, program, opponents[..n], records[..n], x);
        assert Measured(opponents[..n], records[..n], i);
        PairIsItsOpponent(role, program, opponents[i], opponents[n], records[i], records[n]);
      }
    }
    if LastUnmeasuredBefore(opponents, records) {
      forall x | x in before ensures !SamePair(x, e) {
        EntriesAre(role, program, opponents[..n], records[..n], x);
        var i :| Measured(opponents[..n], records[..n], i) && x == EntryFor(role, program, opponents[..n][i], records[..n][i]);
        assert Measured(opponents, records, i);
        PairIsItsOpponent(role, program, opponents[i], opponents[n], records[i], records[n]);
      }
    }
  }

  function StageResult(t: Tables, role: Role, program: string, opponents: seq<string>, payload: Payload): Tables {
    if Accepts(role, opponents, payload) then
      var batch := Entries(role, program, opponents, Driving(payload.artifact));
      EntriesAre(role, program, opponents, Driving(payload.artifact), Entry("", "", map[]));
      Recorded(t, batch)
    else t
  }

  /** What the tracker knows of a pair afterwards: raised by the largest measured
      positive delta when the evaluation is accepted, and untouched when it is not. */
  lemma {:induction false} StageRecordsPair(t: Tables, role: Role, program: string, opponents: seq<string>, payload: Payload, d: string, g: string)
    ensures !Accepts(role, opponents, payload) ==> StageResult(t, role, program, opponents, payload) == t
    ensures Accepts(role, opponents, payload) ==>
              var batch := Entries(role, program, opponents, Driving(payload.artifact));
              WellFormed(batch) && StageResult(t, role, program, opponents, payload).Score(d, g) == Higher(t.Score(d, g), MaxPositive(batch, d, g))
    ensures program != (if role == Improver then d else g) ==>
              StageResult(t, role, program, opponents, payload).Score(d, g) == t.Score(d, g)
  {
    if Accepts(role, opponents, payload) {
      var records := Driving(payload.artifact);
      var batch := Entries(role, program, opponents, records);
      EntriesAre(role, program, opponents, records, Entry("", "", map[]));
      RecordedPair(t, batch, d, g);
      MaxPositiveIs(batch, d, g);
      if program != (if role == Improver then d else g) && MaxPositive(batch, d, g).Some? {
        var e :| e in batch && About(e, d, g);
        EntriesAre(role, program, opponents, records, e);
        assert false;
      }
    }
  }

  function PairOf(role: Role, program: string, opponent: string): (string, string) {
    if role == Improver then (program, opponent) else (opponent, program)
  }

  /** In a batch that measures no opponent twice, a meeting is the only thing the
      batch says about its pair. */
  lemma {:induction false} OneMeeting(role: Role, program: string, opponents: seq<string>, records: seq<Record>, i: nat)
    requires |opponents| == |records| && MeasuredOnce(opponents, records) && Measured(opponents, records, i)
    ensures var batch, x := Entries(role, program, opponents, records), records[i].delta.value;
            var (d, g) := PairOf(role, program, opponents[i]);
            && WellFormed(batch)
            && MaxPositive(batch, d, g) == (if x > 0.0 then Some(x) else None)
            && (Resists(batch, d, g) <==> x <= 0.0)
  {
    var batch := Entries(role, program, opponents, records);
    var (d, g) := PairOf(role, program, opponents[i]);
    var mine := EntryFor(role, program, opponents[i], records[i]);
    EntriesAre(role, program, opponents, records, mine);
    MaxPositiveIs(batch, d, g);
    forall e | e in batch && About(e, d, g) ensures e == mine {
      EntriesAre(role, program, opponents, records, e);
      var j :| Measured(opponents, records, j) && e == EntryFor(role, program, opponents[j], records[j]);
      PairIsItsOpponent(role, program, opponents[j], opponents[i], records[j], records[i]);
    }
    assert mine in batch && About(mine, d, g);
  }

  ghost predicate Meets(role: Role, program: string, opponents: seq<string>, payload: Payload, i: nat, opponent: string, x: real) {
    && Accepts(role, opponents, payload) && MeasuredOnce(opponents, Driving(payload.artifact))
    && Measured(opponents, Driving(payload.artifact), i)
    && opponents[i] == opponent && Driving(payload.artifact)[i].delta.value == x
  }

  lemma {:induction false} MeetingRecorded(t: Tables, role: Role, program: string, opponents: seq<string>, payload: Payload, i: nat, opponent: string, x: real)
    requires Meets(role, program, opponents, payload, i, opponent, x)
    ensures var t' := StageResult(t, role, program, opponents, payload);
            var (d, g) := PairOf(role, program, opponent);
            && t'.Score(d, g) == (if x > 0.0 then Higher(t.Score(d, g), Some(x)) else t.Score(d, g))
            && (g in t'.Wins(d) <==> g in t.Wins(d) || x > 0.0)
            && (d in t'.Resisted(g) <==> d in t.Resisted(g) || x <= 0.0)
  {
    var (d, g) := PairOf(role, program, opponent);
    OneMeeting(role, program, opponents, Driving(payload.artifact), i);
    RecordedPair(t, Entries(role, program, opponents, Driving(payload.artifact)), d, g);
  }

  /** A meeting of D and G leaves the same score, wins and resisted sets for the
      pair whichever of the two populations evaluated it. */
  lemma {:induction false} BothSidesRecordAlike(t: Tables, d: string, g: string, x: real, dOpponents: seq<string>, dPayload: Payload, i: nat,
                                                gOpponents: seq<string>, gPayload: Payload, j: nat)
    requires Meets(Improver, d, dOpponents, dPayload, i, g, x) && Meets(Constructor, g, gOpponents, gPayload, j, d, x)
    ensures var a, b := StageResult(t, Improver, d, dOpponents, dPayload), StageResult(t, Constructor, g, gOpponents, gPayload);
            && a.Score(d, g) == b.Score(d, g)
            && (g in a.Wins(d) <==> g in b.Wins(d))
            && (d in a.Resisted(g) <==> d in b.Resisted(g))
  {
    MeetingRecorded(t, Improver, d, dOpponents, dPayload, i, g, x);
    MeetingRecorded(t, Constructor, g, gOpponents, gPayload, j, d, x);
  }

  // ---------------------------------------------------------------- one evaluation, as the artifact has it

  /** Not a pair, the artifact of the other population, or as many records as
      there are opponents missing. */
  ghost predicate Refused(role: Role, opponents: seq<string>, payload: Payload) {
    || payload.BadShape?
    || (payload.artifact.None? && opponents != [])
    || (payload.artifact.Some?
        && var a := payload.artifact.value;
           || (a.role.Some? && a.role != Some(if role.Constructor? then "constructor" else "improver"))
           || (a.perOppMetrics.Some? && |a.perOppMetrics.value| != |opponents|)
           || (a.perOppMetrics.None? && |a.perOppDelta| != |opponents|))
  }

  /** What the artifact says about its i-th opponent: its own metrics, or a bare
      delta that counts as valid. */
  ghost predicate Says(a: Artifact, i: int, metrics: Metrics) {
    && "delta" in metrics
    && if a.perOppMetrics.Some? then
         && 0 <= i < |a.perOppMetrics.value| && a.perOppMetrics.value[i].delta == Number(metrics["delta"])
         && metrics == a.perOppMetrics.value[i].rest["delta" := metrics["delta"]]
       else 0 <= i < |a.perOppDelta| && a.perOppDelta[i] == Number(metrics["delta"])
            && metrics == map["delta" := metrics["delta"], "is_valid" := 1.0]
  }

  /** The entry is what the artifact says about an opponent, D and G in place. */
  ghost predicate SaidOf(role: Role, program: string, opponents: seq<string>, artifact: Option<Artifact>, e: Entry) {
    artifact.Some? && exists i :: 0 <= i < |opponents| && Says(artifact.value, i, e.metrics)
                                  && (if role.Improver? then e.d == program && e.g == opponents[i] else e.g == program && e.d == opponents[i])
  }

  lemma {:induction false} AcceptsIff(role: Role, opponents: seq<string>, payload: Payload)
    ensures Accepts(role, opponents, payload) <==> !Refused(role, opponents, payload)
  {
  }

  lemma {:induction false} SaysIff(role: Role, program: string, opponents: seq<string>, a: Artifact, i: nat, e: Entry)
    requires i < |Driving(Some(a))| == |opponents|
    ensures Driving(Some(a))[i].delta.Number? && e == EntryFor(role, program, opponents[i], Driving(Some(a))[i])
            <==> (Says(a, i, e.metrics)
                  && (if role.Improver? then e.d == program && e.g == opponents[i] else e.g == program && e.d == opponents[i]))
  {
  }

  lemma {:induction false} EntriesSay(role: Role, program: string, opponents: seq<string>, payload: Payload, e: Entry)
    requires Accepts(role, opponents, payload)
    ensures e in Entries(role, program, opponents, Driving(payload.artifact)) <==> SaidOf(role, program, opponents, payload.artifact, e)
  {
    var records := Driving(payload.artifact);
    EntriesAre(role, program, opponents, records, e);
    if payload.artifact.Some? {
      forall i: nat | i < |opponents|
        ensures Measured(opponents, records, i) && e == EntryFor(role, program, opponents[i], records[i])
                <==> (Says(payload.artifact.value, i, e.metrics)
                      && (if role.Improver? then e.d == program && e.g == opponents[i] else e.g == program && e.d == opponents[i]))
      {
        SaysIff(role, program, opponents, payload.artifact.value, i, e);
      }
    }
  }

  /** An evaluation that is refused leaves the tables as they are; from any other
      exactly the entries it says are recorded. */
  lemma {:induction false} StageIs(t: Tables, role: Role, program: string, opponents: seq<string>, payload: Payload)
    ensures Refused(role, opponents, payload) ==> StageResult(t, role, program, opponents, payload) == t
    ensures !Refused(role, opponents, payload) ==>
              exists batch :: WellFormed(batch) && StageResult(t, role, program, opponents, payload) == Recorded(t, batch)
                && forall e :: e in batch <==> SaidOf(role, program, opponents, payload.artifact, e)
  {
    AcceptsIff(role, opponents, payload);
    if Accepts(role, opponents, payload) {
      var batch := Entries(role, program, opponents, Driving(payload.artifact));
      forall e ensures e in batch <==> SaidOf(role, program, opponents, payload.artifact, e) {
        EntriesSay(role, program, opponents, payload, e);
      }
      EntriesAre(role, program, opponents, Driving(payload.artifact), Entry("", "", map[]));
    }
  }

  // ---------------------------------------------------------------- runs of evaluations

  datatype Evaluation = Evaluation(role: Role, program: string, opponents: seq<string>, payload: Payload)

  function BatchOf(e: Evaluation): (batch: Batch)
    ensures WellFormed(batch)
  {
    if Accepts(e.role, e.opponents, e.payload) then
      EntriesAre(e.role, e.program, e.opponents, Driving(e.payload.artifact), Entry("", "", map[]));
      Entries(e.role, e.program, e.opponents, Driving(e.payload.artifact))
    else []
  }

  function BatchesOf(evaluations: seq<Evaluation>): (batches: seq<Batch>)
    ensures forall b :: b in batches ==> WellFormed(b)
    ensures forall b :: b in batches ==> exists e :: e in evaluations && b == BatchOf(e)
    decreases |evaluations|
  {
    if evaluations == [] then [] else
      var last := evaluations[|evaluations| - 1];
      assert last in evaluations;
      BatchesOf(evaluations[..|evaluations| - 1]) + [BatchOf(last)]
  }

  function StageRun(evaluations: seq<Evaluation>): Tables
    decreases |evaluations|
  {
    if evaluations == [] then EMPTY_TABLES else
      var e := evaluations[|evaluations| - 1];
      StageResult(StageRun(evaluations[..|evaluations| - 1]), e.role, e.program, e.opponents, e.payload)
  }

  lemma {:induction false} StageRunIsRun(evaluations: seq<Evaluation>)
    ensures StageRun(evaluations) == Run(EMPTY_TABLES, BatchesOf(evaluations))
    decreases |evaluations|
  {
    if evaluations != [] {
      var before := evaluations[..|evaluations| - 1];
      var e := evaluations[|evaluations| - 1];
      var batches := BatchesOf(before) + [BatchOf(e)];
      StageRunIsRun(before);
      assert batches[..|batches| - 1] == BatchesOf(before);
      RecordedNothing(StageRun(before));
    }
  }

  /** No opponent measured twice, and no bar in the ids that name a D. */
  ghost predicate Proper(e: Evaluation) {
    Accepts(e.role, e.opponents, e.payload) ==>
      && MeasuredOnce(e.opponents, Driving(e.payload.artifact))
      && (if e.role == Improver then '|' !in e.program else forall o :: o in e.opponents ==> '|' !in o)
  }

  lemma {:induction false} ProperIsClean(e: Evaluation)
    requires Proper(e)
    ensures Clean(BatchOf(e))
  {
    if Accepts(e.role, e.opponents, e.payload) {
      var records := Driving(e.payload.artifact);
      BatchIsDistinctIff(e.role, e.program, e.opponents, records);
      forall x | x in BatchOf(e) ensures '|' !in x.d {
        EntriesAre(e.role, e.program, e.opponents, records, x);
        var i :| Measured(e.opponents, records, i) && x == EntryFor(e.role, e.program, e.opponents[i], records[i]);
        assert e.opponents[i] in e.opponents;
      }
    }
  }

  /** From the evaluations of both populations, accepted or not, in any order, to
      the tracker: its indices agree after every run of proper ones. */
  lemma {:induction false} EvaluationsKeepIndicesInStep(evaluations: seq<Evaluation>)
    requires forall e :: e in evaluations ==> Proper(e)
    ensures PairsAgree(StageRun(evaluations))
  {
    StageRunIsRun(evaluations);
    forall b | b in BatchesOf(evaluations) ensures Clean(b) {
      var e :| e in evaluations && b == BatchOf(e);
      ProperIsClean(e);
    }
    CleanRunsAgree(BatchesOf(evaluations));
  }

  // ---------------------------------------------------------------- the stage object

  class DGTrackerStage {
    const tracker: DGImprovementTracker
    const role: Role

    constructor (tracker: DGImprovementTracker, role: Role)
      ensures this.tracker == tracker && this.role == role
    {
      this.tracker, this.role := tracker, role;
    }

    method Compute(program: string, opponents: seq<string>, payload: Payload)
      modifies tracker
      ensures tracker.tables == StageResult(old(tracker.tables), role, program, opponents, payload)
      ensures Refused(role, opponents, payload) ==> tracker.tables == old(tracker.tables)
      ensures !Refused(role, opponents, payload) ==>
                exists batch :: WellFormed(batch) && tracker.tables == Recorded(old(tracker.tables), batch)
                  && forall e :: e in batch <==> SaidOf(role, program, opponents, payload.artifact, e)
    {
      StageIs(tracker.tables, role, program, opponents, payload);
      if payload.BadShape? || RoleClash(role, payload.artifact) {
        return;
      }
      var records := Driving(payload.artifact);
      if |records| != |opponents| {
        return;
      }
      var pairs: Batch := [];
      var i := 0;
      while i < |opponents|
        invariant 0 <= i <= |opponents|
        invariant pairs == Entries(role, program, opponents[..i], records[..i])
      {
        assert opponents[..i + 1][..i] == opponents[..i] && records[..i + 1][..i] == records[..i];
        var r := records[i];
        if r.delta.Number? {
          var metrics := r.rest[DELTA := r.delta.value];
          if role == Improver {
            pairs := pairs + [Entry(program, opponents[i], metrics)];
          } else {
            pairs := pairs + [Entry(opponents[i], program, metrics)];
          }
        }
        i := i + 1;
      }
      assert opponents[..i] == opponents && records[..i] == records;
      EntriesAre(role, program, opponents, records, Entry("", "", map[]));
      if |pairs| > 0 {
        var recorded := tracker.RecordBatch(pairs);
      } else {
        RecordedNothing(tracker.tables);
      }
    }
  }
}
