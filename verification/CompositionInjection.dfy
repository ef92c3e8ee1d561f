/** Feeding D's improvements back to G: for every G program the best D on record
    is composed with it, once per pair
    (gigaevo/adversarial/composition_injection.py). */
module CompositionInjections {
  import opened Wrappers
  import opened Ordering
  import opened ProgramStates
  import opened Programs
  import opened Redis
  import opened RedisProgramStorages
  import opened DGTrackers
  import opened DGImprovementTrackers
  import OpponentProviders

  type Opponent = OpponentProviders.Opponent

  /** What a call finds outside G's store and the tracker: the D programs that
      can still be fetched, the code composition (which may fail), how numbers
      are rendered, and the clock. */
  datatype Env = Env(archive: map<string, Opponent>, compose: (string, string) -> Option<string>, render: real -> Value, now: int)

  datatype Verdict = NoD | Dedup | MissingD | ComposeError | Injected(d: string, g: Id, child: Program)

  /** A child of one parent, one generation on. D is named only in the metadata:
      it lives in another database. */
  function Composed(env: Env, g: Program, d: Opponent, delta: real, code: string, id: Id): Program {
    Program(id, code, None, map[], map[],
            map["mutation_type" := "d_improvement", "d_source_id" := d.programId, "g_source_id" := g.id.text,
                "d_fitness" := env.render(d.fitness), "tracked_delta" := env.render(delta)],
            g.iteration, Queued, Lineage([g.id], [], Some("d_improvement"), g.lineage.generation + 1), env.now, 0)
  }

  ghost function BestD(t: Tables, g: Id): Option<(string, real)> {
    var z := ZAt(t.improvements, g.text);
    if z == map[] then None else Some((TopMember(z), z[TopMember(z)]))
  }

  /** What happens to one G program. */
  ghost function Judge(env: Env, t: Tables, g: Program, id: Id): Verdict {
    match BestD(t, g.id)
    case None => NoD
    case Some((d, delta)) =>
      if Member(d, g.id.text) in t.injected then Dedup
      else if d !in env.archive then MissingD
      else match env.compose(g.code, env.archive[d].code)
           case None => ComposeError
           case Some(code) => Injected(d, g.id, Composed(env, g, env.archive[d], delta, code, id))
  }

  /** D improved this G by most, and has the greatest name of those that did. */
  ghost predicate BestFor(t: Tables, d: string, g: string) {
    && t.Score(d, g).Some?
    && forall d' :: t.Score(d', g).Some? ==>
         t.Score(d', g).value < t.Score(d, g).value || (t.Score(d', g) == t.Score(d, g) && AtMost(d', d))
  }

  /** The child of G made with this D: queued and not yet measured, with the
      composed code and both sources on record. */
  ghost predicate ChildOf(env: Env, g: Program, d: Opponent, delta: real, child: Program) {
    && env.compose(g.code, d.code) == Some(child.code)
    && child.state == Queued && child.atomicCounter == 0 && child.iteration == g.iteration && child.createdAt == env.now
    && child.name == None && child.stageResults == map[] && child.metrics == map[]
    && child.lineage.parents == [g.id] && child.lineage.children == []
    && child.lineage.mutation == Some("d_improvement") && child.lineage.generation == g.lineage.generation + 1
    && child.metadata == map["mutation_type" := "d_improvement", "d_source_id" := d.programId, "g_source_id" := g.id.text,
                             "d_fitness" := env.render(d.fitness), "tracked_delta" := env.render(delta)]
  }

  /** The best D of the program, if the pair was not composed before. */
  ghost predicate NewBest(t: Tables, d: string, g: string) { BestFor(t, d, g) && Member(d, g) !in t.injected }

  /** When each outcome happens, and what an injection injects. */
  ghost predicate VerdictIs(env: Env, t: Tables, g: Program, id: Id, v: Verdict) {
    match v
    case NoD => forall d :: t.Score(d, g.id.text).None?
    case Dedup => exists d :: BestFor(t, d, g.id.text) && Member(d, g.id.text) in t.injected
    case MissingD => exists d :: NewBest(t, d, g.id.text) && d !in env.archive
    case ComposeError => exists d :: NewBest(t, d, g.id.text) && d in env.archive && env.compose(g.code, env.archive[d].code) == None
    case Injected(d, of, child) =>
      && NewBest(t, d, g.id.text) && d in env.archive && of == g.id && child.id == id
      && ChildOf(env, g, env.archive[d], t.Score(d, g.id.text).value, child)
  }

  lemma {:induction false} BestDIs(t: Tables, g: Id)
    ensures BestD(t, g).None? ==> forall d :: t.Score(d, g.text).None?
    ensures BestD(t, g).Some? ==> BestFor(t, BestD(t, g).value.0, g.text) && t.Score(BestD(t, g).value.0, g.text) == Some(BestD(t, g).value.1)
  {
    var z := ZAt(t.improvements, g.text);
    if z != map[] {
      var d := TopMember(z);
      forall d' | t.Score(d', g.text).Some?
        ensures t.Score(d', g.text).value < t.Score(d, g.text).value || (t.Score(d', g.text) == t.Score(d, g.text) && AtMost(d', d))
      {
        assert d' in z && Ahead(z, d, d');
      }
    }
  }

  lemma {:induction false} JudgeIs(env: Env, t: Tables, g: Program, id: Id)
    ensures VerdictIs(env, t, g, id, Judge(env, t, g, id))
  {
    BestDIs(t, g.id);
  }

  function Marked(t: Tables, v: Verdict): Tables {
    if v.Injected? then t.(injected := t.injected + {Member(v.d, v.g.text)}) else t
  }

  function Stored(db: Db, v: Verdict): Db { if v.Injected? then AddDb(db, v.child) else db }

  /** A pass over the G programs, in order. */
  ghost function Verdicts(env: Env, t: Tables, gs: seq<Program>, ids: seq<Id>): seq<Verdict>
    requires |ids| == |gs|
    decreases |gs|
  {
    if gs == [] then [] else
      var n := |gs| - 1;
      var before := Verdicts(env, t, gs[..n], ids[..n]);
      before + [Judge(env, MarkedAll(t, before), gs[n], ids[n])]
  }

  function MarkedAll(t: Tables, vs: seq<Verdict>): Tables
    decreases |vs|
  {
    if vs == [] then t else Marked(MarkedAll(t, vs[..|vs| - 1]), vs[|vs| - 1])
  }

  function StoredAll(db: Db, vs: seq<Verdict>): Db
    decreases |vs|
  {
    if vs == [] then db else Stored(StoredAll(db, vs[..|vs| - 1]), vs[|vs| - 1])
  }

  function Injections(vs: seq<Verdict>): (injected: seq<Verdict>)
    ensures forall v :: v in injected <==> v in vs && v.Injected?
    decreases |vs|
  {
    if vs == [] then [] else
      assert forall v :: v in vs <==> v in vs[..|vs| - 1] || v == vs[|vs| - 1];
      Injections(vs[..|vs| - 1]) + if vs[|vs| - 1].Injected? then [vs[|vs| - 1]] else []
  }

  function Count(vs: seq<Verdict>, kind: Verdict -> bool): nat
    decreases |vs|
  {
    if vs == [] then 0 else Count(vs[..|vs| - 1], kind) + if kind(vs[|vs| - 1]) then 1 else 0
  }

  function IsNoD(): Verdict -> bool { (v: Verdict) => v.NoD? }
  function IsDedup(): Verdict -> bool { (v: Verdict) => v.Dedup? }
  function IsMissingD(): Verdict -> bool { (v: Verdict) => v.MissingD? }
  function IsComposeError(): Verdict -> bool { (v: Verdict) => v.ComposeError? }

  /** Every G program is accounted for by exactly one of the five outcomes. */
  lemma {:induction false} CountsAddUp(vs: seq<Verdict>)
    ensures |Injections(vs)| + Count(vs, IsNoD()) + Count(vs, IsDedup()) + Count(vs, IsMissingD()) + Count(vs, IsComposeError()) == |vs|
    decreases |vs|
  {
    if vs != [] {
      CountsAddUp(vs[..|vs| - 1]);
    }
  }

  lemma {:induction false} VerdictsSplit(env: Env, t: Tables, gs: seq<Program>, ids: seq<Id>)
    requires |ids| == |gs| > 0
    ensures var n := |gs| - 1;
            var vs, before := Verdicts(env, t, gs, ids), Verdicts(env, t, gs[..n], ids[..n]);
            |vs| == |before| + 1 && vs[..|vs| - 1] == before && vs[|vs| - 1] == Judge(env, MarkedAll(t, before), gs[n], ids[n])
  {
    var n := |gs| - 1;
    var before := Verdicts(env, t, gs[..n], ids[..n]);
    var v := Judge(env, MarkedAll(t, before), gs[n], ids[n]);
    assert (before + [v])[..|before|] == before;
  }

  /** With a bar in a D id two different pairs share a name. */
  lemma {:induction false} BarsConfusePairs(a: string, b: string, c: string)
    ensures Member(Member(a, b), c) == Member(a, Member(b, c))
    ensures Member(a, b) != a
  {
    assert Member(Member(a, b), c) == a + "|" + b + "|" + c;
    assert |Member(a, b)| > |a|;
  }

  /** Each program of a pass is judged by the tables its predecessors left. */
  ghost predicate VerdictsAre(env: Env, t: Tables, gs: seq<Program>, ids: seq<Id>, vs: seq<Verdict>) {
    |vs| == |gs| == |ids| && forall i :: 0 <= i < |gs| ==> VerdictIs(env, MarkedAll(t, vs[..i]), gs[i], ids[i], vs[i])
  }

  lemma {:induction false} VerdictsAreSo(env: Env, t: Tables, gs: seq<Program>, ids: seq<Id>)
    requires |ids| == |gs|
    ensures VerdictsAre(env, t, gs, ids, Verdicts(env, t, gs, ids))
    decreases |gs|
  {
    if gs != [] {
      var n := |gs| - 1;
      var vs, before := Verdicts(env, t, gs, ids), Verdicts(env, t, gs[..n], ids[..n]);
      VerdictsAreSo(env, t, gs[..n], ids[..n]);
      VerdictsSplit(env, t, gs, ids);
      JudgeIs(env, MarkedAll(t, before), gs[n], ids[n]);
      forall i | 0 <= i < n ensures VerdictIs(env, MarkedAll(t, vs[..i]), gs[i], ids[i], vs[i]) {
        assert vs[..i] == before[..i] && vs[i] == before[i] && gs[..n][i] == gs[i] && ids[..n][i] == ids[i];
      }
    }
  }

  lemma {:induction false} StoringKeepsIndex(db: Db, vs: seq<Verdict>)
    requires IndexInv(db)
    ensures IndexInv(StoredAll(db, vs))
    decreases |vs|
  {
    if vs != [] {
      StoringKeepsIndex(db, vs[..|vs| - 1]);
      var v := vs[|vs| - 1];
      if v.Injected? {
        AddKeepsIndex(StoredAll(db, vs[..|vs| - 1]), v.child);
      }
    }
  }

  // ---------------------------------------------------------------- the hook

  datatype Report = Report(injectedIds: seq<Id>, noD: nat, dedup: nat, missing: nat, composeErrors: nat)

  function IdsOfInjected(vs: seq<Verdict>): seq<Id>
    decreases |vs|
  {
    if vs == [] then [] else
      IdsOfInjected(vs[..|vs| - 1]) + if vs[|vs| - 1].Injected? then [vs[|vs| - 1].child.id] else []
  }

  function ReportOf(vs: seq<Verdict>): Report {
    Report(IdsOfInjected(vs), Count(vs, IsNoD()), Count(vs, IsDedup()), Count(vs, IsMissingD()), Count(vs, IsComposeError()))
  }

  /** One more program counted. */
  function Tally(report: Report, v: Verdict): Report {
    match v
    case NoD => report.(noD := report.noD + 1)
    case Dedup => report.(dedup := report.dedup + 1)
    case MissingD => report.(missing := report.missing + 1)
    case ComposeError => report.(composeErrors := report.composeErrors + 1)
    case Injected(_, _, child) => report.(injectedIds := report.injectedIds + [child.id])
  }

  /** The pass over one more program. */
  lemma {:induction false} NextVerdict(env: Env, t: Tables, db: Db, gs: seq<Program>, ids: seq<Id>, i: nat, vs: seq<Verdict>)
    requires |ids| == |gs| && i < |gs| && vs == Verdicts(env, t, gs[..i], ids[..i])
    ensures var v := Judge(env, MarkedAll(t, vs), gs[i], ids[i]);
            && vs + [v] == Verdicts(env, t, gs[..i + 1], ids[..i + 1])
            && ReportOf(vs + [v]) == Tally(ReportOf(vs), v)
            && MarkedAll(t, vs + [v]) == Marked(MarkedAll(t, vs), v)
            && StoredAll(db, vs + [v]) == Stored(StoredAll(db, vs), v)
  {
    var v := Judge(env, MarkedAll(t, vs), gs[i], ids[i]);
    assert gs[..i + 1][..i] == gs[..i] && ids[..i + 1][..i] == ids[..i];
    assert (vs + [v])[..|vs|] == vs;
  }

  lemma {:induction false} IdsCount(vs: seq<Verdict>)
    ensures |IdsOfInjected(vs)| == |Injections(vs)|
    decreases |vs|
  {
    if vs != [] {
      IdsCount(vs[..|vs| - 1]);
    }
  }

  class CompositionInjectionHook {
    const storage: RedisProgramStorage
    const tracker: DGImprovementTracker

    constructor (storage: RedisProgramStorage, tracker: DGImprovementTracker)
      ensures this.storage == storage && this.tracker == tracker
    {
      this.storage, this.tracker := storage, tracker;
    }

    /** One G program, with the id its child would get. */
    method InjectOne(env: Env, g: Program, id: Id) returns (v: Verdict)
      requires !storage.readOnly
      modifies storage, tracker
      ensures v == Judge(env, old(tracker.tables), g, id)
      ensures VerdictIs(env, old(tracker.tables), g, id, v)
      ensures tracker.tables == Marked(old(tracker.tables), v)
      ensures storage.Contents() == Stored(old(storage.Contents()), v)
    {
      JudgeIs(env, tracker.tables, g, id);
      var best := tracker.GetBestDForG(g.id.text);
      if best.None? {
        return NoD;
      }
      var d, delta := best.value.0, best.value.1;
      TopIsUnique(ZAt(tracker.tables.improvements, g.id.text), d, TopMember(ZAt(tracker.tables.improvements, g.id.text)));
      var done := tracker.IsPairInjected(d, g.id.text);
      if done {
        return Dedup;
      }
      if d !in env.archive {
        return MissingD;
      }
      var composed := env.compose(g.code, env.archive[d].code);
      if composed.None? {
        return ComposeError;
      }
      var child := Composed(env, g, env.archive[d], delta, composed.value, id);
      var added := storage.Add(child);
      tracker.MarkPairInjected(d, g.id.text);
      return Injected(d, g.id, child);
    }

    /** The whole pass. `gs` is what the store lists, `ids` the fresh ids. */
    method InjectAll(env: Env, gs: seq<Program>, ids: seq<Id>) returns (report: Report)
      requires !storage.readOnly && |ids| == |gs|
      modifies storage, tracker
      ensures report == ReportOf(Verdicts(env, old(tracker.tables), gs, ids))
      ensures VerdictsAre(env, old(tracker.tables), gs, ids, Verdicts(env, old(tracker.tables), gs, ids))
      ensures |report.injectedIds| + report.noD + report.dedup + report.missing + report.composeErrors == |gs|
      ensures tracker.tables == MarkedAll(old(tracker.tables), Verdicts(env, old(tracker.tables), gs, ids))
      ensures storage.Contents() == StoredAll(old(storage.Contents()), Verdicts(env, old(tracker.tables), gs, ids))
      ensures old(IndexInv(storage.Contents())) ==> IndexInv(storage.Contents())
    {
      report := Report([], 0, 0, 0, 0);
      ghost var vs: seq<Verdict> := [];
      var i := 0;
      while i < |gs|
        invariant 0 <= i <= |gs|
        invariant vs == Verdicts(env, old(tracker.tables), gs[..i], ids[..i])
        invariant report == ReportOf(vs)
        invariant tracker.tables == MarkedAll(old(tracker.tables), vs)
        invariant storage.Contents() == StoredAll(old(storage.Contents()), vs)
      {
        NextVerdict(env, old(tracker.tables), old(storage.Contents()), gs, ids, i, vs);
        var v := InjectOne(env, gs[i], ids[i]);
        report := Tally(report, v);
        vs := vs + [v];
        i := i + 1;
      }
      assert gs[..i] == gs && ids[..i] == ids;
      VerdictsAreSo(env, old(tracker.tables), gs, ids);
      CountsAddUp(vs);
      IdsCount(vs);
      if old(IndexInv(storage.Contents())) {
        StoringKeepsIndex(old(storage.Contents()), vs);
      }
    }
  }
}
