/** Which pairs get composed, and how often, over runs of the composition hook
    (gigaevo/adversarial/composition_injection.py) beside the tracker and the
    rest of the system, with calls stopped at any point. */
module InjectionRuns {
  import opened Wrappers
  import opened ProgramStates
  import opened Programs
  import opened Redis
  import opened DGTrackers
  import opened DGImprovementTrackers
  import opened CompositionInjections

  /** `Scan` is the hook's handling of one G program, `Stop` the same cut off
      after the child was stored and before the pair was marked. Between any two
      of them the tracker records batches and the rest of the system changes G's
      store at will. */
  datatype Event =
    | Scan(env: Env, g: Program, id: Id)
    | Stop(env: Env, g: Program, id: Id)
    | Record(batch: DGTrackers.Batch)
    | Change(db: Db)

  /** A child stored when `at` batches had been recorded. */
  datatype Composition = Composition(verdict: Verdict, marked: bool, at: nat)

  /** `gone` are the ids that were deleted, `log` all children ever stored. */
  datatype State = State(tables: Tables, db: Db, gone: set<Id>, recorded: seq<DGTrackers.Batch>, log: seq<Composition>)

  function Start(db: Db): State { State(EMPTY_TABLES, db, {}, [], []) }

  /** Ids are never used twice. */
  predicate Unused(s: State, id: Id) { id !in s.db.blobs && id !in s.gone }

  ghost predicate Possible(s: State, e: Event) {
    match e
    case Scan(_, _, id) => Unused(s, id)
    case Stop(env, g, id) => Unused(s, id) && Judge(env, s.tables, g, id).Injected?
    case Record(batch) => WellFormed(batch)
    case Change(_) => true
  }

  function Logged(s: State, v: Verdict, marked: bool): State {
    if v.Injected? then
      s.(tables := if marked then Marked(s.tables, v) else s.tables, db := Stored(s.db, v),
         log := s.log + [Composition(v, marked, |s.recorded|)])
    else s
  }

  ghost function After(s: State, e: Event): State
    requires Possible(s, e)
  {
    match e
    case Scan(env, g, id) => Logged(s, Judge(env, s.tables, g, id), true)
    case Stop(env, g, id) => Logged(s, Judge(env, s.tables, g, id), false)
    case Record(batch) => s.(tables := Recorded(s.tables, batch), recorded := s.recorded + [batch])
    case Change(db) => s.(db := db, gone := (s.gone + s.db.blobs.Keys) - db.blobs.Keys)
  }

  ghost function RunFrom(s: State, events: seq<Event>): Option<State>
    decreases |events|
  {
    if events == [] then Some(s)
    else match RunFrom(s, events[..|events| - 1])
         case None => None
         case Some(mid) => if Possible(mid, events[|events| - 1]) then Some(After(mid, events[|events| - 1])) else None
  }

  // ---------------------------------------------------------------- the log

  function Name(v: Verdict): string
    requires v.Injected?
  {
    Member(v.d, v.g.text)
  }

  predicate Concerns(c: Composition, name: string) { c.verdict.Injected? && Name(c.verdict) == name }

  /** How often a pair was composed, and how often without being marked. */
  function Count(log: seq<Composition>, name: string): nat
    decreases |log|
  {
    if log == [] then 0 else Count(log[..|log| - 1], name) + if Concerns(log[|log| - 1], name) then 1 else 0
  }

  function Unmarked(log: seq<Composition>, name: string): nat
    decreases |log|
  {
    if log == [] then 0
    else Unmarked(log[..|log| - 1], name) + if Concerns(log[|log| - 1], name) && !log[|log| - 1].marked then 1 else 0
  }

  lemma {:induction false} LogGrows(log: seq<Composition>, c: Composition, name: string)
    ensures Count(log + [c], name) == Count(log, name) + if Concerns(c, name) then 1 else 0
    ensures Unmarked(log + [c], name) == Unmarked(log, name) + if Concerns(c, name) && !c.marked then 1 else 0
  {
    assert (log + [c])[..|log|] == log;
  }

  // ---------------------------------------------------------------- how often a pair is composed

  ghost predicate CountsAdd(s: State) {
    forall name :: Count(s.log, name) == Unmarked(s.log, name) + if name in s.tables.injected then 1 else 0
  }

  lemma {:induction false} ComposedKeepsCounts(s: State, env: Env, g: Program, id: Id, marked: bool)
    requires CountsAdd(s)
    ensures CountsAdd(Logged(s, Judge(env, s.tables, g, id), marked))
  {
    var v := Judge(env, s.tables, g, id);
    if v.Injected? {
      forall name
        ensures Count(Logged(s, v, marked).log, name)
                == Unmarked(Logged(s, v, marked).log, name) + if name in Logged(s, v, marked).tables.injected then 1 else 0
      {
        LogGrows(s.log, Composition(v, marked, |s.recorded|), name);
      }
    }
  }

  lemma {:induction false} StepKeepsCounts(s: State, e: Event)
    requires CountsAdd(s) && Possible(s, e)
    ensures CountsAdd(After(s, e))
  {
    match e
    case Scan(env, g, id) => ComposedKeepsCounts(s, env, g, id, true);
    case Stop(env, g, id) => ComposedKeepsCounts(s, env, g, id, false);
    case _ =>
  }

  lemma {:induction false} RunKeepsCounts(s: State, events: seq<Event>)
    requires CountsAdd(s) && RunFrom(s, events).Some?
    ensures CountsAdd(RunFrom(s, events).value)
    decreases |events|
  {
    if events != [] {
      RunKeepsCounts(s, events[..|events| - 1]);
      StepKeepsCounts(RunFrom(s, events[..|events| - 1]).value, events[|events| - 1]);
    }
  }

  /** Over any run a pair was composed once if it is marked, and once more for
      every call that stopped between storing its child and marking it. */
  lemma {:induction false} ComposedAsOftenAs(db: Db, events: seq<Event>, d: string, g: Id)
    requires RunFrom(Start(db), events).Some?
    ensures var s := RunFrom(Start(db), events).value;
            Count(s.log, Member(d, g.text)) == Unmarked(s.log, Member(d, g.text)) + if Member(d, g.text) in s.tables.injected then 1 else 0
  {
    assert CountsAdd(Start(db));
    RunKeepsCounts(Start(db), events);
  }

  // ---------------------------------------------------------------- who is composed again

  ghost predicate NoStop(events: seq<Event>) { forall e :: e in events ==> !e.Stop? }

  lemma {:induction false} OnlyStopsLeaveUnmarked(s: State, events: seq<Event>, name: string)
    requires RunFrom(s, events).Some? && NoStop(events)
    ensures Unmarked(RunFrom(s, events).value.log, name) == Unmarked(s.log, name)
    decreases |events|
  {
    if events != [] {
      var n := |events| - 1;
      OnlyStopsLeaveUnmarked(s, events[..n], name);
      var mid := RunFrom(s, events[..n]).value;
      assert events[n] in events;
      if events[n].Scan? {
        var v := Judge(events[n].env, mid.tables, events[n].g, events[n].id);
        LogGrows(mid.log, Composition(v, true, |mid.recorded|), name);
      }
    }
  }

  lemma {:induction false} RealAbove(z: ZSet) returns (top: real)
    ensures top > 0.0 && forall m :: m in z ==> z[m] < top
    decreases |z|
  {
    if z == map[] {
      top := 1.0;
    } else {
      var m :| m in z;
      var rest := RealAbove(z - {m});
      top := if z[m] < rest then rest else z[m] + 1.0;
      forall x | x in z ensures z[x] < top {
        if x != m {
          assert x in z - {m};
        }
      }
    }
  }

  /** A delta larger than all before makes D the best on record. */
  lemma {:induction false} BecomesBest(t: Tables, d: string, g: Id) returns (batch: DGTrackers.Batch)
    ensures WellFormed(batch) && Recorded(t, batch).injected == t.injected
    ensures BestD(Recorded(t, batch), g).Some? && BestD(Recorded(t, batch), g).value.0 == d
  {
    var top := RealAbove(ZAt(t.improvements, g.text));
    var e := DGTrackers.Entry(d, g.text, map[DELTA := top]);
    batch := [e];
    assert batch[..0] == [] && Improved(t.improvements, []) == t.improvements;
    var z := ZAt(Recorded(t, batch).improvements, g.text);
    assert z == ZAt(t.improvements, g.text)[d := top];
    assert IsTop(z, d);
    TopIsUnique(z, d, TopMember(z));
  }

  /** A pair that is not marked can be composed next. */
  lemma {:induction false} Repeats(s: State, d: string, g: Id) returns (more: seq<Event>)
    requires Member(d, g.text) !in s.tables.injected
    ensures NoStop(more) && RunFrom(s, more).Some?
    ensures Count(RunFrom(s, more).value.log, Member(d, g.text)) == Count(s.log, Member(d, g.text)) + 1
  {
    var batch := BecomesBest(s.tables, d, g);
    var id := FreshId(s.db.blobs.Keys + s.gone);
    var env := Env(map[d := OpponentProviders.Opponent(d, "", 0.0)], (a, b) => Some(""), r => "", 0);
    var prog := Program(g, "", None, map[], map[], map[], 0, Done, Lineage([], [], None, 1), 0, 0);
    var one := [Record(batch)];
    more := one + [Scan(env, prog, id)];
    assert one[..0] == [] && RunFrom(s, []) == Some(s);
    var s1 := After(s, Record(batch));
    assert RunFrom(s, one) == Some(s1);
    assert more[..1] == one;
    var v := Judge(env, s1.tables, prog, id);
    LogGrows(s1.log, Composition(v, true, |s1.recorded|), Member(d, g.text));
  }

  lemma {:induction false} NeverRepeats(s: State, more: seq<Event>, name: string)
    requires CountsAdd(s) && RunFrom(s, more).Some? && NoStop(more) && Unmarked(s.log, name) == 0
    ensures Count(RunFrom(s, more).value.log, name) <= 1
  {
    RunKeepsCounts(s, more);
    OnlyStopsLeaveUnmarked(s, more, name);
  }

  /** A pair can come to be composed more than once by calls that run through
      exactly when some call before stopped between storing its child and marking
      it. */
  lemma {:induction false} RepeatsIff(db: Db, events: seq<Event>, d: string, g: Id)
    requires RunFrom(Start(db), events).Some?
    ensures var s := RunFrom(Start(db), events).value;
            (exists more :: NoStop(more) && RunFrom(s, more).Some? && Count(RunFrom(s, more).value.log, Member(d, g.text)) > 1)
            <==> (exists c :: c in s.log && Concerns(c, Member(d, g.text)) && !c.marked)
  {
    var s, name := RunFrom(Start(db), events).value, Member(d, g.text);
    assert CountsAdd(Start(db));
    RunKeepsCounts(Start(db), events);
    UnmarkedIs(s.log, name);
    if Unmarked(s.log, name) == 0 {
      forall more | NoStop(more) && RunFrom(s, more).Some? ensures Count(RunFrom(s, more).value.log, name) <= 1 {
        NeverRepeats(s, more, name);
      }
    } else if name in s.tables.injected {
      var none: seq<Event> := [];
      assert NoStop(none) && RunFrom(s, none) == Some(s);
      assert Count(RunFrom(s, none).value.log, name) > 1;
    } else {
      var more := Repeats(s, d, g);
    }
  }

  lemma {:induction false} UnmarkedIs(log: seq<Composition>, name: string)
    ensures Unmarked(log, name) > 0 <==> exists c :: c in log && Concerns(c, name) && !c.marked
    decreases |log|
  {
    if log != [] {
      UnmarkedIs(log[..|log| - 1], name);
      assert forall c :: c in log <==> c in log[..|log| - 1] || c == log[|log| - 1];
    }
  }

  // ---------------------------------------------------------------- one program for each pair

  function Child(c: Composition): Id { if c.verdict.Injected? then c.verdict.child.id else Id("") }

  /** Children have ids of their own, and are stored unless they were deleted. */
  ghost predicate ChildrenStored(s: State) {
    && s.gone !! s.db.blobs.Keys
    && (forall c :: c in s.log ==> c.verdict.Injected? && (Child(c) in s.db.blobs || Child(c) in s.gone))
    && (forall i, j :: 0 <= i < j < |s.log| ==> Child(s.log[i]) != Child(s.log[j]))
  }

  function StopCount(events: seq<Event>): nat
    decreases |events|
  {
    if events == [] then 0 else StopCount(events[..|events| - 1]) + if events[|events| - 1].Stop? then 1 else 0
  }

  lemma {:induction false} StepKeepsChildren(s: State, e: Event)
    requires ChildrenStored(s) && Possible(s, e)
    ensures ChildrenStored(After(s, e))
  {
    if e.Scan? || e.Stop? {
      var v := Judge(e.env, s.tables, e.g, e.id);
      if v.Injected? {
        assert forall c :: c in After(s, e).log <==> c in s.log || c == Composition(v, e.Scan?, |s.recorded|);
        forall i | 0 <= i < |s.log| ensures Child(s.log[i]) != e.id {
          assert s.log[i] in s.log;
        }
      }
    }
  }

  lemma {:induction false} StepCounts(s: State, e: Event)
    requires Possible(s, e)
    ensures |After(s, e).log| + |s.tables.injected| == |s.log| + |After(s, e).tables.injected| + if e.Stop? then 1 else 0
  {
  }

  /** Over any run every composition has a program of its own in G's store, still
      there unless it was deleted, and there are as many of them as marked pairs
      and stopped calls: one to one with the marked pairs if no call stopped. */
  lemma {:induction false} OneProgramPerPair(db: Db, events: seq<Event>)
    requires RunFrom(Start(db), events).Some?
    ensures var s := RunFrom(Start(db), events).value;
            ChildrenStored(s) && |s.log| == |s.tables.injected| + StopCount(events)
    decreases |events|
  {
    if events != [] {
      OneProgramPerPair(db, events[..|events| - 1]);
      var mid := RunFrom(Start(db), events[..|events| - 1]).value;
      StepKeepsChildren(mid, events[|events| - 1]);
      StepCounts(mid, events[|events| - 1]);
    }
  }

  // ---------------------------------------------------------------- marked is composed

  /** The injected-pair set has the names of the marked compositions, each once. */
  ghost predicate MarkedOnce(s: State) {
    && (forall name :: name in s.tables.injected <==> exists c :: c in s.log && c.marked && Concerns(c, name))
    && (forall i, j :: 0 <= i < j < |s.log| && s.log[i].marked && s.log[j].marked && s.log[i].verdict.Injected? ==>
          !Concerns(s.log[j], Name(s.log[i].verdict)))
  }

  lemma {:induction false} InjectedIsUnmarked(t: Tables, env: Env, g: Program, id: Id)
    ensures Judge(env, t, g, id).Injected? ==> Name(Judge(env, t, g, id)) !in t.injected
  {
  }

  lemma {:induction false} ComposedKeepsMarked(s: State, env: Env, g: Program, id: Id, marked: bool)
    requires MarkedOnce(s)
    ensures MarkedOnce(Logged(s, Judge(env, s.tables, g, id), marked))
  {
    InjectedIsUnmarked(s.tables, env, g, id);
    LoggedKeepsMarked(s, Judge(env, s.tables, g, id), marked);
  }

  lemma {:induction false} LoggedKeepsMarked(s: State, v: Verdict, marked: bool)
    requires MarkedOnce(s) && (v.Injected? ==> Name(v) !in s.tables.injected)
    ensures MarkedOnce(Logged(s, v, marked))
  {
    if v.Injected? {
      var c := Composition(v, marked, |s.recorded|);
      var log := s.log + [c];
      assert forall x :: x in log <==> x in s.log || x == c;
      forall i | 0 <= i < |s.log| && marked && s.log[i].marked && s.log[i].verdict.Injected?
        ensures Name(s.log[i].verdict) != Name(v)
      {
        assert s.log[i] in s.log && Concerns(s.log[i], Name(s.log[i].verdict));
      }
    }
  }

  lemma {:induction false} RunKeepsMarked(s: State, events: seq<Event>)
    requires MarkedOnce(s) && RunFrom(s, events).Some?
    ensures MarkedOnce(RunFrom(s, events).value)
    decreases |events|
  {
    if events != [] {
      var n := |events| - 1;
      RunKeepsMarked(s, events[..n]);
      var mid := RunFrom(s, events[..n]).value;
      match events[n]
      case Scan(env, g, id) => ComposedKeepsMarked(mid, env, g, id, true);
      case Stop(env, g, id) => ComposedKeepsMarked(mid, env, g, id, false);
      case _ =>
    }
  }

  /** Over any run of the hook the injected-pair set has exactly the names of the
      pairs whose composition went through, and no name twice. */
  lemma {:induction false} AtMostOnce(db: Db, events: seq<Event>)
    requires RunFrom(Start(db), events).Some?
    ensures MarkedOnce(RunFrom(Start(db), events).value)
  {
    RunKeepsMarked(Start(db), events);
  }

  lemma {:induction false} WithoutStopsAllMarked(s: State, events: seq<Event>)
    requires RunFrom(s, events).Some? && NoStop(events) && forall c :: c in s.log ==> c.marked
    ensures forall c :: c in RunFrom(s, events).value.log ==> c.marked
    decreases |events|
  {
    if events != [] {
      var n := |events| - 1;
      assert events[n] in events;
      WithoutStopsAllMarked(s, events[..n]);
    }
  }

  /** If no call is stopped, no two compositions are of one pair, whatever the
      ids look like. */
  lemma {:induction false} NoPairTwice(db: Db, events: seq<Event>, i: nat, j: nat)
    requires RunFrom(Start(db), events).Some? && NoStop(events)
    requires i < j < |RunFrom(Start(db), events).value.log|
    ensures var log := RunFrom(Start(db), events).value.log;
            && log[i].verdict.Injected? && log[j].verdict.Injected?
            && (log[i].verdict.d, log[i].verdict.g) != (log[j].verdict.d, log[j].verdict.g)
  {
    var log := RunFrom(Start(db), events).value.log;
    AtMostOnce(db, events);
    OneProgramPerPair(db, events);
    WithoutStopsAllMarked(Start(db), events);
    assert log[i] in log && log[j] in log;
    assert log[i].marked && log[j].marked;
    assert !Concerns(log[j], Name(log[i].verdict));
  }

  /** A pair is passed over as done exactly when it was composed and marked, as
      long as no D id has a bar. */
  lemma {:induction false} DedupIff(db: Db, events: seq<Event>, d: string, g: Id)
    requires RunFrom(Start(db), events).Some?
    requires '|' !in d && forall c :: c in RunFrom(Start(db), events).value.log && c.verdict.Injected? ==> '|' !in c.verdict.d
    ensures var s := RunFrom(Start(db), events).value;
            Member(d, g.text) in s.tables.injected
            <==> exists c :: c in s.log && c.marked && c.verdict.Injected? && c.verdict.d == d && c.verdict.g == g
  {
    AtMostOnce(db, events);
    var s := RunFrom(Start(db), events).value;
    if Member(d, g.text) in s.tables.injected {
      var c :| c in s.log && c.marked && Concerns(c, Member(d, g.text));
      MembersDiffer(c.verdict.d, c.verdict.g.text, d, g.text);
    } else {
      assert forall c :: c in s.log && c.marked && c.verdict.Injected? && c.verdict.d == d && c.verdict.g == g ==>
                         Concerns(c, Member(d, g.text));
    }
  }

  // ---------------------------------------------------------------- every composition was earned

  /** Among these batches D has a positive delta against G, and no other D a
      larger one. */
  ghost predicate BestOf(batches: seq<DGTrackers.Batch>, d: string, g: string)
    requires forall b :: b in batches ==> WellFormed(b)
  {
    FlatWellFormed(batches);
    var all := Flat(batches);
    && MaxPositive(all, d, g).Some?
    && forall d' :: MaxPositive(all, d', g).Some? ==> MaxPositive(all, d', g).value <= MaxPositive(all, d, g).value
  }

  ghost predicate ScoresRecorded(s: State) {
    && (forall b :: b in s.recorded ==> WellFormed(b))
    && s.tables.improvements == DGTrackers.Run(EMPTY_TABLES, s.recorded).improvements
  }

  ghost predicate Earned(s: State) {
    && ScoresRecorded(s)
    && forall c :: c in s.log ==>
         && c.verdict.Injected? && c.at <= |s.recorded|
         && BestOf(s.recorded[..c.at], c.verdict.d, c.verdict.g.text)
         && c.verdict.child.lineage.parents == [c.verdict.g]
  }

  lemma {:induction false} ScoreIs(s: State, d: string, g: string)
    requires ScoresRecorded(s)
    ensures WellFormed(Flat(s.recorded)) && Get(ZAt(s.tables.improvements, g), d) == MaxPositive(Flat(s.recorded), d, g)
  {
    RunPair(s.recorded, d, g);
  }

  lemma {:induction false} BestIsBestOf(s: State, g: Id)
    requires ScoresRecorded(s) && BestD(s.tables, g).Some?
    ensures BestOf(s.recorded, BestD(s.tables, g).value.0, g.text)
  {
    var z := ZAt(s.tables.improvements, g.text);
    var d := TopMember(z);
    ScoreIs(s, d, g.text);
    forall d' | MaxPositive(Flat(s.recorded), d', g.text).Some?
      ensures MaxPositive(Flat(s.recorded), d', g.text).value <= MaxPositive(Flat(s.recorded), d, g.text).value
    {
      ScoreIs(s, d', g.text);
      assert d' in z && IsTop(z, d);
    }
  }

  lemma {:induction false} ComposedKeepsEarned(s: State, env: Env, g: Program, id: Id, marked: bool)
    requires Earned(s)
    ensures Earned(Logged(s, Judge(env, s.tables, g, id), marked))
  {
    var v := Judge(env, s.tables, g, id);
    if v.Injected? {
      BestIsBestOf(s, g.id);
      assert s.recorded[..|s.recorded|] == s.recorded;
      var c := Composition(v, marked, |s.recorded|);
      assert forall x :: x in s.log + [c] <==> x in s.log || x == c;
    }
  }

  lemma {:induction false} RecordKeepsEarned(s: State, batch: DGTrackers.Batch)
    requires Earned(s) && WellFormed(batch)
    ensures Earned(After(s, Record(batch)))
  {
    var more := s.recorded + [batch];
    assert forall b :: b in more <==> b in s.recorded || b == batch;
    assert more[..|s.recorded|] == s.recorded;
    forall c | c in s.log ensures more[..c.at] == s.recorded[..c.at] {
      assert c.at <= |s.recorded|;
    }
  }

  lemma {:induction false} RunKeepsEarned(s: State, events: seq<Event>)
    requires Earned(s) && RunFrom(s, events).Some?
    ensures Earned(RunFrom(s, events).value)
    decreases |events|
  {
    if events != [] {
      var n := |events| - 1;
      RunKeepsEarned(s, events[..n]);
      var mid := RunFrom(s, events[..n]).value;
      match events[n]
      case Scan(env, g, id) => ComposedKeepsEarned(mid, env, g, id, true);
      case Stop(env, g, id) => ComposedKeepsEarned(mid, env, g, id, false);
      case Record(batch) => RecordKeepsEarned(mid, batch);
      case Change(db) =>
    }
  }

  /** Over any run every composed program is a child of its G, and its D had then
      improved that G by more than any other D on record. */
  lemma {:induction false} ComposedFromTheBest(db: Db, events: seq<Event>)
    requires RunFrom(Start(db), events).Some?
    ensures Earned(RunFrom(Start(db), events).value)
  {
    RunKeepsEarned(Start(db), events);
  }

  // ---------------------------------------------------------------- a whole call

  function Pass(env: Env, gs: seq<Program>, ids: seq<Id>): seq<Event>
    requires |ids| == |gs|
  {
    seq(|gs|, i requires 0 <= i < |gs| => Scan(env, gs[i], ids[i]))
  }

  /** The tables and the store after a whole call. */
  ghost predicate PassDone(s: State, env: Env, gs: seq<Program>, ids: seq<Id>, s': State)
    requires |ids| == |gs|
  {
    var vs := Verdicts(env, s.tables, gs, ids);
    s'.tables == MarkedAll(s.tables, vs) && s'.db == StoredAll(s.db, vs)
  }

  /** Only listed ids are new in the store. */
  ghost predicate OnlyAdded(s: State, ids: seq<Id>, s': State) {
    s'.gone == s.gone && forall id :: id in s'.db.blobs ==> id in s.db.blobs || id in ids
  }

  lemma {:induction false} OneMoreScan(s: State, env: Env, gs: seq<Program>, ids: seq<Id>, mid: State)
    requires |ids| == |gs| > 0 && Distinct(ids) && Unused(s, ids[|gs| - 1])
    requires PassDone(s, env, gs[..|gs| - 1], ids[..|gs| - 1], mid) && OnlyAdded(s, ids[..|gs| - 1], mid)
    ensures var e := Scan(env, gs[|gs| - 1], ids[|gs| - 1]);
            Possible(mid, e) && PassDone(s, env, gs, ids, After(mid, e)) && OnlyAdded(s, ids, After(mid, e))
  {
    var n := |gs| - 1;
    VerdictsSplit(env, s.tables, gs, ids);
    assert ids == ids[..n] + [ids[n]];
    assert forall i :: 0 <= i < n ==> ids[..n][i] != ids[n];
  }

  /** An undisturbed call of the hook is the run of its programs one by one. */
  lemma {:induction false} PassIsARun(s: State, env: Env, gs: seq<Program>, ids: seq<Id>)
    requires |ids| == |gs| && Distinct(ids) && forall id :: id in ids ==> Unused(s, id)
    ensures var r := RunFrom(s, Pass(env, gs, ids));
            r.Some? && PassDone(s, env, gs, ids, r.value) && OnlyAdded(s, ids, r.value)
    decreases |gs|
  {
    if gs != [] {
      var n := |gs| - 1;
      forall id | id in ids[..n] ensures Unused(s, id) {
        assert id in ids;
      }
      PassIsARun(s, env, gs[..n], ids[..n]);
      assert Pass(env, gs, ids)[..n] == Pass(env, gs[..n], ids[..n]);
      assert ids[n] in ids;
      OneMoreScan(s, env, gs, ids, RunFrom(s, Pass(env, gs[..n], ids[..n])).value);
    }
  }
}
