/** When exactly a bump or a write spoils the lists of
    `PopulationSnapshot.get_all` (gigaevo/database/program_storage.py): the
    conditions under which SnapshotCoherence proves the lists fresh cannot be
    weakened. */
module SnapshotExactness {
  import opened Wrappers
  import opened ProgramStates
  import opened Programs
  import opened Redis
  import opened PopulationSnapshots
  import opened SnapshotTasks
  import opened SnapshotCoherence
  import opened Ordering

  // ---------------------------------------------------------------- what may follow

  predicate OfTask(s: Step) { !s.BumpNow? && !s.WriteNow? }

  predicate OfFetch(s: Step, t: TaskId) { (s.ScanKeys? || s.Resume? || s.Read? || s.Finish?) && s.t == t }

  /** The tasks alone can get there. */
  ghost predicate Can(w: World, w': World) {
    exists steps: seq<Step> :: (forall s :: s in steps ==> OfTask(s)) && Reaches(w, steps, w')
  }

  /** One fetch alone can get there. */
  ghost predicate Ends(w: World, t: TaskId, w': World) {
    exists steps: seq<Step> :: (forall s :: s in steps ==> OfFetch(s, t)) && Reaches(w, steps, w')
  }

  /** Whatever the tasks do, the lists they return are fresh. */
  ghost predicate SafeFrom(w: World) { forall w' :: Can(w, w') ==> AllFresh(w') }

  lemma {:induction false} CanStep(w: World, s: Step, w': World)
    requires Enabled(w, s) && OfTask(s) && Can(Apply(w, s), w')
    ensures Can(w, w')
  {
    var rest: seq<Step> :| (forall s :: s in rest ==> OfTask(s)) && Reaches(Apply(w, s), rest, w');
    assert ([s] + rest)[1..] == rest;
    assert Reaches(w, [s] + rest, w');
  }

  lemma {:induction false} CanStay(w: World)
    ensures Can(w, w)
  {
    assert Reaches(w, [], w);
  }

  lemma {:induction false} EndsStep(w: World, s: Step, t: TaskId, w': World)
    requires Enabled(w, s) && OfFetch(s, t) && Ends(Apply(w, s), t, w')
    ensures Ends(w, t, w')
  {
    var rest: seq<Step> :| (forall s :: s in rest ==> OfFetch(s, t)) && Reaches(Apply(w, s), rest, w');
    assert ([s] + rest)[1..] == rest;
    assert Reaches(w, [s] + rest, w');
  }

  lemma {:induction false} EndsStay(w: World, t: TaskId)
    ensures Ends(w, t, w)
  {
    assert Reaches(w, [], w);
  }

  lemma {:induction false} RunThenCan(w: World, steps: seq<Step>, w': World, w'': World)
    requires (forall s :: s in steps ==> OfTask(s)) && Reaches(w, steps, w') && Can(w', w'')
    ensures Can(w, w'')
    decreases |steps|
  {
    if steps != [] {
      assert steps[0] in steps;
      forall s | s in steps[1..] ensures OfTask(s) {
        assert s in steps;
      }
      RunThenCan(Apply(w, steps[0]), steps[1..], w', w'');
      CanStep(w, steps[0], w'');
    }
  }

  lemma {:induction false} EndsThenCan(w: World, t: TaskId, w': World, w'': World)
    requires Ends(w, t, w') && Can(w', w'')
    ensures Can(w, w'')
  {
    var steps: seq<Step> :| (forall s :: s in steps ==> OfFetch(s, t)) && Reaches(w, steps, w');
    RunThenCan(w, steps, w', w'');
  }

  lemma {:induction false} TasksKeepInv(w: World, steps: seq<Step>, w': World)
    requires Inv(w) && (forall s :: s in steps ==> OfTask(s)) && Reaches(w, steps, w')
    ensures Inv(w')
    decreases |steps|
  {
    if steps != [] {
      assert steps[0] in steps;
      StepKeepsInv(w, steps[0]);
      forall s | s in steps[1..] ensures OfTask(s) {
        assert s in steps;
      }
      TasksKeepInv(Apply(w, steps[0]), steps[1..], w');
    }
  }

  lemma {:induction false} InvIsSafe(w: World)
    requires Inv(w)
    ensures SafeFrom(w)
  {
    forall w' | Can(w, w') ensures AllFresh(w') {
      var steps: seq<Step> :| (forall s :: s in steps ==> OfTask(s)) && Reaches(w, steps, w');
      TasksKeepInv(w, steps, w');
      InvIsFresh(w');
    }
  }

  // ---------------------------------------------------------------- ending a fetch

  /** The task after reading all it still has to read at once. */
  function AllRead(db: Db, pc: Pc): Pc
    requires pc.Reading?
  {
    pc.(remaining := {}, got := pc.got + MGet(db, pc.remaining, pc.exclude))
  }

  lemma {:induction false} ReadOut(w: World, t: TaskId)
    requires t in w.tasks && w.tasks[t].Reading?
    ensures var pc := AllRead(w.db, w.tasks[t]);
            Ends(w, t, Finished(SetTask(w, t, pc), t, pc, {}))
  {
    var pc := w.tasks[t];
    var read := AllRead(w.db, pc);
    var w1 := SetTask(w, t, read);
    var w2 := Finished(w1, t, read, {});
    EndsStay(w2, t);
    EndsStep(w1, Finish(t, {}), t, w2);
    if pc.remaining == {} {
      assert MGet(w.db, {}, pc.exclude) == map[];
      assert pc.got + map[] == pc.got;
      assert w.tasks[t := pc] == w.tasks;
    } else {
      assert pc.remaining - pc.remaining == {};
      EndsStep(w, Read(t, pc.remaining), t, w2);
    }
  }

  /** The fetch raised, or stored a list without x for the present epoch. */
  ghost predicate EndedWithout(w: World, w': World, t: TaskId, x: Id) {
    && t in w'.tasks && w'.db == w.db && w'.past == w.past && w'.bumped == w.bumped
    && (w'.tasks[t] == Failed(KeyError)
        || (w'.tasks[t].Returned? && x !in w'.tasks[t].programs
            && Hits(w'.snap, w'.tasks[t].exclude) && w'.snap.cached == w'.tasks[t].programs))
  }

  /** The fetch has not heard of x. */
  ghost predicate Unknown(snap: Snap, pc: Pc, x: Id) {
    && x !in snap.idCache
    && (pc.Scanning? ==> x !in pc.found)
    && (pc.Listed? ==> x !in pc.ids)
    && (pc.Reading? ==> x !in pc.remaining && x !in pc.got)
  }

  lemma {:induction false} ReadingMisses(w: World, t: TaskId, x: Id) returns (w': World)
    requires t in w.tasks && w.tasks[t].Reading? && Unknown(w.snap, w.tasks[t], x)
    ensures Ends(w, t, w') && EndedWithout(w, w', t, x)
  {
    var read := AllRead(w.db, w.tasks[t]);
    w' := Finished(SetTask(w, t, read), t, read, {});
    ReadOut(w, t);
  }

  /** An open fetch that has not heard of x can end without it. */
  lemma {:induction false} FetchMisses(w: World, t: TaskId, x: Id) returns (w': World)
    requires t in w.tasks && InWindow(w.tasks[t]) && Unknown(w.snap, w.tasks[t], x)
    requires w.tasks[t].Scanning? ==> Must(w, w.tasks[t].from) == {}
    ensures Ends(w, t, w') && EndedWithout(w, w', t, x)
  {
    if w.tasks[t].Reading? {
      w' := ReadingMisses(w, t, x);
    } else {
      var w1 := Apply(w, Resume(t));
      if Planned(w.snap, w.tasks[t]).remaining == {} {
        w' := w1;
        EndsStay(w1, t);
      } else {
        w' := ReadingMisses(w1, t, x);
      }
      EndsStep(w, Resume(t), t, w');
    }
  }

  /** A later call returns what was stored. */
  lemma {:induction false} MissingIsStale(w: World, w': World, t: TaskId, x: Id)
    requires EndedWithout(w, w', t, x) && w.bumped == |w.past| && x in w.db.blobs
    ensures exists w'' :: Can(w', w'') && !AllFresh(w'')
  {
    if w'.tasks[t].Failed? {
      CanStay(w');
    } else {
      var exclude := w'.tasks[t].exclude;
      var w'' := Apply(w', Call(t, exclude));
      CanStay(w'');
      CanStep(w', Call(t, exclude), w'');
      assert !Fresh(w'', w''.tasks[t].programs, exclude, |w.past|) by {
        assert w''.Version(|w.past|) == w.db;
        assert x in Scan(w.db, exclude);
      }
    }
  }

  // ---------------------------------------------------------------- bumps and open fetches

  /** A change of the database, then the bump that announces it. */
  function Announced(w: World, db: Db, incremental: bool): World {
    Apply(Apply(w, WriteNow(db)), BumpNow(incremental))
  }

  ghost predicate Announceable(w: World, db: Db, incremental: bool) {
    WriteAllowed(w, db) && (incremental ==> Trustworthy(w.snap.cached, db, w.snap.cachedExclude))
  }

  lemma {:induction false} OrderlyAnnouncementKeepsInv(w: World, db: Db, incremental: bool)
    requires Inv(w) && NoWindow(w) && Announceable(w, db, incremental)
    ensures Inv(Announced(w, db, incremental))
  {
    StepKeepsInv(w, WriteNow(db));
    StepKeepsInv(Apply(w, WriteNow(db)), BumpNow(incremental));
  }

  function KnownIds(w: World, pc: Pc): set<Id> {
    w.db.blobs.Keys + w.snap.idCache.Keys + w.snap.cached.Keys
    + (if pc.Scanning? then pc.found + w.Version(pc.from).blobs.Keys else {})
    + (if pc.Listed? then pc.ids else {})
    + (if pc.Reading? then pc.remaining + pc.got.Keys else {})
  }

  function Blank(x: Id): Program { Program(x, "", None, map[], map[], map[], 0, Done, Lineage([], [], None, 1), 0, 0) }

  /** A database of one finished program. */
  function Only(x: Id): Db { Db(map[x := Blank(x)], StatusSets(map[Done := {x}]), 0) }

  lemma {:induction false} OnlyIsAllowed(w: World, x: Id, incremental: bool)
    requires SnapOk(w) && x !in w.snap.idCache && x !in w.snap.cached
    ensures Announceable(w, Only(x), incremental)
  {
    forall id, s ensures id in Only(x).sets.At(s) <==> id in Only(x).blobs && Only(x).blobs[id].state == s {
    }
  }

  lemma {:induction false} NothingMust(w: World, db: Db, from: nat, incremental: bool)
    requires from <= |w.past| && w.Version(from).blobs.Keys !! db.blobs.Keys
    ensures Must(Announced(w, db, incremental), from) == {}
  {
    var w' := Announced(w, db, incremental);
    assert w'.Version(|w'.past|) == db && w'.Version(from) == w.Version(from);
  }

  lemma {:induction false} OnlySpoils(w: World, t: TaskId, x: Id, incremental: bool)
    requires Inv(w) && t in w.tasks && InWindow(w.tasks[t]) && x !in KnownIds(w, w.tasks[t])
    ensures !SafeFrom(Announced(w, Only(x), incremental))
  {
    var pc := w.tasks[t];
    assert PcOk(w, pc);
    var w1 := Announced(w, Only(x), incremental);
    if pc.Scanning? {
      NothingMust(w, Only(x), pc.from, incremental);
    }
    var w2 := FetchMisses(w1, t, x);
    MissingIsStale(w1, w2, t, x);
    var w3 :| Can(w2, w3) && !AllFresh(w3);
    EndsThenCan(w1, t, w2, w3);
  }

  lemma {:induction false} OpenFetchIsSpoiled(w: World, t: TaskId, incremental: bool)
    requires Inv(w) && t in w.tasks && InWindow(w.tasks[t])
    ensures exists db :: Announceable(w, db, incremental) && !SafeFrom(Announced(w, db, incremental))
  {
    var pc := w.tasks[t];
    assert PcOk(w, pc);
    var x := FreshId(KnownIds(w, pc));
    OnlyIsAllowed(w, x, incremental);
    OnlySpoils(w, t, x, incremental);
  }

  /** Announcing a change by a bump is safe for every change exactly when no
      fetch is between its first answer and its storing. */
  lemma {:induction false} BumpIsSafeIff(w0: World, run: seq<Step>, w: World, incremental: bool)
    requires Start(w0) && OrderlyRun(w0, run, w)
    ensures (forall db :: Announceable(w, db, incremental) ==> SafeFrom(Announced(w, db, incremental))) <==> NoWindow(w)
  {
    StartHolds(w0);
    RunKeepsInv(w0, run, w);
    if NoWindow(w) {
      forall db | Announceable(w, db, incremental) ensures SafeFrom(Announced(w, db, incremental)) {
        OrderlyAnnouncementKeepsInv(w, db, incremental);
        InvIsSafe(Announced(w, db, incremental));
      }
    } else {
      var t :| t in w.tasks && InWindow(w.tasks[t]);
      OpenFetchIsSpoiled(w, t, incremental);
    }
  }

  // ---------------------------------------------------------------- what an incremental bump rests on

  /** A complete cached program whose stored data has changed. */
  ghost predicate Changed(w: World, id: Id) {
    && id in w.snap.cached && Complete(w.snap.cached[id]) && id in w.db.blobs
    && Data(w.snap.cached[id]) != Data(Project(w.db.blobs[id], Fields(w.snap.cachedExclude)))
  }

  /** A list that keeps it, returned to a call after the last change, is not a
      scan. */
  lemma {:induction false} OldDataIsNotFresh(w: World, w': World, t: TaskId, id: Id)
    requires Changed(w, id) && w'.db == w.db && t in w'.tasks && w'.tasks[t].Returned?
    requires w'.tasks[t].since == |w'.past| && w'.tasks[t].exclude == w.snap.cachedExclude
    requires id in w'.tasks[t].programs && w'.tasks[t].programs[id] == w.snap.cached[id]
    ensures !AllFresh(w')
  {
    var exclude := w.snap.cachedExclude;
    assert w'.Version(|w'.past|) == w.db;
    assert Scan(w.db, exclude)[id] == Project(w.db.blobs[id], Fields(exclude));
  }

  /** Complete cached programs with a listed id stay as they are. */
  lemma {:induction false} KeptInList(idCache: Population, ids: set<Id>, db: Db, exclude: Exclude, id: Id)
    requires id in idCache && Complete(idCache[id]) && id in ids
    ensures id in RefreshedFrom(idCache, ids, db, exclude) && RefreshedFrom(idCache, ids, db, exclude)[id] == idCache[id]
  {
  }

  /** Reading all at once what was planned from the ids. */
  lemma {:induction false} ListedEnds(w: World, t: TaskId) returns (w': World)
    requires t in w.tasks && w.tasks[t].Listed?
    ensures Ends(w, t, w') && w'.db == w.db && w'.past == w.past && t in w'.tasks
    ensures var pc := w.tasks[t];
            w'.tasks[t] == Returned(pc.exclude, pc.since, RefreshedFrom(w.snap.idCache, pc.ids, w.db, pc.exclude))
  {
    var plan := Planned(w.snap, w.tasks[t]);
    var w1 := SetTask(w, t, plan);
    var read := AllRead(w.db, plan);
    w' := Finished(SetTask(w1, t, read), t, read, {});
    assert map[] + MGet(w.db, plan.remaining, plan.exclude) == MGet(w.db, plan.remaining, plan.exclude);
    if plan.remaining == {} {
      assert MGet(w.db, {}, plan.exclude) == map[];
      assert w.tasks[t := plan][t := w'.tasks[t]] == w.tasks[t := w'.tasks[t]];
      assert w' == Apply(w, Resume(t));
      EndsStay(w', t);
    } else {
      ReadOut(w1, t);
    }
    EndsStep(w, Resume(t), t, w');
  }

  /** The task asks, plans and ends its fetch with nobody in between. */
  lemma {:induction false} AskingEnds(w: World, t: TaskId, id: Id) returns (w': World)
    requires t in w.tasks && w.tasks[t].Asking? && w.tasks[t].incremental && w.tasks[t].exclude == w.snap.cachedExclude
    requires IndexInv(w.db) && w.snap.idCache == w.snap.cached && Changed(w, id) && w.tasks[t].since == |w.past|
    ensures Can(w, w') && !AllFresh(w')
  {
    var w1 := Apply(w, AnswerIds(t));
    IndexInvCounts(w.db);
    w' := ListedEnds(w1, t);
    KeptInList(w.snap.idCache, w1.tasks[t].ids, w.db, w.snap.cachedExclude, id);
    OldDataIsNotFresh(w, w', t, id);
    CanStay(w');
    EndsThenCan(w1, t, w', w');
    CanStep(w, AnswerIds(t), w');
  }

  /** With the lock free, a new call fetches. */
  lemma {:induction false} FreeLockIsSpoiled(w: World, id: Id)
    requires IndexInv(w.db) && w.lock.None? && w.bumped == |w.past| && w.snap.cachedEpoch < w.snap.epoch
    requires w.snap.idCache == w.snap.cached && Changed(w, id)
    ensures !SafeFrom(w)
  {
    var t := FreshNumber(w.tasks.Keys);
    var exclude := w.snap.cachedExclude;
    var w1 := Apply(w, Call(t, exclude));
    var w2 := Apply(w1, Acquire(t));
    var w' := AskingEnds(w2, t, id);
    CanStep(w1, Acquire(t), w');
    CanStep(w, Call(t, exclude), w');
  }

  lemma {:induction false} BumpedIsSpoiled(w: World, id: Id)
    requires Inv(w) && NoWindow(w) && Changed(w, id)
    ensures !SafeFrom(Apply(w, BumpNow(true)))
  {
    var w' := Apply(w, BumpNow(true));
    if w.lock.None? {
      FreeLockIsSpoiled(w', id);
    } else {
      var u := w.lock.value;
      var w1 := Apply(w', Fail(u));
      FreeLockIsSpoiled(w1, id);
      var w2 :| Can(w1, w2) && !AllFresh(w2);
      CanStep(w', Fail(u), w2);
    }
  }

  /** With no fetch open, an incremental bump is safe exactly when no stored
      program that is cached as complete has changed its data. */
  lemma {:induction false} IncrementalBumpIsSafeIff(w0: World, run: seq<Step>, w: World)
    requires Start(w0) && OrderlyRun(w0, run, w) && NoWindow(w)
    ensures SafeFrom(Apply(w, BumpNow(true))) <==> Trustworthy(w.snap.cached, w.db, w.snap.cachedExclude)
  {
    StartHolds(w0);
    RunKeepsInv(w0, run, w);
    var w' := Apply(w, BumpNow(true));
    if Trustworthy(w.snap.cached, w.db, w.snap.cachedExclude) {
      StepKeepsInv(w, BumpNow(true));
      InvIsSafe(w');
    } else {
      var id :| id in w.snap.cached && Complete(w.snap.cached[id]) && id in w.db.blobs
                && Data(w.snap.cached[id]) != Data(Project(w.db.blobs[id], Fields(w.snap.cachedExclude)));
      BumpedIsSpoiled(w, id);
    }
  }

  // ---------------------------------------------------------------- lost programs

  /** How a fetch ends whose id cache was emptied under it. */
  lemma {:induction false} FinishedEmptied(w: World, t: TaskId, pc: Pc)
    requires pc.Reading? && pc.incremental && w.snap.idCache == map[]
    ensures var w' := Finished(w, t, pc, {});
            && w'.lock.None? && w'.db == w.db && t in w'.tasks
            && if !(pc.removed <= pc.got.Keys) then w'.tasks[t] == Failed(KeyError) && w'.snap.idCache == pc.got
               else w'.tasks[t].Returned? && w'.tasks[t].programs == pc.got - pc.removed
                    && w'.tasks[t].exclude == pc.exclude && Hits(w'.snap, pc.exclude) && w'.snap.cached == w'.tasks[t].programs
  {
    assert map[] + pc.got == pc.got && pc.got - {} == pc.got;
  }

  /** A full bump while an incremental fetch waits for its programs: with no
      write at all, the fetch raises if it has an id to delete, and otherwise
      every program it did not ask for, though cached and stored, is missing
      from the list, which later calls then get as current. */
  lemma {:induction false} FullBumpLosesPrograms(w0: World, run: seq<Step>, w: World, t: TaskId, id: Id) returns (w': World)
    requires Start(w0) && OrderlyRun(w0, run, w)
    requires t in w.tasks && w.tasks[t].Reading? && w.tasks[t].incremental
    requires id in w.snap.idCache && id in w.db.blobs && id !in w.tasks[t].remaining && id !in w.tasks[t].got
    ensures Ends(Apply(w, BumpNow(false)), t, w') && w'.db == w.db && t in w'.tasks
    ensures w'.lock.None?
    ensures if w.tasks[t].removed != {} then w'.tasks[t] == Failed(KeyError) && w'.snap.idCache == AllRead(w.db, w.tasks[t]).got
            else w'.tasks[t].Returned? && id !in w'.tasks[t].programs
                 && Hits(w'.snap, w'.tasks[t].exclude) && w'.snap.cached == w'.tasks[t].programs
  {
    StartHolds(w0);
    RunKeepsInv(w0, run, w);
    var w1 := Apply(w, BumpNow(false));
    var pc := w.tasks[t];
    assert PcOk(w, pc);
    var read := AllRead(w.db, pc);
    w' := Finished(SetTask(w1, t, read), t, read, {});
    ReadOut(w1, t);
    FinishedEmptied(SetTask(w1, t, read), t, read);
    if pc.removed != {} {
      var gone :| gone in pc.removed;
      assert gone !in read.got;
    }
  }

  // ---------------------------------------------------------------- writes and open fetches

  /** If the fetch of t ends, its list is that of one scan since its first answer. */
  ghost predicate OneScan(w: World, t: TaskId, from: nat) {
    forall w' :: Ends(w, t, w') && t in w'.tasks && w'.tasks[t].Returned? ==>
      Fresh(w', w'.tasks[t].programs, w'.tasks[t].exclude, from)
  }

  lemma {:induction false} FinishedIsOneScan(w: World, t: TaskId, pc: Pc, deleted: set<Id>)
    requires pc.Reading? && pc.remaining == {} && PcOk(w, pc)
    ensures var w' := Finished(w, t, pc, deleted);
            w'.tasks[t].Returned? && Fresh(w', w'.tasks[t].programs, w'.tasks[t].exclude, pc.from)
  {
    var w' := Finished(w, t, pc, deleted);
    FinishedList(w, t, pc, deleted);
    assert w'.Version(pc.from) == w.Version(pc.from);
    assert SameData(w'.tasks[t].programs, Scan(w'.Version(pc.from), pc.exclude));
  }

  /** A fetch that has read everything has one more step. */
  lemma {:induction false} ReadFetchIsOneScan(w: World, t: TaskId)
    requires t in w.tasks && InWindow(w.tasks[t]) && PcOk(w, w.tasks[t]) && !StillReads(w.snap, w.tasks[t])
    ensures OneScan(w, t, w.tasks[t].from)
  {
    forall w' | Ends(w, t, w') && t in w'.tasks && w'.tasks[t].Returned?
      ensures Fresh(w', w'.tasks[t].programs, w'.tasks[t].exclude, w.tasks[t].from)
    {
      var steps: seq<Step> :| (forall s :: s in steps ==> OfFetch(s, t)) && Reaches(w, steps, w');
      assert steps[0] in steps;
      LastStep(w, t, steps[0]);
      OnlyStep(w, t, steps, w');
    }
  }

  lemma {:induction false} LastStep(w: World, t: TaskId, s: Step)
    requires t in w.tasks && InWindow(w.tasks[t]) && PcOk(w, w.tasks[t]) && !StillReads(w.snap, w.tasks[t])
    requires Enabled(w, s) && OfFetch(s, t)
    ensures var w' := Apply(w, s);
            w'.tasks[t].Returned? && Fresh(w', w'.tasks[t].programs, w'.tasks[t].exclude, w.tasks[t].from)
  {
    if s.Finish? {
      FinishedIsOneScan(w, t, w.tasks[t], s.deleted);
    } else {
      PlanKeepsOutcome(w, w.tasks[t]);
      FinishedIsOneScan(w, t, Planned(w.snap, w.tasks[t]), {});
    }
  }

  /** A task that has returned takes no further step of its fetch. */
  lemma {:induction false} NoStepLeft(w: World, t: TaskId, steps: seq<Step>, w': World)
    requires (forall s :: s in steps ==> OfFetch(s, t)) && Reaches(w, steps, w')
    requires t in w.tasks && w.tasks[t].Returned?
    ensures w' == w
  {
    assert forall i :: 0 <= i < |steps| ==> OfFetch(steps[i], t);
  }

  lemma {:induction false} OnlyStep(w: World, t: TaskId, steps: seq<Step>, w': World)
    requires steps != [] && (forall s :: s in steps ==> OfFetch(s, t)) && Reaches(w, steps, w')
    requires t in Apply(w, steps[0]).tasks && Apply(w, steps[0]).tasks[t].Returned?
    ensures w' == Apply(w, steps[0])
  {
    NoStepLeft(Apply(w, steps[0]), t, steps[1..], w');
  }

  /** A list is torn if it is neither the present scan nor the one before. */
  lemma {:induction false} TornList(w: World, db: Db, w': World, t: TaskId)
    requires t in w'.tasks && w'.tasks[t].Returned? && w'.past == w.past + [w.db] && w'.db == db
    requires !SameData(w'.tasks[t].programs, Scan(w.db, w'.tasks[t].exclude))
    requires !SameData(w'.tasks[t].programs, Scan(db, w'.tasks[t].exclude))
    ensures !Fresh(w', w'.tasks[t].programs, w'.tasks[t].exclude, |w.past|)
  {
    assert w'.Version(|w.past|) == w.db && w'.Version(|w.past| + 1) == db;
  }

  /** Two new programs of which the scan sees one. */
  function Both(x: Id, y: Id): Db {
    Db(map[x := Blank(x), y := Blank(y)], StatusSets(map[Done := {x, y}]), 0)
  }

  lemma {:induction false} BothIsAllowed(w: World, x: Id, y: Id)
    requires SnapOk(w) && x !in w.snap.idCache && y !in w.snap.idCache
    ensures WriteAllowed(w, Both(x, y))
  {
    forall id, s ensures id in Both(x, y).sets.At(s) <==> id in Both(x, y).blobs && Both(x, y).blobs[id].state == s {
    }
  }

  /** The scan finds x only. */
  lemma {:induction false} ScanMisses(w: World, t: TaskId, x: Id, y: Id) returns (w': World)
    requires t in w.tasks && w.tasks[t].Scanning? && w.db == Both(x, y) && x != y
    requires y !in w.tasks[t].found && Must(w, w.tasks[t].from) == {}
    ensures Ends(w, t, w') && w'.past == w.past && w'.db == w.db
    ensures t in w'.tasks && w'.tasks[t].Returned? && w'.tasks[t].exclude == w.tasks[t].exclude
    ensures x in w'.tasks[t].programs && y !in w'.tasks[t].programs
  {
    var w2 := Apply(w, ScanKeys(t, {x}));
    assert Must(w2, w.tasks[t].from) == {} by {
      assert forall k: nat :: w2.Version(k) == w.Version(k);
    }
    var w3 := Apply(w2, Resume(t));
    var read := AllRead(w3.db, w3.tasks[t]);
    w' := Finished(SetTask(w3, t, read), t, read, {});
    ReadOut(w3, t);
    EndsStep(w2, Resume(t), t, w');
    EndsStep(w, ScanKeys(t, {x}), t, w');
  }

  lemma {:induction false} ScanIsTorn(w: World, t: TaskId)
    requires Inv(w) && t in w.tasks && w.tasks[t].Scanning?
    ensures exists db :: WriteAllowed(w, db) && !OneScan(Apply(w, WriteNow(db)), t, w.tasks[t].from)
  {
    var pc := w.tasks[t];
    assert PcOk(w, pc);
    var x := FreshId(KnownIds(w, pc));
    var y := FreshId(KnownIds(w, pc) + {x});
    BothIsAllowed(w, x, y);
    var w1 := Apply(w, WriteNow(Both(x, y)));
    assert Must(w1, pc.from) == {} by {
      assert w1.Version(|w1.past|) == w1.db && w1.Version(pc.from) == w.db;
    }
    var w' := ScanMisses(w1, t, x, y);
    assert x !in Scan(w.db, pc.exclude) && y in Scan(w1.db, pc.exclude);
    TornList(w, w1.db, w', t);
  }

  /** A program yet to be read disappears, or changes, while another appears. */
  function Instead(snap: Snap, pc: Pc, db: Db, r: Id, x: Id): Db
    requires pc.Reading? && r in db.blobs
  {
    if r in Base(snap, pc) then
      var changed := db.blobs[r].(code := db.blobs[r].code + "a");
      Db(map[x := Blank(x)][r := changed], StatusSets(map[Done := {x}]).SAdd(changed.state, {r}), 0)
    else Only(x)
  }

  lemma {:induction false} InsteadIsIndexed(snap: Snap, pc: Pc, db: Db, r: Id, x: Id)
    requires pc.Reading? && r in db.blobs && x !in db.blobs
    ensures IndexInv(Instead(snap, pc, db, r, x))
  {
    var after := Instead(snap, pc, db, r, x);
    forall id, s ensures id in after.sets.At(s) <==> id in after.blobs && after.blobs[id].state == s {
    }
  }

  /** What the fetch makes of it is in neither scan. */
  lemma {:induction false} InsteadIsTorn(snap: Snap, pc: Pc, db: Db, r: Id, x: Id, list: Population)
    requires pc.Reading? && r in pc.remaining && r in db.blobs && x !in db.blobs && r !in pc.removed && r !in pc.got
    requires x !in Base(snap, pc) && x !in pc.remaining && x !in pc.got
    requires list == (Base(snap, pc) + AllRead(Instead(snap, pc, db, r, x), pc).got) - pc.removed
    ensures !SameData(list, Scan(db, pc.exclude)) && !SameData(list, Scan(Instead(snap, pc, db, r, x), pc.exclude))
  {
    var after := Instead(snap, pc, db, r, x);
    assert x !in list && x in Scan(after, pc.exclude);
    assert r in Scan(db, pc.exclude);
    if r in Base(snap, pc) {
      assert r in MGet(after, pc.remaining, pc.exclude);
      assert list[r] == Project(after.blobs[r], Fields(pc.exclude));
      assert |Data(list[r]).code| == |db.blobs[r].code| + 1;
    } else {
      assert r !in list;
    }
  }

  lemma {:induction false} ReadingIsTorn(w: World, t: TaskId, pc: Pc, w1: World, r: Id, x: Id)
    requires PcOk(w, pc) && pc.Reading? && r in pc.remaining && x !in KnownIds(w, pc) && r in w.db.blobs
    requires w1.db == Instead(w.snap, pc, w.db, r, x) && w1.past == w.past + [w.db] && w1.snap == w.snap
    requires t in w1.tasks && w1.tasks[t] == pc
    ensures !OneScan(w1, t, |w.past|)
  {
    var read := AllRead(w1.db, pc);
    var w2 := Finished(SetTask(w1, t, read), t, read, {});
    ReadOut(w1, t);
    assert pc.removed <= Base(w.snap, pc).Keys;
    InsteadIsTorn(w.snap, pc, w.db, r, x, w2.tasks[t].programs);
    TornList(w, w1.db, w2, t);
  }

  lemma {:induction false} InsteadIsAllowed(w: World, pc: Pc, r: Id, x: Id)
    requires SnapOk(w) && PcOk(w, pc) && pc.Reading? && r in pc.remaining && x !in KnownIds(w, pc) && r in w.db.blobs
    ensures WriteAllowed(w, Instead(w.snap, pc, w.db, r, x))
  {
    InsteadIsIndexed(w.snap, pc, w.db, r, x);
  }

  lemma {:induction false} OpenReadIsTorn(w: World, t: TaskId)
    requires Inv(w) && t in w.tasks && (w.tasks[t].Listed? || w.tasks[t].Reading?) && StillReads(w.snap, w.tasks[t])
    ensures exists db :: WriteAllowed(w, db) && !OneScan(Apply(w, WriteNow(db)), t, w.tasks[t].from)
  {
    var pc := w.tasks[t];
    assert PcOk(w, pc);
    var plan := if pc.Listed? then Planned(w.snap, pc) else pc;
    if pc.Listed? {
      PlanKeepsOutcome(w, pc);
    }
    assert PcOk(w, plan) && plan.from == |w.past|;
    var r :| r in plan.remaining;
    var x := FreshId(KnownIds(w, plan));
    var db := Instead(w.snap, plan, w.db, r, x);
    InsteadIsAllowed(w, plan, r, x);
    var w1 := Apply(w, WriteNow(db));
    if pc.Listed? {
      var w2 := Apply(w1, Resume(t));
      ReadingIsTorn(w, t, plan, w2, r, x);
      var w' :| Ends(w2, t, w') && t in w'.tasks && w'.tasks[t].Returned?
                && !Fresh(w', w'.tasks[t].programs, w'.tasks[t].exclude, |w.past|);
      EndsStep(w1, Resume(t), t, w');
    } else {
      ReadingIsTorn(w, t, plan, w1, r, x);
    }
  }

  /** A write while a fetch is open leaves its list that of one scan, whatever is
      written, exactly when the fetch has read all it needs. */
  lemma {:induction false} WriteIsSafeIff(w0: World, run: seq<Step>, w: World, t: TaskId)
    requires Start(w0) && OrderlyRun(w0, run, w) && t in w.tasks && InWindow(w.tasks[t])
    ensures (forall db :: WriteAllowed(w, db) ==> OneScan(Apply(w, WriteNow(db)), t, w.tasks[t].from))
            <==> !StillReads(w.snap, w.tasks[t])
  {
    StartHolds(w0);
    RunKeepsInv(w0, run, w);
    if !StillReads(w.snap, w.tasks[t]) {
      forall db | WriteAllowed(w, db) ensures OneScan(Apply(w, WriteNow(db)), t, w.tasks[t].from) {
        WriteKeepsPc(w, db, w.tasks[t]);
        ReadFetchIsOneScan(Apply(w, WriteNow(db)), t);
      }
    } else if w.tasks[t].Scanning? {
      ScanIsTorn(w, t);
    } else {
      OpenReadIsTorn(w, t);
    }
  }
}
