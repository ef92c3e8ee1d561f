/** What the lists of `PopulationSnapshot.get_all` are worth when bumps and
    writes come between the steps of a fetch
    (gigaevo/database/program_storage.py): the exact moments at which a bump or
    a write spoils a list, and coherence over every run that avoids them. */
module SnapshotCoherence {
  import opened Wrappers
  import opened Programs
  import opened Redis
  import opened PopulationSnapshots
  import opened SnapshotTasks

  // ---------------------------------------------------------------- what is promised

  /** The list is the data of a full scan of some version from `since` on. */
  ghost predicate Fresh(w: World, programs: Population, exclude: Exclude, since: nat) {
    exists k: nat :: since <= k <= |w.past| && SameData(programs, Scan(w.Version(k), exclude))
  }

  /** Every list returned is fresh as of the last bump before its call, and no
      call raised while editing the cache. */
  ghost predicate AllFresh(w: World) {
    forall t :: t in w.tasks ==>
      && (w.tasks[t].Returned? ==> Fresh(w, w.tasks[t].programs, w.tasks[t].exclude, w.tasks[t].since))
      && w.tasks[t] != Failed(KeyError)
  }

  // ---------------------------------------------------------------- what is asked of a run

  /** The fetch will still read programs from the store. */
  predicate StillReads(snap: Snap, pc: Pc) {
    || pc.Scanning?
    || (pc.Listed? && ToFetch(snap.idCache, pc.ids) != {})
    || (pc.Reading? && pc.remaining != {})
  }

  /** The next fetch of that projection will build on the id cache. */
  predicate Primed(snap: Snap) { snap.idCache != map[] && snap.cachedEpoch < snap.epoch }

  /** The index holds, and from an incremental bump to the fetch that serves it
      the stored programs that are cached as complete keep their data. */
  ghost predicate WriteAllowed(w: World, db: Db) {
    IndexInv(db) && (Primed(w.snap) ==> Trustworthy(w.snap.idCache, db, w.snap.cachedExclude))
  }

  ghost predicate NoWindow(w: World) { forall t :: t in w.tasks ==> !InWindow(w.tasks[t]) }

  ghost predicate NobodyReads(w: World) { forall t :: t in w.tasks ==> !StillReads(w.snap, w.tasks[t]) }

  /** No bump between the first answer to a fetch and its storing, and an
      incremental one only if no stored program cached as complete has changed
      its data. */
  ghost predicate BumpInOrder(w: World, incremental: bool) {
    NoWindow(w) && (incremental ==> Trustworthy(w.snap.cached, w.db, w.snap.cachedExclude))
  }

  /** Bumps in order, and no write while a fetch still reads. */
  ghost predicate Orderly(w: World, s: Step) {
    match s
    case WriteNow(db) => WriteAllowed(w, db) && NobodyReads(w)
    case BumpNow(incremental) => BumpInOrder(w, incremental)
    case _ => true
  }

  ghost predicate OrderlyRun(w: World, steps: seq<Step>, w': World)
    decreases |steps|
  {
    if steps == [] then w' == w
    else Enabled(w, steps[0]) && Orderly(w, steps[0]) && OrderlyRun(Apply(w, steps[0]), steps[1..], w')
  }

  // ---------------------------------------------------------------- invariants

  /** The list the fetch will return if it reads the rest from `db`. */
  function Outcome(snap: Snap, pc: Pc, db: Db): Population
    requires InWindow(pc)
  {
    if pc.Scanning? then Scan(db, pc.exclude)
    else if pc.Listed? then RefreshedFrom(snap.idCache, pc.ids, db, pc.exclude)
    else (Base(snap, pc) + (pc.got + MGet(db, pc.remaining, pc.exclude))) - pc.removed
  }

  /** The ids a fetch knows of come from the version of its first answer. */
  ghost predicate IdsOk(snap: Snap, pc: Pc, first: Db)
    requires InWindow(pc)
  {
    match pc
    case Scanning(_, _, _, found) => found <= first.blobs.Keys
    case Listed(_, _, _, ids) => ids == first.blobs.Keys
    case Reading(_, _, _, incremental, removed, remaining, got) =>
      && removed <= Base(snap, pc).Keys
      && remaining <= first.blobs.Keys && remaining !! removed && remaining !! got.Keys && removed !! got.Keys
      && (forall id :: id in remaining && id in Base(snap, pc) ==> !Complete(snap.idCache[id]))
  }

  ghost predicate WindowOk(w: World, pc: Pc)
    requires InWindow(pc)
  {
    && w.bumped <= pc.from <= |w.past|
    && (StillReads(w.snap, pc) ==> pc.from == |w.past|)
    && SameData(Outcome(w.snap, pc, w.Version(pc.from)), Scan(w.Version(pc.from), pc.exclude))
    && IdsOk(w.snap, pc, w.Version(pc.from))
  }

  predicate OnTheCache(pc: Pc) { pc.Listed? || ((pc.Asking? || pc.Reading?) && pc.incremental) }

  ghost predicate PcOk(w: World, pc: Pc) {
    && (pc.Waiting? || InFlight(pc) ==> pc.since <= w.bumped)
    && (OnTheCache(pc) ==> w.snap.cachedExclude == pc.exclude && w.snap.cachedEpoch < w.snap.epoch)
    && (InWindow(pc) ==> WindowOk(w, pc))
    && (pc.Returned? ==> Fresh(w, pc.programs, pc.exclude, pc.since))
    && pc != Failed(KeyError)
  }

  ghost predicate SnapOk(w: World) {
    && w.bumped <= |w.past|
    && w.snap.cachedEpoch <= w.snap.epoch
    && (w.snap.cachedEpoch == w.snap.epoch ==> Fresh(w, w.snap.cached, w.snap.cachedExclude, w.bumped))
    && (w.snap.idCache == map[] || w.snap.idCache == w.snap.cached)
    && (Primed(w.snap) ==> Trustworthy(w.snap.idCache, w.db, w.snap.cachedExclude))
  }

  /** The lock is held by the task that fetches, and by no other. */
  ghost predicate OneFlight(w: World) { forall t :: t in w.tasks && InFlight(w.tasks[t]) <==> w.lock == Some(t) }

  ghost predicate TasksOk(w: World) { forall t :: t in w.tasks ==> PcOk(w, w.tasks[t]) }

  ghost predicate Inv(w: World) {
    IndexInv(w.db) && SnapOk(w) && OneFlight(w) && TasksOk(w)
  }

  lemma {:induction false} StartHolds(w: World)
    requires Start(w)
    ensures Inv(w)
  {
  }

  // ---------------------------------------------------------------- frames

  /** Only the tasks, the lock and the fetch count differ. */
  ghost predicate SameStore(w: World, w': World) {
    w'.db == w.db && w'.past == w.past && w'.bumped == w.bumped && w'.snap == w.snap
  }

  lemma {:induction false} PcOkCarries(w: World, w': World, pc: Pc)
    requires PcOk(w, pc) && SameStore(w, w')
    ensures PcOk(w', pc)
  {
    assert forall k: nat :: w'.Version(k) == w.Version(k);
    if pc.Returned? {
      var k: nat :| pc.since <= k <= |w.past| && SameData(pc.programs, Scan(w.Version(k), pc.exclude));
      assert SameData(pc.programs, Scan(w'.Version(k), pc.exclude));
    }
  }

  lemma {:induction false} SnapOkCarries(w: World, w': World)
    requires SnapOk(w) && SameStore(w, w')
    ensures SnapOk(w')
  {
    assert forall k: nat :: w'.Version(k) == w.Version(k);
    if w.snap.cachedEpoch == w.snap.epoch {
      var k: nat :| w.bumped <= k <= |w.past| && SameData(w.snap.cached, Scan(w.Version(k), w.snap.cachedExclude));
      assert SameData(w.snap.cached, Scan(w'.Version(k), w.snap.cachedExclude));
    }
  }

  /** One task moves on; the store and the cache stay. */
  lemma {:induction false} MoveKeepsInv(w: World, w': World, t: TaskId, pc: Pc)
    requires Inv(w) && SameStore(w, w') && w'.tasks == w.tasks[t := pc]
    requires PcOk(w, pc) && (InFlight(pc) <==> w'.lock == Some(t))
    requires w'.lock == w.lock || (w.lock.None? && w'.lock == Some(t)) || (w.lock == Some(t) && w'.lock.None?)
    ensures Inv(w')
  {
    SnapOkCarries(w, w');
    forall u | u in w'.tasks ensures PcOk(w', w'.tasks[u]) {
      PcOkCarries(w, w', w'.tasks[u]);
    }
  }

  // ---------------------------------------------------------------- the steps of a task

  lemma {:induction false} CallKeepsInv(w: World, t: TaskId, exclude: Exclude)
    requires Inv(w) && Enabled(w, Call(t, exclude))
    ensures Inv(Apply(w, Call(t, exclude)))
  {
    MoveKeepsInv(w, Apply(w, Call(t, exclude)), t, Apply(w, Call(t, exclude)).tasks[t]);
  }

  lemma {:induction false} FreshEarlier(w: World, programs: Population, exclude: Exclude, since: nat, earlier: nat)
    requires Fresh(w, programs, exclude, since) && earlier <= since
    ensures Fresh(w, programs, exclude, earlier)
  {
    var k: nat :| since <= k <= |w.past| && SameData(programs, Scan(w.Version(k), exclude));
  }

  lemma {:induction false} AcquireKeepsInv(w: World, t: TaskId)
    requires Inv(w) && Enabled(w, Acquire(t))
    ensures Inv(Apply(w, Acquire(t)))
  {
    var pc := w.tasks[t];
    assert PcOk(w, pc);
    if Hits(w.snap, pc.exclude) {
      FreshEarlier(w, w.snap.cached, pc.exclude, w.bumped, pc.since);
    }
    MoveKeepsInv(w, Apply(w, Acquire(t)), t, Apply(w, Acquire(t)).tasks[t]);
  }

  lemma {:induction false} SameDataReflexive(a: Population)
    ensures SameData(a, a)
  {
  }

  lemma {:induction false} ScanKeysKeepsInv(w: World, t: TaskId, keys: set<Id>)
    requires Inv(w) && Enabled(w, ScanKeys(t, keys))
    ensures Inv(Apply(w, ScanKeys(t, keys)))
  {
    var w' := Apply(w, ScanKeys(t, keys));
    var pc := w.tasks[t];
    assert PcOk(w, pc);
    SameDataReflexive(Scan(w.db, pc.exclude));
    assert w.Version(|w.past|) == w.db;
    MoveKeepsInv(w, w', t, w'.tasks[t]);
  }

  lemma {:induction false} ListedOutcome(snap: Snap, pc: Pc, db: Db)
    requires pc.Listed? && pc.ids == db.sets.Union() && IndexInv(db) && Trustworthy(snap.idCache, db, pc.exclude)
    ensures SameData(Outcome(snap, pc, db), Scan(db, pc.exclude))
  {
    RefreshedByParts(snap.idCache, db, pc.exclude);
    IncrementalAgreesIff(snap.idCache, db, pc.exclude);
  }

  lemma {:induction false} ListedIsOk(w: World, pc: Pc)
    requires IndexInv(w.db) && SnapOk(w)
    requires pc.Listed? && pc.ids == w.db.sets.Union() && pc.from == |w.past|
    requires w.snap.cachedExclude == pc.exclude && w.snap.cachedEpoch < w.snap.epoch
    ensures WindowOk(w, pc)
  {
    assert w.Version(|w.past|) == w.db;
    ListedOutcome(w.snap, pc, w.db);
    IndexInvCounts(w.db);
  }

  lemma {:induction false} AnswerKeepsInv(w: World, t: TaskId)
    requires Inv(w) && Enabled(w, AnswerIds(t))
    ensures Inv(Apply(w, AnswerIds(t)))
  {
    var pc := w.tasks[t];
    assert PcOk(w, pc);
    var listed := Listed(pc.exclude, pc.since, |w.past|, w.db.sets.Union());
    ListedIsOk(w, listed);
    MoveKeepsInv(w, Apply(w, AnswerIds(t)), t, listed);
  }

  lemma {:induction false} FailKeepsInv(w: World, t: TaskId)
    requires Inv(w) && Enabled(w, Fail(t))
    ensures Inv(Apply(w, Fail(t)))
  {
    MoveKeepsInv(w, Apply(w, Fail(t)), t, Failed(StoreError));
  }

  lemma {:induction false} ReadInParts(db: Db, chunk: set<Id>, ids: set<Id>, exclude: Exclude)
    requires chunk <= ids
    ensures MGet(db, chunk, exclude) + MGet(db, ids - chunk, exclude) == MGet(db, ids, exclude)
  {
  }

  lemma {:induction false} Regroup(a: Population, b: Population, c: Population)
    ensures a + b + c == a + (b + c)
  {
  }

  /** Reading a chunk changes neither what the fetch will return nor, once it is
      through, what that depends on. */
  lemma {:induction false} ReadKeepsOutcome(snap: Snap, pc: Pc, chunk: set<Id>, db: Db)
    requires pc.Reading? && chunk <= pc.remaining && pc.remaining !! pc.got.Keys
    ensures var pc' := pc.(remaining := pc.remaining - chunk, got := pc.got + MGet(db, chunk, pc.exclude));
            Outcome(snap, pc', db) == Outcome(snap, pc, db)
  {
    ReadInParts(db, chunk, pc.remaining, pc.exclude);
    Regroup(pc.got, MGet(db, chunk, pc.exclude), MGet(db, pc.remaining - chunk, pc.exclude));
  }

  lemma {:induction false} ReadIsOk(w: World, pc: Pc, chunk: set<Id>)
    requires pc.Reading? && chunk != {} && chunk <= pc.remaining && WindowOk(w, pc)
    ensures WindowOk(w, pc.(remaining := pc.remaining - chunk, got := pc.got + MGet(w.db, chunk, pc.exclude)))
  {
    assert StillReads(w.snap, pc);
    assert w.Version(pc.from) == w.db;
    ReadKeepsOutcome(w.snap, pc, chunk, w.db);
  }

  lemma {:induction false} ReadKeepsInv(w: World, t: TaskId, chunk: set<Id>)
    requires Inv(w) && Enabled(w, Read(t, chunk))
    ensures Inv(Apply(w, Read(t, chunk)))
  {
    var pc := w.tasks[t];
    assert PcOk(w, pc);
    ReadIsOk(w, pc, chunk);
    MoveKeepsInv(w, Apply(w, Read(t, chunk)), t, Apply(w, Read(t, chunk)).tasks[t]);
  }

  lemma {:induction false} ScanPlanKeepsOutcome(snap: Snap, pc: Pc, db: Db)
    requires pc.Scanning? && pc.found == db.blobs.Keys
    ensures Outcome(snap, Planned(snap, pc), db) == Outcome(snap, pc, db)
  {
    var all := MGet(db, pc.found, pc.exclude);
    assert map[] + (map[] + all) == all;
    assert all - {} == all == Scan(db, pc.exclude);
  }

  lemma {:induction false} IdPlanKeepsOutcome(snap: Snap, pc: Pc, db: Db)
    requires pc.Listed?
    ensures Outcome(snap, Planned(snap, pc), db) == Outcome(snap, pc, db)
  {
    var fetched := MGet(db, ToFetch(snap.idCache, pc.ids), pc.exclude);
    assert map[] + fetched == fetched;
  }

  lemma {:induction false} PlanKeepsIds(snap: Snap, pc: Pc, first: Db)
    requires (pc.Listed? || pc.Scanning?) && IdsOk(snap, pc, first)
    ensures IdsOk(snap, Planned(snap, pc), first)
  {
    if pc.Listed? {
      ToFetchAre(snap.idCache, pc.ids);
    }
  }

  /** What is planned from the ids is what the ids promised. */
  lemma {:induction false} PlanKeepsOutcome(w: World, pc: Pc)
    requires (pc.Listed? || pc.Scanning?) && WindowOk(w, pc)
    requires pc.Scanning? ==> pc.found == w.Version(pc.from).blobs.Keys
    ensures WindowOk(w, Planned(w.snap, pc))
  {
    if pc.Scanning? {
      ScanPlanKeepsOutcome(w.snap, pc, w.Version(pc.from));
    } else {
      IdPlanKeepsOutcome(w.snap, pc, w.Version(pc.from));
    }
    PlanKeepsIds(w.snap, pc, w.Version(pc.from));
  }

  lemma {:induction false} PlanIsOk(w: World, t: TaskId)
    requires Inv(w) && Enabled(w, Resume(t))
    ensures PcOk(w, Planned(w.snap, w.tasks[t])) && Planned(w.snap, w.tasks[t]).from == w.tasks[t].from
  {
    var pc := w.tasks[t];
    assert PcOk(w, pc);
    if pc.Scanning? {
      assert pc.from == |w.past|;
      assert Must(w, pc.from) == w.db.blobs.Keys;
    }
    PlanKeepsOutcome(w, pc);
  }

  // ---------------------------------------------------------------- storing a list

  lemma {:induction false} NothingLeft(snap: Snap, pc: Pc, db: Db)
    requires pc.Reading? && pc.remaining == {}
    ensures Outcome(snap, pc, db) == (Base(snap, pc) + pc.got) - pc.removed
  {
    assert MGet(db, {}, pc.exclude) == map[];
    assert pc.got + map[] == pc.got;
  }

  /** Once everything is read the outcome is the list, whatever database is asked. */
  lemma {:induction false} FinishedList(w: World, t: TaskId, pc: Pc, deleted: set<Id>)
    requires pc.Reading? && pc.remaining == {} && PcOk(w, pc)
    ensures var w' := Finished(w, t, pc, deleted);
            && w'.tasks == w.tasks[t := Returned(pc.exclude, pc.since, Outcome(w.snap, pc, w.Version(pc.from)))]
            && w'.snap == StoreFetched(w.snap, pc.exclude, Outcome(w.snap, pc, w.Version(pc.from)), pc.incremental)
            && w'.lock.None? && w'.db == w.db && w'.past == w.past && w'.bumped == w.bumped
  {
    NothingLeft(w.snap, pc, w.Version(pc.from));
  }

  /** The lists already returned stay fresh when the cache changes. */
  lemma {:induction false} StoredElsewhere(w: World, w': World, pc: Pc)
    requires PcOk(w, pc) && !InFlight(pc) && w'.db == w.db && w'.past == w.past && w'.bumped == w.bumped
    ensures PcOk(w', pc)
  {
    assert forall k: nat :: w'.Version(k) == w.Version(k);
    if pc.Returned? {
      var k: nat :| pc.since <= k <= |w.past| && SameData(pc.programs, Scan(w.Version(k), pc.exclude));
      assert SameData(pc.programs, Scan(w'.Version(k), pc.exclude));
    }
  }

  lemma {:induction false} FinishKeepsInv(w: World, t: TaskId, pc: Pc, deleted: set<Id>)
    requires Inv(w) && t in w.tasks && InFlight(w.tasks[t])
    requires pc.Reading? && pc.remaining == {} && PcOk(w, pc)
    ensures Inv(Finished(w, t, pc, deleted))
  {
    var w' := Finished(w, t, pc, deleted);
    var programs := Outcome(w.snap, pc, w.Version(pc.from));
    FinishedList(w, t, pc, deleted);
    assert w'.Version(pc.from) == w.Version(pc.from);
    assert SameData(programs, Scan(w'.Version(pc.from), pc.exclude));
    forall u | u in w'.tasks ensures PcOk(w', w'.tasks[u]) {
      if u != t {
        assert PcOk(w, w.tasks[u]);
        StoredElsewhere(w, w', w.tasks[u]);
      }
    }
  }

  lemma {:induction false} ContinueKeepsInv(w: World, t: TaskId)
    requires Inv(w) && Enabled(w, Resume(t))
    ensures Inv(Apply(w, Resume(t)))
  {
    var plan := Planned(w.snap, w.tasks[t]);
    PlanIsOk(w, t);
    if plan.remaining == {} {
      FinishKeepsInv(w, t, plan, {});
    } else {
      MoveKeepsInv(w, Apply(w, Resume(t)), t, plan);
    }
  }

  // ---------------------------------------------------------------- writes and bumps

  lemma {:induction false} WriteKeepsPc(w: World, db: Db, pc: Pc)
    requires PcOk(w, pc) && !StillReads(w.snap, pc) && IndexInv(db)
    ensures PcOk(Apply(w, WriteNow(db)), pc)
  {
    var w' := Apply(w, WriteNow(db));
    assert forall k: nat :: k <= |w.past| ==> w'.Version(k) == w.Version(k);
    if pc.Returned? {
      var k: nat :| pc.since <= k <= |w.past| && SameData(pc.programs, Scan(w.Version(k), pc.exclude));
      assert SameData(pc.programs, Scan(w'.Version(k), pc.exclude));
    }
  }

  lemma {:induction false} WriteKeepsInv(w: World, db: Db)
    requires Inv(w) && Orderly(w, WriteNow(db))
    ensures Inv(Apply(w, WriteNow(db)))
  {
    var w' := Apply(w, WriteNow(db));
    forall t | t in w'.tasks ensures PcOk(w', w'.tasks[t]) {
      WriteKeepsPc(w, db, w.tasks[t]);
    }
    assert forall k: nat :: k <= |w.past| ==> w'.Version(k) == w.Version(k);
    if w.snap.cachedEpoch == w.snap.epoch {
      var k: nat :| w.bumped <= k <= |w.past| && SameData(w.snap.cached, Scan(w.Version(k), w.snap.cachedExclude));
      assert SameData(w.snap.cached, Scan(w'.Version(k), w.snap.cachedExclude));
    }
  }

  lemma {:induction false} BumpKeepsInv(w: World, incremental: bool)
    requires Inv(w) && Orderly(w, BumpNow(incremental))
    ensures Inv(Apply(w, BumpNow(incremental)))
  {
    var w' := Apply(w, BumpNow(incremental));
    assert forall k: nat :: w'.Version(k) == w.Version(k);
    forall t | t in w'.tasks ensures PcOk(w', w'.tasks[t]) {
      var pc := w.tasks[t];
      assert PcOk(w, pc);
      if pc.Returned? {
        var k: nat :| pc.since <= k <= |w.past| && SameData(pc.programs, Scan(w.Version(k), pc.exclude));
        assert SameData(pc.programs, Scan(w'.Version(k), pc.exclude));
      }
    }
  }

  lemma {:induction false} StepKeepsInv(w: World, s: Step)
    requires Inv(w) && Enabled(w, s) && Orderly(w, s)
    ensures Inv(Apply(w, s))
  {
    match s
    case Call(t, exclude) => CallKeepsInv(w, t, exclude);
    case Acquire(t) => AcquireKeepsInv(w, t);
    case ScanKeys(t, keys) => ScanKeysKeepsInv(w, t, keys);
    case AnswerIds(t) => AnswerKeepsInv(w, t);
    case Resume(t) => ContinueKeepsInv(w, t);
    case Read(t, chunk) => ReadKeepsInv(w, t, chunk);
    case Finish(t, deleted) => FinishKeepsInv(w, t, w.tasks[t], deleted);
    case Fail(t) => FailKeepsInv(w, t);
    case BumpNow(incremental) => BumpKeepsInv(w, incremental);
    case WriteNow(db) => WriteKeepsInv(w, db);
  }

  lemma {:induction false} RunKeepsInv(w: World, steps: seq<Step>, w': World)
    requires Inv(w) && OrderlyRun(w, steps, w')
    ensures Inv(w')
    decreases |steps|
  {
    if steps != [] {
      StepKeepsInv(w, steps[0]);
      RunKeepsInv(Apply(w, steps[0]), steps[1..], w');
    }
  }

  lemma {:induction false} InvIsFresh(w: World)
    requires Inv(w)
    ensures AllFresh(w)
  {
    forall t | t in w.tasks
      ensures w.tasks[t].Returned? ==> Fresh(w, w.tasks[t].programs, w.tasks[t].exclude, w.tasks[t].since)
      ensures w.tasks[t] != Failed(KeyError)
    {
      assert PcOk(w, w.tasks[t]);
    }
  }

  /** Over every orderly run of any number of tasks, each list returned, fetched
      either way or served from the cache, is the data of a full scan at or after
      the last bump before its call, and no call raises while editing the cache. */
  lemma {:induction false} FetchingReadsAreCoherent(w0: World, steps: seq<Step>, w: World)
    requires Start(w0) && OrderlyRun(w0, steps, w)
    ensures AllFresh(w)
  {
    StartHolds(w0);
    RunKeepsInv(w0, steps, w);
    InvIsFresh(w);
  }
}
