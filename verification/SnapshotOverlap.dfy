/** What the lists of `PopulationSnapshot.get_all` are worth when writes overlap
    the fetch (gigaevo/database/program_storage.py), as they do beside a running
    engine. Such a list need not be one scan, but each program in it is of some
    version since the last bump and no program stored all along is missing;
    and exactly when that fails. */
module SnapshotOverlaps {
  import opened Wrappers
  import opened Programs
  import opened Redis
  import opened PopulationSnapshots
  import opened SnapshotTasks
  import opened SnapshotCoherence
  import opened SnapshotExactness

  // ---------------------------------------------------------------- what is promised

  /** Some version from `since` on stored the program with this data. */
  ghost predicate SeenAt(w: World, p: Program, id: Id, exclude: Exclude, since: nat) {
    exists k: nat :: since <= k <= |w.past| && SeenIn(w.Version(k), p, id, exclude)
  }

  ghost predicate SeenIn(db: Db, p: Program, id: Id, exclude: Exclude) {
    id in db.blobs && Data(p) == Data(Project(db.blobs[id], Fields(exclude)))
  }

  /** Every version from `since` on stored the id. */
  ghost predicate Throughout(w: World, id: Id, since: nat) {
    forall k: nat :: since <= k <= |w.past| ==> id in w.Version(k).blobs
  }

  ghost predicate PieceByPiece(w: World, programs: Population, exclude: Exclude, since: nat) {
    && (forall id :: id in programs ==> SeenAt(w, programs[id], id, exclude, since))
    && (forall id :: Throughout(w, id, since) ==> id in programs)
  }

  /** Every list returned is so as of the last bump before its call, and no call
      raised while editing the cache. */
  ghost predicate AllPieces(w: World) {
    forall t :: t in w.tasks ==>
      && (w.tasks[t].Returned? ==> PieceByPiece(w, w.tasks[t].programs, w.tasks[t].exclude, w.tasks[t].since))
      && w.tasks[t] != Failed(KeyError)
  }

  // ---------------------------------------------------------------- what is asked of a run

  /** The programs a fetch has still to read, and the cached ones it started with. */
  function Awaited(snap: Snap, pc: Pc): set<Id> {
    if pc.Reading? then pc.remaining else if pc.Listed? then ToFetch(snap.idCache, pc.ids) else {}
  }

  function Kept(snap: Snap, pc: Pc): Population { if pc.Listed? then snap.idCache else Base(snap, pc) }

  /** A cached program that is to be read again is gone, and what is cached of it
      is older than the last bump. */
  ghost predicate Outdated(w: World, pc: Pc, id: Id) {
    && id in Awaited(w.snap, pc) && id !in w.db.blobs
    && id in Kept(w.snap, pc) && !SeenAt(w, Kept(w.snap, pc)[id], id, pc.exclude, w.bumped)
  }

  /** Bumps in order, any write that an incremental bump allows, and no chunk
      with an outdated program. */
  ghost predicate Tolerated(w: World, s: Step) {
    match s
    case WriteNow(db) => WriteAllowed(w, db)
    case BumpNow(incremental) => BumpInOrder(w, incremental)
    case Read(t, chunk) => t in w.tasks && forall id :: id in chunk ==> !Outdated(w, w.tasks[t], id)
    case _ => true
  }

  ghost predicate OverlapRun(w: World, steps: seq<Step>, w': World)
    decreases |steps|
  {
    if steps == [] then w' == w
    else Enabled(w, steps[0]) && Tolerated(w, steps[0]) && OverlapRun(Apply(w, steps[0]), steps[1..], w')
  }

  // ---------------------------------------------------------------- invariants

  /** What is certain of a listed program that will not be read again. */
  ghost predicate KeptOk(w: World, pc: Pc)
    requires pc.Listed?
  {
    && pc.ids == w.Version(pc.from).blobs.Keys
    && forall id :: id in w.snap.idCache && Complete(w.snap.idCache[id]) && id in pc.ids ==>
         SeenAt(w, w.snap.idCache[id], id, pc.exclude, w.bumped)
  }

  ghost predicate ReadingOk(w: World, pc: Pc)
    requires pc.Reading?
  {
    var base := Base(w.snap, pc);
    && pc.removed <= base.Keys && pc.remaining !! pc.removed && pc.removed !! pc.got.Keys && pc.remaining !! pc.got.Keys
    && (forall id :: id in pc.got ==> SeenAt(w, pc.got[id], id, pc.exclude, w.bumped))
    && (forall id :: id in base && id !in pc.removed + pc.remaining + pc.got.Keys ==> SeenAt(w, base[id], id, pc.exclude, w.bumped))
    && (forall id :: Throughout(w, id, w.bumped) ==> id !in pc.removed && id in pc.remaining + pc.got.Keys + base.Keys)
  }

  ghost predicate PieceOk(w: World, pc: Pc) {
    && (pc.Waiting? || InFlight(pc) ==> pc.since <= w.bumped)
    && (OnTheCache(pc) ==> w.snap.cachedExclude == pc.exclude && w.snap.cachedEpoch < w.snap.epoch)
    && (InWindow(pc) ==> w.bumped <= pc.from <= |w.past|)
    && (pc.Listed? ==> KeptOk(w, pc))
    && (pc.Reading? ==> ReadingOk(w, pc))
    && (pc.Returned? ==> PieceByPiece(w, pc.programs, pc.exclude, pc.since))
    && pc != Failed(KeyError)
  }

  ghost predicate CacheOk(w: World) {
    && w.bumped <= |w.past|
    && w.snap.cachedEpoch <= w.snap.epoch
    && (w.snap.cachedEpoch == w.snap.epoch ==> PieceByPiece(w, w.snap.cached, w.snap.cachedExclude, w.bumped))
    && (w.snap.idCache == map[] || w.snap.idCache == w.snap.cached)
    && (Primed(w.snap) ==> Trustworthy(w.snap.idCache, w.db, w.snap.cachedExclude))
  }

  ghost predicate PiecesOk(w: World) { forall t :: t in w.tasks ==> PieceOk(w, w.tasks[t]) }

  ghost predicate OverlapInv(w: World) {
    IndexInv(w.db) && CacheOk(w) && OneFlight(w) && PiecesOk(w)
  }

  lemma {:induction false} StartIsOk(w: World)
    requires Start(w)
    ensures OverlapInv(w)
  {
  }

  // ---------------------------------------------------------------- frames

  /** The same versions, and perhaps more. */
  ghost predicate Later(w: World, w': World) {
    |w.past| <= |w'.past| && forall k: nat :: k <= |w.past| ==> w'.Version(k) == w.Version(k)
  }

  lemma {:induction false} SeenLater(w: World, w': World, p: Program, id: Id, exclude: Exclude, since: nat, earlier: nat)
    requires Later(w, w') && SeenAt(w, p, id, exclude, since) && earlier <= since
    ensures SeenAt(w', p, id, exclude, earlier)
  {
    var k: nat :| since <= k <= |w.past| && SeenIn(w.Version(k), p, id, exclude);
    assert SeenIn(w'.Version(k), p, id, exclude);
  }

  lemma {:induction false} ThroughoutEarlier(w: World, w': World, id: Id, since: nat, earlier: nat)
    requires Later(w, w') && Throughout(w', id, earlier) && earlier <= since
    ensures Throughout(w, id, since)
  {
    forall k: nat | since <= k <= |w.past| ensures id in w.Version(k).blobs {
      assert w'.Version(k) == w.Version(k);
    }
  }

  lemma {:induction false} PiecesLater(w: World, w': World, programs: Population, exclude: Exclude, since: nat, earlier: nat)
    requires Later(w, w') && PieceByPiece(w, programs, exclude, since) && earlier <= since
    ensures PieceByPiece(w', programs, exclude, earlier)
  {
    forall id | id in programs ensures SeenAt(w', programs[id], id, exclude, earlier) {
      SeenLater(w, w', programs[id], id, exclude, since, earlier);
    }
    forall id | Throughout(w', id, earlier) ensures id in programs {
      ThroughoutEarlier(w, w', id, since, earlier);
    }
  }

  lemma {:induction false} ReadingLater(w: World, w': World, pc: Pc)
    requires Later(w, w') && pc.Reading? && ReadingOk(w, pc) && w'.snap == w.snap && w'.bumped == w.bumped
    ensures ReadingOk(w', pc)
  {
    var base := Base(w.snap, pc);
    forall id | id in pc.got ensures SeenAt(w', pc.got[id], id, pc.exclude, w.bumped) {
      SeenLater(w, w', pc.got[id], id, pc.exclude, w.bumped, w.bumped);
    }
    forall id | id in base && id !in pc.removed + pc.remaining + pc.got.Keys ensures SeenAt(w', base[id], id, pc.exclude, w.bumped) {
      SeenLater(w, w', base[id], id, pc.exclude, w.bumped, w.bumped);
    }
    forall id | Throughout(w', id, w.bumped) ensures Throughout(w, id, w.bumped) {
      ThroughoutEarlier(w, w', id, w.bumped, w.bumped);
    }
  }

  lemma {:induction false} KeptLater(w: World, w': World, pc: Pc)
    requires Later(w, w') && pc.Listed? && pc.from <= |w.past| && KeptOk(w, pc) && w'.snap == w.snap && w'.bumped == w.bumped
    ensures KeptOk(w', pc)
  {
    forall id | id in w.snap.idCache && Complete(w.snap.idCache[id]) && id in pc.ids
      ensures SeenAt(w', w.snap.idCache[id], id, pc.exclude, w.bumped)
    {
      SeenLater(w, w', w.snap.idCache[id], id, pc.exclude, w.bumped, w.bumped);
    }
  }

  lemma {:induction false} PieceOkLater(w: World, w': World, pc: Pc)
    requires Later(w, w') && PieceOk(w, pc) && w.bumped <= w'.bumped
    requires InFlight(pc) ==> w'.snap.idCache == w.snap.idCache && w'.snap == w.snap && w'.bumped == w.bumped
    ensures PieceOk(w', pc)
  {
    if pc.Returned? {
      PiecesLater(w, w', pc.programs, pc.exclude, pc.since, pc.since);
    } else if pc.Reading? {
      ReadingLater(w, w', pc);
    } else if pc.Listed? {
      KeptLater(w, w', pc);
    }
  }

  lemma {:induction false} CacheOkSame(w: World, w': World)
    requires CacheOk(w) && SameStore(w, w')
    ensures CacheOk(w') && Later(w, w')
  {
    assert forall k: nat :: w'.Version(k) == w.Version(k);
    if w.snap.cachedEpoch == w.snap.epoch {
      PiecesLater(w, w', w.snap.cached, w.snap.cachedExclude, w.bumped, w.bumped);
    }
  }

  /** One task moves on; the store and the cache stay. */
  lemma {:induction false} MoveIsOk(w: World, w': World, t: TaskId, pc: Pc)
    requires OverlapInv(w) && SameStore(w, w') && w'.tasks == w.tasks[t := pc]
    requires PieceOk(w, pc) && (InFlight(pc) <==> w'.lock == Some(t))
    requires w'.lock == w.lock || (w.lock.None? && w'.lock == Some(t)) || (w.lock == Some(t) && w'.lock.None?)
    ensures OverlapInv(w')
  {
    CacheOkSame(w, w');
    forall u | u in w'.tasks ensures PieceOk(w', w'.tasks[u]) {
      PieceOkLater(w, w', w'.tasks[u]);
    }
  }

  // ---------------------------------------------------------------- the steps of a task

  lemma {:induction false} SameWorldLater(w: World)
    ensures Later(w, w)
  {
  }

  lemma {:induction false} CallIsOk(w: World, t: TaskId, exclude: Exclude)
    requires OverlapInv(w) && Enabled(w, Call(t, exclude))
    ensures OverlapInv(Apply(w, Call(t, exclude)))
  {
    MoveIsOk(w, Apply(w, Call(t, exclude)), t, Apply(w, Call(t, exclude)).tasks[t]);
  }

  lemma {:induction false} AcquireIsOk(w: World, t: TaskId)
    requires OverlapInv(w) && Enabled(w, Acquire(t))
    ensures OverlapInv(Apply(w, Acquire(t)))
  {
    var pc := w.tasks[t];
    assert PieceOk(w, pc);
    if Hits(w.snap, pc.exclude) {
      SameWorldLater(w);
      PiecesLater(w, w, w.snap.cached, pc.exclude, w.bumped, pc.since);
    }
    MoveIsOk(w, Apply(w, Acquire(t)), t, Apply(w, Acquire(t)).tasks[t]);
  }

  lemma {:induction false} ScanKeysIsOk(w: World, t: TaskId, keys: set<Id>)
    requires OverlapInv(w) && Enabled(w, ScanKeys(t, keys))
    ensures OverlapInv(Apply(w, ScanKeys(t, keys)))
  {
    assert PieceOk(w, w.tasks[t]);
    MoveIsOk(w, Apply(w, ScanKeys(t, keys)), t, Apply(w, ScanKeys(t, keys)).tasks[t]);
  }

  /** The cache is current when the ids are read. */
  lemma {:induction false} ListedIsKept(w: World, pc: Pc)
    requires IndexInv(w.db) && CacheOk(w) && pc.Listed? && pc.ids == w.db.sets.Union() && pc.from == |w.past|
    requires w.snap.cachedExclude == pc.exclude && w.snap.cachedEpoch < w.snap.epoch
    ensures KeptOk(w, pc)
  {
    assert w.Version(|w.past|) == w.db;
    IndexInvCounts(w.db);
    forall id | id in w.snap.idCache && Complete(w.snap.idCache[id]) && id in pc.ids
      ensures SeenAt(w, w.snap.idCache[id], id, pc.exclude, w.bumped)
    {
      assert SeenIn(w.Version(|w.past|), w.snap.idCache[id], id, pc.exclude);
    }
  }

  lemma {:induction false} AnswerIsOk(w: World, t: TaskId)
    requires OverlapInv(w) && Enabled(w, AnswerIds(t))
    ensures OverlapInv(Apply(w, AnswerIds(t)))
  {
    var pc := w.tasks[t];
    assert PieceOk(w, pc);
    var listed := Listed(pc.exclude, pc.since, |w.past|, w.db.sets.Union());
    ListedIsKept(w, listed);
    MoveIsOk(w, Apply(w, AnswerIds(t)), t, listed);
  }

  lemma {:induction false} FailIsOk(w: World, t: TaskId)
    requires OverlapInv(w) && Enabled(w, Fail(t))
    ensures OverlapInv(Apply(w, Fail(t)))
  {
    MoveIsOk(w, Apply(w, Fail(t)), t, Failed(StoreError));
  }

  lemma {:induction false} ChunkIsSeen(w: World, pc: Pc, chunk: set<Id>, id: Id)
    requires w.bumped <= |w.past| && pc.Reading? && id in MGet(w.db, chunk, pc.exclude)
    ensures SeenAt(w, MGet(w.db, chunk, pc.exclude)[id], id, pc.exclude, w.bumped)
  {
    assert w.Version(|w.past|) == w.db;
    assert SeenIn(w.Version(|w.past|), MGet(w.db, chunk, pc.exclude)[id], id, pc.exclude);
  }

  /** A chunk brings what is stored now; a cached program that is gone keeps what
      it had, which the run has seen. */
  lemma {:induction false} ReadIsOk(w: World, pc: Pc, chunk: set<Id>)
    requires w.bumped <= |w.past| && pc.Reading? && chunk <= pc.remaining && ReadingOk(w, pc)
    requires forall id :: id in chunk ==> !Outdated(w, pc, id)
    ensures ReadingOk(w, pc.(remaining := pc.remaining - chunk, got := pc.got + MGet(w.db, chunk, pc.exclude)))
  {
    var pc' := pc.(remaining := pc.remaining - chunk, got := pc.got + MGet(w.db, chunk, pc.exclude));
    var base := Base(w.snap, pc);
    forall id | id in pc'.got ensures SeenAt(w, pc'.got[id], id, pc.exclude, w.bumped) {
      if id in chunk && id in w.db.blobs {
        ChunkIsSeen(w, pc, chunk, id);
      }
    }
    forall id | id in base && id !in pc'.removed + pc'.remaining + pc'.got.Keys ensures SeenAt(w, base[id], id, pc.exclude, w.bumped) {
      assert id in chunk ==> !Outdated(w, pc, id);
    }
    forall id | Throughout(w, id, w.bumped) ensures id in pc'.remaining + pc'.got.Keys + base.Keys {
      assert w.Version(|w.past|) == w.db;
    }
  }

  lemma {:induction false} ReadStepIsOk(w: World, t: TaskId, chunk: set<Id>)
    requires OverlapInv(w) && Enabled(w, Read(t, chunk)) && Tolerated(w, Read(t, chunk))
    ensures OverlapInv(Apply(w, Read(t, chunk)))
  {
    var pc := w.tasks[t];
    assert PieceOk(w, pc);
    ReadIsOk(w, pc, chunk);
    MoveIsOk(w, Apply(w, Read(t, chunk)), t, Apply(w, Read(t, chunk)).tasks[t]);
  }

  lemma {:induction false} ScanPlanIsOk(w: World, pc: Pc)
    requires pc.Scanning? && w.bumped <= pc.from <= |w.past| && Must(w, pc.from) <= pc.found
    ensures ReadingOk(w, Planned(w.snap, pc))
  {
    forall id | Throughout(w, id, w.bumped) ensures id in pc.found {
      assert id in Must(w, pc.from);
    }
  }

  lemma {:induction false} IdPlanIsOk(w: World, pc: Pc)
    requires pc.Listed? && w.bumped <= pc.from <= |w.past| && KeptOk(w, pc)
    ensures ReadingOk(w, Planned(w.snap, pc))
  {
    forall id | Throughout(w, id, w.bumped) ensures id in pc.ids {
      assert id in w.Version(pc.from).blobs;
    }
  }

  lemma {:induction false} PlanIsPieceOk(w: World, t: TaskId)
    requires OverlapInv(w) && Enabled(w, Resume(t))
    ensures PieceOk(w, Planned(w.snap, w.tasks[t]))
  {
    var pc := w.tasks[t];
    assert PieceOk(w, pc);
    if pc.Scanning? {
      ScanPlanIsOk(w, pc);
    } else {
      IdPlanIsOk(w, pc);
    }
  }

  // ---------------------------------------------------------------- storing a list

  lemma {:induction false} ListIsPieces(w: World, pc: Pc)
    requires pc.Reading? && pc.remaining == {} && ReadingOk(w, pc)
    ensures PieceByPiece(w, (Base(w.snap, pc) + pc.got) - pc.removed, pc.exclude, w.bumped)
  {
    var list := (Base(w.snap, pc) + pc.got) - pc.removed;
    forall id | id in list ensures SeenAt(w, list[id], id, pc.exclude, w.bumped) {
    }
    forall id | Throughout(w, id, w.bumped) ensures id in list {
    }
  }

  lemma {:induction false} FinishIsOk(w: World, t: TaskId, pc: Pc, deleted: set<Id>)
    requires OverlapInv(w) && t in w.tasks && InFlight(w.tasks[t])
    requires pc.Reading? && pc.remaining == {} && PieceOk(w, pc)
    ensures OverlapInv(Finished(w, t, pc, deleted))
  {
    var w' := Finished(w, t, pc, deleted);
    var list := (Base(w.snap, pc) + pc.got) - pc.removed;
    ListIsPieces(w, pc);
    assert Later(w, w');
    PiecesLater(w, w', list, pc.exclude, w.bumped, w.bumped);
    PiecesLater(w, w', list, pc.exclude, w.bumped, pc.since);
    forall u | u in w'.tasks ensures PieceOk(w', w'.tasks[u]) {
      if u != t {
        assert PieceOk(w, w.tasks[u]);
        PieceOkLater(w, w', w.tasks[u]);
      }
    }
  }

  lemma {:induction false} ResumeIsOk(w: World, t: TaskId)
    requires OverlapInv(w) && Enabled(w, Resume(t))
    ensures OverlapInv(Apply(w, Resume(t)))
  {
    var plan := Planned(w.snap, w.tasks[t]);
    PlanIsPieceOk(w, t);
    if plan.remaining == {} {
      FinishIsOk(w, t, plan, {});
    } else {
      MoveIsOk(w, Apply(w, Resume(t)), t, plan);
    }
  }

  // ---------------------------------------------------------------- writes and bumps

  lemma {:induction false} WriteIsOk(w: World, db: Db)
    requires OverlapInv(w) && WriteAllowed(w, db)
    ensures OverlapInv(Apply(w, WriteNow(db)))
  {
    var w' := Apply(w, WriteNow(db));
    assert Later(w, w');
    forall t | t in w'.tasks ensures PieceOk(w', w'.tasks[t]) {
      PieceOkLater(w, w', w.tasks[t]);
    }
    if w.snap.cachedEpoch == w.snap.epoch {
      PiecesLater(w, w', w.snap.cached, w.snap.cachedExclude, w.bumped, w.bumped);
    }
  }

  lemma {:induction false} BumpIsOk(w: World, incremental: bool)
    requires OverlapInv(w) && BumpInOrder(w, incremental)
    ensures OverlapInv(Apply(w, BumpNow(incremental)))
  {
    var w' := Apply(w, BumpNow(incremental));
    assert Later(w, w');
    forall t | t in w'.tasks ensures PieceOk(w', w'.tasks[t]) {
      var pc := w.tasks[t];
      assert PieceOk(w, pc);
      if pc.Returned? {
        PiecesLater(w, w', pc.programs, pc.exclude, pc.since, pc.since);
      }
    }
  }

  lemma {:induction false} ToleratedIsOk(w: World, s: Step)
    requires OverlapInv(w) && Enabled(w, s) && Tolerated(w, s)
    ensures OverlapInv(Apply(w, s))
  {
    match s
    case Call(t, exclude) => CallIsOk(w, t, exclude);
    case Acquire(t) => AcquireIsOk(w, t);
    case ScanKeys(t, keys) => ScanKeysIsOk(w, t, keys);
    case AnswerIds(t) => AnswerIsOk(w, t);
    case Resume(t) => ResumeIsOk(w, t);
    case Read(t, chunk) => ReadStepIsOk(w, t, chunk);
    case Finish(t, deleted) => FinishIsOk(w, t, w.tasks[t], deleted);
    case Fail(t) => FailIsOk(w, t);
    case BumpNow(incremental) => BumpIsOk(w, incremental);
    case WriteNow(db) => WriteIsOk(w, db);
  }

  lemma {:induction false} OverlapRunIsOk(w: World, steps: seq<Step>, w': World)
    requires OverlapInv(w) && OverlapRun(w, steps, w')
    ensures OverlapInv(w')
    decreases |steps|
  {
    if steps != [] {
      ToleratedIsOk(w, steps[0]);
      OverlapRunIsOk(Apply(w, steps[0]), steps[1..], w');
    }
  }

  lemma {:induction false} OkIsAllPieces(w: World)
    requires OverlapInv(w)
    ensures AllPieces(w)
  {
    forall t | t in w.tasks
      ensures w.tasks[t].Returned? ==> PieceByPiece(w, w.tasks[t].programs, w.tasks[t].exclude, w.tasks[t].since)
      ensures w.tasks[t] != Failed(KeyError)
    {
      assert PieceOk(w, w.tasks[t]);
    }
  }

  /** Over every run with bumps in order, whatever is written during the fetches,
      each program in a list returned has the data of a version at or after the
      last bump before the call, and every program stored since then is listed;
      as long as no cached program that is to be read again vanishes first while
      what is cached of it is older than the bump. */
  lemma {:induction false} OverlappedReadsAreCoherent(w0: World, steps: seq<Step>, w: World)
    requires Start(w0) && OverlapRun(w0, steps, w)
    ensures AllPieces(w)
  {
    StartIsOk(w0);
    OverlapRunIsOk(w0, steps, w);
    OkIsAllPieces(w);
  }

  // ---------------------------------------------------------------- exactly when it fails

  ghost predicate NoneOutdated(w: World) {
    forall t, id :: t in w.tasks ==> !Outdated(w, w.tasks[t], id)
  }

  lemma {:induction false} SeenSame(w: World, w': World, p: Program, id: Id, exclude: Exclude)
    requires SameStore(w, w')
    ensures SeenAt(w', p, id, exclude, w'.bumped) <==> SeenAt(w, p, id, exclude, w.bumped)
  {
    assert forall k: nat :: w'.Version(k) == w.Version(k);
    if SeenAt(w', p, id, exclude, w'.bumped) {
      SeenLater(w', w, p, id, exclude, w.bumped, w.bumped);
    }
    if SeenAt(w, p, id, exclude, w.bumped) {
      SeenLater(w, w', p, id, exclude, w.bumped, w.bumped);
    }
  }

  /** Awaiting less of the same cache is no worse. */
  lemma {:induction false} MoveStaysCurrent(w: World, w': World, t: TaskId, pc: Pc)
    requires NoneOutdated(w) && SameStore(w, w') && w'.tasks == w.tasks[t := pc]
    requires forall id :: !Outdated(w, pc, id)
    ensures NoneOutdated(w')
  {
    forall u, id | u in w'.tasks ensures !Outdated(w', w'.tasks[u], id) {
      var pc' := w'.tasks[u];
      assert !Outdated(w, pc', id);
      if id in Kept(w.snap, pc') {
        SeenSame(w, w', Kept(w.snap, pc')[id], id, pc'.exclude);
      }
    }
  }

  lemma {:induction false} FinishStaysCurrent(w: World, t: TaskId, pc: Pc, deleted: set<Id>)
    requires OverlapInv(w) && w.lock == Some(t) && pc.Reading? && PieceOk(w, pc)
    ensures NoneOutdated(Finished(w, t, pc, deleted))
  {
    var w' := Finished(w, t, pc, deleted);
    forall u, id | u in w'.tasks ensures !Outdated(w', w'.tasks[u], id) {
      assert u != t ==> !InFlight(w.tasks[u]);
    }
  }

  lemma {:induction false} PlanStaysCurrent(w: World, pc: Pc, id: Id)
    requires (pc.Listed? || pc.Scanning?) && !Outdated(w, pc, id)
    ensures !Outdated(w, Planned(w.snap, pc), id)
  {
  }

  lemma {:induction false} TaskStaysCurrent(w: World, s: Step)
    requires OverlapInv(w) && NoneOutdated(w) && Enabled(w, s) && OfTask(s)
    ensures Tolerated(w, s) && NoneOutdated(Apply(w, s))
  {
    var w' := Apply(w, s);
    if s.Finish? {
      FinishStaysCurrent(w, s.t, w.tasks[s.t], s.deleted);
    } else if s.Resume? {
      var plan := Planned(w.snap, w.tasks[s.t]);
      PlanIsPieceOk(w, s.t);
      if plan.remaining == {} {
        FinishStaysCurrent(w, s.t, plan, {});
      } else {
        forall id ensures !Outdated(w, plan, id) {
          PlanStaysCurrent(w, w.tasks[s.t], id);
        }
        MoveStaysCurrent(w, w', s.t, plan);
      }
    } else {
      OtherStepsStayCurrent(w, s);
    }
  }

  lemma {:induction false} AnswerIsCurrent(w: World, pc: Pc, id: Id)
    requires IndexInv(w.db) && pc.Listed? && pc.ids == w.db.sets.Union()
    ensures !Outdated(w, pc, id)
  {
    IndexInvCounts(w.db);
  }

  lemma {:induction false} ReadLeavesLess(w: World, pc: Pc, chunk: set<Id>, id: Id)
    requires pc.Reading? && !Outdated(w, pc, id)
    ensures !Outdated(w, pc.(remaining := pc.remaining - chunk, got := pc.got + MGet(w.db, chunk, pc.exclude)), id)
  {
  }

  lemma {:induction false} OtherStepsStayCurrent(w: World, s: Step)
    requires OverlapInv(w) && NoneOutdated(w) && Enabled(w, s) && OfTask(s) && !s.Finish? && !s.Resume?
    ensures NoneOutdated(Apply(w, s))
  {
    var w' := Apply(w, s);
    var pc := w'.tasks[s.t];
    forall id ensures !Outdated(w, pc, id) {
      if s.AnswerIds? {
        AnswerIsCurrent(w, pc, id);
      } else if s.Read? {
        ReadLeavesLess(w, w.tasks[s.t], s.chunk, id);
      }
    }
    MoveStaysCurrent(w, w', s.t, pc);
  }

  lemma {:induction false} CurrentTasksAreOk(w: World, steps: seq<Step>, w': World)
    requires OverlapInv(w) && NoneOutdated(w) && (forall s :: s in steps ==> OfTask(s)) && Reaches(w, steps, w')
    ensures OverlapInv(w')
    decreases |steps|
  {
    if steps != [] {
      assert steps[0] in steps;
      TaskStaysCurrent(w, steps[0]);
      ToleratedIsOk(w, steps[0]);
      forall s | s in steps[1..] ensures OfTask(s) {
        assert s in steps;
      }
      CurrentTasksAreOk(Apply(w, steps[0]), steps[1..], w');
    }
  }

  /** The fetch has ended with what was cached of the program. */
  ghost predicate EndedWith(w: World, w': World, t: TaskId, id: Id, p: Program, exclude: Exclude) {
    && t in w'.tasks && w'.tasks[t].Returned? && id in w'.tasks[t].programs && w'.tasks[t].programs[id] == p
    && w'.tasks[t].exclude == exclude && Hits(w'.snap, exclude) && w'.snap.cached == w'.tasks[t].programs
    && w'.db == w.db && w'.past == w.past && w'.bumped == w.bumped
  }

  lemma {:induction false} ReadingEndsWith(w: World, t: TaskId, id: Id) returns (w': World)
    requires t in w.tasks && w.tasks[t].Reading? && ReadingOk(w, w.tasks[t]) && Outdated(w, w.tasks[t], id)
    ensures Ends(w, t, w') && EndedWith(w, w', t, id, Kept(w.snap, w.tasks[t])[id], w.tasks[t].exclude)
  {
    var read := AllRead(w.db, w.tasks[t]);
    w' := Finished(SetTask(w, t, read), t, read, {});
    ReadOut(w, t);
  }

  lemma {:induction false} OpenEndsWith(w: World, t: TaskId, id: Id) returns (w': World)
    requires OverlapInv(w) && t in w.tasks && Outdated(w, w.tasks[t], id)
    ensures Ends(w, t, w') && EndedWith(w, w', t, id, Kept(w.snap, w.tasks[t])[id], w.tasks[t].exclude)
  {
    var pc := w.tasks[t];
    assert PieceOk(w, pc);
    if pc.Reading? {
      w' := ReadingEndsWith(w, t, id);
    } else {
      var w1 := Apply(w, Resume(t));
      ResumeIsOk(w, t);
      assert PieceOk(w1, w1.tasks[t]);
      SeenSame(w, w1, Kept(w.snap, pc)[id], id, pc.exclude);
      w' := ReadingEndsWith(w1, t, id);
      EndsStep(w, Resume(t), t, w');
    }
  }

  /** A later call gets it. */
  lemma {:induction false} OldPieceIsServed(w: World, w': World, t: TaskId, id: Id, p: Program, exclude: Exclude)
    requires EndedWith(w, w', t, id, p, exclude) && !SeenAt(w, p, id, exclude, w.bumped)
    ensures exists w'' :: Can(w', w'') && !AllPieces(w'')
  {
    var w'' := Apply(w', Call(t, exclude));
    CanStay(w'');
    CanStep(w', Call(t, exclude), w'');
    assert forall k: nat :: w''.Version(k) == w.Version(k);
    if SeenAt(w'', p, id, exclude, w.bumped) {
      SeenLater(w'', w, p, id, exclude, w.bumped, w.bumped);
    } else {
      assert !PieceByPiece(w'', w''.tasks[t].programs, exclude, w.bumped);
    }
  }

  /** From such a state every list the tasks go on to return is of programs as of
      the last bump, whatever they do, exactly when no cached program that is to
      be read again has vanished while what is cached of it is older. */
  lemma {:induction false} OverlapIsCoherentIff(w0: World, run: seq<Step>, w: World)
    requires Start(w0) && OverlapRun(w0, run, w)
    ensures (forall w' :: Can(w, w') ==> AllPieces(w')) <==> NoneOutdated(w)
  {
    StartIsOk(w0);
    OverlapRunIsOk(w0, run, w);
    if NoneOutdated(w) {
      forall w' | Can(w, w') ensures AllPieces(w') {
        var steps: seq<Step> :| (forall s :: s in steps ==> OfTask(s)) && Reaches(w, steps, w');
        CurrentTasksAreOk(w, steps, w');
        OkIsAllPieces(w');
      }
    } else {
      var t, id :| t in w.tasks && Outdated(w, w.tasks[t], id);
      var w1 := OpenEndsWith(w, t, id);
      OldPieceIsServed(w, w1, t, id, Kept(w.snap, w.tasks[t])[id], w.tasks[t].exclude);
      var w2 :| Can(w1, w2) && !AllPieces(w2);
      EndsThenCan(w, t, w1, w2);
    }
  }

  /** The write that does it: a program cached as incomplete, whose data has
      changed before the last bump, is deleted between the two reads. */
  lemma {:induction false} DeletionOutdates(w0: World, run: seq<Step>, w: World, t: TaskId, id: Id)
    requires Start(w0) && OverlapRun(w0, run, w) && t in w.tasks
    requires var pc := w.tasks[t];
             && id in Awaited(w.snap, pc) && id in Kept(w.snap, pc)
             && !SeenAt(w, Kept(w.snap, pc)[id], id, pc.exclude, w.bumped)
    ensures var deletion := WriteNow(RemoveDb(w.db, id));
            Tolerated(w, deletion) && Outdated(Apply(w, deletion), w.tasks[t], id)
  {
    StartIsOk(w0);
    OverlapRunIsOk(w0, run, w);
    RemoveKeepsIndex(w.db, id);
    var w' := Apply(w, WriteNow(RemoveDb(w.db, id)));
    var pc := w.tasks[t];
    forall k: nat | w.bumped <= k <= |w'.past| ensures !SeenIn(w'.Version(k), Kept(w.snap, pc)[id], id, pc.exclude) {
      if k <= |w.past| {
        assert w'.Version(k) == w.Version(k);
      }
    }
  }
}
