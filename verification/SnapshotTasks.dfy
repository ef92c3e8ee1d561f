/** Any number of tasks calling `PopulationSnapshot.get_all` at once
    (gigaevo/database/program_storage.py).

    A task runs without interruption between two awaits, and the store answers
    between them. A full fetch scans the keys and then reads the programs in
    chunks; an incremental one reads the ids of the status sets and then, in
    chunks, the programs it needs. Writers, bumps and store errors may come
    between any two steps. */
module SnapshotTasks {
  import opened Wrappers
  import opened Programs
  import opened Redis
  import opened PopulationSnapshots

  type TaskId = nat

  /** `since` is the version of the database at the last bump before the call,
      `from` the one the first answer to the fetch came from. */
  datatype Pc =
    | Waiting(exclude: Exclude, since: nat)
    | Asking(exclude: Exclude, since: nat, incremental: bool)
    | Scanning(exclude: Exclude, since: nat, from: nat, found: set<Id>)
    | Listed(exclude: Exclude, since: nat, from: nat, ids: set<Id>)
    | Reading(exclude: Exclude, since: nat, from: nat, incremental: bool, removed: set<Id>, remaining: set<Id>, got: Population)
    | Returned(exclude: Exclude, since: nat, programs: Population)
    | Failed(error: FetchError)

  /** All versions the database has had are kept for the statements below.
      `bumped` is the version at the last bump. */
  datatype World = World(
    db: Db, past: seq<Db>, bumped: nat,
    snap: Snap, tasks: map<TaskId, Pc>, lock: Option<TaskId>, fetches: nat)
  {
    function Version(k: nat): Db { if k < |past| then past[k] else db }
  }

  datatype Step =
    | Call(t: TaskId, exclude: Exclude)
    | Acquire(t: TaskId)
    | ScanKeys(t: TaskId, keys: set<Id>)
    | AnswerIds(t: TaskId)
    | Resume(t: TaskId)
    | Read(t: TaskId, chunk: set<Id>)
    | Finish(t: TaskId, deleted: set<Id>)
    | Fail(t: TaskId)
    | BumpNow(incremental: bool)
    | WriteNow(db: Db)

  // ---------------------------------------------------------------- steps

  predicate InWindow(pc: Pc) { pc.Scanning? || pc.Listed? || pc.Reading? }

  predicate InFlight(pc: Pc) { pc.Asking? || InWindow(pc) }

  /** The keys a scan may not miss: those that were there all along. */
  ghost function Must(w: World, from: nat): set<Id> {
    set id | id in w.Version(from).blobs && forall k: nat :: from <= k <= |w.past| ==> id in w.Version(k).blobs
  }

  function Base(snap: Snap, pc: Pc): Population { if pc.Reading? && pc.incremental then snap.idCache else map[] }

  ghost predicate Enabled(w: World, s: Step) {
    match s
    case Call(t, _) => t !in w.tasks || w.tasks[t].Returned? || w.tasks[t].Failed?
    case Acquire(t) => t in w.tasks && w.tasks[t].Waiting? && w.lock.None?
    case ScanKeys(t, keys) =>
      t in w.tasks && ((w.tasks[t].Asking? && !w.tasks[t].incremental) || w.tasks[t].Scanning?) && keys <= w.db.blobs.Keys
    case AnswerIds(t) => t in w.tasks && w.tasks[t].Asking? && w.tasks[t].incremental
    case Resume(t) => t in w.tasks && (w.tasks[t].Listed? || (w.tasks[t].Scanning? && Must(w, w.tasks[t].from) <= w.tasks[t].found))
    case Read(t, chunk) => t in w.tasks && w.tasks[t].Reading? && chunk != {} && chunk <= w.tasks[t].remaining
    case Finish(t, deleted) =>
      && t in w.tasks && w.tasks[t].Reading? && w.tasks[t].remaining == {}
      && deleted <= w.tasks[t].removed
    case Fail(t) => t in w.tasks && InFlight(w.tasks[t])
    case BumpNow(_) => true
    case WriteNow(_) => true
  }

  function SetTask(w: World, t: TaskId, pc: Pc): World { w.(tasks := w.tasks[t := pc]) }

  /** The end of a fetch: edit the id cache, store the list, release the lock. An
      id to delete that is gone raises, after `deleted` of them. */
  function Finished(w: World, t: TaskId, pc: Pc, deleted: set<Id>): World
    requires pc.Reading?
  {
    var updated := Base(w.snap, pc) + pc.got;
    if pc.removed <= updated.Keys then
      var programs := updated - pc.removed;
      SetTask(w.(snap := StoreFetched(w.snap, pc.exclude, programs, pc.incremental), lock := None), t,
              Returned(pc.exclude, pc.since, programs))
    else SetTask(w.(snap := w.snap.(idCache := updated - deleted), lock := None), t, Failed(KeyError))
  }

  /** With nothing to read the task does not wait for the store again. */
  function Continue(w: World, t: TaskId, pc: Pc): World
    requires pc.Reading?
  {
    if pc.remaining == {} then Finished(w, t, pc, {}) else SetTask(w, t, pc)
  }

  function Planned(snap: Snap, pc: Pc): Pc
    requires pc.Listed? || pc.Scanning?
  {
    if pc.Scanning? then Reading(pc.exclude, pc.since, pc.from, false, {}, pc.found, map[])
    else Reading(pc.exclude, pc.since, pc.from, true, snap.idCache.Keys - pc.ids, ToFetch(snap.idCache, pc.ids), map[])
  }

  function Apply(w: World, s: Step): World
    requires Enabled(w, s)
  {
    match s
    case Call(t, exclude) =>
      if Hits(w.snap, exclude) then SetTask(w, t, Returned(exclude, w.bumped, w.snap.cached))
      else SetTask(w, t, Waiting(exclude, w.bumped))
    case Acquire(t) =>
      var pc := w.tasks[t];
      if Hits(w.snap, pc.exclude) then SetTask(w, t, Returned(pc.exclude, pc.since, w.snap.cached))
      else SetTask(w.(lock := Some(t)), t, Asking(pc.exclude, pc.since, Incremental(w.snap, pc.exclude)))
    case ScanKeys(t, keys) =>
      var pc := w.tasks[t];
      if pc.Asking? then SetTask(w.(fetches := w.fetches + 1), t, Scanning(pc.exclude, pc.since, |w.past|, keys))
      else SetTask(w, t, pc.(found := pc.found + keys))
    case AnswerIds(t) =>
      var pc := w.tasks[t];
      SetTask(w.(fetches := w.fetches + 1), t, Listed(pc.exclude, pc.since, |w.past|, w.db.sets.Union()))
    case Resume(t) => Continue(w, t, Planned(w.snap, w.tasks[t]))
    case Read(t, chunk) =>
      var pc := w.tasks[t];
      SetTask(w, t, pc.(remaining := pc.remaining - chunk, got := pc.got + MGet(w.db, chunk, pc.exclude)))
    case Finish(t, deleted) => Finished(w, t, w.tasks[t], deleted)
    case Fail(t) => SetTask(w.(lock := None), t, Failed(StoreError))
    case BumpNow(incremental) => w.(snap := BumpSnap(w.snap, incremental), bumped := |w.past|)
    case WriteNow(db) => w.(past := w.past + [w.db], db := db)
  }

  ghost predicate Reaches(w: World, steps: seq<Step>, w': World)
    decreases |steps|
  {
    if steps == [] then w' == w
    else Enabled(w, steps[0]) && Reaches(Apply(w, steps[0]), steps[1..], w')
  }

  /** The step asks the store for a first answer. */
  ghost predicate IsFetch(w: World, s: Step) {
    (s.ScanKeys? || s.AnswerIds?) && s.t in w.tasks && w.tasks[s.t].Asking?
  }

  ghost function FetchCount(w: World, steps: seq<Step>): nat
    decreases |steps|
  {
    if steps == [] || !Enabled(w, steps[0]) then 0
    else (if IsFetch(w, steps[0]) then 1 else 0) + FetchCount(Apply(w, steps[0]), steps[1..])
  }

  lemma {:induction false} FetchesAreCounted(w: World, steps: seq<Step>, w': World)
    requires Reaches(w, steps, w')
    ensures w'.fetches == w.fetches + FetchCount(w, steps)
    decreases |steps|
  {
    if steps != [] {
      FetchesAreCounted(Apply(w, steps[0]), steps[1..], w');
    }
  }

  ghost predicate Start(w: World) {
    && IndexInv(w.db) && w.past == [] && w.bumped == 0
    && w.snap == EMPTY_SNAP && w.tasks == map[] && w.lock.None? && w.fetches == 0
  }

  // ---------------------------------------------------------------- one fetch per epoch

  /** One epoch: every caller asks for the same projection, nobody bumps, and the
      store does not fail. */
  ghost predicate OneEpoch(steps: seq<Step>, exclude: Exclude) {
    forall i :: 0 <= i < |steps| ==> EpochStep(steps[i], exclude)
  }

  ghost predicate EpochStep(s: Step, exclude: Exclude) {
    !s.BumpNow? && !s.Fail? && (s.Call? ==> s.exclude == exclude)
  }

  ghost predicate Quiet(w: World) { w.lock.None? && w.fetches == 0 && w.tasks == map[] }

  ghost predicate EpochTask(w: World, t: TaskId, exclude: Exclude) {
    t in w.tasks ==>
      var pc := w.tasks[t];
      && !pc.Failed?
      && (pc.Waiting? || InFlight(pc) ==> pc.exclude == exclude)
      && (InFlight(pc) ==> w.lock == Some(t))
      && (pc.Reading? ==> pc.removed <= Base(w.snap, pc).Keys)
      && (pc.Returned? ==> Hits(w.snap, exclude) && pc.programs == w.snap.cached)
  }

  ghost predicate EpochInv(w: World, exclude: Exclude, warm: bool) {
    && (forall t :: EpochTask(w, t, exclude))
    && (w.lock.Some? ==> w.lock.value in w.tasks && InFlight(w.tasks[w.lock.value]))
    && (warm ==> Hits(w.snap, exclude))
    && (if Hits(w.snap, exclude) then w.lock.None? && w.fetches == (if warm then 0 else 1)
        else w.fetches == (if w.lock.Some? && InWindow(w.tasks[w.lock.value]) then 1 else 0))
  }

  lemma {:induction false} EpochTaskStep(w: World, s: Step, t: TaskId, exclude: Exclude, warm: bool)
    requires EpochInv(w, exclude, warm) && Enabled(w, s) && EpochStep(s, exclude)
    ensures EpochTask(Apply(w, s), t, exclude)
  {
    assert EpochTask(w, t, exclude);
    if !s.WriteNow? && s.t in w.tasks {
      assert EpochTask(w, s.t, exclude);
    }
  }

  lemma {:induction false} EpochStepKeeps(w: World, s: Step, exclude: Exclude, warm: bool)
    requires EpochInv(w, exclude, warm) && Enabled(w, s) && EpochStep(s, exclude)
    ensures EpochInv(Apply(w, s), exclude, warm)
  {
    forall t ensures EpochTask(Apply(w, s), t, exclude) {
      EpochTaskStep(w, s, t, exclude, warm);
    }
    if !s.WriteNow? && s.t in w.tasks {
      assert EpochTask(w, s.t, exclude);
    }
  }

  lemma {:induction false} EpochRunKeeps(w: World, steps: seq<Step>, w': World, exclude: Exclude, warm: bool)
    requires EpochInv(w, exclude, warm) && Reaches(w, steps, w') && OneEpoch(steps, exclude)
    ensures EpochInv(w', exclude, warm)
    decreases |steps|
  {
    if steps != [] {
      assert EpochStep(steps[0], exclude);
      EpochStepKeeps(w, steps[0], exclude, warm);
      forall i | 0 <= i < |steps[1..]| ensures EpochStep(steps[1..][i], exclude) {
        assert steps[1..][i] == steps[i + 1];
      }
      EpochRunKeeps(Apply(w, steps[0]), steps[1..], w', exclude, warm);
    }
  }

  /** However many tasks call at once, an epoch costs at most one fetch: none if
      the cache was warm, exactly one as soon as anybody has an answer; and all
      callers get the same programs, whatever is written meanwhile. */
  lemma {:induction false} OneFetchPerEpoch(w0: World, steps: seq<Step>, w: World, exclude: Exclude)
    requires Quiet(w0) && Reaches(w0, steps, w) && OneEpoch(steps, exclude)
    ensures FetchCount(w0, steps) <= 1
    ensures Hits(w0.snap, exclude) ==> FetchCount(w0, steps) == 0
    ensures forall t :: t in w.tasks && w.tasks[t].Returned? ==>
              w.tasks[t].programs == w.snap.cached && (Hits(w0.snap, exclude) || FetchCount(w0, steps) == 1)
  {
    FetchesAreCounted(w0, steps, w);
    EpochRunKeeps(w0, steps, w, exclude, Hits(w0.snap, exclude));
    forall t | t in w.tasks && w.tasks[t].Returned?
      ensures w.tasks[t].programs == w.snap.cached && (Hits(w0.snap, exclude) || w.fetches == 1)
    {
      assert EpochTask(w, t, exclude);
    }
  }
}
