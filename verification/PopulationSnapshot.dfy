/** The epoch cache in front of a full scan of the store
    (gigaevo/database/program_storage.py, PopulationSnapshot).

    A fetched list is viewed as a map from ids to programs, because the scan
    order of Redis is unspecified. */
module PopulationSnapshots {
  import opened Wrappers
  import opened ProgramStates
  import opened Programs
  import opened Redis

  type Exclude = Option<set<Field>>

  type Population = map<Id, Program>

  datatype Snap = Snap(epoch: nat, cachedEpoch: int, cachedExclude: Exclude, cached: Population, idCache: Population)

  /** An incremental fetch can raise while editing the id cache; any fetch can
      fail in the store. */
  datatype FetchError = KeyError | StoreError

  const EMPTY_SNAP := Snap(0, -1, None, map[], map[])

  function Fields(exclude: Exclude): set<Field> { if exclude.Some? then exclude.value else {} }

  /** What a full scan returns. */
  function Scan(db: Db, exclude: Exclude): Population {
    map id | id in db.blobs :: Project(db.blobs[id], Fields(exclude))
  }

  /** A program in one of these two states is stable and is not read again. */
  predicate Complete(p: Program) { p.state == Done || p.state == Discarded }

  predicate Excluded(exclude: Exclude, field: Field) { exclude.Some? && field in exclude.value }

  /** `p` is the stored program with the excluded fields at their defaults. */
  ghost predicate ReadOf(p: Program, stored: Program, exclude: Exclude) {
    && p.id == stored.id && p.code == stored.code && p.state == stored.state && p.lineage == stored.lineage
    && p.iteration == stored.iteration && p.createdAt == stored.createdAt && p.atomicCounter == stored.atomicCounter
    && (if Excluded(exclude, StageResultsField) then p.stageResults == map[] else p.stageResults == stored.stageResults)
    && (if Excluded(exclude, MetadataField) then p.metadata == map[] else p.metadata == stored.metadata)
    && (if Excluded(exclude, MetricsField) then p.metrics == map[] else p.metrics == stored.metrics)
    && (if Excluded(exclude, NameField) then p.name == None else p.name == stored.name)
  }

  // ---------------------------------------------------------------- the two operations, on values

  function BumpSnap(s: Snap, incremental: bool): Snap {
    var idCache := if !incremental then map[] else if s.idCache == map[] && s.cached != map[] then s.cached else s.idCache;
    s.(epoch := s.epoch + 1, idCache := idCache)
  }

  predicate Hits(s: Snap, exclude: Exclude) { s.cachedEpoch == s.epoch && s.cachedExclude == exclude }

  predicate Incremental(s: Snap, exclude: Exclude) { s.idCache != map[] && s.cachedExclude == exclude }

  /** Cached programs whose id left the status sets are dropped, new and
      incomplete ones are fetched, complete ones are kept as they are. */
  function Refreshed(idCache: Population, db: Db, exclude: Exclude): Population {
    map id | id in idCache.Keys + db.blobs.Keys && id in db.sets.Union() ::
      if id in idCache && (Complete(idCache[id]) || id !in db.blobs) then idCache[id] else Project(db.blobs[id], Fields(exclude))
  }

  function Stale(idCache: Population, currentIds: set<Id>): set<Id> {
    set id | id in idCache && idCache[id].state in INCOMPLETE_STATES && id in currentIds
  }

  function MGet(db: Db, ids: set<Id>, exclude: Exclude): Population {
    map id | id in ids && id in db.blobs :: Project(db.blobs[id], Fields(exclude))
  }

  /** What an incremental fetch asks the store for: new ids, and ids cached in an
      incomplete state. */
  function ToFetch(idCache: Population, ids: set<Id>): set<Id> { (ids - idCache.Keys) + Stale(idCache, ids) }

  lemma {:induction false} ToFetchAre(idCache: Population, ids: set<Id>)
    ensures forall id :: id in ToFetch(idCache, ids) <==> id in ids && (id in idCache ==> !Complete(idCache[id]))
  {
    forall id ensures id in ToFetch(idCache, ids) <==> id in ids && (id in idCache ==> !Complete(idCache[id])) {
      assert id in idCache ==> (idCache[id].state in INCOMPLETE_STATES <==> !Complete(idCache[id]));
    }
  }

  /** The incremental fetch step by step, its ids read first and its programs
      later, perhaps from another database: overwrite, then delete the ids that
      were gone. */
  function RefreshedFrom(idCache: Population, ids: set<Id>, db: Db, exclude: Exclude): Population {
    (idCache + MGet(db, ToFetch(idCache, ids), exclude)) - (idCache.Keys - ids)
  }

  /** Read at one moment, the steps amount to the refresh. */
  lemma {:induction false} RefreshedByParts(idCache: Population, db: Db, exclude: Exclude)
    ensures RefreshedFrom(idCache, db.sets.Union(), db, exclude) == Refreshed(idCache, db, exclude)
  {
    var ids := db.sets.Union();
    var parts, whole := RefreshedFrom(idCache, ids, db, exclude), Refreshed(idCache, db, exclude);
    assert parts.Keys == whole.Keys;
    forall id | id in parts ensures parts[id] == whole[id] {
      assert id in Stale(idCache, ids) <==> id in idCache && !Complete(idCache[id]) && id in ids;
    }
  }

  /** What a fetch brings that reads its ids from one database and its programs
      from another. */
  function FetchFrom(s: Snap, idsDb: Db, readDb: Db, exclude: Exclude): Population {
    if Incremental(s, exclude) then RefreshedFrom(s.idCache, idsDb.sets.Union(), readDb, exclude)
    else MGet(readDb, idsDb.blobs.Keys, exclude)
  }

  function StoreFetched(s: Snap, exclude: Exclude, programs: Population, incremental: bool): Snap {
    Snap(s.epoch, s.epoch, exclude, programs, if incremental then programs else map[])
  }

  /** An undisturbed fetch is the refresh, or the scan. */
  lemma {:induction false} FetchAtOnce(s: Snap, db: Db, exclude: Exclude)
    ensures FetchFrom(s, db, db, exclude) == if Incremental(s, exclude) then Refreshed(s.idCache, db, exclude) else Scan(db, exclude)
  {
    RefreshedByParts(s.idCache, db, exclude);
  }

  function ReadSnap(s: Snap, idsDb: Db, readDb: Db, exclude: Exclude): Snap {
    if Hits(s, exclude) then s
    else StoreFetched(s, exclude, FetchFrom(s, idsDb, readDb, exclude), Incremental(s, exclude))
  }

  /** What a full fetch lists: every program that was found and could be read,
      as it is stored. */
  ghost predicate FullList(list: Population, found: set<Id>, db: Db, exclude: Exclude) {
    && list.Keys == found * db.blobs.Keys
    && forall id :: id in list ==> ReadOf(list[id], db.blobs[id], exclude)
  }

  /** What an incremental fetch lists: an id cached as Done or Discarded as it is
      cached, any other as it is stored. */
  ghost predicate IncrementalList(list: Population, idCache: Population, ids: set<Id>, db: Db, exclude: Exclude) {
    && list.Keys == ids * (idCache.Keys + db.blobs.Keys)
    && forall id :: id in list ==>
         if id in idCache && (idCache[id].state == Done || idCache[id].state == Discarded || id !in db.blobs) then list[id] == idCache[id]
         else ReadOf(list[id], db.blobs[id], exclude)
  }

  lemma {:induction false} FullListIs(ids: set<Id>, db: Db, exclude: Exclude)
    ensures FullList(MGet(db, ids, exclude), ids, db, exclude)
  {
  }

  lemma {:induction false} IncrementalListAt(idCache: Population, ids: set<Id>, db: Db, exclude: Exclude, id: Id)
    ensures var list := RefreshedFrom(idCache, ids, db, exclude);
            && (id in list <==> id in ids && (id in idCache || id in db.blobs))
            && (id in list ==>
                  if id in idCache && (Complete(idCache[id]) || id !in db.blobs) then list[id] == idCache[id]
                  else ReadOf(list[id], db.blobs[id], exclude))
  {
    ToFetchAre(idCache, ids);
  }

  lemma {:induction false} IncrementalListIs(idCache: Population, ids: set<Id>, db: Db, exclude: Exclude)
    ensures IncrementalList(RefreshedFrom(idCache, ids, db, exclude), idCache, ids, db, exclude)
  {
    var list := RefreshedFrom(idCache, ids, db, exclude);
    forall id ensures id in list <==> id in ids && (id in idCache || id in db.blobs) {
      IncrementalListAt(idCache, ids, db, exclude, id);
    }
    assert list.Keys == ids * (idCache.Keys + db.blobs.Keys);
    forall id | id in list
      ensures if id in idCache && (idCache[id].state == Done || idCache[id].state == Discarded || id !in db.blobs) then list[id] == idCache[id]
              else ReadOf(list[id], db.blobs[id], exclude)
    {
      IncrementalListAt(idCache, ids, db, exclude, id);
    }
  }

  // ---------------------------------------------------------------- coherence of one fetch

  /** The fields that are promised not to change between incremental bumps:
      everything but the lifecycle state and the write stamp. */
  ghost function Data(p: Program): Program { p.(state := Queued, atomicCounter := 0) }

  lemma {:induction false} DataIs(p: Program, q: Program)
    ensures Data(p) == Data(q) <==>
            && p.id == q.id && p.code == q.code && p.name == q.name && p.stageResults == q.stageResults && p.metrics == q.metrics
            && p.metadata == q.metadata && p.iteration == q.iteration && p.lineage == q.lineage && p.createdAt == q.createdAt
  {
  }

  ghost predicate SameData(a: Population, b: Population) {
    a.Keys == b.Keys && forall id :: id in a ==> Data(a[id]) == Data(b[id])
  }

  /** Complete cached programs that are still stored still have their data. */
  ghost predicate Trustworthy(cached: Population, db: Db, exclude: Exclude) {
    forall id :: id in cached && Complete(cached[id]) && id in db.blobs ==>
      Data(cached[id]) == Data(Project(db.blobs[id], Fields(exclude)))
  }

  lemma {:induction false} RefreshedAt(idCache: Population, db: Db, exclude: Exclude, id: Id)
    requires db.sets.Union() == db.blobs.Keys
    ensures id in Refreshed(idCache, db, exclude) <==> id in db.blobs
    ensures id in db.blobs ==>
              Refreshed(idCache, db, exclude)[id]
              == (if id in idCache && Complete(idCache[id]) then idCache[id] else Project(db.blobs[id], Fields(exclude)))
  {
  }

  /** The refresh and the scan agree on one id unless it is cached complete with
      other data. */
  lemma {:induction false} AgreesAt(idCache: Population, db: Db, exclude: Exclude, id: Id)
    requires db.sets.Union() == db.blobs.Keys && id in db.blobs
    ensures id in Refreshed(idCache, db, exclude) && id in Scan(db, exclude)
    ensures Data(Refreshed(idCache, db, exclude)[id]) == Data(Scan(db, exclude)[id])
            <==> (id in idCache && Complete(idCache[id]) ==> Data(idCache[id]) == Data(Project(db.blobs[id], Fields(exclude))))
  {
    RefreshedAt(idCache, db, exclude, id);
  }

  /** An incremental fetch agrees with the full scan it replaces exactly when
      no complete cached program changed its data. */
  lemma {:induction false} IncrementalAgreesIff(idCache: Population, db: Db, exclude: Exclude)
    requires IndexInv(db)
    ensures SameData(Refreshed(idCache, db, exclude), Scan(db, exclude)) <==> Trustworthy(idCache, db, exclude)
  {
    IndexInvCounts(db);
    var fetched, scanned := Refreshed(idCache, db, exclude), Scan(db, exclude);
    forall id ensures id in fetched <==> id in scanned {
      RefreshedAt(idCache, db, exclude, id);
    }
    forall id | id in db.blobs
      ensures id in fetched && id in scanned
      ensures Data(fetched[id]) == Data(scanned[id])
              <==> (id in idCache && Complete(idCache[id]) ==> Data(idCache[id]) == Data(Project(db.blobs[id], Fields(exclude))))
    {
      AgreesAt(idCache, db, exclude, id);
    }
    AgreeEverywhere(fetched, scanned, idCache, db, exclude);
  }

  lemma {:induction false} AgreeEverywhere(fetched: Population, scanned: Population, idCache: Population, db: Db, exclude: Exclude)
    requires forall id :: id in fetched <==> id in scanned
    requires forall id :: id in db.blobs <==> id in scanned
    requires forall id :: id in db.blobs ==>
               (Data(fetched[id]) == Data(scanned[id])
                <==> (id in idCache && Complete(idCache[id]) ==> Data(idCache[id]) == Data(Project(db.blobs[id], Fields(exclude)))))
    ensures SameData(fetched, scanned) <==> Trustworthy(idCache, db, exclude)
  {
    assert fetched.Keys == scanned.Keys;
  }

  /** A full bump, a change of a finished program, an incremental bump: the next
      read serves the old data. */
  lemma {:induction false} FullThenIncrementalBumpServesStaleData(p: Program, q: Program, d1: Db, d2: Db)
    requires p.id == q.id && Complete(p) && Data(p) != Data(q)
    requires d1.blobs == map[p.id := p] && d2.blobs == map[q.id := q] && IndexInv(d1) && IndexInv(d2)
    ensures var s1 := ReadSnap(EMPTY_SNAP, d1, d1, None);
            var s2 := BumpSnap(BumpSnap(s1, false), true);
            !Hits(s2, None) && !SameData(ReadSnap(s2, d2, d2, None).cached, Scan(d2, None))
  {
    var s1 := ReadSnap(EMPTY_SNAP, d1, d1, None);
    var s2 := BumpSnap(BumpSnap(s1, false), true);
    assert Project(p, {}) == p && Project(q, {}) == q;
    FetchAtOnce(EMPTY_SNAP, d1, None);
    FetchAtOnce(s2, d2, None);
    assert s1.cached[p.id] == p;
    assert s2.idCache == s1.cached;
    IncrementalAgreesIff(s2.idCache, d2, None);
  }

  // ---------------------------------------------------------------- the object

  ghost function ById(programs: seq<Program>): Population
  {
    if programs == [] then map[] else ById(programs[..|programs| - 1])[programs[|programs| - 1].id := programs[|programs| - 1]]
  }

  lemma {:induction false} ByIdEmpty(programs: seq<Program>)
    ensures ById(programs) == map[] <==> programs == []
  {
    if programs != [] {
      assert programs[|programs| - 1].id in ById(programs);
    }
  }

  /** Lists the values of an id-keyed dictionary. */
  method Listing(p: Population) returns (programs: seq<Program>)
    requires forall id :: id in p ==> p[id].id == id
    ensures ById(programs) == p
  {
    programs := [];
    var todo := p.Keys;
    while todo != {}
      invariant todo <= p.Keys
      invariant ById(programs) == map id | id in p.Keys - todo :: p[id]
      decreases todo
    {
      var id :| id in todo;
      assert (programs + [p[id]])[..|programs|] == programs;
      programs := programs + [p[id]];
      todo := todo - {id};
    }
  }

  class PopulationSnapshot {
    var epoch: nat
    var cachedEpoch: int
    var cachedExclude: Exclude
    var cached: seq<Program>
    var idCache: Population

    ghost function Abs(): Snap reads this { Snap(epoch, cachedEpoch, cachedExclude, ById(cached), idCache) }

    ghost predicate Valid() reads this {
      && (forall id :: id in idCache ==> idCache[id].id == id)
      && (forall id :: id in ById(cached) ==> ById(cached)[id].id == id)
    }

    constructor ()
      ensures Valid() && Abs() == EMPTY_SNAP
    {
      epoch, cachedEpoch, cachedExclude, cached, idCache := 0, -1, None, [], map[];
    }

    method Bump(incremental: bool)
      requires Valid()
      modifies this`epoch, this`idCache
      ensures Valid() && Abs() == BumpSnap(old(Abs()), incremental)
    {
      epoch := epoch + 1;
      if incremental {
        PrepareIdCache();
      } else {
        idCache := map[];
      }
    }

    method PrepareIdCache()
      requires Valid()
      modifies this`idCache
      ensures Valid()
      ensures idCache == if old(idCache) == map[] && ById(cached) != map[] then ById(cached) else old(idCache)
    {
      ByIdEmpty(cached);
      if idCache == map[] && cached != [] {
        var built: Population := map[];
        for i := 0 to |cached|
          invariant built == ById(cached[..i])
        {
          assert cached[..i + 1][..i] == cached[..i];
          built := built[cached[i].id := cached[i]];
        }
        assert cached[..|cached|] == cached;
        idCache := built;
      }
    }

    /** The first half of an incremental fetch, once the ids have arrived. */
    method PlanRefresh(currentIds: set<Id>) returns (refresh: set<Id>, removed: set<Id>)
      ensures refresh == ToFetch(idCache, currentIds) && removed == idCache.Keys - currentIds
      ensures refresh <= currentIds && refresh !! removed && (idCache.Keys - removed) + refresh == currentIds
      ensures forall id :: id in currentIds - refresh <==>
                id in currentIds && id in idCache && (idCache[id].state == Done || idCache[id].state == Discarded)
    {
      var cachedIds := idCache.Keys;
      var newIds := currentIds - cachedIds;
      removed := cachedIds - currentIds;
      refresh := newIds + Stale(idCache, currentIds);
    }

    /** The deletions one by one, up to the first id that is not there. */
    method DeleteIds(removed: set<Id>) returns (ok: bool)
      modifies this`idCache
      ensures ok <==> removed <= old(idCache).Keys
      ensures ok ==> idCache == old(idCache) - removed
      ensures !ok ==> exists some :: some <= removed && idCache == old(idCache) - some
    {
      ghost var updated := idCache;
      var left := removed;
      while left != {}
        invariant left <= removed && removed - left <= updated.Keys
        invariant idCache == updated - (removed - left)
        decreases left
      {
        var rid :| rid in left;
        if rid !in idCache {
          return false;
        }
        left := left - {rid};
        assert updated - (removed - left) == idCache - {rid};
        idCache := idCache - {rid};
      }
      assert removed - left == removed;
      ok := true;
    }

    /** The second half, once the programs have arrived. It raises when an id to
        delete is no longer in the cache. */
    method ApplyRefresh(refreshed: Population, removed: set<Id>) returns (r: Result<seq<Program>, FetchError>)
      requires Valid() && forall id :: id in refreshed ==> refreshed[id].id == id
      modifies this`idCache
      ensures Valid()
      ensures r.Ok? <==> removed <= old(idCache).Keys + refreshed.Keys
      ensures r.Ok? ==> idCache == (old(idCache) + refreshed) - removed && ById(r.value) == idCache
      ensures r.Err? ==> r.error == KeyError && exists some :: some <= removed && idCache == (old(idCache) + refreshed) - some
    {
      idCache := idCache + refreshed;
      var deleted := DeleteIds(removed);
      if !deleted {
        return Err(KeyError);
      }
      var programs := Listing(idCache);
      r := Ok(programs);
    }

    /** Both halves with nothing but the two reads of the store between them. */
    method IncrementalUpdate(idsDb: Db, readDb: Db, exclude: Exclude) returns (programs: seq<Program>)
      requires Valid() && Keyed(readDb.blobs)
      modifies this`idCache
      ensures Valid() && idCache == RefreshedFrom(old(idCache), idsDb.sets.Union(), readDb, exclude) && ById(programs) == idCache
    {
      var refresh, removed := PlanRefresh(idsDb.sets.Union());
      var applied := ApplyRefresh(MGet(readDb, refresh, exclude), removed);
      programs := applied.value;
    }

    method GetAll(idsDb: Db, readDb: Db, exclude: Exclude) returns (programs: seq<Program>)
      requires Valid() && Keyed(readDb.blobs)
      modifies this
      ensures Valid() && Abs() == ReadSnap(old(Abs()), idsDb, readDb, exclude)
      ensures programs == cached
      ensures old(cachedEpoch) == old(epoch) && old(cachedExclude) == exclude ==> programs == old(cached)
      ensures !(old(cachedEpoch) == old(epoch) && old(cachedExclude) == exclude) ==>
                if old(idCache) != map[] && old(cachedExclude) == exclude
                then IncrementalList(ById(programs), old(idCache), idsDb.sets.Union(), readDb, exclude)
                else FullList(ById(programs), idsDb.blobs.Keys, readDb, exclude)
    {
      if cachedEpoch == epoch && cachedExclude == exclude { return cached; }
      if idCache != map[] && cachedExclude == exclude {
        IncrementalListIs(idCache, idsDb.sets.Union(), readDb, exclude);
        programs := IncrementalUpdate(idsDb, readDb, exclude);
      } else {
        FullListIs(idsDb.blobs.Keys, readDb, exclude);
        programs := Listing(MGet(readDb, idsDb.blobs.Keys, exclude));
        idCache := map[];
      }
      cached := programs;
      cachedExclude := exclude;
      cachedEpoch := epoch;
    }
  }
}
