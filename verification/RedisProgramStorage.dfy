/** The store as an object (gigaevo/database/redis_program_storage.py): each
    method is one uninterrupted call, checked against the effect that module
    `Redis` gives it. Module `Concurrency` covers the retry loops. */
module RedisProgramStorages {
  import opened Wrappers
  import opened ProgramStates
  import opened Programs
  import opened Redis
  import opened Recovery

  datatype StoreError = ReadOnlyMode | BadTransition | MergeFailed(error: MergeError)

  function CallResult(merged: Result<Program, MergeError>): Result<(), StoreError> {
    if merged.Err? then Err(MergeFailed(merged.error)) else Ok(())
  }

  /** The stored copy refuses another id, or a second name. */
  predicate Refuses(stored: Program, p: Program) {
    stored.id != p.id || (stored.name.Some? && p.name.Some? && stored.name != p.name)
  }

  /** What a merging write leaves of all programs: a new program as it came, the
      merge of the two copies over a stored one, nothing if that one refuses. */
  ghost predicate WroteMerge(before: map<Id, Program>, p: Program, r: Result<(), StoreError>, after: map<Id, Program>) {
    && (r.Err? <==> p.id in before && Refuses(before[p.id], p))
    && (r.Err? ==> after == before)
    && (r.Ok? ==> after.Keys == before.Keys + {p.id} && forall id :: id in before && id != p.id ==> after[id] == before[id])
    && (r.Ok? && p.id !in before ==> after[p.id].(atomicCounter := p.atomicCounter) == p)
    && (r.Ok? && p.id in before ==> MergedFrom(before[p.id], p, after[p.id]))
  }

  lemma {:induction false} MergeOutcome(stored: map<Id, Program>, p: Program)
    ensures var merged := MergePrograms(if p.id in stored then Some(stored[p.id]) else None, p);
            && (merged.Err? <==> p.id in stored && Refuses(stored[p.id], p))
            && (p.id !in stored ==> merged == Ok(p))
            && (p.id in stored && merged.Ok? ==>
                  forall counter: nat :: MergedFrom(stored[p.id], p, Stamp(merged.value, counter)))
  {
    if p.id in stored && stored[p.id].id == p.id {
      MergeFailsIff(Some(stored[p.id]), p);
    }
    if p.id in stored && MergePrograms(Some(stored[p.id]), p).Ok? {
      MergeIs(stored[p.id], p);
    }
  }

  lemma {:induction false} TransitionWrites(db: Db, p: Program, oldState: Option<ProgramState>)
    ensures var after := TransitionDb(db, p, oldState); var r := CallResult(Merged(db, p));
            && WroteMerge(db.blobs, p, r, after.blobs)
            && (if r.Ok? then TransitionMoved(db, p, oldState, after) && after.blobs[p.id].atomicCounter == after.counter
                else after.sets == db.sets)
  {
    MergeOutcome(db.blobs, p);
    TransitionCallSets(db, p, oldState);
  }

  class RedisProgramStorage {
    const readOnly: bool
    var blobs: map<Id, Program>
    var sets: StatusSets
    var counter: nat

    ghost function Contents(): Db reads this { Db(blobs, sets, counter) }

    constructor (readOnly: bool)
      ensures this.readOnly == readOnly && Contents() == EMPTY_DB && IndexInv(Contents())
    {
      this.readOnly := readOnly;
      blobs, sets, counter := map[], StatusSets(map[]), 0;
    }

    method Incr(n: nat) returns (c: nat)
      modifies this`counter
      ensures c == counter == old(counter) + n
    {
      counter := counter + n;
      c := counter;
    }

    method Get(id: Id) returns (p: Option<Program>)
      ensures p == Contents().Lookup(id)
    {
      p := if id in blobs then Some(blobs[id]) else None;
    }

    method Add(p: Program) returns (r: Result<(), StoreError>)
      modifies this
      ensures r == if readOnly then Err(ReadOnlyMode) else Ok(())
      ensures Contents() == if r.Ok? then AddDb(old(Contents()), p) else old(Contents())
      ensures r.Ok? ==> blobs == old(blobs)[p.id := p.(atomicCounter := counter)] && counter == old(counter) + 1
      ensures r.Ok? ==> SetsMoved(old(sets), sets, {p.id}, StateIn(old(blobs), p.id), {p.state})
      ensures old(IndexInv(Contents())) ==> IndexInv(Contents())
    {
      if readOnly { return Err(ReadOnlyMode); }
      ghost var before := Contents();
      AddSets(before, p);
      var existing := Get(p.id);
      var c := Incr(1);
      blobs := blobs[p.id := Stamp(p, c)];
      if existing.Some? && existing.value.state != p.state {
        sets := sets.SRem(existing.value.state, {p.id});
      }
      sets := sets.SAdd(p.state, {p.id});
      if IndexInv(before) {
        AddKeepsIndex(before, p);
      }
      r := Ok(());
    }

    method Remove(id: Id) returns (r: Result<(), StoreError>)
      modifies this
      ensures r == if readOnly then Err(ReadOnlyMode) else Ok(())
      ensures Contents() == if r.Ok? then RemoveDb(old(Contents()), id) else old(Contents())
      ensures r.Ok? ==> blobs == old(blobs) - {id} && counter == old(counter)
      ensures r.Ok? ==> SetsMoved(old(sets), sets, {id}, StateIn(old(blobs), id), {})
      ensures old(IndexInv(Contents())) ==> IndexInv(Contents())
    {
      if readOnly { return Err(ReadOnlyMode); }
      ghost var before := Contents();
      RemoveSets(before, id);
      var existing := Get(id);
      blobs := blobs - {id};
      if existing.Some? {
        sets := sets.SRem(existing.value.state, {id});
      }
      if IndexInv(before) {
        RemoveKeepsIndex(before, id);
      }
      r := Ok(());
    }

    /** Sum of the set sizes; with an intact index, the number of programs. */
    method Size() returns (n: nat)
      ensures n == Contents().sets.Cardinality()
      ensures IndexInv(Contents()) ==> n == |blobs|
    {
      n := 0;
      var states := [Queued, Running, Done, Discarded];
      for i := 0 to |states|
        invariant n == (if i > 0 then |sets.At(Queued)| else 0) + (if i > 1 then |sets.At(Running)| else 0)
                       + (if i > 2 then |sets.At(Done)| else 0) + (if i > 3 then |sets.At(Discarded)| else 0)
      {
        n := n + |sets.At(states[i])|;
      }
      if IndexInv(Contents()) {
        IndexInvCounts(Contents());
      }
    }

    /** Ids by union of the status sets; with an intact index, the stored ids. */
    method GetAllProgramIds() returns (ids: set<Id>)
      ensures ids == Contents().sets.Union()
      ensures IndexInv(Contents()) ==> ids == blobs.Keys
    {
      ids := sets.Union();
      if IndexInv(Contents()) {
        IndexInvCounts(Contents());
      }
    }

    /** A failed merge has already consumed a counter value. */
    method Update(p: Program) returns (r: Result<(), StoreError>)
      modifies this
      ensures readOnly ==> r == Err(ReadOnlyMode) && Contents() == old(Contents())
      ensures !readOnly ==>
                && r == CallResult(Merged(old(Contents()), p))
                && Contents() == UpdateDb(old(Contents()), p)
      ensures !readOnly ==> WroteMerge(old(blobs), p, r, blobs) && counter == old(counter) + 1
      ensures r.Ok? ==> blobs[p.id].atomicCounter == counter && sets == old(sets)
      ensures r.Ok? && old(IndexInv(Contents())) ==>
                (IndexInv(Contents()) <==> p.id in old(blobs) && Settled(old(blobs)[p.id].state, p.state))
    {
      if readOnly { return Err(ReadOnlyMode); }
      UpdateCallKeepsIndexIff(Contents(), p);
      var existing := Get(p.id);
      var c := Incr(1);
      var merged := MergePrograms(existing, p);
      MergeOutcome(blobs, p);
      if merged.Err? { return Err(MergeFailed(merged.error)); }
      blobs := blobs[p.id := Stamp(merged.value, c)];
      r := Ok(());
    }

    static method StatesToClean(existing: Option<Program>, oldState: Option<ProgramState>, actual: ProgramState)
        returns (stale: set<ProgramState>)
      ensures stale == (if oldState.Some? then {oldState.value} else {}) + (if existing.Some? then {existing.value.state} else {}) - {actual}
    {
      stale := {};
      if oldState.Some? { stale := stale + {oldState.value}; }
      if existing.Some? { stale := stale + {existing.value.state}; }
      stale := stale - {actual};
    }

    /** The transaction of a transition: read, stamp, merge, write and move. */
    method MergeAndMove(p: Program, oldState: Option<ProgramState>) returns (base: Result<Program, MergeError>)
      modifies this
      ensures base == Merged(old(Contents()), p)
      ensures Contents() == TransitionDb(old(Contents()), p, oldState)
    {
      var existing := Get(p.id);
      var c := Incr(1);
      base := if existing.Some? then MergePrograms(existing, p) else Ok(p);
      if base.Err? { return; }
      var actual := base.value.state;
      var stale := StatesToClean(existing, oldState, actual);
      blobs := blobs[p.id := Stamp(base.value, c)];
      sets := sets.SRemAll(stale, p.id).SAdd(actual, {p.id});
    }

    method AtomicStateTransition(p: Program, oldState: Option<ProgramState>) returns (r: Result<(), StoreError>)
      modifies this
      ensures readOnly ==> r == Err(ReadOnlyMode) && Contents() == old(Contents())
      ensures !readOnly ==>
                && r == CallResult(Merged(old(Contents()), p))
                && Contents() == TransitionDb(old(Contents()), p, oldState)
      ensures !readOnly ==> WroteMerge(old(blobs), p, r, blobs) && counter == old(counter) + 1
      ensures r.Ok? ==> blobs[p.id].atomicCounter == counter
      ensures r.Ok? ==> TransitionMoved(old(Contents()), p, oldState, Contents())
      ensures r.Err? ==> sets == old(sets)
      ensures old(IndexInv(Contents())) ==> IndexInv(Contents())
    {
      if readOnly { return Err(ReadOnlyMode); }
      TransitionCallKeepsIndex(Contents(), p, oldState);
      TransitionWrites(Contents(), p, oldState);
      var merged := MergeAndMove(p, oldState);
      if merged.Err? { return Err(MergeFailed(merged.error)); }
      r := Ok(());
    }

    method WriteExclusive(p: Program) returns (r: Result<(), StoreError>)
      modifies this`blobs, this`counter
      ensures r == if readOnly then Err(ReadOnlyMode) else Ok(())
      ensures Contents() == if r.Ok? then WriteExclusiveDb(old(Contents()), p) else old(Contents())
      ensures r.Ok? ==> blobs == old(blobs)[p.id := p.(atomicCounter := counter)] && counter == old(counter) + 1
      ensures r.Ok? && old(IndexInv(Contents())) ==>
                (IndexInv(Contents()) <==> p.id in old(blobs) && old(blobs)[p.id].state == p.state)
    {
      if readOnly { return Err(ReadOnlyMode); }
      if IndexInv(Contents()) {
        WriteExclusiveKeepsIndexIff(Contents(), p);
      }
      var c := Incr(1);
      blobs := blobs[p.id := Stamp(p, c)];
      r := Ok(());
    }

    method FastStateTransition(p: Program, oldState: ProgramState, newState: ProgramState) returns (r: Result<(), StoreError>)
      modifies this
      ensures r == if readOnly then Err(ReadOnlyMode) else Ok(())
      ensures Contents() == if r.Ok? then FastDb(old(Contents()), p, oldState, newState) else old(Contents())
      ensures r.Ok? ==> blobs == old(blobs)[p.id := p.(atomicCounter := counter)] && counter == old(counter) + 1
      ensures r.Ok? ==> SetsMoved(old(sets), sets, {p.id}, {oldState}, {newState})
      ensures r.Ok? && old(IndexInv(Contents())) ==>
                (IndexInv(Contents()) <==> p.state == newState && (p.id in old(blobs) ==> old(blobs)[p.id].state in {oldState, newState}))
    {
      if readOnly { return Err(ReadOnlyMode); }
      if IndexInv(Contents()) {
        FastKeepsIndexIff(Contents(), p, oldState, newState);
      }
      FastSets(Contents(), p, oldState, newState);
      var c := Incr(1);
      blobs := blobs[p.id := Stamp(p, c)];
      if oldState != newState {
        sets := sets.SRem(oldState, {p.id});
      }
      sets := sets.SAdd(newState, {p.id});
      r := Ok(());
    }

    /** Queues the SETs of one chunk. */
    static method WritePayload(stored: map<Id, Program>, chunk: seq<Program>, newState: ProgramState, base: nat)
        returns (pending: map<Id, Program>, ids: set<Id>)
      ensures pending == WriteRun(stored, chunk, newState, base) && ids == IdsOf(chunk)
    {
      pending, ids := stored, {};
      for i := 0 to |chunk|
        invariant pending == WriteRun(stored, chunk[..i], newState, base) && ids == IdsOf(chunk[..i])
      {
        WriteRunNext(stored, chunk, newState, base, i);
        pending := pending[chunk[i].id := Patched(chunk[i], newState, base + 1 + i)];
        ids := ids + {chunk[i].id};
      }
      assert chunk[..|chunk|] == chunk;
    }

    /** One pipelined chunk of `BatchTransitionState`. */
    method WriteChunk(chunk: seq<Program>, oldState: ProgramState, newState: ProgramState)
      requires chunk != []
      modifies this
      ensures Contents() == BatchStateDb(old(Contents()), chunk, oldState, newState)
    {
      var end := Incr(|chunk|);
      var pending, ids := WritePayload(blobs, chunk, newState, end - |chunk|);
      blobs := pending;
      sets := sets.SRem(oldState, ids).SAdd(newState, ids);
    }

    method NextWrite(ghost start: Db, count: nat, programs: seq<Program>, oldState: ProgramState, newState: ProgramState, chunkSize: nat)
        returns (count': nat)
      requires chunkSize > 0 && count < |programs|
      requires Contents() == BatchStateDb(start, programs[..count], oldState, newState)
      modifies this
      ensures count < count' <= |programs|
      ensures Contents() == BatchStateDb(start, programs[..count'], oldState, newState)
    {
      count' := count + Lesser(chunkSize, |programs| - count);
      WriteChunk(programs[count..count'], oldState, newState);
      BatchStateAppend(start, programs[..count], programs[count..count'], oldState, newState);
      assert programs[..count] + programs[count..count'] == programs[..count'];
    }

    method WriteChunks(programs: seq<Program>, oldState: ProgramState, newState: ProgramState, chunkSize: nat) returns (count: nat)
      requires chunkSize > 0
      modifies this
      ensures Contents() == BatchStateDb(old(Contents()), programs, oldState, newState) && count == |programs|
    {
      ghost var start := Contents();
      count := 0;
      while count < |programs|
        invariant count <= |programs|
        invariant Contents() == BatchStateDb(start, programs[..count], oldState, newState)
      {
        count := NextWrite(start, count, programs, oldState, newState, chunkSize);
      }
      assert programs[..count] == programs;
    }

    /** The chunk size (1024 in the source) does not show in the result. */
    method BatchTransitionState(programs: seq<Program>, oldState: ProgramState, newState: ProgramState, chunkSize: nat)
        returns (r: Result<nat, StoreError>)
      requires chunkSize > 0
      modifies this
      ensures r == if readOnly then Err(ReadOnlyMode)
                   else if programs != [] && !IsValidTransition(oldState, newState) then Err(BadTransition)
                   else Ok(|programs|)
      ensures Contents() == if r.Ok? then BatchStateDb(old(Contents()), programs, oldState, newState) else old(Contents())
      ensures r.Ok? && old(IndexInv(Contents())) ==>
                (IndexInv(Contents()) <==> StoredIn(old(Contents()), IdsOf(programs), {oldState, newState}))
      ensures r.Ok? ==> BatchWrote(old(Contents()), programs, oldState, newState, Contents())
    {
      BatchStateWrites(Contents(), programs, oldState, newState);
      if IndexInv(Contents()) {
        BatchStateKeepsIndexIff(Contents(), programs, oldState, newState);
      }
      if readOnly { return Err(ReadOnlyMode); }
      if programs == [] { return Ok(0); }
      if !IsValidTransition(oldState, newState) { return Err(BadTransition); }
      var count := WriteChunks(programs, oldState, newState, chunkSize);
      r := Ok(count);
    }

    /** Keeps the ids whose stored blob is in the old state. */
    static method FilterMatching(stored: map<Id, Program>, ids: seq<Id>, oldState: ProgramState) returns (toPatch: seq<Id>)
      ensures toPatch == Matching(stored, ids, oldState)
    {
      toPatch := [];
      for i := 0 to |ids|
        invariant toPatch == Matching(stored, ids[..i], oldState)
      {
        MatchingNext(stored, ids, oldState, i);
        if ids[i] in stored && stored[ids[i]].state == oldState {
          toPatch := toPatch + [ids[i]];
        }
      }
      assert ids[..|ids|] == ids;
    }

    static method PatchPayload(stored: map<Id, Program>, toPatch: seq<Id>, newState: ProgramState, base: nat)
        returns (pending: map<Id, Program>)
      ensures pending == PatchRun(stored, toPatch, newState, base)
    {
      pending := stored;
      for i := 0 to |toPatch|
        invariant pending == PatchRun(stored, toPatch[..i], newState, base)
      {
        PatchRunNext(stored, toPatch, newState, base, i);
        pending := Patch1(pending, toPatch[i], newState, base + i + 1);
      }
      assert toPatch[..|toPatch|] == toPatch;
    }

    /** One MGET, filter, and pipelined patch. */
    method PatchChunk(ids: seq<Id>, oldState: ProgramState, newState: ProgramState) returns (n: nat)
      modifies this
      ensures Contents() == BatchIdsDb(old(Contents()), ids, oldState, newState)
      ensures n == |Matching(old(blobs), ids, oldState)|
    {
      var toPatch := FilterMatching(blobs, ids, oldState);
      n := |toPatch|;
      if n == 0 { return; }
      var end := Incr(n);
      var pending := PatchPayload(blobs, toPatch, newState, end - n);
      blobs := pending;
      sets := MoveIds(sets, oldState, newState, Elements(toPatch));
    }

    /** One chunk. */
    method NextChunk(count: nat, ids: seq<Id>, oldState: ProgramState, newState: ProgramState, chunkSize: nat, i: nat)
        returns (count': nat, i': nat)
      requires chunkSize > 0 && i < |ids|
      modifies this
      ensures i' == i + Lesser(chunkSize, |ids| - i)
      ensures Batch(Contents(), count') == NextBatch(Batch(old(Contents()), count), ids[i..i'], oldState, newState)
    {
      var n := Lesser(chunkSize, |ids| - i);
      var moved := PatchChunk(ids[i..i + n], oldState, newState);
      count', i' := count + moved, i + n;
    }

    /** One loop pass of `PatchChunks`, seen from what is still owed. */
    method NextOwed(ghost whole: Batch, count: nat, ids: seq<Id>, oldState: ProgramState, newState: ProgramState, chunkSize: nat, i: nat)
        returns (count': nat, i': nat)
      requires chunkSize > 0 && i < |ids|
      requires whole == ChunkedBatchIds(Batch(Contents(), count), ids[i..], oldState, newState, chunkSize)
      modifies this
      ensures i < i' <= |ids|
      ensures whole == ChunkedBatchIds(Batch(Contents(), count'), ids[i'..], oldState, newState, chunkSize)
    {
      ghost var b := Batch(Contents(), count);
      count', i' := NextChunk(count, ids, oldState, newState, chunkSize, i);
      ChunkedStep(b, ids, oldState, newState, chunkSize, i, i');
    }

    method PatchChunks(ids: seq<Id>, oldState: ProgramState, newState: ProgramState, chunkSize: nat) returns (count: nat)
      requires chunkSize > 0
      modifies this
      ensures Batch(Contents(), count) == ChunkedBatchIds(Batch(old(Contents()), 0), ids, oldState, newState, chunkSize)
    {
      ghost var whole := ChunkedBatchIds(Batch(Contents(), 0), ids, oldState, newState, chunkSize);
      var i := 0;
      count := 0;
      assert ids[0..] == ids;
      while i < |ids|
        invariant i <= |ids|
        invariant whole == ChunkedBatchIds(Batch(Contents(), count), ids[i..], oldState, newState, chunkSize)
      {
        count, i := NextOwed(whole, count, ids, oldState, newState, chunkSize, i);
      }
      assert ids[i..] == [];
    }

    method BatchTransitionByIds(ids: seq<Id>, oldState: ProgramState, newState: ProgramState, chunkSize: nat)
        returns (r: Result<nat, StoreError>)
      requires chunkSize > 0
      modifies this
      ensures readOnly ==> r == Err(ReadOnlyMode)
      ensures !readOnly && ids != [] && !IsValidTransition(oldState, newState) ==> r == Err(BadTransition)
      ensures !readOnly && (ids == [] || IsValidTransition(oldState, newState)) ==> r.Ok?
      ensures r.Err? ==> Contents() == old(Contents())
      ensures r.Ok? ==> Batch(Contents(), r.value) == ChunkedBatchIds(Batch(old(Contents()), 0), ids, oldState, newState, chunkSize)
      ensures r.Ok? ==> BatchMoved(old(Contents()), ids, oldState, newState, Contents())
      ensures old(IndexInv(Contents())) ==> IndexInv(Contents())
    {
      ChunksMove(Batch(Contents(), 0), ids, oldState, newState, chunkSize);
      if IndexInv(Contents()) {
        ChunksKeepIndex(Batch(Contents(), 0), ids, oldState, newState, chunkSize);
      }
      if readOnly { return Err(ReadOnlyMode); }
      if ids == [] { return Ok(0); }
      if !IsValidTransition(oldState, newState) { return Err(BadTransition); }
      var count := PatchChunks(ids, oldState, newState, chunkSize);
      r := Ok(count);
    }

    /** One pass of the recovery loop: a dangling id is dropped from the
        RUNNING set even in read-only mode, a stored one is then refused. */
    method RecoverOne(id: Id) returns (r: Result<bool, StoreError>)
      requires id in blobs ==> blobs[id].id == id
      modifies this
      ensures r == if id !in old(blobs) then Ok(false) else if readOnly then Err(ReadOnlyMode) else Ok(true)
      ensures Contents() == if r.Ok? then RecoverOneDb(old(Contents()), id) else old(Contents())
    {
      var p := Get(id);
      if p.None? {
        sets := sets.SRem(Running, {id});
        return Ok(false);
      }
      var written := WriteExclusive(Requeued(p.value));
      if written.Err? { return Err(written.error); }
      sets := sets.SRem(Running, {id}).SAdd(Queued, {id});
      r := Ok(true);
    }

    /** Recovery of stranded programs, undisturbed. A read-only store only
        drops dangling ids, and refuses as soon as it meets a stored one. */
    method RecoverStrandedPrograms() returns (r: Result<nat, StoreError>)
      requires Keyed(Contents().blobs)
      modifies this
      ensures r.Err? <==> readOnly && !(old(sets.At(Running)) !! old(blobs.Keys))
      ensures r.Ok? ==> Recovered(old(Contents()), Contents(), r.value)
      ensures r.Err? ==> r.error == ReadOnlyMode && OnlyCleaned(old(Contents()), Contents(), sets.At(Running))
    {
      var todo := sets.At(Running);
      var recovered := 0;
      UnderwayAtStart(Contents());
      while todo != {}
        invariant Underway(old(Contents()), Contents(), todo, recovered)
        invariant readOnly ==> OnlyCleaned(old(Contents()), Contents(), todo)
        decreases todo
      {
        var id :| id in todo;
        RecoverOneUnderway(old(Contents()), Contents(), todo, recovered, id);
        if readOnly && id !in blobs {
          CleanedMore(old(Contents()), Contents(), todo, id);
        }
        var step := RecoverOne(id);
        if step.Err? {
          StoredInRunning(old(Contents()), Contents(), todo, id);
          return Err(step.error);
        }
        recovered := recovered + if step.value then 1 else 0;
        todo := todo - {id};
      }
      NothingLeft(old(Contents()), Contents(), recovered);
      r := Ok(recovered);
    }
  }
}
