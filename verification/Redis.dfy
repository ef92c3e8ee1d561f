/** The part of Redis the program store uses, as a value, and the effect of
    every store operation on it (gigaevo/database/redis_program_storage.py).

    A database holds one blob per program, one id set per lifecycle state, and
    the global counter that stamps every write. */
module Redis {
  import opened Wrappers
  import opened ProgramStates
  import opened Programs

  /** A state without a key has the empty set. */
  datatype StatusSets = StatusSets(members: map<ProgramState, set<Id>>) {
    function At(s: ProgramState): set<Id> {
      if s in members then members[s] else {}
    }

    function SRem(s: ProgramState, ids: set<Id>): StatusSets {
      StatusSets(members[s := At(s) - ids])
    }

    function SAdd(s: ProgramState, ids: set<Id>): StatusSets {
      StatusSets(members[s := At(s) + ids])
    }

    function SRemAll(states: set<ProgramState>, id: Id): StatusSets {
      StatusSets(map s | s in members :: if s in states then members[s] - {id} else members[s])
    }

    function Union(): set<Id> { At(Queued) + At(Running) + At(Done) + At(Discarded) }

    function Cardinality(): nat { |At(Queued)| + |At(Running)| + |At(Done)| + |At(Discarded)| }
  }

  datatype Db = Db(blobs: map<Id, Program>, sets: StatusSets, counter: nat) {
    function Lookup(id: Id): Option<Program> { if id in blobs then Some(blobs[id]) else None }
  }

  const EMPTY_DB := Db(map[], StatusSets(map[]), 0)

  /** Every stored id is in exactly one status set, the one its blob names,
      and the sets hold no other id. */
  ghost predicate IndexInv(db: Db) {
    forall id, s :: id in db.sets.At(s) <==> id in db.blobs && db.blobs[id].state == s
  }

  lemma {:induction false} IndexAt(db: Db, id: Id, s: ProgramState)
    requires IndexInv(db)
    ensures id in db.sets.At(s) <==> id in db.blobs && db.blobs[id].state == s
  {
  }

  lemma {:induction false} IndexIgnoresCounter(db: Db, counter: nat)
    ensures IndexInv(db.(counter := counter)) <==> IndexInv(db)
  {
    var other := db.(counter := counter);
    if IndexInv(db) {
      forall id, s ensures id in other.sets.At(s) <==> id in other.blobs && other.blobs[id].state == s {
        IndexAt(db, id, s);
      }
    }
    if IndexInv(other) {
      forall id, s ensures id in db.sets.At(s) <==> id in db.blobs && db.blobs[id].state == s {
        IndexAt(other, id, s);
      }
    }
  }

  ghost predicate Keyed(blobs: map<Id, Program>) { forall id :: id in blobs ==> blobs[id].id == id }

  function ByState(blobs: map<Id, Program>, s: ProgramState): set<Id> {
    set id | id in blobs && blobs[id].state == s
  }

  lemma {:induction false} SetsAreByState(db: Db, s: ProgramState)
    requires IndexInv(db)
    ensures db.sets.At(s) == ByState(db.blobs, s)
  {
    forall id ensures id in db.sets.At(s) <==> id in ByState(db.blobs, s) {
      IndexAt(db, id, s);
    }
  }

  /** The three ways of listing the programs agree: the sum of the set sizes,
      the union of the sets, and the stored blobs. */
  lemma {:induction false} IndexInvCounts(db: Db)
    requires IndexInv(db)
    ensures db.sets.Union() == db.blobs.Keys
    ensures db.sets.Cardinality() == |db.blobs|
  {
    SetsAreByState(db, Queued);
    SetsAreByState(db, Running);
    SetsAreByState(db, Done);
    SetsAreByState(db, Discarded);
    ByStateSplit(db.blobs);
  }

  lemma ByStateSplit(blobs: map<Id, Program>)
    ensures |ByState(blobs, Queued)| + |ByState(blobs, Running)| + |ByState(blobs, Done)| + |ByState(blobs, Discarded)| == |blobs.Keys|
    ensures ByState(blobs, Queued) + ByState(blobs, Running) + ByState(blobs, Done) + ByState(blobs, Discarded) == blobs.Keys
  {
    var a, b, c, d := ByState(blobs, Queued), ByState(blobs, Running), ByState(blobs, Done), ByState(blobs, Discarded);
    EveryStateCounts(blobs);
    Apart(blobs, Queued, Running);
    Apart(blobs, Queued, Done);
    Apart(blobs, Queued, Discarded);
    Apart(blobs, Running, Done);
    Apart(blobs, Running, Discarded);
    Apart(blobs, Done, Discarded);
    FourParts(a, b, c, d);
  }

  lemma EveryStateCounts(blobs: map<Id, Program>)
    ensures ByState(blobs, Queued) + ByState(blobs, Running) + ByState(blobs, Done) + ByState(blobs, Discarded) == blobs.Keys
  {
    forall id | id in blobs
      ensures id in ByState(blobs, Queued) || id in ByState(blobs, Running) || id in ByState(blobs, Done) || id in ByState(blobs, Discarded)
    {
      assert id in ByState(blobs, blobs[id].state);
    }
  }

  lemma Apart(blobs: map<Id, Program>, s: ProgramState, t: ProgramState)
    requires s != t
    ensures ByState(blobs, s) !! ByState(blobs, t)
  {
  }

  lemma FourParts<T>(a: set<T>, b: set<T>, c: set<T>, d: set<T>)
    requires a !! b && a !! c && a !! d && b !! c && b !! d && c !! d
    ensures |a + b + c + d| == |a| + |b| + |c| + |d|
  {
    assert |a + b| == |a| + |b|;
    assert |a + b + c| == |a + b| + |c|;
  }

  /** The ids left the sets `from` and are in the sets `to`; nothing else moved. */
  ghost predicate SetsMoved(before: StatusSets, after: StatusSets, ids: set<Id>, from: set<ProgramState>, to: set<ProgramState>) {
    forall id, s :: id in after.At(s) <==> if id in ids && s in to then true else if id in ids && s in from then false else id in before.At(s)
  }

  ghost function StateIn(blobs: map<Id, Program>, id: Id): set<ProgramState> { if id in blobs then {blobs[id].state} else {} }

  // ---------------------------------------------------------------- add and remove

  function AddDb(db: Db, p: Program): Db {
    var stored := db.Lookup(p.id);
    var cleaned := if stored.Some? && stored.value.state != p.state then db.sets.SRem(stored.value.state, {p.id}) else db.sets;
    Db(db.blobs[p.id := Stamp(p, db.counter + 1)], cleaned.SAdd(p.state, {p.id}), db.counter + 1)
  }

  function RemoveDb(db: Db, id: Id): Db {
    var stored := db.Lookup(id);
    Db(db.blobs - {id}, if stored.Some? then db.sets.SRem(stored.value.state, {id}) else db.sets, db.counter)
  }

  lemma {:induction false} AddSets(db: Db, p: Program)
    ensures SetsMoved(db.sets, AddDb(db, p).sets, {p.id}, StateIn(db.blobs, p.id), {p.state})
  {
  }

  lemma {:induction false} RemoveSets(db: Db, id: Id)
    ensures SetsMoved(db.sets, RemoveDb(db, id).sets, {id}, StateIn(db.blobs, id), {})
  {
  }

  lemma {:induction false} AddKeepsIndex(db: Db, p: Program)
    requires IndexInv(db)
    ensures IndexInv(AddDb(db, p))
  {
    var after := AddDb(db, p);
    forall id, s ensures id in after.sets.At(s) <==> id in after.blobs && after.blobs[id].state == s {
      IndexAt(db, id, s);
    }
  }

  lemma {:induction false} RemoveKeepsIndex(db: Db, id: Id)
    requires IndexInv(db)
    ensures IndexInv(RemoveDb(db, id))
    ensures forall s :: id !in RemoveDb(db, id).sets.At(s)
  {
    var after := RemoveDb(db, id);
    forall k, s ensures k in after.sets.At(s) <==> k in after.blobs && after.blobs[k].state == s {
      IndexAt(db, k, s);
    }
    forall s ensures id !in after.sets.At(s) {
      IndexAt(after, id, s);
    }
  }

  // ---------------------------------------------------------------- merging writes

  function Merged(db: Db, p: Program): Result<Program, MergeError> {
    MergePrograms(db.Lookup(p.id), p)
  }

  function ApplyUpdate(db: Db, p: Program, stamp: nat): Db
    requires Merged(db, p).Ok?
  {
    db.(blobs := db.blobs[p.id := Stamp(Merged(db, p).value, stamp)])
  }

  /** The state sets a transition cleans: the caller's old state and the
      stored one, but never the state the merge settled on. */
  function StaleSets(db: Db, p: Program, oldState: Option<ProgramState>, actual: ProgramState): set<ProgramState> {
    (if oldState.Some? then {oldState.value} else {}) + (if p.id in db.blobs then {db.blobs[p.id].state} else {}) - {actual}
  }

  function ApplyTransition(db: Db, p: Program, oldState: Option<ProgramState>, stamp: nat): Db
    requires Merged(db, p).Ok?
  {
    var base := Merged(db, p).value;
    db.(blobs := db.blobs[p.id := Stamp(base, stamp)],
        sets := db.sets.SRemAll(StaleSets(db, p, oldState, base.state), p.id).SAdd(base.state, {p.id}))
  }

  /** The id left its stored and its claimed old state for the one now stored. */
  ghost predicate TransitionMoved(before: Db, p: Program, oldState: Option<ProgramState>, after: Db) {
    && p.id in after.blobs
    && SetsMoved(before.sets, after.sets, {p.id},
                 StateIn(before.blobs, p.id) + (if oldState.Some? then {oldState.value} else {}), {after.blobs[p.id].state})
  }

  lemma {:induction false} TransitionSets(db: Db, p: Program, oldState: Option<ProgramState>, stamp: nat)
    requires Merged(db, p).Ok?
    ensures TransitionMoved(db, p, oldState, ApplyTransition(db, p, oldState, stamp))
  {
  }

  /** An update writes no status set, so it keeps the index exactly when the
      program is already stored and the merge leaves its state alone. */
  lemma {:induction false} UpdateKeepsIndexIff(db: Db, p: Program, stamp: nat)
    requires IndexInv(db) && Merged(db, p).Ok?
    ensures IndexInv(ApplyUpdate(db, p, stamp)) <==> p.id in db.blobs && Settled(db.blobs[p.id].state, p.state)
  {
    var after := ApplyUpdate(db, p, stamp);
    var m := Merged(db, p).value;
    assert after.blobs[p.id].state == m.state && after.sets == db.sets;
    IndexAt(db, p.id, m.state);
    if IndexInv(after) {
      IndexAt(after, p.id, m.state);
    }
    if p.id in db.blobs {
      SettledIff(db.blobs[p.id].state, p.state);
    }
  }

  /** A transition moves the id to the state the merge settled on, whatever
      old state the caller claims, and so always keeps the index. */
  lemma {:induction false} TransitionKeepsIndex(db: Db, p: Program, oldState: Option<ProgramState>, stamp: nat)
    requires IndexInv(db) && Merged(db, p).Ok?
    ensures IndexInv(ApplyTransition(db, p, oldState, stamp))
  {
    var after := ApplyTransition(db, p, oldState, stamp);
    var base := Merged(db, p).value;
    forall id, s ensures id in after.sets.At(s) <==> id in after.blobs && after.blobs[id].state == s {
      assert id in db.sets.At(s) <==> id in db.blobs && db.blobs[id].state == s;
    }
  }

  /** One whole update or transition; a failed merge has used up a counter value. */
  function UpdateDb(db: Db, p: Program): Db {
    (if Merged(db, p).Err? then db else ApplyUpdate(db, p, db.counter + 1)).(counter := db.counter + 1)
  }

  function TransitionDb(db: Db, p: Program, oldState: Option<ProgramState>): Db {
    (if Merged(db, p).Err? then db else ApplyTransition(db, p, oldState, db.counter + 1)).(counter := db.counter + 1)
  }

  lemma {:induction false} TransitionCallSets(db: Db, p: Program, oldState: Option<ProgramState>)
    ensures var after := TransitionDb(db, p, oldState);
            if Merged(db, p).Err? then after.sets == db.sets
            else TransitionMoved(db, p, oldState, after)
  {
    if Merged(db, p).Ok? {
      TransitionSets(db, p, oldState, db.counter + 1);
    }
  }

  lemma {:induction false} UpdateCallKeepsIndexIff(db: Db, p: Program)
    ensures IndexInv(db) && Merged(db, p).Ok? ==>
              (IndexInv(UpdateDb(db, p)) <==> p.id in db.blobs && Settled(db.blobs[p.id].state, p.state))
  {
    if IndexInv(db) && Merged(db, p).Ok? {
      UpdateKeepsIndexIff(db, p, db.counter + 1);
      IndexIgnoresCounter(ApplyUpdate(db, p, db.counter + 1), db.counter + 1);
    }
  }

  lemma {:induction false} TransitionCallKeepsIndex(db: Db, p: Program, oldState: Option<ProgramState>)
    ensures IndexInv(db) ==> IndexInv(TransitionDb(db, p, oldState))
  {
    if IndexInv(db) {
      if Merged(db, p).Ok? {
        TransitionKeepsIndex(db, p, oldState, db.counter + 1);
        IndexIgnoresCounter(ApplyTransition(db, p, oldState, db.counter + 1), db.counter + 1);
      } else {
        IndexIgnoresCounter(db, db.counter + 1);
      }
    }
  }

  // ---------------------------------------------------------------- blind writes

  function WriteExclusiveDb(db: Db, p: Program): Db {
    db.(blobs := db.blobs[p.id := Stamp(p, db.counter + 1)], counter := db.counter + 1)
  }

  lemma {:induction false} WriteExclusiveKeepsIndexIff(db: Db, p: Program)
    requires IndexInv(db)
    ensures IndexInv(WriteExclusiveDb(db, p)) <==> p.id in db.blobs && db.blobs[p.id].state == p.state
  {
    var after := WriteExclusiveDb(db, p);
    assert after.blobs[p.id].state == p.state && after.sets == db.sets;
    IndexAt(db, p.id, p.state);
    if IndexInv(after) {
      IndexAt(after, p.id, p.state);
    } else if p.id in db.blobs && db.blobs[p.id].state == p.state {
      forall id, s ensures id in after.sets.At(s) <==> id in after.blobs && after.blobs[id].state == s {
        IndexAt(db, id, s);
      }
    }
  }

  function FastDb(db: Db, p: Program, oldState: ProgramState, newState: ProgramState): Db {
    var cleaned := if oldState != newState then db.sets.SRem(oldState, {p.id}) else db.sets;
    Db(db.blobs[p.id := Stamp(p, db.counter + 1)], cleaned.SAdd(newState, {p.id}), db.counter + 1)
  }

  lemma {:induction false} FastSets(db: Db, p: Program, oldState: ProgramState, newState: ProgramState)
    ensures SetsMoved(db.sets, FastDb(db, p, oldState, newState).sets, {p.id}, {oldState}, {newState})
  {
  }

  /** The fast path trusts the caller twice: the program must carry the new
      state, and the claimed old state must be the stored one (or the program
      must be new, or already where it is going). */
  lemma {:induction false} FastKeepsIndexIff(db: Db, p: Program, oldState: ProgramState, newState: ProgramState)
    requires IndexInv(db)
    ensures IndexInv(FastDb(db, p, oldState, newState)) <==>
            p.state == newState && (p.id in db.blobs ==> db.blobs[p.id].state in {oldState, newState})
  {
    var after := FastDb(db, p, oldState, newState);
    if IndexInv(after) {
      IndexAt(after, p.id, newState);
      assert after.blobs[p.id].state == p.state;
      if p.id in db.blobs {
        IndexAt(db, p.id, db.blobs[p.id].state);
        IndexAt(after, p.id, db.blobs[p.id].state);
      }
    } else if p.state == newState && (p.id in db.blobs ==> db.blobs[p.id].state in {oldState, newState}) {
      FastKeepsIndex(db, p, oldState, newState);
    }
  }

  lemma {:induction false} FastKeepsIndex(db: Db, p: Program, oldState: ProgramState, newState: ProgramState)
    requires IndexInv(db) && p.state == newState
    requires p.id in db.blobs ==> db.blobs[p.id].state == oldState || db.blobs[p.id].state == newState
    ensures IndexInv(FastDb(db, p, oldState, newState))
  {
    var after := FastDb(db, p, oldState, newState);
    forall id, s ensures id in after.sets.At(s) <==> id in after.blobs && after.blobs[id].state == s {
      IndexAt(db, id, s);
    }
  }

  // ---------------------------------------------------------------- batches

  function MoveIds(sets: StatusSets, oldState: ProgramState, newState: ProgramState, ids: set<Id>): StatusSets {
    sets.SRem(oldState, ids).SAdd(newState, ids)
  }

  lemma MoveIdsAt(sets: StatusSets, oldState: ProgramState, newState: ProgramState, ids: set<Id>, s: ProgramState, id: Id)
    ensures id in MoveIds(sets, oldState, newState, ids).At(s) <==>
            if id in ids && s == newState then true
            else if id in ids && s == oldState then false
            else id in sets.At(s)
  {
  }

  lemma MoveIdsAppend(sets: StatusSets, oldState: ProgramState, newState: ProgramState, one: set<Id>, two: set<Id>)
    ensures MoveIds(MoveIds(sets, oldState, newState, one), oldState, newState, two) == MoveIds(sets, oldState, newState, one + two)
  {
    var a := MoveIds(MoveIds(sets, oldState, newState, one), oldState, newState, two);
    var b := MoveIds(sets, oldState, newState, one + two);
    forall t | t in a.members ensures a.members[t] == b.members[t] {
      forall id ensures id in a.At(t) <==> id in b.At(t) {
        MoveIdsAt(MoveIds(sets, oldState, newState, one), oldState, newState, two, t, id);
        MoveIdsAt(sets, oldState, newState, one, t, id);
        MoveIdsAt(sets, oldState, newState, one + two, t, id);
      }
      assert a.At(t) == b.At(t);
    }
    assert a.members == b.members;
  }

  function IdsOf(programs: seq<Program>): set<Id> {
    set i | 0 <= i < |programs| :: programs[i].id
  }

  function Elements(ids: seq<Id>): set<Id> {
    set id | id in ids
  }

  lemma ElementsAppend(one: seq<Id>, two: seq<Id>)
    ensures Elements(one + two) == Elements(one) + Elements(two)
  {
  }

  function Patched(p: Program, newState: ProgramState, counter: nat): Program {
    p.(state := newState, atomicCounter := counter)
  }

  /** `after` is `before` with a new state and a new stamp, and nothing else. */
  ghost predicate MovedTo(before: Program, after: Program, newState: ProgramState, stamp: nat) {
    && after.state == newState && after.atomicCounter == stamp
    && after.(state := before.state, atomicCounter := before.atomicCounter) == before
  }

  /** Blobs after writing the programs in list order with counters
      base + 1, base + 2, ... */
  function WriteRun(blobs: map<Id, Program>, programs: seq<Program>, newState: ProgramState, base: nat): map<Id, Program> {
    if programs == [] then blobs
    else
      var n := |programs| - 1;
      var p := programs[n];
      WriteRun(blobs, programs[..n], newState, base)[p.id := Patched(p, newState, base + n + 1)]
  }

  function BatchStateDb(db: Db, programs: seq<Program>, oldState: ProgramState, newState: ProgramState): Db {
    if programs == [] then db
    else Db(WriteRun(db.blobs, programs, newState, db.counter),
            MoveIds(db.sets, oldState, newState, IdsOf(programs)), db.counter + |programs|)
  }

  lemma {:induction false} WriteRunKeys(blobs: map<Id, Program>, programs: seq<Program>, newState: ProgramState, base: nat)
    ensures var after := WriteRun(blobs, programs, newState, base);
            after.Keys == blobs.Keys + IdsOf(programs)
            && (forall id :: id in after && id !in IdsOf(programs) ==> after[id] == blobs[id])
            && (forall id :: id in IdsOf(programs) ==> after[id].state == newState)
    decreases |programs|
  {
    if programs != [] {
      var n := |programs| - 1;
      WriteRunKeys(blobs, programs[..n], newState, base);
      assert IdsOf(programs) == IdsOf(programs[..n]) + {programs[n].id};
    }
  }

  lemma {:induction false} WriteRunAppend(blobs: map<Id, Program>, one: seq<Program>, two: seq<Program>, newState: ProgramState, base: nat)
    ensures WriteRun(blobs, one + two, newState, base) == WriteRun(WriteRun(blobs, one, newState, base), two, newState, base + |one|)
    decreases |two|
  {
    if two == [] {
      assert one + two == one;
    } else {
      var n := |two| - 1;
      assert (one + two)[..|one + two| - 1] == one + two[..n];
      WriteRunAppend(blobs, one, two[..n], newState, base);
    }
  }

  lemma {:induction false} IdsOfAppend(one: seq<Program>, two: seq<Program>)
    ensures IdsOf(one + two) == IdsOf(one) + IdsOf(two)
  {
    forall i | 0 <= i < |one + two| ensures (one + two)[i].id in IdsOf(one) + IdsOf(two) {
      if i < |one| { assert (one + two)[i] == one[i]; } else { assert (one + two)[i] == two[i - |one|]; }
    }
    forall i | 0 <= i < |one| ensures one[i].id in IdsOf(one + two) { assert (one + two)[i] == one[i]; }
    forall i | 0 <= i < |two| ensures two[i].id in IdsOf(one + two) { assert (one + two)[|one| + i] == two[i]; }
  }

  lemma {:induction false} WriteRunNext(blobs: map<Id, Program>, programs: seq<Program>, newState: ProgramState, base: nat, k: nat)
    requires k < |programs|
    ensures WriteRun(blobs, programs[..k + 1], newState, base) ==
            WriteRun(blobs, programs[..k], newState, base)[programs[k].id := Patched(programs[k], newState, base + k + 1)]
    ensures IdsOf(programs[..k + 1]) == IdsOf(programs[..k]) + {programs[k].id}
  {
    assert programs[..k + 1][..k] == programs[..k];
    assert programs[..k + 1] == programs[..k] + [programs[k]];
    IdsOfAppend(programs[..k], [programs[k]]);
  }

  /** Splitting a batch anywhere makes no difference, so neither does the
      chunk size. */
  lemma {:induction false} BatchStateAppend(db: Db, one: seq<Program>, two: seq<Program>, oldState: ProgramState, newState: ProgramState)
    ensures BatchStateDb(BatchStateDb(db, one, oldState, newState), two, oldState, newState) == BatchStateDb(db, one + two, oldState, newState)
  {
    if one == [] {
      assert one + two == two;
    } else if two == [] {
      assert one + two == one;
    } else {
      WriteRunAppend(db.blobs, one, two, newState, db.counter);
      IdsOfAppend(one, two);
      MoveIdsAppend(db.sets, oldState, newState, IdsOf(one), IdsOf(two));
    }
  }

  ghost predicate LastMention(programs: seq<Program>, k: int, id: Id)
    requires 0 <= k < |programs|
  {
    programs[k].id == id && forall j :: k < j < |programs| ==> programs[j].id != id
  }

  lemma {:induction false} WriteRunLast(blobs: map<Id, Program>, programs: seq<Program>, newState: ProgramState, base: nat, k: nat)
    requires k < |programs| && LastMention(programs, k, programs[k].id)
    ensures var after := WriteRun(blobs, programs, newState, base);
            programs[k].id in after && after[programs[k].id] == Patched(programs[k], newState, base + k + 1)
    decreases |programs|
  {
    var n := |programs| - 1;
    if k < n {
      assert programs[..n][k] == programs[k];
      WriteRunLast(blobs, programs[..n], newState, base, k);
    }
  }

  /** What a batch of programs leaves behind, id by id: the last mention of a
      program is stored in the new state, with the stamp of its position. */
  lemma {:induction false} BatchStateAt(db: Db, programs: seq<Program>, oldState: ProgramState, newState: ProgramState, id: Id, s: ProgramState)
    ensures var after := BatchStateDb(db, programs, oldState, newState);
            var listed := id in IdsOf(programs);
            && (id in after.blobs <==> id in db.blobs || listed)
            && (id in after.blobs ==> after.blobs[id].state == if listed then newState else db.blobs[id].state)
            && (id in after.sets.At(s) <==> if listed && s == newState then true else if listed && s == oldState then false else id in db.sets.At(s))
            && (id in db.blobs && !listed ==> after.blobs[id] == db.blobs[id])
            && after.counter == db.counter + |programs|
    ensures forall k :: 0 <= k < |programs| && LastMention(programs, k, id) ==>
              id in BatchStateDb(db, programs, oldState, newState).blobs
              && MovedTo(programs[k], BatchStateDb(db, programs, oldState, newState).blobs[id], newState, db.counter + k + 1)
  {
    forall k | 0 <= k < |programs| && LastMention(programs, k, id)
      ensures id in WriteRun(db.blobs, programs, newState, db.counter)
      ensures MovedTo(programs[k], WriteRun(db.blobs, programs, newState, db.counter)[id], newState, db.counter + k + 1)
    {
      WriteRunLast(db.blobs, programs, newState, db.counter, k);
    }
    if programs != [] {
      WriteRunKeys(db.blobs, programs, newState, db.counter);
      MoveIdsAt(db.sets, oldState, newState, IdsOf(programs), s, id);
    }
  }

  /** What a batch of programs leaves of the whole database. */
  ghost predicate BatchWrote(before: Db, programs: seq<Program>, oldState: ProgramState, newState: ProgramState, after: Db) {
    && after.counter == before.counter + |programs|
    && after.blobs.Keys == before.blobs.Keys + IdsOf(programs)
    && (forall id :: id in before.blobs && id !in IdsOf(programs) ==> after.blobs[id] == before.blobs[id])
    && (forall k :: 0 <= k < |programs| && LastMention(programs, k, programs[k].id) ==>
          programs[k].id in after.blobs && MovedTo(programs[k], after.blobs[programs[k].id], newState, before.counter + k + 1))
    && SetsMoved(before.sets, after.sets, IdsOf(programs), {oldState}, {newState})
  }

  lemma {:induction false} BatchStateWrites(db: Db, programs: seq<Program>, oldState: ProgramState, newState: ProgramState)
    ensures BatchWrote(db, programs, oldState, newState, BatchStateDb(db, programs, oldState, newState))
  {
    var after := BatchStateDb(db, programs, oldState, newState);
    WriteRunKeys(db.blobs, programs, newState, db.counter);
    forall id, s ensures id in after.sets.At(s) <==>
                         if id in IdsOf(programs) && s in {newState} then true
                         else if id in IdsOf(programs) && s in {oldState} then false else id in db.sets.At(s)
    {
      BatchStateAt(db, programs, oldState, newState, id, s);
    }
    forall k | 0 <= k < |programs| && LastMention(programs, k, programs[k].id)
      ensures programs[k].id in after.blobs && MovedTo(programs[k], after.blobs[programs[k].id], newState, db.counter + k + 1)
    {
      BatchStateAt(db, programs, oldState, newState, programs[k].id, newState);
    }
  }

  ghost predicate StoredIn(db: Db, ids: set<Id>, states: set<ProgramState>) {
    forall id :: id in ids && id in db.blobs ==> db.blobs[id].state in states
  }

  /** Like the fast path, a batch of programs keeps the index exactly when
      each listed program is new, or stored in the old or the new state. */
  lemma {:induction false} BatchStateKeepsIndexIff(db: Db, programs: seq<Program>, oldState: ProgramState, newState: ProgramState)
    requires IndexInv(db)
    ensures IndexInv(BatchStateDb(db, programs, oldState, newState)) <==> StoredIn(db, IdsOf(programs), {oldState, newState})
  {
    var after := BatchStateDb(db, programs, oldState, newState);
    if StoredIn(db, IdsOf(programs), {oldState, newState}) {
      forall id, s ensures id in after.sets.At(s) <==> id in after.blobs && after.blobs[id].state == s {
        IndexAt(db, id, s);
        BatchStateAt(db, programs, oldState, newState, id, s);
      }
    } else {
      var id :| id in IdsOf(programs) && id in db.blobs && db.blobs[id].state !in {oldState, newState};
      var s := db.blobs[id].state;
      IndexAt(db, id, s);
      BatchStateAt(db, programs, oldState, newState, id, s);
      if IndexInv(after) {
        IndexAt(after, id, s);
      }
    }
  }

  /** The listed ids whose stored state is `oldState`, in list order. */
  function Matching(blobs: map<Id, Program>, ids: seq<Id>, oldState: ProgramState): (r: seq<Id>)
  {
    if ids == [] then []
    else
      var n := |ids| - 1;
      Matching(blobs, ids[..n], oldState) + (if ids[n] in blobs && blobs[ids[n]].state == oldState then [ids[n]] else [])
  }

  function Patch1(blobs: map<Id, Program>, id: Id, newState: ProgramState, counter: nat): (r: map<Id, Program>)
    ensures forall k :: k in r <==> k in blobs
  {
    if id in blobs then blobs[id := Patched(blobs[id], newState, counter)] else blobs
  }

  /** Blobs after patching the matched ids in list order. */
  function PatchRun(blobs: map<Id, Program>, matched: seq<Id>, newState: ProgramState, base: nat): (r: map<Id, Program>)
    ensures forall k :: k in r <==> k in blobs
  {
    if matched == [] then blobs
    else
      var n := |matched| - 1;
      Patch1(PatchRun(blobs, matched[..n], newState, base), matched[n], newState, base + n + 1)
  }

  function MoveMatched(db: Db, matched: seq<Id>, oldState: ProgramState, newState: ProgramState): Db {
    if matched == [] then db
    else Db(PatchRun(db.blobs, matched, newState, db.counter),
            MoveIds(db.sets, oldState, newState, Elements(matched)), db.counter + |matched|)
  }

  /** One unchunked pass over the ids. */
  function BatchIdsDb(db: Db, ids: seq<Id>, oldState: ProgramState, newState: ProgramState): Db {
    MoveMatched(db, Matching(db.blobs, ids, oldState), oldState, newState)
  }

  datatype Batch = Batch(db: Db, count: nat)

  /** The same work in chunks of `size`, carrying the database and the number
      of programs moved so far. */
  function ChunkedBatchIds(b: Batch, ids: seq<Id>, oldState: ProgramState, newState: ProgramState, size: nat): Batch
    requires size > 0
    decreases |ids|
  {
    if ids == [] then b
    else
      var n := Lesser(size, |ids|);
      ChunkedBatchIds(NextBatch(b, ids[..n], oldState, newState), ids[n..], oldState, newState, size)
  }

  function NextBatch(b: Batch, chunk: seq<Id>, oldState: ProgramState, newState: ProgramState): Batch {
    Batch(BatchIdsDb(b.db, chunk, oldState, newState), b.count + |Matching(b.db.blobs, chunk, oldState)|)
  }

  lemma {:induction false} MatchingMembers(blobs: map<Id, Program>, ids: seq<Id>, oldState: ProgramState)
    ensures forall id :: id in Matching(blobs, ids, oldState) <==> id in ids && id in blobs && blobs[id].state == oldState
    decreases |ids|
  {
    if ids != [] {
      var n := |ids| - 1;
      MatchingMembers(blobs, ids[..n], oldState);
      assert ids == ids[..n] + [ids[n]];
    }
  }

  /** What patching does to each program. */
  lemma {:induction false} PatchRunAt(blobs: map<Id, Program>, matched: seq<Id>, newState: ProgramState, base: nat, id: Id)
    requires id in blobs
    ensures var after := PatchRun(blobs, matched, newState, base);
            after[id] == if id in matched then Patched(blobs[id], newState, after[id].atomicCounter) else blobs[id]
    decreases |matched|
  {
    if matched != [] {
      var n := |matched| - 1;
      PatchRunAt(blobs, matched[..n], newState, base, id);
      assert matched == matched[..n] + [matched[n]];
    }
  }

  lemma {:induction false} PatchRunMeaning(blobs: map<Id, Program>, matched: seq<Id>, newState: ProgramState, base: nat)
    ensures var after := PatchRun(blobs, matched, newState, base);
            && (forall id :: id in blobs && id !in matched ==> after[id] == blobs[id])
            && (forall id :: id in blobs && id in matched ==> after[id] == Patched(blobs[id], newState, after[id].atomicCounter))
  {
    forall id | id in blobs {
      PatchRunAt(blobs, matched, newState, base, id);
    }
  }

  lemma {:induction false} PatchRunStamps(blobs: map<Id, Program>, matched: seq<Id>, newState: ProgramState, base: nat, i: nat)
    requires forall id :: id in matched ==> id in blobs
    requires Distinct(matched) && i < |matched|
    ensures PatchRun(blobs, matched, newState, base)[matched[i]].atomicCounter == base + i + 1
    decreases |matched|
  {
    var n := |matched| - 1;
    assert matched[n] in blobs;
    if i < n {
      assert matched[..n][i] == matched[i] != matched[n];
      PatchRunStamps(blobs, matched[..n], newState, base, i);
    }
  }

  lemma {:induction false} MatchingDistinct(blobs: map<Id, Program>, ids: seq<Id>, oldState: ProgramState)
    requires Distinct(ids)
    ensures Distinct(Matching(blobs, ids, oldState))
    decreases |ids|
  {
    if ids != [] {
      var n := |ids| - 1;
      MatchingDistinct(blobs, ids[..n], oldState);
      var init := Matching(blobs, ids[..n], oldState);
      MatchingMembers(blobs, ids[..n], oldState);
      assert ids[n] !in ids[..n];
      forall i | 0 <= i < |init| ensures init[i] != ids[n] { assert init[i] in init; }
    }
  }

  /** A batch by ids moves exactly the listed programs stored in the old
      state, stamping them in list order; every other blob is untouched. */
  lemma {:induction false} BatchIdsBlobs(db: Db, ids: seq<Id>, oldState: ProgramState, newState: ProgramState)
    requires Distinct(ids)
    ensures var after := BatchIdsDb(db, ids, oldState, newState);
            var moved := Matching(db.blobs, ids, oldState);
            && after.blobs.Keys == db.blobs.Keys
            && after.counter == db.counter + |moved|
            && Distinct(moved)
            && (forall id :: id in moved <==> id in ids && id in db.blobs && db.blobs[id].state == oldState)
            && (forall i :: 0 <= i < |moved| ==> MovedTo(db.blobs[moved[i]], after.blobs[moved[i]], newState, db.counter + 1 + i))
            && (forall id :: id in db.blobs && id !in moved ==> after.blobs[id] == db.blobs[id])
  {
    var moved := Matching(db.blobs, ids, oldState);
    MatchingDistinct(db.blobs, ids, oldState);
    MatchingMembers(db.blobs, ids, oldState);
    MovedBlobs(db, moved, oldState, newState);
  }

  lemma {:induction false} MovedBlobs(db: Db, moved: seq<Id>, oldState: ProgramState, newState: ProgramState)
    requires Distinct(moved) && forall id :: id in moved ==> id in db.blobs
    ensures var after := MoveMatched(db, moved, oldState, newState);
            && after.blobs.Keys == db.blobs.Keys
            && after.counter == db.counter + |moved|
            && (forall i :: 0 <= i < |moved| ==> after.blobs[moved[i]] == Patched(db.blobs[moved[i]], newState, db.counter + 1 + i))
            && (forall id :: id in db.blobs && id !in moved ==> after.blobs[id] == db.blobs[id])
  {
    var after := MoveMatched(db, moved, oldState, newState);
    if moved != [] {
      PatchRunMeaning(db.blobs, moved, newState, db.counter);
      forall i | 0 <= i < |moved| ensures after.blobs[moved[i]] == Patched(db.blobs[moved[i]], newState, db.counter + 1 + i) {
        PatchRunEach(db.blobs, moved, newState, db.counter, i);
      }
    }
  }

  lemma {:induction false} PatchRunEach(blobs: map<Id, Program>, matched: seq<Id>, newState: ProgramState, base: nat, i: nat)
    requires forall id :: id in matched ==> id in blobs
    requires Distinct(matched) && i < |matched|
    ensures PatchRun(blobs, matched, newState, base)[matched[i]] == Patched(blobs[matched[i]], newState, base + 1 + i)
  {
    assert matched[i] in matched;
    PatchRunAt(blobs, matched, newState, base, matched[i]);
    PatchRunStamps(blobs, matched, newState, base, i);
  }

  /** ... and the moved ids change sets, everything else about the sets stays. */
  lemma {:induction false} BatchIdsSets(db: Db, ids: seq<Id>, oldState: ProgramState, newState: ProgramState, id: Id, s: ProgramState)
    ensures var moved := id in ids && id in db.blobs && db.blobs[id].state == oldState;
            id in BatchIdsDb(db, ids, oldState, newState).sets.At(s) <==>
            if moved && s == newState then true
            else if moved && s == oldState then false
            else id in db.sets.At(s)
  {
    var matched := Matching(db.blobs, ids, oldState);
    MatchingMembers(db.blobs, ids, oldState);
    assert id in matched <==> id in ids && id in db.blobs && db.blobs[id].state == oldState;
    if matched != [] {
      MoveIdsAt(db.sets, oldState, newState, Elements(matched), s, id);
    }
  }

  lemma {:induction false} BatchIdsKeepsIndex(db: Db, ids: seq<Id>, oldState: ProgramState, newState: ProgramState)
    requires IndexInv(db)
    ensures IndexInv(BatchIdsDb(db, ids, oldState, newState))
  {
    var after := BatchIdsDb(db, ids, oldState, newState);
    var moved := Matching(db.blobs, ids, oldState);
    MatchingMembers(db.blobs, ids, oldState);
    PatchRunMeaning(db.blobs, moved, newState, db.counter);
    forall id, s ensures id in after.sets.At(s) <==> id in after.blobs && after.blobs[id].state == s {
      IndexAt(db, id, s);
      BatchIdsSets(db, ids, oldState, newState, id, s);
      assert id in moved <==> id in ids && id in db.blobs && db.blobs[id].state == oldState;
    }
  }

  // ---------------------------------------------------------------- chunking

  lemma {:induction false} MatchingAppend(blobs: map<Id, Program>, one: seq<Id>, two: seq<Id>, oldState: ProgramState)
    ensures Matching(blobs, one + two, oldState) == Matching(blobs, one, oldState) + Matching(blobs, two, oldState)
    decreases |two|
  {
    if two == [] {
      assert one + two == one;
    } else {
      var n := |two| - 1;
      assert (one + two)[..|one + two| - 1] == one + two[..n];
      MatchingAppend(blobs, one, two[..n], oldState);
    }
  }

  lemma {:induction false} MatchingCongruent(a: map<Id, Program>, b: map<Id, Program>, ids: seq<Id>, oldState: ProgramState)
    requires a.Keys == b.Keys
    requires forall id :: id in ids && id in a ==> a[id].state == b[id].state
    ensures Matching(a, ids, oldState) == Matching(b, ids, oldState)
    decreases |ids|
  {
    if ids != [] {
      var n := |ids| - 1;
      assert ids == ids[..n] + [ids[n]];
      MatchingCongruent(a, b, ids[..n], oldState);
    }
  }

  lemma {:induction false} PatchRunAppend(blobs: map<Id, Program>, one: seq<Id>, two: seq<Id>, newState: ProgramState, base: nat)
    ensures PatchRun(blobs, one + two, newState, base) == PatchRun(PatchRun(blobs, one, newState, base), two, newState, base + |one|)
    decreases |two|
  {
    if two == [] {
      assert one + two == one;
    } else {
      var n := |two| - 1;
      assert (one + two)[..|one + two| - 1] == one + two[..n];
      assert two == two[..n] + [two[n]];
      PatchRunAppend(blobs, one, two[..n], newState, base);
    }
  }

  lemma {:induction false} PatchRunNext(blobs: map<Id, Program>, matched: seq<Id>, newState: ProgramState, base: nat, k: nat)
    requires k < |matched|
    ensures PatchRun(blobs, matched[..k + 1], newState, base) ==
            Patch1(PatchRun(blobs, matched[..k], newState, base), matched[k], newState, base + k + 1)
  {
    assert matched[..k + 1][..k] == matched[..k];
  }

  lemma {:induction false} MatchingNext(blobs: map<Id, Program>, ids: seq<Id>, oldState: ProgramState, k: nat)
    requires k < |ids|
    ensures Matching(blobs, ids[..k + 1], oldState) ==
            Matching(blobs, ids[..k], oldState) + (if ids[k] in blobs && blobs[ids[k]].state == oldState then [ids[k]] else [])
  {
    assert ids[..k + 1][..k] == ids[..k];
  }

  predicate Matches(blobs: map<Id, Program>, id: Id, s: ProgramState) { id in blobs && blobs[id].state == s }

  /** No id that a batch would move is listed in both halves, or moving leaves
      it where it is. */
  ghost predicate HalvesApart(blobs: map<Id, Program>, one: seq<Id>, two: seq<Id>, oldState: ProgramState, newState: ProgramState) {
    oldState == newState || forall id :: id in one && id in two ==> !Matches(blobs, id, oldState)
  }

  /** A batch keeps every key, and moves the matching listed ids to its state. */
  lemma {:induction false} BatchIdsStates(db: Db, ids: seq<Id>, oldState: ProgramState, newState: ProgramState, id: Id)
    ensures id in BatchIdsDb(db, ids, oldState, newState).blobs <==> id in db.blobs
    ensures id in db.blobs ==>
              BatchIdsDb(db, ids, oldState, newState).blobs[id].state
              == (if id in ids && Matches(db.blobs, id, oldState) then newState else db.blobs[id].state)
  {
    MatchingMembers(db.blobs, ids, oldState);
    PatchRunMeaning(db.blobs, Matching(db.blobs, ids, oldState), newState, db.counter);
  }

  lemma {:induction false} MatchingAfterApartBatch(db: Db, one: seq<Id>, two: seq<Id>, oldState: ProgramState, newState: ProgramState)
    requires HalvesApart(db.blobs, one, two, oldState, newState)
    ensures Matching(BatchIdsDb(db, one, oldState, newState).blobs, two, oldState) == Matching(db.blobs, two, oldState)
  {
    var after := BatchIdsDb(db, one, oldState, newState);
    forall id ensures id in after.blobs <==> id in db.blobs {
      BatchIdsStates(db, one, oldState, newState, id);
    }
    forall id | id in two && id in after.blobs ensures after.blobs[id].state == db.blobs[id].state {
      BatchIdsStates(db, one, oldState, newState, id);
    }
    MatchingCongruent(after.blobs, db.blobs, two, oldState);
  }

  lemma {:induction false} MoveMatchedAppend(db: Db, one: seq<Id>, two: seq<Id>, oldState: ProgramState, newState: ProgramState)
    ensures MoveMatched(MoveMatched(db, one, oldState, newState), two, oldState, newState) == MoveMatched(db, one + two, oldState, newState)
  {
    if one == [] {
      assert one + two == two;
    } else if two == [] {
      assert one + two == one;
    } else {
      PatchRunAppend(db.blobs, one, two, newState, db.counter);
      ElementsAppend(one, two);
      MoveIdsAppend(db.sets, oldState, newState, Elements(one), Elements(two));
    }
  }

  lemma {:induction false} BatchIdsAppend(db: Db, one: seq<Id>, two: seq<Id>, oldState: ProgramState, newState: ProgramState)
    requires HalvesApart(db.blobs, one, two, oldState, newState)
    ensures BatchIdsDb(BatchIdsDb(db, one, oldState, newState), two, oldState, newState) == BatchIdsDb(db, one + two, oldState, newState)
    ensures |Matching(db.blobs, one, oldState)| + |Matching(BatchIdsDb(db, one, oldState, newState).blobs, two, oldState)|
            == |Matching(db.blobs, one + two, oldState)|
  {
    MatchingAfterApartBatch(db, one, two, oldState, newState);
    MatchingAppend(db.blobs, one, two, oldState);
    MoveMatchedAppend(db, Matching(db.blobs, one, oldState), Matching(db.blobs, two, oldState), oldState, newState);
  }

  /** No id the batch would move is listed twice. */
  ghost predicate MovesOnce(blobs: map<Id, Program>, ids: seq<Id>, oldState: ProgramState) {
    forall i, j :: 0 <= i < j < |ids| && ids[i] == ids[j] ==> !Matches(blobs, ids[i], oldState)
  }

  lemma {:induction false} HalvesMoveOnce(db: Db, ids: seq<Id>, n: nat, oldState: ProgramState, newState: ProgramState)
    requires n <= |ids| && MovesOnce(db.blobs, ids, oldState) && oldState != newState
    ensures HalvesApart(db.blobs, ids[..n], ids[n..], oldState, newState)
    ensures MovesOnce(BatchIdsDb(db, ids[..n], oldState, newState).blobs, ids[n..], oldState)
  {
    var one, two := ids[..n], ids[n..];
    forall id | id in one && id in two ensures !Matches(db.blobs, id, oldState) {
      var i :| 0 <= i < n && ids[i] == id;
      var j :| 0 <= j < |two| && two[j] == id;
      assert ids[n + j] == id;
    }
    var after := BatchIdsDb(db, one, oldState, newState).blobs;
    forall i, j | 0 <= i < j < |two| && two[i] == two[j] ensures !Matches(after, two[i], oldState) {
      assert ids[n + i] == ids[n + j];
      BatchIdsStates(db, one, oldState, newState, two[i]);
    }
  }

  lemma {:induction false} ChunkedStep(b: Batch, ids: seq<Id>, oldState: ProgramState, newState: ProgramState, size: nat, i: nat, i': nat)
    requires size > 0 && i < |ids| && i' == i + Lesser(size, |ids| - i)
    ensures ChunkedBatchIds(b, ids[i..], oldState, newState, size) ==
            ChunkedBatchIds(NextBatch(b, ids[i..i'], oldState, newState), ids[i'..], oldState, newState, size)
  {
    assert ids[i..][..i' - i] == ids[i..i'] && ids[i..][i' - i..] == ids[i'..];
  }

  lemma {:induction false} NextBatchAppend(b: Batch, one: seq<Id>, two: seq<Id>, oldState: ProgramState, newState: ProgramState)
    requires HalvesApart(b.db.blobs, one, two, oldState, newState)
    ensures NextBatch(NextBatch(b, one, oldState, newState), two, oldState, newState) == NextBatch(b, one + two, oldState, newState)
  {
    BatchIdsAppend(b.db, one, two, oldState, newState);
  }

  /** Where no id would be moved twice, or moving changes nothing, the chunk size
      is invisible: chunked and one-shot passes give the same database and count. */
  lemma {:induction false} ChunkedRefinesOneShot(b: Batch, ids: seq<Id>, oldState: ProgramState, newState: ProgramState, size: nat)
    requires size > 0 && (oldState == newState || MovesOnce(b.db.blobs, ids, oldState))
    ensures ChunkedBatchIds(b, ids, oldState, newState, size) == NextBatch(b, ids, oldState, newState)
    decreases |ids|
  {
    if ids != [] {
      var n := Lesser(size, |ids|);
      var one, two := ids[..n], ids[n..];
      assert ids == one + two;
      if oldState != newState {
        HalvesMoveOnce(b.db, ids, n, oldState, newState);
      }
      ChunkedRefinesOneShot(NextBatch(b, one, oldState, newState), two, oldState, newState, size);
      NextBatchAppend(b, one, two, oldState, newState);
    } else {
      assert Matching(b.db.blobs, ids, oldState) == [];
    }
  }

  lemma {:induction false} FewerMatches(a: map<Id, Program>, b: map<Id, Program>, ids: seq<Id>, s: ProgramState)
    requires forall id :: Matches(a, id, s) ==> Matches(b, id, s)
    ensures |Matching(a, ids, s)| <= |Matching(b, ids, s)|
    ensures (exists id :: id in ids && Matches(b, id, s) && !Matches(a, id, s)) ==> |Matching(a, ids, s)| < |Matching(b, ids, s)|
    decreases |ids|
  {
    if ids != [] {
      var n := |ids| - 1;
      FewerMatches(a, b, ids[..n], s);
      assert Matches(a, ids[n], s) ==> Matches(b, ids[n], s);
      if id :| id in ids && Matches(b, id, s) && !Matches(a, id, s) {
        assert id in ids[..n] || id == ids[n];
      }
    }
  }

  /** Moving away from a state only ever leaves fewer programs in it. */
  lemma {:induction false} BatchLeavesFewer(db: Db, ids: seq<Id>, oldState: ProgramState, newState: ProgramState, rest: seq<Id>)
    requires oldState != newState
    ensures |Matching(BatchIdsDb(db, ids, oldState, newState).blobs, rest, oldState)| <= |Matching(db.blobs, rest, oldState)|
    ensures (exists id :: id in ids && id in rest && Matches(db.blobs, id, oldState)) ==>
              |Matching(BatchIdsDb(db, ids, oldState, newState).blobs, rest, oldState)| < |Matching(db.blobs, rest, oldState)|
  {
    var after := BatchIdsDb(db, ids, oldState, newState).blobs;
    forall id ensures Matches(after, id, oldState) <==> Matches(db.blobs, id, oldState) && id !in ids {
      BatchIdsStates(db, ids, oldState, newState, id);
    }
    FewerMatches(after, db.blobs, rest, oldState);
  }

  lemma {:induction false} ChunkCountAtMost(b: Batch, ids: seq<Id>, oldState: ProgramState, newState: ProgramState, size: nat)
    requires size > 0 && oldState != newState
    ensures ChunkedBatchIds(b, ids, oldState, newState, size).count <= b.count + |Matching(b.db.blobs, ids, oldState)|
    decreases |ids|
  {
    if ids != [] {
      var n := Lesser(size, |ids|);
      assert ids == ids[..n] + ids[n..];
      ChunkCountAtMost(NextBatch(b, ids[..n], oldState, newState), ids[n..], oldState, newState, size);
      BatchLeavesFewer(b.db, ids[..n], oldState, newState, ids[n..]);
      MatchingAppend(b.db.blobs, ids[..n], ids[n..], oldState);
    }
  }

  lemma {:induction false} FirstChunk(b: Batch, ids: seq<Id>, oldState: ProgramState, newState: ProgramState, size: nat)
    requires 0 < size <= |ids|
    ensures ChunkedBatchIds(b, ids, oldState, newState, size)
            == ChunkedBatchIds(NextBatch(b, ids[..size], oldState, newState), ids[size..], oldState, newState, size)
  {
    assert Lesser(size, |ids|) == size;
  }

  lemma {:induction false} ShareALoss(db: Db, one: seq<Id>, two: seq<Id>, oldState: ProgramState, newState: ProgramState, id: Id)
    requires oldState != newState && id in one && id in two && Matches(db.blobs, id, oldState)
    ensures |Matching(db.blobs, one, oldState)| + |Matching(BatchIdsDb(db, one, oldState, newState).blobs, two, oldState)|
            < |Matching(db.blobs, one + two, oldState)|
  {
    BatchLeavesFewer(db, one, oldState, newState, two);
    MatchingAppend(db.blobs, one, two, oldState);
  }

  /** Splitting a list right before the second mention of a program it moves
      counts that program once less. */
  lemma {:induction false} SplitCountsLess(b: Batch, ids: seq<Id>, oldState: ProgramState, newState: ProgramState, i: nat, j: nat)
    requires i < j < |ids| && ids[i] == ids[j] && Matches(b.db.blobs, ids[i], oldState) && oldState != newState
    ensures ChunkedBatchIds(b, ids, oldState, newState, j).count < NextBatch(b, ids, oldState, newState).count
  {
    var one, two := ids[..j], ids[j..];
    assert ids == one + two && one[i] == ids[i] && two[0] == ids[j];
    FirstChunk(b, ids, oldState, newState, j);
    ChunkCountAtMost(NextBatch(b, one, oldState, newState), two, oldState, newState, j);
    ShareALoss(b.db, one, two, oldState, newState, ids[i]);
  }

  /** The chunk size is invisible exactly when the move is to the same state, or
      no id stored in the old state is listed twice. */
  lemma {:induction false} ChunkSizeIsInvisibleIff(b: Batch, ids: seq<Id>, oldState: ProgramState, newState: ProgramState)
    ensures (forall size: nat :: size > 0 ==> ChunkedBatchIds(b, ids, oldState, newState, size) == NextBatch(b, ids, oldState, newState))
            <==> oldState == newState || MovesOnce(b.db.blobs, ids, oldState)
  {
    if oldState == newState || MovesOnce(b.db.blobs, ids, oldState) {
      forall size: nat | size > 0 ensures ChunkedBatchIds(b, ids, oldState, newState, size) == NextBatch(b, ids, oldState, newState) {
        ChunkedRefinesOneShot(b, ids, oldState, newState, size);
      }
    } else {
      var i, j :| 0 <= i < j < |ids| && ids[i] == ids[j] && Matches(b.db.blobs, ids[i], oldState);
      SplitCountsLess(b, ids, oldState, newState, i, j);
    }
  }

  lemma {:induction false} ChunksKeepIndex(b: Batch, ids: seq<Id>, oldState: ProgramState, newState: ProgramState, size: nat)
    requires size > 0 && IndexInv(b.db)
    ensures IndexInv(ChunkedBatchIds(b, ids, oldState, newState, size).db)
    decreases |ids|
  {
    if ids != [] {
      var n := Lesser(size, |ids|);
      BatchIdsKeepsIndex(b.db, ids[..n], oldState, newState);
      ChunksKeepIndex(NextBatch(b, ids[..n], oldState, newState), ids[n..], oldState, newState, size);
    }
  }

  // ---------------------------------------------------------------- what a chunked batch leaves

  /** The listed ids that were stored in the old state. */
  ghost function MovedIds(blobs: map<Id, Program>, ids: seq<Id>, oldState: ProgramState): set<Id> {
    set id | id in blobs && id in ids && blobs[id].state == oldState
  }

  ghost predicate BlobsMoved(before: Db, moved: set<Id>, newState: ProgramState, after: Db) {
    && before.counter <= after.counter && after.blobs.Keys == before.blobs.Keys
    && forall id :: id in before.blobs ==>
         if id in moved then before.counter < after.blobs[id].atomicCounter <= after.counter
                             && MovedTo(before.blobs[id], after.blobs[id], newState, after.blobs[id].atomicCounter)
         else after.blobs[id] == before.blobs[id]
  }

  /** What a batch by ids leaves of the whole database, in however many chunks
      it ran and however often an id is listed: the listed programs stored in the
      old state have the new state and a fresh stamp, and nothing else changed. */
  ghost predicate BatchMoved(before: Db, ids: seq<Id>, oldState: ProgramState, newState: ProgramState, after: Db) {
    && BlobsMoved(before, MovedIds(before.blobs, ids, oldState), newState, after)
    && SetsMoved(before.sets, after.sets, MovedIds(before.blobs, ids, oldState), {oldState}, {newState})
  }

  lemma {:induction false} PatchRunRange(blobs: map<Id, Program>, matched: seq<Id>, newState: ProgramState, base: nat, id: Id)
    requires id in blobs && id in matched
    ensures base < PatchRun(blobs, matched, newState, base)[id].atomicCounter <= base + |matched|
    decreases |matched|
  {
    var n := |matched| - 1;
    assert matched == matched[..n] + [matched[n]];
    if matched[n] != id {
      PatchRunRange(blobs, matched[..n], newState, base, id);
    }
  }

  lemma {:induction false} PassMovesBlobs(db: Db, ids: seq<Id>, oldState: ProgramState, newState: ProgramState)
    ensures BlobsMoved(db, MovedIds(db.blobs, ids, oldState), newState, BatchIdsDb(db, ids, oldState, newState))
  {
    var after, matched := BatchIdsDb(db, ids, oldState, newState), Matching(db.blobs, ids, oldState);
    MatchingMembers(db.blobs, ids, oldState);
    PatchRunMeaning(db.blobs, matched, newState, db.counter);
    forall id | id in matched ensures db.counter < after.blobs[id].atomicCounter <= after.counter {
      PatchRunRange(db.blobs, matched, newState, db.counter, id);
    }
  }

  lemma {:induction false} PassMovesSets(db: Db, ids: seq<Id>, oldState: ProgramState, newState: ProgramState)
    ensures SetsMoved(db.sets, BatchIdsDb(db, ids, oldState, newState).sets, MovedIds(db.blobs, ids, oldState), {oldState}, {newState})
  {
    var before, after, moved := db.sets, BatchIdsDb(db, ids, oldState, newState).sets, MovedIds(db.blobs, ids, oldState);
    forall id, s
      ensures id in after.At(s) <==> if id in moved && s == newState then true else if id in moved && s == oldState then false else id in before.At(s)
    {
      BatchIdsSets(db, ids, oldState, newState, id, s);
    }
  }

  lemma {:induction false} PassMoves(db: Db, ids: seq<Id>, oldState: ProgramState, newState: ProgramState)
    ensures BatchMoved(db, ids, oldState, newState, BatchIdsDb(db, ids, oldState, newState))
  {
    PassMovesBlobs(db, ids, oldState, newState);
    PassMovesSets(db, ids, oldState, newState);
  }

  lemma {:induction false} BlobsMovedOnward(a: Db, one: set<Id>, b: Db, two: set<Id>, c: Db, newState: ProgramState)
    requires BlobsMoved(a, one, newState, b) && BlobsMoved(b, two, newState, c)
    ensures BlobsMoved(a, one + two, newState, c)
  {
  }

  lemma {:induction false} SetsMovedOnward(a: StatusSets, one: set<Id>, b: StatusSets, two: set<Id>, c: StatusSets,
                                           from: set<ProgramState>, to: set<ProgramState>)
    requires SetsMoved(a, b, one, from, to) && SetsMoved(b, c, two, from, to)
    ensures SetsMoved(a, c, one + two, from, to)
  {
    forall id, s
      ensures id in c.At(s) <==>
              if id in one + two && s in to then true else if id in one + two && s in from then false else id in a.At(s)
    {
      assert id in b.At(s) <==> if id in one && s in to then true else if id in one && s in from then false else id in a.At(s);
    }
  }

  /** Moving the rest of a list moves what is left to move. */
  lemma {:induction false} MovedIdsSplit(a: Db, one: seq<Id>, b: Db, two: seq<Id>, oldState: ProgramState, newState: ProgramState)
    requires BlobsMoved(a, MovedIds(a.blobs, one, oldState), newState, b)
    ensures MovedIds(a.blobs, one, oldState) + MovedIds(b.blobs, two, oldState) == MovedIds(a.blobs, one + two, oldState)
  {
    forall id ensures id in MovedIds(a.blobs, one, oldState) + MovedIds(b.blobs, two, oldState)
                      <==> id in MovedIds(a.blobs, one + two, oldState)
    {
    }
  }

  lemma {:induction false} ChunksMove(b: Batch, ids: seq<Id>, oldState: ProgramState, newState: ProgramState, size: nat)
    requires size > 0
    ensures BatchMoved(b.db, ids, oldState, newState, ChunkedBatchIds(b, ids, oldState, newState, size).db)
    decreases |ids|
  {
    if ids == [] {
      assert MovedIds(b.db.blobs, ids, oldState) == {};
    } else {
      var n := Lesser(size, |ids|);
      var one, two := ids[..n], ids[n..];
      assert ids == one + two;
      var next := NextBatch(b, one, oldState, newState);
      var last := ChunkedBatchIds(next, two, oldState, newState, size);
      PassMoves(b.db, one, oldState, newState);
      ChunksMove(next, two, oldState, newState, size);
      MovedIdsSplit(b.db, one, next.db, two, oldState, newState);
      var m1, m2 := MovedIds(b.db.blobs, one, oldState), MovedIds(next.db.blobs, two, oldState);
      BlobsMovedOnward(b.db, m1, next.db, m2, last.db, newState);
      SetsMovedOnward(b.db.sets, m1, next.db.sets, m2, last.db.sets, {oldState}, {newState});
    }
  }
}
