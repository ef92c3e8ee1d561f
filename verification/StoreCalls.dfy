/** The writing calls of the program store, each as what it reads, the stamps it
    draws and what it sends (gigaevo/database/redis_program_storage.py). A batch
    stands for one of its chunks. */
module StoreCalls {
  import opened Wrappers
  import opened ProgramStates
  import opened Programs
  import opened Redis

  datatype Op =
    | Update(p: Program)
    | Transition(p: Program, claimed: Option<ProgramState>)
    | Add(p: Program)
    | Remove(id: Id)
    | Exclusive(p: Program)
    | Fast(p: Program, oldState: ProgramState, newState: ProgramState)
    | Batch(programs: seq<Program>, oldState: ProgramState, newState: ProgramState)
    | BatchIds(ids: seq<Id>, oldState: ProgramState, newState: ProgramState)

  /** The calls that WATCH, merge and try again; the others write blindly. */
  predicate Merging(op: Op) { op.Update? || op.Transition? }

  /** The blind calls that depend on a read. */
  predicate ReadsFirst(op: Op) { op.Add? || op.Remove? || op.BatchIds? }

  function Keys(op: Op): set<Id> {
    match op
    case Remove(id) => {id}
    case Batch(programs, _, _) => IdsOf(programs)
    case BatchIds(ids, _, _) => Elements(ids)
    case _ => {op.p.id}
  }

  /** The in-memory programs a call is given. */
  function Payload(op: Op): seq<Program> {
    match op
    case Remove(_) => []
    case Batch(programs, _, _) => programs
    case BatchIds(_, _, _) => []
    case _ => [op.p]
  }

  predicate Raises(blobs: map<Id, Program>, op: Op) {
    Merging(op) && Merged(Db(blobs, StatusSets(map[]), 0), op.p).Err?
  }

  /** How many stamps the call draws, and which keys it writes or deletes. */
  function Demand(blobs: map<Id, Program>, op: Op): nat {
    match op
    case Remove(_) => 0
    case Batch(programs, _, _) => |programs|
    case BatchIds(ids, oldState, _) => |Matching(blobs, ids, oldState)|
    case _ => 1
  }

  function Writes(blobs: map<Id, Program>, op: Op): set<Id> {
    if op.BatchIds? then Elements(Matching(blobs, op.ids, op.oldState)) else Keys(op)
  }

  /** The call run alone, drawing its stamps from the counter. */
  function Alone(db: Db, op: Op): Db {
    match op
    case Update(p) => UpdateDb(db, p)
    case Transition(p, claimed) => TransitionDb(db, p, claimed)
    case Add(p) => AddDb(db, p)
    case Remove(id) => RemoveDb(db, id)
    case Exclusive(p) => WriteExclusiveDb(db, p)
    case Fast(p, oldState, newState) => FastDb(db, p, oldState, newState)
    case Batch(programs, oldState, newState) => BatchStateDb(db, programs, oldState, newState)
    case BatchIds(ids, oldState, newState) => BatchIdsDb(db, ids, oldState, newState)
  }

  /** Every stamp drawn is used for one stored program, or lost in a failed merge. */
  lemma {:induction false} AloneDraws(db: Db, op: Op)
    ensures Alone(db, op).counter == db.counter + Demand(db.blobs, op)
  {
    if op.BatchIds? {
      assert Matching(db.blobs, op.ids, op.oldState) == [] ==> |Matching(db.blobs, op.ids, op.oldState)| == 0;
    }
  }

  function Overwritten(blobs: map<Id, Program>, after: map<Id, Program>, ids: set<Id>): map<Id, Program> {
    map id | id in blobs.Keys + after.Keys && (if id in ids then id in after else id in blobs) ::
      if id in ids then after[id] else blobs[id]
  }

  /** What the call sends when its reads found `seen` and its stamps start after
      `base`: computed from `seen`, written over whatever is stored now. */
  function Sent(db: Db, seen: map<Id, Program>, op: Op, base: nat): Db {
    var after := Alone(Db(seen, db.sets, base), op);
    Db(Overwritten(db.blobs, after.blobs, Writes(seen, op)), after.sets, db.counter)
  }

  /** The call run alone on the present database with the given stamps. */
  function Serial(db: Db, op: Op, base: nat): Db {
    Alone(db.(counter := base), op).(counter := db.counter)
  }

  // ---------------------------------------------------------------- what a call does to one program

  lemma {:induction false} WriteRunStamp(blobs: map<Id, Program>, programs: seq<Program>, newState: ProgramState, base: nat, id: Id)
    requires id in IdsOf(programs)
    ensures var after := WriteRun(blobs, programs, newState, base);
            id in after && base < after[id].atomicCounter <= base + |programs| && after[id].id == id
    decreases |programs|
  {
    var n := |programs| - 1;
    IdsOfAppend(programs[..n], [programs[n]]);
    assert programs == programs[..n] + [programs[n]];
    if id != programs[n].id {
      assert IdsOf([programs[n]]) == {programs[n].id};
      WriteRunStamp(blobs, programs[..n], newState, base, id);
    }
  }

  lemma {:induction false} PatchRunStamp(blobs: map<Id, Program>, matched: seq<Id>, newState: ProgramState, base: nat, id: Id)
    requires id in matched && id in blobs
    ensures base < PatchRun(blobs, matched, newState, base)[id].atomicCounter <= base + |matched|
    decreases |matched|
  {
    var n := |matched| - 1;
    assert matched == matched[..n] + [matched[n]];
    if id != matched[n] {
      PatchRunStamp(blobs, matched[..n], newState, base, id);
    }
  }

  /** A program written by a call gets one of its stamps. */
  ghost predicate Stamped(db: Db, op: Op, after: map<Id, Program>, id: Id) {
    id in after && after[id].id == id && db.counter < after[id].atomicCounter <= db.counter + Demand(db.blobs, op)
  }

  lemma {:induction false} BatchStamps(db: Db, op: Op, id: Id)
    requires op.Batch? && id in Keys(op)
    ensures Stamped(db, op, Alone(db, op).blobs, id)
  {
    WriteRunStamp(db.blobs, op.programs, op.newState, db.counter, id);
  }

  lemma {:induction false} BatchIdsStamps(db: Db, op: Op, id: Id)
    requires op.BatchIds? && id in Writes(db.blobs, op) && Keyed(db.blobs)
    ensures Stamped(db, op, Alone(db, op).blobs, id)
  {
    var matched := Matching(db.blobs, op.ids, op.oldState);
    MatchingMembers(db.blobs, op.ids, op.oldState);
    PatchRunStamp(db.blobs, matched, op.newState, db.counter, id);
    PatchRunAt(db.blobs, matched, op.newState, db.counter, id);
  }

  lemma {:induction false} WrittenIsStamped(db: Db, op: Op, id: Id)
    requires Keyed(db.blobs) && !Raises(db.blobs, op) && id in Writes(db.blobs, op)
    ensures if op.Remove? then id !in Alone(db, op).blobs else Stamped(db, op, Alone(db, op).blobs, id)
  {
    match op {
      case Batch(_, _, _) => BatchStamps(db, op, id);
      case BatchIds(_, _, _) => BatchIdsStamps(db, op, id);
      case _ =>
    }
  }

  lemma {:induction false} OthersStay(db: Db, op: Op, id: Id)
    requires !Raises(db.blobs, op) && id !in Writes(db.blobs, op)
    ensures Alone(db, op).Lookup(id) == db.Lookup(id)
  {
    match op {
      case Batch(programs, _, newState) => WriteRunKeys(db.blobs, programs, newState, db.counter);
      case BatchIds(ids, oldState, newState) =>
        PatchRunMeaning(db.blobs, Matching(db.blobs, ids, oldState), newState, db.counter);
      case _ =>
    }
  }

  // ---------------------------------------------------------------- a call depends on its own keys only

  /** Two views agree on the keys of a call. */
  ghost predicate Agree(a: map<Id, Program>, b: map<Id, Program>, ids: set<Id>) {
    forall id :: id in ids ==> (id in a <==> id in b) && (id in a ==> a[id] == b[id])
  }

  lemma {:induction false} MatchingLocal(a: map<Id, Program>, b: map<Id, Program>, ids: seq<Id>, s: ProgramState)
    requires Agree(a, b, Elements(ids))
    ensures Matching(a, ids, s) == Matching(b, ids, s)
    decreases |ids|
  {
    if ids != [] {
      var n := |ids| - 1;
      assert ids[n] in Elements(ids) && Elements(ids[..n]) <= Elements(ids);
      MatchingLocal(a, b, ids[..n], s);
    }
  }

  lemma {:induction false} PatchRunLocal(a: map<Id, Program>, b: map<Id, Program>, matched: seq<Id>, newState: ProgramState,
                                         base: nat, id: Id)
    requires id in a && id in b && a[id] == b[id]
    ensures PatchRun(a, matched, newState, base)[id] == PatchRun(b, matched, newState, base)[id]
    decreases |matched|
  {
    if matched != [] {
      PatchRunLocal(a, b, matched[..|matched| - 1], newState, base, id);
    }
  }

  lemma {:induction false} WriteRunLocal(a: map<Id, Program>, b: map<Id, Program>, programs: seq<Program>, newState: ProgramState,
                                         base: nat, id: Id)
    requires id in IdsOf(programs)
    ensures id in WriteRun(a, programs, newState, base) && id in WriteRun(b, programs, newState, base)
    ensures WriteRun(a, programs, newState, base)[id] == WriteRun(b, programs, newState, base)[id]
    decreases |programs|
  {
    var n := |programs| - 1;
    IdsOfAppend(programs[..n], [programs[n]]);
    assert programs == programs[..n] + [programs[n]];
    if id != programs[n].id {
      assert IdsOf([programs[n]]) == {programs[n].id};
      WriteRunLocal(a, b, programs[..n], newState, base, id);
    }
  }

  lemma {:induction false} LocalWrites(a: map<Id, Program>, b: map<Id, Program>, op: Op)
    requires Agree(a, b, Keys(op))
    ensures Writes(a, op) == Writes(b, op) && Demand(a, op) == Demand(b, op) && (Raises(a, op) <==> Raises(b, op))
  {
    if op.BatchIds? {
      MatchingLocal(a, b, op.ids, op.oldState);
    } else if Merging(op) {
      assert op.p.id in Keys(op);
    }
  }

  lemma {:induction false} LocalSets(a: Db, b: Db, op: Op)
    requires Agree(a.blobs, b.blobs, Keys(op)) && a.sets == b.sets
    ensures Alone(a, op).sets == Alone(b, op).sets
  {
    match op {
      case BatchIds(ids, oldState, _) => MatchingLocal(a.blobs, b.blobs, ids, oldState);
      case Batch(_, _, _) =>
      case _ => assert Agree(a.blobs, b.blobs, Keys(op));
    }
  }

  lemma {:induction false} LocalBlob(a: Db, b: Db, op: Op, id: Id)
    requires Agree(a.blobs, b.blobs, Keys(op)) && a.counter == b.counter && id in Writes(a.blobs, op)
    ensures Alone(a, op).Lookup(id) == Alone(b, op).Lookup(id)
  {
    match op {
      case BatchIds(ids, oldState, newState) =>
        MatchingLocal(a.blobs, b.blobs, ids, oldState);
        MatchingMembers(a.blobs, ids, oldState);
        PatchRunLocal(a.blobs, b.blobs, Matching(a.blobs, ids, oldState), newState, a.counter, id);
      case Batch(programs, _, newState) => WriteRunLocal(a.blobs, b.blobs, programs, newState, a.counter, id);
      case _ => assert id in Keys(op);
    }
  }

  lemma {:induction false} SentAt(db: Db, seen: map<Id, Program>, op: Op, base: nat, id: Id)
    ensures Sent(db, seen, op, base).Lookup(id)
            == if id in Writes(seen, op) then Alone(Db(seen, db.sets, base), op).Lookup(id) else db.Lookup(id)
  {
  }

  lemma {:induction false} SameDb(a: Db, b: Db)
    requires a.sets == b.sets && a.counter == b.counter && forall id :: a.Lookup(id) == b.Lookup(id)
    ensures a == b
  {
    forall id ensures (id in a.blobs <==> id in b.blobs) && (id in a.blobs ==> a.blobs[id] == b.blobs[id]) {
      assert a.Lookup(id) == b.Lookup(id);
    }
    assert a.blobs == b.blobs;
  }

  lemma {:induction false} CurrentAt(db: Db, seen: map<Id, Program>, op: Op, base: nat, id: Id)
    requires Agree(seen, db.blobs, Keys(op)) && !Raises(seen, op)
    ensures Sent(db, seen, op, base).Lookup(id) == Serial(db, op, base).Lookup(id)
  {
    SentAt(db, seen, op, base, id);
    LocalWrites(seen, db.blobs, op);
    if id in Writes(seen, op) {
      LocalBlob(Db(seen, db.sets, base), db.(counter := base), op, id);
    } else {
      OthersStay(db.(counter := base), op, id);
    }
  }

  /** A call whose reads are still current sends what it would do alone now. */
  lemma {:induction false} CurrentIsSerial(db: Db, seen: map<Id, Program>, op: Op, base: nat)
    requires Agree(seen, db.blobs, Keys(op)) && !Raises(seen, op)
    ensures Sent(db, seen, op, base) == Serial(db, op, base)
  {
    LocalSets(Db(seen, db.sets, base), db.(counter := base), op);
    forall id ensures Sent(db, seen, op, base).Lookup(id) == Serial(db, op, base).Lookup(id) {
      CurrentAt(db, seen, op, base, id);
    }
    SameDb(Sent(db, seen, op, base), Serial(db, op, base));
  }

  lemma {:induction false} BlindAt(db: Db, seen: map<Id, Program>, op: Op, base: nat, id: Id)
    requires !Merging(op) && !ReadsFirst(op)
    ensures Sent(db, seen, op, base).Lookup(id) == Serial(db, op, base).Lookup(id)
  {
    SentAt(db, seen, op, base, id);
    if id !in Writes(seen, op) {
      OthersStay(db.(counter := base), op, id);
    } else if op.Batch? {
      WriteRunLocal(seen, db.blobs, op.programs, op.newState, base, id);
    }
  }

  /** A call without a read of its own sends the same whatever was seen. */
  lemma {:induction false} BlindIsSerial(db: Db, seen: map<Id, Program>, op: Op, base: nat)
    requires !Merging(op) && !ReadsFirst(op)
    ensures Sent(db, seen, op, base) == Serial(db, op, base)
  {
    forall id ensures Sent(db, seen, op, base).Lookup(id) == Serial(db, op, base).Lookup(id) {
      BlindAt(db, seen, op, base, id);
    }
    SameDb(Sent(db, seen, op, base), Serial(db, op, base));
  }

  // ---------------------------------------------------------------- the status index

  /** The call finds in the store what its caller claims or its read found: it
      leaves the status index in step with the blobs. */
  ghost predicate IndexSafe(db: Db, seen: map<Id, Program>, op: Op) {
    match op
    case Update(p) => p.id in db.blobs && Settled(db.blobs[p.id].state, p.state)
    case Transition(_, _) => true
    case Add(p) => p.id in db.blobs ==> db.blobs[p.id].state == p.state || (p.id in seen && db.blobs[p.id].state == seen[p.id].state)
    case Remove(id) => id in db.blobs ==> id in seen && db.blobs[id].state == seen[id].state
    case Exclusive(p) => p.id in db.blobs && db.blobs[p.id].state == p.state
    case Fast(p, oldState, newState) => p.state == newState && (p.id in db.blobs ==> db.blobs[p.id].state in {oldState, newState})
    case Batch(programs, oldState, newState) => StoredIn(db, IdsOf(programs), {oldState, newState})
    case BatchIds(_, oldState, newState) => StoredIn(db, Writes(seen, op), {oldState, newState})
  }

  /** The calls that trust a read need no more than that it is still true. */
  lemma {:induction false} CurrentReadsAreSafe(db: Db, seen: map<Id, Program>, op: Op)
    requires Agree(seen, db.blobs, Keys(op)) && ReadsFirst(op)
    ensures IndexSafe(db, seen, op)
  {
    if op.BatchIds? {
      MatchingMembers(seen, op.ids, op.oldState);
    }
  }

  lemma {:induction false} AloneIsSafeIff(db: Db, seen: map<Id, Program>, op: Op)
    requires IndexInv(db) && !Raises(db.blobs, op) && !ReadsFirst(op)
    ensures IndexInv(Alone(db, op)) <==> IndexSafe(db, seen, op)
  {
    match op
    case Update(p) => UpdateCallKeepsIndexIff(db, p);
    case Transition(p, claimed) => TransitionCallKeepsIndex(db, p, claimed);
    case Exclusive(p) => WriteExclusiveKeepsIndexIff(db, p);
    case Fast(p, oldState, newState) => FastKeepsIndexIff(db, p, oldState, newState);
    case Batch(programs, oldState, newState) => BatchStateKeepsIndexIff(db, programs, oldState, newState);
  }

  lemma {:induction false} SerialIsSafeIff(db: Db, seen: map<Id, Program>, op: Op, base: nat)
    requires IndexInv(db) && !Raises(db.blobs, op) && !ReadsFirst(op)
    ensures IndexInv(Serial(db, op, base)) <==> IndexSafe(db, seen, op)
  {
    var now := db.(counter := base);
    IndexIgnoresCounter(db, base);
    AloneIsSafeIff(now, seen, op);
    IndexIgnoresCounter(Alone(now, op), db.counter);
  }

  /** What a blind call that has read does to one id and one set. */
  lemma {:induction false} SentSets(db: Db, seen: map<Id, Program>, op: Op, base: nat, id: Id, s: ProgramState)
    requires op.Add? || op.Remove?
    ensures id in Sent(db, seen, op, base).sets.At(s) <==>
            if id !in Keys(op) then id in db.sets.At(s)
            else if op.Add? && s == op.p.state then true
            else if id in seen && s == seen[id].state then false
            else id in db.sets.At(s)
  {
  }

  lemma {:induction false} AddIsSafeIff(db: Db, seen: map<Id, Program>, p: Program, base: nat)
    requires IndexInv(db)
    ensures IndexInv(Sent(db, seen, Add(p), base)) <==> IndexSafe(db, seen, Add(p))
  {
    var after := Sent(db, seen, Add(p), base);
    assert after.blobs == db.blobs[p.id := Stamp(p, base + 1)];
    if IndexSafe(db, seen, Add(p)) {
      forall id, s ensures id in after.sets.At(s) <==> id in after.blobs && after.blobs[id].state == s {
        SentSets(db, seen, Add(p), base, id, s);
        IndexAt(db, id, s);
      }
    } else {
      var s := db.blobs[p.id].state;
      SentSets(db, seen, Add(p), base, p.id, s);
      IndexAt(db, p.id, s);
      if IndexInv(after) {
        IndexAt(after, p.id, s);
      }
    }
  }

  lemma {:induction false} RemoveIsSafeIff(db: Db, seen: map<Id, Program>, gone: Id, base: nat)
    requires IndexInv(db)
    ensures IndexInv(Sent(db, seen, Remove(gone), base)) <==> IndexSafe(db, seen, Remove(gone))
  {
    var after := Sent(db, seen, Remove(gone), base);
    assert after.blobs == db.blobs - {gone};
    if IndexSafe(db, seen, Remove(gone)) {
      forall id, s ensures id in after.sets.At(s) <==> id in after.blobs && after.blobs[id].state == s {
        SentSets(db, seen, Remove(gone), base, id, s);
        IndexAt(db, id, s);
      }
    } else {
      var s := db.blobs[gone].state;
      SentSets(db, seen, Remove(gone), base, gone, s);
      IndexAt(db, gone, s);
      if IndexInv(after) {
        IndexAt(after, gone, s);
      }
    }
  }

  lemma {:induction false} SentIdsAt(db: Db, seen: map<Id, Program>, op: Op, base: nat, id: Id, s: ProgramState)
    requires op.BatchIds?
    ensures var after := Sent(db, seen, op, base); var moved := id in Writes(seen, op);
            && (id in after.blobs <==> id in db.blobs || moved)
            && (id in after.blobs ==> after.blobs[id].state == if moved then op.newState else db.blobs[id].state)
            && (id in after.sets.At(s) <==>
                if moved && s == op.newState then true else if moved && s == op.oldState then false else id in db.sets.At(s))
  {
    var matched := Matching(seen, op.ids, op.oldState);
    MatchingMembers(seen, op.ids, op.oldState);
    SentAt(db, seen, op, base, id);
    if id in matched {
      PatchRunAt(seen, matched, op.newState, base, id);
    }
    MoveIdsAt(db.sets, op.oldState, op.newState, Elements(matched), s, id);
  }

  lemma {:induction false} BatchIdsIsSafeIff(db: Db, seen: map<Id, Program>, op: Op, base: nat)
    requires IndexInv(db) && op.BatchIds?
    ensures IndexInv(Sent(db, seen, op, base)) <==> IndexSafe(db, seen, op)
  {
    var after := Sent(db, seen, op, base);
    if IndexSafe(db, seen, op) {
      forall id, s ensures id in after.sets.At(s) <==> id in after.blobs && after.blobs[id].state == s {
        SentIdsAt(db, seen, op, base, id, s);
        IndexAt(db, id, s);
      }
    } else {
      var id :| id in Writes(seen, op) && id in db.blobs && db.blobs[id].state !in {op.oldState, op.newState};
      var s := db.blobs[id].state;
      SentIdsAt(db, seen, op, base, id, s);
      IndexAt(db, id, s);
      if IndexInv(after) {
        IndexAt(after, id, s);
      }
    }
  }

  /** Whatever a call has read, and however long ago, it keeps the index exactly
      when it is safe on what is stored when it writes. */
  lemma {:induction false} SentIsSafeIff(db: Db, seen: map<Id, Program>, op: Op, base: nat)
    requires IndexInv(db) && (Merging(op) ==> Agree(seen, db.blobs, Keys(op)) && !Raises(seen, op))
    ensures IndexInv(Sent(db, seen, op, base)) <==> IndexSafe(db, seen, op)
  {
    match op {
      case Add(p) => AddIsSafeIff(db, seen, p, base);
      case Remove(id) => RemoveIsSafeIff(db, seen, id, base);
      case BatchIds(_, _, _) => BatchIdsIsSafeIff(db, seen, op, base);
      case _ =>
        if Merging(op) {
          CurrentIsSerial(db, seen, op, base);
          LocalWrites(seen, db.blobs, op);
        } else {
          BlindIsSerial(db, seen, op, base);
        }
        SerialIsSafeIff(db, seen, op, base);
    }
  }
}
