/** Programs and the additive merge of two copies of one program
    (gigaevo/programs/program.py, gigaevo/database/merge_strategies.py). */
module Programs {
  import opened Wrappers
  import opened ProgramStates
  import Ordering

  datatype Id = Id(text: string) // a UUID string
  lemma {:induction false} FreshId(taken: set<Id>) returns (x: Id)
    ensures x !in taken
  {
    var texts := set id | id in taken :: id.text;
    assert forall id :: id in taken ==> id.text in texts;
    var name := Ordering.FreshName(texts);
    x := Id(name);
  }

  type Value = string // a JSON-rendered metadata value or stage result

  datatype Lineage = Lineage(parents: seq<Id>, children: seq<Id>, mutation: Option<string>, generation: nat)

  datatype Program = Program(
    id: Id, code: string, name: Option<string>,
    stageResults: map<string, Value>, metrics: map<string, real>, metadata: map<string, Value>,
    iteration: nat, state: ProgramState, lineage: Lineage, createdAt: int, atomicCounter: nat)

  /** The fields a reader may leave at their defaults. */
  datatype Field = StageResultsField | MetadataField | MetricsField | NameField

  function Project(p: Program, exclude: set<Field>): Program {
    p.(stageResults := if StageResultsField in exclude then map[] else p.stageResults,
       metadata := if MetadataField in exclude then map[] else p.metadata,
       metrics := if MetricsField in exclude then map[] else p.metrics,
       name := if NameField in exclude then None else p.name)
  }

  datatype MergeError = IdMismatch | NameMismatch | StateMismatch

  // ---------------------------------------------------------------- dictionaries

  function MergeDict<V>(current: map<string, V>, incoming: map<string, V>, preferIncoming: bool): map<string, V> {
    if preferIncoming then current + incoming else incoming + current
  }

  /** The dictionary merge as the source runs it: one bulk update when the
      incoming copy is newer, else a pass that only fills missing keys. */
  method MergeDictByProgTs<V>(current: map<string, V>, incoming: map<string, V>,
                              currentCounter: nat, incomingCounter: nat) returns (merged: map<string, V>)
    ensures merged == MergeDict(current, incoming, incomingCounter > currentCounter)
    ensures merged.Keys == current.Keys + incoming.Keys
    ensures incomingCounter <= currentCounter ==> forall k :: k in current ==> merged[k] == current[k]
  {
    merged := current;
    if incoming == map[] {
      assert current + incoming == current && incoming + current == current;
      return;
    }
    if incomingCounter > currentCounter {
      merged := merged + incoming;
    } else {
      var todo := incoming.Keys;
      while todo != {}
        invariant todo <= incoming.Keys
        invariant merged == map k | k in current.Keys + (incoming.Keys - todo) :: if k in current then current[k] else incoming[k]
        decreases todo
      {
        var k :| k in todo;
        if k !in merged {
          merged := merged[k := incoming[k]];
        }
        todo := todo - {k};
      }
    }
  }

  // ---------------------------------------------------------------- lineage

  function Unseen(children: seq<Id>, seen: seq<Id>): (r: seq<Id>)
    ensures forall c :: c in r <==> c in children && c !in seen
  {
    if children == [] then []
    else (if children[0] in seen then [] else [children[0]]) + Unseen(children[1..], seen)
  }

  function MergeLineage(current: Lineage, incoming: Lineage): Lineage {
    current.(children := current.children + Unseen(incoming.children, current.children))
  }

  ghost predicate Distinct<T(!new)>(xs: seq<T>) {
    forall i, j :: 0 <= i < j < |xs| ==> xs[i] != xs[j]
  }

  lemma {:induction false} UnseenOfSeen(children: seq<Id>, seen: seq<Id>)
    requires forall c :: c in children ==> c in seen
    ensures Unseen(children, seen) == []
  {
    if children != [] {
      assert children[0] in children;
      UnseenOfSeen(children[1..], seen);
    }
  }

  /** The new children are all occurrences of unknown ones, in their order. */
  lemma {:induction false} UnseenAre(children: seq<Id>, seen: seq<Id>)
    ensures Ordering.Subsequence(Unseen(children, seen), children)
    ensures forall c :: multiset(Unseen(children, seen))[c] == if c in seen then 0 else multiset(children)[c]
    decreases |children|
  {
    if children != [] {
      var rest := Unseen(children[1..], seen);
      UnseenAre(children[1..], seen);
      assert children == [children[0]] + children[1..];
      if children[0] !in seen {
        assert ([children[0]] + rest)[1..] == rest;
        assert multiset([children[0]] + rest) == multiset([children[0]]) + multiset(rest);
      } else {
        assert [] + rest == rest;
      }
    }
  }

  /** The union of children is announced as free of duplicates.  It is exactly
      when the current list is, and the incoming list does not repeat a child
      that is new: a repeated new child is appended twice. */
  lemma {:induction false} MergedChildrenDistinctIff(current: Lineage, incoming: Lineage)
    ensures Distinct(MergeLineage(current, incoming).children) <==>
            Distinct(current.children) && Distinct(Unseen(incoming.children, current.children))
  {
    var a := current.children;
    var b := Unseen(incoming.children, a);
    var u := a + b;
    if Distinct(u) {
      forall i, j | 0 <= i < j < |a| ensures a[i] != a[j] { assert u[i] != u[j]; }
      forall i, j | 0 <= i < j < |b| ensures b[i] != b[j] { assert u[|a| + i] != u[|a| + j]; }
    }
    if Distinct(a) && Distinct(b) {
      forall i, j | 0 <= i < j < |u| ensures u[i] != u[j] {
        if i < |a| <= j { assert b[j - |a|] in b; }
      }
    }
  }

  lemma RepeatedNewChildIsKeptTwice()
    ensures MergeLineage(Lineage([], [], None, 1), Lineage([], [Id("c"), Id("c")], None, 1)).children == [Id("c"), Id("c")]
  {
    assert Unseen([Id("c"), Id("c")], []) == [Id("c")] + Unseen([Id("c")], []);
  }

  // ---------------------------------------------------------------- programs

  predicate NamesClash(current: Program, incoming: Program) {
    current.name.Some? && incoming.name.Some? && current.name != incoming.name
  }

  function MergePrograms(current: Option<Program>, incoming: Program): Result<Program, MergeError> {
    if current.None? then Ok(incoming)
    else
      var cur := current.value;
      if cur.id != incoming.id then Err(IdMismatch)
      else if NamesClash(cur, incoming) then Err(NameMismatch)
      else
        var state := MergeStates(cur.state, incoming.state);
        if state.Err? then Err(StateMismatch)
        else
          var prefer := incoming.atomicCounter > cur.atomicCounter;
          Ok(cur.(state := state.value,
                  metadata := MergeDict(cur.metadata, incoming.metadata, prefer),
                  metrics := MergeDict(cur.metrics, incoming.metrics, prefer),
                  stageResults := MergeDict(cur.stageResults, incoming.stageResults, prefer),
                  lineage := MergeLineage(cur.lineage, incoming.lineage),
                  code := if prefer then incoming.code else cur.code,
                  name := if cur.name.Some? then cur.name else incoming.name))
  }

  /** With one id on both sides, a name conflict is the only way to fail. */
  lemma MergeFailsIff(current: Option<Program>, incoming: Program)
    requires current.Some? ==> current.value.id == incoming.id
    ensures MergePrograms(current, incoming).Err? <==> current.Some? && NamesClash(current.value, incoming)
  {
    if current.Some? {
      var _ := Join(current.value.state, incoming.state);
    }
  }

  ghost predicate SubMap<V>(small: map<string, V>, big: map<string, V>) {
    forall k :: k in small ==> k in big && small[k] == big[k]
  }

  /** `later` has everything `earlier` has, with the same values. */
  ghost predicate Extends(earlier: Program, later: Program) {
    && later.id == earlier.id
    && later.code == earlier.code
    && later.createdAt == earlier.createdAt
    && later.iteration == earlier.iteration
    && (earlier.name.Some? ==> later.name == earlier.name)
    && SubMap(earlier.metadata, later.metadata)
    && SubMap(earlier.metrics, later.metrics)
    && SubMap(earlier.stageResults, later.stageResults)
    && later.lineage.parents == earlier.lineage.parents
    && later.lineage.mutation == earlier.lineage.mutation
    && later.lineage.generation == earlier.lineage.generation
    && earlier.lineage.children <= later.lineage.children
  }

  /** `p` carries everything `incoming` carries: no key or child of it is missing. */
  ghost predicate Covers(p: Program, incoming: Program) {
    && p.id == incoming.id
    && incoming.metadata.Keys <= p.metadata.Keys
    && incoming.metrics.Keys <= p.metrics.Keys
    && incoming.stageResults.Keys <= p.stageResults.Keys
    && (forall c :: c in incoming.lineage.children ==> c in p.lineage.children)
    && (incoming.name.Some? ==> p.name == incoming.name)
  }

  lemma {:induction false} ExtendsIsTransitive(a: Program, b: Program, c: Program)
    requires Extends(a, b) && Extends(b, c)
    ensures Extends(a, c)
  {
    assert forall k :: k in a.metadata ==> k in b.metadata;
    assert forall k :: k in a.metrics ==> k in b.metrics;
    assert forall k :: k in a.stageResults ==> k in b.stageResults;
  }

  /** One dictionary of a merge, key by key: the newer copy's value, or the only
      one there is. */
  ghost predicate MergedKeys<V>(current: map<string, V>, incoming: map<string, V>, merged: map<string, V>, newer: bool) {
    && merged.Keys == current.Keys + incoming.Keys
    && forall k :: k in merged ==> merged[k] == if k in incoming && (newer || k !in current) then incoming[k] else current[k]
  }

  /** The current children, then the incoming ones that are not among them. */
  ghost predicate MergedChildren(current: seq<Id>, incoming: seq<Id>, merged: seq<Id>) {
    && current <= merged
    && Ordering.Subsequence(merged[|current|..], incoming)
    && forall c :: multiset(merged[|current|..])[c] == if c in current then 0 else multiset(incoming)[c]
  }

  /** `m` is the merge of two copies of one program, field by field, stamps aside. */
  ghost predicate MergedFrom(current: Program, incoming: Program, m: Program) {
    var newer := incoming.atomicCounter > current.atomicCounter;
    && m.id == current.id && m.createdAt == current.createdAt && m.iteration == current.iteration
    && m.code == (if newer then incoming.code else current.code)
    && m.name == (if current.name.Some? then current.name else incoming.name)
    && m.state == (if IsValidTransition(current.state, incoming.state) then incoming.state else current.state)
    && MergedKeys(current.metadata, incoming.metadata, m.metadata, newer)
    && MergedKeys(current.metrics, incoming.metrics, m.metrics, newer)
    && MergedKeys(current.stageResults, incoming.stageResults, m.stageResults, newer)
    && m.lineage.parents == current.lineage.parents && m.lineage.mutation == current.lineage.mutation
    && m.lineage.generation == current.lineage.generation
    && MergedChildren(current.lineage.children, incoming.lineage.children, m.lineage.children)
  }

  lemma {:induction false} MergeDictIs<V>(current: map<string, V>, incoming: map<string, V>, newer: bool)
    ensures MergedKeys(current, incoming, MergeDict(current, incoming, newer), newer)
  {
  }

  lemma {:induction false} MergeLineageIs(current: Lineage, incoming: Lineage)
    ensures var m := MergeLineage(current, incoming);
            && m.parents == current.parents && m.mutation == current.mutation && m.generation == current.generation
            && MergedChildren(current.children, incoming.children, m.children)
  {
    UnseenAre(incoming.children, current.children);
    var m := MergeLineage(current, incoming);
    assert m.children[|current.children|..] == Unseen(incoming.children, current.children);
  }

  lemma {:induction false} MergeStateIs(current: ProgramState, incoming: ProgramState)
    ensures MergeStates(current, incoming) == Ok(if IsValidTransition(current, incoming) then incoming else current)
  {
    var _ := Join(current, incoming);
  }

  /** A merge is that, in every field. */
  lemma {:induction false} MergeIs(current: Program, incoming: Program)
    requires MergePrograms(Some(current), incoming).Ok?
    ensures MergedFrom(current, incoming, MergePrograms(Some(current), incoming).value)
    ensures MergePrograms(Some(current), incoming).value.atomicCounter == current.atomicCounter
  {
    var newer := incoming.atomicCounter > current.atomicCounter;
    MergeDictIs(current.metadata, incoming.metadata, newer);
    MergeDictIs(current.metrics, incoming.metrics, newer);
    MergeDictIs(current.stageResults, incoming.stageResults, newer);
    MergeLineageIs(current.lineage, incoming.lineage);
    MergeStateIs(current.state, incoming.state);
  }

  /** Whichever copy is newer, a merge loses no key and no child of either
      side, and a dictionary entry of the result comes from the newer side
      whenever that side has it. */
  lemma {:induction false} MergeLosesNothing(current: Program, incoming: Program)
    requires MergePrograms(Some(current), incoming).Ok?
    ensures var m := MergePrograms(Some(current), incoming).value;
            Covers(m, incoming) && m.metrics.Keys == current.metrics.Keys + incoming.metrics.Keys
            && m.metadata.Keys == current.metadata.Keys + incoming.metadata.Keys
            && m.stageResults.Keys == current.stageResults.Keys + incoming.stageResults.Keys
            && current.lineage.children <= m.lineage.children
            && MergedFrom(current, incoming, m)
  {
    MergeIs(current, incoming);
  }

  /** A copy that is not newer than the stored program can only add: every
      stored value, and the code, survive.  Editing the value of an existing
      key in such a copy therefore has no effect. */
  lemma {:induction false} OldCopyOnlyAdds(current: Program, incoming: Program)
    requires MergePrograms(Some(current), incoming).Ok?
    requires incoming.atomicCounter <= current.atomicCounter
    ensures Extends(current, MergePrograms(Some(current), incoming).value)
  {
  }

  /** Merging a copy whose keys, children and name are already there changes
      nothing but the state, and the state only along a valid transition. */
  lemma {:induction false} MergeOfCovered(current: Program, incoming: Program)
    requires Covers(current, incoming) && incoming.atomicCounter <= current.atomicCounter
    ensures MergePrograms(Some(current), incoming) == Ok(current.(state := Join(current.state, incoming.state)))
  {
    UnseenOfSeen(incoming.lineage.children, current.lineage.children);
    assert current.lineage.children + [] == current.lineage.children;
    assert incoming.metadata + current.metadata == current.metadata;
    assert incoming.metrics + current.metrics == current.metrics;
    assert incoming.stageResults + current.stageResults == current.stageResults;
  }

  // ---------------------------------------------------------------- retries

  function Stamp(p: Program, counter: nat): Program {
    p.(atomicCounter := counter)
  }

  /** One committed update: the incoming copy and the counter the store gave it. */
  datatype Write = Write(copy: Program, counter: nat)

  /** The stored program after a list of committed updates. */
  function Replay(current: Option<Program>, writes: seq<Write>): Result<Option<Program>, MergeError>
    decreases |writes|
  {
    if writes == [] then Ok(current)
    else
      var m := MergePrograms(current, writes[0].copy);
      if m.Err? then Err(m.error) else Replay(Some(Stamp(m.value, writes[0].counter)), writes[1..])
  }

  ghost predicate CountersAtLeast(writes: seq<Write>, low: nat) {
    forall i :: 0 <= i < |writes| ==> low <= writes[i].counter
  }

  lemma {:induction false} ReplayKeepsCover(current: Program, writes: seq<Write>, p: Program)
    requires Covers(current, p) && p.atomicCounter <= current.atomicCounter
    requires CountersAtLeast(writes, p.atomicCounter)
    requires Replay(Some(current), writes).Ok?
    ensures var last := Replay(Some(current), writes).value;
            last.Some? && Covers(last.value, p) && p.atomicCounter <= last.value.atomicCounter
    decreases |writes|
  {
    if writes != [] {
      var m := MergePrograms(Some(current), writes[0].copy);
      MergeLosesNothing(current, writes[0].copy);
      var next := Stamp(m.value, writes[0].counter);
      forall c | c in p.lineage.children ensures c in next.lineage.children {
        assert c in current.lineage.children;
      }
      assert Covers(next, p);
      forall i | 0 <= i < |writes[1..]| ensures p.atomicCounter <= writes[1..][i].counter {
        assert writes[1..][i] == writes[i + 1];
      }
      ReplayKeepsCover(next, writes[1..], p);
    }
  }

  /** Re-applying an update that already committed, after any number of other
      committed updates, never fails and changes nothing but the state; it
      changes nothing at all exactly when the incoming state is not a valid
      next state of the stored one. */
  lemma {:induction false} RetryIsIdempotentIff(before: Option<Program>, p: Program, counter: nat, others: seq<Write>)
    requires before.Some? ==> before.value.id == p.id
    requires p.atomicCounter <= counter && CountersAtLeast(others, p.atomicCounter)
    requires Replay(before, [Write(p, counter)] + others).Ok?
    ensures var stored := Replay(before, [Write(p, counter)] + others).value;
            && stored.Some?
            && MergePrograms(stored, p) == Ok(stored.value.(state := Join(stored.value.state, p.state)))
            && (MergePrograms(stored, p) == Ok(stored.value) <==> Settled(stored.value.state, p.state))
  {
    var writes := [Write(p, counter)] + others;
    assert writes[0] == Write(p, counter) && writes[1..] == others;
    var first := MergePrograms(before, p).value;
    if before.Some? {
      MergeLosesNothing(before.value, p);
    }
    assert Covers(Stamp(first, counter), p);
    ReplayKeepsCover(Stamp(first, counter), others, p);
    var last := Replay(Some(Stamp(first, counter)), others).value.value;
    MergeOfCovered(last, p);
    SettledIff(last.state, p.state);
    assert last.(state := last.state) == last;
  }

  lemma {:induction false} ReplayStateIsFold(current: Program, writes: seq<Write>)
    requires Replay(Some(current), writes).Ok?
    ensures Replay(Some(current), writes).value.Some?
    ensures Replay(Some(current), writes).value.value.state ==
            Fold(current.state, seq(|writes|, i requires 0 <= i < |writes| => writes[i].copy.state))
    decreases |writes|
  {
    var states := seq(|writes|, i requires 0 <= i < |writes| => writes[i].copy.state);
    if writes != [] {
      var m := MergePrograms(Some(current), writes[0].copy);
      var rest := writes[1..];
      ReplayStateIsFold(Stamp(m.value, writes[0].counter), rest);
      assert states[1..] == seq(|rest|, i requires 0 <= i < |rest| => rest[i].copy.state);
    }
  }

  /** Without intervening updates the retry is always harmless, and so it is
      after updates that never bring all three live states together. */
  lemma {:induction false} RetryIsHarmlessWithoutCycle(before: Program, p: Program, counter: nat, others: seq<Write>)
    requires before.id == p.id
    requires p.atomicCounter <= counter && CountersAtLeast(others, p.atomicCounter)
    requires Replay(Some(before), [Write(p, counter)] + others).Ok?
    requires var states := seq(|others|, i requires 0 <= i < |others| => others[i].copy.state);
             OrderFree(Present(before.state, [p.state] + states))
    ensures var stored := Replay(Some(before), [Write(p, counter)] + others).value;
            stored.Some? && MergePrograms(stored, p) == Ok(stored.value)
  {
    var writes := [Write(p, counter)] + others;
    var states := seq(|others|, i requires 0 <= i < |others| => others[i].copy.state);
    var all := seq(|writes|, i requires 0 <= i < |writes| => writes[i].copy.state);
    assert all == [p.state] + states;
    ReplayStateIsFold(before, writes);
    RetryIsIdempotentIff(Some(before), p, counter, others);
    FoldIsTop(before.state, all);
    assert p.state in Present(before.state, all);
    TopIsSettled(Present(before.state, all), p.state);
  }

  lemma TopIsSettled(present: set<ProgramState>, s: ProgramState)
    requires OrderFree(present) && s in present
    ensures Settled(Top(present), s)
  {
  }

  /** The failing case: a stale Queued copy that committed while the program
      was Running, retried after somebody else finished the program, sends it
      back to Queued. */
  lemma RetryCanRequeue(before: Program, p: Program, done: Program)
    requires before.id == p.id == done.id && before.name == p.name == done.name
    requires before.state == Running && p.state == Queued && done.state == Done
    ensures var stored := Replay(Some(before), [Write(p, 5), Write(done, 6)]);
            stored.Ok? && stored.value.Some? && stored.value.value.state == Done
            && MergePrograms(stored.value, p).Ok? && MergePrograms(stored.value, p).value.state == Queued
  {
    var writes := [Write(p, 5), Write(done, 6)];
    assert writes[1..] == [Write(done, 6)];
    assert writes[1..][1..] == [];
    var m1 := MergePrograms(Some(before), p);
    var s1 := Stamp(m1.value, 5);
    var m2 := MergePrograms(Some(s1), done);
    var s2 := Stamp(m2.value, 6);
    assert Replay(Some(s2), []) == Ok(Some(s2));
    assert Replay(Some(s1), writes[1..]) == Ok(Some(s2));
  }
}
