/** Lifecycle states of a program and the merge of two of them
    (gigaevo/programs/program_state.py).

    The merge is described by its callers as a lattice.  It is commutative and
    idempotent, and Discarded absorbs everything, but the other three states
    beat each other in a cycle, so it is not associative.  What follows says
    exactly which groups of merges still give an order-independent outcome. */
module ProgramStates {
  import opened Wrappers

  datatype ProgramState = Queued | Running | Done | Discarded

  datatype StateError = InvalidTransition | IncompatibleStates

  const INCOMPLETE_STATES: set<ProgramState> := {Queued, Running}
  const TERMINAL_STATES: set<ProgramState> := {Discarded}

  function ValidNext(s: ProgramState): set<ProgramState> {
    match s
    case Queued => {Running, Discarded}
    case Running => {Done, Discarded}
    case Done => {Queued, Discarded}
    case Discarded => {}
  }

  predicate IsValidTransition(current: ProgramState, new_: ProgramState) {
    current == new_ || new_ in ValidNext(current)
  }

  /** Same branches, in the same order, as the source; the last one is the
      source's exception. */
  function MergeStates(current: ProgramState, incoming: ProgramState): Result<ProgramState, StateError> {
    if current == incoming then Ok(current)
    else if incoming in TERMINAL_STATES then Ok(incoming)
    else if current in TERMINAL_STATES then Ok(current)
    else if IsValidTransition(current, incoming) then Ok(incoming)
    else if IsValidTransition(incoming, current) then Ok(current)
    else Err(IncompatibleStates)
  }

  /** The merge never reaches its exception, so it is a total operation. */
  function Join(current: ProgramState, incoming: ProgramState): (r: ProgramState)
    ensures MergeStates(current, incoming) == Ok(r)
    ensures r == current || r == incoming
    ensures r != current ==> r in ValidNext(current)
  {
    MergeStates(current, incoming).value
  }

  lemma JoinLaws(a: ProgramState, b: ProgramState)
    ensures Join(a, b) == Join(b, a)
    ensures Join(a, Join(a, b)) == Join(a, b)
    ensures Join(a, Discarded) == Discarded
    ensures a == Discarded && b != Discarded ==> !IsValidTransition(a, b)
  {
  }

  /** A merge changes the current state exactly when the incoming state is a
      valid next state of it. */
  predicate Settled(current: ProgramState, incoming: ProgramState) {
    incoming !in ValidNext(current)
  }

  lemma SettledIff(current: ProgramState, incoming: ProgramState)
    ensures Settled(current, incoming) <==> Join(current, incoming) == current
  {
  }

  /** The merge is not associative: an early Queued copy merged after
      Running and Done wins over Done. */
  lemma JoinIsNotAssociative()
    ensures Join(Join(Queued, Running), Done) == Done
    ensures Join(Queued, Join(Running, Done)) == Queued
  {
  }

  // ---------------------------------------------------------------- folds

  /** The stored state after merging a list of incoming states, in order. */
  function Fold(current: ProgramState, incoming: seq<ProgramState>): ProgramState
    decreases |incoming|
  {
    if incoming == [] then current else Fold(Join(current, incoming[0]), incoming[1..])
  }

  function Present(current: ProgramState, incoming: seq<ProgramState>): set<ProgramState> {
    {current} + set s | s in incoming
  }

  /** Either the program was discarded by someone, or one of the three live
      states never takes part. */
  predicate OrderFree(present: set<ProgramState>) {
    Discarded in present || !({Queued, Running, Done} <= present)
  }

  /** The member of a cycle-free group that beats all others. */
  function Top(present: set<ProgramState>): ProgramState {
    if Discarded in present then Discarded
    else if Queued !in present then (if Done in present then Done else Running)
    else if Running !in present then Queued
    else Running
  }

  lemma {:induction false} FoldIsTop(current: ProgramState, incoming: seq<ProgramState>)
    requires OrderFree(Present(current, incoming))
    ensures Fold(current, incoming) == Top(Present(current, incoming))
    decreases |incoming|
  {
    if incoming == [] {
      assert Present(current, incoming) == {current};
    } else {
      var next := Join(current, incoming[0]);
      var rest := incoming[1..];
      assert incoming == [incoming[0]] + rest;
      assert Present(current, incoming) == {current, incoming[0]} + Present(next, rest);
      JoinLaws(current, incoming[0]);
      FoldIsTop(next, rest);
    }
  }

  /** Two commit orders of the same merges agree whenever the states involved
      do not close the cycle. */
  lemma {:induction false} FoldIgnoresOrder(current: ProgramState, one: seq<ProgramState>, two: seq<ProgramState>)
    requires multiset(one) == multiset(two)
    requires OrderFree(Present(current, one))
    ensures Fold(current, one) == Fold(current, two)
  {
    forall s ensures s in one <==> s in two {
      assert s in one <==> s in multiset(one);
      assert s in two <==> s in multiset(two);
    }
    assert Present(current, one) == Present(current, two);
    FoldIsTop(current, one);
    FoldIsTop(current, two);
  }

  function Repeat(s: ProgramState, n: nat): (r: seq<ProgramState>)
    ensures |r| == n
    ensures forall t :: t in r ==> t == s
  {
    if n == 0 then [] else [s] + Repeat(s, n - 1)
  }

  lemma {:induction false} RepeatCount(s: ProgramState, n: nat, t: ProgramState)
    ensures multiset(Repeat(s, n))[t] == if t == s then n else 0
  {
    if n > 0 {
      RepeatCount(s, n - 1, t);
      assert multiset(Repeat(s, n)) == multiset{s} + multiset(Repeat(s, n - 1));
    }
  }

  lemma {:induction false} FoldRepeat(current: ProgramState, s: ProgramState, n: nat)
    ensures Fold(current, Repeat(s, n)) == if n == 0 then current else Join(current, s)
    decreases n
  {
    if n > 0 {
      var tail := Repeat(s, n - 1);
      assert Repeat(s, n) == [s] + tail;
      assert ([s] + tail)[1..] == tail;
      FoldRepeat(Join(current, s), s, n - 1);
      JoinLaws(current, s);
    }
  }

  lemma {:induction false} FoldConcat(current: ProgramState, one: seq<ProgramState>, two: seq<ProgramState>)
    ensures Fold(current, one + two) == Fold(Fold(current, one), two)
    decreases |one|
  {
    if one == [] {
      assert one + two == two;
    } else {
      assert (one + two)[1..] == one[1..] + two;
      FoldConcat(Join(current, one[0]), one[1..], two);
    }
  }

  /** The live state that a live state is beaten by. */
  function Beats(s: ProgramState): ProgramState
    requires s != Discarded
  {
    match s
    case Queued => Running
    case Running => Done
    case Done => Queued
  }

  /** Three blocks of merges; the three live states are named so that each
      is beaten by the next. */
  function Blocks(x: ProgramState, y: ProgramState, z: ProgramState, k: nat, m: nat, n: nat): seq<ProgramState> {
    Repeat(x, k) + Repeat(y, m) + Repeat(z, n)
  }

  lemma {:induction false} BlocksCount(x: ProgramState, y: ProgramState, z: ProgramState, k: nat, m: nat, n: nat, t: ProgramState)
    requires x != y && y != z && z != x
    ensures multiset(Blocks(x, y, z, k, m, n))[t] == if t == x then k else if t == y then m else if t == z then n else 0
  {
    RepeatCount(x, k, t);
    RepeatCount(y, m, t);
    RepeatCount(z, n, t);
    var a, b, c := Repeat(x, k), Repeat(y, m), Repeat(z, n);
    assert multiset(a + b + c) == multiset(a) + multiset(b) + multiset(c);
  }

  lemma {:induction false} FoldBlocks(current: ProgramState, x: ProgramState, y: ProgramState, z: ProgramState, k: nat, m: nat, n: nat)
    ensures Fold(current, Blocks(x, y, z, k, m, n)) ==
            Fold(Fold(Fold(current, Repeat(x, k)), Repeat(y, m)), Repeat(z, n))
  {
    FoldConcat(current, Repeat(x, k) + Repeat(y, m), Repeat(z, n));
    FoldConcat(current, Repeat(x, k), Repeat(y, m));
  }

  lemma {:induction false} BlocksDisagree(x: ProgramState, y: ProgramState, z: ProgramState, k: nat, m: nat, n: nat)
    requires x != Discarded && y == Beats(x) && z == Beats(y) && m > 0 && n > 0
    ensures Fold(x, Blocks(x, y, z, k, m, n)) == z
    ensures Fold(x, Blocks(z, y, x, n, m, k)) == y
  {
    FoldBlocks(x, x, y, z, k, m, n);
    FoldRepeat(x, x, k);
    FoldRepeat(x, y, m);
    FoldRepeat(y, z, n);
    FoldBlocks(x, z, y, x, n, m, k);
    FoldRepeat(x, z, n);
    FoldRepeat(y, x, k);
  }

  lemma {:induction false} SameMultiset(one: seq<ProgramState>, two: seq<ProgramState>)
    requires forall t :: multiset(one)[t] == multiset(two)[t]
    ensures multiset(one) == multiset(two)
  {
  }

  lemma {:induction false} CycleMembers(current: ProgramState, incoming: seq<ProgramState>)
    requires !OrderFree(Present(current, incoming))
    ensures current != Discarded && Discarded !in incoming
    ensures Beats(current) in incoming && Beats(Beats(current)) in incoming
  {
    var present := Present(current, incoming);
    assert current in present;
    assert Queued in present && Running in present && Done in present;
  }

  lemma {:induction false} BlocksPermute(incoming: seq<ProgramState>, x: ProgramState, y: ProgramState, z: ProgramState)
    requires x != y && y != z && z != x && Discarded !in {x, y, z} && Discarded !in incoming
    ensures multiset(Blocks(x, y, z, multiset(incoming)[x], multiset(incoming)[y], multiset(incoming)[z])) == multiset(incoming)
  {
    var k, m, n := multiset(incoming)[x], multiset(incoming)[y], multiset(incoming)[z];
    forall t ensures multiset(Blocks(x, y, z, k, m, n))[t] == multiset(incoming)[t] {
      BlocksCount(x, y, z, k, m, n, t);
      assert t in {x, y, z} || t == Discarded;
      assert Discarded !in multiset(incoming);
    }
    SameMultiset(Blocks(x, y, z, k, m, n), incoming);
  }

  /** Conversely, once all three live states meet and nobody discards, some
      two commit orders of the very same merges disagree. */
  lemma {:induction false} OrderMattersOtherwise(current: ProgramState, incoming: seq<ProgramState>)
      returns (one: seq<ProgramState>, two: seq<ProgramState>)
    requires !OrderFree(Present(current, incoming))
    ensures multiset(one) == multiset(incoming) && multiset(two) == multiset(incoming)
    ensures Fold(current, one) != Fold(current, two)
  {
    CycleMembers(current, incoming);
    var y := Beats(current);
    var z := Beats(y);
    var k, m, n := multiset(incoming)[current], multiset(incoming)[y], multiset(incoming)[z];
    BlocksDisagree(current, y, z, k, m, n);
    BlocksPermute(incoming, current, y, z);
    BlocksPermute(incoming, z, y, current);
    one, two := Blocks(current, y, z, k, m, n), Blocks(z, y, current, n, m, k);
  }

  /** The exact condition under which the stored state is independent of the
      order in which concurrent merges commit. */
  lemma {:induction false} FoldOrderIndependentIff(current: ProgramState, incoming: seq<ProgramState>)
    ensures OrderFree(Present(current, incoming)) <==>
            forall other :: multiset(other) == multiset(incoming) ==> Fold(current, other) == Fold(current, incoming)
  {
    if OrderFree(Present(current, incoming)) {
      forall other | multiset(other) == multiset(incoming) ensures Fold(current, other) == Fold(current, incoming) {
        FoldIgnoresOrder(current, incoming, other);
      }
    } else {
      var one, two := OrderMattersOtherwise(current, incoming);
      assert Fold(current, one) != Fold(current, incoming) || Fold(current, two) != Fold(current, incoming);
    }
  }
}
