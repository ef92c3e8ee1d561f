/** The per-iteration curves of the plot command (gigaevo/cli/plot.py): a
    running best swept over the generations by two pointers. */
module Plots {
  import opened Wrappers
  import opened Ordering

  /** A field of a history entry: absent, present but not convertible, or a number. */
  datatype Field<T> = Missing | Bad | Good(value: T)

  datatype Entry = Entry(step: Field<int>, value: Field<real>)

  datatype Point = Point(step: int, value: real)

  // ---------------------------------------------------------------- reading the histories

  /** The values of each generation in order. The list is made before the value
      is converted, so a bad value still opens one. */
  function GenValues(entries: seq<Entry>): map<int, seq<real>>
    decreases |entries|
  {
    if entries == [] then map[] else
      var before := GenValues(entries[..|entries| - 1]);
      var e := entries[|entries| - 1];
      if !e.step.Good? || e.value.Missing? then before
      else
        var g := e.step.value;
        var vals := if g in before then before[g] else [];
        before[g := if e.value.Good? then vals + [e.value.value] else vals]
  }

  function Points(entries: seq<Entry>): seq<Point>
    decreases |entries|
  {
    if entries == [] then [] else
      var before := Points(entries[..|entries| - 1]);
      var e := entries[|entries| - 1];
      if e.step.Good? && e.value.Good? then before + [Point(e.step.value, e.value.value)] else before
  }

  /** The last value of a generation that could be converted. */
  function LastValue(entries: seq<Entry>, g: int): Option<real>
    decreases |entries|
  {
    if entries == [] then None else
      var e := entries[|entries| - 1];
      if e.step == Good(g) && e.value.Good? then Some(e.value.value) else LastValue(entries[..|entries| - 1], g)
  }

  lemma {:induction false} MeanIsTheLastValue(entries: seq<Entry>, g: int)
    ensures g in GenValues(entries) && GenValues(entries)[g] != [] ==> LastValue(entries, g) == Some(Last(GenValues(entries)[g]))
    ensures g !in GenValues(entries) || GenValues(entries)[g] == [] ==> LastValue(entries, g).None?
    decreases |entries|
  {
    if entries != [] {
      MeanIsTheLastValue(entries[..|entries| - 1], g);
    }
  }

  lemma {:induction false} GenValuesAre(entries: seq<Entry>, g: int)
    ensures g in GenValues(entries) <==> exists e :: e in entries && e.step == Good(g) && !e.value.Missing?
    ensures g in GenValues(entries) ==> (GenValues(entries)[g] == [] <==> forall e :: e in entries && e.step == Good(g) ==> !e.value.Good?)
    decreases |entries|
  {
    if entries != [] {
      var before := entries[..|entries| - 1];
      var last := entries[|entries| - 1];
      GenValuesAre(before, g);
      assert forall e :: e in entries <==> e in before || e == last;
    }
  }

  lemma {:induction false} PointsAre(entries: seq<Entry>, p: Point)
    ensures p in Points(entries) <==> Entry(Good(p.step), Good(p.value)) in entries
    decreases |entries|
  {
    if entries != [] {
      var before := entries[..|entries| - 1];
      PointsAre(before, p);
      assert forall e :: e in entries <==> e in before || e == entries[|entries| - 1];
    }
  }

  // ---------------------------------------------------------------- the best so far

  predicate Better(higher: bool, a: real, b: real) { if higher then a > b else a < b }

  function RunningBest(points: seq<Point>, higher: bool): Option<real>
    decreases |points|
  {
    if points == [] then None else
      var before := RunningBest(points[..|points| - 1], higher);
      var v := points[|points| - 1].value;
      if before.None? || Better(higher, v, before.value) then Some(v) else before
  }

  /** The best value of the points up to a generation, or none when there are none. */
  ghost predicate IsBest(points: seq<Point>, gen: int, higher: bool, best: Option<real>) {
    match best
    case None => forall p :: p in points ==> p.step > gen
    case Some(b) =>
      && (exists p :: p in points && p.step <= gen && p.value == b)
      && (forall p :: p in points && p.step <= gen ==> !Better(higher, p.value, b))
  }

  lemma {:induction false} BestIsUnique(points: seq<Point>, gen: int, higher: bool, a: Option<real>, b: Option<real>)
    requires IsBest(points, gen, higher, a) && IsBest(points, gen, higher, b)
    ensures a == b
  {
  }

  lemma {:induction false} RunningBestIs(points: seq<Point>, higher: bool)
    ensures RunningBest(points, higher).None? <==> points == []
    ensures RunningBest(points, higher).Some? ==>
              && (exists p :: p in points && p.value == RunningBest(points, higher).value)
              && (forall p :: p in points ==> !Better(higher, p.value, RunningBest(points, higher).value))
    decreases |points|
  {
    if points != [] {
      var before := points[..|points| - 1];
      RunningBestIs(before, higher);
      assert forall p :: p in points <==> p in before || p == points[|points| - 1];
    }
  }

  ghost predicate Split(points: seq<Point>, fi: nat, gen: int) {
    && fi <= |points|
    && (forall i :: 0 <= i < fi ==> points[i].step <= gen)
    && (forall i :: fi <= i < |points| ==> points[i].step > gen)
  }

  /** Where the pointer has stopped, the running best is the best up to there. */
  lemma {:induction false} SplitBest(points: seq<Point>, fi: nat, gen: int, higher: bool)
    requires Split(points, fi, gen)
    ensures IsBest(points, gen, higher, RunningBest(points[..fi], higher))
  {
    RunningBestIs(points[..fi], higher);
    forall p | p in points && p.step <= gen ensures p in points[..fi] {
      var i :| 0 <= i < |points| && points[i] == p;
      assert i < fi;
      assert points[..fi][i] == p;
    }
  }

  lemma {:induction false} SameBest(a: seq<Point>, b: seq<Point>, gen: int, higher: bool, best: Option<real>)
    requires multiset(a) == multiset(b) && IsBest(a, gen, higher, best)
    ensures IsBest(b, gen, higher, best)
  {
    forall p ensures p in a <==> p in b {
      SameElements(a, b, p);
    }
  }

  function ByStep(): (Point, Point) -> bool { (a: Point, b: Point) => a.step <= b.step }

  function ByNumber(): (int, int) -> bool { (a: int, b: int) => a <= b }

  // ---------------------------------------------------------------- the curves

  datatype Curves = Curves(iterations: seq<int>, best: seq<real>, means: seq<real>)

  datatype PlotError = EmptyGeneration

  /** What the curves say: the generations that have a value and a frontier point
      at or before them, in order, each with the true best so far and its last mean. */
  ghost predicate Faithful(c: Curves, vals: map<int, seq<real>>, points: seq<Point>, higher: bool) {
    && |c.best| == |c.means| == |c.iterations|
    && (forall i, j :: 0 <= i < j < |c.iterations| ==> c.iterations[i] < c.iterations[j])
    && (forall g :: g in c.iterations <==> g in vals && exists p :: p in points && p.step <= g)
    && (forall i :: 0 <= i < |c.iterations| ==> IsBest(points, c.iterations[i], higher, Some(c.best[i])))
    && (forall i :: 0 <= i < |c.iterations| ==> c.iterations[i] in vals && vals[c.iterations[i]] != [] && c.means[i] == Last(vals[c.iterations[i]]))
  }

  function Last(s: seq<real>): real
    requires s != []
  {
    s[|s| - 1]
  }

  /** Two faithful curves are the same curves. */
  lemma {:induction false} CurvesAreDetermined(c: Curves, d: Curves, vals: map<int, seq<real>>, points: seq<Point>, higher: bool)
    requires Faithful(c, vals, points, higher) && Faithful(d, vals, points, higher)
    ensures c == d
  {
    SameIncreasing(c.iterations, d.iterations);
    forall i | 0 <= i < |c.iterations| ensures c.best[i] == d.best[i] && c.means[i] == d.means[i] {
      BestIsUnique(points, c.iterations[i], higher, Some(c.best[i]), Some(d.best[i]));
    }
  }

  ghost predicate Increasing(s: seq<int>) { forall i, j :: 0 <= i < j < |s| ==> s[i] < s[j] }

  lemma {:induction false} NonEmptyCarries(a: seq<int>, b: seq<int>)
    requires a != [] && forall g :: g in a ==> g in b
    ensures b != []
  {
    var x := a[0];
    assert x in a && x in b;
  }

  lemma {:induction false} SameIncreasing(a: seq<int>, b: seq<int>)
    requires Increasing(a) && Increasing(b) && forall g :: g in a <==> g in b
    ensures a == b
    decreases |a|
  {
    if a != [] {
      NonEmptyCarries(a, b);
    }
    if b != [] {
      NonEmptyCarries(b, a);
    }
    if a != [] {
      var x := a[0];
      assert x in a && x in b;
      assert b[0] in b && b[0] in a;
      assert b[0] == x;
      forall g ensures g in a[1..] <==> g in b[1..] {
        assert g in a[1..] <==> g in a && g != x;
        assert g in b[1..] <==> g in b && g != x;
      }
      SameIncreasing(a[1..], b[1..]);
      assert a == [x] + a[1..] && b == [x] + b[1..];
    }
  }

  /** The best curve never turns back. */
  lemma {:induction false} BestIsMonotone(c: Curves, vals: map<int, seq<real>>, points: seq<Point>, higher: bool, i: nat, j: nat)
    requires Faithful(c, vals, points, higher) && i < j < |c.iterations|
    ensures !Better(higher, c.best[i], c.best[j])
  {
    assert IsBest(points, c.iterations[i], higher, Some(c.best[i]));
    assert IsBest(points, c.iterations[j], higher, Some(c.best[j]));
  }

  /** The keys of a dict: each once. */
  ghost predicate KeysOf(keys: seq<int>, vals: map<int, seq<real>>) {
    && (forall g :: g in keys <==> g in vals)
    && (forall i, j :: 0 <= i < j < |keys| ==> keys[i] != keys[j])
  }

  method SortedKeys(keys: seq<int>, ghost vals: map<int, seq<real>>) returns (gens: seq<int>)
    requires KeysOf(keys, vals)
    ensures Increasing(gens) && |gens| == |keys|
    ensures forall g :: g in gens <==> g in vals
  {
    gens := SortBy(keys, ByNumber());
    SortByIsSorted(keys, ByNumber());
    forall g ensures g in gens <==> g in keys {
      SameElements(gens, keys, g);
    }
    SortedAndDistinct(keys, gens);
  }

  lemma {:induction false} SortedAndDistinct(keys: seq<int>, gens: seq<int>)
    requires multiset(gens) == multiset(keys) && Sorted(gens, ByNumber())
    requires forall i, j :: 0 <= i < j < |keys| ==> keys[i] != keys[j]
    ensures Increasing(gens)
  {
    forall i, j | 0 <= i < j < |gens| ensures gens[i] < gens[j] {
      assert ByNumber()(gens[i], gens[j]);
      if gens[i] == gens[j] {
        TwiceIn(gens, i, j);
        OnceIn(keys, gens[i]);
        assert false;
      }
    }
  }

  lemma {:induction false} TwiceIn(s: seq<int>, i: nat, j: nat)
    requires i < j < |s| && s[i] == s[j]
    ensures multiset(s)[s[i]] >= 2
  {
    assert s == s[..j] + s[j..];
    assert s[i] in s[..j] && s[j] in s[j..];
    assert multiset(s) == multiset(s[..j]) + multiset(s[j..]);
  }

  lemma {:induction false} OnceIn(keys: seq<int>, x: int)
    requires forall i, j :: 0 <= i < j < |keys| ==> keys[i] != keys[j]
    ensures multiset(keys)[x] <= 1
    decreases |keys|
  {
    if keys != [] {
      var n := |keys| - 1;
      assert keys == keys[..n] + [keys[n]];
      OnceIn(keys[..n], x);
      if keys[n] == x {
        forall i | 0 <= i < n ensures keys[..n][i] != x {
        }
        assert x !in keys[..n];
      }
    }
  }

  /** `frontier` has the best so far of a generation, or nothing when there is none. */
  ghost predicate Swept(points: seq<Point>, g: int, higher: bool, frontier: map<int, real>) {
    IsBest(points, g, higher, if g in frontier then Some(frontier[g]) else None)
  }

  lemma {:induction false} SweptOne(points: seq<Point>, gen: int, higher: bool, fi: nat, before: map<int, real>)
    requires Split(points, fi, gen) && gen !in before
    ensures var running := RunningBest(points[..fi], higher);
            Swept(points, gen, higher, if running.Some? then before[gen := running.value] else before)
  {
    SplitBest(points, fi, gen, higher);
  }

  lemma {:induction false} SweptStays(points: seq<Point>, g: int, higher: bool, before: map<int, real>, gen: int, v: real)
    requires Swept(points, g, higher, before) && g != gen
    ensures Swept(points, g, higher, before[gen := v])
  {
  }

  /** The sweep: `frontier[g]` is the running best once the second pointer has
      passed every point up to `g`. */
  method Sweep(points: seq<Point>, gens: seq<int>, higher: bool) returns (frontier: map<int, real>)
    requires Sorted(points, ByStep()) && Increasing(gens)
    ensures forall k :: 0 <= k < |gens| ==> Swept(points, gens[k], higher, frontier)
  {
    frontier := map[];
    var running: Option<real> := None;
    var fi := 0;
    var gi := 0;
    while gi < |gens|
      invariant 0 <= gi <= |gens| && 0 <= fi <= |points|
      invariant running == RunningBest(points[..fi], higher)
      invariant forall i, k :: 0 <= i < fi && gi <= k < |gens| ==> points[i].step <= gens[k]
      invariant forall g, k :: g in frontier && gi <= k < |gens| ==> g < gens[k]
      invariant forall k :: 0 <= k < gi ==> Swept(points, gens[k], higher, frontier)
    {
      var gen := gens[gi];
      fi, running := Advance(points, gen, higher, fi, running);
      SweptOne(points, gen, higher, fi, frontier);
      if running.Some? {
        forall k | 0 <= k < gi ensures Swept(points, gens[k], higher, frontier[gen := running.value]) {
          SweptStays(points, gens[k], higher, frontier, gen, running.value);
        }
        frontier := frontier[gen := running.value];
      }
      gi := gi + 1;
    }
  }

  /** The inner loop: take in every point up to the generation. */
  method Advance(points: seq<Point>, gen: int, higher: bool, fi0: nat, running0: Option<real>) returns (fi: nat, running: Option<real>)
    requires Sorted(points, ByStep()) && fi0 <= |points| && running0 == RunningBest(points[..fi0], higher)
    requires forall i :: 0 <= i < fi0 ==> points[i].step <= gen
    ensures Split(points, fi, gen) && running == RunningBest(points[..fi], higher)
  {
    fi, running := fi0, running0;
    while fi < |points| && points[fi].step <= gen
      invariant fi <= |points| && running == RunningBest(points[..fi], higher)
      invariant forall i :: 0 <= i < fi ==> points[i].step <= gen
      decreases |points| - fi
    {
      var v := points[fi].value;
      assert points[..fi + 1][..fi] == points[..fi];
      if running.None? {
        running := Some(v);
      } else if higher && v > running.value {
        running := Some(v);
      } else if !higher && v < running.value {
        running := Some(v);
      }
      fi := fi + 1;
    }
    forall i | fi <= i < |points| ensures points[i].step > gen {
      if i > fi {
        assert ByStep()(points[fi], points[i]);
      }
    }
  }

  /** The whole computation. It fails with an index error exactly when some
      generation got only values that could not be converted. */
  method ComputePerIterationStats(meanEntries: seq<Entry>, frontierEntries: seq<Entry>, higher: bool) returns (r: Result<Curves, PlotError>)
    ensures r.Ok? <==> forall g :: g in GenValues(meanEntries) ==> GenValues(meanEntries)[g] != []
    ensures r.Ok? ==> Faithful(r.value, GenValues(meanEntries), Points(frontierEntries), higher)
    ensures forall p :: p in Points(frontierEntries) <==> Entry(Good(p.step), Good(p.value)) in frontierEntries
  {
    forall p {
      PointsAre(frontierEntries, p);
    }
    var vals, keys := CollectValues(meanEntries);
    var points := CollectPoints(frontierEntries);
    var sorted := SortBy(points, ByStep());
    SortByIsSorted(points, ByStep());
    var gens := SortedKeys(keys, vals);
    if |gens| == 0 {
      return Ok(Curves([], [], []));
    }
    var frontier := Sweep(sorted, gens, higher);
    forall k | 0 <= k < |gens| ensures Swept(points, gens[k], higher, frontier) {
      assert Swept(sorted, gens[k], higher, frontier);
      SameBest(sorted, points, gens[k], higher, if gens[k] in frontier then Some(frontier[gens[k]]) else None);
    }
    r := Assemble(gens, vals, frontier);
    NoEmptyGeneration(gens, vals);
    if r.Ok? {
      CurvesAreFaithful(gens, vals, points, frontier, higher);
    }
  }

  lemma {:induction false} NoEmptyGeneration(gens: seq<int>, vals: map<int, seq<real>>)
    requires forall g :: g in gens <==> g in vals
    ensures AllNonEmpty(gens, vals) <==> forall g :: g in vals ==> vals[g] != []
  {
    if AllNonEmpty(gens, vals) {
      forall g | g in vals ensures vals[g] != [] {
        var k :| 0 <= k < |gens| && gens[k] == g;
      }
    } else {
      var k :| 0 <= k < |gens| && !(gens[k] in vals && vals[gens[k]] != []);
      var g := gens[k];
      assert g in gens && g in vals;
      assert vals[g] == [];
    }
  }

  ghost predicate AllNonEmpty(gens: seq<int>, vals: map<int, seq<real>>) {
    forall k :: 0 <= k < |gens| ==> gens[k] in vals && vals[gens[k]] != []
  }

  ghost function CurvesOf(gens: seq<int>, vals: map<int, seq<real>>, frontier: map<int, real>): Curves
    requires AllNonEmpty(gens, vals)
    decreases |gens|
  {
    if gens == [] then Curves([], [], []) else
      var n := |gens| - 1;
      var c, g := CurvesOf(gens[..n], vals, frontier), gens[n];
      if g in frontier then Curves(c.iterations + [g], c.best + [frontier[g]], c.means + [Last(vals[g])]) else c
  }

  method Assemble(gens: seq<int>, vals: map<int, seq<real>>, frontier: map<int, real>) returns (r: Result<Curves, PlotError>)
    requires forall g :: g in gens ==> g in vals
    ensures r.Ok? <==> AllNonEmpty(gens, vals)
    ensures r.Ok? ==> r.value == CurvesOf(gens, vals, frontier)
  {
    var c := Curves([], [], []);
    var i := 0;
    while i < |gens|
      invariant 0 <= i <= |gens|
      invariant AllNonEmpty(gens[..i], vals) && c == CurvesOf(gens[..i], vals, frontier)
    {
      var gen := gens[i];
      assert gen in gens;
      assert gens[..i + 1][..i] == gens[..i];
      if vals[gen] == [] {
        return Err(EmptyGeneration);
      }
      var mean := vals[gen][|vals[gen]| - 1];
      if gen in frontier {
        c := Curves(c.iterations + [gen], c.best + [frontier[gen]], c.means + [mean]);
      }
      i := i + 1;
    }
    assert gens[..i] == gens;
    r := Ok(c);
  }

  /** Position by position: an iteration is a generation of the frontier, with
      its frontier value and its last mean. */
  lemma {:induction false} CurvesAre(gens: seq<int>, vals: map<int, seq<real>>, frontier: map<int, real>)
    requires AllNonEmpty(gens, vals) && Increasing(gens)
    ensures var c := CurvesOf(gens, vals, frontier);
            && |c.best| == |c.means| == |c.iterations|
            && Increasing(c.iterations)
            && (forall g :: g in c.iterations <==> g in gens && g in frontier)
            && (forall k :: 0 <= k < |c.iterations| ==> c.iterations[k] in gens && c.iterations[k] in frontier && c.best[k] == frontier[c.iterations[k]])
            && (forall k :: 0 <= k < |c.iterations| ==> c.iterations[k] in vals && vals[c.iterations[k]] != [] && c.means[k] == Last(vals[c.iterations[k]]))
    decreases |gens|
  {
    if gens != [] {
      var n := |gens| - 1;
      CurvesAre(gens[..n], vals, frontier);
      assert gens == gens[..n] + [gens[n]];
    }
  }

  lemma {:induction false} CurvesAreFaithful(gens: seq<int>, vals: map<int, seq<real>>, points: seq<Point>, frontier: map<int, real>, higher: bool)
    requires AllNonEmpty(gens, vals) && Increasing(gens) && forall g :: g in gens <==> g in vals
    requires forall k :: 0 <= k < |gens| ==> Swept(points, gens[k], higher, frontier)
    ensures Faithful(CurvesOf(gens, vals, frontier), vals, points, higher)
  {
    CurvesAre(gens, vals, frontier);
    var c := CurvesOf(gens, vals, frontier);
    forall g | g in gens ensures g in frontier <==> exists p :: p in points && p.step <= g {
      var k :| 0 <= k < |gens| && gens[k] == g;
      assert Swept(points, gens[k], higher, frontier);
    }
    forall i | 0 <= i < |c.iterations| ensures IsBest(points, c.iterations[i], higher, Some(c.best[i])) {
      var k :| 0 <= k < |gens| && gens[k] == c.iterations[i];
      assert Swept(points, gens[k], higher, frontier);
    }
  }

  /** The dict and its keys in the order they came in. */
  method CollectValues(entries: seq<Entry>) returns (vals: map<int, seq<real>>, keys: seq<int>)
    ensures vals == GenValues(entries) && KeysOf(keys, vals)
  {
    vals, keys := map[], [];
    var i := 0;
    while i < |entries|
      invariant 0 <= i <= |entries| && vals == GenValues(entries[..i]) && KeysOf(keys, vals)
    {
      assert entries[..i + 1][..i] == entries[..i];
      var e := entries[i];
      if e.step.Good? && !e.value.Missing? {
        var g := e.step.value;
        if g !in vals {
          vals, keys := vals[g := []], keys + [g];
        }
        if e.value.Good? {
          vals := vals[g := vals[g] + [e.value.value]];
        }
      }
      i := i + 1;
    }
    assert entries[..i] == entries;
  }

  method CollectPoints(entries: seq<Entry>) returns (points: seq<Point>)
    ensures points == Points(entries)
  {
    points := [];
    var i := 0;
    while i < |entries|
      invariant 0 <= i <= |entries| && points == Points(entries[..i])
    {
      assert entries[..i + 1][..i] == entries[..i];
      var e := entries[i];
      if e.step.Good? && e.value.Good? {
        points := points + [Point(e.step.value, e.value.value)];
      }
      i := i + 1;
    }
    assert entries[..i] == entries;
  }
}
