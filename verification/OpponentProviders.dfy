/** Choosing opponents from another population's archive
    (gigaevo/adversarial/opponent_provider.py). */
module OpponentProviders {
  import opened Wrappers
  import opened Ordering

  datatype Opponent = Opponent(programId: string, code: string, fitness: real)

  // ---------------------------------------------------------------- the ranking

  /** Best fitness first, and the smaller id first among equals. */
  predicate Ranks(higher: bool, a: Opponent, b: Opponent) {
    || (if higher then a.fitness > b.fitness else a.fitness < b.fitness)
    || (a.fitness == b.fitness && AtMost(a.programId, b.programId))
  }

  function Ranking(higher: bool): (Opponent, Opponent) -> bool {
    (a, b) => Ranks(higher, a, b)
  }

  /** The order in plain terms. */
  ghost predicate Outranks(higher: bool, a: Opponent, b: Opponent) {
    if a.fitness == b.fitness then a.programId == b.programId || Before(a.programId, b.programId)
    else if higher then a.fitness > b.fitness
    else a.fitness < b.fitness
  }

  ghost predicate InOrder(s: seq<Opponent>, higher: bool) {
    forall i, j :: 0 <= i < j < |s| ==> Outranks(higher, s[i], s[j])
  }

  lemma {:induction false} RankedIsOutranking(cache: seq<Opponent>, higher: bool)
    ensures InOrder(Ranked(cache, higher), higher)
  {
    RankedByWorth(cache, higher);
    var s := Ranked(cache, higher);
    forall i, j | 0 <= i < j < |s| ensures Outranks(higher, s[i], s[j]) {
      assert Ranking(higher)(s[i], s[j]);
    }
  }

  ghost function Worth(higher: bool, o: Opponent): real {
    if higher then o.fitness else -o.fitness
  }

  function Ranked(cache: seq<Opponent>, higher: bool): seq<Opponent> {
    SortBy(cache, Ranking(higher))
  }

  /** Entries of the cache with one id are one program. */
  ghost predicate IdsIdentify(cache: seq<Opponent>) {
    forall a, b :: a in cache && b in cache && a.programId == b.programId ==> a == b
  }

  lemma {:induction false} RankingIsTotal(higher: bool)
    ensures TotalPreorder(Ranking(higher))
  {
    var le := Ranking(higher);
    forall x, y ensures le(x, y) || le(y, x) {
      BeforeIsTotal(x.programId, y.programId);
    }
    forall x, y, z | le(x, y) && le(y, z) ensures le(x, z) {
      if Before(x.programId, y.programId) && Before(y.programId, z.programId) {
        BeforeIsTransitive(x.programId, y.programId, z.programId);
      }
    }
  }

  lemma {:induction false} DistinctProgramsDoNotTie(cache: seq<Opponent>, higher: bool)
    requires IdsIdentify(cache)
    ensures NoTies(cache, Ranking(higher))
  {
    forall x, y | x in cache && y in cache && Ranks(higher, x, y) && Ranks(higher, y, x) ensures x == y {
      BeforeIsTotal(x.programId, y.programId);
    }
  }

  lemma {:induction false} RankedByWorth(cache: seq<Opponent>, higher: bool)
    ensures Sorted(Ranked(cache, higher), Ranking(higher))
    ensures ByWorth(Ranked(cache, higher), higher)
    ensures forall o :: o in Ranked(cache, higher) <==> o in cache
  {
    RankingIsTotal(higher);
    SortByIsSorted(cache, Ranking(higher));
    forall o ensures o in Ranked(cache, higher) <==> o in cache {
      SameElements(Ranked(cache, higher), cache, o);
    }
    var s := Ranked(cache, higher);
    forall i, j | 0 <= i < j < |s| ensures Worth(higher, s[i]) >= Worth(higher, s[j]) {
      assert Ranking(higher)(s[i], s[j]);
    }
  }

  ghost predicate ByWorth(s: seq<Opponent>, higher: bool) {
    forall i, j :: 0 <= i < j < |s| ==> Worth(higher, s[i]) >= Worth(higher, s[j])
  }

  /** A Python slice `s[:k]`, where a negative `k` counts from the end. */
  function SliceTo<T>(s: seq<T>, k: int): seq<T> {
    if k >= |s| then s else if k >= 0 then s[..k] else if |s| + k >= 0 then s[..|s| + k] else []
  }

  lemma {:induction false} SliceIsPrefix<T>(s: seq<T>, k: int)
    ensures SliceTo(s, k) <= s
    ensures |SliceTo(s, k)| == if k >= 0 then Lesser(k, |s|) else if |s| + k >= 0 then |s| + k else 0
  {
  }

  // ---------------------------------------------------------------- one program per cell

  /** The archive cell of each program; a program without one is a cell of its own. */
  type Cells = map<string, string>

  function CellOf(cells: Cells, o: Opponent): string {
    if o.programId in cells then cells[o.programId] else o.programId
  }

  function CellSet(cells: Cells, s: seq<Opponent>): set<string> {
    set o | o in s :: CellOf(cells, o)
  }

  /** Walk the ranking and take the first program of every cell not yet seen.
      The count is looked at after taking one, so one is taken for any `k`. */
  function Greedy(s: seq<Opponent>, cells: Cells, seen: set<string>, k: int): seq<Opponent>
    decreases |s|
  {
    if s == [] then []
    else if CellOf(cells, s[0]) in seen then Greedy(s[1..], cells, seen, k)
    else [s[0]] + if k <= 1 then [] else Greedy(s[1..], cells, seen + {CellOf(cells, s[0])}, k - 1)
  }

  function Stratified(cache: seq<Opponent>, cells: Cells, higher: bool, k: int): seq<Opponent> {
    Greedy(Ranked(cache, higher), cells, {}, k)
  }

  ghost predicate DistinctCells(cells: Cells, s: seq<Opponent>) {
    forall i, j :: 0 <= i < j < |s| ==> CellOf(cells, s[i]) != CellOf(cells, s[j])
  }

  ghost predicate Avoids(cells: Cells, s: seq<Opponent>, seen: set<string>) {
    forall o :: o in s ==> CellOf(cells, o) !in seen
  }

  ghost predicate From(t: seq<Opponent>, s: seq<Opponent>) {
    forall o :: o in t ==> o in s
  }

  lemma {:induction false} GreedyTakesOnePerCell(s: seq<Opponent>, cells: Cells, seen: set<string>, k: int)
    ensures From(Greedy(s, cells, seen, k), s)
    ensures Avoids(cells, Greedy(s, cells, seen, k), seen)
    ensures DistinctCells(cells, Greedy(s, cells, seen, k))
    decreases |s|
  {
    if s != [] {
      var c := CellOf(cells, s[0]);
      if c in seen {
        GreedyTakesOnePerCell(s[1..], cells, seen, k);
      } else if k > 1 {
        GreedyTakesOnePerCell(s[1..], cells, seen + {c}, k - 1);
      }
    }
  }

  lemma {:induction false} CellsOfTail(s: seq<Opponent>, cells: Cells)
    requires s != []
    ensures CellSet(cells, s) == CellSet(cells, s[1..]) + {CellOf(cells, s[0])}
  {
    forall o ensures o in s <==> o == s[0] || o in s[1..] {
    }
  }

  lemma {:induction false} OneCellFewer(all: set<string>, rest: set<string>, seen: set<string>, c: string)
    requires all == rest + {c}
    ensures c in seen ==> all - seen == rest - seen
    ensures c !in seen ==> |all - seen| == |rest - (seen + {c})| + 1
  {
    if c !in seen {
      assert all - seen == (rest - (seen + {c})) + {c};
    } else {
      assert all - seen == rest - seen;
    }
  }

  lemma {:induction false} GreedyCount(s: seq<Opponent>, cells: Cells, seen: set<string>, k: int)
    ensures |Greedy(s, cells, seen, k)| == Lesser(|CellSet(cells, s) - seen|, if k < 1 then 1 else k)
    decreases |s|
  {
    if s != [] {
      var c := CellOf(cells, s[0]);
      CellsOfTail(s, cells);
      OneCellFewer(CellSet(cells, s), CellSet(cells, s[1..]), seen, c);
      if c in seen {
        GreedyCount(s[1..], cells, seen, k);
      } else if k > 1 {
        GreedyCount(s[1..], cells, seen + {c}, k - 1);
      }
    }
  }

  /** The program taken for a cell is the first of that cell in the ranking. */
  lemma {:induction false} GreedyTakesTheBest(s: seq<Opponent>, cells: Cells, seen: set<string>, k: int, higher: bool, o: Opponent, x: Opponent)
    requires Sorted(s, Ranking(higher))
    requires x in Greedy(s, cells, seen, k) && o in s && CellOf(cells, o) == CellOf(cells, x)
    ensures o == x || Ranks(higher, x, o)
    decreases |s|
  {
    var c := CellOf(cells, s[0]);
    GreedyTakesOnePerCell(s, cells, seen, k);
    if c in seen {
      GreedyTakesTheBest(s[1..], cells, seen, k, higher, o, x);
    } else if x == s[0] {
      var j :| 0 <= j < |s| && s[j] == o;
      if j > 0 {
        assert Ranking(higher)(s[0], s[j]);
      }
    } else {
      GreedyTakesOnePerCell(s[1..], cells, seen + {c}, k - 1);
      GreedyTakesTheBest(s[1..], cells, seen + {c}, k - 1, higher, o, x);
    }
  }

  // ---------------------------------------------------------------- no better choice

  ghost function Total(s: seq<Opponent>, higher: bool): real
    decreases |s|
  {
    if s == [] then 0.0 else Worth(higher, s[0]) + Total(s[1..], higher)
  }

  ghost function TotalFitness(s: seq<Opponent>): real
    decreases |s|
  {
    if s == [] then 0.0 else s[0].fitness + TotalFitness(s[1..])
  }

  lemma {:induction false} TotalIs(s: seq<Opponent>, higher: bool)
    ensures Total(s, higher) == if higher then TotalFitness(s) else -TotalFitness(s)
    decreases |s|
  {
    if s != [] {
      TotalIs(s[1..], higher);
    }
  }

  function Without(t: seq<Opponent>, i: nat): seq<Opponent>
    requires i < |t|
  {
    t[..i] + t[i + 1..]
  }

  lemma {:induction false} TotalWithout(t: seq<Opponent>, i: nat, higher: bool)
    requires i < |t|
    ensures Total(t, higher) == Worth(higher, t[i]) + Total(Without(t, i), higher)
    decreases |t|
  {
    if i == 0 {
      assert Without(t, 0) == t[1..];
    } else {
      TotalWithout(t[1..], i - 1, higher);
      assert Without(t, i) == [t[0]] + Without(t[1..], i - 1);
    }
  }

  lemma {:induction false} WithoutKeeps(t: seq<Opponent>, i: nat, cells: Cells)
    requires i < |t| && DistinctCells(cells, t)
    ensures DistinctCells(cells, Without(t, i))
    ensures |Without(t, i)| == |t| - 1
    ensures From(Without(t, i), t)
    ensures Avoids(cells, Without(t, i), {CellOf(cells, t[i])})
  {
    var u := Without(t, i);
    forall j | 0 <= j < |u| ensures u[j] == t[if j < i then j else j + 1] {
    }
  }

  /** The element of `t` to give up for a head with cell `c`: the one that
      shares the cell if there is one. */
  lemma {:induction false} Rival(t: seq<Opponent>, c: string, cells: Cells) returns (i: nat)
    requires t != [] && DistinctCells(cells, t)
    ensures i < |t| && Avoids(cells, Without(t, i), {c})
  {
    if j: nat :| j < |t| && CellOf(cells, t[j]) == c {
      i := j;
      WithoutKeeps(t, i, cells);
    } else {
      i := 0;
      WithoutKeeps(t, i, cells);
    }
  }

  /** No selection of as many programs from distinct unseen cells is worth more. */
  lemma {:induction false} GreedyIsOptimal(s: seq<Opponent>, cells: Cells, seen: set<string>, k: int, higher: bool, t: seq<Opponent>)
    requires ByWorth(s, higher)
    requires From(t, s) && DistinctCells(cells, t) && Avoids(cells, t, seen)
    requires |t| == |Greedy(s, cells, seen, k)|
    ensures Total(t, higher) <= Total(Greedy(s, cells, seen, k), higher)
    decreases |s|
  {
    if s != [] {
      var c := CellOf(cells, s[0]);
      if c in seen {
        TailHolds(s, t, cells, seen);
        GreedyIsOptimal(s[1..], cells, seen, k, higher, t);
      } else {
        var i := Rival(t, c, cells);
        var u := Without(t, i);
        TotalWithout(t, i, higher);
        WithoutKeeps(t, i, cells);
        assert Worth(higher, t[i]) <= Worth(higher, s[0]) by {
          assert t[i] in s;
        }
        if k <= 1 {
          assert u == [];
        } else {
          TailHolds(s, u, cells, {c});
          assert Avoids(cells, u, seen + {c});
          GreedyIsOptimal(s[1..], cells, seen + {c}, k - 1, higher, u);
        }
      }
    }
  }

  lemma {:induction false} TailHolds(s: seq<Opponent>, t: seq<Opponent>, cells: Cells, seen: set<string>)
    requires s != [] && From(t, s) && Avoids(cells, t, seen) && CellOf(cells, s[0]) in seen
    ensures From(t, s[1..])
  {
    forall o | o in t ensures o in s[1..] {
      assert o in s && o != s[0];
    }
  }

  /** What the stratified choice promises: as many programs as cells and `k`
      allow (but one even for `k` below one), from distinct cells, each ahead of
      every other program of its cell. */
  lemma {:induction false} StratifiedPicksOnePerCell(cache: seq<Opponent>, cells: Cells, higher: bool, k: int)
    ensures |Stratified(cache, cells, higher, k)| == Lesser(|CellSet(cells, cache)|, if k < 1 then 1 else k)
    ensures DistinctCells(cells, Stratified(cache, cells, higher, k))
    ensures From(Stratified(cache, cells, higher, k), cache)
    ensures forall x, o :: x in Stratified(cache, cells, higher, k) && o in cache && CellOf(cells, o) == CellOf(cells, x)
              ==> o == x || Outranks(higher, x, o)
  {
    var s := Ranked(cache, higher);
    RankedByWorth(cache, higher);
    GreedyTakesOnePerCell(s, cells, {}, k);
    GreedyCount(s, cells, {}, k);
    assert CellSet(cells, s) - {} == CellSet(cells, cache);
    forall x, o | x in Stratified(cache, cells, higher, k) && o in cache && CellOf(cells, o) == CellOf(cells, x)
      ensures o == x || Outranks(higher, x, o)
    {
      GreedyTakesTheBest(s, cells, {}, k, higher, o, x);
    }
  }

  lemma {:induction false} GreedyInOrder(s: seq<Opponent>, cells: Cells, seen: set<string>, k: int, higher: bool)
    requires InOrder(s, higher)
    ensures InOrder(Greedy(s, cells, seen, k), higher)
    decreases |s|
  {
    if s != [] {
      var c := CellOf(cells, s[0]);
      if c in seen {
        GreedyInOrder(s[1..], cells, seen, k, higher);
      } else if k > 1 {
        var rest := Greedy(s[1..], cells, seen + {c}, k - 1);
        GreedyInOrder(s[1..], cells, seen + {c}, k - 1, higher);
        GreedyTakesOnePerCell(s[1..], cells, seen + {c}, k - 1);
        forall j | 0 <= j < |rest| ensures Outranks(higher, s[0], rest[j]) {
          assert rest[j] in rest && rest[j] in s[1..];
          var i :| 0 <= i < |s[1..]| && s[1..][i] == rest[j];
          assert s[i + 1] == rest[j];
        }
      }
    }
  }

  /** It lists them in the order of the ranking. */
  lemma {:induction false} StratifiedInOrder(cache: seq<Opponent>, cells: Cells, higher: bool, k: int)
    ensures InOrder(Stratified(cache, cells, higher, k), higher)
  {
    RankedIsOutranking(cache, higher);
    GreedyInOrder(Ranked(cache, higher), cells, {}, k, higher);
  }

  /** It has the best total fitness of any choice of that size from distinct cells. */
  lemma {:induction false} StratifiedIsOptimal(cache: seq<Opponent>, cells: Cells, higher: bool, k: int, t: seq<Opponent>)
    requires From(t, cache) && DistinctCells(cells, t) && |t| == |Stratified(cache, cells, higher, k)|
    ensures var best := TotalFitness(Stratified(cache, cells, higher, k));
            if higher then TotalFitness(t) <= best else TotalFitness(t) >= best
  {
    TotalIs(t, higher);
    TotalIs(Stratified(cache, cells, higher, k), higher);
    RankedByWorth(cache, higher);
    GreedyIsOptimal(Ranked(cache, higher), cells, {}, k, higher, t);
  }

  /** It does not depend on the order the cache was filled in. */
  lemma {:induction false} ChoiceForgetsCacheOrder(a: seq<Opponent>, b: seq<Opponent>, cells: Cells, higher: bool, k: int)
    requires multiset(a) == multiset(b) && IdsIdentify(a)
    ensures Stratified(a, cells, higher, k) == Stratified(b, cells, higher, k)
    ensures SliceTo(Ranked(a, higher), k) == SliceTo(Ranked(b, higher), k)
  {
    RankingIsTotal(higher);
    DistinctProgramsDoNotTie(a, higher);
    SortForgetsOrder(a, b, Ranking(higher));
  }

  lemma {:induction false} TopIsOfCache(cache: seq<Opponent>, higher: bool, k: int)
    ensures multiset(SliceTo(Ranked(cache, higher), k)) <= multiset(cache)
    ensures |SliceTo(Ranked(cache, higher), k)| == if k >= 0 then Lesser(k, |cache|) else if |cache| + k >= 0 then |cache| + k else 0
  {
    var s, top := Ranked(cache, higher), SliceTo(Ranked(cache, higher), k);
    RankingIsTotal(higher);
    SortByIsSorted(cache, Ranking(higher));
    assert |multiset(s)| == |multiset(cache)|;
    SliceIsPrefix(s, k);
    assert s == top + s[|top|..];
  }

  /** The plain top k: nothing it leaves out ranks before anything it takes. */
  lemma {:induction false} PlainTopKLeads(cache: seq<Opponent>, higher: bool, k: int, x: Opponent, o: Opponent)
    requires x in SliceTo(Ranked(cache, higher), k) && o in cache && o !in SliceTo(Ranked(cache, higher), k)
    ensures x in cache && Outranks(higher, x, o)
  {
    var s, top := Ranked(cache, higher), SliceTo(Ranked(cache, higher), k);
    RankedByWorth(cache, higher);
    var i :| 0 <= i < |top| && top[i] == x;
    var j :| 0 <= j < |s| && s[j] == o;
    SliceIsPrefix(s, k);
    assert s[i] == x;
    assert forall k :: 0 <= k < |top| ==> s[k] == top[k] && top[k] in top;
    assert Ranking(higher)(s[i], s[j]);
  }

  lemma {:induction false} DistinctTail(s: seq<Opponent>, cells: Cells, seen: set<string>)
    requires s != [] && DistinctCells(cells, s) && Avoids(cells, s, seen)
    ensures CellOf(cells, s[0]) !in seen
    ensures DistinctCells(cells, s[1..]) && Avoids(cells, s[1..], seen + {CellOf(cells, s[0])})
  {
    assert s[0] in s;
    forall o | o in s[1..] ensures CellOf(cells, o) !in seen + {CellOf(cells, s[0])} {
      var j :| 0 <= j < |s[1..]| && s[1..][j] == o;
      assert s[j + 1] == o && o in s;
    }
    DistinctByHead(s, cells);
  }

  lemma {:induction false} GreedyOnDistinctCells(s: seq<Opponent>, cells: Cells, seen: set<string>, k: int)
    requires DistinctCells(cells, s) && Avoids(cells, s, seen) && k >= 1
    ensures Greedy(s, cells, seen, k) == SliceTo(s, k)
    decreases |s|
  {
    if s != [] {
      DistinctTail(s, cells, seen);
      SliceFromHead(s, k);
      GreedyTakesHead(s, cells, seen, k);
      if k > 1 {
        GreedyOnDistinctCells(s[1..], cells, seen + {CellOf(cells, s[0])}, k - 1);
      }
    }
  }

  lemma {:induction false} GreedyTakesHead(s: seq<Opponent>, cells: Cells, seen: set<string>, k: int)
    requires s != [] && Avoids(cells, s, seen)
    ensures Greedy(s, cells, seen, k) == [s[0]] + if k <= 1 then [] else Greedy(s[1..], cells, seen + {CellOf(cells, s[0])}, k - 1)
  {
    assert s[0] in s;
  }

  lemma {:induction false} SliceFromHead<T>(s: seq<T>, k: int)
    requires s != [] && k >= 1
    ensures SliceTo(s, k) == [s[0]] + if k == 1 then [] else SliceTo(s[1..], k - 1)
  {
  }

  lemma {:induction false} DistinctSetSize(s: seq<Opponent>, cells: Cells)
    ensures |CellSet(cells, s)| <= |s|
    ensures |CellSet(cells, s)| == |s| <==> DistinctCells(cells, s)
    decreases |s|
  {
    if s != [] {
      var c := CellOf(cells, s[0]);
      DistinctSetSize(s[1..], cells);
      CellsOfTail(s, cells);
      if c in CellSet(cells, s[1..]) {
        assert CellSet(cells, s) == CellSet(cells, s[1..]);
        var o :| o in s[1..] && CellOf(cells, o) == c;
        var j :| 0 <= j < |s[1..]| && s[1..][j] == o;
        assert CellOf(cells, s[0]) == CellOf(cells, s[j + 1]);
      } else {
        forall j | 0 < j < |s| ensures CellOf(cells, s[j]) != c {
          assert s[j] in s[1..];
        }
        DistinctByHead(s, cells);
      }
    }
  }

  lemma {:induction false} DistinctByHead(s: seq<Opponent>, cells: Cells)
    requires s != [] && forall j :: 0 < j < |s| ==> CellOf(cells, s[j]) != CellOf(cells, s[0])
    ensures DistinctCells(cells, s) <==> DistinctCells(cells, s[1..])
  {
    if DistinctCells(cells, s[1..]) {
      forall i, j | 0 <= i < j < |s| ensures CellOf(cells, s[i]) != CellOf(cells, s[j]) {
        if i > 0 {
          assert s[i] == s[1..][i - 1] && s[j] == s[1..][j - 1];
        }
      }
    }
    if DistinctCells(cells, s) {
      forall i, j | 0 <= i < j < |s[1..]| ensures CellOf(cells, s[1..][i]) != CellOf(cells, s[1..][j]) {
        assert s[1..][i] == s[i + 1] && s[1..][j] == s[j + 1];
      }
    }
  }

  /** When the archive holds one program per cell, as a single archive does, the
      stratified choice is the plain top k. */
  lemma {:induction false} OnePerCellMeansPlainTopK(cache: seq<Opponent>, cells: Cells, higher: bool, k: int)
    requires DistinctCells(cells, cache) && k >= 1
    ensures Stratified(cache, cells, higher, k) == SliceTo(Ranked(cache, higher), k)
  {
    var s := Ranked(cache, higher);
    RankedByWorth(cache, higher);
    DistinctSetSize(cache, cells);
    DistinctSetSize(s, cells);
    assert CellSet(cells, s) == CellSet(cells, cache);
    GreedyOnDistinctCells(s, cells, {}, k);
  }

  // ---------------------------------------------------------------- the providers

  /** The fields of a stored program the providers look at. */
  datatype Blob = Blob(code: string, fitness: Option<real>)

  /** One entry of an archive hash with the blob its program id points at. */
  datatype Row = Row(cell: string, programId: string, blob: Option<Blob>)

  /** A program without the fitness metric counts as 0 here. */
  function LoadedPlain(rows: seq<Row>): (cache: seq<Opponent>)
    decreases |rows|
  {
    if rows == [] then [] else
      var r := rows[|rows| - 1];
      var before := LoadedPlain(rows[..|rows| - 1]);
      if r.blob.None? || r.blob.value.code == "" then before
      else before + [Opponent(r.programId, r.blob.value.code, if r.blob.value.fitness.Some? then r.blob.value.fitness.value else 0.0)]
  }

  predicate Usable(r: Row) { r.blob.Some? && r.blob.value.fitness.Some? && r.blob.value.code != "" }

  /** Here it is left out. */
  function Loaded(rows: seq<Row>): seq<Opponent>
    decreases |rows|
  {
    if rows == [] then [] else
      var r := rows[|rows| - 1];
      var before := Loaded(rows[..|rows| - 1]);
      if !Usable(r) then before else before + [Opponent(r.programId, r.blob.value.code, r.blob.value.fitness.value)]
  }

  function LoadedCells(rows: seq<Row>): Cells
    decreases |rows|
  {
    if rows == [] then map[] else
      var r := rows[|rows| - 1];
      var before := LoadedCells(rows[..|rows| - 1]);
      if !Usable(r) then before else before[r.programId := r.cell]
  }

  lemma {:induction false} LoadedPlainIsStored(rows: seq<Row>, o: Opponent)
    ensures o in LoadedPlain(rows) <==>
              exists r :: r in rows && r.blob.Some? && r.blob.value.code != ""
                && o == Opponent(r.programId, r.blob.value.code, if r.blob.value.fitness.Some? then r.blob.value.fitness.value else 0.0)
    decreases |rows|
  {
    if rows != [] {
      var r := rows[|rows| - 1];
      var before := rows[..|rows| - 1];
      assert rows == before + [r];
      LoadedPlainIsStored(before, o);
    }
  }

  /** The cell on record for a program is that of a usable row with its id. */
  lemma {:induction false} LoadedCellsAreOfRows(rows: seq<Row>, id: string)
    ensures id in LoadedCells(rows) ==> exists r :: r in rows && Usable(r) && r.programId == id && r.cell == LoadedCells(rows)[id]
    decreases |rows|
  {
    if rows != [] {
      var r := rows[|rows| - 1];
      var before := rows[..|rows| - 1];
      assert rows == before + [r];
      LoadedCellsAreOfRows(before, id);
    }
  }

  /** Every cached program knows its cell, and the cached programs are the
      usable rows. */
  lemma {:induction false} LoadedIsUsable(rows: seq<Row>, o: Opponent)
    ensures o in Loaded(rows) ==> o.programId in LoadedCells(rows)
    ensures o in Loaded(rows) <==> exists r :: r in rows && Usable(r) && o == Opponent(r.programId, r.blob.value.code, r.blob.value.fitness.value)
    decreases |rows|
  {
    if rows != [] {
      var r := rows[|rows| - 1];
      var before := rows[..|rows| - 1];
      assert rows == before + [r];
      LoadedIsUsable(before, o);
    }
  }

  class RedisOpponentArchiveProvider {
    var cache: seq<Opponent>
    var cacheTime: real
    const cacheTtl: real

    constructor (cacheTtl: real)
      ensures cache == [] && cacheTime == 0.0 && this.cacheTtl == cacheTtl
    {
      cache, cacheTime, this.cacheTtl := [], 0.0, cacheTtl;
    }

    method RefreshCache(rows: seq<Row>)
      modifies `cache
      ensures cache == LoadedPlain(rows)
    {
      var opponents: seq<Opponent> := [];
      var i := 0;
      while i < |rows|
        invariant 0 <= i <= |rows|
        invariant opponents == LoadedPlain(rows[..i])
      {
        assert rows[..i + 1][..i] == rows[..i];
        if rows[i].blob.Some? {
          var code := rows[i].blob.value.code;
          var fitness := if rows[i].blob.value.fitness.Some? then rows[i].blob.value.fitness.value else 0.0;
          if code != "" {
            opponents := opponents + [Opponent(rows[i].programId, code, fitness)];
          }
        }
        i := i + 1;
      }
      assert rows[..i] == rows;
      cache := opponents;
    }

    method GetTopK(k: int, higherIsBetter: bool, now: real, rows: seq<Row>) returns (top: seq<Opponent>)
      modifies this
      ensures cache == if old(cache == [] || now - cacheTime > cacheTtl) then LoadedPlain(rows) else old(cache)
      ensures cacheTime == if old(cache == [] || now - cacheTime > cacheTtl) then now else old(cacheTime)
      ensures top == SliceTo(Ranked(cache, higherIsBetter), k)
      ensures multiset(top) <= multiset(cache)
      ensures |top| == if k > |cache| then |cache| else if k >= 0 then k else if |cache| + k >= 0 then |cache| + k else 0
      ensures InOrder(top, higherIsBetter)
      ensures forall x, o :: x in top && o in cache && o !in top ==> Outranks(higherIsBetter, x, o)
    {
      if cache == [] || now - cacheTime > cacheTtl {
        RefreshCache(rows);
        cacheTime := now;
      }
      top := SliceTo(Ranked(cache, higherIsBetter), k);
      TopIsOfCache(cache, higherIsBetter, k);
      RankedIsOutranking(cache, higherIsBetter);
      SliceIsPrefix(Ranked(cache, higherIsBetter), k);
      forall x, o | x in top && o in cache && o !in top ensures Outranks(higherIsBetter, x, o) {
        PlainTopKLeads(cache, higherIsBetter, k, x, o);
      }
    }

    /** Served from the cache when as many programs are found as ids were asked
        for, otherwise from a fresh read of the archive. */
    method GetProgramsByIds(ids: set<string>, now: real, rows: seq<Row>) returns (found: seq<Opponent>)
      modifies this
      ensures cache == if |old(Hits(cache, ids))| == |ids| then old(cache) else LoadedPlain(rows)
      ensures cacheTime == if |old(Hits(cache, ids))| == |ids| then old(cacheTime) else now
      ensures found == Hits(cache, ids)
      ensures forall o :: multiset(found)[o] == if o.programId in ids then multiset(cache)[o] else 0
      ensures Subsequence(found, cache)
      ensures old(DistinctIds(cache)) ==> cache == if ids <= old(IdsOf(cache)) then old(cache) else LoadedPlain(rows)
      ensures old(DistinctIds(cache)) ==> cacheTime == if ids <= old(IdsOf(cache)) then old(cacheTime) else now
    {
      found := Hits(cache, ids);
      if DistinctIds(cache) {
        DistinctCacheAnswers(cache, ids);
      }
      if |found| != |ids| {
        RefreshCache(rows);
        cacheTime := now;
        found := Hits(cache, ids);
      }
      HitsAreInOrder(cache, ids);
      forall o {
        HitsAreAsOften(cache, ids, o);
      }
    }
  }

  function Hits(cache: seq<Opponent>, ids: set<string>): seq<Opponent>
    decreases |cache|
  {
    if cache == [] then []
    else (if cache[0].programId in ids then [cache[0]] else []) + Hits(cache[1..], ids)
  }

  ghost predicate DistinctIds(cache: seq<Opponent>) {
    forall i, j :: 0 <= i < j < |cache| ==> cache[i].programId != cache[j].programId
  }

  function IdsOf(cache: seq<Opponent>): set<string> {
    set o | o in cache :: o.programId
  }

  lemma {:induction false} HitsAre(cache: seq<Opponent>, ids: set<string>, o: Opponent)
    ensures o in Hits(cache, ids) <==> o in cache && o.programId in ids
    decreases |cache|
  {
    if cache != [] {
      HitsAre(cache[1..], ids, o);
      assert o in cache <==> o == cache[0] || o in cache[1..];
    }
  }

  lemma {:induction false} HitsAreAsOften(cache: seq<Opponent>, ids: set<string>, o: Opponent)
    ensures multiset(Hits(cache, ids))[o] == if o.programId in ids then multiset(cache)[o] else 0
    decreases |cache|
  {
    if cache != [] {
      var rest := Hits(cache[1..], ids);
      HitsAreAsOften(cache[1..], ids, o);
      assert multiset(cache)[o] == multiset(cache[1..])[o] + if cache[0] == o then 1 else 0 by {
        assert cache == [cache[0]] + cache[1..];
      }
      if cache[0].programId in ids {
        assert multiset([cache[0]] + rest)[o] == multiset(rest)[o] + if cache[0] == o then 1 else 0;
      } else {
        assert [] + rest == rest;
      }
    }
  }

  lemma {:induction false} HitsAreInOrder(cache: seq<Opponent>, ids: set<string>)
    ensures Subsequence(Hits(cache, ids), cache)
    decreases |cache|
  {
    if cache != [] {
      var rest := Hits(cache[1..], ids);
      HitsAreInOrder(cache[1..], ids);
      assert ([cache[0]] + rest)[1..] == rest && [] + rest == rest;
    }
  }

  lemma {:induction false} HeadIdIsNew(cache: seq<Opponent>)
    requires cache != [] && DistinctIds(cache)
    ensures cache[0].programId !in IdsOf(cache[1..])
    ensures IdsOf(cache) == IdsOf(cache[1..]) + {cache[0].programId}
  {
    forall o | o in cache[1..] ensures o.programId != cache[0].programId {
      var j :| 0 < j < |cache| && cache[j] == o;
    }
    assert forall o :: o in cache <==> o == cache[0] || o in cache[1..];
  }

  lemma {:induction false} HitsCount(cache: seq<Opponent>, ids: set<string>)
    requires DistinctIds(cache)
    ensures |Hits(cache, ids)| == |ids * IdsOf(cache)|
    decreases |cache|
  {
    if cache == [] {
      assert ids * IdsOf(cache) == {};
    } else {
      HitsCount(cache[1..], ids);
      HeadIdIsNew(cache);
      OneMoreCommon(ids, IdsOf(cache[1..]), cache[0].programId);
    }
  }

  lemma {:induction false} OneMoreCommon(ids: set<string>, rest: set<string>, x: string)
    requires x !in rest
    ensures |ids * (rest + {x})| == |ids * rest| + if x in ids then 1 else 0
  {
    if x in ids {
      assert ids * (rest + {x}) == ids * rest + {x};
    } else {
      assert ids * (rest + {x}) == ids * rest;
    }
  }

  lemma {:induction false} DistinctCacheAnswers(cache: seq<Opponent>, ids: set<string>)
    requires DistinctIds(cache)
    ensures |Hits(cache, ids)| == |ids| <==> ids <= IdsOf(cache)
  {
    HitsCount(cache, ids);
    var both := ids * IdsOf(cache);
    assert ids == both + (ids - both);
    assert |ids| == |both| + |ids - both|;
    if |both| == |ids| {
      assert ids - both == {};
    }
    if ids <= IdsOf(cache) {
      assert both == ids;
    }
  }

  lemma {:induction false} TwoHits(cache: seq<Opponent>, i: nat, j: nat)
    requires i < j < |cache| && cache[i].programId == cache[j].programId
    ensures |Hits(cache, {cache[i].programId})| >= 2
    decreases |cache|
  {
    var ids := {cache[i].programId};
    var rest := cache[1..];
    if i == 0 {
      assert rest[j - 1] == cache[j] && cache[j] in rest;
      HitsAre(rest, ids, cache[j]);
    } else {
      assert rest[i - 1] == cache[i] && rest[j - 1] == cache[j];
      TwoHits(rest, i - 1, j - 1);
    }
  }

  lemma {:induction false} UnknownIdsHitNothing(cache: seq<Opponent>, ids: set<string>, unknown: set<string>)
    requires unknown !! IdsOf(cache)
    ensures Hits(cache, ids + unknown) == Hits(cache, ids)
    decreases |cache|
  {
    if cache != [] {
      assert cache[0] in cache;
      forall o | o in cache[1..] ensures o in cache {
      }
      UnknownIdsHitNothing(cache[1..], ids, unknown);
    }
  }

  /** The count test means what it is meant to mean, that the cache alone answers
      exactly the requests it holds every id of, exactly when no id is cached
      twice. */
  lemma {:induction false} CacheAnswersIff(cache: seq<Opponent>)
    ensures (forall ids :: |Hits(cache, ids)| == |ids| <==> ids <= IdsOf(cache)) <==> DistinctIds(cache)
  {
    if DistinctIds(cache) {
      forall ids ensures |Hits(cache, ids)| == |ids| <==> ids <= IdsOf(cache) {
        DistinctCacheAnswers(cache, ids);
      }
    } else {
      var i, j :| 0 <= i < j < |cache| && cache[i].programId == cache[j].programId;
      TwoHits(cache, i, j);
      var ids := {cache[i].programId};
      assert cache[i] in cache;
      assert ids <= IdsOf(cache) && |Hits(cache, ids)| != |ids|;
    }
  }

  /** A twice-cached id together with one unknown id for every extra copy of it. */
  lemma {:induction false} HiddenMiss(cache: seq<Opponent>, i: nat, j: nat) returns (ids: set<string>)
    requires i < j < |cache| && cache[i].programId == cache[j].programId
    ensures |Hits(cache, ids)| == |ids| && !(ids <= IdsOf(cache))
  {
    var x := {cache[i].programId};
    TwoHits(cache, i, j);
    var m: nat := |Hits(cache, x)| - 1;
    assert cache[i] in cache;
    var unknown := FreshNames(m, IdsOf(cache));
    UnknownIdsHitNothing(cache, x, unknown);
    ids := x + unknown;
    assert x !! unknown;
    var u :| u in unknown;
    assert u in ids;
  }

  /** Whenever an id is cached twice, some request passes the test although an id
      of it is missing, and the archive is not consulted; with distinct ids none
      does. */
  lemma {:induction false} MissIsHiddenIff(cache: seq<Opponent>)
    ensures (exists ids :: |Hits(cache, ids)| == |ids| && !(ids <= IdsOf(cache))) <==> !DistinctIds(cache)
  {
    if DistinctIds(cache) {
      forall ids ensures |Hits(cache, ids)| == |ids| ==> ids <= IdsOf(cache) {
        DistinctCacheAnswers(cache, ids);
      }
    } else {
      var i, j :| 0 <= i < j < |cache| && cache[i].programId == cache[j].programId;
      var ids := HiddenMiss(cache, i, j);
    }
  }

  class CellStratifiedProvider {
    var cache: seq<Opponent>
    var cellFields: Cells
    var cacheTime: real
    const cacheTtl: real
    const higherIsBetter: bool

    constructor (cacheTtl: real, higherIsBetter: bool)
      ensures cache == [] && cellFields == map[] && cacheTime == 0.0
      ensures this.cacheTtl == cacheTtl && this.higherIsBetter == higherIsBetter
    {
      cache, cellFields, cacheTime := [], map[], 0.0;
      this.cacheTtl, this.higherIsBetter := cacheTtl, higherIsBetter;
    }

    method RefreshCache(rows: seq<Row>)
      modifies `cache, `cellFields
      ensures cache == Loaded(rows) && cellFields == LoadedCells(rows)
    {
      var opponents: seq<Opponent> := [];
      var cellMap: Cells := map[];
      var i := 0;
      while i < |rows|
        invariant 0 <= i <= |rows|
        invariant opponents == Loaded(rows[..i]) && cellMap == LoadedCells(rows[..i])
      {
        assert rows[..i + 1][..i] == rows[..i];
        var r := rows[i];
        if r.blob.Some? && r.blob.value.fitness.Some? && r.blob.value.code != "" {
          opponents := opponents + [Opponent(r.programId, r.blob.value.code, r.blob.value.fitness.value)];
          cellMap := cellMap[r.programId := r.cell];
        }
        i := i + 1;
      }
      assert rows[..i] == rows;
      cache, cellFields := opponents, cellMap;
    }

    method GetTopK(k: int, higher: bool, now: real, rows: seq<Row>) returns (picked: seq<Opponent>)
      modifies this
      ensures cache == if old(cache == [] || now - cacheTime > cacheTtl) then Loaded(rows) else old(cache)
      ensures cellFields == if old(cache == [] || now - cacheTime > cacheTtl) then LoadedCells(rows) else old(cellFields)
      ensures cacheTime == if old(cache == [] || now - cacheTime > cacheTtl) then now else old(cacheTime)
      ensures picked == Stratified(cache, cellFields, higherIsBetter && higher, k)
      ensures InOrder(picked, higherIsBetter && higher)
    {
      if cache == [] || now - cacheTime > cacheTtl {
        RefreshCache(rows);
        cacheTime := now;
      }
      var effectiveHigher := higherIsBetter && higher;
      if cache == [] {
        return [];
      }
      StratifiedInOrder(cache, cellFields, effectiveHigher, k);
      picked := PickCells(Ranked(cache, effectiveHigher), k);
    }

    method PickCells(ranked: seq<Opponent>, k: int) returns (picked: seq<Opponent>)
      ensures picked == Greedy(ranked, cellFields, {}, k)
    {
      picked := [];
      var seen: set<string> := {};
      var i := 0;
      while i < |ranked|
        invariant 0 <= i <= |ranked|
        invariant |picked| == 0 || |picked| < k
        invariant Greedy(ranked, cellFields, {}, k) == picked + Greedy(ranked[i..], cellFields, seen, k - |picked|)
      {
        var op := ranked[i];
        var cell := if op.programId in cellFields then cellFields[op.programId] else op.programId;
        assert ranked[i..][1..] == ranked[i + 1..];
        if cell !in seen {
          picked := picked + [op];
          seen := seen + {cell};
          if |picked| >= k {
            break;
          }
        }
        i := i + 1;
      }
    }
  }
}
