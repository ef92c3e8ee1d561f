/** The tracker object: batch writes built by a loop over the pairs and sent as
    one pipeline, and the sorted-set queries (gigaevo/adversarial/dg_tracker.py). */
module DGImprovementTrackers {
  import opened Wrappers
  import opened Ordering
  import opened DGTrackers

  // ---------------------------------------------------------------- ZREVRANGE

  /** Highest score first, and the greater member first among equals. */
  predicate Ahead(z: ZSet, a: string, b: string)
    requires a in z && b in z
  {
    z[a] > z[b] || (z[a] == z[b] && AtMost(b, a))
  }

  ghost predicate IsTop(z: ZSet, m: string) {
    m in z && forall x :: x in z ==> Ahead(z, m, x)
  }

  lemma {:induction false} TopExists(z: ZSet)
    requires z != map[]
    ensures exists m :: IsTop(z, m)
    decreases |z|
  {
    var k :| k in z;
    var rest := z - {k};
    if rest == map[] {
      assert z.Keys == rest.Keys + {k};
      assert IsTop(z, k);
    } else {
      TopExists(rest);
      var m :| IsTop(rest, m);
      BeforeIsTotal(k, m);
      TopOfTwo(z, k, m);
    }
  }

  lemma {:induction false} TopOfTwo(z: ZSet, k: string, m: string)
    requires k in z && IsTop(z - {k}, m)
    ensures IsTop(z, k) || IsTop(z, m)
  {
    BeforeIsTotal(k, m);
    if Ahead(z, k, m) {
      forall x | x in z ensures Ahead(z, k, x) {
        if x != k {
          assert Ahead(z - {k}, m, x);
          if Before(x, m) && Before(m, k) {
            BeforeIsTransitive(x, m, k);
          }
        }
      }
    } else {
      forall x | x in z ensures Ahead(z, m, x) {
        if x != k {
          assert Ahead(z - {k}, m, x);
        }
      }
    }
  }

  lemma {:induction false} TopIsUnique(z: ZSet, a: string, b: string)
    requires IsTop(z, a) && IsTop(z, b)
    ensures a == b
  {
    assert Ahead(z, a, b) && Ahead(z, b, a);
    BeforeIsTotal(a, b);
  }

  ghost function TopMember(z: ZSet): (m: string)
    requires z != map[]
    ensures IsTop(z, m)
  {
    TopExists(z);
    var m :| IsTop(z, m);
    m
  }

  /** The members from the top down. */
  ghost function Descending(z: ZSet): (order: seq<string>)
    ensures |order| == |z|
    ensures forall m :: m in order <==> m in z
    decreases |z|
  {
    if z == map[] then [] else [TopMember(z)] + Descending(BelowTop(z))
  }

  ghost function BelowTop(z: ZSet): (rest: ZSet)
    requires z != map[]
    ensures |rest| == |z| - 1
    ensures forall m :: m in rest <==> m in z && m != TopMember(z)
    ensures forall m :: m in rest ==> rest[m] == z[m]
  {
    assert z.Keys == (z - {TopMember(z)}).Keys + {TopMember(z)};
    z - {TopMember(z)}
  }

  ghost predicate Falling(z: ZSet, order: seq<string>) {
    && (forall m :: m in order ==> m in z)
    && (forall i, j :: 0 <= i < j < |order| ==> order[i] in z && order[j] in z && Ahead(z, order[i], order[j]))
  }

  lemma {:induction false} FallingFromTop(z: ZSet, m: string, rest: ZSet, below: seq<string>)
    requires IsTop(z, m) && Falling(rest, below)
    requires forall x :: x in rest ==> x in z && rest[x] == z[x]
    ensures Falling(z, [m] + below)
  {
    var order := [m] + below;
    forall i, j | 0 <= i < j < |order| ensures order[i] in z && order[j] in z && Ahead(z, order[i], order[j]) {
      assert order[j] == below[j - 1] && below[j - 1] in below;
      if i > 0 {
        assert Ahead(rest, below[i - 1], below[j - 1]);
      }
    }
  }

  /** The order is by falling score, ties by falling name. */
  lemma {:induction false} DescendingFalls(z: ZSet)
    ensures Falling(z, Descending(z))
    decreases |z|
  {
    if z != map[] {
      DescendingFalls(BelowTop(z));
      FallingFromTop(z, TopMember(z), BelowTop(z), Descending(BelowTop(z)));
    }
  }

  lemma {:induction false} DescendingAt(z: ZSet, i: nat, j: nat)
    requires i < j < |z|
    ensures Descending(z)[i] in z && Descending(z)[j] in z
    ensures z[Descending(z)[i]] >= z[Descending(z)[j]]
  {
    DescendingFalls(z);
    assert Ahead(z, Descending(z)[i], Descending(z)[j]);
  }

  ghost predicate NoRepeats(order: seq<string>) { forall i, j :: 0 <= i < j < |order| ==> order[i] != order[j] }

  lemma {:induction false} NoRepeatsFromTop(m: string, below: seq<string>)
    requires NoRepeats(below) && m !in below
    ensures NoRepeats([m] + below)
  {
    forall j | 0 <= j < |below| ensures below[j] != m {
    }
  }

  lemma {:induction false} DescendingIsDistinct(z: ZSet)
    ensures NoRepeats(Descending(z))
    decreases |z|
  {
    if z != map[] {
      var rest := BelowTop(z);
      DescendingIsDistinct(rest);
      assert TopMember(z) !in Descending(rest);
      NoRepeatsFromTop(TopMember(z), Descending(rest));
    }
  }

  /** How many elements `ZREVRANGE key 0 (k - 1)` returns: a negative end counts
      from the back, so k = 0 asks for everything. */
  function RangeSize(n: nat, k: int): (size: nat)
    ensures size <= n
    ensures k >= 1 ==> size == if k <= n then k else n
    ensures k <= 0 ==> size == if n + k >= 0 then n + k else 0
  {
    if k >= 1 then (if k <= n then k else n) else if n + k >= 0 then n + k else 0
  }

  function ParseOne(m: string, z: ZSet): seq<(string, string, real)>
    requires m in z
  {
    match SplitOnce(m)
    case None => []
    case Some((d, g)) => [(d, g, z[m])]
  }

  function Parsed(members: seq<string>, z: ZSet): (pairs: seq<(string, string, real)>)
    requires forall m :: m in members ==> m in z
    decreases |members|
  {
    if members == [] then []
    else ParseOne(members[0], z) + Parsed(members[1..], z)
  }

  lemma {:induction false} ParsedFrom(members: seq<string>, z: ZSet, i: nat)
    requires i < |members| && forall m :: m in members ==> m in z
    ensures Parsed(members[i..], z) == ParseOne(members[i], z) + Parsed(members[i + 1..], z)
  {
    assert members[i..][1..] == members[i + 1..];
  }

  lemma {:induction false} ParsedInOrder(members: seq<string>, z: ZSet)
    requires forall m :: m in members ==> m in z && SplitOnce(m).Some?
    ensures |Parsed(members, z)| == |members|
    ensures forall i :: 0 <= i < |members| ==>
              Parsed(members, z)[i] == (SplitOnce(members[i]).value.0, SplitOnce(members[i]).value.1, z[members[i]])
    decreases |members|
  {
    if members != [] {
      assert members[0] in members;
      ParsedInOrder(members[1..], z);
    }
  }

  // ---------------------------------------------------------------- the object

  lemma {:induction false} OtherPairsStay(t: Tables, d: string, g: string, delta: real)
    ensures forall d', g' :: (d', g') != (d, g) ==> Improvement(t, d, g, delta).Score(d', g') == t.Score(d', g')
    ensures '|' !in d ==> forall d', g' :: '|' !in d' && (d', g') != (d, g) ==>
              Improvement(t, d, g, delta).PairScore(d', g') == t.PairScore(d', g')
  {
    forall d', g' | '|' !in d && '|' !in d' && (d', g') != (d, g)
      ensures Improvement(t, d, g, delta).PairScore(d', g') == t.PairScore(d', g')
    {
      if Member(d, g) == Member(d', g') {
        MembersDiffer(d, g, d', g');
      }
    }
  }

  /** The meeting tables are those of a run of batches. */
  ghost predicate RecordedBy(t: Tables, batches: seq<Batch>) {
    && (forall b :: b in batches ==> WellFormed(b))
    && WellFormed(Flat(batches))
    && (var r := Run(EMPTY_TABLES, batches); t.dWins == r.dWins && t.gResisted == r.gResisted && t.metrics == r.metrics)
  }

  class DGImprovementTracker {
    var tables: Tables

    constructor ()
      ensures tables == EMPTY_TABLES
    {
      tables := EMPTY_TABLES;
    }

    /** An entry without the "delta" key raises before anything is sent. */
    method RecordBatch(batch: Batch) returns (r: Result<nat, string>)
      modifies this
      ensures r.Ok? <==> WellFormed(batch)
      ensures r.Ok? <==> forall e :: e in batch ==> "delta" in e.metrics
      ensures r.Ok? ==> tables == Recorded(old(tables), batch) && r.value == PositiveCount(batch)
      ensures r.Err? ==> tables == old(tables)
    {
      if |batch| == 0 {
        RecordedNothing(tables);
        return Ok(0);
      }
      var improvements := tables.improvements;
      var globalMembers: ZSet := map[];
      var dWins: map<string, set<string>> := map[];
      var gResisted: map<string, set<string>> := map[];
      var dMetrics: map<string, map<string, Metrics>> := map[];
      var positive := 0;
      var i := 0;
      while i < |batch|
        invariant 0 <= i <= |batch| && tables == old(tables)
        invariant WellFormed(batch[..i])
        invariant improvements == Improved(tables.improvements, batch[..i])
        invariant globalMembers == PairScores(batch[..i])
        invariant dWins == NewWins(batch[..i])
        invariant gResisted == NewResisted(batch[..i])
        invariant dMetrics == NewMetrics(batch[..i])
        invariant positive == PositiveCount(batch[..i])
      {
        var e := batch[i];
        if DELTA !in e.metrics {
          assert batch[i] in batch;
          return Err(DELTA);
        }
        NextEntry(tables.improvements, batch, i);
        dMetrics := dMetrics[e.d := HAt(dMetrics, e.d)[e.g := e.metrics]];
        var delta := e.metrics[DELTA];
        if delta > 0.0 {
          positive := positive + 1;
          improvements := improvements[e.g := ZAddGt(ZAt(improvements, e.g), e.d, delta)];
          globalMembers := globalMembers[Member(e.d, e.g) := delta];
          dWins := dWins[e.d := SAt(dWins, e.d) + {e.g}];
        } else {
          gResisted := gResisted[e.g := SAt(gResisted, e.g) + {e.d}];
        }
        i := i + 1;
      }
      assert batch[..i] == batch;
      tables := Tables(improvements, ZAddAllGt(tables.bestPairs, globalMembers), SAddAll(tables.dWins, dWins),
                       SAddAll(tables.gResisted, gResisted), HSetAll(tables.metrics, dMetrics), tables.injected);
      return Ok(positive);
    }

    /** Raises the score of the pair in both score tables, never lowers one, and
        touches no other pair and no other table. */
    method RecordImprovement(d: string, g: string, delta: real)
      modifies this
      ensures tables == Improvement(old(tables), d, g, delta)
      ensures tables.Score(d, g) == if delta > 0.0 then Higher(old(tables).Score(d, g), Some(delta)) else old(tables).Score(d, g)
      ensures tables.PairScore(d, g) == if delta > 0.0 then Higher(old(tables).PairScore(d, g), Some(delta)) else old(tables).PairScore(d, g)
      ensures forall d', g' :: (d', g') != (d, g) ==> tables.Score(d', g') == old(tables).Score(d', g')
      ensures '|' !in d ==> forall d', g' :: '|' !in d' && (d', g') != (d, g) ==> tables.PairScore(d', g') == old(tables).PairScore(d', g')
      ensures forall d' :: tables.Wins(d') == old(tables).Wins(d') && tables.Faced(d') == old(tables).Faced(d')
    {
      OtherPairsStay(tables, d, g, delta);
      if delta <= 0.0 {
        return;
      }
      var z := ZAddGt(ZAt(tables.improvements, g), d, delta);
      tables := tables.(improvements := tables.improvements[g := z]);
      tables := tables.(bestPairs := ZAddGt(tables.bestPairs, Member(d, g), delta));
    }

    method CountGBeatenByD(d: string) returns (n: nat)
      ensures n == |tables.Wins(d)|
      ensures forall batches :: RecordedBy(tables, batches) ==> n == |Beaten(Flat(batches), d)|
    {
      forall batches | RecordedBy(tables, batches) {
        RunSets(batches, d, "");
      }
      n := |SAt(tables.dWins, d)|;
    }

    method CountDResistedByG(g: string) returns (n: nat)
      ensures n == |tables.Resisted(g)|
      ensures forall batches :: RecordedBy(tables, batches) ==> n == |Withstood(Flat(batches), g)|
    {
      forall batches | RecordedBy(tables, batches) {
        RunSets(batches, "", g);
      }
      n := |SAt(tables.gResisted, g)|;
    }

    method FacedByD(d: string) returns (faced: set<string>)
      ensures faced == tables.Faced(d)
      ensures forall batches :: RecordedBy(tables, batches) ==> faced == Opposed(Flat(batches), d)
    {
      forall batches | RecordedBy(tables, batches) {
        RunSets(batches, d, "");
      }
      faced := HAt(tables.metrics, d).Keys;
    }

    method IsPairInjected(d: string, g: string) returns (yes: bool)
      ensures yes <==> Member(d, g) in tables.injected
    {
      yes := Member(d, g) in tables.injected;
    }

    method MarkPairInjected(d: string, g: string)
      modifies this
      ensures tables == old(tables).(injected := old(tables).injected + {Member(d, g)})
    {
      tables := tables.(injected := tables.injected + {Member(d, g)});
    }

    /** The highest score of the G, and the greatest D id among those that have it. */
    method GetBestDForG(g: string) returns (best: Option<(string, real)>)
      ensures best.None? <==> ZAt(tables.improvements, g) == map[]
      ensures best.Some? ==> IsTop(ZAt(tables.improvements, g), best.value.0)
      ensures best.Some? ==> tables.Score(best.value.0, g) == Some(best.value.1)
    {
      best := TopOf(ZAt(tables.improvements, g));
    }

    /** A stored name that does not split in two is passed over. */
    method GetBestPairs(k: int) returns (pairs: seq<(string, string, real)>)
      ensures pairs == BestPairs(tables, k)
    {
      var z := tables.bestPairs;
      var order := DescendingOf(z);
      pairs := ParsePairs(order[..RangeSize(|z|, k)], z);
    }
  }

  method ParsePairs(results: seq<string>, z: ZSet) returns (pairs: seq<(string, string, real)>)
    requires forall m :: m in results ==> m in z
    ensures pairs == Parsed(results, z)
  {
    pairs := [];
    var i := 0;
    while i < |results|
      invariant 0 <= i <= |results|
      invariant ParsedOff(results, z, pairs, i)
    {
      ParsedOffNext(results, z, pairs, i);
      pairs := AppendParsed(pairs, results[i], z);
      i := i + 1;
    }
  }

  /** A name in two parts adds a pair, any other nothing. */
  method AppendParsed(pairs: seq<(string, string, real)>, member: string, z: ZSet) returns (more: seq<(string, string, real)>)
    requires member in z
    ensures more == pairs + ParseOne(member, z)
  {
    more := pairs;
    match SplitOnce(member) {
      case None =>
      case Some((d, g)) => more := pairs + [(d, g, z[member])];
    }
  }

  ghost predicate ParsedOff(results: seq<string>, z: ZSet, pairs: seq<(string, string, real)>, i: nat)
    requires i <= |results| && forall m :: m in results ==> m in z
  {
    Parsed(results, z) == pairs + Parsed(results[i..], z)
  }

  lemma {:induction false} ParsedOffNext(results: seq<string>, z: ZSet, pairs: seq<(string, string, real)>, i: nat)
    requires i < |results| && forall m :: m in results ==> m in z
    requires ParsedOff(results, z, pairs, i)
    ensures ParsedOff(results, z, pairs + ParseOne(results[i], z), i + 1)
  {
    ParsedFrom(results, z, i);
    assert pairs + (ParseOne(results[i], z) + Parsed(results[i + 1..], z)) == pairs + ParseOne(results[i], z) + Parsed(results[i + 1..], z);
  }

  lemma {:induction false} Reassociate<T>(a: seq<T>, x: T, b: seq<T>)
    ensures a + ([x] + b) == a + [x] + b
  {
  }

  lemma {:induction false} TopGoesFirst(z: ZSet, m: string)
    requires z != map[] && IsTop(z, m)
    ensures |z - {m}| < |z|
    ensures Descending(z) == [m] + Descending(z - {m})
  {
    TopIsUnique(z, m, TopMember(z));
    assert BelowTop(z) == z - {m};
  }

  /** `order` has been read off, `left` is still to come. */
  ghost predicate ReadOff(whole: seq<string>, order: seq<string>, left: ZSet) {
    whole == order + Descending(left)
  }

  lemma {:induction false} ReadOffNext(whole: seq<string>, order: seq<string>, left: ZSet, m: string)
    requires left != map[] && IsTop(left, m) && ReadOff(whole, order, left)
    ensures |left - {m}| < |left|
    ensures ReadOff(whole, order + [m], left - {m})
  {
    TopGoesFirst(left, m);
    Reassociate(order, m, Descending(left - {m}));
  }

  /** ZREVRANGE over everything. */
  method DescendingOf(z: ZSet) returns (order: seq<string>)
    ensures order == Descending(z)
  {
    ghost var whole := Descending(z);
    order := [];
    var left := z;
    while left != map[]
      invariant ReadOff(whole, order, left)
      decreases |left|
    {
      var best := TopOf(left);
      ReadOffNext(whole, order, left, best.value.0);
      order, left := order + [best.value.0], left - {best.value.0};
    }
  }

  /** ZREVRANGE 0 0. */
  method TopOf(z: ZSet) returns (best: Option<(string, real)>)
    ensures best.None? <==> z == map[]
    ensures best.Some? ==> IsTop(z, best.value.0) && z[best.value.0] == best.value.1
  {
    var left := z.Keys;
    best := None;
    while left != {}
      invariant left <= z.Keys
      invariant best.None? <==> left == z.Keys
      invariant best.Some? ==> best.value.0 in z && best.value.1 == z[best.value.0]
      invariant best.Some? ==> forall x :: x in z && x !in left ==> Ahead(z, best.value.0, x)
      decreases |left|
    {
      var k :| k in left;
      if best.None? {
        best := Some((k, z[k]));
      } else {
        var m := best.value.0;
        BeforeIsTotal(k, m);
        if z[k] > z[m] || (z[k] == z[m] && AtMost(m, k)) {
          AheadOfAll(z, left, m, k);
          best := Some((k, z[k]));
        }
      }
      left := left - {k};
    }
    assert best.None? ==> z.Keys == {};
  }

  lemma {:induction false} AheadOfAll(z: ZSet, left: set<string>, m: string, k: string)
    requires m in z && k in z && Ahead(z, k, m)
    requires forall x :: x in z && x !in left ==> Ahead(z, m, x)
    ensures forall x :: x in z && x !in left ==> Ahead(z, k, x)
  {
    forall x | x in z && x !in left ensures Ahead(z, k, x) {
      assert Ahead(z, m, x);
      if Before(x, m) && Before(m, k) {
        BeforeIsTransitive(x, m, k);
      }
    }
  }

  // ---------------------------------------------------------------- what the best-pairs list says

  ghost function BestPairs(t: Tables, k: int): seq<(string, string, real)> {
    Parsed(Descending(t.bestPairs)[..RangeSize(|t.bestPairs|, k)], t.bestPairs)
  }

  /** The global index names real pairs and gives each its per-G score, as
      IndicesAgree shows for every run of clean batches. */
  ghost predicate PairsAgree(t: Tables) {
    && (forall m :: m in t.bestPairs ==> exists d, g :: '|' !in d && m == Member(d, g))
    && (forall d, g :: '|' !in d ==> t.PairScore(d, g) == t.Score(d, g))
  }

  lemma {:induction false} MembersParse(t: Tables, m: string)
    requires PairsAgree(t) && m in t.bestPairs
    ensures SplitOnce(m).Some?
    ensures var (d, g) := SplitOnce(m).value; m == Member(d, g) && '|' !in d && t.Score(d, g) == Some(t.bestPairs[m])
  {
    var d, g :| '|' !in d && m == Member(d, g);
    SplitMember(d, g);
    assert t.PairScore(d, g) == t.Score(d, g);
  }

  lemma {:induction false} BestPairAt(t: Tables, k: int, i: nat)
    requires PairsAgree(t) && i < RangeSize(|t.bestPairs|, k)
    ensures |BestPairs(t, k)| == RangeSize(|t.bestPairs|, k)
    ensures SplitOnce(Descending(t.bestPairs)[i]).Some?
    ensures var (d, g) := SplitOnce(Descending(t.bestPairs)[i]).value;
            BestPairs(t, k)[i] == (d, g, t.bestPairs[Descending(t.bestPairs)[i]])
  {
    var order := Descending(t.bestPairs)[..RangeSize(|t.bestPairs|, k)];
    forall m | m in order ensures SplitOnce(m).Some? {
      MembersParse(t, m);
    }
    ParsedInOrder(order, t.bestPairs);
  }

  /** The list has the k asked for if there are that many pairs, and all of them
      when k is zero. */
  lemma {:induction false} BestPairsCount(t: Tables, k: int)
    requires PairsAgree(t)
    ensures |BestPairs(t, k)| == RangeSize(|t.bestPairs|, k)
    ensures k == 0 ==> |BestPairs(t, k)| == |t.bestPairs|
  {
    var order := Descending(t.bestPairs)[..RangeSize(|t.bestPairs|, k)];
    forall m | m in order ensures SplitOnce(m).Some? {
      MembersParse(t, m);
    }
    ParsedInOrder(order, t.bestPairs);
  }

  lemma {:induction false} BestPairPlace(t: Tables, k: int, d: string, g: string)
    requires PairsAgree(t) && '|' !in d && t.Score(d, g).Some?
    requires |BestPairs(t, k)| == RangeSize(|t.bestPairs|, k)
    ensures || (exists i :: 0 <= i < |BestPairs(t, k)| && BestPairs(t, k)[i] == (d, g, t.Score(d, g).value))
            || (forall i :: 0 <= i < |BestPairs(t, k)| ==> BestPairs(t, k)[i].2 >= t.Score(d, g).value)
  {
    var order := Descending(t.bestPairs);
    var n := RangeSize(|t.bestPairs|, k);
    assert t.PairScore(d, g) == t.Score(d, g);
    var p: nat :| p < |order| && order[p] == Member(d, g);
    SplitMember(d, g);
    if p < n {
      BestPairAt(t, k, p);
    } else {
      forall i: nat | i < n ensures BestPairs(t, k)[i].2 >= t.Score(d, g).value {
        BestPairAt(t, k, i);
        DescendingAt(t.bestPairs, i, p);
      }
    }
  }

  lemma {:induction false} BestPairsAreDistinct(t: Tables, k: int, i: nat, j: nat)
    requires PairsAgree(t) && i < j < RangeSize(|t.bestPairs|, k)
    ensures |BestPairs(t, k)| == RangeSize(|t.bestPairs|, k)
    ensures (BestPairs(t, k)[i].0, BestPairs(t, k)[i].1) != (BestPairs(t, k)[j].0, BestPairs(t, k)[j].1)
  {
    var order := Descending(t.bestPairs);
    BestPairAt(t, k, i);
    BestPairAt(t, k, j);
    DescendingIsDistinct(t.bestPairs);
    MembersParse(t, order[i]);
    MembersParse(t, order[j]);
  }

  /** The list is the k best pairs in falling order, each with the score the
      per-G index has for it, and no pair left out scores more than one in it. */
  lemma {:induction false} BestPairsAreTheBest(t: Tables, k: int, d: string, g: string)
    requires PairsAgree(t) && '|' !in d
    ensures |BestPairs(t, k)| == RangeSize(|t.bestPairs|, k)
    ensures forall i: nat :: i < |BestPairs(t, k)| ==>
              t.Score(BestPairs(t, k)[i].0, BestPairs(t, k)[i].1) == Some(BestPairs(t, k)[i].2)
    ensures forall i: nat, j: nat :: i < j < |BestPairs(t, k)| ==> BestPairs(t, k)[i].2 >= BestPairs(t, k)[j].2
    ensures t.Score(d, g).Some? ==>
              || (exists i :: 0 <= i < |BestPairs(t, k)| && BestPairs(t, k)[i] == (d, g, t.Score(d, g).value))
              || (forall i :: 0 <= i < |BestPairs(t, k)| ==> BestPairs(t, k)[i].2 >= t.Score(d, g).value)
  {
    var n := RangeSize(|t.bestPairs|, k);
    BestPairsCount(t, k);
    forall i: nat | i < n ensures t.Score(BestPairs(t, k)[i].0, BestPairs(t, k)[i].1) == Some(BestPairs(t, k)[i].2) {
      BestPairAt(t, k, i);
      MembersParse(t, Descending(t.bestPairs)[i]);
    }
    forall i: nat, j: nat | i < j < n ensures BestPairs(t, k)[i].2 >= BestPairs(t, k)[j].2 {
      BestPairAt(t, k, i);
      BestPairAt(t, k, j);
      DescendingAt(t.bestPairs, i, j);
    }
    if t.Score(d, g).Some? {
      BestPairPlace(t, k, d, g);
    }
  }

  /** Every run of clean batches leaves the indices in agreement. */
  lemma {:induction false} CleanRunsAgree(batches: seq<Batch>)
    requires forall b :: b in batches ==> WellFormed(b)
    requires forall b :: b in batches ==> Clean(b)
    ensures PairsAgree(Run(EMPTY_TABLES, batches))
  {
    var t := Run(EMPTY_TABLES, batches);
    forall d, g | '|' !in d ensures t.PairScore(d, g) == t.Score(d, g) {
      IndicesAgree(batches, d, g);
    }
    forall m | m in t.bestPairs ensures exists d, g :: '|' !in d && m == Member(d, g) {
      PairsAreNamed(batches, m);
    }
  }

  lemma {:induction false} PairsAreNamed(batches: seq<Batch>, m: string)
    requires forall b :: b in batches ==> WellFormed(b)
    requires forall b :: b in batches ==> Clean(b)
    requires m in Run(EMPTY_TABLES, batches).bestPairs
    ensures exists d, g :: '|' !in d && m == Member(d, g)
    decreases |batches|
  {
    if batches != [] {
      var before := batches[..|batches| - 1];
      var last := batches[|batches| - 1];
      if m in Run(EMPTY_TABLES, before).bestPairs {
        PairsAreNamed(before, m);
      } else {
        assert Clean(last);
        SentPairsAreNamed(last, m);
      }
    }
  }

  lemma {:induction false} SentPairsAreNamed(batch: Batch, m: string)
    requires WellFormed(batch) && NoBars(batch) && m in PairScores(batch)
    ensures exists d, g :: '|' !in d && m == Member(d, g)
    decreases |batch|
  {
    var before := batch[..|batch| - 1];
    var e := batch[|batch| - 1];
    if m in PairScores(before) {
      SentPairsAreNamed(before, m);
    } else {
      assert '|' !in e.d && m == Member(e.d, e.g);
    }
  }
}
