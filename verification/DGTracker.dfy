/** The record of which D program improved which G program, and by how much
    (gigaevo/adversarial/dg_tracker.py): one Redis sorted set per G, one global
    sorted set of pairs, two inverted indices and a hash of full results.
    Nothing here expires. */
module DGTrackers {
  import opened Wrappers

  type Metrics = map<string, real>

  const DELTA := "delta"

  datatype Entry = Entry(d: string, g: string, metrics: Metrics) {
    predicate HasDelta() { DELTA in metrics }

    function Delta(): real
      requires HasDelta()
    {
      metrics[DELTA]
    }
  }

  type Batch = seq<Entry>

  predicate WellFormed(batch: Batch) { forall e :: e in batch ==> e.HasDelta() }

  // ---------------------------------------------------------------- the tables

  type ZSet = map<string, real>

  datatype Tables = Tables(
    improvements: map<string, ZSet>,
    bestPairs: ZSet,
    dWins: map<string, set<string>>,
    gResisted: map<string, set<string>>,
    metrics: map<string, map<string, Metrics>>,
    injected: set<string>)
  {
    function Score(d: string, g: string): Option<real> { Get(ZAt(improvements, g), d) }

    function PairScore(d: string, g: string): Option<real> { Get(bestPairs, Member(d, g)) }

    function Wins(d: string): set<string> { SAt(dWins, d) }

    function Resisted(g: string): set<string> { SAt(gResisted, g) }

    function Results(d: string): map<string, Metrics> { HAt(metrics, d) }

    function Faced(d: string): set<string> { Results(d).Keys }
  }

  const EMPTY_TABLES := Tables(map[], map[], map[], map[], map[], {})

  function Get<K, V>(m: map<K, V>, k: K): Option<V> { if k in m then Some(m[k]) else None }

  function ZAt(m: map<string, ZSet>, k: string): ZSet { if k in m then m[k] else map[] }

  function SAt(m: map<string, set<string>>, k: string): set<string> { if k in m then m[k] else {} }

  function HAt(m: map<string, map<string, Metrics>>, k: string): map<string, Metrics> { if k in m then m[k] else map[] }

  /** ZADD with GT: the score only rises. */
  function ZAddGt(z: ZSet, member: string, score: real): ZSet {
    if member in z && z[member] >= score then z else z[member := score]
  }

  function ZAddAllGt(z: ZSet, added: ZSet): ZSet {
    map m | m in z.Keys + added.Keys ::
      if m !in added then z[m] else if m in z && z[m] >= added[m] then z[m] else added[m]
  }

  function SAddAll(sets: map<string, set<string>>, added: map<string, set<string>>): map<string, set<string>> {
    map k | k in sets.Keys + added.Keys :: SAt(sets, k) + SAt(added, k)
  }

  function HSetAll(hashes: map<string, map<string, Metrics>>, added: map<string, map<string, Metrics>>): map<string, map<string, Metrics>> {
    map k | k in hashes.Keys + added.Keys :: HAt(hashes, k) + HAt(added, k)
  }

  // ---------------------------------------------------------------- pair names

  function Member(d: string, g: string): string { d + "|" + g }

  /** Splitting at the first bar. */
  function SplitOnce(s: string): Option<(string, string)>
    decreases |s|
  {
    if s == [] then None
    else if s[0] == '|' then Some(([], s[1..]))
    else match SplitOnce(s[1..])
         case None => None
         case Some((a, b)) => Some(([s[0]] + a, b))
  }

  /** A name without a bar has no parts; of one with bars the first is taken out. */
  lemma {:induction false} SplitOnceIs(s: string)
    ensures SplitOnce(s).Some? <==> '|' in s
    ensures SplitOnce(s).Some? ==> var (a, b) := SplitOnce(s).value; '|' !in a && s == a + "|" + b
    decreases |s|
  {
    if s != [] && s[0] != '|' {
      assert s == [s[0]] + s[1..];
      SplitOnceIs(s[1..]);
      if SplitOnce(s[1..]).Some? {
        var (a, b) := SplitOnce(s[1..]).value;
        assert s == ([s[0]] + a) + "|" + b;
      }
    } else if s != [] {
      assert s == "|" + s[1..];
      assert s == [] + "|" + s[1..];
    }
  }

  lemma {:induction false} SplitMember(d: string, g: string)
    ensures SplitOnce(Member(d, g)).Some?
    ensures '|' !in d ==> SplitOnce(Member(d, g)) == Some((d, g))
    ensures '|' !in SplitOnce(Member(d, g)).value.0
    decreases |d|
  {
    var s := Member(d, g);
    if d == [] {
      assert s[0] == '|' && s[1..] == g;
    } else {
      assert s[0] == d[0] && s[1..] == Member(d[1..], g);
      SplitMember(d[1..], g);
      assert d == [d[0]] + d[1..];
    }
  }

  /** A stored pair name gives back its two ids exactly when the D id has no bar. */
  lemma {:induction false} ParseIff(d: string, g: string)
    ensures SplitOnce(Member(d, g)) == Some((d, g)) <==> '|' !in d
  {
    SplitMember(d, g);
  }

  lemma {:induction false} MembersDiffer(d: string, g: string, d': string, g': string)
    requires '|' !in d && '|' !in d' && Member(d, g) == Member(d', g')
    ensures d == d' && g == g'
  {
    SplitMember(d, g);
    SplitMember(d', g');
  }

  // ---------------------------------------------------------------- one batch

  function Improved(imps: map<string, ZSet>, batch: Batch): map<string, ZSet>
    requires WellFormed(batch)
    decreases |batch|
  {
    if batch == [] then imps else
      var before := Improved(imps, batch[..|batch| - 1]);
      var e := batch[|batch| - 1];
      if e.Delta() > 0.0 then before[e.g := ZAddGt(ZAt(before, e.g), e.d, e.Delta())] else before
  }

  /** The dict of pair scores a batch sends: a repeated pair keeps its last one. */
  function PairScores(batch: Batch): ZSet
    requires WellFormed(batch)
    decreases |batch|
  {
    if batch == [] then map[] else
      var before := PairScores(batch[..|batch| - 1]);
      var e := batch[|batch| - 1];
      if e.Delta() > 0.0 then before[Member(e.d, e.g) := e.Delta()] else before
  }

  function NewWins(batch: Batch): map<string, set<string>>
    requires WellFormed(batch)
    decreases |batch|
  {
    if batch == [] then map[] else
      var before := NewWins(batch[..|batch| - 1]);
      var e := batch[|batch| - 1];
      if e.Delta() > 0.0 then before[e.d := SAt(before, e.d) + {e.g}] else before
  }

  function NewResisted(batch: Batch): map<string, set<string>>
    requires WellFormed(batch)
    decreases |batch|
  {
    if batch == [] then map[] else
      var before := NewResisted(batch[..|batch| - 1]);
      var e := batch[|batch| - 1];
      if e.Delta() > 0.0 then before else before[e.g := SAt(before, e.g) + {e.d}]
  }

  function NewMetrics(batch: Batch): map<string, map<string, Metrics>>
    decreases |batch|
  {
    if batch == [] then map[] else
      var before := NewMetrics(batch[..|batch| - 1]);
      var e := batch[|batch| - 1];
      before[e.d := HAt(before, e.d)[e.g := e.metrics]]
  }

  function PositiveCount(batch: Batch): nat
    requires WellFormed(batch)
    decreases |batch|
  {
    if batch == [] then 0
    else PositiveCount(batch[..|batch| - 1]) + if batch[|batch| - 1].Delta() > 0.0 then 1 else 0
  }

  /** The number returned: entries, not pairs, with a positive delta. */
  lemma {:induction false} PositiveCountIs(batch: Batch)
    requires WellFormed(batch)
    ensures PositiveCount(batch) == |set i | 0 <= i < |batch| && batch[i].Delta() > 0.0|
    decreases |batch|
  {
    if batch != [] {
      var n := |batch| - 1;
      var before := set i | 0 <= i < n && batch[..n][i].Delta() > 0.0;
      var all := set i | 0 <= i < |batch| && batch[i].Delta() > 0.0;
      PositiveCountIs(batch[..n]);
      assert n !in before;
      assert all == before + if batch[n].Delta() > 0.0 then {n} else {};
    }
  }

  /** What one more entry adds to each of the dicts a batch builds. */
  lemma {:induction false} NextEntry(imps: map<string, ZSet>, batch: Batch, i: nat)
    requires i < |batch| && WellFormed(batch[..i]) && batch[i].HasDelta()
    ensures WellFormed(batch[..i + 1])
    ensures var e, some, more := batch[i], batch[..i], batch[..i + 1];
            var up := e.Delta() > 0.0;
            && Improved(imps, more) == (if up then Improved(imps, some)[e.g := ZAddGt(ZAt(Improved(imps, some), e.g), e.d, e.Delta())] else Improved(imps, some))
            && PairScores(more) == (if up then PairScores(some)[Member(e.d, e.g) := e.Delta()] else PairScores(some))
            && NewWins(more) == (if up then NewWins(some)[e.d := SAt(NewWins(some), e.d) + {e.g}] else NewWins(some))
            && NewResisted(more) == (if up then NewResisted(some) else NewResisted(some)[e.g := SAt(NewResisted(some), e.g) + {e.d}])
            && NewMetrics(more) == NewMetrics(some)[e.d := HAt(NewMetrics(some), e.d)[e.g := e.metrics]]
            && PositiveCount(more) == PositiveCount(some) + if up then 1 else 0
  {
    assert batch[..i + 1] == batch[..i] + [batch[i]];
    assert batch[..i + 1][..i] == batch[..i];
  }

  /** Everything one call of record_batch writes. */
  function Recorded(t: Tables, batch: Batch): Tables
    requires WellFormed(batch)
  {
    Tables(Improved(t.improvements, batch),
           ZAddAllGt(t.bestPairs, PairScores(batch)),
           SAddAll(t.dWins, NewWins(batch)),
           SAddAll(t.gResisted, NewResisted(batch)),
           HSetAll(t.metrics, NewMetrics(batch)),
           t.injected)
  }

  lemma {:induction false} AddNothing(sets: map<string, set<string>>)
    ensures SAddAll(sets, map[]) == sets
  {
    forall k | k in sets ensures SAddAll(sets, map[])[k] == sets[k] {
    }
  }

  lemma {:induction false} SetNothing(hashes: map<string, map<string, Metrics>>)
    ensures HSetAll(hashes, map[]) == hashes
  {
    forall k | k in hashes ensures HSetAll(hashes, map[])[k] == hashes[k] {
    }
  }

  lemma {:induction false} RecordedNothing(t: Tables)
    ensures Recorded(t, []) == t
  {
    AddNothing(t.dWins);
    AddNothing(t.gResisted);
    SetNothing(t.metrics);
    assert ZAddAllGt(t.bestPairs, map[]) == t.bestPairs;
  }

  /** What record_improvement writes: two of the five tables. */
  function Improvement(t: Tables, d: string, g: string, delta: real): Tables {
    if delta <= 0.0 then t
    else t.(improvements := t.improvements[g := ZAddGt(ZAt(t.improvements, g), d, delta)],
            bestPairs := ZAddGt(t.bestPairs, Member(d, g), delta))
  }

  // ---------------------------------------------------------------- what a batch says about a pair

  function Higher(a: Option<real>, b: Option<real>): Option<real> {
    if a.None? then b else if b.None? then a else if a.value >= b.value then a else b
  }

  predicate About(e: Entry, d: string, g: string) { e.d == d && e.g == g }

  /** The largest, and the last, positive delta of a pair. */
  function MaxPositive(batch: Batch, d: string, g: string): Option<real>
    requires WellFormed(batch)
    decreases |batch|
  {
    if batch == [] then None else
      var before := MaxPositive(batch[..|batch| - 1], d, g);
      var e := batch[|batch| - 1];
      if About(e, d, g) && e.Delta() > 0.0 then Higher(before, Some(e.Delta())) else before
  }

  function LastPositive(batch: Batch, d: string, g: string): Option<real>
    requires WellFormed(batch)
    decreases |batch|
  {
    if batch == [] then None else
      var e := batch[|batch| - 1];
      if About(e, d, g) && e.Delta() > 0.0 then Some(e.Delta()) else LastPositive(batch[..|batch| - 1], d, g)
  }

  ghost predicate Resists(batch: Batch, d: string, g: string)
    requires WellFormed(batch)
  {
    exists e :: e in batch && About(e, d, g) && e.Delta() <= 0.0
  }

  ghost predicate Met(batch: Batch, d: string, g: string) {
    exists e :: e in batch && About(e, d, g)
  }

  lemma {:induction false} MaxPositiveIs(batch: Batch, d: string, g: string)
    requires WellFormed(batch)
    ensures var m := MaxPositive(batch, d, g);
            && (forall e :: e in batch && About(e, d, g) && e.Delta() > 0.0 ==> m.Some? && e.Delta() <= m.value)
            && (m.Some? ==> exists e :: e in batch && About(e, d, g) && e.Delta() == m.value > 0.0)
    decreases |batch|
  {
    if batch != [] {
      var before := batch[..|batch| - 1];
      assert batch == before + [batch[|batch| - 1]];
      MaxPositiveIs(before, d, g);
    }
  }

  /** A pair that comes up more than once in a batch. */
  ghost predicate DistinctPairs(batch: Batch) {
    forall i, j :: 0 <= i < j < |batch| ==> !About(batch[i], batch[j].d, batch[j].g)
  }

  lemma {:induction false} LastPositiveIs(batch: Batch, d: string, g: string)
    requires WellFormed(batch)
    ensures LastPositive(batch, d, g).Some? <==> MaxPositive(batch, d, g).Some?
    ensures LastPositive(batch, d, g).Some? ==> 0.0 < LastPositive(batch, d, g).value <= MaxPositive(batch, d, g).value
    ensures DistinctPairs(batch) ==> LastPositive(batch, d, g) == MaxPositive(batch, d, g)
    decreases |batch|
  {
    if batch != [] {
      var before := batch[..|batch| - 1];
      LastPositiveIs(before, d, g);
      MaxPositiveIs(before, d, g);
    }
  }

  // ---------------------------------------------------------------- each table, pair by pair

  lemma {:induction false} ImprovedScore(imps: map<string, ZSet>, batch: Batch, d: string, g: string)
    requires WellFormed(batch)
    ensures Get(ZAt(Improved(imps, batch), g), d) == Higher(Get(ZAt(imps, g), d), MaxPositive(batch, d, g))
    decreases |batch|
  {
    if batch != [] {
      ImprovedScore(imps, batch[..|batch| - 1], d, g);
    }
  }

  ghost predicate NoBars(batch: Batch) { forall e :: e in batch ==> '|' !in e.d }

  lemma {:induction false} PairScoreSent(batch: Batch, d: string, g: string)
    requires WellFormed(batch) && NoBars(batch) && '|' !in d
    ensures Get(PairScores(batch), Member(d, g)) == LastPositive(batch, d, g)
    decreases |batch|
  {
    if batch != [] {
      var e := batch[|batch| - 1];
      PairScoreSent(batch[..|batch| - 1], d, g);
      if Member(e.d, e.g) == Member(d, g) {
        assert '|' !in e.d;
        MembersDiffer(e.d, e.g, d, g);
      }
    }
  }

  lemma {:induction false} RecordedPairScore(t: Tables, batch: Batch, d: string, g: string)
    requires WellFormed(batch) && NoBars(batch) && '|' !in d
    ensures Recorded(t, batch).PairScore(d, g) == Higher(t.PairScore(d, g), LastPositive(batch, d, g))
  {
    PairScoreSent(batch, d, g);
  }

  lemma {:induction false} NewWinsAre(batch: Batch, d: string, g: string)
    requires WellFormed(batch)
    ensures g in SAt(NewWins(batch), d) <==> MaxPositive(batch, d, g).Some?
    decreases |batch|
  {
    if batch != [] {
      NewWinsAre(batch[..|batch| - 1], d, g);
    }
  }

  lemma {:induction false} NewResistedAre(batch: Batch, d: string, g: string)
    requires WellFormed(batch)
    ensures d in SAt(NewResisted(batch), g) <==> Resists(batch, d, g)
    decreases |batch|
  {
    if batch != [] {
      var before := batch[..|batch| - 1];
      var e := batch[|batch| - 1];
      NewResistedAre(before, d, g);
      assert forall x :: x in batch <==> x in before || x == e;
    }
  }

  function LastMetrics(batch: Batch, d: string, g: string): Option<Metrics>
    decreases |batch|
  {
    if batch == [] then None
    else if About(batch[|batch| - 1], d, g) then Some(batch[|batch| - 1].metrics)
    else LastMetrics(batch[..|batch| - 1], d, g)
  }

  lemma {:induction false} NewMetricsAre(batch: Batch, d: string, g: string)
    ensures Get(HAt(NewMetrics(batch), d), g) == LastMetrics(batch, d, g)
    ensures LastMetrics(batch, d, g).Some? <==> Met(batch, d, g)
    decreases |batch|
  {
    if batch != [] {
      var before := batch[..|batch| - 1];
      var e := batch[|batch| - 1];
      NewMetricsAre(before, d, g);
      assert forall x :: x in batch <==> x in before || x == e;
    }
  }

  /** What one batch does to everything the tracker knows of a pair. */
  lemma {:induction false} RecordedPair(t: Tables, batch: Batch, d: string, g: string)
    requires WellFormed(batch)
    ensures Recorded(t, batch).Score(d, g) == Higher(t.Score(d, g), MaxPositive(batch, d, g))
    ensures g in Recorded(t, batch).Wins(d) <==> g in t.Wins(d) || MaxPositive(batch, d, g).Some?
    ensures d in Recorded(t, batch).Resisted(g) <==> d in t.Resisted(g) || Resists(batch, d, g)
    ensures g in Recorded(t, batch).Faced(d) <==> g in t.Faced(d) || Met(batch, d, g)
    ensures Get(Recorded(t, batch).Results(d), g) == if Met(batch, d, g) then LastMetrics(batch, d, g) else Get(t.Results(d), g)
  {
    ImprovedScore(t.improvements, batch, d, g);
    NewWinsAre(batch, d, g);
    NewResistedAre(batch, d, g);
    NewMetricsAre(batch, d, g);
  }

  // ---------------------------------------------------------------- runs

  function Run(t: Tables, batches: seq<Batch>): Tables
    requires forall b :: b in batches ==> WellFormed(b)
    decreases |batches|
  {
    if batches == [] then t else Recorded(Run(t, batches[..|batches| - 1]), batches[|batches| - 1])
  }

  function Flat(batches: seq<Batch>): Batch
    decreases |batches|
  {
    if batches == [] then [] else Flat(batches[..|batches| - 1]) + batches[|batches| - 1]
  }

  lemma {:induction false} FlatHolds(batches: seq<Batch>, e: Entry)
    ensures e in Flat(batches) <==> exists b :: b in batches && e in b
    decreases |batches|
  {
    if batches != [] {
      var before := batches[..|batches| - 1];
      var last := batches[|batches| - 1];
      FlatHolds(before, e);
      assert forall b :: b in batches <==> b in before || b == last;
    }
  }

  lemma {:induction false} FlatWellFormed(batches: seq<Batch>)
    requires forall b :: b in batches ==> WellFormed(b)
    ensures WellFormed(Flat(batches))
  {
    forall e | e in Flat(batches) ensures e.HasDelta() {
      FlatHolds(batches, e);
    }
  }

  lemma {:induction false} MaxPositiveSplits(a: Batch, b: Batch, d: string, g: string)
    requires WellFormed(a) && WellFormed(b)
    ensures WellFormed(a + b)
    ensures MaxPositive(a + b, d, g) == Higher(MaxPositive(a, d, g), MaxPositive(b, d, g))
    decreases |b|
  {
    if b == [] {
      assert a + b == a;
    } else {
      var before := b[..|b| - 1];
      assert (a + b)[..|a + b| - 1] == a + before;
      assert (a + b)[|a + b| - 1] == b[|b| - 1];
      MaxPositiveSplits(a, before, d, g);
    }
  }

  /** After any run of batches on an empty tracker: the score of a pair is its
      largest positive delta, D has beaten G when there was one, G has resisted
      D when some delta was not positive, and D has faced G when they met. */
  lemma {:induction false} RunPair(batches: seq<Batch>, d: string, g: string)
    requires forall b :: b in batches ==> WellFormed(b)
    ensures WellFormed(Flat(batches))
    ensures Run(EMPTY_TABLES, batches).Score(d, g) == MaxPositive(Flat(batches), d, g)
    ensures g in Run(EMPTY_TABLES, batches).Wins(d) <==> MaxPositive(Flat(batches), d, g).Some?
    ensures d in Run(EMPTY_TABLES, batches).Resisted(g) <==> Resists(Flat(batches), d, g)
    ensures g in Run(EMPTY_TABLES, batches).Faced(d) <==> Met(Flat(batches), d, g)
    decreases |batches|
  {
    FlatWellFormed(batches);
    if batches != [] {
      var before := batches[..|batches| - 1];
      var last := batches[|batches| - 1];
      FlatWellFormed(before);
      RunPair(before, d, g);
      RecordedPair(Run(EMPTY_TABLES, before), last, d, g);
      MaxPositiveSplits(Flat(before), last, d, g);
      assert forall e :: e in Flat(batches) <==> e in Flat(before) || e in last;
    }
  }

  /** Whom D has strictly improved, whom G has resisted, and whom D has met. */
  function Beaten(meetings: Batch, d: string): set<string>
    requires WellFormed(meetings)
  {
    set e | e in meetings && e.d == d && e.Delta() > 0.0 :: e.g
  }

  function Withstood(meetings: Batch, g: string): set<string>
    requires WellFormed(meetings)
  {
    set e | e in meetings && e.g == g && e.Delta() <= 0.0 :: e.d
  }

  function Opposed(meetings: Batch, d: string): set<string> { set e | e in meetings && e.d == d :: e.g }

  /** After any run the wins of D, the resisted of G and the faced of D are those
      sets, each opponent once however often they met. */
  lemma {:induction false} RunSets(batches: seq<Batch>, d: string, g: string)
    requires forall b :: b in batches ==> WellFormed(b)
    ensures WellFormed(Flat(batches))
    ensures var t := Run(EMPTY_TABLES, batches);
            && t.Wins(d) == Beaten(Flat(batches), d)
            && t.Resisted(g) == Withstood(Flat(batches), g)
            && t.Faced(d) == Opposed(Flat(batches), d)
  {
    FlatWellFormed(batches);
    var t, all := Run(EMPTY_TABLES, batches), Flat(batches);
    forall g' ensures g' in t.Wins(d) <==> g' in Beaten(all, d) {
      RunPair(batches, d, g');
      MaxPositiveIs(all, d, g');
    }
    forall d' ensures d' in t.Resisted(g) <==> d' in Withstood(all, g) {
      RunPair(batches, d', g);
    }
    forall g' ensures g' in t.Faced(d) <==> g' in Opposed(all, d) {
      RunPair(batches, d, g');
    }
  }

  /** Against how many opponents: faced is won or resisted. */
  lemma {:induction false} FacedIsWonOrResisted(batches: seq<Batch>, d: string, g: string)
    requires forall b :: b in batches ==> WellFormed(b)
    ensures g in Run(EMPTY_TABLES, batches).Faced(d)
            <==> g in Run(EMPTY_TABLES, batches).Wins(d) || d in Run(EMPTY_TABLES, batches).Resisted(g)
  {
    RunPair(batches, d, g);
    var all := Flat(batches);
    MaxPositiveIs(all, d, g);
    if Met(all, d, g) {
      var e :| e in all && About(e, d, g);
      assert e.HasDelta();
    }
  }

  ghost predicate Clean(batch: Batch) { NoBars(batch) && DistinctPairs(batch) }

  /** With no pair repeated inside a batch the global pair scores are the per-G
      scores, and a pair has one exactly when D has beaten G. */
  lemma {:induction false} IndicesAgree(batches: seq<Batch>, d: string, g: string)
    requires forall b :: b in batches ==> WellFormed(b)
    requires forall b :: b in batches ==> Clean(b)
    requires '|' !in d
    ensures var t := Run(EMPTY_TABLES, batches);
            t.PairScore(d, g) == t.Score(d, g) && (t.Score(d, g).Some? <==> g in t.Wins(d))
    decreases |batches|
  {
    RunPair(batches, d, g);
    if batches != [] {
      var before := batches[..|batches| - 1];
      var last := batches[|batches| - 1];
      IndicesAgree(before, d, g);
      assert Clean(last);
      RecordedPairScore(Run(EMPTY_TABLES, before), last, d, g);
      RecordedPair(Run(EMPTY_TABLES, before), last, d, g);
      LastPositiveIs(last, d, g);
    }
  }

  /** A batch keeps the two scores of a pair equal exactly when its last
      positive delta for the pair is its largest, or the stored score is at
      least as large already. */
  lemma {:induction false} ScoresStayEqualIff(t: Tables, batch: Batch, d: string, g: string)
    requires WellFormed(batch) && NoBars(batch) && '|' !in d
    requires t.PairScore(d, g) == t.Score(d, g)
    ensures Recorded(t, batch).PairScore(d, g) == Recorded(t, batch).Score(d, g)
            <==> (|| LastPositive(batch, d, g) == MaxPositive(batch, d, g)
                  || (MaxPositive(batch, d, g).Some? && t.Score(d, g).Some? && t.Score(d, g).value >= MaxPositive(batch, d, g).value))
  {
    RecordedPairScore(t, batch, d, g);
    RecordedPair(t, batch, d, g);
    LastPositiveIs(batch, d, g);
  }

  /** The pair 5.0 then 3.0 in one batch is remembered as 5.0 in one index and
      as 3.0 in the other. */
  lemma {:induction false} RepeatedPairSplitsScores()
    ensures exists batch :: WellFormed(batch) && Recorded(EMPTY_TABLES, batch).Score("d", "g") == Some(5.0)
              && Recorded(EMPTY_TABLES, batch).PairScore("d", "g") == Some(3.0)
  {
    var a, b := Entry("d", "g", map[DELTA := 5.0]), Entry("d", "g", map[DELTA := 3.0]);
    var batch := [a, b];
    assert batch[..1] == [a] && batch[..1][..0] == [];
    assert MaxPositive([a], "d", "g") == Some(5.0);
    assert MaxPositive(batch, "d", "g") == Some(5.0);
    assert LastPositive(batch, "d", "g") == Some(3.0);
    RecordedPairScore(EMPTY_TABLES, batch, "d", "g");
    RecordedPair(EMPTY_TABLES, batch, "d", "g");
  }

  ghost predicate SameEntries(a: Batch, b: Batch) { forall e :: e in a <==> e in b }

  lemma {:induction false} MaxPositiveForgetsOrder(a: Batch, b: Batch, d: string, g: string)
    requires WellFormed(a) && WellFormed(b) && SameEntries(a, b)
    ensures MaxPositive(a, d, g) == MaxPositive(b, d, g)
  {
    MaxPositiveIs(a, d, g);
    MaxPositiveIs(b, d, g);
  }

  /** Recording the same batches in another order, or some of them again, gives
      the same scores, wins, resisted and faced sets. */
  lemma {:induction false} BatchOrderDoesNotMatter(one: seq<Batch>, two: seq<Batch>, d: string, g: string)
    requires forall b :: b in one <==> b in two
    requires forall b :: b in one ==> WellFormed(b)
    requires forall b :: b in one ==> Clean(b)
    ensures var s, t := Run(EMPTY_TABLES, one), Run(EMPTY_TABLES, two);
            && s.Score(d, g) == t.Score(d, g)
            && ('|' !in d ==> s.PairScore(d, g) == t.PairScore(d, g))
            && (g in s.Wins(d) <==> g in t.Wins(d))
            && (d in s.Resisted(g) <==> d in t.Resisted(g))
            && (g in s.Faced(d) <==> g in t.Faced(d))
  {
    RunPair(one, d, g);
    RunPair(two, d, g);
    forall e ensures e in Flat(one) <==> e in Flat(two) {
      FlatHolds(one, e);
      FlatHolds(two, e);
    }
    MaxPositiveForgetsOrder(Flat(one), Flat(two), d, g);
    if '|' !in d {
      IndicesAgree(one, d, g);
      IndicesAgree(two, d, g);
    }
  }

  /** The one-pair write raises the score of its pair, and of no other, and keeps
      the two scores equal. */
  lemma {:induction false} ImprovementKeepsScores(t: Tables, d: string, g: string, delta: real, d': string, g': string)
    requires '|' !in d && '|' !in d' && t.PairScore(d', g') == t.Score(d', g')
    ensures Improvement(t, d, g, delta).PairScore(d', g') == Improvement(t, d, g, delta).Score(d', g')
    ensures Improvement(t, d, g, delta).Score(d', g')
            == if (d', g') == (d, g) && delta > 0.0 then Higher(t.Score(d, g), Some(delta)) else t.Score(d', g')
  {
    if Member(d, g) == Member(d', g') {
      MembersDiffer(d, g, d', g');
    }
  }

  /** But it leaves the pair out of the wins unless it was there: the indices
      part exactly when it records the first win of the pair. */
  lemma {:induction false} ImprovementKeepsWinsIff(t: Tables, d: string, g: string, delta: real)
    requires t.Score(d, g).Some? <==> g in t.Wins(d)
    ensures (Improvement(t, d, g, delta).Score(d, g).Some? <==> g in Improvement(t, d, g, delta).Wins(d))
            <==> delta <= 0.0 || g in t.Wins(d)
  {
  }
}
