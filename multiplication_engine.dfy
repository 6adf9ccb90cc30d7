/**
 * The fast-multiplication fact engine (lib/multiplication-engine.ts):
 * building a round's weighted fact pool, weight-proportional question
 * selection, per-answer weight adjustment, and the miss-drill extraction.
 *
 * Weights are exact reals (the source's 0.7 decay is 7/10 here), and the
 * value of `Math.random()` is a parameter `u` with 0 <= u < 1.
 */
module MultiplicationEngine {
  import opened Types
  import Decimal

  const MaxWeight: real := 8.0
  const MissWeightMultiplier: real := 2.0
  const CorrectWeightDecay: real := 0.7
  /** The default `max` of the miss drill. */
  const DrillMax: nat := 10

  /** Facts are identified by their operands; the source's `${a}x${b}` string is injective on integers. */
  type Key = (int, int)

  function MissKey(m: MissRecord): Key { (m.a, m.b) }
  function QuestionKey(q: MultiplicationQuestion): Key { (q.a, q.b) }
  function FactKey(f: WeightedFact): Key { (f.a, f.b) }

  function NewFact(a: int, b: int): WeightedFact {
    WeightedFact(a, b, a * b, 1.0)
  }

  /** The question shown for a fact, with text "a × b". */
  function QuestionOf(f: WeightedFact): MultiplicationQuestion {
    MultiplicationQuestion(f.a, f.b, f.answer, Decimal.IntToString(f.a) + " × " + Decimal.IntToString(f.b))
  }

  function Min(x: real, y: real): real { if x <= y then x else y }
  function Max(x: real, y: real): real { if x >= y then x else y }

  // ---------------------------------------------------------------------
  // First-occurrence deduplication by key (the `seen` set loops)
  // ---------------------------------------------------------------------

  function KeysOf<T>(xs: seq<T>, key: T -> Key): set<Key> {
    set i | 0 <= i < |xs| :: key(xs[i])
  }

  predicate DistinctKeys<T>(xs: seq<T>, key: T -> Key) {
    forall i, j :: 0 <= i < j < |xs| ==> key(xs[i]) != key(xs[j])
  }

  /** The elements of `xs` whose key has not occurred before, in order. */
  function Dedupe<T>(xs: seq<T>, key: T -> Key): seq<T>
    decreases |xs|
  {
    if xs == [] then []
    else
      var init := xs[..|xs| - 1];
      if key(xs[|xs| - 1]) in KeysOf(init, key) then Dedupe(init, key)
      else Dedupe(init, key) + [xs[|xs| - 1]]
  }

  /** The index of the first element of `xs` with key `k`. */
  function FirstIndex<T>(xs: seq<T>, key: T -> Key, k: Key): (i: nat)
    requires k in KeysOf(xs, key)
    ensures i < |xs| && key(xs[i]) == k
    ensures forall j :: 0 <= j < i ==> key(xs[j]) != k
    decreases |xs|
  {
    if key(xs[0]) == k then 0
    else
      assert k in KeysOf(xs[1..], key) by {
        var i :| 0 <= i < |xs| && key(xs[i]) == k;
        assert xs[1..][i - 1] == xs[i];
      }
      1 + FirstIndex(xs[1..], key, k)
  }

  lemma KeysOfSnoc<T>(xs: seq<T>, x: T, key: T -> Key)
    ensures KeysOf(xs + [x], key) == KeysOf(xs, key) + {key(x)}
  {
    var ys := xs + [x];
    forall k | k in KeysOf(ys, key) ensures k in KeysOf(xs, key) + {key(x)} {
      var i :| 0 <= i < |ys| && key(ys[i]) == k;
      if i < |xs| { assert ys[i] == xs[i]; }
    }
    forall k | k in KeysOf(xs, key) ensures k in KeysOf(ys, key) {
      var i :| 0 <= i < |xs| && key(xs[i]) == k;
      assert ys[i] == xs[i];
    }
    assert key(ys[|xs|]) == key(x);
  }

  /** One more element: kept exactly when its key is new. */
  lemma DedupeSnoc<T>(xs: seq<T>, x: T, key: T -> Key)
    ensures Dedupe(xs + [x], key) == if key(x) in KeysOf(xs, key) then Dedupe(xs, key) else Dedupe(xs, key) + [x]
  {
    assert (xs + [x])[..|xs|] == xs;
  }

  /** Extending a sequence does not move the first occurrence of a key already present. */
  lemma FirstIndexSnoc<T>(xs: seq<T>, x: T, key: T -> Key, k: Key)
    requires k in KeysOf(xs, key)
    ensures k in KeysOf(xs + [x], key)
    ensures FirstIndex(xs + [x], key, k) == FirstIndex(xs, key, k)
  {
    KeysOfSnoc(xs, x, key);
    var ys := xs + [x];
    assert forall j :: 0 <= j < |xs| ==> ys[j] == xs[j];
    assert ys[FirstIndex(xs, key, k)] == xs[FirstIndex(xs, key, k)];
  }

  /** A key new to a sequence first occurs at the element that brings it. */
  lemma FirstIndexOfNew<T>(xs: seq<T>, x: T, key: T -> Key)
    requires key(x) !in KeysOf(xs, key)
    ensures key(x) in KeysOf(xs + [x], key)
    ensures FirstIndex(xs + [x], key, key(x)) == |xs|
  {
    KeysOfSnoc(xs, x, key);
    var ys := xs + [x];
    assert forall j :: 0 <= j < |xs| ==> ys[j] == xs[j] && key(xs[j]) in KeysOf(xs, key);
  }

  /** Deduplication keeps the same keys, once each, and never lengthens. */
  lemma {:induction false} DedupeKeys<T>(xs: seq<T>, key: T -> Key)
    ensures KeysOf(Dedupe(xs, key), key) == KeysOf(xs, key)
    ensures DistinctKeys(Dedupe(xs, key), key)
    ensures |Dedupe(xs, key)| <= |xs|
    decreases |xs|
  {
    if xs != [] {
      var init, x := xs[..|xs| - 1], xs[|xs| - 1];
      assert xs == init + [x];
      DedupeKeys(init, key);
      KeysOfSnoc(init, x, key);
      var d0 := Dedupe(init, key);
      if key(x) !in KeysOf(init, key) {
        KeysOfSnoc(d0, x, key);
        assert forall k1 :: 0 <= k1 < |d0| ==> key(d0[k1]) in KeysOf(d0, key);
      }
    }
  }

  /** Each element deduplication keeps is the first occurrence of its key. */
  lemma {:induction false} DedupeKeepsFirst<T>(xs: seq<T>, key: T -> Key)
    ensures forall k :: 0 <= k < |Dedupe(xs, key)| ==>
      key(Dedupe(xs, key)[k]) in KeysOf(xs, key) &&
      Dedupe(xs, key)[k] == xs[FirstIndex(xs, key, key(Dedupe(xs, key)[k]))]
    decreases |xs|
  {
    if xs != [] {
      var init, x := xs[..|xs| - 1], xs[|xs| - 1];
      assert xs == init + [x];
      DedupeKeepsFirst(init, key);
      KeysOfSnoc(init, x, key);
      var d0 := Dedupe(init, key);
      var d := Dedupe(xs, key);
      if key(x) !in KeysOf(init, key) {
        FirstIndexOfNew(init, x, key);
      }
      forall k | 0 <= k < |d0|
        ensures key(d0[k]) in KeysOf(xs, key) && d0[k] == xs[FirstIndex(xs, key, key(d0[k]))]
      {
        FirstIndexSnoc(init, x, key, key(d0[k]));
        assert xs[FirstIndex(init, key, key(d0[k]))] == init[FirstIndex(init, key, key(d0[k]))];
      }
    }
  }

  /** Deduplication keeps the order in which keys first occur. */
  lemma {:induction false} DedupeKeepsOrder<T>(xs: seq<T>, key: T -> Key)
    ensures forall k1, k2 :: 0 <= k1 < k2 < |Dedupe(xs, key)| ==>
      key(Dedupe(xs, key)[k1]) in KeysOf(xs, key) && key(Dedupe(xs, key)[k2]) in KeysOf(xs, key) &&
      FirstIndex(xs, key, key(Dedupe(xs, key)[k1])) < FirstIndex(xs, key, key(Dedupe(xs, key)[k2]))
    decreases |xs|
  {
    if xs != [] {
      var init, x := xs[..|xs| - 1], xs[|xs| - 1];
      assert xs == init + [x];
      DedupeKeepsOrder(init, key);
      DedupeKeys(init, key);
      KeysOfSnoc(init, x, key);
      var d0 := Dedupe(init, key);
      forall k | 0 <= k < |d0|
        ensures key(d0[k]) in KeysOf(init, key)
        ensures FirstIndex(xs, key, key(d0[k])) == FirstIndex(init, key, key(d0[k]))
      {
        assert key(d0[k]) in KeysOf(d0, key);
        FirstIndexSnoc(init, x, key, key(d0[k]));
      }
      var d := Dedupe(xs, key);
      if key(x) !in KeysOf(init, key) {
        FirstIndexOfNew(init, x, key);
        assert d == d0 + [x];
      }
      forall k1, k2 | 0 <= k1 < k2 < |d|
        ensures key(d[k1]) in KeysOf(xs, key) && key(d[k2]) in KeysOf(xs, key)
        ensures FirstIndex(xs, key, key(d[k1])) < FirstIndex(xs, key, key(d[k2]))
      {
        assert d[k1] == d0[k1];
        if k2 < |d0| {
          assert d[k2] == d0[k2];
        } else {
          assert d[k2] == x;
        }
      }
      assert forall k1, k2 :: 0 <= k1 < k2 < |d| ==>
        key(d[k1]) in KeysOf(xs, key) && key(d[k2]) in KeysOf(xs, key) &&
        FirstIndex(xs, key, key(d[k1])) < FirstIndex(xs, key, key(d[k2]));
    } else {
      assert Dedupe(xs, key) == [];
    }
  }

  // ---------------------------------------------------------------------
  // Pool construction (getFactPool)
  // ---------------------------------------------------------------------

  /** The ten facts t × 1 .. t × 10. */
  function SingleFacts(t: int): seq<WeightedFact> {
    seq(10, i requires 0 <= i < 10 => NewFact(t, i + 1))
  }

  /** Tables 2..n, each times 1..10, table by table. */
  function MixedUpTo(n: int): seq<WeightedFact>
    decreases n
  {
    if n < 2 then [] else MixedUpTo(n - 1) + SingleFacts(n)
  }

  /** The mixed pool: tables 2..9 × 1..10. */
  function MixedFacts(): seq<WeightedFact> {
    MixedUpTo(9)
  }

  /** A fresh fact for each missed pair, in order. */
  function FactsOf(misses: seq<MissRecord>): seq<WeightedFact> {
    seq(|misses|, i requires 0 <= i < |misses| => NewFact(misses[i].a, misses[i].b))
  }

  /** The boss pool: one fact per distinct missed (a, b), in first-miss order. */
  function BossFacts(history: seq<MissRecord>): seq<WeightedFact> {
    FactsOf(Dedupe(history, MissKey))
  }

  /** The pool before seeding: a single table only when one was given, else the mixed pool. */
  function BasePool(mode: MultiplicationGameMode, table: Option<int>, history: seq<MissRecord>): seq<WeightedFact> {
    if mode == Boss then BossFacts(history)
    else if mode == Single && table.Some? then SingleFacts(table.value)
    else MixedFacts()
  }

  /** How many records of the history missed the fact with key `k`. */
  function MissCount(history: seq<MissRecord>, k: Key): nat {
    if history == [] then 0
    else MissCount(history[..|history| - 1], k) + (if MissKey(history[|history| - 1]) == k then 1 else 0)
  }

  function Pow2(n: nat): (p: nat)
    ensures p >= 1
  {
    if n == 0 then 1 else 2 * Pow2(n - 1)
  }

  /** min(MAX_WEIGHT, MISS_WEIGHT_MULTIPLIER ^ count). */
  function SeedWeight(count: nat): real {
    Min(MaxWeight, Pow2(count) as real)
  }

  function SeedFact(f: WeightedFact, history: seq<MissRecord>): WeightedFact {
    var c := MissCount(history, FactKey(f));
    if c > 0 then f.(weight := SeedWeight(c)) else f
  }

  /** The round's starting pool. */
  function FactPool(mode: MultiplicationGameMode, table: Option<int>, history: seq<MissRecord>): (r: seq<WeightedFact>)
    ensures |r| == |BasePool(mode, table, history)|
    ensures forall i :: 0 <= i < |r| ==>
      FactKey(r[i]) == FactKey(BasePool(mode, table, history)[i]) && r[i].answer == BasePool(mode, table, history)[i].answer
  {
    var base := BasePool(mode, table, history);
    seq(|base|, i requires 0 <= i < |base| => SeedFact(base[i], history))
  }

  predicate WellFormed(f: WeightedFact) {
    f.answer == f.a * f.b
  }

  /** Every fact's answer is its product and its weight lies in [1, 8]. */
  predicate ValidPool(pool: seq<WeightedFact>) {
    forall i :: 0 <= i < |pool| ==> WellFormed(pool[i]) && 1.0 <= pool[i].weight <= MaxWeight
  }

  /** A fact missed at least once starts at weight 2 or more, never above 8. */
  lemma SeedWeightRange(count: nat)
    requires count > 0
    ensures 2.0 <= SeedWeight(count) <= MaxWeight
  {
    assert Pow2(count) == 2 * Pow2(count - 1);
  }

  /** The boss loop of getFactPool: a fact for each pair not seen before. */
  method DistinctMissFacts(missHistory: seq<MissRecord>) returns (facts: seq<WeightedFact>)
    ensures facts == BossFacts(missHistory)
  {
    var seen: set<Key> := {};
    facts := [];
    ghost var d: seq<MissRecord> := [];
    for i := 0 to |missHistory|
      invariant d == Dedupe(missHistory[..i], MissKey)
      invariant seen == KeysOf(missHistory[..i], MissKey)
      invariant facts == FactsOf(d)
    {
      var miss := missHistory[i];
      assert missHistory[..i + 1] == missHistory[..i] + [miss];
      KeysOfSnoc(missHistory[..i], miss, MissKey);
      DedupeSnoc(missHistory[..i], miss, MissKey);
      if MissKey(miss) !in seen {
        seen := seen + {MissKey(miss)};
        FactsOfSnoc(d, miss);
        facts := facts + [NewFact(miss.a, miss.b)];
        d := d + [miss];
      }
    }
    assert missHistory[..|missHistory|] == missHistory;
  }

  /** One more miss: one more fresh fact at the end. */
  lemma FactsOfSnoc(misses: seq<MissRecord>, m: MissRecord)
    ensures FactsOf(misses + [m]) == FactsOf(misses) + [NewFact(m.a, m.b)]
  {
  }

  /** The mixed loops of getFactPool: tables 2..9, each times 1..10. */
  method MixedPool() returns (facts: seq<WeightedFact>)
    ensures facts == MixedFacts()
  {
    facts := [];
    for a := 2 to 10
      invariant facts == MixedUpTo(a - 1)
    {
      for b := 1 to 11
        invariant facts == MixedUpTo(a - 1) + SingleFacts(a)[..b - 1]
      {
        assert SingleFacts(a)[..b] == SingleFacts(a)[..b - 1] + [NewFact(a, b)];
        facts := facts + [NewFact(a, b)];
      }
      assert SingleFacts(a)[..10] == SingleFacts(a);
    }
  }

  /** The counting loop of getFactPool: misses per pair. */
  method CountMisses(missHistory: seq<MissRecord>) returns (missCounts: map<Key, nat>)
    ensures forall k :: k in missCounts <==> k in KeysOf(missHistory, MissKey)
    ensures forall k :: k in missCounts ==> missCounts[k] == MissCount(missHistory, k)
  {
    missCounts := map[];
    for i := 0 to |missHistory|
      invariant forall k :: k in missCounts <==> k in KeysOf(missHistory[..i], MissKey)
      invariant forall k :: k in missCounts ==> missCounts[k] == MissCount(missHistory[..i], k)
    {
      var k := MissKey(missHistory[i]);
      assert missHistory[..i + 1] == missHistory[..i] + [missHistory[i]];
      assert missHistory[..i + 1][..i] == missHistory[..i];
      KeysOfSnoc(missHistory[..i], missHistory[i], MissKey);
      if k !in missCounts {
        MissCountAbsent(missHistory[..i], k);
      }
      missCounts := missCounts[k := (if k in missCounts then missCounts[k] else 0) + 1];
    }
    assert missHistory[..|missHistory|] == missHistory;
  }

  /** Building the pool in every mode. */
  method GetFactPool(mode: MultiplicationGameMode, table: Option<int>, missHistory: seq<MissRecord>)
    returns (facts: seq<WeightedFact>)
    ensures facts == FactPool(mode, table, missHistory)
  {
    if mode == Boss {
      facts := DistinctMissFacts(missHistory);
    } else if mode == Single && table.Some? {
      facts := seq(10, i requires 0 <= i < 10 => NewFact(table.value, i + 1));
    } else {
      facts := MixedPool();
    }
    ghost var base := facts;

    if |missHistory| > 0 {
      var missCounts := CountMisses(missHistory);
      for j := 0 to |facts|
        invariant |facts| == |base|
        invariant forall i :: 0 <= i < j ==> facts[i] == SeedFact(base[i], missHistory)
        invariant forall i :: j <= i < |facts| ==> facts[i] == base[i]
      {
        var fact := facts[j];
        var k := FactKey(fact);
        if k !in missCounts {
          MissCountAbsent(missHistory, k);
        }
        var count := if k in missCounts then missCounts[k] else 0;
        if count > 0 {
          facts := facts[j := fact.(weight := SeedWeight(count))];
        }
      }
    }
  }

  lemma {:induction false} MissCountAbsent(history: seq<MissRecord>, k: Key)
    requires k !in KeysOf(history, MissKey)
    ensures MissCount(history, k) == 0
  {
    if history != [] {
      var init := history[..|history| - 1];
      assert history == init + [history[|history| - 1]];
      KeysOfSnoc(init, history[|history| - 1], MissKey);
      MissCountAbsent(init, k);
    }
  }

  lemma {:induction false} MissCountPresent(history: seq<MissRecord>, k: Key)
    requires k in KeysOf(history, MissKey)
    ensures MissCount(history, k) > 0
  {
    var init := history[..|history| - 1];
    assert history == init + [history[|history| - 1]];
    KeysOfSnoc(init, history[|history| - 1], MissKey);
    if MissKey(history[|history| - 1]) != k {
      MissCountPresent(init, k);
    }
  }

  /** A single-table round holds a × 1 .. a × 10 for the chosen table, in order. */
  lemma SinglePoolFacts(t: int, history: seq<MissRecord>)
    ensures |FactPool(Single, Some(t), history)| == 10
    ensures forall i :: 0 <= i < 10 ==>
      var f := FactPool(Single, Some(t), history)[i];
      f.a == t && f.b == i + 1 && f.answer == t * (i + 1)
  {
  }

  /** The mixed pool has 10 facts per table from 2 up to n, all distinct, each well formed with weight 1. */
  lemma {:induction false} MixedUpToFacts(n: int)
    ensures |MixedUpTo(n)| == if n < 2 then 0 else 10 * (n - 1)
    ensures DistinctKeys(MixedUpTo(n), FactKey)
    ensures forall i :: 0 <= i < |MixedUpTo(n)| ==>
      2 <= MixedUpTo(n)[i].a <= n && 1 <= MixedUpTo(n)[i].b <= 10 && MixedUpTo(n)[i] == NewFact(MixedUpTo(n)[i].a, MixedUpTo(n)[i].b)
    ensures forall a, b :: 2 <= a <= n && 1 <= b <= 10 ==> (a, b) in KeysOf(MixedUpTo(n), FactKey)
    decreases n
  {
    if n >= 2 {
      MixedUpToFacts(n - 1);
      var prev, row := MixedUpTo(n - 1), SingleFacts(n);
      var all := prev + row;
      forall i, j | 0 <= i < j < |all| ensures FactKey(all[i]) != FactKey(all[j]) {
        if j >= |prev| && i < |prev| {
          assert all[i] == prev[i] && all[j] == row[j - |prev|];
        } else if i >= |prev| {
          assert all[i] == row[i - |prev|] && all[j] == row[j - |prev|];
        } else {
          assert all[i] == prev[i] && all[j] == prev[j];
        }
      }
      forall a, b | 2 <= a <= n && 1 <= b <= 10 ensures (a, b) in KeysOf(all, FactKey) {
        if a == n {
          assert all[|prev| + b - 1] == row[b - 1];
        } else {
          var i :| 0 <= i < |prev| && FactKey(prev[i]) == (a, b);
          assert all[i] == prev[i];
        }
      }
    }
  }

  /** A mixed round (or a single-table round without a table) holds exactly the 80 facts 2..9 × 1..10. */
  lemma MixedPoolFacts(mode: MultiplicationGameMode, table: Option<int>, history: seq<MissRecord>)
    requires mode == Mixed || (mode == Single && table.None?)
    ensures |FactPool(mode, table, history)| == 80
    ensures DistinctKeys(FactPool(mode, table, history), FactKey)
    ensures forall a, b :: (a, b) in KeysOf(FactPool(mode, table, history), FactKey) <==> 2 <= a <= 9 && 1 <= b <= 10
  {
    MixedUpToFacts(9);
    var pool := FactPool(mode, table, history);
    assert forall i :: 0 <= i < |pool| ==> FactKey(pool[i]) == FactKey(MixedFacts()[i]);
    forall a, b | 2 <= a <= 9 && 1 <= b <= 10 ensures (a, b) in KeysOf(pool, FactKey) {
      var i :| 0 <= i < |MixedFacts()| && FactKey(MixedFacts()[i]) == (a, b);
      assert FactKey(pool[i]) == (a, b);
    }
  }

  /** The keys of a pool built from misses are the keys of those misses. */
  lemma FactsOfKeys(misses: seq<MissRecord>)
    ensures KeysOf(FactsOf(misses), FactKey) == KeysOf(misses, MissKey)
    ensures forall i :: 0 <= i < |misses| ==> FactKey(FactsOf(misses)[i]) == MissKey(misses[i])
  {
    var facts := FactsOf(misses);
    forall k | k in KeysOf(facts, FactKey) ensures k in KeysOf(misses, MissKey) {
      var i :| 0 <= i < |facts| && FactKey(facts[i]) == k;
    }
    forall k | k in KeysOf(misses, MissKey) ensures k in KeysOf(facts, FactKey) {
      var i :| 0 <= i < |misses| && MissKey(misses[i]) == k;
      assert FactKey(facts[i]) == k;
    }
  }

  /** A boss round holds one fact per distinct missed (a, b); no history gives no facts. */
  lemma BossPoolFacts(history: seq<MissRecord>)
    ensures KeysOf(FactPool(Boss, None, history), FactKey) == KeysOf(history, MissKey)
    ensures DistinctKeys(FactPool(Boss, None, history), FactKey)
    ensures history == [] <==> FactPool(Boss, None, history) == []
  {
    var d := Dedupe(history, MissKey);
    DedupeKeys(history, MissKey);
    FactsOfKeys(d);
    var pool := FactPool(Boss, None, history);
    assert forall i :: 0 <= i < |pool| ==> FactKey(pool[i]) == FactKey(FactsOf(d)[i]);
    assert KeysOf(pool, FactKey) == KeysOf(FactsOf(d), FactKey);
    if history != [] {
      assert MissKey(history[0]) in KeysOf(history, MissKey);
    }
  }

  /** The boss pool lists the missed pairs in the order of their first miss. */
  lemma BossPoolOrder(history: seq<MissRecord>)
    ensures forall k1, k2 :: 0 <= k1 < k2 < |FactPool(Boss, None, history)| ==>
      FactKey(FactPool(Boss, None, history)[k1]) in KeysOf(history, MissKey) &&
      FactKey(FactPool(Boss, None, history)[k2]) in KeysOf(history, MissKey) &&
      FirstIndex(history, MissKey, FactKey(FactPool(Boss, None, history)[k1])) <
      FirstIndex(history, MissKey, FactKey(FactPool(Boss, None, history)[k2]))
  {
    var d := Dedupe(history, MissKey);
    DedupeKeepsOrder(history, MissKey);
    FactsOfKeys(d);
    var pool := FactPool(Boss, None, history);
    DedupeKeys(history, MissKey);
    forall k | 0 <= k < |pool|
      ensures FactKey(pool[k]) == MissKey(d[k]) && FactKey(pool[k]) in KeysOf(history, MissKey)
    {
      assert MissKey(d[k]) in KeysOf(d, MissKey);
    }
    forall k1, k2 | 0 <= k1 < k2 < |pool|
      ensures FirstIndex(history, MissKey, FactKey(pool[k1])) < FirstIndex(history, MissKey, FactKey(pool[k2]))
    {
    }
  }

  /**
   * Seeding, in every mode: a fact missed c > 0 times starts at weight
   * min(8, 2^c), every other fact at weight 1; every pool is valid.
   */
  lemma PoolWeights(mode: MultiplicationGameMode, table: Option<int>, history: seq<MissRecord>)
    ensures var pool := FactPool(mode, table, history);
      forall i :: 0 <= i < |pool| ==>
        pool[i].weight == (if MissCount(history, FactKey(pool[i])) > 0 then SeedWeight(MissCount(history, FactKey(pool[i]))) else 1.0)
    ensures ValidPool(FactPool(mode, table, history))
  {
    var base := BasePool(mode, table, history);
    var pool := FactPool(mode, table, history);
    assert forall i :: 0 <= i < |base| ==> base[i].weight == 1.0 && WellFormed(base[i]) by {
      if mode == Boss {
      } else if mode == Single && table.Some? {
      } else {
        MixedUpToFacts(9);
      }
    }
    forall i | 0 <= i < |pool| ensures 1.0 <= pool[i].weight <= MaxWeight {
      var c := MissCount(history, FactKey(base[i]));
      if c > 0 { SeedWeightRange(c); }
    }
  }

  /** In boss mode every fact was missed at least once, so every weight starts at 2 or more. */
  lemma BossWeightsAtLeastTwo(history: seq<MissRecord>)
    ensures forall i :: 0 <= i < |FactPool(Boss, None, history)| ==> FactPool(Boss, None, history)[i].weight >= 2.0
  {
    BossPoolFacts(history);
    var pool := FactPool(Boss, None, history);
    forall i | 0 <= i < |pool| ensures pool[i].weight >= 2.0 {
      assert FactKey(pool[i]) in KeysOf(pool, FactKey);
      MissCountPresent(history, FactKey(pool[i]));
      SeedWeightRange(MissCount(history, FactKey(pool[i])));
    }
  }

  // ---------------------------------------------------------------------
  // Weighted selection (pickQuestion)
  // ---------------------------------------------------------------------

  /** The sum of the first n weights, added left to right. */
  function Prefix(pool: seq<WeightedFact>, n: nat): real
    requires n <= |pool|
  {
    if n == 0 then 0.0 else Prefix(pool, n - 1) + pool[n - 1].weight
  }

  function TotalWeight(pool: seq<WeightedFact>): real {
    Prefix(pool, |pool|)
  }

  /** From index i on: the first fact whose running weight sum reaches r, else the last fact. */
  function SelectFrom(pool: seq<WeightedFact>, r: real, i: nat): nat
    requires 0 < |pool| && i <= |pool|
    decreases |pool| - i
  {
    if i == |pool| then |pool| - 1
    else if r <= Prefix(pool, i + 1) then i
    else SelectFrom(pool, r, i + 1)
  }

  function Selected(pool: seq<WeightedFact>, r: real): (i: nat)
    requires 0 < |pool|
    ensures i < |pool|
  {
    SelectFromBound(pool, r, 0);
    SelectFrom(pool, r, 0)
  }

  /** The fact `pickQuestion` lands on when `Math.random()` returns `u`. */
  function Picked(pool: seq<WeightedFact>, u: real): (i: nat)
    requires 0 < |pool| && 0.0 <= u < 1.0
    ensures i < |pool|
  {
    SelectFromBound(pool, u * TotalWeight(pool), 0);
    Selected(pool, u * TotalWeight(pool))
  }

  /** The pick for `u` is the scan's result for the target `u * total`. */
  lemma PickedUnfold(pool: seq<WeightedFact>, u: real)
    requires 0 < |pool| && 0.0 <= u < 1.0
    ensures Picked(pool, u) == Selected(pool, u * TotalWeight(pool))
  {
  }

  /** The first loop of pickQuestion: the weights summed left to right. */
  method SumWeights(pool: seq<WeightedFact>) returns (total: real)
    ensures total == TotalWeight(pool)
  {
    total := 0.0;
    for k := 0 to |pool|
      invariant total == Prefix(pool, k)
    {
      total := total + pool[k].weight;
    }
  }

  /** pickQuestion with `Math.random()` replaced by `u`. */
  method PickQuestion(pool: seq<WeightedFact>, u: real) returns (q: MultiplicationQuestion)
    requires 0 < |pool| && 0.0 <= u < 1.0
    ensures q == QuestionOf(pool[Picked(pool, u)])
  {
    var totalWeight := SumWeights(pool);
    var random := u * totalWeight;
    ghost var r := random;
    assert r == u * TotalWeight(pool);
    PickedUnfold(pool, u);
    SelectFromBound(pool, r, 0);
    var i := 0;
    while i < |pool|
      invariant 0 <= i <= |pool|
      invariant random == r - Prefix(pool, i)
      invariant SelectFrom(pool, r, i) == Selected(pool, r)
    {
      random := random - pool[i].weight;
      if random <= 0.0 {
        return QuestionOf(pool[i]);
      }
      i := i + 1;
    }
    return QuestionOf(pool[|pool| - 1]);
  }

  lemma {:induction false} SelectFromBound(pool: seq<WeightedFact>, r: real, i: nat)
    requires 0 < |pool| && i <= |pool|
    ensures SelectFrom(pool, r, i) < |pool|
    ensures i < |pool| ==> i <= SelectFrom(pool, r, i)
    decreases |pool| - i
  {
    if i < |pool| && r > Prefix(pool, i + 1) {
      SelectFromBound(pool, r, i + 1);
    }
  }

  lemma {:induction false} PrefixBelowTotal(pool: seq<WeightedFact>, n: nat)
    requires n <= |pool|
    requires forall i :: 0 <= i < |pool| ==> pool[i].weight > 0.0
    ensures Prefix(pool, n) <= TotalWeight(pool)
    ensures n < |pool| ==> Prefix(pool, n) < TotalWeight(pool)
    decreases |pool| - n
  {
    if n < |pool| {
      PrefixBelowTotal(pool, n + 1);
    }
  }

  lemma {:induction false} SelectFromReaches(pool: seq<WeightedFact>, r: real, i: nat)
    requires i < |pool| && r < TotalWeight(pool)
    requires forall j :: 0 < j <= i ==> Prefix(pool, j) < r
    ensures SelectFrom(pool, r, i) < |pool|
    ensures r <= Prefix(pool, SelectFrom(pool, r, i) + 1)
    ensures forall j :: 0 < j <= SelectFrom(pool, r, i) ==> Prefix(pool, j) < r
    decreases |pool| - i
  {
    if r > Prefix(pool, i + 1) {
      assert i + 1 < |pool|;
      SelectFromReaches(pool, r, i + 1);
    }
  }

  /**
   * With r below the total the selection is a genuine hit, never the
   * last-fact fallback: the chosen fact is the first whose running weight
   * sum reaches r.
   */
  lemma SelectedIsFirstReaching(pool: seq<WeightedFact>, r: real)
    requires 0 < |pool| && r < TotalWeight(pool)
    ensures Selected(pool, r) < |pool|
    ensures r <= Prefix(pool, Selected(pool, r) + 1)
    ensures forall j :: 0 < j <= Selected(pool, r) ==> Prefix(pool, j) < r
  {
    SelectFromReaches(pool, r, 0);
  }

  lemma {:induction false} PrefixMonotone(pool: seq<WeightedFact>, m: nat, n: nat)
    requires m <= n <= |pool|
    requires forall i :: 0 <= i < |pool| ==> pool[i].weight > 0.0
    ensures Prefix(pool, m) <= Prefix(pool, n)
    ensures m < n ==> Prefix(pool, m) < Prefix(pool, n)
    decreases n - m
  {
    if m < n {
      PrefixMonotone(pool, m, n - 1);
    }
  }

  /**
   * Weight-proportional selection: with positive weights and 0 <= r < total,
   * fact i is chosen exactly when r falls in its slice of the running sums,
   * a slice as wide as its weight.
   */
  lemma SelectionSlices(pool: seq<WeightedFact>, r: real, i: nat)
    requires i < |pool| && 0.0 <= r < TotalWeight(pool)
    requires forall j :: 0 <= j < |pool| ==> pool[j].weight > 0.0
    ensures Selected(pool, r) == i <==> (i == 0 || Prefix(pool, i) < r) && r <= Prefix(pool, i + 1)
    ensures Prefix(pool, i + 1) - Prefix(pool, i) == pool[i].weight
  {
    SelectedIsFirstReaching(pool, r);
    var s := Selected(pool, r);
    if (i == 0 || Prefix(pool, i) < r) && r <= Prefix(pool, i + 1) && s < i {
      PrefixMonotone(pool, s + 1, i);
    }
  }

  // ---------------------------------------------------------------------
  // Weight adjustment (adjustWeights)
  // ---------------------------------------------------------------------

  function AdjustedWeight(w: real, isCorrect: bool): (r: real)
    ensures 1.0 <= w <= MaxWeight ==> 1.0 <= r <= MaxWeight
  {
    if isCorrect then Max(1.0, w * CorrectWeightDecay) else Min(MaxWeight, w * MissWeightMultiplier)
  }

  /** A new pool in which only the facts matching (a, b) have their weight adjusted. */
  function AdjustWeights(pool: seq<WeightedFact>, a: int, b: int, isCorrect: bool): (r: seq<WeightedFact>)
    ensures |r| == |pool|
    ensures forall i :: 0 <= i < |pool| ==>
      r[i].a == pool[i].a && r[i].b == pool[i].b && r[i].answer == pool[i].answer
    ensures forall i :: 0 <= i < |pool| && FactKey(pool[i]) != (a, b) ==> r[i] == pool[i]
    ensures forall i :: 0 <= i < |pool| && FactKey(pool[i]) == (a, b) ==>
      r[i].weight == AdjustedWeight(pool[i].weight, isCorrect)
  {
    seq(|pool|, i requires 0 <= i < |pool| =>
      if pool[i].a == a && pool[i].b == b then pool[i].(weight := AdjustedWeight(pool[i].weight, isCorrect))
      else pool[i])
  }

  /**
   * A miss raises a weight below 8 and never passes 8; a right answer
   * lowers a weight above 1 and never goes below 1.
   */
  lemma AdjustedWeightBounds(w: real, isCorrect: bool)
    requires 1.0 <= w <= MaxWeight
    ensures 1.0 <= AdjustedWeight(w, isCorrect) <= MaxWeight
    ensures !isCorrect ==> (w < MaxWeight ==> AdjustedWeight(w, isCorrect) > w) && (w == MaxWeight ==> AdjustedWeight(w, isCorrect) == w)
    ensures isCorrect ==> (w > 1.0 ==> AdjustedWeight(w, isCorrect) < w) && (w == 1.0 ==> AdjustedWeight(w, isCorrect) == w)
  {
  }

  /** Adjusting keeps a valid pool valid, and its facts in place. */
  lemma AdjustKeepsValid(pool: seq<WeightedFact>, a: int, b: int, isCorrect: bool)
    requires ValidPool(pool)
    ensures ValidPool(AdjustWeights(pool, a, b, isCorrect))
    ensures forall i :: 0 <= i < |pool| ==> FactKey(AdjustWeights(pool, a, b, isCorrect)[i]) == FactKey(pool[i])
  {
    var r := AdjustWeights(pool, a, b, isCorrect);
    forall i | 0 <= i < |pool| ensures 1.0 <= r[i].weight <= MaxWeight {
      AdjustedWeightBounds(pool[i].weight, isCorrect);
    }
  }

  // ---------------------------------------------------------------------
  // Miss drill (getMissDrillQuestions)
  // ---------------------------------------------------------------------

  /** The first `max` distinct misses of the round, by first occurrence. */
  function MissDrill(roundMisses: seq<MultiplicationQuestion>, max: nat): (r: seq<MultiplicationQuestion>)
    ensures |r| <= max && r <= Dedupe(roundMisses, QuestionKey)
    ensures |r| == if |Dedupe(roundMisses, QuestionKey)| <= max then |Dedupe(roundMisses, QuestionKey)| else max
  {
    var d := Dedupe(roundMisses, QuestionKey);
    if |d| <= max then d else d[..max]
  }

  method GetMissDrillQuestions(roundMisses: seq<MultiplicationQuestion>, max: nat) returns (r: seq<MultiplicationQuestion>)
    ensures r == MissDrill(roundMisses, max)
  {
    var seen: set<Key> := {};
    var unique: seq<MultiplicationQuestion> := [];
    for i := 0 to |roundMisses|
      invariant unique == Dedupe(roundMisses[..i], QuestionKey)
      invariant seen == KeysOf(roundMisses[..i], QuestionKey)
    {
      var miss := roundMisses[i];
      assert roundMisses[..i + 1] == roundMisses[..i] + [miss];
      KeysOfSnoc(roundMisses[..i], miss, QuestionKey);
      if QuestionKey(miss) !in seen {
        seen := seen + {QuestionKey(miss)};
        unique := unique + [miss];
      }
    }
    assert roundMisses[..|roundMisses|] == roundMisses;
    r := if |unique| <= max then unique else unique[..max];
  }

  /**
   * The drill has at most `max` questions and no more than the misses; it
   * is empty exactly when the round had no misses (or `max` is 0); and a
   * round with at most `max` distinct missed pairs drills every one.
   */
  lemma MissDrillShape(roundMisses: seq<MultiplicationQuestion>, max: nat)
    ensures |MissDrill(roundMisses, max)| <= max && |MissDrill(roundMisses, max)| <= |roundMisses|
    ensures MissDrill(roundMisses, max) == [] <==> roundMisses == [] || max == 0
    ensures |Dedupe(roundMisses, QuestionKey)| <= max ==>
      KeysOf(MissDrill(roundMisses, max), QuestionKey) == KeysOf(roundMisses, QuestionKey)
  {
    DedupeKeys(roundMisses, QuestionKey);
    if roundMisses != [] {
      assert QuestionKey(roundMisses[0]) in KeysOf(roundMisses, QuestionKey);
    }
  }

  /** Each drill question is the first miss of its pair, and no pair is drilled twice. */
  lemma MissDrillFirsts(roundMisses: seq<MultiplicationQuestion>, max: nat)
    ensures DistinctKeys(MissDrill(roundMisses, max), QuestionKey)
    ensures forall k :: 0 <= k < |MissDrill(roundMisses, max)| ==>
      QuestionKey(MissDrill(roundMisses, max)[k]) in KeysOf(roundMisses, QuestionKey) &&
      MissDrill(roundMisses, max)[k] == roundMisses[FirstIndex(roundMisses, QuestionKey, QuestionKey(MissDrill(roundMisses, max)[k]))]
  {
    DedupeKeys(roundMisses, QuestionKey);
    DedupeKeepsFirst(roundMisses, QuestionKey);
    var d := Dedupe(roundMisses, QuestionKey);
    var r := MissDrill(roundMisses, max);
    assert forall k :: 0 <= k < |r| ==> r[k] == d[k];
  }


  /** The drill keeps the order in which the misses first occurred. */
  lemma MissDrillOrder(roundMisses: seq<MultiplicationQuestion>, max: nat)
    ensures forall k1, k2 :: 0 <= k1 < k2 < |MissDrill(roundMisses, max)| ==>
      QuestionKey(MissDrill(roundMisses, max)[k1]) in KeysOf(roundMisses, QuestionKey) &&
      QuestionKey(MissDrill(roundMisses, max)[k2]) in KeysOf(roundMisses, QuestionKey) &&
      FirstIndex(roundMisses, QuestionKey, QuestionKey(MissDrill(roundMisses, max)[k1])) <
      FirstIndex(roundMisses, QuestionKey, QuestionKey(MissDrill(roundMisses, max)[k2]))
  {
    DedupeKeepsOrder(roundMisses, QuestionKey);
    var d := Dedupe(roundMisses, QuestionKey);
    var r := MissDrill(roundMisses, max);
    DedupeKeys(roundMisses, QuestionKey);
    forall k | 0 <= k < |r|
      ensures r[k] == d[k] && QuestionKey(r[k]) in KeysOf(roundMisses, QuestionKey)
    {
      assert QuestionKey(d[k]) in KeysOf(d, QuestionKey);
    }
    forall k1, k2 | 0 <= k1 < k2 < |r|
      ensures FirstIndex(roundMisses, QuestionKey, QuestionKey(r[k1])) < FirstIndex(roundMisses, QuestionKey, QuestionKey(r[k2]))
    {
    }
  }
}
