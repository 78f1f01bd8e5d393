/** The pattern-analysis engine of the analysis page: one pass over the
    trades fills four dictionaries of buckets (by hour, pair, strategy and
    direction), each bucket gets a win-rate, and the pooled buckets are
    filtered and ranked into sweet spots and danger zones. A dictionary is a
    sequence of buckets in key-insertion order, the order in which the page
    enumerates the object's entries. */
module PatternAnalysis {
  import opened Journal

  datatype Dimension = Hour | Pair | Strategy | Direction

  /** The statistics of one value of one dimension. */
  datatype Bucket = Bucket(key: string, wins: nat, losses: nat, total: nat, pnl: real)

  /** The four dictionaries the analysis returns. */
  datatype Patterns = Patterns(
    hourly: seq<Bucket>,
    pairs: seq<Bucket>,
    strategies: seq<Bucket>,
    directions: seq<Bucket>)

  /** Only decided trades enter the statistics; a pending trade, or any other
      result text, is skipped by every dimension. */
  predicate Counted(t: Trade)
  {
    t.result == "Win" || t.result == "Lose" || t.result == "BE"
  }

  /** The first piece of `s` split at ':', that is the text before the first
      colon, or all of `s` when it has none. */
  function TextBeforeColon(s: string): (r: string)
    ensures r <= s && ':' !in r
    ensures |r| < |s| ==> s[|r|] == ':'
  {
    if s == [] || s[0] == ':' then [] else [s[0]] + TextBeforeColon(s[1..])
  }

  /** The hour bucket of a time of day: the raw text before the first colon
      with ":00" appended, neither parsed nor zero-padded. */
  function HourKey(time: string): (r: string)
    ensures |r| >= 3 && r[|r| - 3..] == ":00"
    ensures var h := r[..|r| - 3]; h <= time && ':' !in h && (|h| < |time| ==> time[|h|] == ':')
  {
    var h := TextBeforeColon(time);
    assert (h + ":00")[..|h|] == h;
    h + ":00"
  }

  /** The names every plain object inherits from `Object.prototype`. Looking
      one of them up in a dictionary finds the inherited property, which is
      truthy, so no bucket is created under that name and the increments go
      to the inherited property instead: such a key never shows up among the
      dictionary's own entries. */
  const InheritedNames: set<string> := {
    "constructor", "__proto__", "toString", "toLocaleString", "valueOf",
    "hasOwnProperty", "isPrototypeOf", "propertyIsEnumerable",
    "__defineGetter__", "__defineSetter__", "__lookupGetter__", "__lookupSetter__"}

  /** No hour key is an inherited name: hour keys hold a colon, the
      inherited names none. */
  lemma HourKeyNotInherited(time: string)
    ensures HourKey(time) !in InheritedNames
  {
    var r := HourKey(time);
    assert r[|r| - 3] == ':';
    forall k | k in InheritedNames ensures ':' !in k {
    }
  }

  /** The key of a trade's own bucket in dimension `d`, or `None` when the
      trade stays out of that dimension: it has no value for it, or the value
      names an inherited property (only possible for pair, strategy and
      direction). */
  function KeyOf(d: Dimension, t: Trade): (r: Option<string>)
    ensures r.Some? ==> r.value !in InheritedNames
    ensures d == Hour ==> (r.Some? <==> t.time != "")
    ensures d == Pair ==> (r.Some? <==> t.pair != "" && t.pair !in InheritedNames)
    ensures d == Strategy ==> (r.Some? <==> t.strategy != "" && t.strategy !in InheritedNames)
    ensures d == Direction ==> (r.Some? <==> t.direction != "" && t.direction !in InheritedNames)
  {
    match d
    case Hour =>
      if t.time != "" then HourKeyNotInherited(t.time); Some(HourKey(t.time)) else None
    case Pair => if t.pair != "" && t.pair !in InheritedNames then Some(t.pair) else None
    case Strategy => if t.strategy != "" && t.strategy !in InheritedNames then Some(t.strategy) else None
    case Direction => if t.direction != "" && t.direction !in InheritedNames then Some(t.direction) else None
  }

  /** A freshly created bucket. */
  function Zero(key: string): Bucket
  {
    Bucket(key, 0, 0, 0, 0.0)
  }

  /** One trade's effect on a bucket: one more in total, one more win or loss
      for a win or a loss (none for a break-even), and its P&L added. */
  function Add(b: Bucket, t: Trade): (r: Bucket)
    ensures r.key == b.key && r.total == b.total + 1
    ensures r.wins == b.wins + 1 <==> t.result == "Win"
    ensures r.losses == b.losses + 1 <==> t.result == "Lose"
    ensures t.result == "BE" ==> r.wins == b.wins && r.losses == b.losses
    ensures b.wins + b.losses <= b.total ==> r.wins + r.losses <= r.total
  {
    Bucket(b.key,
           b.wins + (if t.result == "Win" then 1 else 0),
           b.losses + (if t.result == "Lose" then 1 else 0),
           b.total + 1,
           b.pnl + PnlOrZero(t))
  }

  // ---------------------------------------------------------------------
  // Reference definition: the bucket of a key and the keys in first-seen
  // order, both defined from the trades themselves.
  // ---------------------------------------------------------------------

  /** The bucket that the counted trades of `ts` keyed `k` in `d` add up to. */
  function Tally(ts: seq<Trade>, d: Dimension, k: string): (b: Bucket)
    ensures b.key == k
    ensures b.wins + b.losses <= b.total
    ensures b.total == 0 ==> b == Zero(k)
  {
    if ts == [] then Zero(k)
    else
      var b0 := Tally(ts[..|ts| - 1], d, k);
      var t := ts[|ts| - 1];
      if Counted(t) && KeyOf(d, t) == Some(k) then Add(b0, t) else b0
  }

  predicate Distinct(ks: seq<string>)
  {
    forall i, j :: 0 <= i < j < |ks| ==> ks[i] != ks[j]
  }

  /** The keys of dimension `d` in the order in which the trades first use them. */
  function Keys(ts: seq<Trade>, d: Dimension): (ks: seq<string>)
    ensures Distinct(ks)
    ensures forall k :: k in ks <==> Tally(ts, d, k).total > 0
  {
    if ts == [] then []
    else
      var prev := Keys(ts[..|ts| - 1], d);
      var t := ts[|ts| - 1];
      if Counted(t) && KeyOf(d, t).Some? && KeyOf(d, t).value !in prev
      then prev + [KeyOf(d, t).value]
      else prev
  }

  predicate DistinctKeys(c: seq<Bucket>)
  {
    forall i, j :: 0 <= i < j < |c| ==> c[i].key != c[j].key
  }

  predicate HasKey(c: seq<Bucket>, key: string)
  {
    exists j :: 0 <= j < |c| && c[j].key == key
  }

  /** The dictionary of dimension `d` after all of `ts`: one bucket per key,
      in first-seen order. */
  function Category(ts: seq<Trade>, d: Dimension): (c: seq<Bucket>)
    ensures DistinctKeys(c)
    ensures forall b :: b in c ==> 0 < b.total && b.wins + b.losses <= b.total
    ensures forall k :: HasKey(c, k) <==> Tally(ts, d, k).total > 0
  {
    var ks := Keys(ts, d);
    var c := seq(|ks|, j requires 0 <= j < |ks| => Tally(ts, d, ks[j]));
    assert forall k :: HasKey(c, k) ==> k in ks;
    assert forall k :: k in ks ==> HasKey(c, k) by {
      forall k | k in ks ensures HasKey(c, k) {
        var j :| 0 <= j < |ks| && ks[j] == k;
        assert c[j].key == k;
      }
    }
    c
  }

  // ---------------------------------------------------------------------
  // The single pass
  // ---------------------------------------------------------------------

  /** Every bucket keyed `key` takes the trade; the others stay as they are. */
  function Bump(c: seq<Bucket>, key: string, t: Trade): (r: seq<Bucket>)
    ensures |r| == |c|
    ensures forall j :: 0 <= j < |c| ==> r[j] == if c[j].key == key then Add(c[j], t) else c[j]
  {
    seq(|c|, j requires 0 <= j < |c| => if c[j].key == key then Add(c[j], t) else c[j])
  }

  /** Create-or-increment of one dictionary entry: the bucket keyed `key`
      takes the trade; a key not yet present gets a new bucket at the end.
      An inherited name finds the inherited property, so the dictionary's
      own entries stay as they are. */
  function UpdateStat(c: seq<Bucket>, key: string, t: Trade): (r: seq<Bucket>)
    requires DistinctKeys(c)
    ensures key in InheritedNames ==> r == c
    ensures key !in InheritedNames && HasKey(c, key) ==> |r| == |c|
    ensures key !in InheritedNames && !HasKey(c, key) ==> |r| == |c| + 1 && r[|c|] == Add(Zero(key), t)
    ensures key !in InheritedNames ==>
              forall j :: 0 <= j < |c| ==> r[j] == if c[j].key == key then Add(c[j], t) else c[j]
    ensures DistinctKeys(r)
  {
    if key in InheritedNames then c
    else if HasKey(c, key) then Bump(c, key, t)
    else c + [Add(Zero(key), t)]
  }

  lemma HasKeyCons(c: seq<Bucket>, key: string)
    requires c != []
    ensures HasKey(c, key) <==> c[0].key == key || HasKey(c[1..], key)
  {
    if HasKey(c[1..], key) {
      var j :| 0 <= j < |c[1..]| && c[1..][j].key == key;
      assert c[j + 1].key == key;
    }
    if HasKey(c, key) && c[0].key != key {
      var j :| 0 <= j < |c| && c[j].key == key;
      assert c[1..][j - 1].key == key;
    }
  }

  /** Appending one trade changes the tally of its own key only. */
  lemma TallyStep(ts: seq<Trade>, t: Trade, d: Dimension, k: string)
    ensures Tally(ts + [t], d, k) ==
      if Counted(t) && KeyOf(d, t) == Some(k) then Add(Tally(ts, d, k), t) else Tally(ts, d, k)
  {
    var ts' := ts + [t];
    assert ts'[..|ts'| - 1] == ts;
  }

  /** Appending one trade adds its key at the end when the key is new. */
  lemma KeysStep(ts: seq<Trade>, t: Trade, d: Dimension)
    ensures Keys(ts + [t], d) ==
      if Counted(t) && KeyOf(d, t).Some? && KeyOf(d, t).value !in Keys(ts, d)
      then Keys(ts, d) + [KeyOf(d, t).value]
      else Keys(ts, d)
  {
    var ts' := ts + [t];
    assert ts'[..|ts'| - 1] == ts;
  }

  /** The dictionary lists the tally of each key, in key order. */
  lemma CategoryShape(ts: seq<Trade>, d: Dimension)
    ensures |Category(ts, d)| == |Keys(ts, d)|
    ensures forall j :: 0 <= j < |Keys(ts, d)| ==> Category(ts, d)[j] == Tally(ts, d, Keys(ts, d)[j])
  {
  }

  /** A counted trade adds a key to the dictionary iff the key is new. */
  lemma CategoryLengthStep(ts: seq<Trade>, t: Trade, d: Dimension, k: string)
    requires Counted(t) && KeyOf(d, t) == Some(k)
    ensures HasKey(Category(ts, d), k) <==> k in Keys(ts, d)
    ensures Keys(ts + [t], d) == if k in Keys(ts, d) then Keys(ts, d) else Keys(ts, d) + [k]
  {
    var c, ks := Category(ts, d), Keys(ts, d);
    KeysStep(ts, t, d);
    CategoryShape(ts, d);
    if k in ks {
      var j :| 0 <= j < |ks| && ks[j] == k;
      assert c[j].key == k;
    }
  }

  /** Entry `j` of the dictionary after one more counted trade. */
  lemma CategoryEntryStep(ts: seq<Trade>, t: Trade, d: Dimension, k: string, j: nat)
    requires Counted(t) && KeyOf(d, t) == Some(k)
    requires j < |Keys(ts + [t], d)|
    ensures j < |Keys(ts, d)| ==>
              Category(ts + [t], d)[j] == (var b := Category(ts, d)[j]; if b.key == k then Add(b, t) else b)
    ensures j >= |Keys(ts, d)| ==> Category(ts + [t], d)[j] == Add(Zero(k), t)
  {
    var ks, ks' := Keys(ts, d), Keys(ts + [t], d);
    CategoryLengthStep(ts, t, d, k);
    CategoryShape(ts, d);
    CategoryShape(ts + [t], d);
    TallyStep(ts, t, d, ks'[j]);
    if j >= |ks| {
      assert ks'[j] == k && k !in ks;
    }
  }

  lemma CategoryStepCounted(ts: seq<Trade>, t: Trade, d: Dimension, k: string)
    requires Counted(t) && KeyOf(d, t) == Some(k)
    ensures Category(ts + [t], d) == UpdateStat(Category(ts, d), k, t)
  {
    var c, c' := Category(ts, d), Category(ts + [t], d);
    CategoryLengthStep(ts, t, d, k);
    CategoryShape(ts, d);
    CategoryShape(ts + [t], d);
    var r := UpdateStat(c, k, t);
    assert |c'| == |r|;
    forall j | 0 <= j < |r| ensures c'[j] == r[j] {
      CategoryEntryStep(ts, t, d, k, j);
    }
  }

  lemma CategoryStepSkipped(ts: seq<Trade>, t: Trade, d: Dimension)
    requires !(Counted(t) && KeyOf(d, t).Some?)
    ensures Category(ts + [t], d) == Category(ts, d)
  {
    var c, c' := Category(ts, d), Category(ts + [t], d);
    var ks := Keys(ts, d);
    KeysStep(ts, t, d);
    CategoryShape(ts, d);
    CategoryShape(ts + [t], d);
    forall j | 0 <= j < |c| ensures c'[j] == c[j] {
      TallyStep(ts, t, d, ks[j]);
    }
  }

  /** One trade's effect on one dictionary is exactly one `UpdateStat`, or
      none when the trade is not counted or has no key in that dimension. */
  lemma CategoryStep(ts: seq<Trade>, t: Trade, d: Dimension)
    ensures Category(ts + [t], d) ==
      if Counted(t) && KeyOf(d, t).Some?
      then UpdateStat(Category(ts, d), KeyOf(d, t).value, t)
      else Category(ts, d)
  {
    if Counted(t) && KeyOf(d, t).Some? {
      CategoryStepCounted(ts, t, d, KeyOf(d, t).value);
    } else {
      CategoryStepSkipped(ts, t, d);
    }
  }

  /** A trade whose pair, strategy or direction names an inherited property
      enters no bucket of that dimension, even when it is counted. */
  lemma InheritedNameEntersNoBucket(ts: seq<Trade>, t: Trade, d: Dimension)
    requires d != Hour
    requires (match d
              case Pair => t.pair
              case Strategy => t.strategy
              case Direction => t.direction
              case Hour => t.time) in InheritedNames
    ensures Category(ts + [t], d) == Category(ts, d)
  {
    CategoryStep(ts, t, d);
  }

  /** The dictionary of dimension `d` after one more trade. */
  function Updated(c: seq<Bucket>, d: Dimension, t: Trade): seq<Bucket>
    requires DistinctKeys(c)
  {
    if Counted(t) && KeyOf(d, t).Some? then UpdateStat(c, KeyOf(d, t).value, t) else c
  }

  /** The body of the loop over the trades: a trade that is not decided
      returns early; otherwise each dimension for which the trade has a value
      gets one `UpdateStat`. */
  method ProcessTrade(p: Patterns, t: Trade) returns (q: Patterns)
    requires DistinctKeys(p.hourly) && DistinctKeys(p.pairs)
    requires DistinctKeys(p.strategies) && DistinctKeys(p.directions)
    ensures q.hourly == Updated(p.hourly, Hour, t)
    ensures q.pairs == Updated(p.pairs, Pair, t)
    ensures q.strategies == Updated(p.strategies, Strategy, t)
    ensures q.directions == Updated(p.directions, Direction, t)
  {
    q := p;
    var isWin := t.result == "Win";
    var isLoss := t.result == "Lose";
    if !isWin && !isLoss && t.result != "BE" {
      return;
    }
    if t.time != "" {
      q := q.(hourly := UpdateStat(q.hourly, HourKey(t.time), t));
    }
    if t.pair != "" {
      q := q.(pairs := UpdateStat(q.pairs, t.pair, t));
    }
    if t.strategy != "" {
      q := q.(strategies := UpdateStat(q.strategies, t.strategy, t));
    }
    if t.direction != "" {
      q := q.(directions := UpdateStat(q.directions, t.direction, t));
    }
  }

  /** The four dictionaries of a list of trades. */
  function Analysis(ts: seq<Trade>): Patterns
  {
    Patterns(Category(ts, Hour), Category(ts, Pair), Category(ts, Strategy), Category(ts, Direction))
  }

  lemma AnalysisStep(ts: seq<Trade>, t: Trade)
    ensures var p, q := Analysis(ts), Analysis(ts + [t]);
      && q.hourly == Updated(p.hourly, Hour, t)
      && q.pairs == Updated(p.pairs, Pair, t)
      && q.strategies == Updated(p.strategies, Strategy, t)
      && q.directions == Updated(p.directions, Direction, t)
  {
    CategoryStep(ts, t, Hour);
    CategoryStep(ts, t, Pair);
    CategoryStep(ts, t, Strategy);
    CategoryStep(ts, t, Direction);
  }

  /** The analysis: one pass over the trades, in list order. */
  method AnalyzePatterns(trades: seq<Trade>) returns (p: Patterns)
    ensures p == Analysis(trades)
  {
    p := Patterns([], [], [], []);
    var i := 0;
    while i < |trades|
      invariant 0 <= i <= |trades|
      invariant p == Analysis(trades[..i])
    {
      AnalysisStep(trades[..i], trades[i]);
      p := ProcessTrade(p, trades[i]);
      assert trades[..i + 1] == trades[..i] + [trades[i]];
      i := i + 1;
    }
    assert trades[..i] == trades;
  }

  // ---------------------------------------------------------------------
  // Properties of the dictionaries
  // ---------------------------------------------------------------------

  /** The counted trades of `ts` that have a key in `d`, added into one
      bucket: their number, their wins, losses and P&L. */
  function TallyAll(ts: seq<Trade>, d: Dimension): Bucket
  {
    if ts == [] then Zero("")
    else
      var b0 := TallyAll(ts[..|ts| - 1], d);
      var t := ts[|ts| - 1];
      if Counted(t) && KeyOf(d, t).Some? then Add(b0, t) else b0
  }

  /** The buckets of a dictionary added field by field. */
  function Sum(c: seq<Bucket>): Bucket
  {
    if c == [] then Zero("")
    else
      var s := Sum(c[1..]);
      Bucket("", c[0].wins + s.wins, c[0].losses + s.losses, c[0].total + s.total, c[0].pnl + s.pnl)
  }

  lemma {:induction false} SumAppend(c: seq<Bucket>, b: Bucket)
    ensures Sum(c + [b]) ==
      Bucket("", Sum(c).wins + b.wins, Sum(c).losses + b.losses, Sum(c).total + b.total, Sum(c).pnl + b.pnl)
    decreases |c|
  {
    if c != [] {
      assert (c + [b])[1..] == c[1..] + [b];
      SumAppend(c[1..], b);
    }
  }

  lemma {:induction false} SumBump(c: seq<Bucket>, key: string, t: Trade)
    requires DistinctKeys(c) && HasKey(c, key)
    ensures Sum(Bump(c, key, t)) == Add(Sum(c), t)
    decreases |c|
  {
    var r := Bump(c, key, t);
    HasKeyCons(c, key);
    if c[0].key == key {
      assert r[1..] == c[1..];
    } else {
      assert r[1..] == Bump(c[1..], key, t);
      assert DistinctKeys(c[1..]);
      SumBump(c[1..], key, t);
    }
  }

  lemma SumUpdateStat(c: seq<Bucket>, key: string, t: Trade)
    requires DistinctKeys(c)
    ensures Sum(UpdateStat(c, key, t)) == if key in InheritedNames then Sum(c) else Add(Sum(c), t)
  {
    if key in InheritedNames {
    } else if HasKey(c, key) {
      SumBump(c, key, t);
    } else {
      SumAppend(c, Add(Zero(key), t));
    }
  }

  /** Within one dimension the buckets together hold every counted trade that
      has a value for that dimension exactly once: their totals add up to the
      number of such trades, and their wins, losses and P&L to theirs. */
  lemma {:induction false} CategorySum(ts: seq<Trade>, d: Dimension)
    ensures Sum(Category(ts, d)) == TallyAll(ts, d)
    decreases |ts|
  {
    if ts == [] {
    } else {
      var prefix, t := ts[..|ts| - 1], ts[|ts| - 1];
      assert ts == prefix + [t];
      CategorySum(prefix, d);
      CategoryStep(prefix, t, d);
      if Counted(t) && KeyOf(d, t).Some? {
        SumUpdateStat(Category(prefix, d), KeyOf(d, t).value, t);
      }
    }
  }

  lemma {:induction false} TallySkipsUncounted(a: seq<Trade>, t: Trade, b: seq<Trade>, d: Dimension, k: string)
    requires !Counted(t)
    ensures Tally(a + [t] + b, d, k) == Tally(a + b, d, k)
    decreases |b|
  {
    if b == [] {
      assert a + [t] + b == a + [t] && a + b == a;
      TallyStep(a, t, d, k);
    } else {
      var b0, x := b[..|b| - 1], b[|b| - 1];
      TallySkipsUncounted(a, t, b0, d, k);
      assert a + [t] + b == (a + [t] + b0) + [x];
      assert a + b == (a + b0) + [x];
      TallyStep(a + [t] + b0, x, d, k);
      TallyStep(a + b0, x, d, k);
    }
  }

  lemma {:induction false} KeysSkipUncounted(a: seq<Trade>, t: Trade, b: seq<Trade>, d: Dimension)
    requires !Counted(t)
    ensures Keys(a + [t] + b, d) == Keys(a + b, d)
    decreases |b|
  {
    if b == [] {
      assert a + [t] + b == a + [t] && a + b == a;
      KeysStep(a, t, d);
    } else {
      var b0, x := b[..|b| - 1], b[|b| - 1];
      KeysSkipUncounted(a, t, b0, d);
      assert a + [t] + b == (a + [t] + b0) + [x];
      assert a + b == (a + b0) + [x];
      KeysStep(a + [t] + b0, x, d);
      KeysStep(a + b0, x, d);
    }
  }

  /** A trade that is not counted, wherever it stands in the list, changes no
      dictionary: it creates no key and enters no bucket in any dimension. */
  lemma CategoryIgnoresUncounted(a: seq<Trade>, t: Trade, b: seq<Trade>, d: Dimension)
    requires !Counted(t)
    ensures Category(a + [t] + b, d) == Category(a + b, d)
  {
    KeysSkipUncounted(a, t, b, d);
    CategoryShape(a + [t] + b, d);
    CategoryShape(a + b, d);
    forall j | 0 <= j < |Keys(a + b, d)|
      ensures Category(a + [t] + b, d)[j] == Category(a + b, d)[j]
    {
      TallySkipsUncounted(a, t, b, d, Keys(a + b, d)[j]);
    }
  }

  // ---------------------------------------------------------------------
  // Win-rate, anomalies and the per-dimension breakdown
  // ---------------------------------------------------------------------

  /** wins / total * 100, or 0 for an empty bucket. */
  function WinRate(b: Bucket): (r: real)
    ensures 0.0 <= r
    ensures b.total == 0 ==> r == 0.0
    ensures b.total > 0 ==> r * (b.total as real) == 100.0 * (b.wins as real)
    ensures b.wins <= b.total ==> r <= 100.0
  {
    if b.total > 0 then
      var r := (b.wins as real / b.total as real) * 100.0;
      assert r * (b.total as real) == 100.0 * (b.wins as real);
      r
    else 0.0
  }

  predicate IsSweetSpot(b: Bucket)
  {
    b.total >= 3 && WinRate(b) >= 70.0
  }

  predicate IsDangerZone(b: Bucket)
  {
    b.total >= 3 && WinRate(b) <= 40.0
  }

  lemma ScaleComparison(x: real, y: real, n: real)
    requires n > 0.0
    ensures x <= y <==> x * n <= y * n
  {
    if x <= y {
      assert (y - x) * n >= 0.0;
    } else {
      assert (x - y) * n > 0.0;
    }
  }

  lemma RateAgainst(b: Bucket, bound: real)
    requires b.total > 0
    ensures WinRate(b) >= bound <==> 100.0 * (b.wins as real) >= bound * (b.total as real)
    ensures WinRate(b) <= bound <==> 100.0 * (b.wins as real) <= bound * (b.total as real)
  {
    var r, n := WinRate(b), b.total as real;
    ScaleComparison(bound, r, n);
    ScaleComparison(r, bound, n);
  }

  /** The thresholds hold exactly when the integer cross-products do, so the
      comparisons need no division. */
  lemma ThresholdsInIntegers(b: Bucket)
    ensures IsSweetSpot(b) <==> b.total >= 3 && 10 * b.wins >= 7 * b.total
    ensures IsDangerZone(b) <==> b.total >= 3 && 10 * b.wins <= 4 * b.total
  {
    if b.total >= 3 {
      RateAgainst(b, 70.0);
      RateAgainst(b, 40.0);
    }
  }

  /** The order a comparator sorts by: ahead-or-tied. */
  datatype Order = ByWinRateDesc | ByWinRateAsc | ByTotalDesc

  predicate Before(o: Order, a: Bucket, b: Bucket)
  {
    match o
    case ByWinRateDesc => WinRate(a) >= WinRate(b)
    case ByWinRateAsc => WinRate(a) <= WinRate(b)
    case ByTotalDesc => a.total >= b.total
  }

  predicate SortedBy(s: seq<Bucket>, o: Order)
  {
    forall i, j :: 0 <= i < j < |s| ==> Before(o, s[i], s[j])
  }

  /** A bucket ahead of every element of a sorted list may lead it. */
  lemma ConsSorted(h: Bucket, r: seq<Bucket>, o: Order)
    requires SortedBy(r, o)
    requires forall y :: y in multiset(r) ==> Before(o, h, y)
    ensures SortedBy([h] + r, o)
  {
    forall i, j | 0 <= i < j < |[h] + r| ensures Before(o, ([h] + r)[i], ([h] + r)[j]) {
      if i == 0 {
        assert r[j - 1] in multiset(r);
      }
    }
  }

  /** The head of a sorted list is ahead of every element of its tail. */
  lemma HeadFirst(s: seq<Bucket>, o: Order)
    requires s != [] && SortedBy(s, o)
    ensures forall y :: y in multiset(s[1..]) ==> Before(o, s[0], y)
  {
    forall y | y in multiset(s[1..]) ensures Before(o, s[0], y) {
      var m :| 0 <= m < |s[1..]| && s[1..][m] == y;
      assert s[m + 1] == y;
    }
  }

  function Insert(x: Bucket, s: seq<Bucket>, o: Order): (r: seq<Bucket>)
    requires SortedBy(s, o)
    ensures SortedBy(r, o)
    ensures multiset(r) == multiset(s) + multiset{x}
  {
    if s == [] then [x]
    else if Before(o, x, s[0]) then
      HeadFirst(s, o);
      assert s == [s[0]] + s[1..];
      ConsSorted(x, s, o);
      [x] + s
    else
      var rest := Insert(x, s[1..], o);
      assert s == [s[0]] + s[1..];
      HeadFirst(s, o);
      ConsSorted(s[0], rest, o);
      [s[0]] + rest
  }

  /** The comparator sort: a permutation of its input, in order `o`; tied
      buckets may come in any order. */
  function Sort(s: seq<Bucket>, o: Order): (r: seq<Bucket>)
    ensures SortedBy(r, o)
    ensures multiset(r) == multiset(s)
  {
    if s == [] then []
    else
      assert s == [s[0]] + s[1..];
      Insert(s[0], Sort(s[1..], o), o)
  }

  function Filter(s: seq<Bucket>, keep: Bucket -> bool): (r: seq<Bucket>)
    ensures forall b :: multiset(r)[b] == if keep(b) then multiset(s)[b] else 0
  {
    if s == [] then []
    else
      assert s == [s[0]] + s[1..];
      var rest := Filter(s[1..], keep);
      if keep(s[0]) then [s[0]] + rest else rest
  }

  datatype Anomalies = Anomalies(sweetSpots: seq<Bucket>, dangerZones: seq<Bucket>)

  /** Sweet spots: exactly the buckets with at least three trades and a
      win-rate of at least 70, best first. Danger zones: exactly those with at
      least three trades and a win-rate of at most 40, worst first. */
  function FindAnomalies(list: seq<Bucket>): (r: Anomalies)
    ensures SortedBy(r.sweetSpots, ByWinRateDesc)
    ensures forall b :: multiset(r.sweetSpots)[b] == if IsSweetSpot(b) then multiset(list)[b] else 0
    ensures SortedBy(r.dangerZones, ByWinRateAsc)
    ensures forall b :: multiset(r.dangerZones)[b] == if IsDangerZone(b) then multiset(list)[b] else 0
    ensures forall b :: b in r.sweetSpots ==> b !in r.dangerZones
  {
    var sweet := Sort(Filter(list, IsSweetSpot), ByWinRateDesc);
    var danger := Sort(Filter(list, IsDangerZone), ByWinRateAsc);
    assert forall b :: b in sweet ==> IsSweetSpot(b) by {
      forall b | b in sweet ensures IsSweetSpot(b) {
        assert multiset(sweet)[b] > 0;
      }
    }
    assert forall b :: b in danger ==> IsDangerZone(b) by {
      forall b | b in danger ensures IsDangerZone(b) {
        assert multiset(danger)[b] > 0;
      }
    }
    Anomalies(sweet, danger)
  }

  /** All buckets of the four dimensions in one list. */
  function Pool(p: Patterns): (r: seq<Bucket>)
    ensures |r| == |p.hourly| + |p.pairs| + |p.strategies| + |p.directions|
    ensures multiset(r) == multiset(p.hourly) + multiset(p.pairs) + multiset(p.strategies) + multiset(p.directions)
    ensures forall b :: b in r <==> b in p.hourly || b in p.pairs || b in p.strategies || b in p.directions
  {
    p.hourly + p.pairs + p.strategies + p.directions
  }

  /** Every pooled anomaly is a bucket of one of the four dictionaries of the
      trades, holding at least three counted trades. */
  lemma AnomaliesComeFromTrades(ts: seq<Trade>, p: Patterns, b: Bucket)
    requires p == Patterns(Category(ts, Hour), Category(ts, Pair), Category(ts, Strategy), Category(ts, Direction))
    requires b in FindAnomalies(Pool(p)).sweetSpots || b in FindAnomalies(Pool(p)).dangerZones
    ensures exists d :: b in Category(ts, d)
    ensures b.total >= 3 && b.wins + b.losses <= b.total
  {
    var r := FindAnomalies(Pool(p));
    if b in r.sweetSpots {
      assert multiset(r.sweetSpots)[b] > 0;
    } else {
      assert multiset(r.dangerZones)[b] > 0;
    }
    assert b in Pool(p);
    if b in p.hourly {
      assert b in Category(ts, Hour);
    } else if b in p.pairs {
      assert b in Category(ts, Pair);
    } else if b in p.strategies {
      assert b in Category(ts, Strategy);
    } else {
      assert b in Category(ts, Direction);
    }
  }

  lemma MultisetSplit(s: seq<Bucket>, n: nat)
    requires n <= |s|
    ensures multiset(s) == multiset(s[..n]) + multiset(s[n..])
  {
    assert s == s[..n] + s[n..];
  }

  /** In a list sorted by total, most first, every bucket of a prefix has at
      least the total of every bucket after it. */
  lemma SortedPrefixDominates(s: seq<Bucket>, n: nat)
    requires n <= |s| && SortedBy(s, ByTotalDesc)
    ensures SortedBy(s[..n], ByTotalDesc)
    ensures forall x, y :: x in s[..n] && y in multiset(s[n..]) ==> x.total >= y.total
  {
    forall x, y | x in s[..n] && y in multiset(s[n..]) ensures x.total >= y.total {
      var i :| 0 <= i < n && s[..n][i] == x;
      var j :| 0 <= j < |s| - n && s[n..][j] == y;
      assert s[i] == x && s[n + j] == y;
    }
  }

  /** The breakdown of one dimension: its five most-traded buckets, most
      first; no bucket left out has more trades than one shown. */
  function Breakdown(c: seq<Bucket>): (r: seq<Bucket>)
    ensures |r| == Min(5, |c|)
    ensures SortedBy(r, ByTotalDesc)
    ensures multiset(r) <= multiset(c)
    ensures forall x, y :: x in r && y in multiset(c) - multiset(r) ==> x.total >= y.total
  {
    var s := Sort(c, ByTotalDesc);
    var n := Min(5, |s|);
    MultisetSplit(s, n);
    SortedPrefixDominates(s, n);
    assert |s| == |multiset(s)| == |c|;
    s[..n]
  }

  /** The trades handed to the coach: the first thirty, in list order. */
  function CoachingWindow(ts: seq<Trade>): (r: seq<Trade>)
    ensures |r| == Min(30, |ts|)
    ensures r <= ts
  {
    ts[..Min(30, |ts|)]
  }
}
