/** Price samples grouped into bars, and upstream bars put in order: what the chart is drawn from. */
module Candles {
  import opened Prelude

  /** A number from upstream; None when it is not finite. */
  type Number = Option<real>

  datatype Candle = Candle(time: real, open: real, high: real, low: real, close: real, volume: real)

  // Sorting by time, stable as the runtime's sort is.

  function InsertByTime(c: Candle, sorted: seq<Candle>): seq<Candle> {
    if sorted == [] || c.time <= sorted[0].time then [c] + sorted else [sorted[0]] + InsertByTime(c, sorted[1..])
  }

  function SortByTime(candles: seq<Candle>): seq<Candle> {
    if candles == [] then [] else InsertByTime(candles[0], SortByTime(candles[1..]))
  }

  ghost predicate Ascending(candles: seq<Candle>) {
    forall i, j :: 0 <= i < j < |candles| ==> candles[i].time <= candles[j].time
  }

  ghost predicate StrictlyAscending(candles: seq<Candle>) {
    forall i, j :: 0 <= i < j < |candles| ==> candles[i].time < candles[j].time
  }

  lemma {:induction false} InsertHas(c: Candle, sorted: seq<Candle>, x: Candle)
    ensures x in InsertByTime(c, sorted) <==> x == c || x in sorted
    ensures |InsertByTime(c, sorted)| == |sorted| + 1
  {
    if sorted != [] && c.time > sorted[0].time {
      assert sorted == [sorted[0]] + sorted[1..];
      InsertHas(c, sorted[1..], x);
    }
  }

  lemma {:induction false} InsertSorted(c: Candle, sorted: seq<Candle>)
    requires Ascending(sorted)
    ensures Ascending(InsertByTime(c, sorted))
    ensures forall x :: x in InsertByTime(c, sorted) <==> x == c || x in sorted
    ensures |InsertByTime(c, sorted)| == |sorted| + 1
  {
    forall x ensures x in InsertByTime(c, sorted) <==> x == c || x in sorted {
      InsertHas(c, sorted, x);
    }
    InsertHas(c, sorted, c);
    if sorted != [] && c.time > sorted[0].time {
      assert forall i :: 0 <= i < |sorted[1..]| ==> sorted[1..][i] == sorted[i + 1];
      InsertSorted(c, sorted[1..]);
      var rest := InsertByTime(c, sorted[1..]);
      forall j | 0 <= j < |rest| ensures sorted[0].time <= rest[j].time {
        assert rest[j] in rest;
      }
    }
  }

  lemma {:induction false} SortSorted(candles: seq<Candle>)
    ensures Ascending(SortByTime(candles)) && |SortByTime(candles)| == |candles|
    ensures forall x :: x in SortByTime(candles) <==> x in candles
  {
    if candles != [] {
      SortSorted(candles[1..]);
      InsertSorted(candles[0], SortByTime(candles[1..]));
      assert candles == [candles[0]] + candles[1..];
    }
  }

  /** The candles of one time, in the order they come. */
  function AtTime(candles: seq<Candle>, time: real): seq<Candle> {
    if candles == [] then []
    else (if candles[0].time == time then [candles[0]] else []) + AtTime(candles[1..], time)
  }

  lemma {:induction false} AtTimeHead(c: Candle, rest: seq<Candle>, time: real)
    ensures AtTime([c] + rest, time) == if c.time == time then [c] + AtTime(rest, time) else AtTime(rest, time)
  {
    assert ([c] + rest)[1..] == rest;
  }

  lemma {:induction false} InsertStable(c: Candle, sorted: seq<Candle>, time: real)
    requires Ascending(sorted)
    ensures AtTime(InsertByTime(c, sorted), time) == (if c.time == time then [c] else []) + AtTime(sorted, time)
  {
    if sorted == [] || c.time <= sorted[0].time {
      AtTimeHead(c, sorted, time);
    } else {
      var first, rest := sorted[0], sorted[1..];
      assert forall i :: 0 <= i < |rest| ==> rest[i] == sorted[i + 1];
      InsertStable(c, rest, time);
      assert sorted == [first] + rest;
      AtTimeHead(first, rest, time);
      AtTimeHead(first, InsertByTime(c, rest), time);
    }
  }

  lemma {:induction false} SortStable(candles: seq<Candle>, time: real)
    ensures AtTime(SortByTime(candles), time) == AtTime(candles, time)
  {
    if candles != [] {
      SortStable(candles[1..], time);
      SortSorted(candles[1..]);
      InsertStable(candles[0], SortByTime(candles[1..]), time);
    }
  }

  // Bars as the charting library takes them: ascending, one per time.

  datatype Row = Row(time: Number, open: Number, high: Number, low: Number, close: Number, volume: real)

  function Finite(rows: seq<Row>): seq<Candle> {
    if rows == [] then [] else
      var r := rows[0];
      (match (r.time, r.open, r.high, r.low, r.close)
       case (Some(t), Some(o), Some(h), Some(l), Some(c)) => [Candle(t, o, h, l, c, r.volume)]
       case _ => []) + Finite(rows[1..])
  }

  /** Drops a candle whose time is that of the one before it. */
  function DropRepeats(candles: seq<Candle>): seq<Candle> {
    if |candles| <= 1 then candles
    else
      var init, last := candles[..|candles| - 1], candles[|candles| - 1];
      DropRepeats(init) + (if last.time != init[|init| - 1].time then [last] else [])
  }

  function AscendingDistinct(rows: seq<Row>): seq<Candle> {
    DropRepeats(SortByTime(Finite(rows)))
  }

  /** The candle is the first, in order, of those at its time. */
  ghost predicate IsFirst(candles: seq<Candle>, c: Candle) {
    AtTime(candles, c.time) != [] && AtTime(candles, c.time)[0] == c
  }

  /** Of ascending candles, the first of each time is kept and nothing else. */
  lemma {:induction false} RepeatsDropped(candles: seq<Candle>)
    requires Ascending(candles)
    ensures var kept := DropRepeats(candles);
            && StrictlyAscending(kept)
            && (candles != [] ==> kept != [] && kept[|kept| - 1].time == candles[|candles| - 1].time)
    ensures forall c :: c in DropRepeats(candles) <==> IsFirst(candles, c)
  {
    hide DropRepeats, IsFirst;
    if |candles| <= 1 {
      ShortKept(candles);
    } else {
      var init, last := candles[..|candles| - 1], candles[|candles| - 1];
      RepeatsDropped(init);
      DropStep(init, last);
      assert candles == init + [last];
      forall c ensures c in DropRepeats(candles) <==> IsFirst(candles, c) {
        KeptWithLast(init, last, c);
      }
    }
  }

  lemma {:induction false} ShortKept(candles: seq<Candle>)
    requires |candles| <= 1
    ensures DropRepeats(candles) == candles && forall c :: c in candles <==> IsFirst(candles, c)
  {
    forall c: Candle ensures c in candles <==> IsFirst(candles, c) {
      NothingAt(c.time);
      if candles != [] {
        assert candles == [candles[0]] + [];
        AtTimeHead(candles[0], [], c.time);
      }
    }
  }

  lemma {:induction false} DropStep(init: seq<Candle>, last: Candle)
    requires init != []
    ensures DropRepeats(init + [last]) == DropRepeats(init) + (if last.time != init[|init| - 1].time then [last] else [])
  {
    assert (init + [last])[..|init|] == init;
  }

  lemma {:induction false} NothingAt(time: real)
    ensures AtTime([], time) == []
  {
  }

  lemma {:induction false} AtTimeAppend(candles: seq<Candle>, c: Candle, time: real)
    ensures AtTime(candles + [c], time) == AtTime(candles, time) + (if c.time == time then [c] else [])
  {
    hide AtTime;
    if candles == [] {
      NothingAt(time);
      AtTimeHead(c, [], time);
      assert [] + [c] == [c] + [];
    } else {
      var first, rest := candles[0], candles[1..];
      AtTimeAppend(rest, c, time);
      assert candles == [first] + rest;
      assert candles + [c] == [first] + (rest + [c]);
      AtTimeHead(first, rest, time);
      AtTimeHead(first, rest + [c], time);
    }
  }

  lemma {:induction false} AtTimeHas(candles: seq<Candle>, time: real)
    ensures forall c :: c in AtTime(candles, time) <==> c in candles && c.time == time
  {
    if candles != [] {
      AtTimeHas(candles[1..], time);
      assert candles == [candles[0]] + candles[1..];
    }
  }

  lemma {:induction false} KeptWithLast(init: seq<Candle>, last: Candle, c: Candle)
    requires init != [] && Ascending(init + [last]) && forall x :: x in DropRepeats(init) <==> IsFirst(init, x)
    ensures c in DropRepeats(init + [last]) <==> IsFirst(init + [last], c)
  {
    hide DropRepeats, AtTime;
    var final := init[|init| - 1];
    DropStep(init, last);
    AtTimeAppend(init, last, c.time);
    AtTimeHas(init, c.time);
    if AtTime(init, c.time) == [] {
      assert final in init;
    } else {
      NoLaterTwin(init, last, c.time);
    }
  }

  /** In ascending order, a last candle whose time occurred before repeats the one just before it. */
  lemma {:induction false} NoLaterTwin(init: seq<Candle>, last: Candle, time: real)
    requires init != [] && Ascending(init + [last]) && AtTime(init, time) != []
    ensures last.time == time ==> init[|init| - 1].time == time
  {
    AtTimeHas(init, time);
    var x := AtTime(init, time)[0];
    assert x in AtTime(init, time);
    var i :| 0 <= i < |init| && init[i] == x;
    var candles := init + [last];
    assert candles[i].time <= candles[|init| - 1].time <= candles[|init|].time;
  }

  /**
   * The result is strictly ascending, and holds exactly the first valid row of each time that occurs, in the order
   * the rows came.
   */
  lemma {:induction false} KeepsFirstOfEach(rows: seq<Row>)
    ensures StrictlyAscending(AscendingDistinct(rows))
    ensures forall c :: c in AscendingDistinct(rows) <==> IsFirst(Finite(rows), c)
  {
    var valid := Finite(rows);
    SortSorted(valid);
    RepeatsDropped(SortByTime(valid));
    forall c: Candle ensures AtTime(SortByTime(valid), c.time) == AtTime(valid, c.time) {
      SortStable(valid, c.time);
    }
  }

  /** No two strictly ascending sequences hold the same candles, so the lemma above leaves no choice. */
  lemma {:induction false} AscendingUnique(a: seq<Candle>, b: seq<Candle>)
    requires StrictlyAscending(a) && StrictlyAscending(b) && forall c :: c in a <==> c in b
    ensures a == b
  {
    assert a != [] ==> a[0] in b;
    assert b != [] ==> b[0] in a;
    if a != [] && b != [] {
      FirstsEqual(a, b);
      forall c ensures c in a[1..] <==> c in b[1..] {
        TailHas(a, c);
        TailHas(b, c);
      }
      AscendingUnique(a[1..], b[1..]);
      assert a == [a[0]] + a[1..] && b == [b[0]] + b[1..];
    }
  }

  lemma FirstsEqual(a: seq<Candle>, b: seq<Candle>)
    requires a != [] && b != [] && StrictlyAscending(a) && StrictlyAscending(b) && a[0] in b && b[0] in a
    ensures a[0] == b[0]
  {
    var i :| 0 <= i < |b| && b[i] == a[0];
    var j :| 0 <= j < |a| && a[j] == b[0];
  }

  lemma TailHas(a: seq<Candle>, c: Candle)
    requires a != [] && StrictlyAscending(a)
    ensures c in a[1..] <==> c in a && c != a[0]
  {
    assert a == [a[0]] + a[1..];
    assert forall i :: 0 <= i < |a[1..]| ==> a[1..][i] == a[i + 1];
  }

  // Bars from samples.

  datatype Sample = Sample(ms: Number, price: Number)

  /** The aligned second at which the bar of a sample begins. */
  function BucketOf(ms: real, interval: int): int
    requires interval > 0
  {
    (ms / 1000.0).Floor / interval * interval
  }

  predicate Falls(s: Sample, interval: int, time: int)
    requires interval > 0
  {
    s.ms.Some? && s.price.Some? && BucketOf(s.ms.value, interval) == time
  }

  /** A sample falls in the aligned bucket that its time is in, from its first second up to the next bucket's. */
  lemma FallsMeans(s: Sample, interval: int, time: int)
    requires interval > 0
    ensures Falls(s, interval, time) <==>
            && s.ms.Some? && s.price.Some? && time % interval == 0
            && 1000.0 * time as real <= s.ms.value < 1000.0 * (time + interval) as real
  {
    if s.ms.Some? {
      var ms := s.ms.value;
      var second := (ms / 1000.0).Floor;
      FloorMeans(ms, second, time);
      FloorMeans(ms, second, time + interval);
      var q := second / interval;
      Multiple(q, interval);
      assert second == q * interval + second % interval;
      if time % interval == 0 && time <= second < time + interval {
        var k := time / interval;
        assert time == k * interval;
        SameMultiple(q, k, interval, second);
      }
    }
  }

  lemma FloorMeans(ms: real, second: int, time: int)
    requires second == (ms / 1000.0).Floor
    ensures 1000.0 * time as real <= ms <==> time <= second
  {
  }

  lemma SameMultiple(q: int, k: int, interval: int, second: int)
    requires interval > 0 && q * interval <= second < q * interval + interval
    requires k * interval <= second < k * interval + interval
    ensures q == k
  {
    FarApart(q - k, interval);
    assert (q - k) * interval == q * interval - k * interval;
  }

  /** The prices sampled in one bucket, in the order they came. */
  function PricesIn(points: seq<Sample>, interval: int, time: int): seq<real>
    requires interval > 0
  {
    if points == [] then [] else
      var last := points[|points| - 1];
      PricesIn(points[..|points| - 1], interval, time) + (if Falls(last, interval, time) then [last.price.value] else [])
  }

  /** The first price opens the bar, the last closes it, and it reaches from the lowest to the highest. */
  ghost predicate Summarises(c: Candle, time: int, prices: seq<real>) {
    && prices != [] && c.time == time as real && c.volume == 0.0
    && c.open == prices[0] && c.close == prices[|prices| - 1]
    && c.high in prices && c.low in prices && forall p :: p in prices ==> c.low <= p <= c.high
  }

  /** The candles are exactly the non-empty buckets, in order. */
  ghost predicate Groups(points: seq<Sample>, interval: int, candles: seq<Candle>)
    requires interval > 0
  {
    && StrictlyAscending(candles)
    && (forall c :: c in candles ==>
          exists time: int :: time % interval == 0 && Summarises(c, time, PricesIn(points, interval, time)))
    && (forall time: int :: PricesIn(points, interval, time) != [] ==>
          exists c :: c in candles && Summarises(c, time, PricesIn(points, interval, time)))
  }

  lemma {:induction false} Aligned(points: seq<Sample>, interval: int, time: int)
    requires interval > 0 && PricesIn(points, interval, time) != []
    ensures time % interval == 0
  {
    var last := points[|points| - 1];
    if Falls(last, interval, time) {
      Multiple((last.ms.value / 1000.0).Floor / interval, interval);
    } else {
      Aligned(points[..|points| - 1], interval, time);
    }
  }

  lemma Multiple(k: int, interval: int)
    requires interval > 0
    ensures k * interval % interval == 0
  {
    var q, r := k * interval / interval, k * interval % interval;
    assert (k - q) * interval == r;
    FarApart(k - q, interval);
  }

  lemma FarApart(d: int, interval: int)
    requires interval > 0
    ensures d >= 1 ==> d * interval >= interval
    ensures d <= -1 ==> d * interval <= -interval
  {
  }

  /** The bars so far are the non-empty buckets of the samples so far. */
  ghost predicate Filled(points: seq<Sample>, interval: int, buckets: map<int, Candle>)
    requires interval > 0
  {
    && (forall t: int :: t in buckets <==> PricesIn(points, interval, t) != [])
    && (forall t :: t in buckets ==> Summarises(buckets[t], t, PricesIn(points, interval, t)))
  }

  lemma NothingFilled(interval: int)
    requires interval > 0
    ensures Filled([], interval, map[])
  {
  }

  /** The keys in the order they were first used. */
  ghost predicate Orders(order: seq<int>, buckets: map<int, Candle>) {
    && (forall k :: 0 <= k < |order| ==> order[k] in buckets)
    && (forall t :: t in buckets ==> t in order)
    && (forall j, k :: 0 <= j < k < |order| ==> order[j] != order[k])
  }

  /** One pass over the samples, updating the bar of each in place. */
  method BucketPrices(points: seq<Sample>, interval: int) returns (candles: seq<Candle>)
    ensures interval <= 0 ==> candles == []
    ensures interval > 0 ==> Groups(points, interval, candles)
  {
    hide PricesIn, Summarises, BucketOf, Filled, SortByTime;
    if interval <= 0 {
      return [];
    }
    NothingFilled(interval);
    var buckets: map<int, Candle> := map[];
    var order: seq<int> := [];
    for i := 0 to |points|
      invariant Orders(order, buckets)
      invariant Filled(points[..i], interval, buckets)
    {
      assert points[..i + 1] == points[..i] + [points[i]];
      var point := points[i];
      if point.ms.None? || point.price.None? {
        SampleSkipped(points[..i], point, interval, buckets);
        continue;
      }
      var price, time := point.price.value, BucketOf(point.ms.value, interval);
      if time !in buckets {
        BarOpened(points[..i], point, interval, buckets);
        buckets := buckets[time := Candle(time as real, price, price, price, price, 0.0)];
        order := order + [time];
      } else {
        var existing := buckets[time];
        BarUpdated(points[..i], point, interval, buckets);
        buckets := buckets[time := existing.(high := if price > existing.high then price else existing.high,
                                             low := if price < existing.low then price else existing.low,
                                             close := price)];
      }
    }
    assert points[..|points|] == points;
    var values := seq(|order|, k requires 0 <= k < |order| => buckets[order[k]]);
    candles := SortByTime(values);
    Collected(points, interval, buckets, order, values);
  }

  lemma {:induction false} PricesAppend(points: seq<Sample>, point: Sample, interval: int, time: int)
    requires interval > 0
    ensures PricesIn(points + [point], interval, time) ==
            if Falls(point, interval, time) then PricesIn(points, interval, time) + [point.price.value]
            else PricesIn(points, interval, time)
  {
    assert (points + [point])[..|points|] == points;
  }

  lemma SampleSkipped(points: seq<Sample>, point: Sample, interval: int, buckets: map<int, Candle>)
    requires interval > 0 && Filled(points, interval, buckets) && (point.ms.None? || point.price.None?)
    ensures Filled(points + [point], interval, buckets)
  {
    hide PricesIn, Summarises;
    forall t: int ensures PricesIn(points + [point], interval, t) == PricesIn(points, interval, t) {
      PricesAppend(points, point, interval, t);
    }
  }

  lemma BarOpened(points: seq<Sample>, point: Sample, interval: int, buckets: map<int, Candle>)
    requires interval > 0 && Filled(points, interval, buckets) && point.ms.Some? && point.price.Some?
    requires BucketOf(point.ms.value, interval) !in buckets
    ensures var price, time := point.price.value, BucketOf(point.ms.value, interval);
            Filled(points + [point], interval, buckets[time := Candle(time as real, price, price, price, price, 0.0)])
  {
    hide PricesIn, BucketOf;
    var price, time := point.price.value, BucketOf(point.ms.value, interval);
    var r := buckets[time := Candle(time as real, price, price, price, price, 0.0)];
    forall t: int
      ensures (t in r <==> PricesIn(points + [point], interval, t) != [])
           && (t in r ==> Summarises(r[t], t, PricesIn(points + [point], interval, t)))
    {
      PricesAppend(points, point, interval, t);
    }
  }

  lemma BarUpdated(points: seq<Sample>, point: Sample, interval: int, buckets: map<int, Candle>)
    requires interval > 0 && Filled(points, interval, buckets) && point.ms.Some? && point.price.Some?
    requires BucketOf(point.ms.value, interval) in buckets
    ensures var price, time := point.price.value, BucketOf(point.ms.value, interval);
            var c := buckets[time];
            Filled(points + [point], interval, buckets[time := Stretched(c, price)])
  {
    hide PricesIn, BucketOf, Summarises;
    var price, time := point.price.value, BucketOf(point.ms.value, interval);
    var r := buckets[time := Stretched(buckets[time], price)];
    SummaryGrows(buckets[time], time, PricesIn(points, interval, time), price);
    forall t: int
      ensures (t in r <==> PricesIn(points + [point], interval, t) != [])
           && (t in r ==> Summarises(r[t], t, PricesIn(points + [point], interval, t)))
    {
      PricesAppend(points, point, interval, t);
    }
  }

  function Stretched(c: Candle, price: real): Candle {
    c.(high := if price > c.high then price else c.high, low := if price < c.low then price else c.low, close := price)
  }

  lemma SummaryGrows(c: Candle, time: int, prices: seq<real>, price: real)
    requires Summarises(c, time, prices)
    ensures Summarises(Stretched(c, price), time, prices + [price])
  {
    var grown := prices + [price];
    assert grown[|prices|] == price && forall p :: p in prices ==> p in grown;
  }

  lemma {:induction false} Collected(points: seq<Sample>, interval: int, buckets: map<int, Candle>, order: seq<int>,
                                     values: seq<Candle>)
    requires interval > 0 && |values| == |order| && Orders(order, buckets) && Filled(points, interval, buckets)
    requires forall k :: 0 <= k < |order| ==> values[k] == buckets[order[k]]
    ensures Groups(points, interval, SortByTime(values))
  {
    hide PricesIn, Summarises, SortByTime;
    SortSorted(values);
    var sorted := SortByTime(values);
    forall c | c in sorted
      ensures exists time: int :: time % interval == 0 && Summarises(c, time, PricesIn(points, interval, time))
    {
      var k :| 0 <= k < |values| && values[k] == c;
      Aligned(points, interval, order[k]);
    }
    forall time: int | PricesIn(points, interval, time) != []
      ensures exists c :: c in sorted && Summarises(c, time, PricesIn(points, interval, time))
    {
      var k :| 0 <= k < |order| && order[k] == time;
      assert values[k] in sorted;
    }
    forall j, k | 0 <= j < k < |values| ensures values[j].time != values[k].time {
      SummaryTime(values[j], order[j], PricesIn(points, interval, order[j]));
      SummaryTime(values[k], order[k], PricesIn(points, interval, order[k]));
    }
    DistinctSort(values);
  }

  lemma SummaryTime(c: Candle, time: int, prices: seq<real>)
    requires Summarises(c, time, prices)
    ensures c.time == time as real
  {
  }

  ghost predicate DistinctTimes(candles: seq<Candle>) {
    forall j, k :: 0 <= j < k < |candles| ==> candles[j].time != candles[k].time
  }

  lemma {:induction false} InsertStrict(c: Candle, sorted: seq<Candle>)
    requires StrictlyAscending(sorted) && forall x :: x in sorted ==> x.time != c.time
    ensures StrictlyAscending(InsertByTime(c, sorted))
  {
    if sorted != [] && c.time > sorted[0].time {
      assert sorted == [sorted[0]] + sorted[1..];
      assert forall i :: 0 <= i < |sorted[1..]| ==> sorted[1..][i] == sorted[i + 1];
      InsertStrict(c, sorted[1..]);
      InsertSorted(c, sorted[1..]);
      var rest := InsertByTime(c, sorted[1..]);
      forall j | 0 <= j < |rest| ensures sorted[0].time < rest[j].time {
        assert rest[j] in rest;
      }
    }
  }

  lemma {:induction false} DistinctSort(values: seq<Candle>)
    requires DistinctTimes(values)
    ensures StrictlyAscending(SortByTime(values))
  {
    if values != [] {
      DistinctSort(values[1..]);
      SortSorted(values[1..]);
      forall x | x in SortByTime(values[1..]) ensures x.time != values[0].time {
        var k :| 0 <= k < |values[1..]| && values[1..][k] == x;
        assert values[k + 1] == x;
      }
      InsertStrict(values[0], SortByTime(values[1..]));
    }
  }

  /** The samples determine the bars: no other sequence of candles groups them. */
  lemma GroupingUnique(points: seq<Sample>, interval: int, a: seq<Candle>, b: seq<Candle>)
    requires interval > 0 && Groups(points, interval, a) && Groups(points, interval, b)
    ensures a == b
  {
    hide Groups;
    GroupsAscend(points, interval, a);
    GroupsAscend(points, interval, b);
    forall c ensures c in a <==> c in b {
      if c in a { SameSummary(points, interval, a, b, c); }
      if c in b { SameSummary(points, interval, b, a, c); }
    }
    AscendingUnique(a, b);
  }

  lemma GroupsAscend(points: seq<Sample>, interval: int, candles: seq<Candle>)
    requires interval > 0 && Groups(points, interval, candles)
    ensures StrictlyAscending(candles)
  {
    hide PricesIn, Summarises;
  }

  lemma SameSummary(points: seq<Sample>, interval: int, a: seq<Candle>, b: seq<Candle>, c: Candle)
    requires interval > 0 && Groups(points, interval, a) && Groups(points, interval, b) && c in a
    ensures c in b
  {
    hide PricesIn, Summarises;
    var time: int :| time % interval == 0 && Summarises(c, time, PricesIn(points, interval, time));
    NotEmpty(c, time, PricesIn(points, interval, time));
    var d :| d in b && Summarises(d, time, PricesIn(points, interval, time));
    SummaryUnique(c, d, time, PricesIn(points, interval, time));
  }

  lemma NotEmpty(c: Candle, time: int, prices: seq<real>)
    requires Summarises(c, time, prices)
    ensures prices != []
  {
  }

  lemma SummaryUnique(c: Candle, d: Candle, time: int, prices: seq<real>)
    requires Summarises(c, time, prices) && Summarises(d, time, prices)
    ensures c == d
  {
    assert d.low <= c.low <= d.high && c.low <= d.low <= c.high;
  }

  // The last price, and how far it moved in a day.

  const DAY := 86400.0

  datatype Stats = Stats(price: Number, change: Number)

  function FirstAtOrAfter(candles: seq<Candle>, cutoff: real): Option<Candle> {
    if candles == [] then None
    else if candles[0].time >= cutoff then Some(candles[0])
    else FirstAtOrAfter(candles[1..], cutoff)
  }

  function Stats24h(candles: seq<Candle>): Stats {
    if candles == [] then Stats(None, None)
    else
      var last := candles[|candles| - 1];
      var cutoff := last.time - DAY;
      if candles[0].time > cutoff then Stats(Some(last.close), None)
      else
        var found := FirstAtOrAfter(candles, cutoff);
        var reference := if found.Some? then found.value else candles[0];
        var base := if reference.open != 0.0 then reference.open else reference.close;
        if base == 0.0 then Stats(Some(last.close), None)
        else Stats(Some(last.close), Some((last.close - base) / base * 100.0))
  }

  lemma {:induction false} FirstFound(candles: seq<Candle>, cutoff: real, k: nat)
    requires StrictlyAscending(candles) && k < |candles| && candles[k].time >= cutoff
    requires forall i :: 0 <= i < k ==> candles[i].time < cutoff
    ensures FirstAtOrAfter(candles, cutoff) == Some(candles[k])
  {
    if k > 0 {
      assert forall i :: 0 <= i < |candles[1..]| ==> candles[1..][i] == candles[i + 1];
      FirstFound(candles[1..], cutoff, k - 1);
    }
  }

  /** A change is reported exactly when the bars span a day and the earliest bar of that day has a price to compare with. */
  lemma ChangeReportedIff(candles: seq<Candle>, k: nat)
    requires StrictlyAscending(candles) && k < |candles|
    requires var cutoff := candles[|candles| - 1].time - 86400.0;
             candles[k].time >= cutoff && forall i :: 0 <= i < k ==> candles[i].time < cutoff
    ensures var last := candles[|candles| - 1]; var stats := Stats24h(candles);
            && stats.price == Some(last.close)
            && (stats.change.Some? <==>
                  candles[0].time <= last.time - 86400.0 && (candles[k].open != 0.0 || candles[k].close != 0.0))
            && (stats.change.Some? ==>
                  var base := if candles[k].open != 0.0 then candles[k].open else candles[k].close;
                  last.close == base * (1.0 + stats.change.value / 100.0))
  {
    FirstFound(candles, candles[|candles| - 1].time - DAY, k);
    var base := if candles[k].open != 0.0 then candles[k].open else candles[k].close;
    if base != 0.0 {
      Percent(candles[|candles| - 1].close, base);
    }
  }

  lemma Percent(close: real, base: real)
    requires base != 0.0
    ensures close == base * (1.0 + (close - base) / base * 100.0 / 100.0)
  {
    assert (close - base) / base * 100.0 / 100.0 == (close - base) / base;
    assert base * ((close - base) / base) == close - base;
  }
}
