/** One-minute bars: the streaming builder of `market/bar_builder.py` against the
    batch of `market/completed_bars.py`. */
module MinuteBars {
  import opened Wrappers

  /** `row` is the smallest row id of the tick in its table. */
  datatype Tick = Tick(symbol: string, at: int, price: real, volume: int, row: int)

  datatype Bar = Bar(symbol: string, start: int, open: real, high: real, low: real, close: real, volume: int)

  const MINUTE := 60

  function StartOf(at: int): int {
    at - at % MINUTE
  }

  function Max(a: real, b: real): real {
    if a < b then b else a
  }

  function Min(a: real, b: real): real {
    if b < a then b else a
  }

  function FirstBar(t: Tick): Bar {
    Bar(t.symbol, StartOf(t.at), t.price, t.price, t.price, t.price, t.volume)
  }

  function Extended(b: Bar, t: Tick): Bar {
    b.(high := Max(b.high, t.price), low := Min(b.low, t.price), close := t.price, volume := b.volume + t.volume)
  }

  predicate Shaped(b: Bar) {
    b.low <= b.open <= b.high && b.low <= b.close <= b.high
  }

  // -------------------------------------------------------- streaming builder

  /** The bar under construction, and the result of one more tick. */
  function Updated(bar: Option<Bar>, t: Tick): Outcome<(Option<Bar>, Option<Bar>)> {
    if bar.None? then Done((Some(FirstBar(t)), None))
    else if t.symbol != bar.value.symbol || StartOf(t.at) < bar.value.start then Raised(InvalidArgument)
    else if StartOf(t.at) == bar.value.start then Done((Some(Extended(bar.value, t)), None))
    else Done((Some(FirstBar(t)), bar))
  }

  class MinuteBarBuilder {
    var bar: Option<Bar>

    constructor ()
      ensures bar == None
    {
      bar := None;
    }

    method Update(t: Tick) returns (r: Outcome<Option<Bar>>)
      modifies this
      ensures match Updated(old(bar), t)
              case Raised(e) => r == Raised(e) && bar == old(bar)
              case Done((next, completed)) => r == Done(completed) && bar == next
    {
      var start := StartOf(t.at);
      if bar.None? {
        bar := Some(FirstBar(t));
        return Done(None);
      }
      var current := bar.value;
      if t.symbol != current.symbol || start < current.start {
        return Raised(InvalidArgument);
      }
      if start == current.start {
        bar := Some(current.(high := Max(current.high, t.price), low := Min(current.low, t.price), close := t.price,
                             volume := current.volume + t.volume));
        return Done(None);
      }
      bar := Some(FirstBar(t));
      return Done(Some(current));
    }

    method Flush() returns (completed: Option<Bar>)
      modifies this
      ensures completed == old(bar) && bar == None
    {
      completed := bar;
      bar := None;
    }
  }

  /** The bars completed so far, and the one under construction. */
  datatype Stream = Stream(bars: seq<Bar>, current: Option<Bar>) {
    function All(): seq<Bar> {
      if current.Some? then bars + [current.value] else bars
    }
  }

  function Streamed(ts: seq<Tick>): Outcome<Stream> {
    if ts == [] then Done(Stream([], None))
    else
      match Streamed(ts[..|ts| - 1])
      case Raised(e) => Raised(e)
      case Done(s) =>
        match Updated(s.current, ts[|ts| - 1])
        case Raised(e) => Raised(e)
        case Done((next, completed)) => Done(Stream(if completed.Some? then s.bars + [completed.value] else s.bars, next))
  }

  /** Running a builder over a stream, and closing it. */
  method BuildBars(ts: seq<Tick>) returns (r: Outcome<seq<Bar>>)
    ensures match Streamed(ts)
            case Raised(e) => r == Raised(e)
            case Done(s) => r == Done(s.All())
  {
    var builder := new MinuteBarBuilder();
    var bars: seq<Bar> := [];
    var i := 0;
    while i < |ts|
      invariant 0 <= i <= |ts|
      invariant Streamed(ts[..i]) == Done(Stream(bars, builder.bar))
    {
      assert ts[..i + 1][..i] == ts[..i];
      var u := builder.Update(ts[i]);
      if u.Raised? {
        StreamStops(ts, i + 1);
        return Raised(u.error);
      }
      if u.value.Some? {
        bars := bars + [u.value.value];
      }
      i := i + 1;
    }
    assert ts[..|ts|] == ts;
    var last := builder.Flush();
    r := Done(if last.Some? then bars + [last.value] else bars);
  }

  lemma {:induction false} StreamStops(ts: seq<Tick>, n: nat)
    requires n <= |ts| && Streamed(ts[..n]).Raised?
    ensures Streamed(ts) == Streamed(ts[..n])
    decreases |ts|
  {
    if n == |ts| {
      assert ts[..n] == ts;
    } else {
      assert ts[..|ts| - 1][..n] == ts[..n];
      StreamStops(ts[..|ts| - 1], n);
    }
  }

  // -------------------------------------------------------------- the reference

  /** The bar of one minute: its ticks in turn. */
  function MinuteOf(ts: seq<Tick>, symbol: string, start: int): Option<Bar> {
    if ts == [] then None
    else
      var before, t := MinuteOf(ts[..|ts| - 1], symbol, start), ts[|ts| - 1];
      if t.symbol != symbol || StartOf(t.at) != start then before
      else if before.None? then Some(FirstBar(t)) else Some(Extended(before.value, t))
  }

  /** A tick of the minute. */
  predicate Within(t: Tick, symbol: string, start: int) {
    t.symbol == symbol && StartOf(t.at) == start
  }

  /** A minute has a bar exactly when it has a tick; the bar opens at its first
      tick, closes at its last, and its high and low are the extremes. */
  lemma {:induction false} MinuteIsOhlc(ts: seq<Tick>, symbol: string, start: int) returns (first: int, last: int, top: int, bottom: int)
    ensures MinuteOf(ts, symbol, start).None? ==> forall i :: 0 <= i < |ts| ==> !Within(ts[i], symbol, start)
    ensures MinuteOf(ts, symbol, start).Some? ==>
              var b := MinuteOf(ts, symbol, start).value;
              && IsTickOf(ts, first, b.open, symbol, start) && (forall k :: 0 <= k < first ==> !Within(ts[k], symbol, start))
              && IsTickOf(ts, last, b.close, symbol, start) && (forall k :: last < k < |ts| ==> !Within(ts[k], symbol, start))
              && IsTickOf(ts, top, b.high, symbol, start) && IsTickOf(ts, bottom, b.low, symbol, start)
              && (forall i :: 0 <= i < |ts| && Within(ts[i], symbol, start) ==> b.low <= ts[i].price <= b.high)
  {
    hide StartOf, Within;
    first, last, top, bottom := 0, 0, 0, 0;
    if ts != [] {
      var front, t, n := ts[..|ts| - 1], ts[|ts| - 1], |ts| - 1;
      first, last, top, bottom := MinuteIsOhlc(front, symbol, start);
      assert forall i :: 0 <= i < n ==> front[i] == ts[i];
      WithinMeans(t, symbol, start);
      if Within(t, symbol, start) {
        var before := MinuteOf(front, symbol, start);
        last := n;
        if before.None? {
          first, top, bottom := n, n, n;
        } else {
          top := if before.value.high < t.price then n else top;
          bottom := if t.price < before.value.low then n else bottom;
        }
      }
    }
  }

  lemma WithinMeans(t: Tick, symbol: string, start: int)
    ensures Within(t, symbol, start) <==> t.symbol == symbol && StartOf(t.at) == start
  {
  }

  predicate IsTickOf(ts: seq<Tick>, i: int, price: real, symbol: string, start: int) {
    0 <= i < |ts| && Within(ts[i], symbol, start) && ts[i].price == price
  }

  /** Ticks of one symbol in the order they were stored. */
  ghost predicate Chronological(ts: seq<Tick>, symbol: string) {
    && (forall i :: 0 <= i < |ts| ==> ts[i].symbol == symbol)
    && forall i, j :: 0 <= i < j < |ts| ==> Earlier(ts[i], ts[j])
  }

  predicate Earlier(a: Tick, b: Tick) {
    a.at < b.at || (a.at == b.at && a.row < b.row)
  }

  ghost predicate HasBar(bars: seq<Bar>, b: Bar) {
    exists i :: 0 <= i < |bars| && bars[i] == b
  }

  /** What the builder has for every minute. */
  ghost predicate StreamShows(s: Stream, ts: seq<Tick>, symbol: string) {
    && (s.current.None? <==> ts == [])
    && (s.current.Some? ==> s.current.value.start == StartOf(ts[|ts| - 1].at) && s.current.value.symbol == symbol
                            && MinuteOf(ts, symbol, s.current.value.start) == s.current)
    && (forall b :: HasBar(s.bars, b) ==> s.current.Some? && b.start < s.current.value.start && MinuteOf(ts, symbol, b.start) == Some(b))
    && (forall start :: s.current.Some? && start < s.current.value.start && MinuteOf(ts, symbol, start).Some? ==>
          HasBar(s.bars, MinuteOf(ts, symbol, start).value))
    && (forall start :: s.current.Some? && start > s.current.value.start ==> MinuteOf(ts, symbol, start).None?)
  }

  lemma StartsOrdered(a: int, b: int)
    requires a <= b
    ensures StartOf(a) <= StartOf(b)
  {
  }

  lemma HasBarAppend(bars: seq<Bar>, c: Bar, b: Bar)
    ensures HasBar(bars + [c], b) <==> HasBar(bars, b) || b == c
  {
    if HasBar(bars, b) {
      var i :| 0 <= i < |bars| && bars[i] == b;
      assert (bars + [c])[i] == b;
    }
    if b == c {
      assert (bars + [c])[|bars|] == b;
    }
  }

  /** A chronological stream is accepted, and its bars are those of its minutes. */
  lemma {:induction false} StreamingMatches(ts: seq<Tick>, symbol: string)
    requires Chronological(ts, symbol)
    ensures Streamed(ts).Done? && StreamShows(Streamed(ts).value, ts, symbol)
  {
    hide FirstBar, Extended, StartOf;
    if ts == [] {
      assert forall start :: MinuteOf(ts, symbol, start).None?;
    } else {
      var front, t := ts[..|ts| - 1], ts[|ts| - 1];
      StreamingMatches(front, symbol);
      StreamOneMore(front, t, symbol);
      assert front + [t] == ts;
    }
  }

  lemma OtherMinutes(front: seq<Tick>, t: Tick, symbol: string)
    ensures forall start :: start != StartOf(t.at) || t.symbol != symbol ==> MinuteOf(front + [t], symbol, start) == MinuteOf(front, symbol, start)
    ensures t.symbol == symbol ==>
              var before := MinuteOf(front, symbol, StartOf(t.at));
              MinuteOf(front + [t], symbol, StartOf(t.at)) == Some(if before.None? then FirstBar(t) else Extended(before.value, t))
  {
    assert (front + [t])[..|front|] == front;
  }

  lemma BarStarts(ts: seq<Tick>, symbol: string, t: Tick)
    ensures FirstBar(t).start == StartOf(t.at) && FirstBar(t).symbol == t.symbol
    ensures forall b: Bar :: Extended(b, t).start == b.start && Extended(b, t).symbol == b.symbol
  {
  }

  lemma StreamOneMore(front: seq<Tick>, t: Tick, symbol: string)
    requires Chronological(front + [t], symbol) && Streamed(front).Done? && StreamShows(Streamed(front).value, front, symbol)
    ensures Streamed(front + [t]).Done? && StreamShows(Streamed(front + [t]).value, front + [t], symbol)
  {
    hide FirstBar, Extended, StartOf, MinuteOf;
    var ts, s := front + [t], Streamed(front).value;
    assert ts[..|front|] == front && ts[|front|] == t;
    OtherMinutes(front, t, symbol);
    BarStarts(front, symbol, t);
    if front == [] {
      NoTicks(symbol);
    } else {
      var last := front[|front| - 1];
      assert last == ts[|front| - 1] && Earlier(ts[|front| - 1], ts[|front|]);
      StartsOrdered(last.at, t.at);
      var n := Streamed(ts).value;
      if StartOf(t.at) != s.current.value.start {
        forall b
          ensures HasBar(n.bars, b) <==> HasBar(s.bars, b) || b == s.current.value
        {
          HasBarAppend(s.bars, s.current.value, b);
        }
      }
    }
  }

  lemma NoTicks(symbol: string)
    ensures forall start :: MinuteOf([], symbol, start).None?
  {
  }

  // ------------------------------------------------------------------- batch

  datatype Aggregate = Aggregate(bar: Bar, first: (int, int), last: (int, int))

  predicate Less(a: (int, int), b: (int, int)) {
    a.0 < b.0 || (a.0 == b.0 && a.1 < b.1)
  }

  /** The window a batch looks at. */
  datatype Window = Window(start: int, watermark: int)

  /** Inside the range, and its minute is over. */
  predicate Counts(w: Window, t: Tick) {
    w.start <= t.at <= w.watermark && StartOf(t.at) + MINUTE <= w.watermark
  }

  function KeyOf(t: Tick): (string, int) {
    (t.symbol, StartOf(t.at))
  }

  function OrderOf(t: Tick): (int, int) {
    (t.at, t.row)
  }

  function Joined(a: Aggregate, t: Tick): Aggregate {
    var order, b := OrderOf(t), a.bar;
    var sooner := Less(order, a.first);
    var later := Less(a.last, order);
    Aggregate(b.(high := Max(b.high, t.price), low := Min(b.low, t.price), volume := b.volume + t.volume,
                 open := if sooner then t.price else b.open, close := if later then t.price else b.close),
              if sooner then order else a.first, if later then order else a.last)
  }

  function Absorbed(m: map<(string, int), Aggregate>, w: Window, t: Tick): map<(string, int), Aggregate> {
    if !Counts(w, t) then m
    else
      var k := KeyOf(t);
      if k in m then m[k := Joined(m[k], t)]
      else m[k := Aggregate(FirstBar(t), OrderOf(t), OrderOf(t))]
  }

  function Batch(rows: seq<Tick>, w: Window): map<(string, int), Aggregate> {
    if rows == [] then map[] else Absorbed(Batch(rows[..|rows| - 1], w), w, rows[|rows| - 1])
  }

  /** The fetch loop, in batches of `size` rows. */
  method MaterializeCompletedBars(rows: seq<Tick>, w: Window, size: int) returns (r: Outcome<map<(string, int), Bar>>)
    ensures r.Raised? <==> size <= 0
    ensures r.Done? ==> r.value.Keys == Batch(rows, w).Keys && forall k :: k in r.value ==> r.value[k] == Batch(rows, w)[k].bar
  {
    if size <= 0 {
      return Raised(InvalidArgument);
    }
    var m: map<(string, int), Aggregate> := map[];
    var i := 0;
    while i < |rows|
      invariant 0 <= i <= |rows| && m == Batch(rows[..i], w)
    {
      var end := if i + size < |rows| then i + size else |rows|;
      while i < end
        invariant 0 <= i <= end <= |rows| && m == Batch(rows[..i], w)
      {
        assert rows[..i + 1][..i] == rows[..i];
        m := Absorbed(m, w, rows[i]);
        i := i + 1;
      }
    }
    assert rows[..|rows|] == rows;
    r := Done(map k | k in m :: m[k].bar);
  }

  // ------------------------------------------------------- order independence

  ghost predicate DistinctOrders(rows: seq<Tick>) {
    forall i, j :: 0 <= i < j < |rows| ==> OrderOf(rows[i]) != OrderOf(rows[j])
  }

  lemma JoinedCommutes(a: Aggregate, s: Tick, t: Tick)
    requires OrderOf(s) != OrderOf(t)
    ensures Joined(Joined(a, s), t) == Joined(Joined(a, t), s)
  {
  }

  lemma FirstTwoCommute(s: Tick, t: Tick)
    requires OrderOf(s) != OrderOf(t) && KeyOf(s) == KeyOf(t)
    ensures Joined(Aggregate(FirstBar(s), OrderOf(s), OrderOf(s)), t) == Joined(Aggregate(FirstBar(t), OrderOf(t), OrderOf(t)), s)
  {
  }

  lemma AbsorbedCommutes(m: map<(string, int), Aggregate>, w: Window, s: Tick, t: Tick)
    requires OrderOf(s) != OrderOf(t)
    ensures Absorbed(Absorbed(m, w, s), w, t) == Absorbed(Absorbed(m, w, t), w, s)
  {
    hide Joined, FirstBar, Counts;
    if KeyOf(s) == KeyOf(t) {
      if KeyOf(s) in m {
        JoinedCommutes(m[KeyOf(s)], s, t);
      } else {
        FirstTwoCommute(s, t);
      }
    }
  }

  lemma {:induction false} MovedToEnd(front: seq<Tick>, x: Tick, back: seq<Tick>, w: Window)
    requires forall i :: 0 <= i < |back| ==> OrderOf(back[i]) != OrderOf(x)
    ensures Batch(front + [x] + back, w) == Batch(front + back + [x], w)
  {
    hide Absorbed;
    if back == [] {
      assert front + [x] + back == front + back + [x];
    } else {
      var rest, y := back[..|back| - 1], back[|back| - 1];
      MovedToEnd(front, x, rest, w);
      assert front + [x] + back == (front + [x] + rest) + [y];
      assert front + back + [x] == (front + rest + [y]) + [x];
      BatchStep(front + [x] + rest, y, w);
      BatchStep(front + rest, x, w);
      BatchStep(front + rest + [y], x, w);
      BatchStep(front + rest, y, w);
      AbsorbedCommutes(Batch(front + rest, w), w, x, y);
    }
  }

  lemma BatchStep(rows: seq<Tick>, t: Tick, w: Window)
    ensures Batch(rows + [t], w) == Absorbed(Batch(rows, w), w, t)
  {
    assert (rows + [t])[..|rows|] == rows;
  }

  /** Taking one row out of a reading of the rows. */
  lemma OneRowOut(front: seq<Tick>, x: Tick, before: seq<Tick>, back: seq<Tick>)
    requires multiset(before + [x] + back) == multiset(front + [x]) && DistinctOrders(front + [x])
    ensures multiset(front) == multiset(before + back)
    ensures forall k :: 0 <= k < |back| ==> OrderOf(back[k]) != OrderOf(x)
  {
    hide OrderOf;
    SameRest(front, x, before, back);
    NoClash(front, x, before, back);
  }

  lemma SameRest(front: seq<Tick>, x: Tick, before: seq<Tick>, back: seq<Tick>)
    requires multiset(before + [x] + back) == multiset(front + [x])
    ensures multiset(front) == multiset(before + back)
  {
    assert multiset(before + [x] + back) == multiset(before + back) + multiset{x};
    assert multiset(front + [x]) == multiset(front) + multiset{x};
    assert multiset(front) == multiset(front + [x]) - multiset{x};
  }

  lemma NoClash(front: seq<Tick>, x: Tick, before: seq<Tick>, back: seq<Tick>)
    requires multiset(front) == multiset(before + back) && DistinctOrders(front + [x])
    ensures forall k :: 0 <= k < |back| ==> OrderOf(back[k]) != OrderOf(x)
  {
    hide OrderOf;
    forall k | 0 <= k < |back|
      ensures OrderOf(back[k]) != OrderOf(x)
    {
      assert back[k] in multiset(before + back) && back[k] in multiset(front);
      var j :| 0 <= j < |front| && front[j] == back[k];
      assert (front + [x])[j] == front[j] && (front + [x])[|front|] == x;
    }
  }

  lemma SplitAt(rows: seq<Tick>, x: Tick) returns (before: seq<Tick>, back: seq<Tick>)
    requires x in multiset(rows)
    ensures rows == before + [x] + back
  {
    var i :| 0 <= i < |rows| && rows[i] == x;
    before, back := rows[..i], rows[i + 1..];
  }

  lemma FrontDistinct(front: seq<Tick>, x: Tick)
    requires DistinctOrders(front + [x])
    ensures DistinctOrders(front)
  {
    hide OrderOf;
    assert forall i :: 0 <= i < |front| ==> (front + [x])[i] == front[i];
  }

  /** The bars do not depend on the order the rows are read in. */
  lemma {:induction false} BatchOrderIndependent(rows: seq<Tick>, others: seq<Tick>, w: Window)
    requires multiset(rows) == multiset(others) && DistinctOrders(rows)
    ensures Batch(rows, w) == Batch(others, w)
    decreases |rows|
  {
    hide Absorbed, OrderOf, DistinctOrders;
    if rows == [] {
      assert |others| == |multiset(others)| == 0;
    } else {
      var front, x := rows[..|rows| - 1], rows[|rows| - 1];
      assert rows == front + [x] && x in multiset(rows);
      var before, back := SplitAt(others, x);
      OneRowOut(front, x, before, back);
      MovedToEnd(before, x, back, w);
      FrontDistinct(front, x);
      BatchOrderIndependent(front, before + back, w);
      BatchStep(front, x, w);
      BatchStep(before + back, x, w);
    }
  }

  // ------------------------------------------------- batch against streaming

  /** A minute that is over and wholly inside the window. */
  predicate Inside(w: Window, start: int) {
    start % MINUTE == 0 && w.start <= start && start + MINUTE <= w.watermark
  }

  lemma InsideCounts(w: Window, t: Tick)
    requires Inside(w, StartOf(t.at))
    ensures Counts(w, t)
  {
  }

  /** Read in the order of storage, the batch has the bar of every inside minute. */
  lemma {:induction false} BatchMatches(ts: seq<Tick>, symbol: string, w: Window, start: int)
    requires Chronological(ts, symbol) && Inside(w, start)
    ensures (symbol, start) in Batch(ts, w) <==> MinuteOf(ts, symbol, start).Some?
    ensures (symbol, start) in Batch(ts, w) ==>
              var a := Batch(ts, w)[(symbol, start)];
              a.bar == MinuteOf(ts, symbol, start).value && (exists i :: 0 <= i < |ts| && a.last == OrderOf(ts[i]))
              && (exists i :: 0 <= i < |ts| && a.first == OrderOf(ts[i]))
  {
    if ts != [] {
      var front, t := ts[..|ts| - 1], ts[|ts| - 1];
      BatchMatches(front, symbol, w, start);
      if StartOf(t.at) == start {
        InsideCounts(w, t);
        if (symbol, start) in Batch(front, w) {
          var a := Batch(front, w)[(symbol, start)];
          var i :| 0 <= i < |front| && a.last == OrderOf(front[i]);
          var j :| 0 <= j < |front| && a.first == OrderOf(front[j]);
          assert front[i] == ts[i] && front[j] == ts[j] && Earlier(ts[i], t) && Earlier(ts[j], t);
        }
        assert ts[|ts| - 1] == t;
      }
      if (symbol, start) in Batch(front, w) && StartOf(t.at) != start {
        var a := Batch(front, w)[(symbol, start)];
        var i :| 0 <= i < |front| && a.last == OrderOf(front[i]);
        var j :| 0 <= j < |front| && a.first == OrderOf(front[j]);
        assert front[i] == ts[i] && front[j] == ts[j];
      }
    }
  }

  /** For every completed minute wholly inside the window the batch, whatever order
      it reads the rows in, has a bar exactly when the streaming builder has, and
      it is the same bar. */
  lemma BatchEqualsStreaming(ts: seq<Tick>, rows: seq<Tick>, symbol: string, w: Window, start: int)
    requires Chronological(ts, symbol) && multiset(rows) == multiset(ts) && Inside(w, start)
    ensures Streamed(ts).Done?
    ensures (symbol, start) in Batch(rows, w) <==> exists b :: HasBar(Streamed(ts).value.All(), b) && b.start == start
    ensures forall b :: HasBar(Streamed(ts).value.All(), b) && b.start == start ==>
              (symbol, start) in Batch(rows, w) && Batch(rows, w)[(symbol, start)].bar == b
  {
    hide Batch, MinuteOf, Streamed, Updated;
    forall i, j | 0 <= i < j < |ts|
      ensures OrderOf(ts[i]) != OrderOf(ts[j])
    {
      assert Earlier(ts[i], ts[j]);
    }
    BatchOrderIndependent(ts, rows, w);
    StreamingMatches(ts, symbol);
    BatchMatches(ts, symbol, w, start);
    var s := Streamed(ts).value;
    if s.current.Some? {
      forall b
        ensures HasBar(s.All(), b) <==> HasBar(s.bars, b) || b == s.current.value
      {
        HasBarAppend(s.bars, s.current.value, b);
      }
      MinuteStart(ts, symbol, start);
    } else {
      NoTicks(symbol);
    }
  }

  lemma {:induction false} MinuteStart(ts: seq<Tick>, symbol: string, start: int)
    ensures MinuteOf(ts, symbol, start).Some? ==> MinuteOf(ts, symbol, start).value.start == start
  {
    if ts != [] {
      MinuteStart(ts[..|ts| - 1], symbol, start);
    }
  }

  // ------------------------------------------------------ shape and volume

  function Volume(ts: seq<Tick>): int {
    if ts == [] then 0 else Volume(ts[..|ts| - 1]) + ts[|ts| - 1].volume
  }

  function BarVolume(bars: seq<Bar>): int {
    if bars == [] then 0 else BarVolume(bars[..|bars| - 1]) + bars[|bars| - 1].volume
  }

  /** The volume of the counted ticks of one minute. */
  function VolumeAt(rows: seq<Tick>, w: Window, k: (string, int)): int {
    if rows == [] then 0
    else
      var t := rows[|rows| - 1];
      VolumeAt(rows[..|rows| - 1], w, k) + if Counts(w, t) && KeyOf(t) == k then t.volume else 0
  }

  lemma BarVolumeAppend(bars: seq<Bar>, b: Bar)
    ensures BarVolume(bars + [b]) == BarVolume(bars) + b.volume
  {
    assert (bars + [b])[..|bars|] == bars;
  }

  /** Every bar of the builder is well shaped, and together they hold the volume
      of the whole stream. */
  lemma {:induction false} StreamConserves(ts: seq<Tick>)
    requires Streamed(ts).Done?
    ensures var s := Streamed(ts).value;
            && (forall i :: 0 <= i < |s.bars| ==> Shaped(s.bars[i])) && (s.current.Some? ==> Shaped(s.current.value))
            && BarVolume(s.All()) == Volume(ts)
  {
    if ts != [] {
      StreamConserves(ts[..|ts| - 1]);
      var s, n, t := Streamed(ts[..|ts| - 1]).value, Streamed(ts).value, ts[|ts| - 1];
      if s.current.Some? {
        BarVolumeAppend(s.bars, s.current.value);
      }
      BarVolumeAppend(n.bars, n.current.value);
    }
  }

  /** Every batch bar is well shaped and holds the volume of its counted ticks. */
  lemma {:induction false} BatchConserves(rows: seq<Tick>, w: Window, k: (string, int))
    ensures k in Batch(rows, w) ==> Shaped(Batch(rows, w)[k].bar) && Batch(rows, w)[k].bar.volume == VolumeAt(rows, w, k)
    ensures k !in Batch(rows, w) ==> VolumeAt(rows, w, k) == 0
  {
    if rows != [] {
      BatchConserves(rows[..|rows| - 1], w, k);
    }
  }
}
