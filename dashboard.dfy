/**
 * `DashboardView` of dashboard_view.py without its widgets: the trend-arrow and
 * colour lookups of `update_data`, and the point pipeline of `_update_graph`, which
 * picks a timestamp and a value out of every graph point, parses them and keeps
 * the points that parse, in order. The datetime parsers and `float()` are opaque
 * partial functions supplied by the caller; `T` is the type of a parsed datetime.
 */
module Dashboard {
  import opened Wrappers
  import opened PyValue
  import opened PyStrings
  import Protocol
  import opened SeqFacts

  /** The arrows for trend codes 1 to 5: falling quickly, falling, stable, rising, rising quickly. */
  const Arrows: seq<string> := ["\U{2193}", "\U{2198}", "\U{2192}", "\U{2197}", "\U{2191}"]

  const Green: string := "#2ecc71"
  const Yellow: string := "#f1c40f"
  const Red: string := "#e74c3c"

  /**
   * `trends.get(trend, "")` on the dict keyed by the ints 1 to 5. A number equal to
   * one of the keys (True and 2.0 included) finds its arrow; any other hashable value
   * finds "". A list or a dict cannot be hashed, so the lookup raises: None.
   */
  function TrendArrow(trend: Value): (r: Option<string>)
    ensures r.None? <==> trend.List? || trend.Obj?
    ensures forall j :: 0 <= j < |Arrows| ==> (r == Some(Arrows[j]) <==> Number(trend) == Some((j + 1) as real))
    ensures r == Some("") <==> !trend.List? && !trend.Obj?
                               && (Number(trend).None? || Number(trend).value !in {1.0, 2.0, 3.0, 4.0, 5.0})
  {
    if trend.List? || trend.Obj? then None
    else if Number(trend) == Some(1.0) then Some(Arrows[0])
    else if Number(trend) == Some(2.0) then Some(Arrows[1])
    else if Number(trend) == Some(3.0) then Some(Arrows[2])
    else if Number(trend) == Some(4.0) then Some(Arrows[3])
    else if Number(trend) == Some(5.0) then Some(Arrows[4])
    else Some("")
  }

  /** Reads a trend code back from the arrow shown; "" and unknown text give None. */
  function TrendCode(arrow: string): (k: Option<int>)
    ensures k.Some? ==> 1 <= k.value <= 5 && Arrows[k.value - 1] == arrow
  {
    if arrow == Arrows[0] then Some(1)
    else if arrow == Arrows[1] then Some(2)
    else if arrow == Arrows[2] then Some(3)
    else if arrow == Arrows[3] then Some(4)
    else if arrow == Arrows[4] then Some(5)
    else None
  }

  /** Every trend code comes back from its arrow: no two codes share an arrow. */
  lemma TrendArrowRoundTrip(k: int)
    requires 1 <= k <= 5
    ensures TrendArrow(Int(k)).Some? && TrendCode(TrendArrow(Int(k)).value) == Some(k)
  {
  }

  /**
   * The reading colour: `color_idx == 2` is yellow, `== 3` is red, everything else
   * (1, None, strings, a missing key defaulting to 1) is green. The tray uses the same rule.
   */
  function ReadingColor(idx: Value): (color: string)
    ensures color == Yellow <==> Number(idx) == Some(2.0)
    ensures color == Red <==> Number(idx) == Some(3.0)
    ensures color == Green <==> Number(idx) != Some(2.0) && Number(idx) != Some(3.0)
  {
    if PyEq(idx, Int(2)) then Yellow
    else if PyEq(idx, Int(3)) then Red
    else Green
  }

  /** Python `a or b or c`: the first truthy operand, or the last one when none is. */
  function Or(vs: seq<Value>): (r: Value)
    requires vs != []
    ensures Truthy(r) <==> exists i :: 0 <= i < |vs| && Truthy(vs[i])
    ensures !Truthy(r) ==> r == vs[|vs| - 1]
    ensures Truthy(r) ==> exists i :: 0 <= i < |vs| && vs[i] == r && forall j :: 0 <= j < i ==> !Truthy(vs[j])
  {
    if |vs| == 1 || Truthy(vs[0]) then vs[0]
    else
      var r := Or(vs[1..]);
      assert Truthy(r) ==> exists i :: 0 <= i < |vs| && vs[i] == r && forall j :: 0 <= j < i ==> !Truthy(vs[j]) by {
        if Truthy(r) {
          var i :| 0 <= i < |vs[1..]| && vs[1..][i] == r && forall j :: 0 <= j < i ==> !Truthy(vs[1..][j]);
          assert vs[i + 1] == r;
          forall j | 0 < j < i + 1 ensures !Truthy(vs[j]) {
            assert vs[j] == vs[1..][j - 1];
          }
        }
      }
      assert Truthy(r) <==> exists i :: 0 <= i < |vs| && Truthy(vs[i]) by {
        if exists i :: 0 <= i < |vs| && Truthy(vs[i]) {
          var i :| 0 <= i < |vs| && Truthy(vs[i]);
          assert i > 0 && vs[1..][i - 1] == vs[i];
        }
        if Truthy(r) {
          var i :| 0 <= i < |vs[1..]| && Truthy(vs[1..][i]);
          assert vs[i + 1] == vs[1..][i];
        }
      }
      r
  }

  /** Line 114: the first truthy of "Timestamp", "timestamp" and "FactoryTimestamp". */
  function TimestampField(p: map<string, Value>): Value
  {
    Or([Lookup(p, "Timestamp", Null), Lookup(p, "timestamp", Null), Lookup(p, "FactoryTimestamp", Null)])
  }

  /** Line 116: the first truthy of "ValueInMgPerDl", "Value" and "value". */
  function ValueField(p: map<string, Value>): Value
  {
    Or([Lookup(p, "ValueInMgPerDl", Null), Lookup(p, "Value", Null), Lookup(p, "value", Null)])
  }

  /** `datetime.fromisoformat`, `datetime.strptime` and `float()`: None where they raise. */
  datatype Parsers<T> = Parsers(
    fromIso: string -> Option<T>,
    strptime: (string, string) -> Option<T>,
    toFloat: Value -> Option<real>)

  /** The strptime formats, tried in this order after the ISO attempt. */
  const StrptimeFormats: seq<string> := ["%m/%d/%Y %I:%M:%S %p", "%m/%d/%Y %H:%M:%S", "%Y-%m-%d %H:%M:%S"]

  /** The first format of `fmts` that parses `s`. */
  function FirstFormat<T>(strptime: (string, string) -> Option<T>, s: string, fmts: seq<string>): (r: Option<T>)
    ensures r.Some? <==> exists i :: 0 <= i < |fmts| && strptime(s, fmts[i]).Some?
    ensures r.Some? ==> exists i :: 0 <= i < |fmts| && r == strptime(s, fmts[i])
                                    && forall j :: 0 <= j < i ==> strptime(s, fmts[j]).None?
  {
    if fmts == [] then None
    else if strptime(s, fmts[0]).Some? then strptime(s, fmts[0])
    else
      var r := FirstFormat(strptime, s, fmts[1..]);
      assert r.Some? ==> exists i :: 0 <= i < |fmts| && r == strptime(s, fmts[i])
                                     && forall j :: 0 <= j < i ==> strptime(s, fmts[j]).None? by {
        if r.Some? {
          var i :| 0 <= i < |fmts[1..]| && r == strptime(s, fmts[1..][i])
                   && forall j :: 0 <= j < i ==> strptime(s, fmts[1..][j]).None?;
          assert fmts[i + 1] == fmts[1..][i];
          forall j | 0 < j < i + 1 ensures strptime(s, fmts[j]).None? {
            assert fmts[j] == fmts[1..][j - 1];
          }
        }
      }
      assert r.None? ==> forall i :: 0 <= i < |fmts| ==> strptime(s, fmts[i]).None? by {
        if r.None? {
          forall i | 0 < i < |fmts| ensures strptime(s, fmts[i]).None? {
            assert fmts[i] == fmts[1..][i - 1];
          }
        }
      }
      r
  }

  /** Lines 120-143: ISO on the cut string first, then each format on the stripped string. */
  function ParseTimestamp<T>(parsers: Parsers<T>, stripped: string): (r: Option<T>)
    ensures parsers.fromIso(IsoCandidate(stripped)).Some? ==> r == parsers.fromIso(IsoCandidate(stripped))
    ensures parsers.fromIso(IsoCandidate(stripped)).None? ==> r == FirstFormat(parsers.strptime, stripped, StrptimeFormats)
    ensures r.Some? <==>
      parsers.fromIso(IsoCandidate(stripped)).Some?
      || exists i :: 0 <= i < |StrptimeFormats| && parsers.strptime(stripped, StrptimeFormats[i]).Some?
  {
    match parsers.fromIso(IsoCandidate(stripped))
    case Some(t) => Some(t)
    case None => FirstFormat(parsers.strptime, stripped, StrptimeFormats)
  }

  /** What becomes of one graph point. */
  datatype Point<T> = Raises | Skip | Keep(time: T, value: real)

  /**
   * One turn of the loop of `_update_graph`. A point that is not a dict raises at
   * its first `.get`; a point without a truthy timestamp, with a `None` value, with
   * no parsable timestamp or with a value `float()` refuses is skipped.
   */
  function NormalizePoint<T>(p: Value, parsers: Parsers<T>, show: Value -> string): (r: Point<T>)
    ensures r.Raises? <==> !p.Obj?
    ensures r.Keep? <==>
      && p.Obj? && Truthy(TimestampField(p.fields)) && !ValueField(p.fields).Null?
      && ParseTimestamp(parsers, Strip(Text(TimestampField(p.fields), show))).Some?
      && parsers.toFloat(ValueField(p.fields)).Some?
    ensures r.Keep? ==>
      && Some(r.time) == ParseTimestamp(parsers, Strip(Text(TimestampField(p.fields), show)))
      && Some(r.value) == parsers.toFloat(ValueField(p.fields))
  {
    if !p.Obj? then Raises
    else
      var ts := TimestampField(p.fields);
      var v := ValueField(p.fields);
      if !Truthy(ts) || v.Null? then Skip
      else
        match ParseTimestamp(parsers, Strip(Text(ts, show)))
        case None => Skip
        case Some(t) =>
          match parsers.toFloat(v)
          case None => Skip
          case Some(x) => Keep(t, x)
  }

  /** The outcome of `_update_graph`: the series plotted, or an exception that left the axes empty. */
  datatype Plot<T> = Plotted(times: seq<T>, values: seq<real>) | GraphRaised

  /** One turn of the loop: a raise so far or now ends it, a kept point is appended. */
  function Extend<T>(prev: Plot<T>, p: Point<T>): Plot<T>
  {
    match prev
    case GraphRaised => GraphRaised
    case Plotted(times, values) =>
      match p
      case Raises => GraphRaised
      case Skip => prev
      case Keep(t, x) => Plotted(times + [t], values + [x])
  }

  /** The loop of `_update_graph` over a list of points, defined from its last turn. */
  function NormalizeList<T>(items: seq<Value>, parsers: Parsers<T>, show: Value -> string): (r: Plot<T>)
    ensures r.Plotted? ==> |r.times| == |r.values| <= |items|
  {
    if items == [] then Plotted([], [])
    else Extend(NormalizeList(items[..|items| - 1], parsers, show), NormalizePoint(items[|items| - 1], parsers, show))
  }

  /**
   * `_update_graph(graph_points)`: a falsy payload plots nothing; a truthy one that
   * is not a list raises as soon as it is iterated (a string or a dict yields
   * strings, which have no `.get`; a number is not iterable).
   */
  function Normalize<T>(points: Value, parsers: Parsers<T>, show: Value -> string): (r: Plot<T>)
    ensures !Truthy(points) ==> r == Plotted([], [])
    ensures r.Plotted? <==> !Truthy(points) || (points.List? && AllDicts(points.items))
    ensures r.Plotted? && points.List? ==> |r.times| == |r.values| <= |points.items|
  {
    if !Truthy(points) then Plotted([], [])
    else if !points.List? then GraphRaised
    else
      RaisesOnlyOnNonDict(points.items, parsers, show);
      NormalizeList(points.items, parsers, show)
  }

  /** Two outcomes one after the other: the series concatenated, or the first exception. */
  function Then<T>(a: Plot<T>, b: Plot<T>): Plot<T>
  {
    if a.GraphRaised? || b.GraphRaised? then GraphRaised
    else Plotted(a.times + b.times, a.values + b.values)
  }

  /** One more turn of the loop after a prefix that did not raise. */
  lemma NormalizeStep<T>(items: seq<Value>, n: nat, parsers: Parsers<T>, show: Value -> string)
    requires n < |items| && NormalizeList(items[..n], parsers, show).Plotted?
    ensures var prev := NormalizeList(items[..n], parsers, show);
      var r := NormalizeList(items[..n + 1], parsers, show);
      match NormalizePoint(items[n], parsers, show)
      case Raises => r == GraphRaised
      case Skip => r == prev
      case Keep(t, x) => r == Plotted(prev.times + [t], prev.values + [x])
  {
    assert items[..n + 1][..n] == items[..n];
  }

  /** One point alone: kept, dropped or raising. */
  lemma OnePoint<T>(p: Value, parsers: Parsers<T>, show: Value -> string)
    ensures var r := NormalizeList([p], parsers, show);
      match NormalizePoint(p, parsers, show)
      case Raises => r == GraphRaised
      case Skip => r == Plotted([], [])
      case Keep(t, x) => r == Plotted([t], [x])
  {
    assert [p][..0] == [];
  }

  /** The outcome of a list with one more point at the end. */
  lemma NormalizeSnoc<T>(init: seq<Value>, p: Value, parsers: Parsers<T>, show: Value -> string)
    ensures NormalizeList(init + [p], parsers, show)
         == Extend(NormalizeList(init, parsers, show), NormalizePoint(p, parsers, show))
  {
    assert (init + [p])[..|init|] == init;
  }

  /** Running one more turn after two outcomes is running it after the second. */
  lemma ThenExtend<T>(left: Plot<T>, mid: Plot<T>, p: Point<T>)
    ensures Then(left, Extend(mid, p)) == Extend(Then(left, mid), p)
  {
    if left.Plotted? && mid.Plotted? && p.Keep? {
      AppendAssoc(left.times, mid.times, [p.time]);
      AppendAssoc(left.values, mid.values, [p.value]);
    }
  }

  /**
   * The points are processed independently and in order: the outcome of `a + b` is
   * the outcome of `a` followed by that of `b`. No point is reordered or merged.
   */
  lemma {:induction false} NormalizeConcat<T>(a: seq<Value>, b: seq<Value>, parsers: Parsers<T>, show: Value -> string)
    ensures NormalizeList(a + b, parsers, show)
         == Then(NormalizeList(a, parsers, show), NormalizeList(b, parsers, show))
    decreases |b|
  {
    if b == [] {
      assert a + b == a;
    } else {
      var n := |b| - 1;
      var left := NormalizeList(a, parsers, show);
      var mid := NormalizeList(b[..n], parsers, show);
      var last := NormalizePoint(b[n], parsers, show);
      SplitLast(b);
      AppendAssoc(a, b[..n], [b[n]]);
      calc {
        NormalizeList(a + b, parsers, show);
        { NormalizeSnoc(a + b[..n], b[n], parsers, show); }
        Extend(NormalizeList(a + b[..n], parsers, show), last);
        { NormalizeConcat(a, b[..n], parsers, show); }
        Extend(Then(left, mid), last);
        { ThenExtend(left, mid, last); }
        Then(left, Extend(mid, last));
      }
    }
  }

  /** An exception ends the loop: whatever follows a raising prefix, the whole list raises. */
  lemma RaisedPrefix<T>(items: seq<Value>, n: nat, parsers: Parsers<T>, show: Value -> string)
    requires n <= |items| && NormalizeList(items[..n], parsers, show).GraphRaised?
    ensures NormalizeList(items, parsers, show).GraphRaised?
  {
    NormalizeConcat(items[..n], items[n..], parsers, show);
    assert items[..n] + items[n..] == items;
  }

  /** Every point of the list is a dict. */
  predicate AllDicts(items: seq<Value>)
  {
    forall i :: 0 <= i < |items| ==> items[i].Obj?
  }

  /** `_update_graph` raises exactly when some point is not a dict; nothing else escapes. */
  lemma {:induction false} RaisesOnlyOnNonDict<T>(items: seq<Value>, parsers: Parsers<T>, show: Value -> string)
    ensures NormalizeList(items, parsers, show).Plotted? <==> AllDicts(items)
    decreases |items|
  {
    if items != [] {
      var n := |items| - 1;
      RaisesOnlyOnNonDict(items[..n], parsers, show);
      RaisesStep(items, parsers, show);
      AllDictsSnoc(items);
    }
  }

  /** The last point decides, together with the points before it, whether the list raises. */
  lemma RaisesStep<T>(items: seq<Value>, parsers: Parsers<T>, show: Value -> string)
    requires items != []
    ensures NormalizeList(items, parsers, show).Plotted? <==>
      NormalizeList(items[..|items| - 1], parsers, show).Plotted? && items[|items| - 1].Obj?
  {
    var pt := NormalizePoint(items[|items| - 1], parsers, show);
    assert pt.Raises? <==> !items[|items| - 1].Obj?;
  }

  lemma AllDictsSnoc(items: seq<Value>)
    requires items != []
    ensures AllDicts(items) <==> AllDicts(items[..|items| - 1]) && items[|items| - 1].Obj?
  {
    var init := items[..|items| - 1];
    assert forall i :: 0 <= i < |init| ==> items[i] == init[i];
  }

  /**
   * A 0 in "ValueInMgPerDl" is falsy and falls through to the lower-priority keys:
   * with no other value key the point is dropped even though it carried a reading.
   */
  lemma ZeroReadingDropped<T>(ts: string, parsers: Parsers<T>, show: Value -> string)
    ensures var p := Obj(map["Timestamp" := Str(ts), "ValueInMgPerDl" := Int(0)]);
      ValueField(p.fields) == Null && NormalizePoint(p, parsers, show) == Skip
  {
    var m := map["Timestamp" := Str(ts), "ValueInMgPerDl" := Int(0)];
    assert Lookup(m, "ValueInMgPerDl", Null) == Int(0);
    assert Lookup(m, "Value", Null) == Null;
    assert Lookup(m, "value", Null) == Null;
  }

  /** The same 0 is overridden by a lower-priority key that is truthy. */
  lemma ZeroReadingOverridden()
    ensures var p := Obj(map["ValueInMgPerDl" := Int(0), "value" := Int(95)]);
      ValueField(p.fields) == Int(95)
  {
    var m := map["ValueInMgPerDl" := Int(0), "value" := Int(95)];
    assert Lookup(m, "ValueInMgPerDl", Null) == Int(0);
    assert Lookup(m, "Value", Null) == Null;
    assert Lookup(m, "value", Null) == Int(95);
  }

  /**
   * The body of the loop of `_update_graph` for one point: the key fallbacks, the
   * ISO attempt, then the inner loop over the formats, left by `break` at the first
   * one that parses, then `float()`. `Skip` stands for the source's `continue`.
   */
  method ReadPoint<T>(p: Value, parsers: Parsers<T>, show: Value -> string) returns (point: Point<T>)
    ensures point == NormalizePoint(p, parsers, show)
  {
    if !p.Obj? {
      return Raises;
    }
    var tsRaw := TimestampField(p.fields);
    var valRaw := ValueField(p.fields);
    if !Truthy(tsRaw) || valRaw.Null? {
      return Skip;
    }
    var tsStr := Strip(Text(tsRaw, show));
    var dt := parsers.fromIso(IsoCandidate(tsStr));
    if dt.None? {
      var fmts := StrptimeFormats;
      for f := 0 to |fmts|
        invariant dt.None?
        invariant FirstFormat(parsers.strptime, tsStr, fmts) == FirstFormat(parsers.strptime, tsStr, fmts[f..])
      {
        assert fmts[f..][1..] == fmts[f + 1..];
        dt := parsers.strptime(tsStr, fmts[f]);
        if dt.Some? {
          break;
        }
      }
    }
    assert dt == ParseTimestamp(parsers, tsStr);
    if dt.None? {
      return Skip;
    }
    var val := parsers.toFloat(valRaw);
    if val.None? {
      return Skip;
    }
    return Keep(dt.value, val.value);
  }

  /**
   * `_update_graph` as the source writes it: a falsy payload returns at once, then a
   * loop over the points appends each kept point to `times` and `values`.
   */
  method UpdateGraph<T>(graphPoints: Value, parsers: Parsers<T>, show: Value -> string) returns (plot: Plot<T>)
    ensures plot == Normalize(graphPoints, parsers, show)
  {
    if !Truthy(graphPoints) {
      return Plotted([], []);
    }
    if !graphPoints.List? {
      return GraphRaised;
    }
    var items := graphPoints.items;
    var times: seq<T> := [];
    var values: seq<real> := [];
    for n := 0 to |items|
      invariant NormalizeList(items[..n], parsers, show) == Plotted(times, values)
    {
      NormalizeStep(items, n, parsers, show);
      var point := ReadPoint(items[n], parsers, show);
      match point
      case Raises =>
        RaisedPrefix(items, n + 1, parsers, show);
        return GraphRaised;
      case Skip =>
      case Keep(t, x) =>
        times := times + [t];
        values := values + [x];
    }
    assert items[..|items|] == items;
    return Plotted(times, values);
  }

  /** What `update_data` leaves on screen. */
  datatype Display<T> =
    | Unchanged                                                         // falsy data: returns at once
    | Aborted                                                           // the trend lookup raised
    | Shown(reading: string, color: string, arrow: string, graph: Plot<T>)

  /**
   * `update_data(glucose_data)`: the reading as text in its colour, the trend arrow,
   * then the graph. A raising graph leaves the labels updated but not the status bar.
   */
  function Refresh<T>(data: Option<Protocol.GlucoseData>, parsers: Parsers<T>, show: Value -> string): (d: Display<T>)
    ensures data.None? ==> d == Unchanged
    ensures data.Some? && TrendArrow(data.value.current.trend).None? ==> d == Aborted
    ensures data.Some? && TrendArrow(data.value.current.trend).Some? ==> d.Shown?
    ensures d.Shown? ==>
      && data.Some?
      && d.reading == Text(data.value.current.value, show)
      && d.color == ReadingColor(data.value.current.color)
      && Some(d.arrow) == TrendArrow(data.value.current.trend)
      && d.graph == Normalize(data.value.graph, parsers, show)
  {
    match data
    case None => Unchanged
    case Some(g) =>
      match TrendArrow(g.current.trend)
      case None => Aborted
      case Some(arrow) =>
        Shown(Text(g.current.value, show), ReadingColor(g.current.color), arrow, Normalize(g.graph, parsers, show))
  }
}
