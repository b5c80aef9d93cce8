/**
 * What the controller's operations compute, stated as functions of the
 * upstream answers: the five-day timeslot map, the running maxima and mean of
 * the grouped forecast, and the fail-fast rule that decides when the grouped
 * loop stops.
 */
module ForecastSpec {
  import opened Wrappers
  import opened Models
  import opened WeatherClient

  // ---------------------------------------------------------------- five days

  /** One value of the five-day response: the three readings of a timeslot. */
  datatype Reading = Reading(temp: real, pressure: real, humidity: real)

  function ReadingOf(t: Timeslot): Reading {
    Reading(t.main.temp, t.main.pressure, t.main.humidity)
  }

  /** The response map after assigning every timeslot of `list` in order (last write wins). */
  function FiveDays(list: seq<Timeslot>): (m: map<string, Reading>)
    ensures |list| > 0 ==> list[|list| - 1].dtTxt in m && m[list[|list| - 1].dtTxt] == ReadingOf(list[|list| - 1])
    ensures |list| == 0 ==> m == map[]
    decreases |list|
  {
    if |list| == 0 then map[]
    else
      var last := list[|list| - 1];
      FiveDays(list[..|list| - 1])[last.dtTxt := ReadingOf(last)]
  }

  /** The timestamps occurring in a forecast list. */
  ghost function Stamps(list: seq<Timeslot>): set<string> {
    set i | 0 <= i < |list| :: list[i].dtTxt
  }

  ghost predicate DistinctStamps(list: seq<Timeslot>) {
    forall i, j :: 0 <= i < j < |list| ==> list[i].dtTxt != list[j].dtTxt
  }

  /** The keys of the map are exactly the timestamps of the list. */
  lemma {:induction false} FiveDaysKeys(list: seq<Timeslot>)
    ensures FiveDays(list).Keys == Stamps(list)
    decreases |list|
  {
    if |list| > 0 {
      var n := |list|;
      var prefix := list[..n - 1];
      FiveDaysKeys(prefix);
      assert Stamps(list) == Stamps(prefix) + {list[n - 1].dtTxt} by {
        forall s | s in Stamps(list) ensures s in Stamps(prefix) + {list[n - 1].dtTxt} {
          var i :| 0 <= i < n && list[i].dtTxt == s;
          if i < n - 1 { assert prefix[i] == list[i]; }
        }
        forall s | s in Stamps(prefix) ensures s in Stamps(list) {
          var i :| 0 <= i < n - 1 && prefix[i].dtTxt == s;
          assert list[i] == prefix[i];
        }
      }
    }
  }

  /** The value under a timestamp is the reading of the last timeslot bearing it. */
  lemma {:induction false} FiveDaysLastWins(list: seq<Timeslot>, i: nat)
    requires i < |list|
    requires forall j :: i < j < |list| ==> list[j].dtTxt != list[i].dtTxt
    ensures list[i].dtTxt in FiveDays(list)
    ensures FiveDays(list)[list[i].dtTxt] == ReadingOf(list[i])
    decreases |list|
  {
    var n := |list|;
    if i < n - 1 {
      var prefix := list[..n - 1];
      assert prefix[i] == list[i];
      FiveDaysLastWins(prefix, i);
    }
  }

  /** With distinct timestamps there is one key per timeslot. */
  lemma {:induction false} FiveDaysSize(list: seq<Timeslot>)
    requires DistinctStamps(list)
    ensures |FiveDays(list)| == |list|
    decreases |list|
  {
    if |list| > 0 {
      var n := |list|;
      var prefix := list[..n - 1];
      assert DistinctStamps(prefix) by {
        forall i, j | 0 <= i < j < |prefix| ensures prefix[i].dtTxt != prefix[j].dtTxt {
          assert prefix[i] == list[i] && prefix[j] == list[j];
        }
      }
      FiveDaysSize(prefix);
      FiveDaysKeys(prefix);
      forall i | 0 <= i < n - 1 ensures prefix[i].dtTxt != list[n - 1].dtTxt {
        assert prefix[i] == list[i];
      }
      assert list[n - 1].dtTxt !in Stamps(prefix);
      var m := FiveDays(prefix);
      assert FiveDays(list).Keys == m.Keys + {list[n - 1].dtTxt};
    }
  }

  /**
   * The JavaScript TypeError of `for (... of results.list)` when `results` is
   * an error record that the discriminant let through (the text is V8's).
   */
  const ListNotIterable := ErrorRecord("TypeError", "results.list is not iterable", Undefined, None)

  /** The five-day operation once the city is valid, given what the client returned. */
  function FiveDaysOutcome(r: Returned<ThreeHourForecast>): (o: Outcome<map<string, Reading>>)
    ensures IsClientError(r) ==> o == Throw(r.error)
    ensures r.Record? && !IsClientError(r) ==> o == Throw(ListNotIterable)
    ensures r.Data? ==> o == Return(FiveDays(r.data.list))
    ensures r.Data? ==> o.Return? && o.value.Keys == Stamps(r.data.list)
  {
    if IsClientError(r) then Throw(r.error)
    else if r.Record? then Throw(ListNotIterable)
    else
      FiveDaysKeys(r.data.list);
      Return(FiveDays(r.data.list))
  }

  // ------------------------------------------------------------------ grouped

  /** `{cityName, value}` of a running maximum; `cityName` is `null` until a city wins. */
  datatype Highest = Highest(cityName: Option<string>, value: real)

  const Sentinel := Highest(None, -999.0)

  /** The two readings the grouped forecast maximises independently. */
  datatype Measure = Humidity | Temperature

  function Read(cw: CurrentWeather, m: Measure): real {
    match m
    case Humidity => cw.main.humidity
    case Temperature => cw.main.temp
  }

  /** One step of the running maximum: a strictly greater reading replaces the leader. */
  function Step(h: Highest, cw: CurrentWeather, m: Measure): (r: Highest)
    ensures r.value >= h.value && r.value >= Read(cw, m)
    ensures r == h || r == Highest(Some(cw.name), Read(cw, m))
  {
    if Read(cw, m) > h.value then Highest(Some(cw.name), Read(cw, m)) else h
  }

  /** The running maximum after visiting `fs` in order, starting from the sentinel. */
  function HighestOf(fs: seq<CurrentWeather>, m: Measure): (r: Highest)
    ensures r.value >= Sentinel.value
    ensures forall i :: 0 <= i < |fs| ==> Read(fs[i], m) <= r.value
    decreases |fs|
  {
    if |fs| == 0 then Sentinel
    else Step(HighestOf(fs[..|fs| - 1], m), fs[|fs| - 1], m)
  }

  /** When no reading exceeds the sentinel, the result stays `{null, -999}`. */
  lemma {:induction false} HighestStaysSentinel(fs: seq<CurrentWeather>, m: Measure)
    requires forall j :: 0 <= j < |fs| ==> Read(fs[j], m) <= -999.0
    ensures HighestOf(fs, m) == Sentinel
    decreases |fs|
  {
    if |fs| > 0 {
      var prefix := fs[..|fs| - 1];
      assert forall j :: 0 <= j < |prefix| ==> prefix[j] == fs[j];
      HighestStaysSentinel(prefix, m);
    }
  }

  /**
   * When some reading exceeds the sentinel, the result is the maximum reading
   * and the upstream name of the first city attaining it.
   */
  lemma {:induction false} HighestIsFirstMaximum(fs: seq<CurrentWeather>, m: Measure) returns (k: nat)
    requires exists i :: 0 <= i < |fs| && Read(fs[i], m) > -999.0
    ensures k < |fs|
    ensures HighestOf(fs, m) == Highest(Some(fs[k].name), Read(fs[k], m))
    ensures forall j :: 0 <= j < |fs| ==> Read(fs[j], m) <= Read(fs[k], m)
    ensures forall j :: 0 <= j < k ==> Read(fs[j], m) < Read(fs[k], m)
    decreases |fs|
  {
    var n := |fs|;
    var prefix := fs[..n - 1];
    assert forall j :: 0 <= j < n - 1 ==> prefix[j] == fs[j];
    if exists i :: 0 <= i < n - 1 && Read(prefix[i], m) > -999.0 {
      var kp := HighestIsFirstMaximum(prefix, m);
      if Read(fs[n - 1], m) > Read(fs[kp], m) {
        k := n - 1;
      } else {
        k := kp;
      }
    } else {
      HighestStaysSentinel(prefix, m);
      k := n - 1;
    }
  }

  /** The temperatures collected by the grouped loop: one per city, in order. */
  function Temperatures(fs: seq<CurrentWeather>): (ts: seq<real>)
    ensures |ts| == |fs|
    ensures forall i :: 0 <= i < |fs| ==> ts[i] == fs[i].main.temp
  {
    seq(|fs|, i requires 0 <= i < |fs| => fs[i].main.temp)
  }

  /** `reduce((a, b) => a + b, 0)`: a left fold from 0. */
  function Sum(ts: seq<real>): (r: real)
    ensures |ts| == 1 ==> r == ts[0]
    ensures (forall i :: 0 <= i < |ts| ==> ts[i] >= 0.0) ==> r >= 0.0
    decreases |ts|
  {
    if |ts| == 0 then 0.0 else Sum(ts[..|ts| - 1]) + ts[|ts| - 1]
  }

  /** `n` copies of `x` added up. */
  function Times(n: nat, x: real): (r: real)
    ensures r == (n as real) * x
  {
    if n == 0 then 0.0 else Times(n - 1, x) + x
  }

  /** The sum of readings within [lo, hi] lies within count * lo and count * hi. */
  lemma {:induction false} SumBounds(ts: seq<real>, lo: real, hi: real)
    requires forall i :: 0 <= i < |ts| ==> lo <= ts[i] <= hi
    ensures Times(|ts|, lo) <= Sum(ts) <= Times(|ts|, hi)
    decreases |ts|
  {
    if |ts| > 0 {
      var init := ts[..|ts| - 1];
      assert forall i :: 0 <= i < |init| ==> init[i] == ts[i];
      SumBounds(init, lo, hi);
    }
  }

  /** The mean temperature lies between the lowest and the highest collected temperature. */
  lemma MeanBounds(ts: seq<real>, lo: real, hi: real)
    requires |ts| > 0
    requires forall i :: 0 <= i < |ts| ==> lo <= ts[i] <= hi
    ensures lo <= Mean(ts).value <= hi
  {
    SumBounds(ts, lo, hi);
    QuotientBounds(Sum(ts), |ts|, lo, hi);
  }

  lemma QuotientBounds(s: real, n: nat, lo: real, hi: real)
    requires n > 0 && Times(n, lo) <= s <= Times(n, hi)
    ensures lo <= s / (n as real) <= hi
  {
    var k := n as real;
    assert (s / k) * k == s;
  }

  /** Sum over count; `None` stands for the NaN of an empty list. */
  function Mean(ts: seq<real>): (r: Option<real>)
    ensures r.None? <==> |ts| == 0
    ensures r.Some? ==> r.value * (|ts| as real) == Sum(ts)
  {
    if |ts| == 0 then None else Some(Sum(ts) / (|ts| as real))
  }

  datatype GroupedForecast = GroupedForecast(meanTemp: Option<real>, highestHumidity: Highest, highestTemperature: Highest)

  /** The grouped response built from the successful payloads of every city. */
  function Aggregate(fs: seq<CurrentWeather>): GroupedForecast {
    GroupedForecast(Mean(Temperatures(fs)), HighestOf(fs, Humidity), HighestOf(fs, Temperature))
  }

  /**
   * The JavaScript TypeError of `cityForecast.main.temp` when `cityForecast`
   * is an error record that the discriminant let through (the text is V8's).
   */
  const MainUndefined := ErrorRecord("TypeError", "Cannot read properties of undefined (reading 'temp')", Undefined, None)

  /** The index of the first answer that ends the grouped loop, or |rs| when none does. */
  function FirstStop(rs: seq<Returned<CurrentWeather>>): (k: nat)
    ensures k <= |rs|
    ensures forall j :: 0 <= j < k ==> rs[j].Data?
    ensures k < |rs| ==> rs[k].Record?
    decreases |rs|
  {
    if |rs| == 0 || rs[0].Record? then 0 else 1 + FirstStop(rs[1..])
  }

  /** What ends the loop at a non-payload answer: the error itself, or the TypeError. */
  function StopError(r: Returned<CurrentWeather>): (e: ErrorRecord)
    requires r.Record?
    ensures IsClientError(r) ==> e == r.error
    ensures !IsClientError(r) ==> e == MainUndefined
    ensures IsClientErrorRecord(e) <==> IsClientError(r)
  {
    if IsClientError(r) then r.error else MainUndefined
  }

  /** The successful payloads, when every answer is one. */
  function Payloads(rs: seq<Returned<CurrentWeather>>): (fs: seq<CurrentWeather>)
    requires forall j :: 0 <= j < |rs| ==> rs[j].Data?
    ensures |fs| == |rs|
    ensures forall j :: 0 <= j < |rs| ==> rs[j] == Data(fs[j])
  {
    seq(|rs|, j requires 0 <= j < |rs| => rs[j].data)
  }

  /** The grouped operation given the answer for each city in registry order. */
  function Grouped(rs: seq<Returned<CurrentWeather>>): (o: Outcome<GroupedForecast>)
    ensures o.Throw? <==> exists i :: 0 <= i < |rs| && rs[i].Record?
    ensures o.Return? ==> (forall j :: 0 <= j < |rs| ==> rs[j].Data?) && o.value == Aggregate(Payloads(rs))
  {
    var k := FirstStop(rs);
    if k < |rs| then Throw(StopError(rs[k])) else Return(Aggregate(Payloads(rs)))
  }

  /** How many cities the grouped loop queries: up to and including the first that stops it. */
  ghost function Queried(rs: seq<Returned<CurrentWeather>>): (q: nat)
    ensures q <= |rs|
    ensures forall j :: 0 <= j < q - 1 ==> rs[j].Data?
    ensures q < |rs| ==> q > 0 && rs[q - 1].Record?
    ensures (forall j :: 0 <= j < |rs| ==> rs[j].Data?) ==> q == |rs|
  {
    var k := FirstStop(rs);
    if k < |rs| then k + 1 else |rs|
  }

  /** Fail-fast: the first failing city's error is thrown and no later city is queried. */
  lemma GroupedFailFast(rs: seq<Returned<CurrentWeather>>, i: nat)
    requires i < |rs| && rs[i].Record?
    requires forall j :: 0 <= j < i ==> rs[j].Data?
    ensures Grouped(rs) == Throw(StopError(rs[i]))
    ensures IsClientError(rs[i]) ==> Grouped(rs) == Throw(rs[i].error)
    ensures Queried(rs) == i + 1
  {
  }

  /** Without a failure every city is queried and the aggregate of all payloads is returned. */
  lemma GroupedAllSucceed(rs: seq<Returned<CurrentWeather>>)
    requires forall j :: 0 <= j < |rs| ==> rs[j].Data?
    ensures Queried(rs) == |rs|
    ensures Grouped(rs) == Return(Aggregate(Payloads(rs)))
    ensures |rs| > 0 ==> Grouped(rs).value.meanTemp.Some?
  {
  }

  /** The three-city example: mean 20, warmest B at 30, most humid C at 90. */
  lemma GroupedExample()
    ensures
      var a := CurrentWeather("A", Main(20.0, 1000.0, 50.0));
      var b := CurrentWeather("B", Main(30.0, 1000.0, 40.0));
      var c := CurrentWeather("C", Main(10.0, 1000.0, 90.0));
      Aggregate([a, b, c]) == GroupedForecast(Some(20.0), Highest(Some("C"), 90.0), Highest(Some("B"), 30.0))
  {
    var a := CurrentWeather("A", Main(20.0, 1000.0, 50.0));
    var b := CurrentWeather("B", Main(30.0, 1000.0, 40.0));
    var c := CurrentWeather("C", Main(10.0, 1000.0, 90.0));
    var fs := [a, b, c];
    assert fs[..2] == [a, b] && fs[..2][..1] == [a] && [a][..0] == [];
    var ts := Temperatures(fs);
    assert ts == [20.0, 30.0, 10.0];
    assert ts[..2] == [20.0, 30.0] && ts[..2][..1] == [20.0] && [20.0][..0] == [];
    assert Sum([20.0]) == 20.0;
    assert Sum([20.0, 30.0]) == 50.0;
    assert Sum(ts) == 60.0;
    assert HighestOf([a], Humidity) == Highest(Some("A"), 50.0);
    assert HighestOf([a, b], Humidity) == Highest(Some("A"), 50.0);
    assert HighestOf([a], Temperature) == Highest(Some("A"), 20.0);
    assert HighestOf([a, b], Temperature) == Highest(Some("B"), 30.0);
  }
}
