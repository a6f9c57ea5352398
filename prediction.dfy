/** The landing-prediction request: the query sent to the Tawhiri API for a
    sonde's current position, and the reading of its answer. The HTTP call,
    JSON decoding and the text form of floats are parameters. */
module Prediction {
  import opened Common

  /** The landing point; the landing time is kept as the API's ISO text. */
  datatype LandingPrediction = LandingPrediction(latitude: real, longitude: real, altitude: real, landingTime: string)

  /** The configured API endpoint and flight profile (rates in m/s, burst
      altitude in metres). */
  datatype PredictionEngine = PredictionEngine(apiUrl: string, ascentRate: real, burstAltitude: int, descentRate: real)

  /** A query value as Python formats it: a float, an int or a text. */
  datatype ParamValue = Float(f: real) | Integer(i: int) | Text(t: string)
  datatype Param = Param(name: string, value: ParamValue)

  /** The seven query parameters, in the order they are sent. */
  const ParamNames: seq<string> := ["launch_latitude", "launch_longitude", "launch_altitude", "launch_datetime",
                                    "ascent_rate", "burst_altitude", "descent_rate"]

  /** `s.split(c)[0]`: the text before the first `c`, or all of `s`. */
  function BeforeFirst(s: string, c: char): (r: string)
    ensures StartsWith(s, r)
    ensures forall j :: 0 <= j < |r| ==> r[j] != c
    ensures |r| < |s| ==> s[|r|] == c
  {
    s[..IndexOfAny(s, {c})]
  }

  /** `launch_datetime`: the ISO text up to its first '+', then "Z". */
  function Timestamp(iso: string): string
  {
    BeforeFirst(iso, '+') + "Z"
  }

  /** A time with a "+hh:mm" offset loses the offset and gains "Z". */
  lemma TimestampStripsOffset(local: string, offset: string)
    requires forall j :: 0 <= j < |local| ==> local[j] != '+'
    ensures Timestamp(local + "+" + offset) == local + "Z"
  {
    var s := local + "+" + offset;
    assert s[|local|] == '+';
    assert forall j :: 0 <= j < |local| ==> s[j] == local[j];
    assert BeforeFirst(s, '+') == s[..|local|] == local;
  }

  /** A time without '+' (a naive time, or a negative offset, which the
      split does not remove) is sent whole, followed by "Z". */
  lemma TimestampWithoutPlus(iso: string)
    requires forall j :: 0 <= j < |iso| ==> iso[j] != '+'
    ensures Timestamp(iso) == iso + "Z"
  {
    assert BeforeFirst(iso, '+') == iso[..|iso|] == iso;
  }

  /** The burst altitude: when descending, the truncated altitude plus 0.1
      so that the ascent is skipped; otherwise the configured one. */
  function BurstAltitude(e: PredictionEngine, altitude: real, descending: bool): ParamValue
  {
    if descending then Float(Trunc(altitude) as real + 0.1) else Integer(e.burstAltitude)
  }

  /** For a descending sonde at a non-negative altitude, the burst point is
      within a metre below, and at most 0.1 m above, the current altitude,
      and 0.1 m above the launch altitude that is sent. */
  lemma DescendingBurstNearAltitude(e: PredictionEngine, altitude: real)
    requires altitude >= 0.0
    ensures BurstAltitude(e, altitude, true).Float?
    ensures BurstAltitude(e, altitude, true).f == Trunc(altitude) as real + 0.1
    ensures altitude - 0.9 < BurstAltitude(e, altitude, true).f <= altitude + 0.1
  {
    TruncTowardZero(altitude);
  }

  /** The query parameters of `run_landing_prediction`. */
  function Query(e: PredictionEngine, startIso: string, latitude: real, longitude: real,
                 altitude: real, descending: bool): (ps: seq<Param>)
    ensures |ps| == |ParamNames| && forall i :: 0 <= i < |ps| ==> ps[i].name == ParamNames[i]
    ensures ps[0].value == Float(latitude) && ps[1].value == Float(longitude)
    ensures ps[2].value == Integer(Trunc(altitude)) && ps[3].value == Text(Timestamp(startIso))
    ensures ps[4].value == Float(e.ascentRate) && ps[6].value == Float(e.descentRate)
    ensures ps[5].value == if descending then Float(Trunc(altitude) as real + 0.1) else Integer(e.burstAltitude)
  {
    [Param(ParamNames[0], Float(latitude)),
     Param(ParamNames[1], Float(longitude)),
     Param(ParamNames[2], Integer(Trunc(altitude))),
     Param(ParamNames[3], Text(Timestamp(startIso))),
     Param(ParamNames[4], Float(e.ascentRate)),
     Param(ParamNames[5], BurstAltitude(e, altitude, descending)),
     Param(ParamNames[6], Float(e.descentRate))]
  }

  /** The text of a value; how floats and ints are printed is a parameter. */
  function Show(v: ParamValue, showFloat: real -> string, showInt: int -> string): string
  {
    match v
    case Float(f) => showFloat(f)
    case Integer(i) => showInt(i)
    case Text(t) => t
  }

  /** `name=value` for each parameter. */
  function Rendered(ps: seq<Param>, showFloat: real -> string, showInt: int -> string): (fields: seq<string>)
    ensures |fields| == |ps|
    ensures forall i :: 0 <= i < |ps| ==> fields[i] == ps[i].name + "=" + Show(ps[i].value, showFloat, showInt)
  {
    if |ps| == 0 then []
    else [ps[0].name + "=" + Show(ps[0].value, showFloat, showInt)] + Rendered(ps[1..], showFloat, showInt)
  }

  /** The parts joined with `sep` between each two. */
  function Join(parts: seq<string>, sep: char): string
  {
    if |parts| == 0 then ""
    else if |parts| == 1 then parts[0]
    else parts[0] + [sep] + Join(parts[1..], sep)
  }

  /** `s.split(sep)`. */
  function Split(s: string, sep: char): (parts: seq<string>)
    ensures |parts| >= 1
    decreases |s|
  {
    var i := IndexOfAny(s, {sep});
    if i == |s| then [s] else [s[..i]] + Split(s[i + 1..], sep)
  }

  /** Splitting the joined parts on the separator gives the parts back when
      none of them contains it. */
  lemma {:induction false} SplitJoin(parts: seq<string>, sep: char)
    requires |parts| >= 1
    requires forall i, j :: 0 <= i < |parts| && 0 <= j < |parts[i]| ==> parts[i][j] != sep
    ensures Split(Join(parts, sep), sep) == parts
  {
    var p := parts[0];
    if |parts| == 1 {
      assert IndexOfAny(p, {sep}) == |p|;
    } else {
      var rest := Join(parts[1..], sep);
      var s := p + [sep] + rest;
      assert Join(parts, sep) == s;
      assert forall j :: 0 <= j < |p| ==> s[j] == p[j] && s[j] != sep;
      assert s[|p|] == sep;
      assert IndexOfAny(s, {sep}) == |p|;
      assert s[..|p|] == p && s[|p| + 1..] == rest;
      SplitJoin(parts[1..], sep);
      assert [p] + parts[1..] == parts;
    }
  }

  /** The request URL: the API URL, '?', and the parameters joined by '&'. */
  function RequestUrl(e: PredictionEngine, startIso: string, latitude: real, longitude: real, altitude: real,
                      descending: bool, showFloat: real -> string, showInt: int -> string): string
  {
    e.apiUrl + "?" + Join(Rendered(Query(e, startIso, latitude, longitude, altitude, descending), showFloat, showInt), '&')
  }

  lemma ParamNamesHaveNoAmpersand()
    ensures forall i, j :: 0 <= i < |ParamNames| && 0 <= j < |ParamNames[i]| ==> ParamNames[i][j] != '&'
  {
  }

  /** The query string splits on '&' into the seven `name=value` fields in
      the fixed order, provided no value's text contains '&'. */
  lemma RequestUrlFields(e: PredictionEngine, startIso: string, latitude: real, longitude: real, altitude: real,
                         descending: bool, showFloat: real -> string, showInt: int -> string)
    requires var ps := Query(e, startIso, latitude, longitude, altitude, descending);
      forall i, j :: 0 <= i < |ps| && 0 <= j < |Show(ps[i].value, showFloat, showInt)| ==>
        Show(ps[i].value, showFloat, showInt)[j] != '&'
    ensures var ps := Query(e, startIso, latitude, longitude, altitude, descending);
      var url := RequestUrl(e, startIso, latitude, longitude, altitude, descending, showFloat, showInt);
      StartsWith(url, e.apiUrl + "?")
      && var fields := Split(url[|e.apiUrl| + 1..], '&');
      |fields| == |ParamNames|
      && forall i :: 0 <= i < |fields| ==> fields[i] == ParamNames[i] + "=" + Show(ps[i].value, showFloat, showInt)
  {
    var ps := Query(e, startIso, latitude, longitude, altitude, descending);
    var fields := Rendered(ps, showFloat, showInt);
    var q := Join(fields, '&');
    var url := e.apiUrl + "?" + q;
    ParamNamesHaveNoAmpersand();
    forall i, j | 0 <= i < |fields| && 0 <= j < |fields[i]|
      ensures fields[i][j] != '&'
    {
      var name := ParamNames[i];
      var shown := Show(ps[i].value, showFloat, showInt);
      assert fields[i] == name + "=" + shown;
      if j < |name| {
        assert fields[i][j] == name[j];
      } else if j > |name| {
        assert fields[i][j] == shown[j - |name| - 1];
      }
    }
    SplitJoin(fields, '&');
    assert url[..|e.apiUrl| + 1] == e.apiUrl + "?";
    assert url[|e.apiUrl| + 1..] == q;
  }

  /** A trajectory point of the API's answer. */
  datatype Point = Point(latitude: real, longitude: real, altitude: real, datetime: string)
  /** A stage of the prediction (ascent, then descent). */
  datatype Stage = Stage(trajectory: seq<Point>)
  /** The response body after `json.loads`. */
  datatype Body = DecodeError | Decoded(stages: seq<Stage>)
  /** What the GET request gives: an exception, or a status and a body. */
  datatype HttpOutcome = RequestError | Response(status: int, body: Body)

  /** A decoded 200 answer that has a second stage with a non-empty
      trajectory; any other decoded 200 answer raises in the source. */
  predicate HasLanding(o: HttpOutcome)
  {
    o.Response? && o.status == 200 && o.body.Decoded? ==>
      |o.body.stages| >= 2 && |o.body.stages[1].trajectory| > 0
  }

  /** The reading of the answer: each failure gives None; otherwise the
      last point of the second stage. */
  function Interpret(o: HttpOutcome): (r: Option<LandingPrediction>)
    requires HasLanding(o)
    ensures r.None? <==> o.RequestError? || o.status != 200 || o.body.DecodeError?
    ensures r.Some? ==>
      var trajectory := o.body.stages[1].trajectory;
      var last := trajectory[|trajectory| - 1];
      r.value.latitude == last.latitude && r.value.longitude == last.longitude
      && r.value.altitude == last.altitude && r.value.landingTime == last.datetime
  {
    if o.RequestError? || o.status != 200 then None
    else match o.body
      case DecodeError => None
      case Decoded(stages) =>
        var trajectory := stages[1].trajectory;
        var last := trajectory[|trajectory| - 1];
        Some(LandingPrediction(last.latitude, last.longitude, last.altitude, last.datetime))
  }

  /** `run_landing_prediction`: build the URL, fetch it, read the answer. */
  function RunLandingPrediction(e: PredictionEngine, startIso: string, latitude: real, longitude: real,
                                altitude: real, descending: bool, showFloat: real -> string,
                                showInt: int -> string, fetch: string -> HttpOutcome): (r: Option<LandingPrediction>)
    requires HasLanding(fetch(RequestUrl(e, startIso, latitude, longitude, altitude, descending, showFloat, showInt)))
    ensures var o := fetch(RequestUrl(e, startIso, latitude, longitude, altitude, descending, showFloat, showInt));
      r.None? <==> o.RequestError? || o.status != 200 || o.body.DecodeError?
  {
    Interpret(fetch(RequestUrl(e, startIso, latitude, longitude, altitude, descending, showFloat, showInt)))
  }

  /** Altitudes with the same integer part send the same query, so they get
      the same prediction. */
  lemma SameUrlSamePrediction(e: PredictionEngine, startIso: string, latitude: real, longitude: real,
                              altitude: real, altitude': real, descending: bool, showFloat: real -> string,
                              showInt: int -> string, fetch: string -> HttpOutcome)
    requires Trunc(altitude) == Trunc(altitude')
    requires HasLanding(fetch(RequestUrl(e, startIso, latitude, longitude, altitude, descending, showFloat, showInt)))
    ensures HasLanding(fetch(RequestUrl(e, startIso, latitude, longitude, altitude', descending, showFloat, showInt)))
    ensures RunLandingPrediction(e, startIso, latitude, longitude, altitude, descending, showFloat, showInt, fetch)
         == RunLandingPrediction(e, startIso, latitude, longitude, altitude', descending, showFloat, showInt, fetch)
  {
    assert Query(e, startIso, latitude, longitude, altitude, descending) == Query(e, startIso, latitude, longitude, altitude', descending);
  }
}
