/** The range-ring registry of the notifier and the pure decisions made on
    it: which configuration sections become rings, the ascending-radius
    order, the first unfired ring a sonde satisfies, and the list of
    prefixed ring names one firing marks as notified. */
module RangeRings {
  import opened Common

  const RangeRingPrefix := "range_ring_"
  /** Prefix of the dedup names written by the live-position check. */
  const LivePrefix := ""
  /** Prefix of the dedup names written by the landing-prediction check. */
  const PredictionPrefix := "prediction_"

  /** A configuration section as far as ring parsing reads it: a
      `range_ring_*` section carries radius and max_altitude (kilometres). */
  datatype SectionValues = RingValues(radiusKm: real, maxAltitudeKm: real) | OtherValues
  datatype Section = Section(name: string, values: SectionValues)

  /** One registry entry: the section key and its thresholds in metres. */
  datatype Ring = Ring(key: string, radius: real, maxAltitude: real)

  predicate IsRingSection(s: Section)
  {
    StartsWith(s.name, RangeRingPrefix)
  }

  /** Every `range_ring_*` section has both thresholds (the source raises a
      KeyError otherwise). */
  predicate RingSectionsComplete(config: seq<Section>)
  {
    forall i :: 0 <= i < |config| && IsRingSection(config[i]) ==> config[i].values.RingValues?
  }

  function ToRing(s: Section): Ring
    requires s.values.RingValues?
  {
    Ring(s.name, s.values.radiusKm * 1000.0, s.values.maxAltitudeKm * 1000.0)
  }

  /** The ring entries of a configuration, in configuration order. */
  function RingsOf(config: seq<Section>): seq<Ring>
    requires RingSectionsComplete(config)
  {
    if |config| == 0 then []
    else
      var last := config[|config| - 1];
      assert RingSectionsComplete(config[..|config| - 1]);
      RingsOf(config[..|config| - 1]) + if IsRingSection(last) then [ToRing(last)] else []
  }

  lemma {:induction false} RingsOfMembers(config: seq<Section>)
    requires RingSectionsComplete(config)
    ensures forall r :: r in RingsOf(config) <==>
      exists i :: 0 <= i < |config| && IsRingSection(config[i]) && r == ToRing(config[i])
    ensures forall r :: r in RingsOf(config) ==> StartsWith(r.key, RangeRingPrefix)
  {
    if |config| > 0 {
      var init := config[..|config| - 1];
      RingsOfMembers(init);
      forall r | (exists i :: 0 <= i < |config| && IsRingSection(config[i]) && r == ToRing(config[i]))
        ensures r in RingsOf(config)
      {
        var i :| 0 <= i < |config| && IsRingSection(config[i]) && r == ToRing(config[i]);
        if i < |config| - 1 {
          assert init[i] == config[i];
        }
      }
    }
  }

  // ---------------------------------------------------------------------
  // Stable sort by radius (Python's `sorted(..., key=radius)`)

  predicate SortedByRadius(rings: seq<Ring>)
  {
    forall i, j :: 0 <= i < j < |rings| ==> rings[i].radius <= rings[j].radius
  }

  /** The entries with radius v, in their order: a stable sort keeps this. */
  function WithRadius(rings: seq<Ring>, v: real): seq<Ring>
  {
    if |rings| == 0 then []
    else WithRadius(rings[..|rings| - 1], v)
         + if rings[|rings| - 1].radius == v then [rings[|rings| - 1]] else []
  }

  /** Places r after every entry whose radius is not larger than its own. */
  function InsertByRadius(sorted: seq<Ring>, r: Ring): seq<Ring>
  {
    if |sorted| == 0 || sorted[|sorted| - 1].radius <= r.radius then sorted + [r]
    else InsertByRadius(sorted[..|sorted| - 1], r) + [sorted[|sorted| - 1]]
  }

  function SortByRadius(rings: seq<Ring>): seq<Ring>
  {
    if |rings| == 0 then []
    else InsertByRadius(SortByRadius(rings[..|rings| - 1]), rings[|rings| - 1])
  }

  lemma {:induction false} InsertByRadiusPermutes(sorted: seq<Ring>, r: Ring)
    ensures multiset(InsertByRadius(sorted, r)) == multiset(sorted) + multiset{r}
  {
    if !(|sorted| == 0 || sorted[|sorted| - 1].radius <= r.radius) {
      var init, last := sorted[..|sorted| - 1], sorted[|sorted| - 1];
      InsertByRadiusPermutes(init, r);
      assert sorted == init + [last];
    }
  }

  lemma {:induction false} InsertByRadiusStable(sorted: seq<Ring>, r: Ring, v: real)
    requires SortedByRadius(sorted)
    ensures WithRadius(InsertByRadius(sorted, r), v) == WithRadius(sorted, v) + if r.radius == v then [r] else []
  {
    var res := InsertByRadius(sorted, r);
    if |sorted| == 0 || sorted[|sorted| - 1].radius <= r.radius {
      assert res[..|res| - 1] == sorted;
    } else {
      var init, last := sorted[..|sorted| - 1], sorted[|sorted| - 1];
      var mid := InsertByRadius(init, r);
      InsertByRadiusStable(init, r, v);
      assert res[..|res| - 1] == mid;
    }
  }

  lemma {:induction false} InsertByRadiusSorted(sorted: seq<Ring>, r: Ring)
    requires SortedByRadius(sorted)
    ensures SortedByRadius(InsertByRadius(sorted, r))
  {
    if !(|sorted| == 0 || sorted[|sorted| - 1].radius <= r.radius) {
      var init, last := sorted[..|sorted| - 1], sorted[|sorted| - 1];
      var mid := InsertByRadius(init, r);
      var res := mid + [last];
      InsertByRadiusSorted(init, r);
      InsertByRadiusPermutes(init, r);
      forall i | 0 <= i < |mid| ensures mid[i].radius <= last.radius {
        assert mid[i] in multiset(mid);
        if mid[i] != r {
          assert mid[i] in multiset(init);
          var k :| 0 <= k < |init| && init[k] == mid[i];
          assert sorted[k] == mid[i];
        }
      }
      forall i, j | 0 <= i < j < |res| ensures res[i].radius <= res[j].radius {
        assert res[i] == mid[i];
        if j < |res| - 1 {
          assert res[j] == mid[j];
        }
      }
    }
  }

  lemma {:induction false} SortByRadiusCorrect(rings: seq<Ring>)
    ensures SortedByRadius(SortByRadius(rings))
    ensures multiset(SortByRadius(rings)) == multiset(rings)
    ensures forall v :: WithRadius(SortByRadius(rings), v) == WithRadius(rings, v)
  {
    if |rings| > 0 {
      var init, last := rings[..|rings| - 1], rings[|rings| - 1];
      SortByRadiusCorrect(init);
      InsertByRadiusSorted(SortByRadius(init), last);
      InsertByRadiusPermutes(SortByRadius(init), last);
      forall v ensures WithRadius(SortByRadius(rings), v) == WithRadius(rings, v) {
        InsertByRadiusStable(SortByRadius(init), last, v);
      }
      assert rings == init + [last];
    }
  }

  /** The registry the notifier keeps: the ring entries sorted by radius. */
  function Registry(config: seq<Section>): seq<Ring>
    requires RingSectionsComplete(config)
  {
    SortByRadius(RingsOf(config))
  }

  /** Each `range_ring_*` section yields one entry (radius and max altitude
      times 1000); the registry is ascending by radius and keeps the
      configuration order among equal radii. */
  lemma RegistryCorrect(config: seq<Section>)
    requires RingSectionsComplete(config)
    ensures SortedByRadius(Registry(config))
    ensures forall r :: r in Registry(config) <==>
      exists i :: 0 <= i < |config| && IsRingSection(config[i]) && r == ToRing(config[i])
    ensures forall v :: WithRadius(Registry(config), v) == WithRadius(RingsOf(config), v)
    ensures forall r :: r in Registry(config) ==> StartsWith(r.key, RangeRingPrefix)
    ensures |Registry(config)| == |RingsOf(config)|
  {
    var rings := RingsOf(config);
    SortByRadiusCorrect(rings);
    RingsOfMembers(config);
    forall r ensures r in Registry(config) <==> r in rings {
      assert r in Registry(config) <==> r in multiset(Registry(config));
      assert r in rings <==> r in multiset(rings);
    }
    assert |Registry(config)| == |multiset(Registry(config))| == |multiset(rings)| == |rings|;
  }

  // ---------------------------------------------------------------------
  // Ring check and telescoping mark (`_check_range_rings`, `_set_ring_notified`)

  /** Whether `ring` fires for a sonde at the given (truncated) distance and
      altitude, given the prefixed names already notified for it. */
  predicate Fires(ring: Ring, notified: seq<string>, prefix: string, distance: real, altitude: real)
  {
    && prefix + ring.key !in notified
    && Trunc(distance) as real <= ring.radius
    && Trunc(altitude) as real <= ring.maxAltitude
  }

  /** Index of the first ring, in registry order, that fires. */
  function FirstUnfired(rings: seq<Ring>, notified: seq<string>, prefix: string,
                        distance: real, altitude: real): (r: Option<nat>)
    ensures r.Some? ==> r.value < |rings| && Fires(rings[r.value], notified, prefix, distance, altitude)
    ensures r.Some? ==> forall j :: 0 <= j < r.value ==> !Fires(rings[j], notified, prefix, distance, altitude)
    ensures r.None? ==> forall j :: 0 <= j < |rings| ==> !Fires(rings[j], notified, prefix, distance, altitude)
    decreases |rings|
  {
    if |rings| == 0 then None
    else if Fires(rings[0], notified, prefix, distance, altitude) then Some(0)
    else match FirstUnfired(rings[1..], notified, prefix, distance, altitude)
      case None => None
      case Some(i) => Some(i + 1)
  }

  /** In an ascending registry the ring returned has the smallest radius of
      all rings that fire. */
  lemma FirstUnfiredIsTightest(rings: seq<Ring>, notified: seq<string>, prefix: string,
                               distance: real, altitude: real)
    requires SortedByRadius(rings)
    ensures var r := FirstUnfired(rings, notified, prefix, distance, altitude);
      r.Some? ==> forall j :: 0 <= j < |rings| && Fires(rings[j], notified, prefix, distance, altitude)
                             ==> rings[r.value].radius <= rings[j].radius
  {
  }

  /** The result depends on the notified list only through which rings fire. */
  lemma {:induction false} FirstUnfiredCongruent(rings: seq<Ring>, n1: seq<string>, n2: seq<string>,
                                                 prefix: string, distance: real, altitude: real)
    requires forall i :: 0 <= i < |rings| ==>
      (prefix + rings[i].key in n1 <==> prefix + rings[i].key in n2)
    ensures FirstUnfired(rings, n1, prefix, distance, altitude) == FirstUnfired(rings, n2, prefix, distance, altitude)
    decreases |rings|
  {
    if |rings| > 0 {
      FirstUnfiredCongruent(rings[1..], n1, n2, prefix, distance, altitude);
    }
  }

  predicate AllDigitIds(rings: seq<Ring>)
  {
    forall i :: 0 <= i < |rings| ==> HasDigitId(rings[i].key)
  }

  predicate AllRingKeys(rings: seq<Ring>)
  {
    forall i :: 0 <= i < |rings| ==> StartsWith(rings[i].key, RangeRingPrefix)
  }

  /** The names `_set_ring_notified` appends, in registry order: the prefixed
      key of every ring whose trailing-digit id is at least `id`. */
  function Marked(rings: seq<Ring>, prefix: string, id: nat): seq<string>
    requires AllDigitIds(rings)
  {
    if |rings| == 0 then []
    else
      var last := rings[|rings| - 1];
      Marked(rings[..|rings| - 1], prefix, id) + if IdOf(last.key) >= id then [prefix + last.key] else []
  }

  lemma {:induction false} MarkedMembers(rings: seq<Ring>, prefix: string, id: nat)
    requires AllDigitIds(rings)
    ensures forall s :: s in Marked(rings, prefix, id) <==>
      exists i :: 0 <= i < |rings| && IdOf(rings[i].key) >= id && s == prefix + rings[i].key
  {
    if |rings| > 0 {
      var init := rings[..|rings| - 1];
      MarkedMembers(init, prefix, id);
      forall s | exists i :: 0 <= i < |rings| && IdOf(rings[i].key) >= id && s == prefix + rings[i].key
        ensures s in Marked(rings, prefix, id)
      {
        var i :| 0 <= i < |rings| && IdOf(rings[i].key) >= id && s == prefix + rings[i].key;
        if i < |rings| - 1 {
          assert init[i] == rings[i];
        }
      }
    }
  }

  /** The ring that fired is always among the names it marks. */
  lemma MarkedIncludesRing(rings: seq<Ring>, prefix: string, i: nat)
    requires AllDigitIds(rings) && i < |rings|
    ensures prefix + rings[i].key in Marked(rings, prefix, IdOf(rings[i].key))
  {
    MarkedMembers(rings, prefix, IdOf(rings[i].key));
  }

  /** Telescoping dedup: once a ring with id `id` has been marked under a
      prefix, no ring with an id at least `id` fires again under that
      prefix, whatever the later distance and altitude. */
  lemma MarkingSuppresses(rings: seq<Ring>, notified: seq<string>, prefix: string, id: nat,
                          distance: real, altitude: real)
    requires AllDigitIds(rings)
    ensures forall j :: 0 <= j < |rings| && IdOf(rings[j].key) >= id ==>
      !Fires(rings[j], notified + Marked(rings, prefix, id), prefix, distance, altitude)
    ensures var r := FirstUnfired(rings, notified + Marked(rings, prefix, id), prefix, distance, altitude);
      r.Some? ==> IdOf(rings[r.value].key) < id
  {
    MarkedMembers(rings, prefix, id);
  }

  /** Prefix isolation: marking under one prefix leaves the check under the
      other prefix exactly as it was, because membership is tested on the
      whole prefixed name and the two namespaces cannot collide. */
  lemma PrefixIsolation(rings: seq<Ring>, notified: seq<string>, id: nat, distance: real, altitude: real)
    requires AllDigitIds(rings) && AllRingKeys(rings)
    ensures FirstUnfired(rings, notified + Marked(rings, LivePrefix, id), PredictionPrefix, distance, altitude)
         == FirstUnfired(rings, notified, PredictionPrefix, distance, altitude)
    ensures FirstUnfired(rings, notified + Marked(rings, PredictionPrefix, id), LivePrefix, distance, altitude)
         == FirstUnfired(rings, notified, LivePrefix, distance, altitude)
  {
    MarkedMembers(rings, LivePrefix, id);
    MarkedMembers(rings, PredictionPrefix, id);
    forall i, j | 0 <= i < |rings| && 0 <= j < |rings|
      ensures PredictionPrefix + rings[i].key != LivePrefix + rings[j].key
    {
      StartsWithConcat(PredictionPrefix, rings[i].key);
      assert LivePrefix + rings[j].key == rings[j].key;
      DistinctPrefixes(PredictionPrefix + rings[i].key, rings[j].key, PredictionPrefix, RangeRingPrefix, 0);
    }
    FirstUnfiredCongruent(rings, notified + Marked(rings, LivePrefix, id), notified, PredictionPrefix, distance, altitude);
    FirstUnfiredCongruent(rings, notified + Marked(rings, PredictionPrefix, id), notified, LivePrefix, distance, altitude);
  }
}
