/** The notifier engine: per-sonde tracking state (latest frame, altitude
    window, notified ring names), ingestion, purging of stale sondes, the
    range-ring check and telescoping mark, the prediction gate and one
    evaluation pass over all tracked sondes. */
module Notifier {
  import opened Common
  import opened RangeRings
  import opened AutoRx

  /** A sonde is dropped once its latest frame is this old (5 h). */
  const TrackedSondesMaxSeconds: real := 18000.0
  /** Capacity of the per-sonde altitude queue; a put on a full queue blocks. */
  const WindowCapacity: nat := 5
  /** The prediction gate needs at least this many altitude samples. */
  const MinPredictionSamples: nat := 3

  /** The entry `tracked_sondes[serial]`: receive time, position, model. */
  datatype TrackedSonde = TrackedSonde(rxTime: real, latitude: real, longitude: real, altitude: real, model: string)

  /** One call of `_notify`: notification type, serial, sonde model, distance. */
  datatype Notification = Notification(kind: string, serial: string, model: string, distance: real)

  /** What the landing prediction yields for one sonde, seen from the
      station: the distance to the landing point and its altitude. */
  datatype PredictedLanding = PredictedLanding(distance: real, altitude: real)

  /** The effect of one evaluation pass on one sonde. */
  datatype SondeOutcome = SondeOutcome(notified: seq<string>, sent: seq<Notification>, requested: bool)

  predicate IsStale(entry: TrackedSonde, now: real)
  {
    now - entry.rxTime >= TrackedSondesMaxSeconds
  }

  /** The descending test: every consecutive pair strictly decreases. */
  predicate IsDescending(window: seq<real>)
  {
    forall i :: 0 <= i < |window| - 1 ==> window[i] > window[i + 1]
  }

  predicate StrictlyDecreasing(window: seq<real>)
  {
    forall i, j :: 0 <= i < j < |window| ==> window[i] > window[j]
  }

  /** The consecutive-pair test is the same as "every earlier sample is higher
      than every later one". */
  lemma {:induction false} IsDescendingIffStrictlyDecreasing(window: seq<real>)
    ensures IsDescending(window) <==> StrictlyDecreasing(window)
  {
    if IsDescending(window) && |window| > 0 {
      var init := window[..|window| - 1];
      assert IsDescending(init);
      IsDescendingIffStrictlyDecreasing(init);
      forall i, j | 0 <= i < j < |window| ensures window[i] > window[j] {
        if j < |window| - 1 {
          assert init[i] == window[i] && init[j] == window[j];
        } else if i < j - 1 {
          assert init[i] == window[i] && init[j - 1] == window[j - 1];
        }
      }
    }
  }

  lemma DescendingExamples()
    ensures IsDescending([5000.0, 4800.0, 4600.0])
    ensures !IsDescending([4600.0, 4800.0, 4600.0])
  {
    assert [4600.0, 4800.0, 4600.0][0] < [4600.0, 4800.0, 4600.0][1];
  }

  /** Whether a prediction is requested for a sonde: prediction enabled, at
      least three samples, the latest frame at most one check interval old
      (age rounded half to even), and descending when only descending
      sondes are predicted. */
  predicate PredictionGate(enabled: bool, onlyDescending: bool, window: seq<real>, age: real, interval: real)
  {
    && enabled
    && |window| >= MinPredictionSamples
    && !(RoundHalfEven(age) as real > interval)
    && !(onlyDescending && !IsDescending(window))
  }

  lemma PredictionGateNecessary(enabled: bool, onlyDescending: bool, window: seq<real>, age: real, interval: real)
    requires PredictionGate(enabled, onlyDescending, window, age, interval)
    ensures enabled && |window| >= 3
    ensures age <= interval + 0.5
    ensures onlyDescending ==> StrictlyDecreasing(window)
  {
    RoundHalfEvenNearest(age);
    IsDescendingIffStrictlyDecreasing(window);
  }

  /** A sonde's list after a range-ring check under `prefix`: when ring
      `hit` fired, it and every ring with an id at least its id are marked. */
  function MarkHit(rings: seq<Ring>, notified: seq<string>, prefix: string, hit: Option<nat>): seq<string>
    requires AllDigitIds(rings) && (hit.Some? ==> hit.value < |rings|)
  {
    if hit.None? then notified else notified + Marked(rings, prefix, IdOf(rings[hit.value].key))
  }

  /** The notification a range-ring check under `prefix` sends: none, or
      one naming the prefixed key of the ring that fired. */
  function HitSent(rings: seq<Ring>, prefix: string, hit: Option<nat>, serial: string, model: string, distance: real)
    : seq<Notification>
    requires hit.Some? ==> hit.value < |rings|
  {
    if hit.None? then [] else [Notification(prefix + rings[hit.value].key, serial, model, distance)]
  }

  /** The evaluation of one sonde: the live check under the empty prefix and,
      when the gate is open and a prediction is available, the prediction
      check under `prediction_`; each hit is notified and then marked. */
  function CheckSonde(rings: seq<Ring>, serial: string, sonde: TrackedSonde, notified: seq<string>,
                      distance: real, gateOpen: bool, landing: Option<PredictedLanding>): SondeOutcome
    requires AllDigitIds(rings)
  {
    var live := FirstUnfired(rings, notified, LivePrefix, distance, sonde.altitude);
    var afterLive := MarkHit(rings, notified, LivePrefix, live);
    var liveSent := HitSent(rings, LivePrefix, live, serial, sonde.model, distance);
    if !gateOpen || landing.None? then SondeOutcome(afterLive, liveSent, gateOpen)
    else
      var l := landing.value;
      var hit := FirstUnfired(rings, afterLive, PredictionPrefix, l.distance, l.altitude);
      SondeOutcome(MarkHit(rings, afterLive, PredictionPrefix, hit),
                   liveSent + HitSent(rings, PredictionPrefix, hit, serial, sonde.model, l.distance),
                   true)
  }

  /** One pass sends at most one live and one prediction notification per
      sonde; the live one names the first unfired ring the sonde satisfies,
      and the prediction one is decided as if the live ring had not been
      marked in the same pass (prefix isolation). */
  lemma CheckSondeSends(rings: seq<Ring>, serial: string, sonde: TrackedSonde, notified: seq<string>,
                                distance: real, gateOpen: bool, landing: Option<PredictedLanding>)
    requires AllDigitIds(rings) && AllRingKeys(rings)
    ensures var o := CheckSonde(rings, serial, sonde, notified, distance, gateOpen, landing);
      var live := FirstUnfired(rings, notified, LivePrefix, distance, sonde.altitude);
      var predicted := if gateOpen && landing.Some?
        then FirstUnfired(rings, notified, PredictionPrefix, landing.value.distance, landing.value.altitude)
        else None;
      && o.requested == gateOpen
      && |o.sent| == (if live.Some? then 1 else 0) + (if predicted.Some? then 1 else 0)
      && (live.Some? ==> o.sent[0] == Notification(rings[live.value].key, serial, sonde.model, distance))
      && (predicted.Some? ==>
            o.sent[|o.sent| - 1] ==
            Notification(PredictionPrefix + rings[predicted.value].key, serial, sonde.model, landing.value.distance))
  {
    var live := FirstUnfired(rings, notified, LivePrefix, distance, sonde.altitude);
    if live.Some? && gateOpen && landing.Some? {
      PrefixIsolation(rings, notified, IdOf(rings[live.value].key), landing.value.distance, landing.value.altitude);
    }
  }

  lemma CheckSondeRequested(rings: seq<Ring>, serial: string, sonde: TrackedSonde, notified: seq<string>,
                             distance: real, gateOpen: bool, landing: Option<PredictedLanding>)
    requires AllDigitIds(rings)
    ensures CheckSonde(rings, serial, sonde, notified, distance, gateOpen, landing).requested == gateOpen
  {
  }

  /** After a pass in which a ring fired live, that ring and every ring with a
      greater or equal id never fire live again for the sonde. */
  lemma CheckSondeTelescopes(rings: seq<Ring>, serial: string, sonde: TrackedSonde, notified: seq<string>,
                             distance: real, gateOpen: bool, landing: Option<PredictedLanding>,
                             laterDistance: real, laterAltitude: real)
    requires AllDigitIds(rings) && AllRingKeys(rings)
    requires FirstUnfired(rings, notified, LivePrefix, distance, sonde.altitude).Some?
    ensures var i := FirstUnfired(rings, notified, LivePrefix, distance, sonde.altitude).value;
      var o := CheckSonde(rings, serial, sonde, notified, distance, gateOpen, landing);
      var later := FirstUnfired(rings, o.notified, LivePrefix, laterDistance, laterAltitude);
      later.Some? ==> IdOf(rings[later.value].key) < IdOf(rings[i].key)
  {
    var i := FirstUnfired(rings, notified, LivePrefix, distance, sonde.altitude).value;
    var id := IdOf(rings[i].key);
    var afterLive := notified + Marked(rings, LivePrefix, id);
    MarkingSuppresses(rings, notified, LivePrefix, id, laterDistance, laterAltitude);
    var o := CheckSonde(rings, serial, sonde, notified, distance, gateOpen, landing);
    if o.notified != afterLive {
      var j := FirstUnfired(rings, afterLive, PredictionPrefix, landing.value.distance, landing.value.altitude).value;
      var extra := Marked(rings, PredictionPrefix, IdOf(rings[j].key));
      assert o.notified == afterLive + extra;
      MarkedMembers(rings, PredictionPrefix, IdOf(rings[j].key));
      forall k | 0 <= k < |rings| ensures LivePrefix + rings[k].key !in extra {
        forall m | 0 <= m < |rings| ensures LivePrefix + rings[k].key != PredictionPrefix + rings[m].key {
          StartsWithConcat(PredictionPrefix, rings[m].key);
          DistinctPrefixes(PredictionPrefix + rings[m].key, rings[k].key, PredictionPrefix, RangeRingPrefix, 0);
        }
      }
      FirstUnfiredCongruent(rings, o.notified, afterLive, LivePrefix, laterDistance, laterAltitude);
    }
  }

  /** The notifications of several sondes, in the order they were evaluated. */
  function SentInOrder(order: seq<string>, outcomes: map<string, SondeOutcome>): seq<Notification>
    requires forall s :: s in order ==> s in outcomes
  {
    if |order| == 0 then []
    else SentInOrder(order[..|order| - 1], outcomes) + outcomes[order[|order| - 1]].sent
  }

  /** Bookkeeping of the evaluation pass after the sondes in `order` were
      evaluated and those in `rest` are still to come: every evaluated sonde
      has its outcome's list, every other one its list from before the pass,
      and the notifications and requests so far are those of `order`. */
  ghost predicate Progress(outcomes: map<string, SondeOutcome>, before: map<string, seq<string>>,
                           keys: set<string>, rest: set<string>, order: seq<string>,
                           current: map<string, seq<string>>, sent: seq<Notification>, requested: set<string>)
  {
    && rest <= keys && keys <= outcomes.Keys
    && (forall s :: s in order <==> s in keys && s !in rest)
    && (forall i, j :: 0 <= i < j < |order| ==> order[i] != order[j])
    && (forall s :: s in keys && s !in rest ==> s in current && current[s] == outcomes[s].notified)
    && (forall s :: s in rest ==> (s in current <==> s in before) && (s in before ==> current[s] == before[s]))
    && sent == SentInOrder(order, outcomes)
    && (forall s :: s in requested <==> s in order && outcomes[s].requested)
  }

  /** Evaluating one more sonde, with its outcome, keeps the bookkeeping. */
  lemma ProgressStep(outcomes: map<string, SondeOutcome>, before: map<string, seq<string>>,
                     keys: set<string>, rest: set<string>, order: seq<string>,
                     current: map<string, seq<string>>, sent: seq<Notification>, requested: set<string>,
                     serial: string)
    requires Progress(outcomes, before, keys, rest, order, current, sent, requested)
    requires serial in rest
    ensures Progress(outcomes, before, keys, rest - {serial}, order + [serial],
                     current[serial := outcomes[serial].notified], sent + outcomes[serial].sent,
                     if outcomes[serial].requested then requested + {serial} else requested)
  {
    assert (order + [serial])[..|order|] == order;
  }

  /** How the ring parsing of `__init__` ends: a ring section without both
      thresholds raises KeyError, no ring section at all is fatal, and
      otherwise the registry is built. */
  datatype RegistryOutcome = MissingThreshold(section: string) | NoRings | Registered(rings: seq<Ring>)

  /** `__init__` ring parsing: collect every `range_ring_*` section as (radius,
      max altitude) in metres, then sort by radius. */
  method BuildRegistry(config: seq<Section>) returns (outcome: RegistryOutcome)
    ensures outcome.MissingThreshold? <==> !RingSectionsComplete(config)
    ensures outcome.MissingThreshold? ==>
      exists i :: 0 <= i < |config| && IsRingSection(config[i]) && !config[i].values.RingValues?
        && config[i].name == outcome.section && RingSectionsComplete(config[..i])
    ensures outcome.NoRings? <==>
      RingSectionsComplete(config) && forall i :: 0 <= i < |config| ==> !IsRingSection(config[i])
    ensures outcome.Registered? ==>
      RingSectionsComplete(config) && outcome.rings == Registry(config) && |outcome.rings| > 0
  {
    var rings: seq<Ring> := [];
    var i := 0;
    while i < |config|
      invariant 0 <= i <= |config|
      invariant RingSectionsComplete(config[..i])
      invariant rings == RingsOf(config[..i])
    {
      var section := config[i];
      if StartsWith(section.name, RangeRingPrefix) {
        if section.values.OtherValues? {
          return MissingThreshold(section.name);
        }
        rings := rings + [Ring(section.name, section.values.radiusKm * 1000.0, section.values.maxAltitudeKm * 1000.0)];
      }
      assert config[..i + 1][..i] == config[..i];
      i := i + 1;
    }
    assert config[..i] == config;
    var sorted := SortByRadius(rings);
    RegistryCorrect(config);
    forall k | 0 <= k < |config| ensures IsRingSection(config[k]) ==> ToRing(config[k]) in sorted {
    }
    if |sorted| == 0 {
      return NoRings;
    }
    assert sorted[0] in Registry(config);
    return Registered(sorted);
  }

  /** One pass of the receive loop with `_handle_packet` as its callback, as
      the two files are written: the callback subscripts its argument
      (`packet['frame']`), which a `SondeFrame` does not support, so the
      `TypeError` leaves the callback, reaches the loop's outer handler and
      closes the listener. Every other datagram fares as in `HandleDatagram`. */
  function ListenAsWritten(d: Datagram, now: real, parseFloat: string -> Option<real>): (r: ListenOutcome)
    ensures !r.Delivered?
    ensures HandleDatagram(d, now, parseFloat).Delivered? ==> r == ListenerClosed
    ensures !HandleDatagram(d, now, parseFloat).Delivered? ==> r == HandleDatagram(d, now, parseFloat)
  {
    match HandleDatagram(d, now, parseFloat)
    case Delivered(_) => ListenerClosed
    case other => other
  }

  /** A well-formed payload summary, the first one a station sends. */
  const FirstSummary := Object(Packet(Some(PayloadSummary), Some("S1234567"), Some(1), Some(52.0), Some(4.0),
                                      Some(12000.0), Some("RS41"), Some("403.000 MHz")))

  /** As written, the first payload summary that parses closes the listener
      instead of reaching the tracking tables. */
  lemma FirstSummaryClosesListener(now: real, parseFloat: string -> Option<real>)
    requires parseFloat("403.000").Some?
    ensures HandleDatagram(FirstSummary, now, parseFloat).Delivered?
    ensures ListenAsWritten(FirstSummary, now, parseFloat) == ListenerClosed
  {
    assert DropLast("403.000 MHz", FrequencyUnitLength) == "403.000";
  }

  class Notifier {
    const rangeRings: seq<Ring>
    /** `check_interval` minutes, in seconds. */
    const checkInterval: real
    const predictionEnabled: bool
    const onlyPredictDescending: bool

    var tracked: map<string, TrackedSonde>
    var altitudes: map<string, seq<real>>
    var notified: map<string, seq<string>>

    ghost predicate Valid()
      reads this
    {
      && |rangeRings| > 0
      && AllRingKeys(rangeRings)
      && SortedByRadius(rangeRings)
      && altitudes.Keys == tracked.Keys
      && notified.Keys <= tracked.Keys
      && forall s :: s in altitudes ==> |altitudes[s]| <= WindowCapacity
    }

    /** `sondes_altitudes[serial]` read through the defaultdict. */
    function Window(serial: string): seq<real>
      reads this
    {
      Lookup(altitudes, serial)
    }

    /** `notified_sondes[serial]` read through the defaultdict. */
    function NotifiedOf(serial: string): seq<string>
      reads this
    {
      Lookup(notified, serial)
    }

    constructor (registry: seq<Ring>, checkIntervalMinutes: real, predictionEnabled: bool, onlyPredictDescending: bool)
      requires |registry| > 0 && AllRingKeys(registry) && SortedByRadius(registry)
      ensures Valid()
      ensures rangeRings == registry && checkInterval == checkIntervalMinutes * 60.0
      ensures this.predictionEnabled == predictionEnabled && this.onlyPredictDescending == onlyPredictDescending
      ensures tracked == map[] && altitudes == map[] && notified == map[]
    {
      rangeRings := registry;
      checkInterval := checkIntervalMinutes * 60.0;
      this.predictionEnabled := predictionEnabled;
      this.onlyPredictDescending := onlyPredictDescending;
      tracked, altitudes, notified := map[], map[], map[];
    }

    /** `_handle_packet`: record the frame as the sonde's latest entry, then
        put its altitude on the sonde's queue. A full queue blocks the caller
        (`blocked`), after the entry has already been replaced. */
    method HandlePacket(frame: SondeFrame, now: real) returns (blocked: bool)
      requires Valid()
      modifies this
      ensures Valid()
      ensures tracked == old(tracked)[frame.serial :=
        TrackedSonde(now, frame.latitude, frame.longitude, frame.altitude, frame.model)]
      ensures blocked <==> |old(Window(frame.serial))| == WindowCapacity
      ensures altitudes == if blocked then old(altitudes)
                           else old(altitudes)[frame.serial := old(Window(frame.serial)) + [frame.altitude]]
      ensures notified == old(notified)
    {
      var serial := frame.serial;
      tracked := tracked[serial := TrackedSonde(now, frame.latitude, frame.longitude, frame.altitude, frame.model)];
      var window := Window(serial);
      if |window| == WindowCapacity {
        return true;
      }
      altitudes := altitudes[serial := window + [frame.altitude]];
      return false;
    }

    /** One pass of the receive loop with the callback reading the frame's
        fields, as intended: a delivered frame goes to `HandlePacket`, and
        any other datagram leaves the tables alone. */
    method ReceiveDatagram(d: Datagram, now: real, parseFloat: string -> Option<real>)
      returns (outcome: ListenOutcome, blocked: bool)
      requires Valid()
      modifies this
      ensures Valid()
      ensures outcome == HandleDatagram(d, now, parseFloat)
      ensures outcome.Delivered? ==>
        var f := outcome.frame;
        && f.serial in tracked
        && tracked == old(tracked)[f.serial := TrackedSonde(now, f.latitude, f.longitude, f.altitude, f.model)]
        && (blocked <==> |old(Window(f.serial))| == WindowCapacity)
        && altitudes == if blocked then old(altitudes)
                        else old(altitudes)[f.serial := old(Window(f.serial)) + [f.altitude]]
      ensures !outcome.Delivered? ==> !blocked && tracked == old(tracked) && altitudes == old(altitudes)
      ensures notified == old(notified)
    {
      outcome := HandleDatagram(d, now, parseFloat);
      blocked := false;
      if outcome.Delivered? {
        blocked := HandlePacket(outcome.frame, now);
      }
    }

    /** The first loop of `_purge_old_tracked`: the serials whose latest
        frame is at least 5 h old, each once. */
    method StaleSerials(now: real) returns (remove: seq<string>)
      ensures forall s :: s in remove <==> s in tracked && IsStale(tracked[s], now)
      ensures forall i, j :: 0 <= i < j < |remove| ==> remove[i] != remove[j]
    {
      remove := [];
      var rest := tracked.Keys;
      while rest != {}
        invariant rest <= tracked.Keys
        invariant forall s :: s in remove <==> s in tracked && s !in rest && IsStale(tracked[s], now)
        invariant forall i, j :: 0 <= i < j < |remove| ==> remove[i] != remove[j]
        decreases rest
      {
        var serial :| serial in rest;
        if now - tracked[serial].rxTime >= TrackedSondesMaxSeconds {
          remove := remove + [serial];
        }
        rest := rest - {serial};
      }
    }

    /** `_purge_old_tracked`: collect the stale serials, then delete each
        from all three maps. */
    method PurgeOldTracked(now: real) returns (removed: seq<string>)
      requires Valid()
      modifies this
      ensures Valid()
      ensures forall s :: s in removed <==> s in old(tracked) && IsStale(old(tracked)[s], now)
      ensures tracked == old(tracked) - Elements(removed)
      ensures altitudes == old(altitudes) - Elements(removed)
      ensures notified == old(notified) - Elements(removed)
    {
      var remove := StaleSerials(now);
      ghost var t0, a0, n0 := tracked, altitudes, notified;
      var i := 0;
      while i < |remove|
        invariant 0 <= i <= |remove|
        invariant tracked == t0 - Elements(remove[..i])
        invariant altitudes == a0 - Elements(remove[..i])
        invariant notified == n0 - Elements(remove[..i])
      {
        var serial := remove[i];
        assert Elements(remove[..i + 1]) == Elements(remove[..i]) + {serial};
        SubtractOneMore(t0, Elements(remove[..i]), serial);
        SubtractOneMore(a0, Elements(remove[..i]), serial);
        SubtractOneMore(n0, Elements(remove[..i]), serial);
        tracked := tracked - {serial};
        if serial in notified {
          notified := notified - {serial};
        }
        altitudes := altitudes - {serial};
        i := i + 1;
      }
      assert remove[..i] == remove;
      return remove;
    }

    /** `_check_range_rings`: the first ring in registry order whose prefixed
        name is not yet notified for the sonde and whose thresholds the
        truncated distance and altitude satisfy. */
    function CheckRangeRings(serial: string, distance: real, altitude: real, prefix: string): (r: Option<string>)
      reads this
      ensures r.Some? ==>
        exists i :: 0 <= i < |rangeRings| && rangeRings[i].key == r.value
          && Fires(rangeRings[i], NotifiedOf(serial), prefix, distance, altitude)
          && forall j :: 0 <= j < i ==> !Fires(rangeRings[j], NotifiedOf(serial), prefix, distance, altitude)
      ensures r.None? ==> forall i :: 0 <= i < |rangeRings| ==>
        !Fires(rangeRings[i], NotifiedOf(serial), prefix, distance, altitude)
    {
      match FirstUnfired(rangeRings, NotifiedOf(serial), prefix, distance, altitude)
      case None => None
      case Some(i) => Some(rangeRings[i].key)
    }

    /** `_set_ring_notified`: append the prefixed key of every ring whose
        trailing-digit id is at least the triggered ring's, in registry
        order, to this sonde's list. */
    method SetRingNotified(serial: string, ring: string, prefix: string)
      requires Valid() && serial in tracked
      requires HasDigitId(ring) && AllDigitIds(rangeRings)
      modifies this
      ensures Valid()
      ensures var marks := Marked(rangeRings, prefix, IdOf(ring));
        notified == if marks == [] then old(notified)
                    else old(notified)[serial := old(NotifiedOf(serial)) + marks]
      ensures tracked == old(tracked) && altitudes == old(altitudes)
    {
      var currentId := DigitValue(ring[|ring| - 1]);
      ghost var n0 := notified;
      ghost var list0 := NotifiedOf(serial);
      var i := 0;
      while i < |rangeRings|
        invariant 0 <= i <= |rangeRings|
        invariant tracked == old(tracked) && altitudes == old(altitudes)
        invariant var marks := Marked(rangeRings[..i], prefix, currentId);
          notified == if marks == [] then n0 else n0[serial := list0 + marks]
      {
        var blockRing := rangeRings[i].key;
        ghost var marks := Marked(rangeRings[..i], prefix, currentId);
        assert rangeRings[..i + 1][..i] == rangeRings[..i];
        assert rangeRings[..i + 1][i] == rangeRings[i];
        if DigitValue(blockRing[|blockRing| - 1]) >= currentId {
          assert Marked(rangeRings[..i + 1], prefix, currentId) == marks + [prefix + blockRing];
          assert NotifiedOf(serial) == list0 + marks;
          assert list0 + marks + [prefix + blockRing] == list0 + (marks + [prefix + blockRing]);
          notified := notified[serial := NotifiedOf(serial) + [prefix + blockRing]];
        } else {
          assert Marked(rangeRings[..i + 1], prefix, currentId) == marks;
        }
        i := i + 1;
      }
      assert rangeRings[..i] == rangeRings;
    }

    /** The prediction gate of `_check_notifications` for a tracked sonde,
        given the tracked sondes and the altitude windows. */
    predicate GateOpen(t: map<string, TrackedSonde>, alts: map<string, seq<real>>, serial: string, now: real)
      requires serial in t
    {
      PredictionGate(predictionEnabled, onlyPredictDescending, Lookup(alts, serial), now - t[serial].rxTime, checkInterval)
    }

    /** What one evaluation pass does to one tracked sonde, given the state
        the pass starts from. */
    function Outcome(t: map<string, TrackedSonde>, alts: map<string, seq<real>>, n: map<string, seq<string>>,
                     serial: string, now: real, distance: real, landing: Option<PredictedLanding>): SondeOutcome
      requires serial in t && AllDigitIds(rangeRings)
    {
      CheckSonde(rangeRings, serial, t[serial], Lookup(n, serial), distance, GateOpen(t, alts, serial, now), landing)
    }

    ghost function Outcomes(t: map<string, TrackedSonde>, alts: map<string, seq<real>>, n: map<string, seq<string>>,
                            now: real, distances: map<string, real>, landings: map<string, Option<PredictedLanding>>)
      : map<string, SondeOutcome>
      requires AllDigitIds(rangeRings)
      requires t.Keys <= distances.Keys && t.Keys <= landings.Keys
    {
      map s | s in t :: Outcome(t, alts, n, s, now, distances[s], landings[s])
    }

    /** One range-ring check of `_check_notifications` under `prefix`: look
        up the first ring that fires and, if there is one, notify it and mark
        it with every ring of greater or equal id. The defaultdict read
        gives the sonde a (possibly empty) list. */
    method CheckAndMark(serial: string, distance: real, altitude: real, prefix: string)
      returns (sent: seq<Notification>)
      requires Valid() && AllDigitIds(rangeRings) && serial in tracked
      modifies this
      ensures Valid()
      ensures tracked == old(tracked) && altitudes == old(altitudes)
      ensures var hit := FirstUnfired(rangeRings, old(NotifiedOf(serial)), prefix, distance, altitude);
        && notified == old(notified)[serial := MarkHit(rangeRings, old(NotifiedOf(serial)), prefix, hit)]
        && sent == HitSent(rangeRings, prefix, hit, serial, tracked[serial].model, distance)
    {
      ghost var hit := FirstUnfired(rangeRings, NotifiedOf(serial), prefix, distance, altitude);
      ghost var list0 := NotifiedOf(serial);
      var triggered := CheckRangeRings(serial, distance, altitude, prefix);
      notified := notified[serial := NotifiedOf(serial)];
      sent := [];
      if triggered.Some? {
        sent := [Notification(prefix + triggered.value, serial, tracked[serial].model, distance)];
        MarkedIncludesRing(rangeRings, prefix, hit.value);
        ghost var marks := Marked(rangeRings, prefix, IdOf(rangeRings[hit.value].key));
        UpdateTwice(old(notified), serial, list0, list0 + marks);
        SetRingNotified(serial, triggered.value, prefix);
      }
    }

    /** The body of the loop in `_check_notifications` for one sonde: the
        live check, then the gate (each failed condition skips the rest of
        the body, as `continue` does), then the prediction check. */
    method CheckSondeNotifications(serial: string, now: real, distance: real, landing: Option<PredictedLanding>)
      returns (sent: seq<Notification>, requested: bool)
      requires Valid() && AllDigitIds(rangeRings) && serial in tracked
      modifies this
      ensures Valid()
      ensures tracked == old(tracked) && altitudes == old(altitudes)
      ensures var o := Outcome(old(tracked), old(altitudes), old(notified), serial, now, distance, landing);
        notified == old(notified)[serial := o.notified] && sent == o.sent && requested == o.requested
    {
      var values := tracked[serial];
      ghost var list0 := NotifiedOf(serial);
      ghost var afterLive := MarkHit(rangeRings, list0, LivePrefix,
                                     FirstUnfired(rangeRings, list0, LivePrefix, distance, values.altitude));
      sent := CheckAndMark(serial, distance, values.altitude, LivePrefix);
      requested := PredictionGateOpen(serial, now);
      if requested && landing.Some? {
        var prediction := landing.value;
        var more := CheckAndMark(serial, prediction.distance, prediction.altitude, PredictionPrefix);
        sent := sent + more;
        UpdateTwice(old(notified), serial, afterLive,
                    MarkHit(rangeRings, afterLive, PredictionPrefix,
                            FirstUnfired(rangeRings, afterLive, PredictionPrefix, prediction.distance, prediction.altitude)));
      }
    }

    /** The prediction gate of `_check_notifications`: prediction enabled,
        at least three samples, a frame within the check interval, and,
        when so configured, a descending window. Each failed test is a
        `continue`. */
    method PredictionGateOpen(serial: string, now: real) returns (open: bool)
      requires serial in tracked
      ensures open == GateOpen(tracked, altitudes, serial, now)
    {
      open := false;
      if predictionEnabled {
        var alts := Window(serial);
        if |alts| >= MinPredictionSamples && !(RoundHalfEven(now - tracked[serial].rxTime) as real > checkInterval) {
          var isDescending := IsDescending(alts);
          open := !(onlyPredictDescending && !isDescending);
        }
      }
    }

    /** The loop of `_check_notifications`, given the outcome each tracked
        sonde has in the state the loop starts from. */
    method EvaluateSondes(now: real, distances: map<string, real>, landings: map<string, Option<PredictedLanding>>,
                          ghost outcomes: map<string, SondeOutcome>)
      returns (sent: seq<Notification>, requested: set<string>, ghost order: seq<string>)
      requires Valid() && AllDigitIds(rangeRings)
      requires tracked.Keys <= distances.Keys && tracked.Keys <= landings.Keys && tracked.Keys <= outcomes.Keys
      requires forall s :: s in tracked ==>
        outcomes[s] == Outcome(tracked, altitudes, notified, s, now, distances[s], landings[s])
      modifies this
      ensures Valid()
      ensures tracked == old(tracked) && altitudes == old(altitudes)
      ensures Progress(outcomes, old(notified), tracked.Keys, {}, order, notified, sent, requested)
    {
      sent, requested, order := [], {}, [];
      var rest := tracked.Keys;
      while rest != {}
        invariant Valid()
        invariant tracked == old(tracked) && altitudes == old(altitudes)
        invariant Progress(outcomes, old(notified), tracked.Keys, rest, order, notified, sent, requested)
        decreases rest
      {
        var serial :| serial in rest;
        assert Lookup(notified, serial) == Lookup(old(notified), serial);
        ProgressStep(outcomes, old(notified), tracked.Keys, rest, order, notified, sent, requested, serial);
        var sentHere, requestedHere := CheckSondeNotifications(serial, now, distances[serial], landings[serial]);
        sent := sent + sentHere;
        if requestedHere {
          requested := requested + {serial};
        }
        order := order + [serial];
        rest := rest - {serial};
      }
    }

    /** `_check_notifications`: evaluate every tracked sonde once. The sondes
        are visited in some order (`order`); the notifications are those of
        each sonde in that order, and each sonde's notified list becomes
        its outcome's list. */
    method CheckNotifications(now: real, distances: map<string, real>, landings: map<string, Option<PredictedLanding>>)
      returns (sent: seq<Notification>, requested: set<string>, ghost order: seq<string>)
      requires Valid() && AllDigitIds(rangeRings)
      requires tracked.Keys <= distances.Keys && tracked.Keys <= landings.Keys
      modifies this
      ensures Valid()
      ensures tracked == old(tracked) && altitudes == old(altitudes)
      ensures forall s :: s in order <==> s in tracked
      ensures forall i, j :: 0 <= i < j < |order| ==> order[i] != order[j]
      ensures notified.Keys == tracked.Keys
      ensures var outcomes := Outcomes(old(tracked), old(altitudes), old(notified), now, distances, landings);
        && (forall s :: s in tracked ==> notified[s] == outcomes[s].notified)
        && sent == SentInOrder(order, outcomes)
      ensures forall s :: s in requested <==> s in tracked && GateOpen(tracked, altitudes, s, now)
    {
      ghost var outcomes := Outcomes(tracked, altitudes, notified, now, distances, landings);
      ghost var n0 := notified;
      sent, requested, order := EvaluateSondes(now, distances, landings, outcomes);
      forall s | s in tracked ensures outcomes[s].requested == GateOpen(tracked, altitudes, s, now) {
        CheckSondeRequested(rangeRings, s, tracked[s], Lookup(n0, s), distances[s], GateOpen(tracked, altitudes, s, now), landings[s]);
      }
    }
  }

  lemma SubtractOneMore<V>(m: map<string, V>, done: set<string>, k: string)
    ensures (m - done) - {k} == m - (done + {k})
    ensures k !in m - done ==> m - done == m - (done + {k})
  {
  }

  lemma UpdateTwice<K, V>(m: map<K, V>, k: K, a: V, b: V)
    ensures m[k := a][k := b] == m[k := b]
  {
  }

  /** A read through a defaultdict of lists: a missing key reads as []. */
  function Lookup<V>(m: map<string, seq<V>>, k: string): seq<V>
  {
    if k in m then m[k] else []
  }

  function Elements(s: seq<string>): set<string>
  {
    set x | x in s
  }
}
