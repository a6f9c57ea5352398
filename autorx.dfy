/** Telemetry frames from the auto_rx decoder: the SondeFrame record, its
    construction from a PAYLOAD_SUMMARY packet, and what the listener does
    with one received datagram. */
module AutoRx {
  import opened Common

  const PayloadSummary := "PAYLOAD_SUMMARY"
  /** The frequency text ends in a four-character unit, as in "403.123 MHz". */
  const FrequencyUnitLength := 4

  /** One observation of a sonde. `rxTime` is the receive time in seconds,
      set by the listener, never by the packet. */
  datatype SondeFrame = SondeFrame(
    serial: string,
    frame: int,
    latitude: real,
    longitude: real,
    altitude: real,
    model: string,
    frequency: real,
    rxTime: Option<real>)

  /** A decoded JSON datagram, as far as the listener reads it: each field is
      absent (`None`) when the object has no such key. */
  datatype Packet = Packet(
    packetType: Option<string>,
    callsign: Option<string>,
    frame: Option<int>,
    latitude: Option<real>,
    longitude: Option<real>,
    altitude: Option<real>,
    model: Option<string>,
    freq: Option<string>)

  /** A received datagram: either a JSON object or something `json.loads`
      rejects (or that is not an object). */
  datatype Datagram = Malformed | Object(packet: Packet)

  /** What the listener does with one datagram. */
  datatype ListenOutcome =
    | Ignored                       // not a payload summary
    | ParseFailed                   // logged, callback skipped
    | Delivered(frame: SondeFrame)  // handed to the callback
    | ListenerClosed                // exception escapes the receive loop

  predicate HasAllFields(p: Packet)
  {
    p.callsign.Some? && p.frame.Some? && p.latitude.Some? && p.longitude.Some?
    && p.altitude.Some? && p.model.Some? && p.freq.Some?
  }

  /** `SondeFrame.from_autorx`. Python's `float()` on text is the parameter
      `parseFloat`; a missing key or unparsable frequency is a failure. */
  function FromAutorx(p: Packet, parseFloat: string -> Option<real>): (r: Option<SondeFrame>)
    ensures r.Some? <==> HasAllFields(p) && parseFloat(DropLast(p.freq.value, FrequencyUnitLength)).Some?
    ensures r.Some? ==>
      && r.value.serial == p.callsign.value
      && r.value.frame == p.frame.value
      && r.value.latitude == p.latitude.value
      && r.value.longitude == p.longitude.value
      && r.value.altitude == p.altitude.value
      && r.value.model == p.model.value
      && Some(r.value.frequency) == parseFloat(DropLast(p.freq.value, FrequencyUnitLength))
      && r.value.rxTime.None?
  {
    if !HasAllFields(p) then None
    else match parseFloat(DropLast(p.freq.value, FrequencyUnitLength))
      case None => None
      case Some(f) =>
        Some(SondeFrame(p.callsign.value, p.frame.value, p.latitude.value, p.longitude.value,
                        p.altitude.value, p.model.value, f, None))
  }

  /** The payload summary auto_rx would send for a frame, with the given
      frequency text. */
  function SummaryOf(f: SondeFrame, freqText: string): Packet
  {
    Packet(Some(PayloadSummary), Some(f.serial), Some(f.frame), Some(f.latitude), Some(f.longitude),
           Some(f.altitude), Some(f.model), Some(freqText))
  }

  /** Round trip: a summary whose frequency text is the number followed by a
      four-character unit parses back to the same frame, minus receive time. */
  lemma FromAutorxRoundTrip(f: SondeFrame, number: string, unit: string, parseFloat: string -> Option<real>)
    requires |unit| == FrequencyUnitLength
    requires parseFloat(number) == Some(f.frequency)
    ensures FromAutorx(SummaryOf(f, number + unit), parseFloat) == Some(f.(rxTime := None))
  {
    assert DropLast(number + unit, FrequencyUnitLength) == number;
  }

  /** One pass of the receive loop on a datagram, at receive time `now`. */
  function HandleDatagram(d: Datagram, now: real, parseFloat: string -> Option<real>): (r: ListenOutcome)
    ensures r.Delivered? <==>
      d.Object? && d.packet.packetType == Some(PayloadSummary) && FromAutorx(d.packet, parseFloat).Some?
    ensures r.Delivered? ==>
      r.frame == FromAutorx(d.packet, parseFloat).value.(rxTime := Some(now)) && r.frame.rxTime == Some(now)
    ensures r == ListenerClosed <==> d.Malformed? || d.packet.packetType.None?
    ensures r == Ignored <==> d.Object? && d.packet.packetType.Some? && d.packet.packetType.value != PayloadSummary
  {
    if d.Malformed? || d.packet.packetType.None? then ListenerClosed
    else if d.packet.packetType.value != PayloadSummary then Ignored
    else match FromAutorx(d.packet, parseFloat)
      case None => ParseFailed
      case Some(frame) => Delivered(frame.(rxTime := Some(now)))
  }
}
