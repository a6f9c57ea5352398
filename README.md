# sonde-notifier in Dafny

sonde-notifier listens to the payload summaries that an AutoRX radiosonde
receiver broadcasts over UDP. It keeps the latest frame and a short altitude
history for every sonde it hears. On every check cycle it tests each sonde,
and the landing point predicted for it by a Tawhiri prediction API, against
a set of configured range rings (a radius and a maximum altitude each). When
a ring fires, the notifier sends a notification through ntfy, Gotify or a
Discord webhook. It then marks that ring, and every ring with a greater or
equal id, as notified for that sonde.

This project models that core and proves properties of the model:

- `common.dfy` (`Common`): the Python built-ins whose exact behaviour
  matters. These are `int()` on a float (truncation toward zero), `round()`
  (half to even), `startswith`, the `s[-1:]` and `s[:-n]` slices, and the
  one-digit ring id `int(key[-1:])`.
- `rings.dfy` (`RangeRings`): the pure side of the range rings.
  - The registry built from the `range_ring_*` sections, converted to metres and stably sorted by radius.
  - The first-unfired-ring search.
  - The telescoping marks.
  - Prefix isolation between the live (`""`) and prediction (`"prediction_"`) namespaces.
- `notifier.dfy` (`Notifier`): the engine, as a class.
  - It holds the three maps the source updates in place: tracked sondes, altitude windows and notified ring names.
  - Its methods are ingestion, purge, the ring check and mark, the prediction gate, and one evaluation pass over all tracked sondes.
- `autorx.dfy` (`AutoRx`): the mapping of a payload summary to a `SondeFrame`, and the filter that passes only `PAYLOAD_SUMMARY` packets to the callback.
- `prediction.dfy` (`Prediction`): the Tawhiri query, with its parameter order, truncated altitude, burst altitude and timestamp, and the reading of the answer.
- `config.dfy` (`Config`): section-to-key extraction, the key comparison that ignores range rings, and read-once caching of the configuration.
- `notification_text.dfy`, `ntfy.dfy`, `gotify.dfy`, `discord_webhook.dfy`: the message text chosen from a notification type, ntfy's Authorization header and Gotify's message URL.
- `base64.dfy` (`Base64`) and `uri.dfy` (`Uri`): the parts of two standards these use.
  - Base64 per section 4 of RFC 4648, with a decoder proved to invert it.
  - ASCII encoding.
  - The RFC 3986 component parse (Appendix B), recomposition (section 5.3) and absolute-path resolution (section 5.2.2).

Clocks, the network, JSON, float formatting and geodesic distance are
inputs or function parameters:

- `now` is the time of a call.
- `distances` and `landings` are the per-sonde distance from the station and the landing prediction outcome.
- `parseFloat`, `showFloat` and `showInt` are Python's `float()`, `str(float)` and `str(int)`.
- `fetch` is the HTTP GET together with `json.loads`.

Each sonde's altitude window is a `queue.Queue(maxsize=5)`
(src/notifier.py:33). The code only puts onto it (src/notifier.py:91) and
copies its contents (src/notifier.py:218); nothing takes from it, so the sixth
put blocks the caller. `HandlePacket` therefore returns `blocked` and leaves
the window unchanged. There is no counter of prediction cycles. The
descending test is `all(...)` over consecutive pairs, which holds of a window
of fewer than two samples; the prediction gate asks for three samples before
the test is reached.

## Model

| member | source | states |
|---|---|---|
| Common.TruncTowardZero | src/notifier.py:141 | `int()` on a float is the integer part toward zero: below or equal to a non-negative value and less than one under it, mirrored for negative values |
| Common.RoundHalfEvenNearest | src/notifier.py:224 | `round()` is within 0.5 of its argument, and an exact tie goes to the even integer |
| RangeRings.RingsOfMembers | src/notifier.py:44-49 | the rings collected are exactly the `range_ring_*` sections, each as (key, radius·1000, max_altitude·1000), and every key starts with `range_ring_` |
| RangeRings.InsertByRadiusPermutes | src/notifier.py:50 | inserting a ring into the sorted list adds exactly that ring |
| RangeRings.InsertByRadiusStable | src/notifier.py:50 | insertion puts the new ring after all rings of equal radius |
| RangeRings.InsertByRadiusSorted | src/notifier.py:50 | insertion keeps the list sorted by radius |
| RangeRings.SortByRadiusCorrect | src/notifier.py:50-51 | the sort is ascending by radius, a permutation, and stable: the rings of each radius keep their config order |
| RangeRings.RegistryCorrect | src/notifier.py:42-51 | the registry is sorted, holds exactly the ring sections (one entry each), keeps config order among equal radii and has only `range_ring_` keys |
| RangeRings.FirstUnfired | src/notifier.py:131-144 | the ring returned fires (its prefixed key is not yet notified, and truncated distance and altitude are within its limits) and no earlier ring fires; None means no ring fires |
| RangeRings.FirstUnfiredIsTightest | src/notifier.py:142 | in an ascending registry the ring returned has the smallest radius among all rings that fire |
| RangeRings.FirstUnfiredCongruent | src/notifier.py:137 | the result depends on the notified list only through membership of the prefixed ring keys |
| RangeRings.MarkedMembers | src/notifier.py:146-153 | the names marked are exactly prefix + key of every ring whose id is at least the fired ring's id |
| RangeRings.MarkedIncludesRing | src/notifier.py:149-153 | the fired ring itself is among the names it marks |
| RangeRings.MarkingSuppresses | src/notifier.py:146-153 | after marking id `n` under a prefix, no ring with id ≥ n fires again under that prefix, whatever the later distance and altitude |
| RangeRings.PrefixIsolation | src/notifier.py:131-153 | marking under the live prefix leaves the prediction check unchanged, and the other way round |
| AutoRx.FromAutorx | src/autorx.py:45-58 | a frame exists exactly when every field is present and the frequency text minus its last four characters parses; each field is copied, and there is no receive time |
| AutoRx.FromAutorxRoundTrip | src/autorx.py:56 | a summary whose frequency is a number plus a four-character unit parses back to the same frame |
| AutoRx.HandleDatagram | src/autorx.py:93-102 | only a `PAYLOAD_SUMMARY` that parses reaches the callback, stamped with the receive time; other types are ignored, and a failed parse is logged and skipped; a datagram that is not a JSON object, or has no type, ends the listener |
| Notifier.IsDescendingIffStrictlyDecreasing | src/notifier.py:229 | the consecutive-pair test holds exactly when every earlier sample is higher than every later one |
| Notifier.DescendingExamples | src/notifier.py:229 | a falling window is descending; a window that rises and then falls is not |
| Notifier.PredictionGateNecessary | src/notifier.py:216-233 | an open gate implies prediction enabled, at least 3 samples, a frame age of at most the interval + 0.5 s, and a strictly falling window when only descending sondes are predicted |
| Notifier.CheckSondeSends | src/notifier.py:209-252 | one pass sends at most one live and one prediction notification per sonde; the live one names the first ring that fires; the prediction one is decided as if the live mark of the same pass had not happened |
| Notifier.CheckSondeRequested | src/notifier.py:216-237 | a prediction is requested for a sonde exactly when its gate is open |
| Notifier.CheckSondeTelescopes | src/notifier.py:211-214 | after a live hit on ring id n, every later live hit for that sonde has an id below n |
| Notifier.ProgressStep | src/notifier.py:203-252 | evaluating one more sonde extends the record: that sonde's list is its outcome's, its notifications are appended, and its request is recorded |
| Notifier.BuildRegistry | src/notifier.py:42-55 | a KeyError (`MissingThreshold`, naming the first incomplete ring section) exactly when some ring section lacks `radius` or `max_altitude`; otherwise an exit (`NoRings`) exactly when there is no ring section; otherwise the registry, sorted by radius |
| Notifier.Notifier.constructor | src/notifier.py:20-39 | the interval is check_interval·60 s, the flags are copied, and all three maps start empty |
| Notifier.ListenAsWritten | src/notifier.py:70-91 | with `_handle_packet` as the callback, as written, no datagram is delivered: one that would be closes the listener, every other fares as in `HandleDatagram` |
| Notifier.FirstSummaryClosesListener | src/autorx.py:93-108 | a well-formed payload summary is delivered by the receive loop, and as written it closes the listener |
| Notifier.Notifier.ReceiveDatagram | src/autorx.py:93-102 | with the callback reading the frame's fields, a delivered frame is recorded by `HandlePacket` (the sonde is tracked with the new entry, its altitude queued unless the window is full) and any other datagram changes nothing |
| Notifier.Notifier.HandlePacket | src/notifier.py:70-91 | the sonde's entry is replaced by the new frame at time `now`; the altitude is appended to its window unless the window already holds 5 samples, in which case the put blocks; the invariant holds |
| Notifier.Notifier.StaleSerials | src/notifier.py:98-103 | the collected serials are exactly the tracked sondes whose frame is at least 5 h old, each listed once |
| Notifier.Notifier.PurgeOldTracked | src/notifier.py:93-121 | exactly the stale sondes are removed from all three maps, and nothing else changes |
| Notifier.Notifier.CheckRangeRings | src/notifier.py:131-144 | the key returned is that of the first registry ring that fires for the sonde's notified list (read through the defaultdict); None means none fires |
| Notifier.Notifier.SetRingNotified | src/notifier.py:146-153 | the sonde's list gains, in registry order, prefix + key of every ring whose id is at least the fired ring's id; the other maps are unchanged |
| Notifier.Notifier.CheckAndMark | src/notifier.py:211-214 | a range-ring check under a prefix notifies the first ring that fires and marks it with every ring of greater or equal id; without a hit nothing is sent and the list only gains its defaultdict entry |
| Notifier.Notifier.PredictionGateOpen | src/notifier.py:216-234 | the gate's `continue` tests pass exactly when `GateOpen` holds: prediction enabled, at least three samples, the rounded age within the check interval, and a descending window when only descending sondes are predicted |
| Notifier.Notifier.CheckSondeNotifications | src/notifier.py:209-252 | the loop body for one sonde leaves the sonde's list, notifications and request as the one-sonde outcome prescribes: live check, then gate, then prediction check |
| Notifier.Notifier.EvaluateSondes | src/notifier.py:203-252 | every tracked sonde is evaluated once, in some order, and the record of the pass is complete |
| Notifier.Notifier.CheckNotifications | src/notifier.py:197-252 | every tracked sonde is visited once; its list becomes its outcome's list; the notifications are the sondes' outcomes in visiting order; predictions are requested exactly for sondes with an open gate; tracked sondes and windows are unchanged |
| Prediction.BeforeFirst | src/prediction.py:59 | `split("+")[0]` is the longest prefix without '+', and the next character, if any, is '+' |
| Prediction.TimestampStripsOffset | src/prediction.py:59 | a time with a `+hh:mm` offset is sent without the offset and with `Z` appended |
| Prediction.TimestampWithoutPlus | src/prediction.py:72 | a time without '+' is sent whole with `Z` appended |
| Prediction.DescendingBurstNearAltitude | src/prediction.py:63-66 | for a non-negative altitude, when descending, the burst altitude is the truncated altitude + 0.1, within 0.9 m below and 0.1 m above the current altitude |
| Prediction.Query | src/prediction.py:58-75 | the seven parameters in their fixed order: latitude, longitude, truncated altitude, timestamp, ascent rate, burst altitude (descending or configured), descent rate |
| Prediction.Rendered | src/prediction.py:69-75 | each parameter is rendered as `name=value` |
| Prediction.SplitJoin | src/prediction.py:69-75 | splitting '&'-joined fields that contain no '&' gives the fields back |
| Prediction.RequestUrlFields | src/prediction.py:69-75 | when no rendered value contains '&', the URL is the API URL, '?', then fields that split on '&' into the seven `name=value` pairs in the fixed order |
| Prediction.Interpret | src/prediction.py:78-103 | None exactly on a request exception, a status other than 200, or a JSON decode error; otherwise the last point of the second stage, copied unchanged |
| Prediction.RunLandingPrediction | src/prediction.py:48-103 | the prediction fails exactly when fetching the request URL fails in one of those three ways |
| Prediction.SameUrlSamePrediction | src/prediction.py:58-79 | altitudes with the same integer part send the same query and get the same prediction |
| Config.ExtractKeys | src/config.py:9-16 | the result has exactly the input's section names, each mapped to the set of that section's keys |
| Config.WithoutRangeRings | src/config.py:47-48 | exactly the sections not starting with `range_ring_` are kept, with their key sets |
| Config.KeysMatchIff | src/config.py:43-52 | the check passes exactly when every non-ring section is in both files or neither, with equal key sets |
| Config.RangeRingSectionsIgnored | src/config.py:47-48 | adding or changing a `range_ring_` section never changes the verdict |
| Config.ReadStep | src/config.py:18-54 | a non-empty cache is returned as it is; otherwise the read succeeds exactly when config.toml exists and either the example is missing or the keys match; on success the result is the parsed config |
| Config.ReadOnce | src/config.py:24 | after a read that returned a non-empty config, every later read returns the same config, whatever the files then hold |
| Config.EmptyConfigNotCached | src/config.py:24 | an empty config.toml is not cached, so the next read goes to the files again |
| Config.ConfigStore.Read | src/config.py:18-54 | the method leaves `_config_data` and its result as the read step prescribes |
| Config.ConfigStore.constructor | src/config.py:7 | the cache starts empty |
| NotificationText.SelectText | src/notification_services/gotify.py:15-20 | a `range_ring_` type gives the live text, a `prediction_range_ring_` type the prediction text, labelled with the type's last character; any other type gives "ERROR" |
| NotificationText.PrefixesDisjoint | src/notification_services/gotify.py:15-18 | no type starts with both prefixes, so exactly one branch applies |
| NotificationText.TextsDistinct | src/notification_services/gotify.py:15-20 | the live text, the prediction text and "ERROR" are always different |
| NotificationText.EngineTypesSelectText | src/notifier.py:249-252 | every type the notifier sends gets its text, never "ERROR", and the label is the ring's id digit |
| Base64.SextetOf | src/notification_services/ntfy.py:23 | decoding a base64 character gives the value that encodes to it |
| Base64.AlphabetRoundTrip | src/notification_services/ntfy.py:23 | every 6-bit value encodes to a base64 character that decodes back |
| Base64.Encode | src/notification_services/ntfy.py:23 | the output length is a multiple of 4 and is empty only for empty input |
| Base64.EncodeFinal | src/notification_services/ntfy.py:23 | a final group of one or two bytes takes one padded 4-character quantum |
| Base64.RegroupBytes | src/notification_services/ntfy.py:23 | regrouping the four 6-bit values of three bytes gives the bytes |
| Base64.GroupRoundTrip | src/notification_services/ntfy.py:23 | a full group decodes back to its three bytes |
| Base64.OneByteRoundTrip | src/notification_services/ntfy.py:23 | a one-byte final group decodes back |
| Base64.TwoByteRoundTrip | src/notification_services/ntfy.py:23 | a two-byte final group decodes back |
| Base64.DecodeAfterQuantum | src/notification_services/ntfy.py:23 | a full quantum decodes in front of the rest |
| Base64.DecodeEncode | src/notification_services/ntfy.py:23 | decoding the encoding gives the bytes back |
| Base64.AsciiBytes | src/notification_services/ntfy.py:23 | the encoding succeeds exactly when every character is ASCII, and each byte is its character's code |
| Ntfy.AuthHeader | src/notification_services/ntfy.py:18-23 | a token gives "Bearer " + token; else a user or password gives exactly "Basic " + the base64 of the ASCII bytes of user:password, whose decoding gives those bytes back (failing exactly on non-ASCII); else "" |
| Ntfy.Message | src/notification_services/ntfy.py:25-29 | a `range_ring_` type gives the live text labelled with its last character; every other type gives "ERROR" |
| Ntfy.PredictionMessageIsError | src/notification_services/ntfy.py:26-29 | every prediction type the notifier sends is posted as "ERROR" |
| Ntfy.CorrectedMessage | src/notification_services/ntfy.py:26-29 | with the prediction branch added, the live case is unchanged |
| Ntfy.CorrectedMessageCoversEngineTypes | src/notification_services/ntfy.py:26-29 | with the prediction branch added, every type the notifier sends gets its text and none gets "ERROR" |
| Uri.SplitScheme | src/notification_services/gotify.py:11 | the scheme and the rest put back together give the input, and the scheme has no ':', '/', '?' or '#' |
| Uri.SplitAuthority | src/notification_services/gotify.py:11 | "//" + authority + rest gives the input, and the rest starts a path, a query or a fragment |
| Uri.SplitPath | src/notification_services/gotify.py:11 | path + rest gives the input, and the path has no '?' or '#' |
| Uri.SplitQuery | src/notification_services/gotify.py:11 | "?" + query + rest gives the input, and the query has no '#' |
| Uri.SplitFragment | src/notification_services/gotify.py:11 | "#" + fragment gives the input |
| Uri.RecomposeParse | src/notification_services/gotify.py:11 | recomposing the parse of any reference gives the reference back |
| Uri.OriginStartsReference | src/notification_services/gotify.py:11 | the scheme and authority of a reference are a prefix of it |
| Uri.ResolveAbsolutePath | src/notification_services/gotify.py:11 | an absolute-path reference keeps the base scheme and authority and takes its own path, query and fragment |
| Gotify.ParseMessageReference | src/notification_services/gotify.py:11 | "/message?" + token parses as the absolute path "/message" whose query is the token up to its first '#' and whose fragment is the rest (the whole token as query, no fragment, when it has no '#'), and recomposes to itself |
| Gotify.TokenIsQuery | src/notification_services/gotify.py:11 | a token without '#' is the whole query of "/message?" + token, with no fragment |
| Gotify.MessageUrlShape | src/notification_services/gotify.py:11 | the message URL is the base URL's scheme and authority (a prefix of the base URL) followed by "/message?" + token |
| Gotify.Notify | src/notification_services/gotify.py:13-20 | the title is always "Sonde Notifier" and the text follows the live / prediction / ERROR choice |
| DiscordWebhook.Content | src/notification_services/discord_webhook.py:13-21 | the content is the selected text, a newline, then the mentions, in every branch |

## Left out

- Notifier.Notifier.HandlePacket: a blocked put never returns in the source. The blocked thread holds `sondes_altitudes_lock`, which every later `_check_notifications` then waits on (src/notifier.py:90-91, 202). Model runs that continue after `blocked` have no counterpart in the source.
- Notifier.BuildRegistry: the config is a sequence of sections in file order. TOML makes section names distinct; the model does not require it.
- Threading and locks. The model is sequential. This covers the listener thread, `run` with `time.sleep`, and the `with a and b and c` at src/notifier.py:202, which takes only the last lock.
- UDP socket I/O and the `_listen` loop. `HandleDatagram` models one pass of the loop on a datagram that has already been received.
- The callback type. `_handle_packet` (src/notifier.py:70-91) indexes its argument as a dict, but the listener passes a `SondeFrame`; see Findings. The rest of the model reads the frame's fields.
- Geodesic distance (geopy). The distance from the station to each sonde and to each landing point is an input.
- Floating point. Positions, rates and altitudes are reals. `float()`, `str(float)` and `str(int)` are parameters.
- Ring ids. Only ASCII digits are modelled as ring ids. A key whose last character is not a digit is a precondition here; in the source it raises ValueError.
- Iteration order. The source visits sondes in dict insertion order. The model visits them in an arbitrary order and states its results for every order.
- Clocks. `time.time()` and `datetime.now` are the input `now`, one value per call. The source reads the clock again for each sonde.
- The notifier's own landing prediction. `_landing_prediction` (src/notifier.py:155-195) builds the same query as `Prediction.RunLandingPrediction`, but lets request and JSON errors propagate. The evaluation pass takes its outcome, a landing distance and altitude or none, as an input.
- `datetime.fromisoformat` of the landing time. The landing time stays text; a malformed one raises in the source.
- Prediction.Interpret: an answer without a second stage, or with an empty trajectory, raises in the source. It is a precondition here.
- JSON decoding. It is part of `fetch`.
- The notification services' HTTP posts, and the UTF-8 encoding of the posted bodies.
- Config.ExtractKeys: a top-level TOML value that is not a table, which makes `v.keys()` raise, is not modelled. A parsed file is a map of sections.
- Config.ConfigStore.Read: the files are given already parsed, or as absent. TOML parsing and its errors are not modelled.
- Uri.ResolveAbsolutePath: covers only the RFC 3986 absolute-path case, for a path without '.' (remove_dot_segments leaves such a path unchanged). That is the only case Gotify uses.
- Python `urljoin` differences from RFC 3986 are not modelled. These are:
  - the `uses_relative` and `uses_netloc` scheme lists, including the "//" `urljoin` adds for a netloc scheme without an authority (`urljoin("http:foo", "/message?t")` gives `"http:///message?t"`);
  - dropping an empty query, and scheme lower-casing;
  - the scheme syntax: `urljoin` takes a scheme only when it starts with a letter followed by letters, digits, "+", "-" or ".", while the RFC 3986 Appendix B expression modelled here takes any text before the first ':' (such as `" https"`);
  - stripping leading control characters and spaces, and removing tab, CR and LF;
  - the ValueError on unbalanced IPv6 brackets in the authority.
- email.py, logging.py, main.py and the abstract service interface are not part of this model.

## Findings

| source | as written | input that shows it | evidently intended | confidence | as-written member | corrected member |
|---|---|---|---|---|---|---|
| src/notification_services/ntfy.py:26-29 | `notify` only handles `range_ring_` types; every other type is posted as "ERROR" (its comment says that branch is unreachable) | the notifier sends `"prediction_" + "range_ring_1"` (src/notifier.py:251) for a predicted hit; ntfy then posts "ERROR" | a `prediction_range_ring_` branch with the landing-prediction text, as in the Gotify and Discord services | not executed; high | Ntfy.PredictionMessageIsError | Ntfy.CorrectedMessageCoversEngineTypes |
| src/notifier.py:73 | `_handle_packet` subscripts its argument (`packet['frame']`), but the listener passes it a `SondeFrame` (src/autorx.py:100-102), which has no `__getitem__`; the TypeError reaches the listener's outer handler (src/autorx.py:105-108), which closes the listener | any payload summary that parses, such as `Notifier.FirstSummary` | the callback reads the frame's attributes and records the sonde | not executed; high | Notifier.FirstSummaryClosesListener | Notifier.Notifier.ReceiveDatagram |
