# Handler session controller — a Dafny model

This project models the `Handler` of the mediasoup-client-aiortc worker
(`worker/handler.py`). The handler sits between the RPC channel of the
Node.js orchestrator and an aiortc peer connection. It does four things:

- It answers requests (`processRequest`).
- It acts on notifications (`processNotification`).
- It forwards engine events as notifications.
- Once a second it reports every data channel's buffered amount.

The controller's own logic is bookkeeping over two dictionaries:

- `_transceivers` maps a track id to an engine transceiver.
- `_dataChannels` maps an orchestrator-chosen `dataChannelId` to an engine data channel.

On top of that it routes on method and event names, and it selects fields from statistics reports.

Modules:

- `Values`: the null, boolean, integer and string values of the wire (`Null` is Python's `None`). Also `Option`/`Result`, the error
  paths (one `Error` variant per Python exception the controller raises or lets through), and
  `dict.get`.
- `OrderedDict`: a Python `dict` as an insertion-ordered list of pairs with distinct keys.
  - Assignment replaces a present key in place and appends a new one.
  - `del` closes the gap.
  - The poller walks a dictionary in this order, so the model reproduces the order of its notifications.
- `Stats`: the five `_serialize*Stats` field selectors, and the filters of the three statistics
  requests.
  - The filter is specified as a function on the report (`Filter`).
  - It is also computed by the loop the source runs (`CollectStats`).
- `Session`: the controller's state, and one pure transition per request, notification, engine
  callback and poller tick.
  - The engine's transceivers and channels are lists of records.
  - A registry entry holds a position in those lists, so a registry entry and the engine share
    one handle, as in Python.
  - Everything the aiortc engine decides is a parameter:
    - the outcome of a negotiation call, with the mids it assigns to transceivers and the
      receive-only transceivers a remote description adds;
    - the statistics report;
    - whether `addTransceiver` accepts the track;
    - whether a data channel is created;
    - how many bytes a `send` queued;
    - how full a channel's send queue is after the transport drains it between events (`Session.OnBufferedAmount`);
    - whether the threshold setter accepts its value.
- `SessionProperties`: the guarantees, stated as lemmas over the transitions.
- `Controller`: the class `Handler`, whose fields are the two registries, the engine handles, the
  local description and the log of sent notifications.
  - Each method updates them in place.
  - Each method is proved to produce exactly the `Session` transition of the same name.

Every failing request or notification leaves the state unchanged. Requests never send
notifications. `binary` notifications carry Python's `str()` of the base64 bytes, which is the
`b'...'` rendering; the model reproduces this as written (`Session.BytesRepr`).

## Model

| member | source | states |
|---|---|---|
| OrderedDict.Lookup | worker/handler.py:342 | `dict.get`: a value comes back exactly when the key is present, and the value is the one stored under that key |
| OrderedDict.Store | worker/handler.py:109 | `d[k] = v`: the keys become the old keys plus `k`; a present key's entry is replaced in place and every other entry keeps its position; a new key is appended at the end |
| OrderedDict.Delete | worker/handler.py:126 | `del d[k]`: no change when `k` is absent; otherwise the entry of `k` is cut out, closing the gap, and the others keep their order |
| OrderedDict.LookupStore | worker/handler.py:109 | after `d[k] = v`, `k` reads `v` and every other key reads what it did before |
| OrderedDict.LookupDelete | worker/handler.py:126 | after `del d[k]`, `k` is absent and every other key reads what it did before |
| OrderedDict.StoreKeyed | worker/handler.py:109 | assignment keeps the keys distinct |
| OrderedDict.DeleteKeyed | worker/handler.py:264 | deletion keeps the keys distinct and removes exactly the one key |
| OrderedDict.DeleteIdempotent | worker/handler.py:348-351 | deleting a key twice is the same as deleting it once |
| OrderedDict.LookupAt | worker/handler.py:76 | in a dictionary with distinct keys, the entry met during iteration is what a lookup of its key returns |
| Values.Get | worker/handler.py:117 | `dict.get`: a present key reads its stored value, and an absent key reads `None` |
| Stats.ShapeOf | worker/handler.py:172-182 | the type chain recognises exactly the five type names, each as its own serializer |
| Stats.ShapeOfTypeName | worker/handler.py:172-182 | each serializer's type name is recognised as that serializer |
| Stats.Fields | worker/handler.py:379-461 | each serializer's field list starts with `timestamp` and names no field twice |
| Stats.Select | worker/handler.py:379-461 | a selection holds only named attributes the entry has, with the entry's values |
| Stats.Serialize | worker/handler.py:379-461 | a serialized entry carries the entry's own `type` and `id` |
| Stats.Filter | worker/handler.py:168-226 | a stats request fails only with the attribute error |
| Stats.SelectSpec | worker/handler.py:379-393 | selecting named attributes succeeds exactly when all are present, and yields exactly those names with their values |
| Stats.SerializeSpec | worker/handler.py:379-461 | a serializer succeeds exactly when the entry has all its fields; it yields `type`, `id` and exactly its fields, copied from the entry |
| Stats.FieldsOmitTypeAndId | worker/handler.py:379-461 | no serializer copies `type` or `id` from the attributes, so these two always carry the entry's own type and id |
| Stats.KeptShape | worker/handler.py:196-203 | a report entry that a request keeps is serialized by the serializer matching its type, and that serializer belongs to the request's side |
| Stats.KeptIffTypeListed | worker/handler.py:217-224 | an entry is kept exactly when its type is one of the request's listed types (five for transport; three for sender; three for receiver) |
| Stats.CollectStats | worker/handler.py:169-184 | the loop over the report computes `Filter`: the serialized kept entries, or the attribute error |
| Stats.CollectStep | worker/handler.py:171-182 | one loop step adds the current key's serialization exactly when its type is kept |
| Stats.FilterKeys | worker/handler.py:168-184 | the result's keys are exactly the report keys whose type is listed |
| Stats.FilterEntries | worker/handler.py:379-461 | each result value has exactly `type`, `id` and the serializer's fields; `type` and `id` equal the entry's, and the other values are copied |
| Stats.FilterFails | worker/handler.py:172-182 | the request fails exactly when some kept entry lacks one of its serializer's fields |
| Stats.SideStatsNarrowTransport | worker/handler.py:196-224 | the sender and receiver results are the transport result restricted to their three types |
| Stats.OutcomeNarrow | worker/handler.py:172-224 | an entry a side request keeps is kept by the transport request and serialized the same way |
| Session.Initial | worker/handler.py:26-34 | a new controller has empty registries and has sent nothing |
| Session.FindByMid | worker/handler.py:374-377 | `_getTransceiverByMid`: the first transceiver whose mid equals the given one, or none if no transceiver has it |
| Session.TrackEntry | worker/handler.py:121 | a track id resolves exactly when it is registered |
| Session.GetLocalDescription | worker/handler.py:91-99 | answers the local description when there is one, otherwise `None` |
| Session.ParseMethod | worker/handler.py:91-298 | a method name is routed exactly when it is one of the twelve method names |
| Session.ParseEvent | worker/handler.py:301-368 | an event name is routed exactly when it is one of the six event names |
| Session.ProcessRequest | worker/handler.py:90-298 | keeps the registries valid; a failed request changes nothing; no request sends a notification; an unknown method fails with no change |
| Session.ProcessNotification | worker/handler.py:300-368 | keeps the registries valid; a failed notification changes nothing; the transceivers are never touched; an unknown event fails with no change |
| Session.SetLocalDescription | worker/handler.py:128-134 | the engine either rejects the description, changing nothing, or adopts it as the local description, its transceivers taking the mids it assigned |
| Session.SetRemoteDescription | worker/handler.py:136-142 | the engine either rejects the description, changing nothing, or adopts it: its transceivers take the assigned mids and it appends receive-only transceivers; the answer is `None` |
| Session.NegotiationDescription | worker/handler.py:144-156 | `createOffer`/`createAnswer` answer the engine's description exactly when it produced one, and otherwise raise what it raised |
| Session.AssignMids | worker/handler.py:128-142 | negotiation keeps every transceiver's direction and sender track and a mid it already has, and gives a transceiver without a mid the one assigned to its position |
| Session.ReceiveOnly | worker/handler.py:136-142 | each transceiver a remote description adds is receive-only, carries its mid and has no sender track |
| Session.NewTransceiver | worker/handler.py:106 | the transceiver added for a track has no mid yet, sends and receives, and its sender carries the track |
| Session.MidMatches | worker/handler.py:376 | a transceiver without a mid matches no mid; otherwise it matches exactly its own mid string |
| Session.GetTransportStats | worker/handler.py:168-184 | answers the filtered report exactly when the filter succeeds |
| Session.AddTrack | worker/handler.py:101-113 | keeps the registries valid; a failure (missing field, no track, the engine refusing the transceiver) changes nothing |
| Session.RemoveTrack | worker/handler.py:115-126 | keeps the registries valid; a failure changes nothing |
| Session.GetMid | worker/handler.py:158-166 | a successful answer is a mid (possibly none) |
| Session.GetSideStats | worker/handler.py:186-226 | a successful answer is the report filtered to the request's side |
| Session.ParamsOf | worker/handler.py:232-238 | a stream id passed to the engine came from the request's `id`, and the label is the request's `label`, or `None` when absent |
| Session.ParamsEcho | worker/handler.py:232-246 | all six options passed to the engine are the request's fields of those names, each `None` when absent |
| Session.NewChannel | worker/handler.py:239-246 | the new channel's listeners capture the creation id; it holds the options and ready state, with nothing buffered or sent and threshold 0 |
| Session.Describe | worker/handler.py:282-293 | the descriptor carries the channel's id as `streamId`, its label, ready state, buffered amount and threshold |
| Session.ChannelEntry | worker/handler.py:314 | a data-channel id resolves exactly when it is registered, to a live channel |
| Session.CreateDataChannel | worker/handler.py:228-293 | keeps the registries valid; an engine refusal changes nothing |
| Session.SendFrame | worker/handler.py:307-335 | keeps the registries valid; a failure changes nothing |
| Session.CloseChannel | worker/handler.py:337-353 | keeps the registries valid, never sends a notification, and a failure changes nothing |
| Session.SetThreshold | worker/handler.py:355-363 | keeps the registries valid, never sends a notification, and a failure (including the engine refusing the value) changes nothing |
| Session.OnChannelClose | worker/handler.py:259-267 | keeps the registries valid |
| Session.BytesRepr | worker/handler.py:274-276 | `str()` of ASCII bytes is the text wrapped as `b'...'` |
| Session.PollTick | worker/handler.py:73-77 | a tick keeps the registries valid and changes only the log |
| Session.TickNotices | worker/handler.py:76-77 | a tick sends exactly as many notices as there are registry entries |
| Session.TickNoticesAt | worker/handler.py:76-77 | the notices follow registry order: the `j`-th is a `bufferedamount` notice naming the `j`-th registered id and carrying that channel's buffered amount |
| Session.RefersWithinPrefix | worker/handler.py:76 | every entry the poller has reached so far refers to a live channel |
| Session.TickNoticesStep | worker/handler.py:76-77 | each iteration of the poller loop adds exactly the current entry's notice |
| Session.ChannelNotice | worker/handler.py:251-280 | a listener's notification targets the captured id; only a received message carries a payload, text as given and bytes under `binary` |
| Session.OnBufferedAmount | worker/handler.py:77 | the engine's send queue of channel `i`, which the controller reads as `bufferedAmount`, becomes `amount`; every other channel, the registries and the log are unchanged |
| Session.OnChannelEvent | worker/handler.py:251-280 | an `open`/`closing`/`message`/`binary`/`bufferedamountlow` listener only appends its one notification under the channel's id |
| Session.OnSessionEvent | worker/handler.py:40-71 | a state-change listener only appends one notification under the handler id, carrying the new state |
| SessionProperties.ParseMethodRoundTrip | worker/handler.py:91-228 | each method name is routed to its own branch |
| SessionProperties.ParseEventRoundTrip | worker/handler.py:301-355 | each event name is routed to its own branch |
| SessionProperties.RegistryOwnership | worker/handler.py:90-298 | among requests, only `addTrack`/`removeTrack` change the transceiver registry, only they and the two `set*Description` requests change the engine's transceivers, and only `createDataChannel` changes the data channels |
| SessionProperties.AddTrackFails | worker/handler.py:102-106 | `addTrack` fails exactly when `playerId` or `kind` is missing, when no track comes back, or when the engine's `addTransceiver` raises; a failure changes nothing, and the engine's refusal answers its error |
| SessionProperties.AddTrackSpec | worker/handler.py:101-113 | when the engine accepts the transceiver: answers `{trackId}`; appends one transceiver that carries the track; registers exactly it under the track id; leaves every other entry and all else unchanged |
| SessionProperties.AddTrackThenGetMid | worker/handler.py:101-113 | after `addTrack`, `getMid` of the track answers "no mid yet" |
| SessionProperties.RemoveTrackFails | worker/handler.py:117-121 | a missing or unregistered `trackId` fails with no change |
| SessionProperties.RemoveTrackSpec | worker/handler.py:115-126 | the transceiver becomes inactive with no sender track, and the id is forgotten; every other entry and all else is unchanged |
| SessionProperties.RemoveTrackThenGetMid | worker/handler.py:115-166 | after `removeTrack`, `getMid` of the track fails |
| SessionProperties.GetMidSpec | worker/handler.py:158-166 | answers the registered transceiver's mid (possibly none); a missing `trackId` and an unregistered one are distinct errors |
| SessionProperties.SetThenGetLocalDescription | worker/handler.py:91-134 | a description the engine adopted is what `getLocalDescription` answers next |
| SessionProperties.NegotiationKeepsTransceivers | worker/handler.py:128-142 | an adopted description keeps the transceiver registry and every registered transceiver's direction, sender track and existing mid, and gives it the assigned mid if it had none |
| SessionProperties.NegotiatedThenGetMid | worker/handler.py:158-166 | once negotiation assigns a mid to a registered track's transceiver, `getMid` of that track answers it |
| SessionProperties.SideStatsFound | worker/handler.py:186-226 | when some transceiver carries the requested mid, the sender and receiver statistics requests answer the side's filter |
| SessionProperties.AddTrackNegotiateThenStats | worker/handler.py:101-226 | `addTrack`, then a local description assigning mid `m` to the new transceiver: `getMid` answers `m`, and the statistics requests for `m` answer the side's filter |
| SessionProperties.RemoteAddedFoundByMid | worker/handler.py:136-142 | a transceiver a remote description adds is receive-only, and the statistics requests find it by its mid |
| SessionProperties.SideStatsSpec | worker/handler.py:186-226 | a missing `mid` and an unknown `mid` are distinct errors; otherwise the answer is the side's filter |
| SessionProperties.CreateDataChannelSpec | worker/handler.py:228-249 | appends the new channel to the engine, registers it under `dataChannelId` (replacing an earlier channel with that id), and leaves every other entry and all else unchanged |
| SessionProperties.CreateDataChannelDescriptor | worker/handler.py:282-293 | the answer echoes the requested options, with the engine's ready state, nothing buffered and threshold 0; an engine refusal changes nothing |
| SessionProperties.CreatedChannelEventsTargetId | worker/handler.py:251-280 | the listeners of a created channel notify under the id it was created with, and change nothing else |
| SessionProperties.CloseUnregistered | worker/handler.py:337-344 | a missing id fails; an unregistered id succeeds with no change and no notification |
| SessionProperties.CloseRegistered | worker/handler.py:345-353 | forgets the id, marks that channel closed, keeps every other entry and channel, and sends nothing |
| SessionProperties.CloseIdempotent | worker/handler.py:337-353 | closing twice leaves the same state as closing once |
| SessionProperties.OnChannelCloseSpec | worker/handler.py:259-267 | while the id is registered, forgets it and appends exactly one `close` notice; once it is gone, nothing happens and nothing fails |
| SessionProperties.OnChannelCloseOnce | worker/handler.py:259-267 | however often the engine fires `close`, at most one `close` notice is sent |
| SessionProperties.CloseThenEngineClose | worker/handler.py:259-267 | the engine's `close` after an explicit `datachannel.close` sends nothing |
| SessionProperties.SendFails | worker/handler.py:307-335 | a missing id, an unregistered id, or an engine refusal fails and sends nothing |
| SessionProperties.SendSpec | worker/handler.py:307-335 | the frame is queued on that channel alone; exactly one `bufferedamount` notice follows, carrying the new amount |
| SessionProperties.SetThresholdSpec | worker/handler.py:355-363 | sets only the registered channel's threshold when the engine accepts the value; a missing id, an unregistered id and a refused value are three distinct errors, and each changes nothing |
| SessionProperties.PollTickSpec | worker/handler.py:73-77 | a tick appends exactly one `bufferedamount` notice per registered id, each with that channel's amount, and changes nothing else |
| SessionProperties.DrainThenTick | worker/handler.py:73-77 | after the engine's queue of channel `i` changes to `amount` (e.g. drains to 0), the next tick reports `amount` for every id registered to `i` and the old amount for every other id, in registry order |
| Controller.Handler.constructor | worker/handler.py:18-34 | the new handler is the initial session |
| Controller.Handler.Notify | worker/handler.py:45-49 | sending appends one notice to the log and changes nothing else |
| Controller.Handler.ProcessRequest | worker/handler.py:90-298 | the in-place dispatch performs exactly `Session.ProcessRequest` |
| Controller.Handler.AddTrack | worker/handler.py:101-113 | the in-place update performs exactly `Session.AddTrack` |
| Controller.Handler.RemoveTrack | worker/handler.py:115-126 | the in-place update performs exactly `Session.RemoveTrack` |
| Controller.Handler.SetLocalDescription | worker/handler.py:128-134 | performs exactly `Session.SetLocalDescription` |
| Controller.Handler.SetRemoteDescription | worker/handler.py:136-142 | performs exactly `Session.SetRemoteDescription` |
| Controller.Handler.GetSideStats | worker/handler.py:186-226 | answers exactly `Session.GetSideStats`, computing the filter by the loop |
| Controller.Handler.CreateDataChannel | worker/handler.py:228-293 | the in-place update performs exactly `Session.CreateDataChannel` |
| Controller.Handler.ProcessNotification | worker/handler.py:300-368 | the in-place dispatch performs exactly `Session.ProcessNotification` |
| Controller.Handler.SendFrame | worker/handler.py:307-335 | performs exactly `Session.SendFrame` |
| Controller.Handler.CloseChannel | worker/handler.py:337-353 | performs exactly `Session.CloseChannel` |
| Controller.Handler.SetThreshold | worker/handler.py:355-363 | performs exactly `Session.SetThreshold` |
| Controller.Handler.OnChannelClose | worker/handler.py:259-267 | performs exactly `Session.OnChannelClose` |
| Controller.Handler.OnChannelEvent | worker/handler.py:251-280 | performs exactly `Session.OnChannelEvent` |
| Controller.Handler.OnBufferedAmount | worker/handler.py:77 | performs exactly `Session.OnBufferedAmount` |
| Controller.Handler.OnSessionEvent | worker/handler.py:40-71 | performs exactly `Session.OnSessionEvent` |
| Controller.Handler.PollTick | worker/handler.py:73-77 | the loop over the registry appends exactly `Session.TickNotices`, so `SessionProperties.PollTickSpec` holds of it |

## Left out

- The aiortc engine is not modelled.
  - SDP negotiation itself. Its effect is a parameter: the answer or error, the mids assigned, and the receive-only transceivers a remote description adds. A remote description's own record and the signaling state are not modelled.
  - ICE, DTLS and SCTP.
  - What `getStats` reports; the report is a parameter.
  - Its own validation is a parameter (`transceiverAccepted`, `queued`, `thresholdAccepted`, the channel verdict): `addTransceiver` for a track that already has a sender or of an unknown kind, `send` on a channel that is not open, a threshold its setter rejects, and `createDataChannel` options it rejects.
  - When the transport drains a send queue is not modelled; any change of a channel's buffered amount is the transition `Session.OnBufferedAmount`. When the engine fires `bufferedamountlow` is likewise its own decision, not tied in the model to the amount and the threshold.
- Session.SetLocalDescription and Session.SetRemoteDescription: building `RTCSessionDescription(**data)` from the request (worker/handler.py:133, worker/handler.py:141) is folded into the engine's outcome. The inverted `isinstance` test (worker/handler.py:130, worker/handler.py:138) never fires on a dict, so it is left out.
- The asyncio machinery is left out: the poller's `while True` with `asyncio.sleep` (the model has one tick), task creation and cancellation, and `close()` (worker/handler.py:79-88). Each handler runs atomically. The `RuntimeError` Python raises when a dictionary changes while a tick awaits is therefore not modelled.
- The `Channel` transport and `Logger` are I/O. Notifications are a log. The `track` listener and `enableTrack`/`disableTrack` only log, so they change nothing.
- base64 is left out. `sendBinary` payloads and `binary` message payloads are opaque base64 text, and decoding failures count among the engine's refusals of `send`.
- Statistics timestamps and float fields (`timestamp()`, `jitter`, `roundTripTime`, `fractionLost`) are opaque values. A missing attribute becomes the attribute error.
- Fractional JSON numbers are not values of the model: `Value` has null, booleans, integers and strings. A request field such as `maxPacketLifeTime` or a threshold sent as a fractional number is not represented.
- Python key equality across types (`True == 1` as dictionary keys) is not modelled: `Value`s are equal only when they are the same constructor.
- Controller.Handler.GetSideStats: the engine report is the same parameter for sender and receiver. Which transceiver's sender or receiver produced it is not modelled.
