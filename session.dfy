/** The session controller's state and what each inbound request, inbound
    notification and engine event does to it, as pure transitions. The
    `Handler` class of module Controller performs the same steps in place. */
module Session {
  import opened Values
  import opened OrderedDict
  import opened Stats

  // ---------------------------------------------------------------------
  // The media engine, as the controller sees it
  // ---------------------------------------------------------------------

  datatype Direction = SendRecv | SendOnly | RecvOnly | Inactive

  /** An engine transceiver: its negotiated mid (none before negotiation),
      its direction and the id of the track its sender carries. */
  datatype Transceiver = Transceiver(mid: Option<string>, direction: Direction, senderTrack: Option<string>)

  /** A track handed out by the track source. */
  datatype Track = Track(id: string, kind: string)

  /** A frame handed to a data channel's `send`: text as given, binary as its
      base64 text (the decoding is left opaque). */
  datatype Frame = TextFrame(text: Value) | BinaryFrame(base64: Value)

  /** The creation options `createDataChannel` passes through from the request. */
  datatype ChannelParams = ChannelParams(
    id: Value, ordered: Value, maxPacketLifeTime: Value, maxRetransmits: Value, channelLabel: Value, protocol: Value)

  /** An engine data channel. `listenerId` is the `dataChannelId` its event
      listeners captured when the controller created it. */
  datatype DataChannel = DataChannel(
    listenerId: Value, params: ChannelParams, readyState: string,
    bufferedAmount: nat, threshold: Value, closed: bool, sent: seq<Frame>)

  datatype Description = Description(sdpType: string, sdp: string)

  /** What a negotiation call does inside the engine: the description it
      answers (or what it raised), the mids it assigns to its transceivers,
      by position in its transceiver list, and the mids of the receive-only
      transceivers a remote description makes it add. */
  datatype Negotiation = Negotiation(outcome: Result<Description>, mids: map<nat, string>, added: seq<string>)

  /** What the engine decides on a request, outside the controller's control:
      the negotiation call's effect, the statistics report it produces,
      whether `addTransceiver` accepts the track (it raises for a track that
      already has a sender or a kind other than audio and video), and
      whether it accepts a new data channel (and in which ready state). */
  datatype EngineAnswers = EngineAnswers(
    negotiation: Negotiation, report: map<string, StatEntry>, transceiverAccepted: bool, verdict: ChannelVerdict)

  datatype ChannelVerdict = Refused | Accepted(readyState: string)

  /** What the engine decides on a notification: how many bytes a `send`
      queued (`None` when it raised), and whether the threshold setter
      accepted the value. */
  datatype ChannelAnswers = ChannelAnswers(queued: Option<nat>, thresholdAccepted: bool)

  // ---------------------------------------------------------------------
  // The wire
  // ---------------------------------------------------------------------

  datatype Request = Request(name: string, data: map<string, Value>, internal: map<string, Value>)

  datatype Notification = Notification(name: string, data: Value, internal: map<string, Value>)

  /** An outbound notification: target id, event name, payload (`Null` when none). */
  datatype Notice = Notice(target: Value, event: string, data: Value)

  /** The channel descriptor `createDataChannel` answers with. */
  datatype Descriptor = Descriptor(
    streamId: Value, ordered: Value, maxPacketLifeTime: Value, maxRetransmits: Value,
    channelLabel: Value, protocol: Value, readyState: string, bufferedAmount: nat,
    bufferedAmountLowThreshold: Value)

  /** What a request answers; `Nothing` is Python's `None`. */
  datatype Reply =
    | Nothing
    | Desc(description: Description)
    | TrackAdded(trackId: string)
    | MidOf(mid: Option<string>)
    | StatsOf(stats: map<string, Serialized>)
    | ChannelCreated(descriptor: Descriptor)

  // ---------------------------------------------------------------------
  // The controller's state
  // ---------------------------------------------------------------------

  /** `transceivers` maps a track id and `dataChannels` a data-channel id to
      a position in the engine's transceiver or channel list, so a registry
      entry and the engine refer to the same handle. `log` is every
      notification sent so far. */
  datatype State = State(
    handlerId: string,
    transceivers: Dict<string, nat>,
    dataChannels: Dict<Value, nat>,
    engineTransceivers: seq<Transceiver>,
    engineChannels: seq<DataChannel>,
    localDescription: Option<Description>,
    log: seq<Notice>)

  /** Both registries are dictionaries whose entries refer to live engine handles. */
  predicate Valid(s: State)
  {
    && Keyed(s.transceivers)
    && Keyed(s.dataChannels)
    && (forall e | e in s.transceivers :: e.1 < |s.engineTransceivers|)
    && (forall e | e in s.dataChannels :: e.1 < |s.engineChannels|)
  }

  datatype Transition = Transition(result: Result<Reply>, next: State)

  /** A new controller: empty registries over a fresh peer connection. */
  function Initial(handlerId: string): (s: State)
    ensures Valid(s)
    ensures Keys(s.transceivers) == {} && Keys(s.dataChannels) == {} && s.log == []
  {
    State(handlerId, [], [], [], [], None, [])
  }

  // ---------------------------------------------------------------------
  // Lookups
  // ---------------------------------------------------------------------

  /** The transceiver registered under a request's `trackId`; only a string can be a track id. */
  function TrackEntry(s: State, trackId: Value): (r: Option<nat>)
    requires Valid(s)
    ensures r.Some? ==> r.value < |s.engineTransceivers|
    ensures r.Some? <==> trackId.Str? && trackId.s in Keys(s.transceivers)
  {
    if trackId.Str? then Lookup(s.transceivers, trackId.s) else None
  }

  /** The data channel registered under `id`. */
  function ChannelEntry(s: State, id: Value): (r: Option<nat>)
    requires Valid(s)
    ensures r.Some? ==> r.value < |s.engineChannels|
    ensures r.Some? <==> id in Keys(s.dataChannels)
  {
    Lookup(s.dataChannels, id)
  }

  /** The filter of `_getTransceiverByMid`: `x.mid == mid`. A transceiver
      without a mid matches no requested mid, since the request's `None` was
      refused before the lookup. */
  predicate MidMatches(t: Transceiver, mid: Value)
    ensures t.mid.None? ==> !MidMatches(t, mid)
    ensures mid.Str? ==> (MidMatches(t, mid) <==> t.mid == Some(mid.s))
  {
    t.mid.Some? && mid == Str(t.mid.value)
  }

  /** `_getTransceiverByMid`: the first engine transceiver whose mid equals `mid`. */
  function FindByMid(ts: seq<Transceiver>, mid: Value): (r: Option<nat>)
    ensures r.Some? ==> r.value < |ts| && MidMatches(ts[r.value], mid)
    ensures r.Some? ==> forall j | 0 <= j < r.value :: !MidMatches(ts[j], mid)
    ensures r.None? ==> forall j | 0 <= j < |ts| :: !MidMatches(ts[j], mid)
  {
    if ts == [] then None
    else if MidMatches(ts[0], mid) then Some(0)
    else match FindByMid(ts[1..], mid)
      case None => None
      case Some(i) => Some(i + 1)
  }

  // ---------------------------------------------------------------------
  // Requests
  // ---------------------------------------------------------------------

  /** `handler.getLocalDescription`: the engine's local description, or
      `None` while none is set. */
  function GetLocalDescription(s: State): (r: Reply)
    ensures r.Desc? <==> s.localDescription.Some?
    ensures r.Desc? ==> r.description == s.localDescription.value
    ensures !r.Desc? ==> r == Nothing
  {
    match s.localDescription
    case None => Nothing
    case Some(d) => Desc(d)
  }

  /** The transceiver the engine creates for a track: no mid until
      negotiation, sending and receiving, its sender carrying the track. */
  function NewTransceiver(track: Track): (t: Transceiver)
    ensures t.mid.None? && t.direction == SendRecv && t.senderTrack == Some(track.id)
  {
    Transceiver(None, SendRecv, Some(track.id))
  }

  /** `handler.addTrack`: resolve the track, add a transceiver for it to the
      engine (which may refuse, `accepted` false) and register it under the
      track's id. */
  function AddTrack(s: State, data: map<string, Value>, getTrack: (Value, Value) -> Option<Track>, accepted: bool): (t: Transition)
    requires Valid(s)
    ensures Valid(t.next)
    ensures t.result.Err? ==> t.next == s
  {
    if "playerId" !in data then Transition(Err(MissingField("playerId")), s)
    else if "kind" !in data then Transition(Err(MissingField("kind")), s)
    else match getTrack(data["playerId"], data["kind"])
      case None => Transition(Err(TrackUnavailable), s)
      case Some(track) =>
        if !accepted then Transition(Err(EngineError), s)
        else
        var i := |s.engineTransceivers|;
        StoreKeyed(s.transceivers, track.id, i);
        Transition(Ok(TrackAdded(track.id)),
                   s.(engineTransceivers := s.engineTransceivers + [NewTransceiver(track)],
                      transceivers := Store(s.transceivers, track.id, i)))
  }

  /** `handler.removeTrack`: stop the registered transceiver (direction
      inactive, sender track cleared), then forget it. */
  function RemoveTrack(s: State, data: map<string, Value>): (t: Transition)
    requires Valid(s)
    ensures Valid(t.next)
    ensures t.result.Err? ==> t.next == s
  {
    var trackId := Get(data, "trackId");
    if trackId == Null then Transition(Err(MissingField("trackId")), s)
    else match TrackEntry(s, trackId)
      case None => Transition(Err(KeyNotFound), s)
      case Some(i) =>
        var stopped := s.engineTransceivers[i].(direction := Inactive, senderTrack := None);
        DeleteKeyed(s.transceivers, trackId.s);
        Transition(Ok(Nothing),
                   s.(engineTransceivers := s.engineTransceivers[i := stopped],
                      transceivers := Delete(s.transceivers, trackId.s)))
  }

  /** `handler.getMid`: the mid of the registered transceiver. */
  function GetMid(s: State, data: map<string, Value>): (r: Result<Reply>)
    requires Valid(s)
    ensures r.Ok? ==> r.value.MidOf?
  {
    var trackId := Get(data, "trackId");
    if trackId == Null then Err(MissingField("trackId"))
    else match TrackEntry(s, trackId)
      case None => Err(KeyNotFound)
      case Some(i) => Ok(MidOf(s.engineTransceivers[i].mid))
  }

  function StatsReply(r: Result<map<string, Serialized>>): Result<Reply>
  {
    match r
    case Ok(m) => Ok(StatsOf(m))
    case Err(e) => Err(e)
  }

  /** `handler.getTransportStats`: the engine report, filtered and serialized. */
  function GetTransportStats(report: map<string, StatEntry>): (r: Result<Reply>)
    ensures r.Ok? <==> Filter(report, TransportStats).Ok?
    ensures r.Ok? ==> r.value == StatsOf(Filter(report, TransportStats).value)
  {
    StatsReply(Filter(report, TransportStats))
  }

  /** `handler.getSenderStats` / `handler.getReceiverStats`: the report of
      the transceiver carrying `mid`, narrowed to that side. */
  function GetSideStats(s: State, data: map<string, Value>, report: map<string, StatEntry>, side: Selector): (r: Result<Reply>)
    requires side != TransportStats
    ensures r.Ok? ==> Filter(report, side).Ok? && r.value == StatsOf(Filter(report, side).value)
  {
    var mid := Get(data, "mid");
    if mid == Null then Err(MissingField("mid"))
    else match FindByMid(s.engineTransceivers, mid)
      case None => Err(NoSuchMid)
      case Some(_) => StatsReply(Filter(report, side))
  }

  /** The options `createDataChannel` passes to the engine, each `None` when absent. */
  function ParamsOf(data: map<string, Value>): (p: ChannelParams)
    ensures p.id != Null ==> "id" in data && data["id"] == p.id
    ensures "label" !in data ==> p.channelLabel == Null
    ensures "label" in data ==> p.channelLabel == data["label"]
  {
    ChannelParams(Get(data, "id"), Get(data, "ordered"), Get(data, "maxPacketLifeTime"),
                  Get(data, "maxRetransmits"), Get(data, "label"), Get(data, "protocol"))
  }

  /** Every option passed to the engine is the request's field of that name,
      or `None` when the request lacks it. */
  lemma ParamsEcho(data: map<string, Value>)
    ensures var p := ParamsOf(data);
      && ("id" in data ==> p.id == data["id"]) && ("id" !in data ==> p.id == Null)
      && ("ordered" in data ==> p.ordered == data["ordered"]) && ("ordered" !in data ==> p.ordered == Null)
      && ("maxPacketLifeTime" in data ==> p.maxPacketLifeTime == data["maxPacketLifeTime"])
      && ("maxPacketLifeTime" !in data ==> p.maxPacketLifeTime == Null)
      && ("maxRetransmits" in data ==> p.maxRetransmits == data["maxRetransmits"])
      && ("maxRetransmits" !in data ==> p.maxRetransmits == Null)
      && ("label" in data ==> p.channelLabel == data["label"]) && ("label" !in data ==> p.channelLabel == Null)
      && ("protocol" in data ==> p.protocol == data["protocol"]) && ("protocol" !in data ==> p.protocol == Null)
  {
  }

  /** The descriptor of a channel: its creation options, under the names the
      orchestrator uses (`id` becomes `streamId`), and its live state. */
  function Describe(c: DataChannel): (d: Descriptor)
    ensures d.streamId == c.params.id && d.channelLabel == c.params.channelLabel
    ensures d.readyState == c.readyState && d.bufferedAmount == c.bufferedAmount
    ensures d.bufferedAmountLowThreshold == c.threshold
  {
    Descriptor(c.params.id, c.params.ordered, c.params.maxPacketLifeTime, c.params.maxRetransmits,
               c.params.channelLabel, c.params.protocol, c.readyState, c.bufferedAmount, c.threshold)
  }

  /** The channel the engine creates in negotiated mode: open to the
      captured id's listeners, nothing buffered or sent, threshold 0. */
  function NewChannel(listenerId: Value, params: ChannelParams, readyState: string): (c: DataChannel)
    ensures c.listenerId == listenerId && c.params == params && c.readyState == readyState
    ensures c.bufferedAmount == 0 && c.threshold == Int(0) && !c.closed && c.sent == []
  {
    DataChannel(listenerId, params, readyState, 0, Int(0), false, [])
  }

  /** `handler.createDataChannel`: create a negotiated channel and register it
      under the orchestrator's `dataChannelId` (not checked: an absent id
      registers the channel under `None`). */
  function CreateDataChannel(s: State, data: map<string, Value>, internal: map<string, Value>, verdict: ChannelVerdict): (t: Transition)
    requires Valid(s)
    ensures Valid(t.next)
    ensures t.result.Err? ==> t.next == s
  {
    var id := Get(internal, "dataChannelId");
    match verdict
    case Refused => Transition(Err(EngineError), s)
    case Accepted(readyState) =>
      var channel := NewChannel(id, ParamsOf(data), readyState);
      var i := |s.engineChannels|;
      StoreKeyed(s.dataChannels, id, i);
      Transition(Ok(ChannelCreated(Describe(channel))),
                 s.(engineChannels := s.engineChannels + [channel],
                    dataChannels := Store(s.dataChannels, id, i)))
  }

  datatype RequestKind =
    | GetLocalDescriptionRequest | AddTrackRequest | RemoveTrackRequest
    | SetLocalDescriptionRequest | SetRemoteDescriptionRequest
    | CreateOfferRequest | CreateAnswerRequest | GetMidRequest
    | GetTransportStatsRequest | GetSenderStatsRequest | GetReceiverStatsRequest
    | CreateDataChannelRequest

  function MethodName(k: RequestKind): string
  {
    match k
    case GetLocalDescriptionRequest => "handler.getLocalDescription"
    case AddTrackRequest => "handler.addTrack"
    case RemoveTrackRequest => "handler.removeTrack"
    case SetLocalDescriptionRequest => "handler.setLocalDescription"
    case SetRemoteDescriptionRequest => "handler.setRemoteDescription"
    case CreateOfferRequest => "handler.createOffer"
    case CreateAnswerRequest => "handler.createAnswer"
    case GetMidRequest => "handler.getMid"
    case GetTransportStatsRequest => "handler.getTransportStats"
    case GetSenderStatsRequest => "handler.getSenderStats"
    case GetReceiverStatsRequest => "handler.getReceiverStats"
    case CreateDataChannelRequest => "handler.createDataChannel"
  }

  /** The method-name chain of `processRequest`: a name is routed exactly
      when it is one of the twelve method names. */
  function ParseMethod(name: string): (r: Option<RequestKind>)
    ensures r.Some? ==> MethodName(r.value) == name
    ensures r.None? ==> forall k :: MethodName(k) != name
  {
    if name == "handler.getLocalDescription" then Some(GetLocalDescriptionRequest)
    else if name == "handler.addTrack" then Some(AddTrackRequest)
    else if name == "handler.removeTrack" then Some(RemoveTrackRequest)
    else if name == "handler.setLocalDescription" then Some(SetLocalDescriptionRequest)
    else if name == "handler.setRemoteDescription" then Some(SetRemoteDescriptionRequest)
    else if name == "handler.createOffer" then Some(CreateOfferRequest)
    else if name == "handler.createAnswer" then Some(CreateAnswerRequest)
    else if name == "handler.getMid" then Some(GetMidRequest)
    else if name == "handler.getTransportStats" then Some(GetTransportStatsRequest)
    else if name == "handler.getSenderStats" then Some(GetSenderStatsRequest)
    else if name == "handler.getReceiverStats" then Some(GetReceiverStatsRequest)
    else if name == "handler.createDataChannel" then Some(CreateDataChannelRequest)
    else None
  }

  /** `processRequest`: route on the method name. Negotiation requests hand
      back what the engine answered; no request sends a notification, and a
      failed request changes nothing. */
  function ProcessRequest(s: State, req: Request, getTrack: (Value, Value) -> Option<Track>, eng: EngineAnswers): (t: Transition)
    requires Valid(s)
    ensures Valid(t.next)
    ensures t.result.Err? ==> t.next == s
    ensures t.next.log == s.log && t.next.handlerId == s.handlerId
    ensures (forall k :: MethodName(k) != req.name) ==> t == Transition(Err(UnknownMethod(req.name)), s)
  {
    match ParseMethod(req.name)
    case None => Transition(Err(UnknownMethod(req.name)), s)
    case Some(kind) =>
      match kind
      case GetLocalDescriptionRequest => Transition(Ok(GetLocalDescription(s)), s)
      case AddTrackRequest => AddTrack(s, req.data, getTrack, eng.transceiverAccepted)
      case RemoveTrackRequest => RemoveTrack(s, req.data)
      case SetLocalDescriptionRequest => SetLocalDescription(s, eng.negotiation)
      case SetRemoteDescriptionRequest => SetRemoteDescription(s, eng.negotiation)
      case CreateOfferRequest => Transition(NegotiationDescription(eng.negotiation.outcome), s)
      case CreateAnswerRequest => Transition(NegotiationDescription(eng.negotiation.outcome), s)
      case GetMidRequest => Transition(GetMid(s, req.data), s)
      case GetTransportStatsRequest => Transition(GetTransportStats(eng.report), s)
      case GetSenderStatsRequest => Transition(GetSideStats(s, req.data, eng.report, SenderStats), s)
      case GetReceiverStatsRequest => Transition(GetSideStats(s, req.data, eng.report, ReceiverStats), s)
      case CreateDataChannelRequest => CreateDataChannel(s, req.data, req.internal, eng.verdict)
  }

  /** The engine's transceivers after negotiation assigned `mids`: a
      transceiver keeps a mid it already has and otherwise takes the one
      assigned to its position, if any; nothing else about it changes. */
  function AssignMids(ts: seq<Transceiver>, mids: map<nat, string>): (r: seq<Transceiver>)
    ensures |r| == |ts|
    ensures forall i | 0 <= i < |ts| :: r[i].direction == ts[i].direction && r[i].senderTrack == ts[i].senderTrack
    ensures forall i | 0 <= i < |ts| && ts[i].mid.Some? :: r[i].mid == ts[i].mid
    ensures forall i | 0 <= i < |ts| && ts[i].mid.None? :: r[i].mid == if i in mids then Some(mids[i]) else None
  {
    seq(|ts|, i requires 0 <= i < |ts| =>
      if ts[i].mid.None? && i in mids then ts[i].(mid := Some(mids[i])) else ts[i])
  }

  /** The receive-only transceivers the engine adds for media a remote
      description offers: each has its mid and no sender track. */
  function ReceiveOnly(mids: seq<string>): (r: seq<Transceiver>)
    ensures |r| == |mids|
    ensures forall k | 0 <= k < |mids| :: r[k] == Transceiver(Some(mids[k]), RecvOnly, None)
  {
    seq(|mids|, k requires 0 <= k < |mids| => Transceiver(Some(mids[k]), RecvOnly, None))
  }

  /** `handler.setLocalDescription`: the engine either rejects the
      description, changing nothing, or adopts it, after which it is what
      `getLocalDescription` reports and the engine's transceivers carry the
      mids it assigned. */
  function SetLocalDescription(s: State, n: Negotiation): (t: Transition)
    requires Valid(s)
    ensures Valid(t.next)
    ensures t.result.Err? <==> n.outcome.Err?
    ensures t.result.Err? ==> t.next == s
    ensures t.result.Ok? ==>
      t.result.value == Nothing &&
      t.next == s.(localDescription := Some(n.outcome.value),
                   engineTransceivers := AssignMids(s.engineTransceivers, n.mids))
  {
    match n.outcome
    case Ok(d) =>
      Transition(Ok(Nothing), s.(localDescription := Some(d),
                                 engineTransceivers := AssignMids(s.engineTransceivers, n.mids)))
    case Err(e) => Transition(Err(e), s)
  }

  /** `handler.setRemoteDescription`: the engine either rejects the
      description, changing nothing, or adopts it: its transceivers take the
      mids it assigned and it adds a receive-only transceiver for each
      remote medium it had no transceiver for. The answer is `None`. */
  function SetRemoteDescription(s: State, n: Negotiation): (t: Transition)
    requires Valid(s)
    ensures Valid(t.next)
    ensures t.result.Err? <==> n.outcome.Err?
    ensures t.result.Err? ==> t.next == s
    ensures t.result.Ok? ==>
      t.result.value == Nothing &&
      t.next == s.(engineTransceivers := AssignMids(s.engineTransceivers, n.mids) + ReceiveOnly(n.added))
  {
    match n.outcome
    case Ok(_) =>
      Transition(Ok(Nothing), s.(engineTransceivers := AssignMids(s.engineTransceivers, n.mids) + ReceiveOnly(n.added)))
    case Err(e) => Transition(Err(e), s)
  }

  /** `createOffer` / `createAnswer` answer the engine's `{type, sdp}`, or raise what it raised. */
  function NegotiationDescription(outcome: Result<Description>): (r: Result<Reply>)
    ensures r.Ok? <==> outcome.Ok?
    ensures r.Ok? ==> r.value == Desc(outcome.value)
    ensures r.Err? ==> r.error == outcome.error
  {
    match outcome
    case Ok(d) => Ok(Desc(d))
    case Err(e) => Err(e)
  }

  // ---------------------------------------------------------------------
  // Notifications
  // ---------------------------------------------------------------------

  /** `datachannel.send` / `datachannel.sendBinary`: hand the frame to the
      registered channel, whose engine queues `queued` more bytes, then
      report the channel's buffered amount. `queued` is what the engine's
      `send` did: `None` when it raised (the channel is not open, or the
      payload is not something it can send). */
  function SendFrame(s: State, internal: map<string, Value>, frame: Frame, queued: Option<nat>): (t: Transition)
    requires Valid(s)
    ensures Valid(t.next)
    ensures t.result.Err? ==> t.next == s
  {
    var id := Get(internal, "dataChannelId");
    if id == Null then Transition(Err(MissingField("dataChannelId")), s)
    else match ChannelEntry(s, id)
      case None => Transition(Err(KeyNotFound), s)
      case Some(i) =>
        if queued.None? then Transition(Err(EngineError), s)
        else
        var c := s.engineChannels[i];
        var c' := c.(sent := c.sent + [frame], bufferedAmount := c.bufferedAmount + queued.value);
        Transition(Ok(Nothing),
                   s.(engineChannels := s.engineChannels[i := c'],
                      log := s.log + [Notice(id, "bufferedamount", Int(c'.bufferedAmount))]))
  }

  /** `datachannel.close`: forget the registered channel and close its
      handle; an id that is not registered is silently ignored. */
  function CloseChannel(s: State, internal: map<string, Value>): (t: Transition)
    requires Valid(s)
    ensures Valid(t.next)
    ensures t.result.Err? ==> t.next == s
    ensures t.next.log == s.log
  {
    var id := Get(internal, "dataChannelId");
    if id == Null then Transition(Err(MissingField("dataChannelId")), s)
    else match ChannelEntry(s, id)
      case None => Transition(Ok(Nothing), s)
      case Some(i) =>
        DeleteKeyed(s.dataChannels, id);
        Transition(Ok(Nothing),
                   s.(dataChannels := Delete(s.dataChannels, id),
                      engineChannels := s.engineChannels[i := s.engineChannels[i].(closed := true)]))
  }

  /** `datachannel.setBufferedAmountLowThreshold`: set the registered
      channel's threshold. `accepted` is what the engine's setter did with
      the value: `false` when it raised (a value out of its range). */
  function SetThreshold(s: State, internal: map<string, Value>, value: Value, accepted: bool): (t: Transition)
    requires Valid(s)
    ensures Valid(t.next)
    ensures t.result.Err? ==> t.next == s
    ensures t.next.log == s.log
  {
    var id := Get(internal, "dataChannelId");
    if id == Null then Transition(Err(MissingField("dataChannelId")), s)
    else match ChannelEntry(s, id)
      case None => Transition(Err(KeyNotFound), s)
      case Some(i) =>
        if !accepted then Transition(Err(EngineError), s)
        else
        Transition(Ok(Nothing),
                   s.(engineChannels := s.engineChannels[i := s.engineChannels[i].(threshold := value)]))
  }

  datatype EventKind =
    | EnableTrackEvent | DisableTrackEvent | SendEvent | SendBinaryEvent
    | CloseEvent | SetThresholdEvent

  function EventName(k: EventKind): string
  {
    match k
    case EnableTrackEvent => "enableTrack"
    case DisableTrackEvent => "disableTrack"
    case SendEvent => "datachannel.send"
    case SendBinaryEvent => "datachannel.sendBinary"
    case CloseEvent => "datachannel.close"
    case SetThresholdEvent => "datachannel.setBufferedAmountLowThreshold"
  }

  /** The event-name chain of `processNotification`: a name is routed exactly
      when it is one of the six event names. */
  function ParseEvent(name: string): (r: Option<EventKind>)
    ensures r.Some? ==> EventName(r.value) == name
    ensures r.None? ==> forall k :: EventName(k) != name
  {
    if name == "enableTrack" then Some(EnableTrackEvent)
    else if name == "disableTrack" then Some(DisableTrackEvent)
    else if name == "datachannel.send" then Some(SendEvent)
    else if name == "datachannel.sendBinary" then Some(SendBinaryEvent)
    else if name == "datachannel.close" then Some(CloseEvent)
    else if name == "datachannel.setBufferedAmountLowThreshold" then Some(SetThresholdEvent)
    else None
  }

  /** `processNotification`: route on the event name. `enableTrack` and
      `disableTrack` only log; a failed notification changes nothing; the
      transceiver registry is never touched. */
  function ProcessNotification(s: State, n: Notification, eng: ChannelAnswers): (t: Transition)
    requires Valid(s)
    ensures Valid(t.next)
    ensures t.result.Err? ==> t.next == s
    ensures t.next.transceivers == s.transceivers && t.next.engineTransceivers == s.engineTransceivers
    ensures (forall k :: EventName(k) != n.name) ==> t == Transition(Err(UnknownEvent(n.name)), s)
  {
    match ParseEvent(n.name)
    case None => Transition(Err(UnknownEvent(n.name)), s)
    case Some(kind) =>
      match kind
      case EnableTrackEvent => Transition(Ok(Nothing), s)
      case DisableTrackEvent => Transition(Ok(Nothing), s)
      case SendEvent => SendFrame(s, n.internal, TextFrame(n.data), eng.queued)
      case SendBinaryEvent => SendFrame(s, n.internal, BinaryFrame(n.data), eng.queued)
      case CloseEvent => CloseChannel(s, n.internal)
      case SetThresholdEvent => SetThreshold(s, n.internal, n.data, eng.thresholdAccepted)
  }

  // ---------------------------------------------------------------------
  // Engine events and the poller
  // ---------------------------------------------------------------------

  /** The `close` listener of engine channel `i`: if its id is still
      registered, forget it and tell the orchestrator; otherwise (already
      removed, e.g. by an explicit close) do nothing. */
  function OnChannelClose(s: State, i: nat): (s': State)
    requires Valid(s) && i < |s.engineChannels|
    ensures Valid(s')
  {
    var id := s.engineChannels[i].listenerId;
    if id in Keys(s.dataChannels) then
      DeleteKeyed(s.dataChannels, id);
      s.(dataChannels := Delete(s.dataChannels, id), log := s.log + [Notice(id, "close", Null)])
    else
      s
  }

  /** A message arriving on a data channel: text, or bytes given as their base64 rendering. */
  datatype Message = TextMessage(text: string) | BytesMessage(base64: string)

  /** The engine events on a data channel that only produce a notification. */
  datatype ChannelEvent = Opened | Closing | Received(message: Message) | BufferedAmountLow

  /** Python's `str()` of a `bytes` object holding ASCII text: the text
      wrapped as a bytes literal, `b'...'`. The `binary` notification carries
      this rendering of the base64 text, not the base64 text itself. */
  function BytesRepr(ascii: string): (r: string)
    ensures |r| == |ascii| + 3 && r[..2] == "b'" && r[2..|r| - 1] == ascii && r[|r| - 1] == '\''
  {
    "b'" + ascii + "'"
  }

  /** The notification a channel listener sends: always under the captured
      id; only a received message carries a payload, a text one as given and
      a bytes one under the `binary` event. */
  function ChannelNotice(id: Value, ev: ChannelEvent): (r: Notice)
    ensures r.target == id
    ensures r.data != Null <==> ev.Received?
    ensures ev.Received? ==> (r.event == "binary" <==> ev.message.BytesMessage?)
    ensures ev.Received? && ev.message.TextMessage? ==> r.data == Str(ev.message.text)
  {
    match ev
    case Opened => Notice(id, "open", Null)
    case Closing => Notice(id, "closing", Null)
    case Received(TextMessage(text)) => Notice(id, "message", Str(text))
    case Received(BytesMessage(b64)) => Notice(id, "binary", Str(BytesRepr(b64)))
    case BufferedAmountLow => Notice(id, "bufferedamountlow", Null)
  }

  /** The `open`, `closing`, `message` and `bufferedamountlow` listeners of engine channel `i`. */
  function OnChannelEvent(s: State, i: nat, ev: ChannelEvent): (s': State)
    requires Valid(s) && i < |s.engineChannels|
    ensures Valid(s')
    ensures s'.log == s.log + [ChannelNotice(s.engineChannels[i].listenerId, ev)]
    ensures s' == s.(log := s'.log)
  {
    s.(log := s.log + [ChannelNotice(s.engineChannels[i].listenerId, ev)])
  }

  /** The engine's transport moving data off channel `i`'s send queue (or
      `send` calls it counts): the queue, which the controller reads as the
      channel's buffered amount, now holds `amount` bytes. The controller
      is not involved: no registry changes and nothing is sent. */
  function OnBufferedAmount(s: State, i: nat, amount: nat): (s': State)
    requires Valid(s) && i < |s.engineChannels|
    ensures Valid(s')
    ensures |s'.engineChannels| == |s.engineChannels|
    ensures s'.engineChannels[i] == s.engineChannels[i].(bufferedAmount := amount)
    ensures forall j | 0 <= j < |s.engineChannels| && j != i :: s'.engineChannels[j] == s.engineChannels[j]
    ensures s' == s.(engineChannels := s'.engineChannels)
  {
    s.(engineChannels := s.engineChannels[i := s.engineChannels[i].(bufferedAmount := amount)])
  }

  datatype SessionEvent = SignalingStateChange | IceGatheringStateChange | IceConnectionStateChange

  function SessionEventName(ev: SessionEvent): string
  {
    match ev
    case SignalingStateChange => "signalingstatechange"
    case IceGatheringStateChange => "icegatheringstatechange"
    case IceConnectionStateChange => "iceconnectionstatechange"
  }

  /** The peer connection's state-change listeners: forward the new state under the handler's id. */
  function OnSessionEvent(s: State, ev: SessionEvent, newState: string): (s': State)
    requires Valid(s)
    ensures Valid(s')
    ensures s'.log == s.log + [Notice(Str(s.handlerId), SessionEventName(ev), Str(newState))]
    ensures s' == s.(log := s'.log)
  {
    s.(log := s.log + [Notice(Str(s.handlerId), SessionEventName(ev), Str(newState))])
  }

  predicate RefersWithin(d: Dict<Value, nat>, channels: seq<DataChannel>)
  {
    forall j | 0 <= j < |d| :: d[j].1 < |channels|
  }

  /** One `bufferedamount` notification per registered channel, in registry order. */
  function TickNotices(d: Dict<Value, nat>, channels: seq<DataChannel>): (r: seq<Notice>)
    requires RefersWithin(d, channels)
    ensures |r| == |d|
  {
    if d == [] then []
    else
      var last := d[|d| - 1];
      TickNotices(d[..|d| - 1], channels) + [Notice(last.0, "bufferedamount", Int(channels[last.1].bufferedAmount))]
  }

  /** The `j`-th notice of a tick reports the `j`-th registry entry. */
  lemma {:induction false} TickNoticesAt(d: Dict<Value, nat>, channels: seq<DataChannel>)
    requires RefersWithin(d, channels)
    ensures forall j | 0 <= j < |d| ::
      TickNotices(d, channels)[j] == Notice(d[j].0, "bufferedamount", Int(channels[d[j].1].bufferedAmount))
  {
    if d != [] {
      var init := d[..|d| - 1];
      TickNoticesAt(init, channels);
      forall j | 0 <= j < |d|
        ensures TickNotices(d, channels)[j] == Notice(d[j].0, "bufferedamount", Int(channels[d[j].1].bufferedAmount))
      {
        if j < |d| - 1 {
          assert init[j] == d[j];
        }
      }
    }
  }

  lemma RefersWithinPrefix(d: Dict<Value, nat>, channels: seq<DataChannel>, j: nat)
    requires RefersWithin(d, channels) && j <= |d|
    ensures RefersWithin(d[..j], channels)
  {
  }

  /** The notices for the first `j + 1` entries extend those for the first `j` by entry `j`'s. */
  lemma TickNoticesStep(d: Dict<Value, nat>, channels: seq<DataChannel>, j: nat)
    requires RefersWithin(d, channels) && j < |d|
    ensures RefersWithin(d[..j], channels) && RefersWithin(d[..j + 1], channels)
    ensures TickNotices(d[..j + 1], channels)
         == TickNotices(d[..j], channels) + [Notice(d[j].0, "bufferedamount", Int(channels[d[j].1].bufferedAmount))]
  {
    RefersWithinPrefix(d, channels, j);
    RefersWithinPrefix(d, channels, j + 1);
    var p := d[..j + 1];
    assert p[..|p| - 1] == d[..j];
    assert p[|p| - 1] == d[j];
  }

  /** One tick of the buffered-amount poller. */
  function PollTick(s: State): (s': State)
    requires Valid(s)
    ensures Valid(s')
    ensures s' == s.(log := s'.log)
  {
    assert forall j | 0 <= j < |s.dataChannels| :: s.dataChannels[j] in s.dataChannels;
    s.(log := s.log + TickNotices(s.dataChannels, s.engineChannels))
  }
}
