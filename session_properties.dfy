/** What the session controller guarantees about its registries, its
    replies and the notifications it sends, stated over the transitions of
    module Session. */
module SessionProperties {
  import opened Values
  import opened OrderedDict
  import opened Stats
  import opened Session

  // ---------------------------------------------------------------------
  // Dispatch
  // ---------------------------------------------------------------------

  /** Every request method name is routed to its own handler. */
  lemma ParseMethodRoundTrip(k: RequestKind)
    ensures ParseMethod(MethodName(k)) == Some(k)
  {
    match k
    case GetLocalDescriptionRequest =>
    case AddTrackRequest =>
    case RemoveTrackRequest =>
    case SetLocalDescriptionRequest =>
    case SetRemoteDescriptionRequest =>
    case CreateOfferRequest =>
    case CreateAnswerRequest =>
    case GetMidRequest =>
    case GetTransportStatsRequest =>
    case GetSenderStatsRequest =>
    case GetReceiverStatsRequest =>
    case CreateDataChannelRequest =>
  }

  /** Every notification event name is routed to its own handler. */
  lemma ParseEventRoundTrip(k: EventKind)
    ensures ParseEvent(EventName(k)) == Some(k)
  {
    match k
    case EnableTrackEvent =>
    case DisableTrackEvent =>
    case SendEvent =>
    case SendBinaryEvent =>
    case CloseEvent =>
    case SetThresholdEvent =>
  }

  /** Among requests only `addTrack` and `removeTrack` touch the transceiver
      registry, only they and the two `set*Description` requests the
      engine's transceivers, and only `createDataChannel` the data-channel
      registry. */
  lemma RegistryOwnership(s: State, req: Request, getTrack: (Value, Value) -> Option<Track>, eng: EngineAnswers)
    requires Valid(s)
    ensures var t := ProcessRequest(s, req, getTrack, eng);
      && (ParseMethod(req.name) != Some(AddTrackRequest) && ParseMethod(req.name) != Some(RemoveTrackRequest)
          ==> t.next.transceivers == s.transceivers)
      && (ParseMethod(req.name) !in {Some(AddTrackRequest), Some(RemoveTrackRequest),
                                     Some(SetLocalDescriptionRequest), Some(SetRemoteDescriptionRequest)}
          ==> t.next.engineTransceivers == s.engineTransceivers)
      && (ParseMethod(req.name) != Some(CreateDataChannelRequest)
          ==> t.next.dataChannels == s.dataChannels && t.next.engineChannels == s.engineChannels)
  {
    match ParseMethod(req.name)
    case None =>
    case Some(kind) =>
      match kind
      case AddTrackRequest =>
      case RemoveTrackRequest =>
      case SetLocalDescriptionRequest =>
      case SetRemoteDescriptionRequest =>
      case CreateDataChannelRequest =>
      case _ =>
  }

  // ---------------------------------------------------------------------
  // Transceiver registry
  // ---------------------------------------------------------------------

  /** `addTrack` fails exactly when a field is missing, no track comes back
      or the engine refuses the transceiver, and then changes nothing; an
      engine refusal surfaces as the engine's error. */
  lemma AddTrackFails(s: State, data: map<string, Value>, getTrack: (Value, Value) -> Option<Track>, accepted: bool)
    requires Valid(s)
    ensures var t := AddTrack(s, data, getTrack, accepted);
      && (t.result.Err? <==> ("playerId" !in data || "kind" !in data || getTrack(data["playerId"], data["kind"]).None? || !accepted))
      && (t.result.Err? ==> t.next == s)
      && ("playerId" in data && "kind" in data && getTrack(data["playerId"], data["kind"]).Some? && !accepted
          ==> t.result == Err(EngineError))
  {
  }

  /** A successful `addTrack` answers the track's id, appends one transceiver
      carrying the track to the engine and registers exactly that
      transceiver under the id; every other entry, the channels and the log
      stay as they were. */
  lemma AddTrackSpec(s: State, data: map<string, Value>, getTrack: (Value, Value) -> Option<Track>, track: Track)
    requires Valid(s)
    requires "playerId" in data && "kind" in data && getTrack(data["playerId"], data["kind"]) == Some(track)
    ensures var t := AddTrack(s, data, getTrack, true);
      && t.result == Ok(TrackAdded(track.id))
      && t.next.engineTransceivers == s.engineTransceivers + [Transceiver(None, SendRecv, Some(track.id))]
      && Lookup(t.next.transceivers, track.id) == Some(|s.engineTransceivers|)
      && SameOtherwise(s.transceivers, t.next.transceivers, track.id)
      && t.next == s.(engineTransceivers := t.next.engineTransceivers, transceivers := t.next.transceivers)
  {
    var i := |s.engineTransceivers|;
    var next := s.(engineTransceivers := s.engineTransceivers + [NewTransceiver(track)],
                   transceivers := Store(s.transceivers, track.id, i));
    var t := AddTrack(s, data, getTrack, true);
    assert t == Transition(Ok(TrackAdded(track.id)), next);
    TrackRegistered(s, t.next, track);
  }

  /** The state after registering a new transceiver for `track`, read back. */
  lemma TrackRegistered(s: State, next: State, track: Track)
    requires next == s.(engineTransceivers := s.engineTransceivers + [NewTransceiver(track)],
                        transceivers := Store(s.transceivers, track.id, |s.engineTransceivers|))
    ensures next.engineTransceivers == s.engineTransceivers + [Transceiver(None, SendRecv, Some(track.id))]
    ensures Lookup(next.transceivers, track.id) == Some(|s.engineTransceivers|)
    ensures SameOtherwise(s.transceivers, next.transceivers, track.id)
    ensures next == s.(engineTransceivers := next.engineTransceivers, transceivers := next.transceivers)
  {
    LookupStore<string, nat>(s.transceivers, track.id, |s.engineTransceivers|);
  }

  /** Right after `addTrack`, `getMid` of the new track answers "no mid yet". */
  lemma AddTrackThenGetMid(s: State, data: map<string, Value>, getTrack: (Value, Value) -> Option<Track>, track: Track)
    requires Valid(s)
    requires "playerId" in data && "kind" in data && getTrack(data["playerId"], data["kind"]) == Some(track)
    ensures GetMid(AddTrack(s, data, getTrack, true).next, map["trackId" := Str(track.id)]) == Ok(MidOf(None))
  {
    AddTrackSpec(s, data, getTrack, track);
  }

  /** `removeTrack` refuses a missing `trackId` and an unregistered one, changing nothing. */
  lemma RemoveTrackFails(s: State, data: map<string, Value>)
    requires Valid(s)
    ensures var t := RemoveTrack(s, data);
      && (Get(data, "trackId") == Null ==> t.result == Err(MissingField("trackId")))
      && (Get(data, "trackId") != Null && TrackEntry(s, Get(data, "trackId")).None? ==> t.result == Err(KeyNotFound))
      && (t.result.Err? ==> t.next == s)
  {
  }

  /** `removeTrack` of the track registered at engine transceiver `i` makes
      that transceiver inactive with no sender track, forgets the id and
      leaves every other entry, every other transceiver, the channels and
      the log as they were. */
  lemma RemoveTrackSpec(s: State, data: map<string, Value>, id: string, i: nat)
    requires Valid(s)
    requires Get(data, "trackId") == Str(id) && Lookup(s.transceivers, id) == Some(i)
    ensures i < |s.engineTransceivers|
    ensures var t := RemoveTrack(s, data);
      && t.result == Ok(Nothing)
      && t.next.engineTransceivers
         == s.engineTransceivers[i := s.engineTransceivers[i].(direction := Inactive, senderTrack := None)]
      && Lookup(t.next.transceivers, id) == None
      && SameOtherwise(s.transceivers, t.next.transceivers, id)
      && t.next == s.(engineTransceivers := t.next.engineTransceivers, transceivers := t.next.transceivers)
  {
    LookupDelete(s.transceivers, id);
  }

  /** `getMid` answers the registered transceiver's mid, which is absent
      before negotiation; a missing or unregistered `trackId` is an error. */
  lemma GetMidSpec(s: State, data: map<string, Value>)
    requires Valid(s)
    ensures var r := GetMid(s, data);
      && (Get(data, "trackId") == Null ==> r == Err(MissingField("trackId")))
      && (Get(data, "trackId") != Null && TrackEntry(s, Get(data, "trackId")).None? ==> r == Err(KeyNotFound))
      && (Get(data, "trackId") != Null && TrackEntry(s, Get(data, "trackId")).Some? ==>
            r == Ok(MidOf(s.engineTransceivers[TrackEntry(s, Get(data, "trackId")).value].mid)))
  {
  }

  /** Once a track is removed, `getMid` for it fails. */
  lemma RemoveTrackThenGetMid(s: State, data: map<string, Value>, id: string, i: nat)
    requires Valid(s)
    requires Get(data, "trackId") == Str(id) && Lookup(s.transceivers, id) == Some(i)
    ensures GetMid(RemoveTrack(s, data).next, data) == Err(KeyNotFound)
  {
    RemoveTrackSpec(s, data, id, i);
  }

  // ---------------------------------------------------------------------
  // Negotiation and statistics
  // ---------------------------------------------------------------------

  /** A description the engine adopted is what `getLocalDescription` reports next. */
  lemma SetThenGetLocalDescription(s: State, n: Negotiation)
    requires Valid(s) && n.outcome.Ok?
    ensures GetLocalDescription(SetLocalDescription(s, n).next) == Desc(n.outcome.value)
  {
  }

  /** The engine after an adopted description, local or remote. */
  function Negotiated(s: State, n: Negotiation, remote: bool): State
    requires Valid(s)
  {
    if remote then SetRemoteDescription(s, n).next else SetLocalDescription(s, n).next
  }

  /** Negotiation keeps the transceiver registry, and every registered
      transceiver keeps its direction, its sender track and a mid it already
      had; one without a mid takes the mid assigned to its position. */
  lemma NegotiationKeepsTransceivers(s: State, n: Negotiation, remote: bool, i: nat)
    requires Valid(s) && n.outcome.Ok? && i < |s.engineTransceivers|
    ensures var s' := Negotiated(s, n, remote);
      var t, t' := s.engineTransceivers[i], s'.engineTransceivers[i];
      && s'.transceivers == s.transceivers
      && |s'.engineTransceivers| >= |s.engineTransceivers|
      && t'.direction == t.direction && t'.senderTrack == t.senderTrack
      && (t.mid.Some? ==> t'.mid == t.mid)
      && (t.mid.None? ==> t'.mid == if i in n.mids then Some(n.mids[i]) else None)
  {
    var ts' := Negotiated(s, n, remote).engineTransceivers;
    var withMids := AssignMids(s.engineTransceivers, n.mids);
    assert ts'[i] == withMids[i];
  }

  /** Once negotiation assigns mid `m` to the transceiver registered under a
      track id, `getMid` of that track answers `m`. */
  lemma NegotiatedThenGetMid(s: State, n: Negotiation, remote: bool, id: string, i: nat)
    requires Valid(s) && n.outcome.Ok?
    requires Lookup(s.transceivers, id) == Some(i)
    requires s.engineTransceivers[i].mid.None? && i in n.mids
    ensures GetMid(Negotiated(s, n, remote), map["trackId" := Str(id)]) == Ok(MidOf(Some(n.mids[i])))
  {
    NegotiationKeepsTransceivers(s, n, remote, i);
  }

  /** When some engine transceiver carries the requested mid, the sender and
      receiver statistics requests answer the report filtered to their side. */
  lemma SideStatsFound(s: State, data: map<string, Value>, report: map<string, StatEntry>, side: Selector, j: nat)
    requires side != TransportStats
    requires j < |s.engineTransceivers| && MidMatches(s.engineTransceivers[j], Get(data, "mid"))
    ensures GetSideStats(s, data, report, side) == StatsReply(Filter(report, side))
  {
  }

  /** `addTrack`, then a local description the engine adopts assigning mid
      `m` to the new transceiver: `getMid` of the track answers `m`, and the
      statistics requests for `m` answer the report filtered to their side. */
  lemma AddTrackNegotiateThenStats(s: State, data: map<string, Value>, getTrack: (Value, Value) -> Option<Track>,
                                   track: Track, n: Negotiation, report: map<string, StatEntry>, side: Selector)
    requires Valid(s) && side != TransportStats
    requires "playerId" in data && "kind" in data && getTrack(data["playerId"], data["kind"]) == Some(track)
    requires n.outcome.Ok? && |s.engineTransceivers| in n.mids
    ensures var s' := SetLocalDescription(AddTrack(s, data, getTrack, true).next, n).next;
      var m := n.mids[|s.engineTransceivers|];
      && GetMid(s', map["trackId" := Str(track.id)]) == Ok(MidOf(Some(m)))
      && GetSideStats(s', map["mid" := Str(m)], report, side) == StatsReply(Filter(report, side))
  {
    var i := |s.engineTransceivers|;
    var s1 := AddTrack(s, data, getTrack, true).next;
    AddTrackSpec(s, data, getTrack, track);
    assert s1.engineTransceivers[i] == NewTransceiver(track);
    NegotiatedThenGetMid(s1, n, false, track.id, i);
    NegotiationKeepsTransceivers(s1, n, false, i);
    SideStatsFound(Negotiated(s1, n, false), map["mid" := Str(n.mids[i])], report, side, i);
  }

  /** The transceivers a remote description adds are found by their mids. */
  lemma RemoteAddedFoundByMid(s: State, n: Negotiation, k: nat, report: map<string, StatEntry>, side: Selector)
    requires Valid(s) && n.outcome.Ok? && k < |n.added| && side != TransportStats
    ensures var s' := SetRemoteDescription(s, n).next;
      && s'.engineTransceivers[|s.engineTransceivers| + k] == Transceiver(Some(n.added[k]), RecvOnly, None)
      && GetSideStats(s', map["mid" := Str(n.added[k])], report, side) == StatsReply(Filter(report, side))
  {
    var s' := SetRemoteDescription(s, n).next;
    var j := |s.engineTransceivers| + k;
    assert s'.engineTransceivers[j] == ReceiveOnly(n.added)[k];
    SideStatsFound(s', map["mid" := Str(n.added[k])], report, side, j);
  }

  /** The sender and receiver statistics requests fail without a `mid` and
      when no transceiver carries it; otherwise they answer the report
      filtered to their side. */
  lemma SideStatsSpec(s: State, data: map<string, Value>, report: map<string, StatEntry>, side: Selector)
    requires side != TransportStats
    ensures var r := GetSideStats(s, data, report, side);
      && (Get(data, "mid") == Null ==> r == Err(MissingField("mid")))
      && (Get(data, "mid") != Null && FindByMid(s.engineTransceivers, Get(data, "mid")).None? ==> r == Err(NoSuchMid))
      && (Get(data, "mid") != Null && FindByMid(s.engineTransceivers, Get(data, "mid")).Some? ==>
            (r.Ok? <==> Filter(report, side).Ok?))
  {
  }

  // ---------------------------------------------------------------------
  // Data-channel registry
  // ---------------------------------------------------------------------

  /** An accepted `createDataChannel` registers the new channel under the
      orchestrator's id and changes nothing else. */
  lemma CreateDataChannelSpec(s: State, data: map<string, Value>, internal: map<string, Value>, readyState: string)
    requires Valid(s)
    ensures var id := Get(internal, "dataChannelId");
      var t := CreateDataChannel(s, data, internal, Accepted(readyState));
      && t.result.Ok?
      && t.next.engineChannels == s.engineChannels + [NewChannel(id, ParamsOf(data), readyState)]
      && Lookup(t.next.dataChannels, id) == Some(|s.engineChannels|)
      && SameOtherwise(s.dataChannels, t.next.dataChannels, id)
      && t.next == s.(engineChannels := t.next.engineChannels, dataChannels := t.next.dataChannels)
  {
    var id := Get(internal, "dataChannelId");
    var i := |s.engineChannels|;
    var channel := NewChannel(id, ParamsOf(data), readyState);
    var next := s.(engineChannels := s.engineChannels + [channel], dataChannels := Store(s.dataChannels, id, i));
    var t := CreateDataChannel(s, data, internal, Accepted(readyState));
    assert t == Transition(Ok(ChannelCreated(Describe(channel))), next);
    ChannelRegistered(s, t.next, id, channel);
  }

  /** The state after registering `channel` under `id`, read back. */
  lemma ChannelRegistered(s: State, next: State, id: Value, channel: DataChannel)
    requires next == s.(engineChannels := s.engineChannels + [channel],
                        dataChannels := Store(s.dataChannels, id, |s.engineChannels|))
    ensures next.engineChannels == s.engineChannels + [channel]
    ensures Lookup(next.dataChannels, id) == Some(|s.engineChannels|)
    ensures SameOtherwise(s.dataChannels, next.dataChannels, id)
    ensures next == s.(engineChannels := next.engineChannels, dataChannels := next.dataChannels)
  {
    LookupStore<Value, nat>(s.dataChannels, id, |s.engineChannels|);
  }

  /** The descriptor an accepted `createDataChannel` answers echoes the
      requested options, with the engine's ready state, nothing buffered and
      threshold 0; a refusal by the engine changes nothing. */
  lemma CreateDataChannelDescriptor(s: State, data: map<string, Value>, internal: map<string, Value>, readyState: string)
    requires Valid(s)
    ensures CreateDataChannel(s, data, internal, Accepted(readyState)).result
      == Ok(ChannelCreated(Descriptor(
           Get(data, "id"), Get(data, "ordered"), Get(data, "maxPacketLifeTime"), Get(data, "maxRetransmits"),
           Get(data, "label"), Get(data, "protocol"), readyState, 0, Int(0))))
    ensures CreateDataChannel(s, data, internal, Refused) == Transition(Err(EngineError), s)
  {
  }

  /** `datachannel.close` without an id fails; with an id that is not
      registered it succeeds and changes nothing (in particular sends no
      notification). */
  lemma CloseUnregistered(s: State, internal: map<string, Value>)
    requires Valid(s)
    requires Get(internal, "dataChannelId") !in Keys(s.dataChannels)
    ensures CloseChannel(s, internal) ==
      if Get(internal, "dataChannelId") == Null then Transition(Err(MissingField("dataChannelId")), s)
      else Transition(Ok(Nothing), s)
  {
  }

  /** `datachannel.close` of the channel registered at `i` forgets its id,
      marks that handle closed, keeps every other entry and every other
      channel, and sends nothing. */
  lemma CloseRegistered(s: State, internal: map<string, Value>, i: nat)
    requires Valid(s)
    requires Get(internal, "dataChannelId") != Null
    requires Lookup(s.dataChannels, Get(internal, "dataChannelId")) == Some(i)
    ensures i < |s.engineChannels|
    ensures var id := Get(internal, "dataChannelId");
      var t := CloseChannel(s, internal);
      && t.result == Ok(Nothing)
      && Lookup(t.next.dataChannels, id) == None
      && SameOtherwise(s.dataChannels, t.next.dataChannels, id)
      && t.next.engineChannels == s.engineChannels[i := s.engineChannels[i].(closed := true)]
      && t.next == s.(dataChannels := t.next.dataChannels, engineChannels := t.next.engineChannels)
  {
    var id := Get(internal, "dataChannelId");
    LookupDelete(s.dataChannels, id);
  }

  /** Closing twice leaves the same state as closing once. */
  lemma CloseIdempotent(s: State, internal: map<string, Value>)
    requires Valid(s)
    ensures var t := CloseChannel(s, internal);
      t.result.Ok? ==> CloseChannel(t.next, internal) == Transition(Ok(Nothing), t.next)
  {
    var id := Get(internal, "dataChannelId");
    if id != Null && id in Keys(s.dataChannels) {
      DeleteKeyed(s.dataChannels, id);
      DeleteIdempotent(s.dataChannels, id);
    }
  }

  /** The engine's `close` event on channel `i`: while its id is registered
      the id is forgotten and exactly one `close` notification is sent;
      once it is gone nothing happens and nothing fails. */
  lemma OnChannelCloseSpec(s: State, i: nat)
    requires Valid(s) && i < |s.engineChannels|
    ensures var id := s.engineChannels[i].listenerId;
      var s' := OnChannelClose(s, i);
      && (id in Keys(s.dataChannels) ==>
            && s'.log == s.log + [Notice(id, "close", Null)]
            && Lookup(s'.dataChannels, id) == None
            && SameOtherwise(s.dataChannels, s'.dataChannels, id)
            && s' == s.(dataChannels := s'.dataChannels, log := s'.log))
      && (id !in Keys(s.dataChannels) ==> s' == s)
  {
    var id := s.engineChannels[i].listenerId;
    LookupDelete(s.dataChannels, id);
  }

  /** However often the engine fires `close` on a channel, the orchestrator
      hears about it at most once. */
  lemma OnChannelCloseOnce(s: State, i: nat)
    requires Valid(s) && i < |s.engineChannels|
    ensures OnChannelClose(OnChannelClose(s, i), i) == OnChannelClose(s, i)
  {
    var id := s.engineChannels[i].listenerId;
    DeleteKeyed(s.dataChannels, id);
  }

  /** The `close` event the engine fires after an explicit
      `datachannel.close` sends nothing: the orchestrator asked for the
      close, so it is not told again. */
  lemma CloseThenEngineClose(s: State, internal: map<string, Value>, i: nat)
    requires Valid(s)
    requires i < |s.engineChannels| && s.engineChannels[i].listenerId == Get(internal, "dataChannelId")
    ensures var t := CloseChannel(s, internal);
      t.result.Ok? ==> OnChannelClose(t.next, i) == t.next
  {
    var id := Get(internal, "dataChannelId");
    if id != Null && id in Keys(s.dataChannels) {
      DeleteKeyed(s.dataChannels, id);
    }
  }

  /** The listeners of a channel created under an id report under that id,
      and only add to the log. */
  lemma CreatedChannelEventsTargetId(s: State, data: map<string, Value>, internal: map<string, Value>,
                                     readyState: string, ev: ChannelEvent)
    requires Valid(s)
    ensures var t := CreateDataChannel(s, data, internal, Accepted(readyState));
      var s' := OnChannelEvent(t.next, |s.engineChannels|, ev);
      && s'.log == s.log + [ChannelNotice(Get(internal, "dataChannelId"), ev)]
      && s' == t.next.(log := s'.log)
  {
    CreateDataChannelSpec(s, data, internal, readyState);
  }

  /** `datachannel.send` / `sendBinary` without an id, on an unregistered id,
      or refused by the engine fail and send nothing. */
  lemma SendFails(s: State, internal: map<string, Value>, frame: Frame, queued: Option<nat>)
    requires Valid(s)
    ensures var id := Get(internal, "dataChannelId");
      var t := SendFrame(s, internal, frame, queued);
      && (id == Null ==> t.result == Err(MissingField("dataChannelId")))
      && (id != Null && id !in Keys(s.dataChannels) ==> t.result == Err(KeyNotFound))
      && (id != Null && id in Keys(s.dataChannels) ==> (t.result.Err? <==> queued.None?))
      && (t.result.Err? ==> t.next.log == s.log)
  {
  }

  /** A frame the registered channel `i` accepts is queued on that channel
      alone, and exactly one `bufferedamount` notification follows, carrying
      the channel's new buffered amount. */
  lemma SendSpec(s: State, internal: map<string, Value>, frame: Frame, n: nat, i: nat)
    requires Valid(s)
    requires Get(internal, "dataChannelId") != Null
    requires Lookup(s.dataChannels, Get(internal, "dataChannelId")) == Some(i)
    ensures i < |s.engineChannels|
    ensures var id := Get(internal, "dataChannelId");
      var c := s.engineChannels[i];
      var t := SendFrame(s, internal, frame, Some(n));
      && t.result == Ok(Nothing)
      && t.next.engineChannels == s.engineChannels[i := c.(sent := c.sent + [frame], bufferedAmount := c.bufferedAmount + n)]
      && t.next.log == s.log + [Notice(id, "bufferedamount", Int(c.bufferedAmount + n))]
      && t.next == s.(engineChannels := t.next.engineChannels, log := t.next.log)
  {
  }

  /** `setBufferedAmountLowThreshold` sets only the registered channel's
      threshold when the engine accepts the value, or fails changing
      nothing. */
  lemma SetThresholdSpec(s: State, internal: map<string, Value>, value: Value, accepted: bool)
    requires Valid(s)
    ensures var id := Get(internal, "dataChannelId");
      var t := SetThreshold(s, internal, value, accepted);
      && (id == Null ==> t.result == Err(MissingField("dataChannelId")))
      && (id != Null && id !in Keys(s.dataChannels) ==> t.result == Err(KeyNotFound))
      && (id != Null && id in Keys(s.dataChannels) && !accepted ==> t.result == Err(EngineError))
      && (id != Null && id in Keys(s.dataChannels) && accepted ==>
            var i := Lookup(s.dataChannels, id).value;
            && t.result == Ok(Nothing)
            && t.next == s.(engineChannels := s.engineChannels[i := s.engineChannels[i].(threshold := value)]))
      && (t.result.Err? ==> t.next == s)
  {
  }

  // ---------------------------------------------------------------------
  // The poller
  // ---------------------------------------------------------------------

  function Targets(ns: seq<Notice>): set<Value>
  {
    set j | 0 <= j < |ns| :: ns[j].target
  }

  /** A poller tick appends exactly one `bufferedamount` notification per
      registered data-channel id, each carrying that channel's buffered
      amount, and changes nothing but the log. */
  lemma PollTickSpec(s: State)
    requires Valid(s)
    ensures var s' := PollTick(s);
      var tick := s'.log[|s.log|..];
      && s'.log == s.log + tick
      && |tick| == |s.dataChannels|
      && Targets(tick) == Keys(s.dataChannels)
      && (forall j, k | 0 <= j < k < |tick| :: tick[j].target != tick[k].target)
      && (forall j | 0 <= j < |tick| ::
            && tick[j].event == "bufferedamount"
            && Lookup(s.dataChannels, tick[j].target).Some?
            && tick[j].data == Int(s.engineChannels[Lookup(s.dataChannels, tick[j].target).value].bufferedAmount))
      && s' == s.(log := s'.log)
  {
    var d := s.dataChannels;
    assert forall j | 0 <= j < |d| :: d[j] in d;
    assert PollTick(s).log[|s.log|..] == TickNotices(d, s.engineChannels);
    TickTargets(d, s.engineChannels);
  }

  /** The notices of a tick over a keyed registry: one per entry, distinct
      targets that are exactly the keys, each the amount of the channel its
      target looks up to. */
  lemma TickTargets(d: Dict<Value, nat>, channels: seq<DataChannel>)
    requires Keyed(d) && RefersWithin(d, channels)
    ensures var tick := TickNotices(d, channels);
      && Targets(tick) == Keys(d)
      && (forall j, k | 0 <= j < k < |tick| :: tick[j].target != tick[k].target)
      && (forall j | 0 <= j < |tick| ::
            && tick[j].event == "bufferedamount"
            && Lookup(d, tick[j].target).Some?
            && tick[j].data == Int(channels[Lookup(d, tick[j].target).value].bufferedAmount))
  {
    var tick := TickNotices(d, channels);
    TickNoticesAt(d, channels);
    forall j | 0 <= j < |tick|
      ensures Lookup(d, tick[j].target) == Some(d[j].1)
    {
      LookupAt(d, j);
    }
    TargetsAreKeys(d, tick);
  }

  /** Notices that target the registry's ids entry by entry target exactly its keys. */
  lemma TargetsAreKeys(d: Dict<Value, nat>, tick: seq<Notice>)
    requires |tick| == |d| && forall j | 0 <= j < |d| :: tick[j].target == d[j].0
    ensures Targets(tick) == Keys(d)
  {
    forall x | x in Keys(d) ensures x in Targets(tick) {
      var j :| 0 <= j < |d| && d[j].0 == x;
      assert tick[j].target == x;
    }
  }

  /** The poller reports the engine's current queue: after channel `i`'s
      buffered amount becomes `amount` (it drained, say), the next tick
      carries `amount` for every id registered to `i` and the unchanged
      amount for every other id, in registry order. */
  lemma DrainThenTick(s: State, i: nat, amount: nat)
    requires Valid(s) && i < |s.engineChannels|
    ensures var s' := PollTick(OnBufferedAmount(s, i, amount));
      var tick := s'.log[|s.log|..];
      && |tick| == |s.dataChannels|
      && forall j | 0 <= j < |tick| ::
           tick[j] == Notice(s.dataChannels[j].0, "bufferedamount",
             Int(if s.dataChannels[j].1 == i then amount else s.engineChannels[s.dataChannels[j].1].bufferedAmount))
  {
    var s1 := OnBufferedAmount(s, i, amount);
    assert forall j | 0 <= j < |s1.dataChannels| :: s1.dataChannels[j] in s1.dataChannels;
    TickNoticesAt(s1.dataChannels, s1.engineChannels);
    assert PollTick(s1).log[|s.log|..] == TickNotices(s1.dataChannels, s1.engineChannels);
  }
}
