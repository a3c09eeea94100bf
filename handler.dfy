/** The `Handler` session controller as an object whose registries, engine
    handles and outbound notification log are updated in place. Every
    entry point is proved to perform exactly the transition module Session
    defines for it. */
module Controller {
  import opened Values
  import opened OrderedDict
  import opened Stats
  import opened Session

  class Handler {
    const handlerId: string
    /** The track source: a track for a player id and a kind, if it has one. */
    const getTrack: (Value, Value) -> Option<Track>

    /** Track id to engine transceiver. */
    var transceivers: Dict<string, nat>
    /** Data-channel id to engine data channel. */
    var dataChannels: Dict<Value, nat>
    var engineTransceivers: seq<Transceiver>
    var engineChannels: seq<DataChannel>
    var localDescription: Option<Description>
    /** Every notification sent to the orchestrator, oldest first. */
    var log: seq<Notice>

    function Model(): State
      reads this
    {
      State(handlerId, transceivers, dataChannels, engineTransceivers, engineChannels, localDescription, log)
    }

    predicate Valid()
      reads this
    {
      Session.Valid(Model())
    }

    constructor (handlerId: string, getTrack: (Value, Value) -> Option<Track>)
      ensures Valid()
      ensures Model() == Initial(handlerId) && this.getTrack == getTrack
    {
      this.handlerId := handlerId;
      this.getTrack := getTrack;
      transceivers := [];
      dataChannels := [];
      engineTransceivers := [];
      engineChannels := [];
      localDescription := None;
      log := [];
    }

    /** Send one notification to the orchestrator. */
    method Notify(target: Value, event: string, data: Value)
      modifies this
      ensures Model() == old(Model()).(log := old(log) + [Notice(target, event, data)])
    {
      log := log + [Notice(target, event, data)];
    }

    // -------------------------------------------------------------------
    // Requests
    // -------------------------------------------------------------------

    method ProcessRequest(req: Request, eng: EngineAnswers) returns (r: Result<Reply>)
      requires Valid()
      modifies this
      ensures Valid()
      ensures Transition(r, Model()) == Session.ProcessRequest(old(Model()), req, getTrack, eng)
    {
      var kind := ParseMethod(req.name);
      if kind.None? {
        return Err(UnknownMethod(req.name));
      }
      match kind.value
      case GetLocalDescriptionRequest =>
        r := Ok(Session.GetLocalDescription(Model()));
      case AddTrackRequest =>
        r := AddTrack(req.data, eng.transceiverAccepted);
      case RemoveTrackRequest =>
        r := RemoveTrack(req.data);
      case SetLocalDescriptionRequest =>
        r := SetLocalDescription(eng.negotiation);
      case SetRemoteDescriptionRequest =>
        r := SetRemoteDescription(eng.negotiation);
      case CreateOfferRequest =>
        r := NegotiationDescription(eng.negotiation.outcome);
      case CreateAnswerRequest =>
        r := NegotiationDescription(eng.negotiation.outcome);
      case GetMidRequest =>
        r := Session.GetMid(Model(), req.data);
      case GetTransportStatsRequest =>
        var stats := CollectStats(eng.report, TransportStats);
        r := StatsReply(stats);
      case GetSenderStatsRequest =>
        r := GetSideStats(req.data, eng.report, SenderStats);
      case GetReceiverStatsRequest =>
        r := GetSideStats(req.data, eng.report, ReceiverStats);
      case CreateDataChannelRequest =>
        r := CreateDataChannel(req.data, req.internal, eng.verdict);
    }

    method AddTrack(data: map<string, Value>, accepted: bool) returns (r: Result<Reply>)
      requires Valid()
      modifies this
      ensures Valid()
      ensures Transition(r, Model()) == Session.AddTrack(old(Model()), data, getTrack, accepted)
    {
      if "playerId" !in data {
        return Err(MissingField("playerId"));
      }
      if "kind" !in data {
        return Err(MissingField("kind"));
      }
      var track := getTrack(data["playerId"], data["kind"]);
      if track.None? {
        return Err(TrackUnavailable);
      }
      if !accepted {
        return Err(EngineError);
      }
      var i := |engineTransceivers|;
      engineTransceivers := engineTransceivers + [NewTransceiver(track.value)];
      StoreKeyed(transceivers, track.value.id, i);
      transceivers := Store(transceivers, track.value.id, i);
      r := Ok(TrackAdded(track.value.id));
    }

    method RemoveTrack(data: map<string, Value>) returns (r: Result<Reply>)
      requires Valid()
      modifies this
      ensures Valid()
      ensures Transition(r, Model()) == Session.RemoveTrack(old(Model()), data)
    {
      var trackId := Get(data, "trackId");
      if trackId == Null {
        return Err(MissingField("trackId"));
      }
      var entry := TrackEntry(Model(), trackId);
      if entry.None? {
        return Err(KeyNotFound);
      }
      var i := entry.value;
      engineTransceivers := engineTransceivers[i := engineTransceivers[i].(direction := Inactive)];
      engineTransceivers := engineTransceivers[i := engineTransceivers[i].(senderTrack := None)];
      DeleteKeyed(transceivers, trackId.s);
      transceivers := Delete(transceivers, trackId.s);
      r := Ok(Nothing);
    }

    /** The engine adopts the description, or raises; adopting it assigns mids. */
    method SetLocalDescription(n: Negotiation) returns (r: Result<Reply>)
      requires Valid()
      modifies this
      ensures Valid()
      ensures Transition(r, Model()) == Session.SetLocalDescription(old(Model()), n)
    {
      if n.outcome.Err? {
        return Err(n.outcome.error);
      }
      localDescription := Some(n.outcome.value);
      engineTransceivers := AssignMids(engineTransceivers, n.mids);
      r := Ok(Nothing);
    }

    /** The engine adopts the description, or raises; adopting it assigns mids
        and adds receive-only transceivers for the remote side's media. */
    method SetRemoteDescription(n: Negotiation) returns (r: Result<Reply>)
      requires Valid()
      modifies this
      ensures Valid()
      ensures Transition(r, Model()) == Session.SetRemoteDescription(old(Model()), n)
    {
      if n.outcome.Err? {
        return Err(n.outcome.error);
      }
      engineTransceivers := AssignMids(engineTransceivers, n.mids) + ReceiveOnly(n.added);
      r := Ok(Nothing);
    }

    method GetSideStats(data: map<string, Value>, report: map<string, StatEntry>, side: Selector) returns (r: Result<Reply>)
      requires side != TransportStats
      ensures r == Session.GetSideStats(Model(), data, report, side)
    {
      var mid := Get(data, "mid");
      if mid == Null {
        return Err(MissingField("mid"));
      }
      var transceiver := FindByMid(engineTransceivers, mid);
      if transceiver.None? {
        return Err(NoSuchMid);
      }
      var stats := CollectStats(report, side);
      r := StatsReply(stats);
    }

    method CreateDataChannel(data: map<string, Value>, internal: map<string, Value>, verdict: ChannelVerdict)
      returns (r: Result<Reply>)
      requires Valid()
      modifies this
      ensures Valid()
      ensures Transition(r, Model()) == Session.CreateDataChannel(old(Model()), data, internal, verdict)
    {
      var id := Get(internal, "dataChannelId");
      if verdict.Refused? {
        return Err(EngineError);
      }
      var channel := NewChannel(id, ParamsOf(data), verdict.readyState);
      var i := |engineChannels|;
      engineChannels := engineChannels + [channel];
      StoreKeyed(dataChannels, id, i);
      dataChannels := Store(dataChannels, id, i);
      r := Ok(ChannelCreated(Describe(engineChannels[i])));
    }

    // -------------------------------------------------------------------
    // Notifications
    // -------------------------------------------------------------------

    method ProcessNotification(n: Notification, eng: ChannelAnswers) returns (r: Result<Reply>)
      requires Valid()
      modifies this
      ensures Valid()
      ensures Transition(r, Model()) == Session.ProcessNotification(old(Model()), n, eng)
    {
      var kind := ParseEvent(n.name);
      if kind.None? {
        return Err(UnknownEvent(n.name));
      }
      match kind.value
      case EnableTrackEvent =>
        r := Ok(Nothing);
      case DisableTrackEvent =>
        r := Ok(Nothing);
      case SendEvent =>
        r := SendFrame(n.internal, TextFrame(n.data), eng.queued);
      case SendBinaryEvent =>
        r := SendFrame(n.internal, BinaryFrame(n.data), eng.queued);
      case CloseEvent =>
        r := CloseChannel(n.internal);
      case SetThresholdEvent =>
        r := SetThreshold(n.internal, n.data, eng.thresholdAccepted);
    }

    method SendFrame(internal: map<string, Value>, frame: Frame, queued: Option<nat>) returns (r: Result<Reply>)
      requires Valid()
      modifies this
      ensures Valid()
      ensures Transition(r, Model()) == Session.SendFrame(old(Model()), internal, frame, queued)
    {
      var id := Get(internal, "dataChannelId");
      if id == Null {
        return Err(MissingField("dataChannelId"));
      }
      var entry := ChannelEntry(Model(), id);
      if entry.None? {
        return Err(KeyNotFound);
      }
      if queued.None? {
        return Err(EngineError);
      }
      var i := entry.value;
      var c := engineChannels[i];
      engineChannels := engineChannels[i := c.(sent := c.sent + [frame], bufferedAmount := c.bufferedAmount + queued.value)];
      Notify(id, "bufferedamount", Int(engineChannels[i].bufferedAmount));
      r := Ok(Nothing);
    }

    method CloseChannel(internal: map<string, Value>) returns (r: Result<Reply>)
      requires Valid()
      modifies this
      ensures Valid()
      ensures Transition(r, Model()) == Session.CloseChannel(old(Model()), internal)
    {
      var id := Get(internal, "dataChannelId");
      if id == Null {
        return Err(MissingField("dataChannelId"));
      }
      var entry := ChannelEntry(Model(), id);
      if entry.None? {
        return Ok(Nothing);
      }
      var i := entry.value;
      DeleteKeyed(dataChannels, id);
      dataChannels := Delete(dataChannels, id);
      engineChannels := engineChannels[i := engineChannels[i].(closed := true)];
      r := Ok(Nothing);
    }

    method SetThreshold(internal: map<string, Value>, value: Value, accepted: bool) returns (r: Result<Reply>)
      requires Valid()
      modifies this
      ensures Valid()
      ensures Transition(r, Model()) == Session.SetThreshold(old(Model()), internal, value, accepted)
    {
      var id := Get(internal, "dataChannelId");
      if id == Null {
        return Err(MissingField("dataChannelId"));
      }
      var entry := ChannelEntry(Model(), id);
      if entry.None? {
        return Err(KeyNotFound);
      }
      if !accepted {
        return Err(EngineError);
      }
      var i := entry.value;
      engineChannels := engineChannels[i := engineChannels[i].(threshold := value)];
      r := Ok(Nothing);
    }

    // -------------------------------------------------------------------
    // Engine events and the poller
    // -------------------------------------------------------------------

    /** The `close` listener of engine channel `i`. */
    method OnChannelClose(i: nat)
      requires Valid() && i < |engineChannels|
      modifies this
      ensures Valid()
      ensures Model() == Session.OnChannelClose(old(Model()), i)
    {
      var id := engineChannels[i].listenerId;
      if id !in Keys(dataChannels) {
        return;
      }
      DeleteKeyed(dataChannels, id);
      dataChannels := Delete(dataChannels, id);
      Notify(id, "close", Null);
    }

    /** The `open`, `closing`, `message` and `bufferedamountlow` listeners of engine channel `i`. */
    method OnChannelEvent(i: nat, ev: ChannelEvent)
      requires Valid() && i < |engineChannels|
      modifies this
      ensures Valid()
      ensures Model() == Session.OnChannelEvent(old(Model()), i, ev)
    {
      var id := engineChannels[i].listenerId;
      match ev
      case Opened =>
        Notify(id, "open", Null);
      case Closing =>
        Notify(id, "closing", Null);
      case Received(TextMessage(text)) =>
        Notify(id, "message", Str(text));
      case Received(BytesMessage(b64)) =>
        Notify(id, "binary", Str(BytesRepr(b64)));
      case BufferedAmountLow =>
        Notify(id, "bufferedamountlow", Null);
    }

    /** The engine's transport changing channel `i`'s send queue to `amount` bytes. */
    method OnBufferedAmount(i: nat, amount: nat)
      requires Valid() && i < |engineChannels|
      modifies this
      ensures Valid()
      ensures Model() == Session.OnBufferedAmount(old(Model()), i, amount)
    {
      engineChannels := engineChannels[i := engineChannels[i].(bufferedAmount := amount)];
    }

    /** The peer connection's signaling and ICE state-change listeners. */
    method OnSessionEvent(ev: SessionEvent, newState: string)
      requires Valid()
      modifies this
      ensures Valid()
      ensures Model() == Session.OnSessionEvent(old(Model()), ev, newState)
    {
      Notify(Str(handlerId), SessionEventName(ev), Str(newState));
    }

    /** One pass of the buffered-amount poller over the registered channels, in registry order. */
    method PollTick()
      requires Valid()
      modifies this
      ensures Valid()
      ensures Model() == Session.PollTick(old(Model()))
    {
      assert forall k | 0 <= k < |dataChannels| :: dataChannels[k] in dataChannels;
      var j := 0;
      while j < |dataChannels|
        invariant 0 <= j <= |dataChannels|
        invariant Model() == old(Model()).(log := log)
        invariant RefersWithin(dataChannels[..j], engineChannels)
        invariant log == old(log) + TickNotices(dataChannels[..j], engineChannels)
      {
        TickNoticesStep(dataChannels, engineChannels, j);
        var (id, i) := dataChannels[j];
        Notify(id, "bufferedamount", Int(engineChannels[i].bufferedAmount));
        j := j + 1;
      }
      assert dataChannels[..j] == dataChannels;
    }
  }
}
