/** The statistics contract of the controller: which entries of the engine's
    statistics report reach the orchestrator and which fields each carries
    (the `getTransportStats`, `getSenderStats` and `getReceiverStats`
    requests and the five `_serialize*Stats` field selectors). */
module Stats {
  import opened Values

  /** One entry of the engine's report: its `type`, its `id`, and its other
      attributes by name. Attribute values are opaque to the controller. */
  datatype StatEntry = StatEntry(statType: string, id: string, attrs: map<string, Value>)

  /** A serialized entry: field name to value, as sent on the wire. */
  type Serialized = map<string, Value>

  /** The five entry types the controller knows how to serialize. */
  datatype Shape = Inbound | Outbound | RemoteInbound | RemoteOutbound | Transport

  function TypeName(sh: Shape): string
  {
    match sh
    case Inbound => "inbound-rtp"
    case Outbound => "outbound-rtp"
    case RemoteInbound => "remote-inbound-rtp"
    case RemoteOutbound => "remote-outbound-rtp"
    case Transport => "transport"
  }

  /** Recognises an entry's `type` string; the inverse of TypeName. */
  function ShapeOf(t: string): (r: Option<Shape>)
    ensures r.Some? ==> TypeName(r.value) == t
    ensures r.None? ==> forall sh: Shape :: TypeName(sh) != t
  {
    if t == "inbound-rtp" then Some(Inbound)
    else if t == "outbound-rtp" then Some(Outbound)
    else if t == "remote-inbound-rtp" then Some(RemoteInbound)
    else if t == "remote-outbound-rtp" then Some(RemoteOutbound)
    else if t == "transport" then Some(Transport)
    else None
  }

  /** The attributes each serializer copies besides `type` and `id`. */
  function Fields(sh: Shape): (r: seq<string>)
    ensures |r| > 0 && r[0] == "timestamp"
    ensures forall i, j | 0 <= i < j < |r| :: r[i] != r[j]
  {
    match sh
    // _serializeInboundStats
    case Inbound =>
      ["timestamp", "ssrc", "kind", "transportId", "packetsReceived", "packetsLost", "jitter"]
    // _serializeOutboundStats
    case Outbound =>
      ["timestamp", "ssrc", "kind", "transportId", "packetsSent", "bytesSent", "trackId"]
    // _serializeRemoteInboundStats
    case RemoteInbound =>
      ["timestamp", "ssrc", "kind", "transportId", "packetsReceived", "packetsLost", "jitter",
       "roundTripTime", "fractionLost"]
    // _serializeRemoteOutboundStats
    case RemoteOutbound =>
      ["timestamp", "ssrc", "kind", "transportId", "packetsSent", "bytesSent", "remoteTimestamp"]
    // _serializeTransportStats
    case Transport =>
      ["timestamp", "packetsSent", "packetsReceived", "bytesSent", "bytesReceived", "iceRole", "dtlsState"]
  }

  /** Copies the named attributes, in order; reading one the entry lacks
      raises AttributeError, modelled as None. */
  function Select(attrs: map<string, Value>, names: seq<string>): (r: Option<Serialized>)
    ensures r.Some? ==> forall f | f in r.value :: f in names && f in attrs && r.value[f] == attrs[f]
  {
    if names == [] then Some(map[])
    else if names[0] !in attrs then None
    else match Select(attrs, names[1..])
      case None => None
      case Some(m) => Some(m[names[0] := attrs[names[0]]])
  }

  /** The field selector `_serialize...Stats` for an entry of shape `sh`. */
  function Serialize(e: StatEntry, sh: Shape): (r: Option<Serialized>)
    ensures r.Some? ==> "type" in r.value && r.value["type"] == Str(e.statType)
    ensures r.Some? ==> "id" in r.value && r.value["id"] == Str(e.id)
  {
    match Select(e.attrs, Fields(sh))
    case None => None
    case Some(m) => Some(m["type" := Str(e.statType)]["id" := Str(e.id)])
  }

  /** Selecting copies exactly the named attributes, and fails exactly when one is missing. */
  lemma {:induction false} SelectSpec(attrs: map<string, Value>, names: seq<string>)
    ensures Select(attrs, names).Some? <==> forall f | f in names :: f in attrs
    ensures Select(attrs, names).Some? ==> Select(attrs, names).value.Keys == set f | f in names
    ensures Select(attrs, names).Some? ==> forall f | f in names :: Select(attrs, names).value[f] == attrs[f]
  {
    if names != [] {
      SelectSpec(attrs, names[1..]);
      assert forall f | f in names :: f == names[0] || f in names[1..];
    }
  }

  /** A serialized entry carries the entry's `type` and `id` and exactly the
      serializer's fields, copied; serializing fails exactly when the entry
      lacks one of them. */
  lemma SerializeSpec(e: StatEntry, sh: Shape)
    ensures Serialize(e, sh).Some? <==> forall f | f in Fields(sh) :: f in e.attrs
    ensures Serialize(e, sh).Some? ==> Serialize(e, sh).value.Keys == {"type", "id"} + set f | f in Fields(sh)
    ensures Serialize(e, sh).Some? ==>
      Serialize(e, sh).value["type"] == Str(e.statType) && Serialize(e, sh).value["id"] == Str(e.id)
    ensures Serialize(e, sh).Some? ==> forall f | f in Fields(sh) :: Serialize(e, sh).value[f] == e.attrs[f]
  {
    SelectSpec(e.attrs, Fields(sh));
    FieldsOmitTypeAndId(sh);
  }

  /** No serializer lists `type` or `id` among its copied fields. */
  lemma FieldsOmitTypeAndId(sh: Shape)
    ensures "type" !in Fields(sh) && "id" !in Fields(sh)
  {
    match sh
    case Inbound =>
    case Outbound =>
    case RemoteInbound =>
    case RemoteOutbound =>
    case Transport =>
  }

  /** Which request is collecting: `getTransportStats`, `getSenderStats` or `getReceiverStats`. */
  datatype Selector = TransportStats | SenderStats | ReceiverStats

  /** The branches of each request's loop: which shapes it serializes. */
  predicate Selects(sel: Selector, sh: Shape)
  {
    match sel
    case TransportStats => true
    case SenderStats => sh == Outbound || sh == RemoteInbound || sh == Transport
    case ReceiverStats => sh == Inbound || sh == RemoteOutbound || sh == Transport
  }

  /** The `type` strings each request keeps, as its branches spell them. */
  function KeptTypes(sel: Selector): set<string>
  {
    match sel
    case TransportStats =>
      {"inbound-rtp", "outbound-rtp", "remote-inbound-rtp", "remote-outbound-rtp", "transport"}
    case SenderStats => {"outbound-rtp", "remote-inbound-rtp", "transport"}
    case ReceiverStats => {"inbound-rtp", "remote-outbound-rtp", "transport"}
  }

  /** The serializer the request's loop applies to an entry, or None when no branch matches. */
  function KeptShape(sel: Selector, e: StatEntry): (r: Option<Shape>)
    ensures r.Some? ==> TypeName(r.value) == e.statType && Selects(sel, r.value)
  {
    match ShapeOf(e.statType)
    case None => None
    case Some(sh) => if Selects(sel, sh) then Some(sh) else None
  }

  /** What the request's loop makes of one entry: nothing (no branch
      matches its type), its serialization, or the AttributeError of a
      missing field. */
  datatype Outcome = Skip | Keep(fields: Serialized) | Raise

  function OutcomeOf(sel: Selector, e: StatEntry): Outcome
  {
    match KeptShape(sel, e)
    case None => Skip
    case Some(sh) =>
      match Serialize(e, sh)
      case None => Raise
      case Some(m) => Keep(m)
  }

  /** The per-entry outcome of request `sel`, as a function value. */
  function OutcomeFor(sel: Selector): StatEntry -> Outcome
  {
    e => OutcomeOf(sel, e)
  }

  /** No entry under the report keys `done` raises. */
  predicate NoneRaise(report: map<string, StatEntry>, outcome: StatEntry -> Outcome, done: set<string>)
  {
    forall k | k in done && k in report :: !outcome(report[k]).Raise?
  }

  /** The kept entries among the report keys `done`, serialized. */
  function Kept(report: map<string, StatEntry>, outcome: StatEntry -> Outcome, done: set<string>): map<string, Serialized>
  {
    map k | k in done && k in report && outcome(report[k]).Keep? :: outcome(report[k]).fields
  }

  /** What a stats request answers for an engine report: every kept entry
      serialized under its report key, or the AttributeError of an entry that
      lacks a field. */
  function Filter(report: map<string, StatEntry>, sel: Selector): (r: Result<map<string, Serialized>>)
    ensures r.Err? ==> r.error == MissingAttribute
  {
    if NoneRaise(report, OutcomeFor(sel), report.Keys) then
      Ok(Kept(report, OutcomeFor(sel), report.Keys))
    else
      Err(MissingAttribute)
  }

  /** The request's loop over the report, filling `result` entry by entry. */
  method CollectStats(report: map<string, StatEntry>, sel: Selector)
    returns (r: Result<map<string, Serialized>>)
    ensures r == Filter(report, sel)
  {
    var result: map<string, Serialized> := map[];
    var todo := report.Keys;
    while todo != {}
      invariant todo <= report.Keys
      invariant NoneRaise(report, OutcomeFor(sel), report.Keys - todo)
      invariant result == Kept(report, OutcomeFor(sel), report.Keys - todo)
      decreases todo
    {
      var key :| key in todo;
      assert OutcomeFor(sel)(report[key]) == OutcomeOf(sel, report[key]);
      var shape := KeptShape(sel, report[key]);
      if shape.Some? {
        var s := Serialize(report[key], shape.value);
        if s.None? {
          return Err(MissingAttribute);
        }
        result := result[key := s.value];
      }
      CollectStep(report, OutcomeFor(sel), todo, key);
      todo := todo - {key};
    }
    assert report.Keys - todo == report.Keys;
    return Ok(result);
  }

  /** One turn of CollectStats' loop: handling `key` extends the answer by its serialized entry, if kept. */
  lemma CollectStep(report: map<string, StatEntry>, outcome: StatEntry -> Outcome, todo: set<string>, key: string)
    requires todo <= report.Keys && key in todo
    requires NoneRaise(report, outcome, report.Keys - todo)
    requires !outcome(report[key]).Raise?
    ensures NoneRaise(report, outcome, report.Keys - (todo - {key}))
    ensures Kept(report, outcome, report.Keys - (todo - {key})) ==
      if outcome(report[key]).Keep?
      then Kept(report, outcome, report.Keys - todo)[key := outcome(report[key]).fields]
      else Kept(report, outcome, report.Keys - todo)
  {
    assert report.Keys - (todo - {key}) == (report.Keys - todo) + {key};
  }

  /** An entry is kept exactly when its `type` is one of the strings the request's branches test. */
  lemma KeptIffTypeListed(sel: Selector, e: StatEntry)
    ensures KeptShape(sel, e).Some? <==> e.statType in KeptTypes(sel)
  {
    var t := e.statType;
    if t in KeptTypes(sel) {
      if t == "inbound-rtp" { assert ShapeOf(t) == Some(Inbound); }
      else if t == "outbound-rtp" { assert ShapeOf(t) == Some(Outbound); }
      else if t == "remote-inbound-rtp" { assert ShapeOf(t) == Some(RemoteInbound); }
      else if t == "remote-outbound-rtp" { assert ShapeOf(t) == Some(RemoteOutbound); }
      else { assert ShapeOf(t) == Some(Transport); }
    }
  }

  /** The answer's keys are exactly the report keys whose entry has a listed type. */
  lemma FilterKeys(report: map<string, StatEntry>, sel: Selector)
    requires Filter(report, sel).Ok?
    ensures forall k :: k in Filter(report, sel).value <==> k in report && report[k].statType in KeptTypes(sel)
  {
    forall k | k in report { KeptIffTypeListed(sel, report[k]); }
  }

  /** Every answered entry went through the branch for its `type`, keeps
      the source entry's `type` and `id`, and carries exactly its
      serializer's fields, copied from the entry. */
  lemma FilterEntries(report: map<string, StatEntry>, sel: Selector, k: string)
    requires Filter(report, sel).Ok? && k in Filter(report, sel).value
    ensures k in report && KeptShape(sel, report[k]).Some?
    ensures var sh := KeptShape(sel, report[k]).value;
      Selects(sel, sh) && TypeName(sh) == report[k].statType
    ensures forall f | f in Fields(KeptShape(sel, report[k]).value) :: f in report[k].attrs
    ensures var sh, e, s := KeptShape(sel, report[k]).value, report[k], Filter(report, sel).value[k];
      && s.Keys == {"type", "id"} + (set f | f in Fields(sh))
      && s["type"] == Str(e.statType) && s["id"] == Str(e.id)
      && forall f | f in Fields(sh) :: s[f] == e.attrs[f]
  {
    var sh := KeptShape(sel, report[k]).value;
    SerializeSpec(report[k], sh);
  }

  /** A request fails exactly when some entry of a kept type lacks a field its serializer reads. */
  lemma FilterFails(report: map<string, StatEntry>, sel: Selector)
    ensures Filter(report, sel).Err? <==>
      exists k, sh :: k in report && Selects(sel, sh) && TypeName(sh) == report[k].statType
                      && exists f :: f in Fields(sh) && f !in report[k].attrs
  {
    if Filter(report, sel).Err? {
      var k :| k in report && OutcomeFor(sel)(report[k]).Raise?;
      var sh := KeptShape(sel, report[k]).value;
      SerializeSpec(report[k], sh);
      var f :| f in Fields(sh) && f !in report[k].attrs;
      assert Selects(sel, sh) && TypeName(sh) == report[k].statType;
    } else {
      forall k, sh | k in report && Selects(sel, sh) && TypeName(sh) == report[k].statType
        ensures forall f :: f in Fields(sh) ==> f in report[k].attrs
      {
        ShapeOfTypeName(sh);
        assert KeptShape(sel, report[k]) == Some(sh);
        assert !OutcomeFor(sel)(report[k]).Raise?;
        SerializeSpec(report[k], sh);
      }
    }
  }

  lemma ShapeOfTypeName(sh: Shape)
    ensures ShapeOf(TypeName(sh)) == Some(sh)
  {
  }

  /** The sender and receiver answers are the transport answer narrowed to
      their three types: on a report the transport request serializes, they
      succeed too and keep exactly its entries of their types. */
  lemma SideStatsNarrowTransport(report: map<string, StatEntry>, side: Selector)
    requires side != TransportStats
    requires Filter(report, TransportStats).Ok?
    ensures Filter(report, side).Ok?
    ensures Filter(report, side).value ==
      map k | k in Filter(report, TransportStats).value && report[k].statType in KeptTypes(side) ::
        Filter(report, TransportStats).value[k]
  {
    SideStatsOk(report, side);
    var wide, narrow := Filter(report, TransportStats).value, Filter(report, side).value;
    forall k | k in report
      ensures k in narrow <==> k in wide && report[k].statType in KeptTypes(side)
      ensures k in narrow ==> narrow[k] == wide[k]
    {
      OutcomeNarrow(side, report[k]);
    }
    Restricted(report, side, narrow, wide);
  }

  /** A map that agrees with `wide` on the report keys of the side's types, and has no others, is `wide` narrowed to them. */
  lemma Restricted(report: map<string, StatEntry>, side: Selector, narrow: map<string, Serialized>, wide: map<string, Serialized>)
    requires narrow.Keys <= report.Keys && wide.Keys <= report.Keys
    requires forall k | k in report :: k in narrow <==> k in wide && report[k].statType in KeptTypes(side)
    requires forall k | k in narrow :: narrow[k] == wide[k]
    ensures narrow == map k | k in wide && report[k].statType in KeptTypes(side) :: wide[k]
  {
  }

  /** A side request raises only where the transport request would. */
  lemma SideStatsOk(report: map<string, StatEntry>, side: Selector)
    requires side != TransportStats
    requires Filter(report, TransportStats).Ok?
    ensures Filter(report, side).Ok?
  {
    forall k | k in report
      ensures !OutcomeFor(side)(report[k]).Raise?
    {
      assert !OutcomeFor(TransportStats)(report[k]).Raise?;
      OutcomeNarrow(side, report[k]);
    }
  }

  /** An entry a side request keeps is one the transport request keeps, serialized the same way. */
  lemma OutcomeNarrow(side: Selector, e: StatEntry)
    requires side != TransportStats
    requires !OutcomeOf(TransportStats, e).Raise?
    ensures !OutcomeOf(side, e).Raise?
    ensures OutcomeOf(side, e).Keep? <==> e.statType in KeptTypes(side)
    ensures OutcomeOf(side, e).Keep? ==> OutcomeOf(side, e) == OutcomeOf(TransportStats, e)
  {
    KeptIffTypeListed(side, e);
  }
}
