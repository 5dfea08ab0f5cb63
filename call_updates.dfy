/** `handleCallUpdates` (index.js:248-301): the call-update sub-protocol.
    A parsed envelope `{ event, type, payload }` is mapped to at most one
    outgoing event. The destructuring defaults of index.js:249 and 253-262
    apply to `undefined` only; destructuring a `null` payload (or a `null`
    `payload.recording`) throws a TypeError before the switch is reached. */
module CallUpdates {
  import opened Wrappers
  import opened Json

  /** The `timestamp` of a message event: the payload's own value, or the
      `new Date()` default, given as the clock reading `now`. */
  datatype Timestamp = FromPayload(value: Json) | Clock(millis: int)

  /** The events the sub-protocol emits, with their payloads. */
  datatype CallEvent =
    | CallStart(userNumber: Json)
    | CallEnd
    | Message(speaker: string, text: Json, timestamp: Timestamp)
    | AssistantConfig(config: Json)
    | Recording(s3Link: Json)
    | Summary(summary: Json)
  {
    /** The event name passed to `emit`. */
    function Name(): string {
      match this
      case CallStart(_) => "call-start"
      case CallEnd => "call-end"
      case Message(_, _, _) => "message"
      case AssistantConfig(_) => "assistant-config"
      case Recording(_) => "recording"
      case Summary(_) => "summary"
    }

    /** The envelope `type` that selects this event. */
    function Tag(): string {
      match this
      case CallStart(_) => "status"
      case CallEnd => "status"
      case Message(_, _, _) => "message"
      case AssistantConfig(_) => "assistant-config"
      case Recording(_) => "recording"
      case Summary(_) => "summary"
    }
  }

  datatype Outcome = Ignored | Emits(event: CallEvent) | Throws

  /** The payload after `payload = {}`. */
  function PayloadOf(root: Json): Json {
    OrDefault(Get(root, "payload"), EmptyObject)
  }

  /** `payload.recording` after `recording: { ... } = {}`. */
  function RecordingOf(payload: Json): Json {
    OrDefault(Get(payload, "recording"), EmptyObject)
  }

  /** Destructuring the payload throws exactly when it, or its `recording`,
      is `null`. */
  predicate DestructuringThrows(root: Json) {
    PayloadOf(root) == JNull || RecordingOf(PayloadOf(root)) == JNull
  }

  function HandleCallUpdates(parsed: Json, now: int): (r: Outcome)
    // a missing or falsy `event` gives nothing
    ensures !Truthy(Get(parsed, "event")) ==> r == Ignored
    // with an `event`, a TypeError exactly when destructuring meets a null
    ensures Truthy(Get(parsed, "event")) ==> (r == Throws <==> DestructuringThrows(parsed))
    // the kind of event is chosen by the `type` field alone
    ensures r.Emits? ==> Get(parsed, "type") == Some(JStr(r.event.Tag()))
    // a status event comes only from the statuses `in-progress` and `completed`
    ensures r.Emits? && r.event.CallStart? ==>
      Get(PayloadOf(parsed), "status") == Some(JStr("in-progress"))
    ensures r.Emits? && r.event.CallEnd? ==>
      Get(PayloadOf(parsed), "status") == Some(JStr("completed"))
    // the speaker is the assistant exactly when the source is the agent
    ensures r.Emits? && r.event.Message? ==>
      (r.event.speaker == "Assistant" <==> Get(PayloadOf(parsed), "source") == Some(JStr("agent")))
    ensures r.Emits? && r.event.Message? ==> r.event.speaker in {"Assistant", "User"}
    // and conversely: every envelope of a known non-status type that
    // destructures emits
    ensures (&& Truthy(Get(parsed, "event")) && !DestructuringThrows(parsed)
             && Get(parsed, "type") in {Some(JStr("message")), Some(JStr("assistant-config")),
                                        Some(JStr("recording")), Some(JStr("summary"))})
      ==> r.Emits?
  {
    var root := if Truthy(Some(parsed)) then parsed else EmptyObject;
    if !Truthy(Get(root, "event")) then Ignored
    else
      var payload := PayloadOf(root);
      if payload == JNull then Throws
      else
        var recording := RecordingOf(payload);
        if recording == JNull then Throws
        else
          var kind := Get(root, "type");
          if kind == Some(JStr("status")) then
            var status := OrDefault(Get(payload, "status"), JStr(""));
            if status == JStr("trying") then Ignored
            else if status == JStr("in-progress") then
              Emits(CallStart(OrDefault(Get(payload, "userNumber"), JStr(""))))
            else if status == JStr("completed") then Emits(CallEnd)
            else Ignored
          else if kind == Some(JStr("message")) then
            var source := OrDefault(Get(payload, "source"), JStr(""));
            var speaker := if source == JStr("agent") then "Assistant" else "User";
            var text := OrDefault(Get(payload, "text"), JStr(""));
            var stamp := match Get(payload, "timestamp")
              case Some(t) => FromPayload(t)
              case None => Clock(now);
            Emits(Message(speaker, text, stamp))
          else if kind == Some(JStr("assistant-config")) then Emits(AssistantConfig(payload))
          else if kind == Some(JStr("recording")) then
            Emits(Recording(OrDefault(Get(recording, "s3Link"), JStr(""))))
          else if kind == Some(JStr("summary")) then Emits(Summary(payload))
          else Ignored
  }

  /** A `call-updates` envelope with the given type and payload fields. */
  function Envelope(kind: string, payload: Json): Json {
    JObj(map["event" := JStr("call-updates"), "type" := JStr(kind), "payload" := payload])
  }

  /** An envelope that the classifier turns back into `e`. */
  function Encode(e: CallEvent): Json {
    match e
    case CallStart(u) => Envelope("status", JObj(map["status" := JStr("in-progress"), "userNumber" := u]))
    case CallEnd => Envelope("status", JObj(map["status" := JStr("completed")]))
    case Message(speaker, text, stamp) =>
      var source := if speaker == "Assistant" then JStr("agent") else JStr("caller");
      var fields := map["source" := source, "text" := text];
      Envelope("message", JObj(if stamp.FromPayload? then fields["timestamp" := stamp.value] else fields))
    case AssistantConfig(c) => Envelope("assistant-config", c)
    case Recording(link) => Envelope("recording", JObj(map["recording" := JObj(map["s3Link" := link])]))
    case Summary(s) => Envelope("summary", s)
  }

  /** The events some envelope can produce: a speaker is one of the two
      names, and a configuration or summary is a payload that destructures,
      i.e. neither it nor its `recording` is null. */
  predicate Encodable(e: CallEvent) {
    match e
    case Message(speaker, _, _) => speaker in {"Assistant", "User"}
    case AssistantConfig(c) => c != JNull && RecordingOf(c) != JNull
    case Summary(s) => s != JNull && RecordingOf(s) != JNull
    case _ => true
  }

  /** The clock reading under which `Encode(e)` is classified as `e`. */
  function ClockFor(e: CallEvent, now: int): int {
    if e.Message? && e.timestamp.Clock? then e.timestamp.millis else now
  }

  /** Round trip: every event the sub-protocol can emit is emitted, exactly
      once, for its envelope. */
  lemma EncodeRoundTrip(e: CallEvent, now: int)
    requires Encodable(e)
    ensures HandleCallUpdates(Encode(e), ClockFor(e, now)) == Emits(e)
  {
  }

  /** The `status` sub-protocol in both directions: for a well-formed status
      envelope, `trying` and every unrecognised status give nothing,
      `in-progress` gives `call-start` and `completed` gives `call-end`. */
  lemma StatusClassification(parsed: Json, now: int)
    requires Truthy(Get(parsed, "event")) && !DestructuringThrows(parsed)
    requires Get(parsed, "type") == Some(JStr("status"))
    ensures var status := OrDefault(Get(PayloadOf(parsed), "status"), JStr(""));
      && (HandleCallUpdates(parsed, now).Emits? <==> status in {JStr("in-progress"), JStr("completed")})
      && (status == JStr("in-progress") ==>
            HandleCallUpdates(parsed, now) == Emits(CallStart(OrDefault(Get(PayloadOf(parsed), "userNumber"), JStr("")))))
      && (status == JStr("completed") ==> HandleCallUpdates(parsed, now) == Emits(CallEnd))
  {
  }

  /** Only the five known types produce an event. */
  lemma UnknownTypeIgnored(parsed: Json, now: int)
    requires Get(parsed, "type") !in
      {Some(JStr("status")), Some(JStr("message")), Some(JStr("assistant-config")),
       Some(JStr("recording")), Some(JStr("summary"))}
    ensures !HandleCallUpdates(parsed, now).Emits?
  {
  }

  /** A `message` envelope that destructures gives the `message` event: the
      speaker from `source`, the `text` (default `''`) and the payload's
      `timestamp`, or the clock when it has none. */
  lemma MessageClassification(parsed: Json, now: int)
    requires Truthy(Get(parsed, "event")) && !DestructuringThrows(parsed)
    requires Get(parsed, "type") == Some(JStr("message"))
    ensures var p := PayloadOf(parsed);
      HandleCallUpdates(parsed, now) == Emits(Message(
        if Get(p, "source") == Some(JStr("agent")) then "Assistant" else "User",
        OrDefault(Get(p, "text"), JStr("")),
        if Get(p, "timestamp").Some? then FromPayload(Get(p, "timestamp").value) else Clock(now)))
  {
  }

  /** `assistant-config` and `summary` forward the whole payload, which is
      `{}` when the envelope has none. */
  lemma PayloadEventsCarryPayload(parsed: Json, now: int)
    requires Truthy(Get(parsed, "event")) && !DestructuringThrows(parsed)
    ensures Get(parsed, "type") == Some(JStr("assistant-config")) ==>
      HandleCallUpdates(parsed, now) == Emits(AssistantConfig(PayloadOf(parsed)))
    ensures Get(parsed, "type") == Some(JStr("summary")) ==>
      HandleCallUpdates(parsed, now) == Emits(Summary(PayloadOf(parsed)))
    ensures Get(parsed, "payload").None? && Get(parsed, "type") == Some(JStr("summary")) ==>
      HandleCallUpdates(parsed, now) == Emits(Summary(EmptyObject))
  {
  }

  /** `recording` gives `payload.recording.s3Link`, with `''` when either the
      recording or its link is missing. */
  lemma RecordingClassification(parsed: Json, now: int)
    requires Truthy(Get(parsed, "event")) && !DestructuringThrows(parsed)
    requires Get(parsed, "type") == Some(JStr("recording"))
    ensures HandleCallUpdates(parsed, now) ==
      Emits(Recording(OrDefault(Get(RecordingOf(PayloadOf(parsed)), "s3Link"), JStr(""))))
    ensures Get(PayloadOf(parsed), "recording").None? ==>
      HandleCallUpdates(parsed, now) == Emits(Recording(JStr("")))
  {
  }
}
