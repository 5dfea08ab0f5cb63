/** `handleMessage` (index.js:302-330): the inbound frame dispatcher. The
    JSON parse is an input (`Frame`); everything thrown inside the `try`,
    including a parse failure, a TypeError from reading a property of
    `null`/`undefined` and a TypeError from call-update destructuring, is
    caught at index.js:327 and becomes one `error` emission. */
module Dispatcher {
  import opened Wrappers
  import opened Json
  import opened CallUpdates
  import EventRegistry

  /** The result of `JSON.parse(msg)`. */
  datatype Frame = ParseFailed | Parsed(value: Json)

  datatype ErrorKind = SyntaxError | TypeError

  /** What one inbound frame makes the client do. */
  datatype Action =
    | CallUpdate(event: CallEvent)           // emit one call-update event
    | NoAction                               // a call-update envelope that emits nothing
    | Play(content: Option<Json>, contentType: Option<Json>, sampleRate: Option<Json>)
    | StopPlayback                           // killAudio
    | CloseSocket                            // disconnect
    | Unknown(data: Json)                    // emit('unknown', data)
    | Error(kind: ErrorKind)                 // emit('error', error)
  {
    /** The names emitted synchronously while handling the frame. Playback
        is started without being awaited; its own emissions come later. */
    function Emitted(): seq<string> {
      match this
      case CallUpdate(e) => [e.Name()]
      case NoAction => []
      case Play(_, _, _) => []
      case StopPlayback => ["audioEnd"]
      case CloseSocket => []
      case Unknown(_) => ["unknown"]
      case Error(_) => ["error"]
    }
  }

  /** `data.event === 'call-updates'`. */
  predicate IsCallUpdate(v: Json) {
    Get(v, "event") == Some(JStr("call-updates"))
  }

  /** The action of a call-update envelope: its event, nothing, or the
      caught TypeError. */
  function FromOutcome(o: Outcome): (a: Action)
    ensures a.Emitted() == (match o case Emits(e) => [e.Name()] case Ignored => [] case Throws => ["error"])
  {
    match o
    case Emits(e) => CallUpdate(e)
    case Ignored => NoAction
    case Throws => Error(TypeError)
  }

  /** `handleMessage(msg)`; `now` is the clock reading for a defaulted
      message timestamp, `hasSocket` whether `this.ws` is set. */
  function HandleMessage(frame: Frame, now: int, hasSocket: bool): (a: Action)
    // a parse failure is one error and nothing else
    ensures frame.ParseFailed? ==> a == Error(SyntaxError)
    // `JSON.parse('null')`: reading `null.event` throws
    ensures frame == Parsed(JNull) ==> a == Error(TypeError)
    // a call-updates envelope goes to the sub-protocol only, never to the type switch
    ensures frame.Parsed? && IsCallUpdate(frame.value) ==>
      a == FromOutcome(HandleCallUpdates(frame.value, now))
    // otherwise the top-level `type` decides
    ensures frame.Parsed? && frame.value != JNull && !IsCallUpdate(frame.value) ==>
      var v := frame.value;
      var kind := Get(v, "type");
      && (kind == Some(JStr("playAudio")) ==>
            (a.Play? <==> Get(v, "data").Some? && Get(v, "data").value != JNull)
            && (a.Play? ==> a == Play(Get(Get(v, "data").value, "audioContent"),
                                      Get(Get(v, "data").value, "audioContentType"),
                                      Get(Get(v, "data").value, "sampleRate")))
            && (!a.Play? ==> a == Error(TypeError)))
      && (kind == Some(JStr("killAudio")) ==> a == StopPlayback)
      && (kind == Some(JStr("disconnect")) ==> a == (if hasSocket then CloseSocket else Error(TypeError)))
      && (kind !in {Some(JStr("playAudio")), Some(JStr("killAudio")), Some(JStr("disconnect"))} ==>
            a == Unknown(v))
    // every frame has exactly one outcome, and at most one emission
    ensures |a.Emitted()| <= 1
  {
    match frame
    case ParseFailed => Error(SyntaxError)
    case Parsed(v) =>
      if v == JNull then Error(TypeError)
      else if IsCallUpdate(v) then FromOutcome(HandleCallUpdates(v, now))
      else
        var kind := Get(v, "type");
        if kind == Some(JStr("playAudio")) then
          match Get(v, "data")
          case None => Error(TypeError)
          case Some(d) =>
            if d == JNull then Error(TypeError)
            else Play(Get(d, "audioContent"), Get(d, "audioContentType"), Get(d, "sampleRate"))
        else if kind == Some(JStr("killAudio")) then StopPlayback
        else if kind == Some(JStr("disconnect")) then
          if hasSocket then CloseSocket else Error(TypeError)
        else Unknown(v)
  }

  /** A frame that does not parse emits exactly one `error` and no domain event. */
  lemma MalformedFrameEmitsOneError(now: int, hasSocket: bool)
    ensures HandleMessage(ParseFailed, now, hasSocket).Emitted() == ["error"]
  {
  }

  /** Presence of `event: 'call-updates'` wins over the top-level `type`: an
      envelope carrying both never starts playback, stops it or closes. */
  lemma CallUpdateWinsOverType(v: Json, now: int, hasSocket: bool)
    requires IsCallUpdate(v)
    ensures var a := HandleMessage(Parsed(v), now, hasSocket);
      a.CallUpdate? || a == NoAction || a == Error(TypeError)
  {
  }

  /** Only the exact `event` value `call-updates` routes to the sub-protocol:
      a frame with any other `event` (or none) whose `type` is not one of the
      three commands, such as a misspelt `call-update` envelope of type
      `message`, is an unknown frame. */
  lemma OtherEventIsUnknown(v: Json, now: int, hasSocket: bool)
    requires v != JNull && !IsCallUpdate(v)
    requires Get(v, "type") !in {Some(JStr("playAudio")), Some(JStr("killAudio")), Some(JStr("disconnect"))}
    ensures HandleMessage(Parsed(v), now, hasSocket) == Unknown(v)
  {
  }

  /** Every name `handleMessage` emits for one frame, in order, given the
      handler table and the handlers that throw. The frame's own emission
      runs inside the `try`, so a handler of it that throws is caught at
      index.js:327 and one `error` follows; an `error` that is itself the
      frame's emission comes from the `catch`, after which nothing follows.
      `EventRegistry.Registry.Emit` reports `Threw` exactly when
      `EventRegistry.ListenerThrows` holds. */
  function FrameEmissions(frame: Frame, now: int, hasSocket: bool,
                          table: EventRegistry.Table, throwing: set<EventRegistry.HandlerId>)
    : (es: seq<string>)
    ensures var own := HandleMessage(frame, now, hasSocket).Emitted();
      && own <= es && |es| <= 2
      && (|es| > |own| <==> own != [] && own != ["error"] && EventRegistry.ListenerThrows(table, own[0], throwing))
      && (|es| > |own| ==> es == own + ["error"])
  {
    var a := HandleMessage(frame, now, hasSocket);
    var own := a.Emitted();
    if own != [] && !a.Error? && EventRegistry.ListenerThrows(table, own[0], throwing) then own + ["error"] else own
  }

  /** An unknown frame whose `unknown` listener throws emits `unknown` and
      then the caught `error`. */
  lemma ThrowingUnknownListenerAddsError(v: Json, now: int, hasSocket: bool,
                                          table: EventRegistry.Table, throwing: set<EventRegistry.HandlerId>,
                                          h: EventRegistry.HandlerId)
    requires v != JNull && !IsCallUpdate(v)
    requires Get(v, "type") !in {Some(JStr("playAudio")), Some(JStr("killAudio")), Some(JStr("disconnect"))}
    requires h in EventRegistry.Listeners(table, "unknown") && h in throwing
    ensures FrameEmissions(Parsed(v), now, hasSocket, table, throwing) == ["unknown", "error"]
  {
    OtherEventIsUnknown(v, now, hasSocket);
  }

  /** Of the events the call-update sub-protocol emits, exactly `recording`
      and `summary` (index.js:290, 294) have no entry in the constructor's
      table, so in every table the registry can reach nobody hears them: no
      handler can throw for them, and the frame emits just that name. */
  lemma UnheardCallUpdates(e: CallEvent, table: EventRegistry.Table, throwing: set<EventRegistry.HandlerId>,
                           v: Json, now: int, hasSocket: bool)
    requires table.Keys == EventRegistry.EventNames
    ensures e.Name() !in EventRegistry.EventNames <==> e.Recording? || e.Summary?
    ensures e.Recording? || e.Summary? ==> EventRegistry.Listeners(table, e.Name()) == []
    ensures IsCallUpdate(v) && HandleCallUpdates(v, now) == Emits(e) && (e.Recording? || e.Summary?) ==>
      !EventRegistry.ListenerThrows(table, e.Name(), throwing)
      && FrameEmissions(Parsed(v), now, hasSocket, table, throwing) == [e.Name()]
  {
  }
}
