/**
 * The voice-call widget's signalling state: the incoming-offer normaliser,
 * the emit-with-acknowledgement fallback over a list of event names, and the
 * call controller with its status and its three resource slots (peer
 * connection, local audio stream, stored incoming offer). Browser media and
 * RTC calls appear as their success or failure.
 */
module VoiceCall {
  import opened Js

  /** A normalised incoming offer: `{ from, type, sdp }`. */
  datatype Offer = Offer(from: string, sdpType: Json, sdp: Json)

  // ----- normalizeOffer -----

  /** Where a caller id may be found, in priority order. */
  function FromAliases(p: Json): seq<Json> {
    [Field(p, "from"), Field(p, "fromId"), Field(p, "caller"), Field(p, "from_user"), AndField(Field(p, "offer"), "from")]
  }

  /** Where the session description may be found, in priority order. */
  function SdpAliases(p: Json): seq<Json> {
    [Field(p, "sdp"), AndField(Field(p, "offer"), "sdp"), AndField(Field(p, "offer"), "sdpDescription"),
     AndField(Field(p, "payload"), "sdp")]
  }

  /** Where the description type may be found, with `'offer'` as the default. */
  function TypeAliases(p: Json): seq<Json> {
    [Field(p, "type"), AndField(Field(p, "offer"), "type"), Str("offer")]
  }

  /** `String(from || '')`. */
  function FromText(p: Json): string {
    if AnyTruthy(FromAliases(p)) then ToStr(FirstTruthy(FromAliases(p))) else ""
  }

  /** `normalizeOffer`: accept the several payload shapes servers use for an
      offer, or a bare SDP string, and give null when no SDP is found. */
  function NormalizeOffer(p: Json): (r: Option<Offer>)
    ensures !Truthy(p) ==> r == None
    ensures Truthy(p) && AnyTruthy(SdpAliases(p)) ==>
      r == Some(Offer(FromText(p), FirstTruthy(TypeAliases(p)), FirstTruthy(SdpAliases(p))))
    ensures Truthy(p) && !AnyTruthy(SdpAliases(p)) ==>
      r == if p.Str? && Contains(p.s, "v=0") then Some(Offer(FromText(p), FirstTruthy(TypeAliases(p)), p)) else None
    ensures r.Some? ==> Truthy(r.value.sdp)
  {
    if !Truthy(p) then None
    else
      var o := Field(p, "offer");
      var from := Or(Or(Or(Or(Field(p, "from"), Field(p, "fromId")), Field(p, "caller")), Field(p, "from_user")), AndField(o, "from"));
      var sdp0 := Or(Or(Field(p, "sdp"), if Truthy(o) then Or(Field(o, "sdp"), Field(o, "sdpDescription")) else o),
                     AndField(Field(p, "payload"), "sdp"));
      var sdpType := Or(Or(Field(p, "type"), AndField(o, "type")), Str("offer"));
      var sdp := if !Truthy(sdp0) && p.Str? && Contains(p.s, "v=0") then p else sdp0;
      Or5(Field(p, "from"), Field(p, "fromId"), Field(p, "caller"), Field(p, "from_user"), AndField(o, "from"));
      Or4(Field(p, "sdp"), AndField(o, "sdp"), AndField(o, "sdpDescription"), AndField(Field(p, "payload"), "sdp"));
      Or3(Field(p, "type"), AndField(o, "type"), Str("offer"));
      if !Truthy(sdp) then None
      else Some(Offer(ToStr(Or(from, Str(""))), sdpType, sdp))
  }

  /** A bare SDP string containing `v=0` becomes an offer from nobody. */
  lemma BareSdpOffer(s: string)
    requires Contains(s, "v=0")
    ensures NormalizeOffer(Str(s)) == Some(Offer("", Str("offer"), Str(s)))
  {
    var p := Str(s);
    assert s != "" by {
      var i :| 0 <= i <= |s| - 3 && OccursAt(s, "v=0", i);
    }
    assert !AnyTruthy(SdpAliases(p));
    assert !AnyTruthy(FromAliases(p));
    Or3(Undefined, Undefined, Str("offer"));
  }

  /** The payload the widget itself sends: `{ from, type, sdp }`. */
  function OfferJson(o: Offer): Json {
    Obj(map["from" := Str(o.from), "type" := o.sdpType, "sdp" := o.sdp])
  }

  /** Normalising an already normalised offer gives it back. */
  lemma NormalizeOfferIdempotent(o: Offer)
    requires Truthy(o.sdp) && Truthy(o.sdpType)
    ensures NormalizeOffer(OfferJson(o)) == Some(o)
  {
    var p := OfferJson(o);
    assert Field(p, "offer") == Undefined && Field(p, "payload") == Undefined;
    assert Field(p, "fromId") == Undefined && Field(p, "caller") == Undefined && Field(p, "from_user") == Undefined;
    assert Field(p, "sdp") == o.sdp && Field(p, "type") == o.sdpType && Field(p, "from") == Str(o.from);
    assert FirstTruthyAt(SdpAliases(p), 0);
    FirstTruthyIs(SdpAliases(p), 0);
    assert FirstTruthyAt(TypeAliases(p), 0);
    FirstTruthyIs(TypeAliases(p), 0);
    if o.from != "" {
      assert FirstTruthyAt(FromAliases(p), 0);
      FirstTruthyIs(FromAliases(p), 0);
    } else {
      forall i | 0 <= i < 5 ensures !Truthy(FromAliases(p)[i]) {}
    }
  }

  // ----- emitWithAckFallback -----

  /** What became of one emit: acknowledged by the server before the
      timeout, timed out, or thrown synchronously by the socket. */
  datatype EmitOutcome = Acked(ack: Json) | NoAck | Threw

  /** The resolved value `{ event, ack }`. */
  datatype AckResult = AckResult(event: string, ack: Json)

  /** `emitWithAckFallback(events, payload)`: emit each event name in list
      order, moving on when one times out or throws, until one is
      acknowledged. `outcome(i)` is what happens to the emit of `events[i]`.
      Returns the resolved value and the event names emitted, in order. */
  method EmitWithAckFallback(hasSocket: bool, events: seq<string>, outcome: nat -> EmitOutcome)
    returns (res: Option<AckResult>, tried: seq<string>)
    ensures !hasSocket ==> res == None && tried == []
    ensures |tried| <= |events| && tried == events[..|tried|]
    ensures res.Some? <==> hasSocket && exists i :: 0 <= i < |events| && outcome(i).Acked?
    ensures res.Some? ==>
      && tried != []
      && outcome(|tried| - 1).Acked?
      && res.value == AckResult(tried[|tried| - 1], outcome(|tried| - 1).ack)
      && forall j :: 0 <= j < |tried| - 1 ==> !outcome(j).Acked?
    ensures res.None? && hasSocket ==> tried == events
  {
    res, tried := None, [];
    if !hasSocket {
      return;
    }
    var idx := 0;
    while idx < |events| && res.None?
      invariant 0 <= idx <= |events|
      invariant tried == events[..idx]
      invariant res.None? ==> forall j :: 0 <= j < idx ==> !outcome(j).Acked?
      invariant res.Some? ==>
        && idx > 0 && outcome(idx - 1).Acked?
        && res.value == AckResult(events[idx - 1], outcome(idx - 1).ack)
        && forall j :: 0 <= j < idx - 1 ==> !outcome(j).Acked?
    {
      var ev := events[idx];
      var o := outcome(idx);
      idx := idx + 1;
      tried := tried + [ev];
      assert tried == events[..idx];
      match o {
        case Acked(ack) => res := Some(AckResult(ev, ack));
        case NoAck =>
        case Threw =>
      }
    }
    assert res.None? ==> idx == |events| && tried == events;
  }

  /** The event names an offer is sent under, in the order tried. */
  const OfferEvents: seq<string> := ["webrtc-offer", "call:offer", "call-offer", "offer", "incoming-call"]

  /** The alert shown when no audio input is available. */
  const NoMicrophoneAlert: string := "No microphone found or access denied. Connect and allow microphone."

  // ----- The call controller -----

  datatype CallStatus = Idle | Calling | Incoming | InCall

  /** Where `startCall` may throw after the microphone check: `getUserMedia`,
      or the peer-connection setup (create, add tracks, create and set the
      local offer). */
  datatype StartStep = StartSucceeds | MediaFails | PeerSetupFails

  /** Where `acceptCall` may throw: creating the peer connection or setting
      the remote offer, `getUserMedia`, or building and sending the answer. */
  datatype AcceptStep = AcceptSucceeds | RemoteFails | AcceptMediaFails | AnswerFails

  class CallController {
    var status: CallStatus
    var peer: bool              // `pcRef.current` holds a peer connection
    var stream: bool            // `localStreamRef.current` holds a local stream
    var offer: Option<Offer>    // `incomingOfferRef.current`
    var micAlert: string

    /** An outgoing call has its connection and stream, an established call
        its connection, an incoming call its stored offer, and a stored
        offer its SDP. */
    ghost predicate Valid()
      reads this
    {
      && (status == Calling ==> peer && stream)
      && (status == InCall ==> peer)
      && (status == Incoming ==> offer.Some?)
      && (offer.Some? ==> Truthy(offer.value.sdp))
    }

    constructor ()
      ensures Valid()
      ensures status == Idle && !peer && !stream && offer == None && micAlert == ""
    {
      status, peer, stream, offer, micAlert := Idle, false, false, None, "";
    }

    /** `onOffer`: store a normalisable offer and ring, from any state. */
    method OnOffer(raw: Json)
      requires Valid()
      modifies this`offer, this`status
      ensures Valid()
      ensures NormalizeOffer(raw).Some? ==> offer == NormalizeOffer(raw) && status == Incoming
      ensures NormalizeOffer(raw).None? ==> offer == old(offer) && status == old(status)
    {
      var payload := NormalizeOffer(raw);
      if payload.None? {
        return;
      }
      offer := payload;
      status := Incoming;
    }

    /** `onAnswer`: with a peer connection, an answer the connection accepts
        establishes the call; otherwise nothing changes. */
    method OnAnswer(remoteAccepted: bool)
      requires Valid()
      modifies this`status
      ensures Valid()
      ensures status == if peer && remoteAccepted then InCall else old(status)
    {
      if !peer {
        return;
      }
      if remoteAccepted {
        status := InCall;
      }
    }

    /** `startCall`. Returns the resolved value of the offer emit, when the
        offer was sent. */
    method StartCall(friendSelected: bool, socketConnected: bool, micFound: bool, step: StartStep,
                     outcome: nat -> EmitOutcome)
      returns (res: Option<AckResult>)
      requires Valid()
      modifies this`status, this`peer, this`stream, this`micAlert
      ensures Valid()
      ensures !(friendSelected && socketConnected) ==>
        status == old(status) && peer == old(peer) && stream == old(stream) && micAlert == old(micAlert) && res == None
      ensures friendSelected && socketConnected && !micFound ==>
        status == Idle && micAlert == NoMicrophoneAlert && peer == old(peer) && stream == old(stream) && res == None
      ensures friendSelected && socketConnected && micFound && step != StartSucceeds ==>
        status == Idle && !peer && !stream && res == None
        && micAlert == (if step == MediaFails then old(micAlert) else "")
      ensures friendSelected && socketConnected && micFound && step == StartSucceeds ==>
        status == Calling && peer && stream && micAlert == ""
        && (res.Some? <==> exists i :: 0 <= i < |OfferEvents| && outcome(i).Acked?)
    {
      res := None;
      if !friendSelected || !socketConnected {
        return;
      }
      status := Calling;
      if !micFound {
        micAlert := NoMicrophoneAlert;
        status := Idle;
        return;
      }
      if step == MediaFails {
        peer, stream := false, false;
        status := Idle;
        return;
      }
      micAlert := "";
      stream := true;
      peer := true;
      if step == PeerSetupFails {
        peer, stream := false, false;
        status := Idle;
        return;
      }
      var tried;
      res, tried := EmitWithAckFallback(true, OfferEvents, outcome);
      // with no acknowledgement the offer is re-sent fire-and-forget and the
      // status stays `calling`
    }

    /** `acceptCall`. Returns the caller the answer was sent to. */
    method AcceptCall(micFound: bool, step: AcceptStep) returns (answeredTo: Option<string>)
      requires Valid()
      modifies this`status, this`peer, this`stream, this`offer, this`micAlert
      ensures Valid()
      ensures old(offer).None? ==>
        status == old(status) && peer == old(peer) && stream == old(stream) && offer == None
        && micAlert == old(micAlert) && answeredTo == None
      ensures old(offer).Some? && step == RemoteFails ==>
        status == Idle && !peer && !stream && offer == old(offer) && micAlert == old(micAlert) && answeredTo == None
      ensures old(offer).Some? && step != RemoteFails && !micFound ==>
        status == Idle && peer && stream == old(stream) && offer == old(offer)
        && micAlert == NoMicrophoneAlert && answeredTo == None
      ensures old(offer).Some? && step == AcceptMediaFails && micFound ==>
        status == Idle && !peer && !stream && offer == old(offer) && micAlert == old(micAlert) && answeredTo == None
      ensures old(offer).Some? && step == AnswerFails && micFound ==>
        status == Idle && !peer && !stream && offer == old(offer) && micAlert == "" && answeredTo == None
      ensures old(offer).Some? && step == AcceptSucceeds && micFound ==>
        status == InCall && peer && stream && offer == None && micAlert == ""
        && answeredTo == Some(old(offer).value.from)
    {
      answeredTo := None;
      var payload := offer;
      if payload.None? {
        return;
      }
      peer := true;
      if step == RemoteFails {
        peer, stream := false, false;
        status := Idle;
        return;
      }
      if !micFound {
        micAlert := NoMicrophoneAlert;
        status := Idle;
        return;
      }
      if step == AcceptMediaFails {
        peer, stream := false, false;
        status := Idle;
        return;
      }
      micAlert := "";
      stream := true;
      if step == AnswerFails {
        peer, stream := false, false;
        status := Idle;
        return;
      }
      answeredTo := Some(payload.value.from);
      status := InCall;
      offer := None;
    }

    /** `rejectCall`: drop the stored offer and go idle. */
    method RejectCall()
      requires Valid()
      modifies this`offer, this`status
      ensures Valid()
      ensures offer == None && status == Idle
    {
      offer := None;
      status := Idle;
    }

    /** `hangup`: release the connection and the stream and go idle. Returns
        whether the peer is notified with `call-hangup`. */
    method Hangup(socketConnected: bool, friendSelected: bool) returns (notified: bool)
      requires Valid()
      modifies this`peer, this`stream, this`status
      ensures Valid()
      ensures !peer && !stream && status == Idle
      ensures notified == (socketConnected && friendSelected)
    {
      peer, stream := false, false;
      status := Idle;
      notified := socketConnected && friendSelected;
    }
  }
}
