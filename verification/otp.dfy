/** The OTP helper: the process-local map from the provider's request id
    to the phone it was sent to, and the three provider round trips that
    read and write it.  Each provider answer is a parameter; each
    operation reports the request it put to the provider, if any. */
module OtpSessions {
  import opened Store

  type RequestId = string

  /** What a successful send remembers under its request id. */
  datatype Session = Session(phone: string, prefix: string)

  /** The request map's own entries.  The map itself is a plain object, so
      a lookup also finds the names it inherits; see `Known`. */
  type Sessions = map<RequestId, Session>

  const ProtoName := "__proto__"

  /** The property names every plain object inherits from
      `Object.prototype`: those of section 20.1.3 of ECMAScript and the
      legacy accessors of its Annex B.2.2.  Each holds a function or an
      object, so looking one of them up in the request map finds a truthy
      value. */
  const InheritedNames: set<string> := {
    "constructor", "hasOwnProperty", "isPrototypeOf", "propertyIsEnumerable",
    "toLocaleString", "toString", "valueOf",
    ProtoName, "__defineGetter__", "__defineSetter__", "__lookupGetter__", "__lookupSetter__"
  }

  /** A lookup of the request id in the map finds something: an own entry
      or an inherited property. */
  predicate Known(sessions: Sessions, requestId: RequestId)
  {
    requestId in sessions || requestId in InheritedNames
  }

  /** The provider's answer to a send: a request id and prefix, or any
      failure (a non-OK status or an unreadable body). */
  datatype SendOutcome =
    | Issued(requestId: RequestId, prefix: string)
    | SendFailed

  /** The provider's answer to a verification: an OK status with a body
      that can be read, a non-OK status with its text, or anything that
      ends in the helper's outer error handler.  The last covers no answer
      at all and an OK answer whose body cannot be parsed: the handler for
      the parse error reads the already consumed body again, which fails
      as well. */
  datatype VerifyOutcome =
    | Confirmed
    | Refused(text: string)
    | Unreachable

  /** The provider's answer to a resend, in the same four shapes. */
  datatype ResendOutcome =
    | Resent
    | ResentUnreadable
    | ResendRefused(text: string)
    | ResendUnreachable

  /** A request put to the provider.  A verification carries the prefix
      and code its caller passed; a code the caller left out is None. */
  datatype ProviderCall =
    | SendCall(phone: string)
    | VerifyCall(requestId: RequestId, prefix: string, code: Option<string>)
    | ResendCall(requestId: RequestId)

  /** What a send returns: the provider's data, or a message. */
  datatype SendReply =
    | OtpData(requestId: RequestId, prefix: string)
    | SendMessage(text: string)

  datatype OtpStep<+R> = OtpStep(reply: R, sessions: Sessions, call: Option<ProviderCall>)

  const OtpIsValid := "OTP is valid"
  const InvalidRequestId := "Invalid requestId"
  const ResentSuccessfully := "OTP resent successfully"

  /** A send stores the session only when the provider issued a request
      id, overwriting whatever was stored under that id.  Assigning to
      `__proto__` replaces the map's prototype instead of adding an entry;
      that id stays known through inheritance. */
  function SendOTP(sessions: Sessions, phone: string, outcome: SendOutcome): (r: OtpStep<SendReply>)
    ensures phone == "" ==> r == OtpStep(SendMessage("Phone number is required"), sessions, None)
    ensures phone != "" ==> r.call == Some(SendCall(phone))
    ensures r.reply.OtpData? <==> phone != "" && outcome.Issued?
    ensures r.reply.OtpData? ==>
              && r.reply == OtpData(outcome.requestId, outcome.prefix)
              && Known(r.sessions, outcome.requestId)
              && (outcome.requestId != ProtoName ==>
                    r.sessions == sessions[outcome.requestId := Session(phone, outcome.prefix)])
    ensures phone != "" && outcome.SendFailed? ==> r.reply == SendMessage("Internal Server Error")
    ensures !r.reply.OtpData? || outcome.requestId == ProtoName ==> r.sessions == sessions
  {
    if phone == "" then OtpStep(SendMessage("Phone number is required"), sessions, None)
    else match outcome
      case SendFailed => OtpStep(SendMessage("Internal Server Error"), sessions, Some(SendCall(phone)))
      case Issued(requestId, prefix) =>
        var stored := if requestId == ProtoName then sessions else sessions[requestId := Session(phone, prefix)];
        OtpStep(OtpData(requestId, prefix), stored, Some(SendCall(phone)))
  }

  /** A verification looks the request id up and, when it finds something,
      sends the provider the request id with the prefix and code it was
      given; the stored prefix and phone are not used.  Only a readable OK
      answer deletes the own entry; an inherited name cannot be deleted. */
  function VerifyOTP(sessions: Sessions, requestId: RequestId, prefix: string, code: Option<string>,
                     outcome: VerifyOutcome): (r: OtpStep<string>)
    ensures !Known(sessions, requestId) ==> r == OtpStep(InvalidRequestId, sessions, None)
    ensures Known(sessions, requestId) ==> r.call == Some(VerifyCall(requestId, prefix, code))
    ensures r.reply == OtpIsValid <==> Known(sessions, requestId) && outcome.Confirmed?
    ensures r.reply == OtpIsValid ==> r.sessions == sessions - {requestId}
    ensures r.reply != OtpIsValid ==> r.sessions == sessions
    ensures Known(sessions, requestId) && outcome.Refused? ==> r.reply == "Failed to verify OTP: " + outcome.text
    ensures Known(sessions, requestId) && outcome.Unreachable? ==> r.reply == "Invalid OTP"
  {
    if !Known(sessions, requestId) then OtpStep(InvalidRequestId, sessions, None)
    else
      var call := Some(VerifyCall(requestId, prefix, code));
      match outcome
      case Refused(text) =>
        var message := "Failed to verify OTP: " + text;
        assert message[0] == 'F';
        OtpStep(message, sessions, call)
      case Unreachable => OtpStep("Invalid OTP", sessions, call)
      case Confirmed => OtpStep(OtpIsValid, sessions - {requestId}, call)
  }

  /** A resend asks the provider again for a request id the lookup finds;
      it never touches the map. */
  function ResendOTP(sessions: Sessions, requestId: RequestId, outcome: ResendOutcome): (r: OtpStep<string>)
    ensures r.sessions == sessions
    ensures r.reply == InvalidRequestId <==> !Known(sessions, requestId)
    ensures !Known(sessions, requestId) ==> r.call == None
    ensures Known(sessions, requestId) ==> r.call == Some(ResendCall(requestId))
    ensures r.reply == ResentSuccessfully <==> Known(sessions, requestId) && outcome.Resent?
    ensures Known(sessions, requestId) && outcome.ResendRefused? ==> r.reply == "Failed to resend OTP: " + outcome.text
    ensures Known(sessions, requestId) && (outcome.ResentUnreadable? || outcome.ResendUnreachable?) ==>
              r.reply == "Failed to resend OTP"
  {
    if !Known(sessions, requestId) then OtpStep(InvalidRequestId, sessions, None)
    else
      var call := Some(ResendCall(requestId));
      match outcome
      case Resent => OtpStep(ResentSuccessfully, sessions, call)
      case ResendRefused(text) =>
        var message := "Failed to resend OTP: " + text;
        assert message[0] == 'F';
        OtpStep(message, sessions, call)
      case ResentUnreadable => OtpStep("Failed to resend OTP", sessions, call)
      case ResendUnreachable => OtpStep("Failed to resend OTP", sessions, call)
  }

  /** Once a request id that is not an inherited name has been verified,
      any further verification of it is answered "Invalid requestId"
      without reaching the provider. */
  lemma VerifyConsumesSession(sessions: Sessions, requestId: RequestId, prefix: string, code: Option<string>,
                              outcome: VerifyOutcome, prefix2: string, code2: Option<string>, outcome2: VerifyOutcome)
    requires requestId !in InheritedNames
    requires VerifyOTP(sessions, requestId, prefix, code, outcome).reply == OtpIsValid
    ensures
      var after := VerifyOTP(sessions, requestId, prefix, code, outcome).sessions;
      VerifyOTP(after, requestId, prefix2, code2, outcome2) == OtpStep(InvalidRequestId, after, None)
  {
  }

  /** A rejected code leaves the session in place, so the same request id
      can still be verified. */
  lemma RejectionAllowsRetry(sessions: Sessions, requestId: RequestId, prefix: string, code: Option<string>,
                             text: string, prefix2: string, code2: Option<string>)
    requires Known(sessions, requestId)
    ensures
      var after := VerifyOTP(sessions, requestId, prefix, code, Refused(text)).sessions;
      VerifyOTP(after, requestId, prefix2, code2, Confirmed).reply == OtpIsValid
  {
  }

  // ---------------------------------------------------------------------
  // Runs of helper calls

  /** One helper call together with the provider's answer to it. */
  datatype OtpEvent =
    | SendEvent(phone: string, sendOutcome: SendOutcome)
    | VerifyEvent(requestId: RequestId, prefix: string, code: Option<string>, verifyOutcome: VerifyOutcome)
    | ResendEvent(requestId: RequestId, resendOutcome: ResendOutcome)

  /** The map after one event. */
  function Apply(sessions: Sessions, e: OtpEvent): Sessions
  {
    match e
    case SendEvent(phone, o) => SendOTP(sessions, phone, o).sessions
    case VerifyEvent(requestId, prefix, code, o) => VerifyOTP(sessions, requestId, prefix, code, o).sessions
    case ResendEvent(requestId, o) => ResendOTP(sessions, requestId, o).sessions
  }

  /** The event is a verification of `requestId` answered "OTP is valid". */
  predicate Consumes(sessions: Sessions, e: OtpEvent, requestId: RequestId)
  {
    && e.VerifyEvent?
    && e.requestId == requestId
    && VerifyOTP(sessions, e.requestId, e.prefix, e.code, e.verifyOutcome).reply == OtpIsValid
  }

  /** The event is a send that stored a session under `requestId`. */
  predicate Issues(e: OtpEvent, requestId: RequestId)
  {
    e.SendEvent? && e.phone != "" && e.sendOutcome.Issued? && e.sendOutcome.requestId == requestId
  }

  function Replay(sessions: Sessions, events: seq<OtpEvent>): Sessions
    decreases |events|
  {
    if |events| == 0 then sessions else Replay(Apply(sessions, events[0]), events[1..])
  }

  /** How many events of the run verify `requestId` successfully. */
  function Successes(sessions: Sessions, events: seq<OtpEvent>, requestId: RequestId): nat
    decreases |events|
  {
    if |events| == 0 then 0
    else (if Consumes(sessions, events[0], requestId) then 1 else 0)
         + Successes(Apply(sessions, events[0]), events[1..], requestId)
  }

  /** How many events of the run issue `requestId`. */
  function IssueCount(events: seq<OtpEvent>, requestId: RequestId): nat
  {
    if |events| == 0 then 0
    else (if Issues(events[0], requestId) then 1 else 0) + IssueCount(events[1..], requestId)
  }

  /** Over any run, the successful verifications of a request id that is
      not an inherited name, plus one if its session is still stored at the
      end, never exceed the sends that issued it, plus one if it was stored
      at the start. */
  lemma {:induction false} SuccessesBoundedByIssues(sessions: Sessions, events: seq<OtpEvent>, requestId: RequestId)
    requires requestId !in InheritedNames
    ensures Successes(sessions, events, requestId) + (if requestId in Replay(sessions, events) then 1 else 0)
              <= IssueCount(events, requestId) + (if requestId in sessions then 1 else 0)
    decreases |events|
  {
    if |events| > 0 {
      var e := events[0];
      var next := Apply(sessions, e);
      SuccessesBoundedByIssues(next, events[1..], requestId);
      assert (if Consumes(sessions, e, requestId) then 1 else 0) + (if requestId in next then 1 else 0)
               <= (if Issues(e, requestId) then 1 else 0) + (if requestId in sessions then 1 else 0);
    }
  }

  /** Starting from an empty map, a request id that is not an inherited
      name is verified successfully at most as often as it was issued: once
      per issuing send. */
  lemma VerifiedAtMostOncePerIssue(events: seq<OtpEvent>, requestId: RequestId)
    requires requestId !in InheritedNames
    ensures Successes(map[], events, requestId) <= IssueCount(events, requestId)
  {
    SuccessesBoundedByIssues(map[], events, requestId);
  }

  /** `n` verifications of the same request id, each confirmed by the
      provider. */
  function Confirmations(requestId: RequestId, prefix: string, code: Option<string>, n: nat): (r: seq<OtpEvent>)
    ensures |r| == n
  {
    if n == 0 then [] else [VerifyEvent(requestId, prefix, code, Confirmed)] + Confirmations(requestId, prefix, code, n - 1)
  }

  /** An inherited name is never issued and never deleted, yet every
      confirmed verification of it succeeds: the bound above does not hold
      for these names. */
  lemma {:induction false} InheritedNameVerifiedWithoutIssue(sessions: Sessions, requestId: RequestId,
                                                             prefix: string, code: Option<string>, n: nat)
    requires requestId in InheritedNames
    ensures Successes(sessions, Confirmations(requestId, prefix, code, n), requestId) == n
    ensures IssueCount(Confirmations(requestId, prefix, code, n), requestId) == 0
  {
    if n > 0 {
      var events := Confirmations(requestId, prefix, code, n);
      assert events[1..] == Confirmations(requestId, prefix, code, n - 1);
      InheritedNameVerifiedWithoutIssue(sessions - {requestId}, requestId, prefix, code, n - 1);
    }
  }
}
