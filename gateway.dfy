/** The call to the assessment agent (main.py:79-106): the request payload and the
    classification of what came back. The HTTP exchange itself is an input. */
module Gateway {
  import opened Types
  import opened Strings

  /** The body of a 200 response as `response.json()` saw it: not JSON at all, or a JSON
      object with or without the two keys the client reads. */
  datatype Body = Unparseable | Json(message: Option<string>, stressLevel: Option<string>)

  /** What `requests.post` produced: an exception (with its `str(e)`) or a response. */
  datatype Outcome = Transport(errText: string) | Http(status: nat, body: Body)

  /** `{"session_id": ..., "body": {"messages": [{"text": ...}]}}` */
  datatype PayloadMessage = PayloadMessage(text: string)
  datatype PayloadBody = PayloadBody(messages: seq<PayloadMessage>)
  datatype Payload = Payload(sessionId: SessionId, body: PayloadBody)

  /** The four ways a call can end. */
  datatype Kind = Success | MalformedResponse | RemoteError | TransportFailure

  /** The assistant text to append, and the new stress label when the call writes one. */
  datatype Verdict = Verdict(kind: Kind, text: string, newStress: Option<string>)

  // Long texts are split in two literals; it changes nothing but helps the verifier.
  const MissingMessageText := "No message found."
  const NonJsonText := "The brain " + "sent back a non-JSON response. Check n8n production settings."
  const ConnectionErrorPrefix := "Connection error: "
  const NetworkErrorPrefix := "Network error: " + "Could not reach the n8n agent. "

  /** The payload carries the current session id and only the newest message's text. */
  function BuildPayload(sid: SessionId, log: seq<Message>): (p: Payload)
    requires log != []
    ensures p.sessionId == sid
    ensures |p.body.messages| == 1 && p.body.messages[0].text == log[|log| - 1].text
  {
    Payload(sid, PayloadBody([PayloadMessage(log[|log| - 1].text)]))
  }

  /** The branch of main.py:92-106 that an outcome takes. */
  function KindOf(o: Outcome): Kind {
    match o
    case Transport(_) => TransportFailure
    case Http(status, body) =>
      if status != 200 then RemoteError
      else if body.Unparseable? then MalformedResponse
      else Success
  }

  /** What the reply cycle does with an outcome: the text of the assistant message and,
      only on the success branch, the stress label written to the session. */
  function Classify(o: Outcome): (v: Verdict)
    ensures v.kind == KindOf(o)
    ensures v.newStress.Some? <==> v.kind == Success
    ensures v.kind == Success ==>
      v.text == o.body.message.GetOr(MissingMessageText) && v.newStress == Some(o.body.stressLevel.GetOr(NotAssessed))
    ensures v.kind == MalformedResponse ==> v.text == NonJsonText
    ensures v.kind == RemoteError ==> v.text == ConnectionErrorPrefix + Decimal(o.status)
    ensures v.kind == TransportFailure ==> v.text == NetworkErrorPrefix + o.errText
  {
    match o
    case Transport(e) => Verdict(TransportFailure, NetworkErrorPrefix + e, None)
    case Http(status, body) =>
      if status == 200 then
        match body
        case Json(message, stressLevel) =>
          Verdict(Success, message.GetOr(MissingMessageText), Some(stressLevel.GetOr(NotAssessed)))
        case Unparseable => Verdict(MalformedResponse, NonJsonText, None)
      else Verdict(RemoteError, ConnectionErrorPrefix + Decimal(status), None)
  }

  /** A remote error names the status and nothing else: the status can be read back from
      the text, and the response body never reaches it. */
  lemma RemoteErrorNamesStatus(o: Outcome)
    requires KindOf(o) == RemoteError
    ensures var t := Classify(o).text;
      |t| > |ConnectionErrorPrefix| && t[..|ConnectionErrorPrefix|] == ConnectionErrorPrefix
      && (forall i :: |ConnectionErrorPrefix| <= i < |t| ==> IsDigit(t[i]))
      && DecimalValue(t[|ConnectionErrorPrefix|..]) == o.status
  {
    var t := Classify(o).text;
    assert t[|ConnectionErrorPrefix|..] == Decimal(o.status);
    DecimalRoundTrip(o.status);
  }

  /** Every failed call produces a diagnostic that none of the others produces, so the
      three failure kinds can be told apart from the appended text alone. */
  lemma DiagnosticsDistinct(o1: Outcome, o2: Outcome)
    requires KindOf(o1) != Success && KindOf(o2) != Success && KindOf(o1) != KindOf(o2)
    ensures Classify(o1).text != Classify(o2).text
  {
    DiagnosticInitial(o1);
    DiagnosticInitial(o2);
  }

  lemma DiagnosticInitial(o: Outcome)
    requires KindOf(o) != Success
    ensures Classify(o).text != []
    ensures KindOf(o) == MalformedResponse ==> Classify(o).text[0] == 'T'
    ensures KindOf(o) == RemoteError ==> Classify(o).text[0] == 'C'
    ensures KindOf(o) == TransportFailure ==> Classify(o).text[0] == 'N'
  {
  }
}
