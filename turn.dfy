/** The two phases of a turn (main.py:69-74 and 77-113) as steps on one session record.
    The store applies them to the current session. */
module Turn {
  import opened Types
  import opened Gateway

  /** The structural test of main.py:77: the log is non-empty and ends on a user message. */
  predicate AwaitingReply(s: Session) {
    s.messages != [] && s.messages[|s.messages| - 1].sender == User
  }

  /** Only the log grows, and what was there stays as it was. */
  predicate Extends(s: Session, r: Session) {
    r.id == s.id && r.date == s.date
    && |s.messages| <= |r.messages| && r.messages[..|s.messages|] == s.messages
  }

  /** `if prompt:` append a user message; an empty prompt does nothing. */
  function SubmitStep(s: Session, prompt: string, timestamp: string): (r: Session)
    ensures Extends(s, r) && r.stressLevel == s.stressLevel
    ensures prompt == "" ==> r == s
    ensures prompt != "" ==>
      |r.messages| == |s.messages| + 1 && r.messages[|s.messages|] == Message(User, prompt, timestamp)
    ensures prompt != "" ==> AwaitingReply(r)
  {
    if prompt == "" then s
    else s.(messages := s.messages + [Message(User, prompt, timestamp)])
  }

  /** One reply cycle on a session, given the outcome of the call it makes. */
  function ReplyStep(s: Session, o: Outcome, timestamp: string): (r: Session)
    ensures Extends(s, r)
    ensures !AwaitingReply(s) ==> r == s
    ensures AwaitingReply(s) ==>
      |r.messages| == |s.messages| + 1
      && r.messages[|s.messages|] == Message(Assistant, Classify(o).text, timestamp)
      && !AwaitingReply(r)
    ensures r.stressLevel != s.stressLevel ==> AwaitingReply(s) && KindOf(o) == Success
    ensures AwaitingReply(s) && KindOf(o) == Success ==> r.stressLevel == Classify(o).newStress
  {
    if !AwaitingReply(s) then s
    else
      var v := Classify(o);
      var stress := if v.newStress.Some? then v.newStress else s.stressLevel;
      s.(messages := s.messages + [Message(Assistant, v.text, timestamp)], stressLevel := stress)
  }

  /** A whole turn: a non-empty prompt and the reply cycle it triggers add exactly two
      messages, the prompt then the assistant's answer, and leave the session idle. */
  lemma TurnAddsTwo(s: Session, prompt: string, o: Outcome, t1: string, t2: string)
    requires prompt != ""
    ensures var r := ReplyStep(SubmitStep(s, prompt, t1), o, t2);
      Extends(s, r)
      && |r.messages| == |s.messages| + 2
      && r.messages[|s.messages|] == Message(User, prompt, t1)
      && r.messages[|s.messages| + 1] == Message(Assistant, Classify(o).text, t2)
      && !AwaitingReply(r)
  {
  }

  /** The stress label moves on a turn exactly when the agent answered 200 with JSON. */
  lemma TurnStressOnlyOnSuccess(s: Session, prompt: string, o: Outcome, t1: string, t2: string)
    requires prompt != ""
    ensures var r := ReplyStep(SubmitStep(s, prompt, t1), o, t2);
      (KindOf(o) == Success ==> r.stressLevel == Some(o.body.stressLevel.GetOr(NotAssessed)))
      && (KindOf(o) != Success ==> r.stressLevel == s.stressLevel)
  {
  }

  /** A second reply cycle with no new prompt in between changes nothing. */
  lemma ReplyIdempotent(s: Session, o1: Outcome, o2: Outcome, t1: string, t2: string)
    ensures var r := ReplyStep(s, o1, t1); ReplyStep(r, o2, t2) == r
  {
  }
}
