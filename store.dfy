/** The session state main.py keeps in `st.session_state` (main.py:12-28, 50, 59, 71,
    77-113): the insertion-ordered dictionary of sessions and the current id, updated
    in place. */
module Store {
  import opened Types
  import opened Clock
  import opened Gateway
  import opened Sidebar
  import opened Turn

  /** The records of `ids`, in that order. */
  function Lookup(ids: seq<SessionId>, m: map<SessionId, Session>): (r: seq<Session>)
    requires forall i :: 0 <= i < |ids| ==> ids[i] in m
    ensures |r| == |ids| && forall i :: 0 <= i < |ids| ==> r[i] == m[ids[i]]
  {
    if ids == [] then [] else [m[ids[0]]] + Lookup(ids[1..], m)
  }

  class SessionStore {
    /** `st.session_state.sessions`: id to record ... */
    var sessions: map<SessionId, Session>
    /** ... and its keys in insertion order, which a Python dict keeps. */
    var order: seq<SessionId>
    /** `st.session_state.current_session_id`, absent until initialisation. */
    var current: Option<SessionId>

    ghost predicate Valid()
      reads this
    {
      (forall id :: id in sessions <==> id in order)
      && (forall i, j :: 0 <= i < j < |order| ==> order[i] != order[j])
      && (forall id :: id in sessions ==> sessions[id].id == id)
      && (forall id :: id in sessions && sessions[id].messages == [] ==> sessions[id].stressLevel.None?)
      && (current.Some? ==> current.value in sessions)
    }

    /** `sessions.items()`, the records in insertion order. */
    function Items(): (r: seq<Session>)
      reads this
      requires Valid()
      ensures |r| == |order| && forall i :: 0 <= i < |r| ==> r[i] == sessions[order[i]]
    {
      Lookup(order, sessions)
    }

    /** Process start: `st.session_state.sessions = {}`, no current id (main.py:24-25). */
    constructor ()
      ensures Valid()
      ensures sessions == map[] && order == [] && current == None
    {
      sessions := map[];
      order := [];
      current := None;
    }

    /** `create_new_session` (main.py:12-21): one new empty record under the fresh id, made
        current; every other record is untouched. */
    method CreateNewSession(id: SessionId, clock: DateTime)
      requires Valid() && ValidDateTime(clock)
      requires id !in sessions
      modifies this
      ensures Valid()
      ensures sessions == old(sessions)[id := Session(id, FormatDate(clock), [], None)]
      ensures order == old(order) + [id]
      ensures current == Some(id)
    {
      sessions := sessions[id := Session(id, FormatDate(clock), [], None)];
      order := order + [id];
      current := Some(id);
    }

    /** main.py:27-28: create a session only when there is no current id. Afterwards the
        lookup of main.py:59 cannot fail. */
    method Initialise(id: SessionId, clock: DateTime)
      requires Valid() && ValidDateTime(clock)
      requires current == None ==> id !in sessions
      modifies this
      ensures Valid()
      ensures current.Some? && current.value in sessions
      ensures old(current).Some? ==> sessions == old(sessions) && order == old(order) && current == old(current)
      ensures old(current).None? ==>
        sessions == old(sessions)[id := Session(id, FormatDate(clock), [], None)]
        && order == old(order) + [id] && current == Some(id)
    {
      if current.None? {
        CreateNewSession(id, clock);
      }
    }

    /** A sidebar button (main.py:50): moves the current pointer and nothing else. */
    method Select(sid: SessionId)
      requires Valid() && sid in sessions
      modifies this`current
      ensures Valid() && current == Some(sid)
    {
      current := Some(sid);
    }

    /** `st.session_state.sessions[st.session_state.current_session_id]` (main.py:59). */
    function Current(): (s: Session)
      reads this
      requires Valid() && current.Some?
      ensures s in Items() && s.id == current.value
    {
      var s := sessions[current.value];
      assert current.value in order;
      s
    }

    /** The sidebar's list (main.py:35-41): exactly the stored records, newest date first,
        records of equal date in insertion order. */
    function SidebarOrder(): (r: seq<Session>)
      reads this
      requires Valid()
      ensures multiset(r) == multiset(Items())
      ensures forall e :: e in r <==> e.id in sessions && sessions[e.id] == e
      ensures NonIncreasing(r)
      ensures forall d {:trigger WithDate(r, d)} :: WithDate(r, d) == WithDate(Items(), d)
    {
      var items := Items();
      var r := SortByDateDesc(items);
      assert forall e :: e in r <==> e in items by {
        forall e ensures e in r <==> e in items {
          assert e in r <==> e in multiset(r);
          assert e in items <==> e in multiset(items);
        }
      }
      assert forall e :: e in items <==> e.id in sessions && sessions[e.id] == e by {
        forall e ensures e in items <==> e.id in sessions && sessions[e.id] == e {
          if e.id in sessions && sessions[e.id] == e {
            var i :| 0 <= i < |order| && order[i] == e.id;
            assert items[i] == e;
          }
        }
      }
      r
    }

    /** The chat input (main.py:69-71): a non-empty prompt is appended to the current
        session as a user message stamped `now()`. */
    method Submit(prompt: string, clock: DateTime)
      requires Valid() && current.Some? && ValidDateTime(clock)
      modifies this`sessions
      ensures Valid()
      ensures sessions == old(sessions)[current.value := SubmitStep(old(sessions[current.value]), prompt, Now(clock))]
    {
      var cid := current.value;
      if prompt != "" {
        var s := sessions[cid];
        sessions := sessions[cid := s.(messages := s.messages + [Message(User, prompt, Now(clock))])];
      }
    }

    /** The reply cycle (main.py:77-113). When the current log ends on a user message it
        sends that message (returned here as the payload), appends one assistant message
        for the outcome and, on the success branch only, overwrites the stress label.
        Otherwise it sends nothing and changes nothing. */
    method ReplyCycle(o: Outcome, clock: DateTime) returns (sent: Option<Payload>)
      requires Valid() && current.Some? && ValidDateTime(clock)
      modifies this`sessions
      ensures Valid()
      ensures sessions == old(sessions)[current.value := ReplyStep(old(sessions[current.value]), o, Now(clock))]
      ensures sent == if AwaitingReply(old(sessions[current.value])) then Some(BuildPayload(current.value, old(sessions[current.value]).messages)) else None
    {
      var cid := current.value;
      var s := sessions[cid];
      ghost var before := s;
      sent := None;
      if s.messages != [] && s.messages[|s.messages| - 1].sender == User {
        sent := Some(BuildPayload(cid, s.messages));
        var v := Classify(o);
        if v.newStress.Some? {
          s := s.(stressLevel := v.newStress);
        }
        s := s.(messages := s.messages + [Message(Assistant, v.text, Now(clock))]);
        assert s == ReplyStep(before, o, Now(clock));
        sessions := sessions[cid := s];
      }
    }
  }

  /** Scenarios of a first check-in, run against the contracts above alone. */
  method FirstCheckIn(id: SessionId, clock: DateTime)
    requires ValidDateTime(clock)
  {
    var store := new SessionStore();
    store.Initialise(id, clock);
    var before := store.Current();
    assert before.messages == [] && before.stressLevel == None;

    store.Submit("I feel overwhelmed today", clock);
    var reply := Http(200, Json(Some("That sounds hard, want to talk about it?"), Some("High")));
    var sent := store.ReplyCycle(reply, clock);
    var s := store.Current();
    assert sent == Some(Payload(id, PayloadBody([PayloadMessage("I feel overwhelmed today")])));
    assert |s.messages| == 2 && s.messages[1].sender == Assistant;
    assert s.messages[1].text == "That sounds hard, want to talk about it?";
    assert s.stressLevel == Some("High");

    store.Submit("Still here", clock);
    var failure := Http(500, Json(None, Some("Low")));
    sent := store.ReplyCycle(failure, clock);
    s := store.Current();
    assert |s.messages| == 4 && s.stressLevel == Some("High");
    RemoteErrorNamesStatus(failure);
    assert Strings.DecimalValue(s.messages[3].text[|ConnectionErrorPrefix|..]) == 500;

    sent := store.ReplyCycle(Transport("timed out"), clock);
    assert sent == None && store.Current() == s;
  }

  /** Starting a second check-in and going back to the first moves only the pointer. */
  method SwitchCheckIns(first: SessionId, second: SessionId, clock: DateTime)
    requires ValidDateTime(clock) && first != second
  {
    var store := new SessionStore();
    store.Initialise(first, clock);
    store.Submit("hello", clock);
    var one := store.Current();
    store.CreateNewSession(second, clock);
    assert store.Current().messages == [];
    store.Select(first);
    assert store.Current() == one;
    assert one.stressLevel == None;
  }
}
