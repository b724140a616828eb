/** The sidebar's view of the store (main.py:35-45) and the message caption (main.py:65):
    pure functions of the sessions. */
module Sidebar {
  import opened Types
  import opened Strings
  import opened Clock

  /** Newest date first: each session's date is at least every later one's. */
  predicate NonIncreasing(s: seq<Session>) {
    forall i, j :: 0 <= i < j < |s| ==> StrLe(s[j].date, s[i].date)
  }

  /** The sessions of `s` that carry date `d`, in their order in `s`. */
  function WithDate(s: seq<Session>, d: string): (r: seq<Session>)
    ensures forall e :: e in r ==> e in s && e.date == d
  {
    if s == [] then []
    else (if s[0].date == d then [s[0]] else []) + WithDate(s[1..], d)
  }

  /** Puts `x`, which came before every element of `r` in the input, ahead of every
      session of `r` with the same or an older date. */
  function InsertByDate(x: Session, r: seq<Session>): (q: seq<Session>)
    requires NonIncreasing(r)
    ensures multiset(q) == multiset(r) + multiset{x}
    ensures NonIncreasing(q)
    ensures forall d {:trigger WithDate(q, d)} ::
      WithDate(q, d) == if x.date == d then [x] + WithDate(r, d) else WithDate(r, d)
  {
    if r == [] then [x]
    else if StrLe(r[0].date, x.date) then
      InsertFirst(x, r);
      [x] + r
    else
      var t := InsertByDate(x, r[1..]);
      InsertBehind(x, r, t);
      [r[0]] + t
  }

  lemma InsertFirst(x: Session, r: seq<Session>)
    requires NonIncreasing(r) && r != [] && StrLe(r[0].date, x.date)
    ensures NonIncreasing([x] + r)
    ensures forall d {:trigger WithDate([x] + r, d)} ::
      WithDate([x] + r, d) == if x.date == d then [x] + WithDate(r, d) else WithDate(r, d)
  {
    var q := [x] + r;
    assert q[1..] == r;
    forall i, j | 0 <= i < j < |q| ensures StrLe(q[j].date, q[i].date) {
      if i == 0 {
        if j > 1 { StrLeTransitive(r[j - 1].date, r[0].date, x.date); } else { StrLeReflexive(x.date); }
      }
    }
  }

  lemma InsertBehind(x: Session, r: seq<Session>, t: seq<Session>)
    requires NonIncreasing(r) && r != [] && !StrLe(r[0].date, x.date)
    requires multiset(t) == multiset(r[1..]) + multiset{x}
    requires NonIncreasing(t)
    requires forall d {:trigger WithDate(t, d)} ::
      WithDate(t, d) == if x.date == d then [x] + WithDate(r[1..], d) else WithDate(r[1..], d)
    ensures multiset([r[0]] + t) == multiset(r) + multiset{x}
    ensures NonIncreasing([r[0]] + t)
    ensures forall d {:trigger WithDate([r[0]] + t, d)} ::
      WithDate([r[0]] + t, d) == if x.date == d then [x] + WithDate(r, d) else WithDate(r, d)
  {
    assert r == [r[0]] + r[1..];
    InsertBehindOrdered(x, r, t);
    InsertBehindByDate(x, r, t);
  }

  /** The head of `r` is newer than `x` and than the rest of `r`, so it may lead. */
  lemma InsertBehindOrdered(x: Session, r: seq<Session>, t: seq<Session>)
    requires NonIncreasing(r) && r != [] && !StrLe(r[0].date, x.date)
    requires multiset(t) == multiset(r[1..]) + multiset{x}
    requires NonIncreasing(t)
    ensures NonIncreasing([r[0]] + t)
  {
    var q := [r[0]] + t;
    assert q[1..] == t;
    StrLeTotal(r[0].date, x.date);
    forall i, j | 0 <= i < j < |q| ensures StrLe(q[j].date, q[i].date) {
      if i == 0 {
        var e := t[j - 1];
        assert e in multiset(t);
        if e != x {
          assert e in multiset(r[1..]);
          var k :| 0 <= k < |r[1..]| && r[1..][k] == e;
          assert r[k + 1] == e;
        }
      }
    }
  }

  /** The head of `r` has a different date from `x`, so no date's subsequence moves. */
  lemma InsertBehindByDate(x: Session, r: seq<Session>, t: seq<Session>)
    requires r != [] && !StrLe(r[0].date, x.date)
    requires forall d {:trigger WithDate(t, d)} ::
      WithDate(t, d) == if x.date == d then [x] + WithDate(r[1..], d) else WithDate(r[1..], d)
    ensures forall d {:trigger WithDate([r[0]] + t, d)} ::
      WithDate([r[0]] + t, d) == if x.date == d then [x] + WithDate(r, d) else WithDate(r, d)
  {
    var q := [r[0]] + t;
    assert q[1..] == t;
    assert r[0].date != x.date by { StrLeReflexive(x.date); }
  }

  /** `sorted(sessions.items(), key=date, reverse=True)`: an insertion sort that, like
      Python's stable sort, keeps sessions of equal date in their input order. */
  function SortByDateDesc(s: seq<Session>): (r: seq<Session>)
    ensures multiset(r) == multiset(s)
    ensures NonIncreasing(r)
    ensures forall d {:trigger WithDate(r, d)} :: WithDate(r, d) == WithDate(s, d)
  {
    if s == [] then []
    else
      assert s == [s[0]] + s[1..];
      InsertByDate(s[0], SortByDateDesc(s[1..]))
  }

  lemma WithDateHead(s: seq<Session>)
    requires s != []
    ensures WithDate(s, s[0].date) != [] && WithDate(s, s[0].date)[0] == s[0]
  {
  }

  /** In a newest-first order the first session's date is at least any date present. */
  lemma HeadIsNewest(s: seq<Session>, d: string)
    requires NonIncreasing(s) && WithDate(s, d) != []
    ensures s != [] && StrLe(d, s[0].date)
  {
    var e := WithDate(s, d)[0];
    assert e in WithDate(s, d);
    var j :| 0 <= j < |s| && s[j] == e;
    if j == 0 { StrLeReflexive(d); }
  }

  /** The three properties stated on SortByDateDesc pin the order down: any ordering of
      the sessions that is newest-first and keeps the input order among equal dates is
      exactly the sidebar order. */
  lemma {:induction false} StableOrderUnique(a: seq<Session>, b: seq<Session>)
    requires NonIncreasing(a) && NonIncreasing(b)
    requires forall d {:trigger WithDate(a, d)} {:trigger WithDate(b, d)} :: WithDate(a, d) == WithDate(b, d)
    ensures a == b
    decreases |a|
  {
    if a == [] {
      if b != [] {
        WithDateHead(b);
        assert false;
      }
    } else if b == [] {
      WithDateHead(a);
      assert false;
    } else {
      var k, k' := a[0].date, b[0].date;
      WithDateHead(a);
      WithDateHead(b);
      HeadIsNewest(b, k);
      HeadIsNewest(a, k');
      StrLeAntisymmetric(k, k');
      assert a[0] == b[0] by { assert WithDate(a, k) == WithDate(b, k); }
      TailsAgree(a, b);
      StableOrderUnique(a[1..], b[1..]);
      assert a == [a[0]] + a[1..] && b == [b[0]] + b[1..];
    }
  }

  lemma TailsAgree(a: seq<Session>, b: seq<Session>)
    requires a != [] && b != [] && a[0] == b[0]
    requires forall d {:trigger WithDate(a, d)} {:trigger WithDate(b, d)} :: WithDate(a, d) == WithDate(b, d)
    ensures forall d {:trigger WithDate(a[1..], d)} {:trigger WithDate(b[1..], d)} :: WithDate(a[1..], d) == WithDate(b[1..], d)
  {
    forall d ensures WithDate(a[1..], d) == WithDate(b[1..], d) {
      var p := if a[0].date == d then [a[0]] else [];
      var x, y := WithDate(a[1..], d), WithDate(b[1..], d);
      assert WithDate(a, d) == p + x;
      assert WithDate(b, d) == p + y;
      assert x == (p + x)[|p|..] && y == (p + y)[|p|..];
    }
  }

  /** Hence SortByDateDesc is the one stable newest-first order of the store. */
  lemma SidebarOrderIsTheStableSort(s: seq<Session>, r: seq<Session>)
    requires NonIncreasing(r)
    requires forall d {:trigger WithDate(r, d)} :: WithDate(r, d) == WithDate(s, d)
    ensures r == SortByDateDesc(s)
  {
    var q := SortByDateDesc(s);
    StableOrderUnique(r, q);
  }

  /** Longest text the sidebar shows before cutting it. */
  const PreviewWidth := 40

  /** `last_msg[:40] + "..." if len(last_msg) > 40 else last_msg` */
  function Preview(text: string): (r: string)
    ensures |text| <= PreviewWidth ==> r == text
    ensures |text| > PreviewWidth ==> |r| == PreviewWidth + 3 && r[..PreviewWidth] == text[..PreviewWidth] && r[PreviewWidth..] == "..."
    ensures |r| <= PreviewWidth + 3
  {
    if |text| > PreviewWidth then text[..PreviewWidth] + "..." else text
  }

  /** The preview of one sidebar entry: its last message, or "No messages". */
  function SessionPreview(s: Session): (r: string)
    ensures s.messages == [] ==> r == "No messages"
    ensures s.messages != [] ==> r == Preview(s.messages[|s.messages| - 1].text)
  {
    var lastMsg := if s.messages != [] then s.messages[|s.messages| - 1].text else "No messages";
    Preview(lastMsg)
  }

  /** `sess["stress_level"] or "Not assessed"`: an absent or empty label falls back. */
  function StressLabel(level: Option<string>): (r: string)
    ensures r != ""
    ensures level.Some? && level.value != "" ==> r == level.value
    ensures level.None? || level.value == "" ==> r == NotAssessed
  {
    if level.Some? && level.value != "" then level.value else NotAssessed
  }

  /** The button label `f"{date} - {preview} ({stress})"`. */
  function EntryLabel(s: Session): (r: string)
    ensures var p, k := SessionPreview(s), StressLabel(s.stressLevel);
      |r| == |s.date| + 3 + |p| + 2 + |k| + 1
      && r[..|s.date| + 3] == s.date + " - "
      && r[|s.date| + 3..|s.date| + 3 + |p|] == p
      && r[|s.date| + 3 + |p|..] == " (" + k + ")"
  {
    s.date + " - " + SessionPreview(s) + " (" + StressLabel(s.stressLevel) + ")"
  }

  /** `msg["timestamp"][11:]`: Python's slice yields "" when the text is shorter. */
  function TimeOfDay(timestamp: string): (r: string)
    ensures |timestamp| <= 11 ==> r == ""
    ensures |timestamp| > 11 ==> timestamp == timestamp[..11] + r
  {
    if |timestamp| <= 11 then "" else timestamp[11..]
  }

  /** The caption of a message stamped by `now()` is its `HH:MM`. */
  lemma CaptionOfNow(t: DateTime)
    requires ValidDateTime(t)
    ensures TimeOfDay(Now(t)) == Pad2(t.hour) + ":" + Pad2(t.minute)
  {
  }
}
