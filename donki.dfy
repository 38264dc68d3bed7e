/**
 * The space weather fetcher: notification counts per message type over the last seven days,
 * and the newest notification.
 */
module Donki {
  import opened Options
  import opened Strings
  import opened Display
  import opened Feed

  /** A notification object, with "" for a missing field. */
  datatype Notification = Notification(messageType: string, issueTime: string)

  /** One entry of the list: an object, or anything else (reading it raises and it is skipped). */
  datatype DonkiEvent = Obj(n: Notification) | DonkiNotObject

  /** The decoded response body. */
  datatype DonkiPayload = DonkiList(events: seq<DonkiEvent>) | DonkiOther

  /** The `event_types` dictionary: message type and count, in insertion order. */
  type Counts = seq<(string, nat)>

  function KeySet(c: Counts): set<string> {
    set i | 0 <= i < |c| :: c[i].0
  }

  predicate DistinctKeys(c: Counts) {
    forall i, j :: 0 <= i < j < |c| ==> c[i].0 != c[j].0
  }

  lemma KeySetCons(a: (string, nat), s: Counts)
    ensures KeySet([a] + s) == {a.0} + KeySet(s)
  {
    var l := [a] + s;
    forall x | x in KeySet(l) ensures x in {a.0} + KeySet(s) {
      var i :| 0 <= i < |l| && l[i].0 == x;
      if i > 0 { assert s[i - 1].0 == x; }
    }
    forall x | x in KeySet(s) ensures x in KeySet(l) {
      var i :| 0 <= i < |s| && s[i].0 == x;
      assert l[i + 1].0 == x;
    }
    assert l[0].0 == a.0;
  }

  /** `event_types.get(k, 0)`. */
  function CountOf(c: Counts, k: string): nat {
    if c == [] then 0 else if c[0].0 == k then c[0].1 else CountOf(c[1..], k)
  }

  /** `event_types[k] = event_types.get(k, 0) + 1`: a new key goes last. */
  function Bump(c: Counts, k: string): (r: Counts)
    ensures forall x :: CountOf(r, x) == CountOf(c, x) + (if x == k then 1 else 0)
    ensures KeySet(r) == KeySet(c) + {k}
    ensures DistinctKeys(c) ==> DistinctKeys(r)
    ensures k !in KeySet(c) ==> r == c + [(k, 1)]
  {
    if c == [] then
      assert [(k, 1)][0].0 == k;
      assert KeySet([(k, 1)]) == {k};
      [(k, 1)]
    else if c[0].0 == k then
      var r := [(k, c[0].1 + 1)] + c[1..];
      ConsParts(c);
      CountOfCons(c[0], c[1..]);
      CountOfCons(r[0], c[1..]);
      KeySetCons(c[0], c[1..]);
      KeySetCons(r[0], c[1..]);
      DistinctCons(c[0], c[1..]);
      DistinctCons(r[0], c[1..]);
      r
    else
      var rest := Bump(c[1..], k);
      var r := [c[0]] + rest;
      ConsParts(c);
      CountOfCons(c[0], c[1..]);
      CountOfCons(c[0], rest);
      assert k !in KeySet(c) ==> r == c + [(k, 1)] by {
        if k !in KeySet(c) {
          KeySetCons(c[0], c[1..]);
          assert r == [c[0]] + (c[1..] + [(k, 1)]);
        }
      }
      KeySetCons(c[0], c[1..]);
      KeySetCons(c[0], rest);
      DistinctCons(c[0], c[1..]);
      DistinctCons(c[0], rest);
      r
  }

  lemma CountOfCons(a: (string, nat), s: Counts)
    ensures forall x :: CountOf([a] + s, x) == if x == a.0 then a.1 else CountOf(s, x)
  {
    assert ([a] + s)[1..] == s;
  }

  lemma ConsParts(c: Counts)
    requires c != []
    ensures c == [c[0]] + c[1..]
  {
  }

  /** Keys stay distinct after a new first entry exactly when its key is new. */
  lemma DistinctCons(a: (string, nat), s: Counts)
    ensures DistinctKeys([a] + s) <==> a.0 !in KeySet(s) && DistinctKeys(s)
  {
    var l := [a] + s;
    if DistinctKeys(l) {
      forall i, j | 0 <= i < j < |s| ensures s[i].0 != s[j].0 {
        assert l[i + 1] == s[i] && l[j + 1] == s[j];
      }
      forall i | 0 <= i < |s| ensures s[i].0 != a.0 {
        assert l[i + 1] == s[i];
        assert l[0].0 != l[i + 1].0;
      }
    }
    if a.0 !in KeySet(s) && DistinctKeys(s) {
      forall i, j | 0 <= i < j < |l| ensures l[i].0 != l[j].0 {
        assert l[j] == s[j - 1];
        if i == 0 {
          assert s[j - 1].0 in KeySet(s);
        } else {
          assert l[i] == s[i - 1];
        }
      }
    }
  }

  /** A notification that is counted: an object with a message type. */
  predicate Typed(e: DonkiEvent) {
    e.Obj? && e.n.messageType != ""
  }

  /** A counted notification that also has an issue time, so that it can become the newest. */
  predicate Timed(e: DonkiEvent) {
    Typed(e) && e.n.issueTime != ""
  }

  /** The counts and the newest notification gathered so far. */
  datatype Tally = Tally(counts: Counts, latest: Option<Notification>)

  /** One turn of the loop: a non-object is skipped, a typed one counted, a later issue time moves the newest. */
  function TallyStep(t: Tally, e: DonkiEvent): Tally {
    if !Typed(e) then t
    else
      var moves := e.n.issueTime != "" && (t.latest.None? || LexLess(t.latest.value.issueTime, e.n.issueTime));
      Tally(Bump(t.counts, e.n.messageType), if moves then Some(e.n) else t.latest)
  }

  /** The message types of the counted notifications, in order. */
  function Types(events: seq<DonkiEvent>): (types: seq<string>)
    ensures types == [] <==> forall i :: 0 <= i < |events| ==> !Typed(events[i])
    decreases |events|
  {
    if events == [] then []
    else
      var init := events[..|events| - 1];
      var last := events[|events| - 1];
      assert forall i :: 0 <= i < |init| ==> init[i] == events[i];
      Types(init) + (if Typed(last) then [last.n.messageType] else [])
  }

  /** The loop over a prefix of the notifications: every message type is counted once per notification. */
  function TallyAll(events: seq<DonkiEvent>): (t: Tally)
    ensures DistinctKeys(t.counts)
    ensures forall k :: CountOf(t.counts, k) == multiset(Types(events))[k]
    ensures t.counts == [] <==> Types(events) == []
    decreases |events|
  {
    if events == [] then Tally([], None)
    else
      var init := TallyAll(events[..|events| - 1]);
      var last := events[|events| - 1];
      var t := TallyStep(init, last);
      assert Typed(last) ==> CountOf(t.counts, last.n.messageType) > 0;
      t
  }

  /** Some notification has both a message type and an issue time. */
  predicate AnyTimed(events: seq<DonkiEvent>) {
    exists i :: 0 <= i < |events| && Timed(events[i])
  }

  /** Some notification has a type and an issue time exactly when the loop finds a newest one. */
  lemma {:induction false} LatestExists(events: seq<DonkiEvent>)
    ensures TallyAll(events).latest.Some? <==> AnyTimed(events)
    decreases |events|
  {
    if events != [] {
      var n := |events| - 1;
      var pre := events[..n];
      var before := TallyAll(pre);
      assert before.latest.Some? <==> AnyTimed(pre) by {
        LatestExists(pre);
      }
      assert TallyAll(events).latest.Some? <==> before.latest.Some? || Timed(events[n]) by {
        TallyAllUnfold(events);
        LatestStep(before, events[n]);
      }
      assert AnyTimed(events) <==> AnyTimed(pre) || Timed(events[n]) by {
        TimedSplit(events);
      }
    }
  }

  lemma TallyAllUnfold(events: seq<DonkiEvent>)
    requires events != []
    ensures TallyAll(events) == TallyStep(TallyAll(events[..|events| - 1]), events[|events| - 1])
  {
  }

  /** One turn of the loop has a newest notification exactly when it had one or the new one is timed. */
  lemma LatestStep(t: Tally, e: DonkiEvent)
    ensures TallyStep(t, e).latest.Some? <==> t.latest.Some? || Timed(e)
  {
  }

  /** A timed notification is in the prefix or is the last one. */
  lemma TimedSplit(events: seq<DonkiEvent>)
    requires events != []
    ensures AnyTimed(events) <==> AnyTimed(events[..|events| - 1]) || Timed(events[|events| - 1])
  {
    var n := |events| - 1;
    var pre := events[..n];
    if exists i :: 0 <= i < |events| && Timed(events[i]) {
      var i :| 0 <= i < |events| && Timed(events[i]);
      if i < n { assert pre[i] == events[i]; }
    }
    if exists i :: 0 <= i < n && Timed(pre[i]) {
      var i :| 0 <= i < n && Timed(pre[i]);
      assert events[i] == pre[i];
    }
  }

  /**
   * `l`, found at index `k`, is the newest: no timed notification has a later issue time, and every
   * timed one before `k` an earlier one (on a tie the first one stays).
   */
  predicate NewestAt(events: seq<DonkiEvent>, k: int, l: Notification) {
    0 <= k < |events| && Timed(events[k]) && events[k].n == l
    && (forall i :: 0 <= i < |events| && Timed(events[i]) ==> !LexLess(l.issueTime, events[i].n.issueTime))
    && (forall j :: 0 <= j < k && Timed(events[j]) ==> LexLess(events[j].n.issueTime, l.issueTime))
  }

  /** A timed notification after only untimed ones is the newest so far. */
  lemma NewestFirst(pre: seq<DonkiEvent>, last: DonkiEvent)
    requires forall i :: 0 <= i < |pre| ==> !Timed(pre[i])
    requires Timed(last)
    ensures NewestAt(pre + [last], |pre|, last.n)
  {
    LexLessIrreflexive(last.n.issueTime);
  }

  /** A notification issued later than the newest so far becomes the newest. */
  lemma NewestMoves(pre: seq<DonkiEvent>, k: int, l: Notification, last: DonkiEvent)
    requires NewestAt(pre, k, l) && Timed(last) && LexLess(l.issueTime, last.n.issueTime)
    ensures NewestAt(pre + [last], |pre|, last.n)
  {
    var events := pre + [last];
    var time := last.n.issueTime;
    LexLessIrreflexive(time);
    forall i | 0 <= i < |pre| && Timed(events[i])
      ensures !LexLess(time, events[i].n.issueTime) && LexLess(events[i].n.issueTime, time)
    {
      assert events[i] == pre[i];
      assert !LexLess(l.issueTime, pre[i].n.issueTime);
      if LexLess(time, events[i].n.issueTime) {
        LexLessTransitive(l.issueTime, time, events[i].n.issueTime);
      }
      LexLessTotal(events[i].n.issueTime, l.issueTime);
      if events[i].n.issueTime != l.issueTime {
        LexLessTransitive(events[i].n.issueTime, l.issueTime, time);
      }
    }
  }

  /** A notification that is untimed, or not issued later, leaves the newest where it was. */
  lemma NewestStays(pre: seq<DonkiEvent>, k: int, l: Notification, last: DonkiEvent)
    requires NewestAt(pre, k, l) && !(Timed(last) && LexLess(l.issueTime, last.n.issueTime))
    ensures NewestAt(pre + [last], k, l)
  {
    var events := pre + [last];
    assert forall i :: 0 <= i < |pre| ==> events[i] == pre[i];
  }

  /** The loop's newest notification is the first one with the greatest issue time in string order. */
  lemma {:induction false} LatestIsNewest(events: seq<DonkiEvent>)
    ensures var t := TallyAll(events); t.latest.Some? ==> exists k :: NewestAt(events, k, t.latest.value)
    decreases |events|
  {
    if events != [] {
      var n := |events| - 1;
      var pre := events[..n];
      var last := events[n];
      assert events == pre + [last];
      var before := TallyAll(pre);
      var t := TallyAll(events);
      assert t == TallyStep(before, last);
      LatestIsNewest(pre);
      match before.latest {
        case None =>
          if Timed(last) {
            LatestExists(pre);
            NewestFirst(pre, last);
          }
        case Some(l) =>
          var k :| NewestAt(pre, k, l);
          if Timed(last) && LexLess(l.issueTime, last.n.issueTime) {
            NewestMoves(pre, k, l, last);
          } else {
            NewestStays(pre, k, l, last);
          }
      }
    }
  }

  /** `sorted(...)` keys in strictly increasing string order. */
  predicate SortedKeys(c: Counts) {
    forall i, j :: 0 <= i < j < |c| ==> LexLess(c[i].0, c[j].0)
  }

  /** Inserts an entry with a new key into a sorted list. */
  function Insert(x: (string, nat), s: Counts): (r: Counts)
    requires SortedKeys(s) && x.0 !in KeySet(s)
    ensures multiset(r) == multiset(s) + multiset{x}
    ensures SortedKeys(r)
  {
    if s == [] then [x]
    else if LexLess(x.0, s[0].0) then
      forall j | 0 <= j < |s| ensures LexLess(x.0, s[j].0) {
        if j > 0 { LexLessTransitive(x.0, s[0].0, s[j].0); }
      }
      SortedCons(x, s);
      [x] + s
    else
      assert s[0].0 in KeySet(s);
      LexLessTotal(x.0, s[0].0);
      assert KeySet(s[1..]) <= KeySet(s);
      var rest := Insert(x, s[1..]);
      ConsParts(s);
      HeadBelowInsert(x, s, rest);
      SortedCons(s[0], rest);
      [s[0]] + rest
  }

  /** A key below every key of a sorted list can go in front of it. */
  lemma SortedCons(a: (string, nat), r: Counts)
    requires SortedKeys(r) && forall k :: 0 <= k < |r| ==> LexLess(a.0, r[k].0)
    ensures SortedKeys([a] + r)
  {
    var l := [a] + r;
    forall i, j | 0 <= i < j < |l| ensures LexLess(l[i].0, l[j].0) {
      assert l[j] == r[j - 1];
      if i > 0 { assert l[i] == r[i - 1]; }
    }
  }

  /** The first key of a sorted list stays below everything once a larger key is inserted in the rest. */
  lemma HeadBelowInsert(x: (string, nat), s: Counts, rest: Counts)
    requires s != [] && SortedKeys(s) && LexLess(s[0].0, x.0)
    requires multiset(rest) == multiset(s[1..]) + multiset{x}
    ensures forall k :: 0 <= k < |rest| ==> LexLess(s[0].0, rest[k].0)
  {
    forall k | 0 <= k < |rest| ensures LexLess(s[0].0, rest[k].0) {
      assert rest[k] in multiset(rest);
      if rest[k] != x {
        assert rest[k] in multiset(s[1..]);
        var j :| 0 <= j < |s[1..]| && s[1..][j] == rest[k];
        assert s[j + 1] == rest[k];
      }
    }
  }

  /** `sorted(event_types.items())`: with distinct keys, tuples order by their key. */
  function SortCounts(c: Counts): (r: Counts)
    requires DistinctKeys(c)
    ensures multiset(r) == multiset(c)
    ensures SortedKeys(r)
  {
    if c == [] then []
    else
      ConsParts(c);
      DistinctCons(c[0], c[1..]);
      var rest := SortCounts(c[1..]);
      FirstKeyIsNew(c, rest);
      Insert(c[0], rest)
  }

  /** The first key of distinct keys is not among the keys of any permutation of the rest. */
  lemma FirstKeyIsNew(c: Counts, rest: Counts)
    requires c != [] && DistinctKeys(c) && multiset(rest) == multiset(c[1..])
    ensures c[0].0 !in KeySet(rest)
  {
    forall i | 0 <= i < |rest| ensures rest[i].0 != c[0].0 {
      assert rest[i] in multiset(c[1..]);
      var j :| 0 <= j < |c[1..]| && c[1..][j] == rest[i];
      assert c[1..][j] == c[j + 1];
    }
  }

  /** One summary entry: the count and the type, with a plural "s" when the count exceeds one. */
  function SummaryItem(entry: (string, nat)): (t: Text)
    ensures |t| == 2 && t[0] == Int(entry.1)
    ensures t[1] == Lit(" " + entry.0 + "s") <==> entry.1 > 1
    ensures entry.1 <= 1 ==> t[1] == Lit(" " + entry.0)
  {
    if entry.1 > 1 then [Int(entry.1), Lit(" " + entry.0 + "s")]
    else
      assert |" " + entry.0| < |" " + entry.0 + "s"|;
      [Int(entry.1), Lit(" " + entry.0)]
  }

  function SummaryItems(sorted: Counts): seq<Text> {
    seq(|sorted|, i requires 0 <= i < |sorted| => SummaryItem(sorted[i]))
  }

  /** The summary loop over the sorted items. */
  method Summarise(sorted: Counts) returns (summary: seq<Text>)
    ensures summary == SummaryItems(sorted)
  {
    summary := [];
    for i := 0 to |sorted|
      invariant summary == SummaryItems(sorted[..i])
    {
      assert sorted[..i + 1][..i] == sorted[..i];
      summary := summary + [SummaryItem(sorted[i])];
    }
    assert sorted[..|sorted|] == sorted;
  }

  /** The title lists the first three summary entries, or all of them when there are fewer. */
  function DonkiTitle(counts: Counts): (t: Text)
    requires DistinctKeys(counts)
    ensures var items := SummaryItems(SortCounts(counts));
      var shown := if |counts| < 3 then |counts| else 3;
      |items| == |counts| && t == [Lit("Solar activity: ")] + Join(items[..shown], ", ") + [Lit(" (7 days)")]
  {
    SortKeepsLength(counts);
    var items := SummaryItems(SortCounts(counts));
    assert items[..|items|] == items;
    [Lit("Solar activity: ")] + Join(if |items| > 3 then items[..3] else items, ", ") + [Lit(" (7 days)")]
  }

  lemma SortKeepsLength(c: Counts)
    requires DistinctKeys(c)
    ensures |SortCounts(c)| == |c|
  {
    var r := SortCounts(c);
    assert |r| == |multiset(r)|;
    assert |c| == |multiset(c)|;
  }

  /** The types the title lists come first in string order, ahead of every type it leaves out. */
  lemma TitleListsSmallestTypes(counts: Counts)
    requires DistinctKeys(counts)
    ensures var s := SortCounts(counts);
      forall i, j :: 0 <= i < 3 && i < j < |s| ==> LexLess(s[i].0, s[j].0)
    ensures forall k :: k in KeySet(counts) <==> k in KeySet(SortCounts(counts))
  {
    var s := SortCounts(counts);
    forall k ensures k in KeySet(counts) <==> k in KeySet(s) {
      if k in KeySet(counts) {
        var i :| 0 <= i < |counts| && counts[i].0 == k;
        assert counts[i] in multiset(s);
      }
      if k in KeySet(s) {
        var i :| 0 <= i < |s| && s[i].0 == k;
        assert s[i] in multiset(counts);
      }
    }
  }

  /** How long ago the newest notification was issued, `None` when its time does not parse. */
  function TimeDescription(daysAgo: Option<int>): (t: Text)
    ensures daysAgo.None? ==> t == Str("Recent")
    ensures daysAgo.Some? && daysAgo.value > 0 ==> t == [Int(daysAgo.value), Lit("d ago")]
    ensures daysAgo.Some? && daysAgo.value <= 0 ==> t == Str("Today")
  {
    match daysAgo
    case Some(d) => if d > 0 then [Int(d), Lit("d ago")] else Str("Today")
    case None => Str("Recent")
  }

  /** The newest notification's type, then how long ago it was issued. */
  function DonkiDescription(latest: Notification, daysAgo: Option<int>): (t: Text)
    ensures |t| > 3 && t[..3] == [Lit("Latest: "), Lit(latest.messageType), Lit(" ")] && t[3..] == TimeDescription(daysAgo)
  {
    [Lit("Latest: "), Lit(latest.messageType), Lit(" ")] + TimeDescription(daysAgo)
  }

  /**
   * The parsing part of `fetch_donki_data`. An empty list is falsy and so fails the first test:
   * live data needs a timed notification.
   */
  function ParseDonki(p: DonkiPayload, daysAgo: Option<int>): (r: Parsed)
    ensures !r.Raised?
    ensures r.Live? ==> r.image == None
    ensures r.Live? ==> (p.DonkiList? && TallyAll(p.events).latest.Some?
      && r.title == DonkiTitle(TallyAll(p.events).counts)
      && r.description == DonkiDescription(TallyAll(p.events).latest.value, daysAgo)
      && exists k :: NewestAt(p.events, k, TallyAll(p.events).latest.value))
  {
    match p
    case DonkiOther => Offline
    case DonkiList(events) =>
      LatestIsNewest(events);
      if events == [] then Offline
      else
        var t := TallyAll(events);
        if t.latest.None? || t.counts == [] then Offline
        else Live(None, DonkiTitle(t.counts), DonkiDescription(t.latest.value, daysAgo))
  }

  /** There is live data exactly when some notification has both a type and an issue time. */
  lemma LiveIffTimedNotification(p: DonkiPayload, daysAgo: Option<int>)
    ensures ParseDonki(p, daysAgo).Live? <==> p.DonkiList? && exists i :: 0 <= i < |p.events| && Timed(p.events[i])
  {
    if p.DonkiList? {
      LatestExists(p.events);
    }
  }

  /** The quiet-period reply is never produced: an empty notification list is reported offline. */
  lemma QuietPeriodUnreachable(daysAgo: Option<int>)
    ensures ParseDonki(DonkiList([]), daysAgo) == Offline
  {
  }

  /** The loop's next prefix is one `TallyStep` further. */
  lemma TallyAllStep(events: seq<DonkiEvent>, i: nat)
    requires i < |events|
    ensures TallyAll(events[..i + 1]) == TallyStep(TallyAll(events[..i]), events[i])
  {
    assert events[..i + 1][..i] == events[..i];
  }

  /** The body of the counting loop for one notification; `latestTime` is the newest issue time so far. */
  method ReadEvent(counts: Counts, latest: Option<Notification>, latestTime: Option<string>, event: DonkiEvent)
    returns (counts': Counts, latest': Option<Notification>, latestTime': Option<string>)
    requires latestTime == if latest.Some? then Some(latest.value.issueTime) else None
    ensures Tally(counts', latest') == TallyStep(Tally(counts, latest), event)
    ensures latestTime' == if latest'.Some? then Some(latest'.value.issueTime) else None
  {
    counts', latest', latestTime' := counts, latest, latestTime;
    if event.DonkiNotObject? {
      return;
    }
    var eventType := event.n.messageType;
    var eventTime := event.n.issueTime;
    if eventType != "" {
      counts' := Bump(counts, eventType);
      if eventTime != "" && (latestTime.None? || LexLess(latestTime.value, eventTime)) {
        latestTime' := Some(eventTime);
        latest' := Some(event.n);
      }
    }
  }

  /** The counting loop of `fetch_donki_data`, with the newest issue time kept beside the newest event. */
  method TallyEvents(events: seq<DonkiEvent>) returns (counts: Counts, latest: Option<Notification>)
    ensures Tally(counts, latest) == TallyAll(events)
  {
    counts := [];
    latest := None;
    var latestTime: Option<string> := None;
    var i := 0;
    while i < |events|
      invariant 0 <= i <= |events|
      invariant TallyAll(events[..i]) == Tally(counts, latest)
      invariant latestTime == if latest.Some? then Some(latest.value.issueTime) else None
    {
      TallyAllStep(events, i);
      counts, latest, latestTime := ReadEvent(counts, latest, latestTime, events[i]);
      i := i + 1;
    }
    assert events[..|events|] == events;
  }
}
