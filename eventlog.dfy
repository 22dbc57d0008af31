/** The event-log dashboard: the query, sort, filter and page pipeline of the
    event list, the paged session list, and the display rules of single
    sessions and events. */
module EventLog {
  import opened Wrappers
  import opened Values
  import opened Sequences

  /** A logged activity record as the event-log read returns it. `fieldNames` lists
      the record's own property names in `Object.keys` order. */
  datatype Event = Event(
    key: string,
    time: int,
    eventType: Option<string>,
    sessionKey: Option<string>,
    siloKey: Option<string>,
    userName: Option<string>,
    fieldNames: seq<string>)

  /** The props of the event-log screen: each one is a filter, absent when undefined. */
  datatype LogQuery = LogQuery(sessionKey: Option<string>, siloKey: Option<string>, eventType: Option<string>)

  /** A rejected read of the event log or of the sessions. */
  datatype QueryFailure = QueryFailure(reason: string)

  // ----- Sorting: `events.sort((a, b) => b.time - a.time)` -----

  /** Newest first: no event is older than one that comes after it. */
  predicate NewestFirst(s: seq<Event>) {
    forall i, j :: 0 <= i < j < |s| ==> s[i].time >= s[j].time
  }

  /** Inserts `e` before the first event that is not newer than it. */
  function InsertNewestFirst(e: Event, s: seq<Event>): seq<Event>
    decreases |s|
  {
    if |s| == 0 || e.time >= s[0].time then [e] + s
    else [s[0]] + InsertNewestFirst(e, s[1..])
  }

  /** The stable sort by descending time that `Array.prototype.sort` performs with
      the comparator `b.time - a.time`. */
  function SortNewestFirst(s: seq<Event>): (r: seq<Event>)
    ensures NewestFirst(r)
    ensures multiset(r) == multiset(s)
    decreases |s|
  {
    if |s| == 0 then []
    else
      var rest := SortNewestFirst(s[1..]);
      InsertHead(s, rest);
      InsertNewestFirst(s[0], rest)
  }

  /** Dropping the newest event of a newest-first list leaves it newest first. */
  lemma TailNewestFirst(s: seq<Event>)
    requires |s| > 0 && NewestFirst(s)
    ensures NewestFirst(s[1..])
  {
    forall i, j | 0 <= i < j < |s[1..]| ensures s[1..][i].time >= s[1..][j].time {
      assert s[1..][i] == s[i + 1] && s[1..][j] == s[j + 1];
    }
  }

  /** Inserting adds exactly `e`. */
  lemma {:induction false} InsertCount(e: Event, s: seq<Event>)
    ensures multiset(InsertNewestFirst(e, s)) == multiset(s) + multiset{e}
    decreases |s|
  {
    if |s| > 0 && e.time < s[0].time {
      InsertCount(e, s[1..]);
      assert s == [s[0]] + s[1..];
    }
  }

  /** An event at least as new as every event of a newest-first list can go in front of it. */
  lemma ConsNewestFirst(h: Event, t: seq<Event>)
    requires NewestFirst(t)
    requires forall x :: x in t ==> h.time >= x.time
    ensures NewestFirst([h] + t)
  {
    var r := [h] + t;
    forall i, j | 0 <= i < j < |r| ensures r[i].time >= r[j].time {
      assert r[j] == t[j - 1];
      if i > 0 {
        assert r[i] == t[i - 1];
      }
    }
  }

  /** Every event of `InsertNewestFirst(e, s[1..])` is `e` or an event of `s[1..]`, so the
      head of `s` is at least as new as all of them when it is newer than `e`. */
  lemma InsertBelowHead(e: Event, s: seq<Event>)
    requires |s| > 0 && NewestFirst(s) && e.time < s[0].time
    ensures forall x :: x in InsertNewestFirst(e, s[1..]) ==> s[0].time >= x.time
  {
    var rest := InsertNewestFirst(e, s[1..]);
    InsertCount(e, s[1..]);
    forall x | x in rest ensures s[0].time >= x.time {
      assert x in multiset(rest);
      if x != e {
        assert x in multiset(s[1..]);
        var k :| 0 <= k < |s[1..]| && s[1..][k] == x;
        assert s[k + 1] == x;
      }
    }
  }

  /** Inserting into a newest-first list keeps it newest first. */
  lemma {:induction false} InsertSorted(e: Event, s: seq<Event>)
    requires NewestFirst(s)
    ensures NewestFirst(InsertNewestFirst(e, s))
    decreases |s|
  {
    if |s| > 0 && e.time < s[0].time {
      TailNewestFirst(s);
      InsertSorted(e, s[1..]);
      InsertBelowHead(e, s);
      ConsNewestFirst(s[0], InsertNewestFirst(e, s[1..]));
    }
  }

  /** One step of the sort: inserting the head into the sorted tail sorts the whole list. */
  lemma InsertHead(s: seq<Event>, rest: seq<Event>)
    requires |s| > 0 && NewestFirst(rest) && multiset(rest) == multiset(s[1..])
    ensures NewestFirst(InsertNewestFirst(s[0], rest))
    ensures multiset(InsertNewestFirst(s[0], rest)) == multiset(s)
  {
    InsertCount(s[0], rest);
    InsertSorted(s[0], rest);
    assert s == [s[0]] + s[1..];
  }

  /** The sorted list is newest first, consecutive events included, and it is a
      permutation of the fetched list. */
  lemma SortSpec(s: seq<Event>)
    ensures NewestFirst(SortNewestFirst(s))
    ensures forall i :: 0 <= i < |SortNewestFirst(s)| - 1 ==>
      SortNewestFirst(s)[i].time >= SortNewestFirst(s)[i + 1].time
    ensures multiset(SortNewestFirst(s)) == multiset(s)
  {
  }

  /** Sorting a list that is already newest first leaves it as it is, so the
      in-place sort on every render does not disturb the state once sorted. */
  lemma {:induction false} SortKeepsSorted(s: seq<Event>)
    requires NewestFirst(s)
    ensures SortNewestFirst(s) == s
    decreases |s|
  {
    if |s| > 0 {
      TailNewestFirst(s);
      SortKeepsSorted(s[1..]);
      assert s == [s[0]] + s[1..];
    }
  }

  /** The events of `s` with time `t`, in the order of `s`. */
  function AtTime(s: seq<Event>, t: int): seq<Event>
    decreases |s|
  {
    if |s| == 0 then [] else (if s[0].time == t then [s[0]] else []) + AtTime(s[1..], t)
  }

  /** Inserting `e` keeps it in front of every event of its own time, and leaves the
      order of each time's events as it was. */
  lemma {:induction false} InsertAtTime(e: Event, s: seq<Event>, t: int)
    ensures AtTime(InsertNewestFirst(e, s), t) == AtTime([e] + s, t)
    decreases |s|
  {
    assert ([e] + s)[1..] == s;
    if |s| > 0 && e.time < s[0].time {
      InsertAtTime(e, s[1..], t);
      assert ([e] + s[1..])[1..] == s[1..];
      assert ([s[0]] + InsertNewestFirst(e, s[1..]))[1..] == InsertNewestFirst(e, s[1..]);
    }
  }

  /** The sort is stable: the events of any one time keep their fetched order, which
      decides which of several equal-time events fall inside the window. */
  lemma {:induction false} SortIsStable(s: seq<Event>, t: int)
    ensures AtTime(SortNewestFirst(s), t) == AtTime(s, t)
    decreases |s|
  {
    if |s| > 0 {
      SortIsStable(s[1..], t);
      InsertAtTime(s[0], SortNewestFirst(s[1..]), t);
      assert ([s[0]] + SortNewestFirst(s[1..]))[1..] == SortNewestFirst(s[1..]);
    }
  }

  /** A subsequence of a newest-first list is newest first. */
  lemma {:induction false} SubsequenceNewestFirst(a: seq<Event>, b: seq<Event>)
    requires IsSubsequence(a, b) && NewestFirst(b)
    ensures NewestFirst(a)
    decreases |b|
  {
    if |a| > 0 && |b| > 0 {
      TailNewestFirst(b);
      if a[0] == b[0] && IsSubsequence(a[1..], b[1..]) {
        SubsequenceNewestFirst(a[1..], b[1..]);
        SubsequenceMembers(a[1..], b[1..]);
        forall i, j | 0 <= i < j < |a| ensures a[i].time >= a[j].time {
          assert a[j] == a[1..][j - 1] && a[j] in a[1..];
          if i == 0 {
            var k :| 0 <= k < |b[1..]| && b[1..][k] == a[j];
            assert b[k + 1] == a[j];
          } else {
            assert a[i] == a[1..][i - 1];
          }
        }
      } else {
        SubsequenceNewestFirst(a, b[1..]);
      }
    }
  }

  // ----- Filtering -----

  /** An event is kept iff every filter that is present (truthy) equals the
      event's field; an absent filter imposes no constraint. */
  predicate Matches(e: Event, q: LogQuery) {
    && (!Present(q.eventType) || e.eventType == q.eventType)
    && (!Present(q.sessionKey) || e.sessionKey == q.sessionKey)
    && (!Present(q.siloKey) || e.siloKey == q.siloKey)
  }

  /** `sortedEvents.filter(...)`. */
  function FilterEvents(s: seq<Event>, q: LogQuery): (r: seq<Event>)
    ensures forall x :: multiset(r)[x] == if Matches(x, q) then multiset(s)[x] else 0
    ensures forall i :: 0 <= i < |r| ==> Matches(r[i], q)
    ensures IsSubsequence(r, s)
  {
    var p := (e: Event) => Matches(e, q);
    KeepCount(s, p);
    KeepSatisfies(s, p);
    KeepIsSubsequence(s, p);
    Keep(s, p)
  }

  /** With no filter supplied, every event is kept. */
  lemma {:induction false} NoFilterKeepsAll(s: seq<Event>)
    ensures FilterEvents(s, LogQuery(None, None, None)) == s
    decreases |s|
  {
    if |s| > 0 {
      NoFilterKeepsAll(s[1..]);
      assert s == [s[0]] + s[1..];
    }
  }

  // ----- Pagination: a window of 20, doubled by "Load more" -----

  const InitialLimit: nat := 20

  /** The window after `presses` presses of "Load more". */
  function LimitAfter(presses: nat): (limit: nat)
    ensures limit >= InitialLimit
  {
    if presses == 0 then InitialLimit else 2 * LimitAfter(presses - 1)
  }

  /** "Load more" is offered iff the list is longer than the window. */
  predicate HasMore<T>(s: seq<T>, limit: nat) {
    |s| > limit
  }

  /** After k presses the shown list is a prefix of the list shown after k + 1
      presses, and a press offered by "Load more" reveals more of the list. */
  lemma LoadMoreExtends<T>(s: seq<T>, presses: nat)
    ensures Page(s, LimitAfter(presses)) <= Page(s, LimitAfter(presses + 1))
    ensures HasMore(s, LimitAfter(presses)) ==>
      |Page(s, LimitAfter(presses))| < |Page(s, LimitAfter(presses + 1))|
    ensures !HasMore(s, LimitAfter(presses)) ==> Page(s, LimitAfter(presses)) == s
  {
    PageWindow(s, LimitAfter(presses), LimitAfter(presses + 1));
  }

  /** With 45 matches, successive windows show 20, then 40, then all 45. */
  lemma FortyFiveMatches<T>(s: seq<T>)
    requires |s| == 45
    ensures |Page(s, LimitAfter(0))| == 20 && HasMore(s, LimitAfter(0))
    ensures |Page(s, LimitAfter(1))| == 40 && HasMore(s, LimitAfter(1))
    ensures Page(s, LimitAfter(2)) == s && !HasMore(s, LimitAfter(2))
  {
    assert LimitAfter(1) == 40;
    assert LimitAfter(2) == 80;
  }

  // ----- The event-log screen -----

  /** What the event-log screen renders. */
  datatype EventLogView = NotAuthorized | EventList(shown: seq<Event>, loadMore: bool)

  /** The view the screen renders from its state: sort, filter, then the first
      `limit` events; a viewer who is not an admin sees only "Not authorized". */
  function EventLogViewOf(events: seq<Event>, q: LogQuery, limit: nat, isAdmin: bool): (v: EventLogView)
    ensures !isAdmin ==> v == NotAuthorized
    ensures isAdmin ==> v.EventList? && |v.shown| <= limit && NewestFirst(v.shown)
    ensures isAdmin ==> forall i :: 0 <= i < |v.shown| ==> Matches(v.shown[i], q)
  {
    var sorted := SortNewestFirst(events);
    var filtered := FilterEvents(sorted, q);
    SubsequenceNewestFirst(filtered, sorted);
    if !isAdmin then NotAuthorized else EventList(Page(filtered, limit), HasMore(filtered, limit))
  }

  /** For an admin the shown events are the first `min(limit, |filtered|)` events
      that match every present filter, newest first; every matching fetched event
      is among the filtered ones as often as it was fetched; "Load more" is offered
      iff more events match than are shown. */
  lemma ShownEvents(events: seq<Event>, q: LogQuery, limit: nat)
    ensures
      var v := EventLogViewOf(events, q, limit, true);
      var filtered := FilterEvents(SortNewestFirst(events), q);
      && v.EventList?
      && (forall x :: multiset(filtered)[x] == if Matches(x, q) then multiset(events)[x] else 0)
      && IsSubsequence(filtered, SortNewestFirst(events))
      && |v.shown| == (if limit < |filtered| then limit else |filtered|)
      && v.shown == filtered[..|v.shown|]
      && NewestFirst(v.shown)
      && (forall i :: 0 <= i < |v.shown| ==> Matches(v.shown[i], q))
      && (v.loadMore <==> |filtered| > limit)
  {
    PageWindow(FilterEvents(SortNewestFirst(events), q), limit, limit);
  }

  /** Whatever the events, a viewer who is not an admin sees "Not authorized". */
  lemma NotAdminSeesNothing(events: seq<Event>, q: LogQuery, limit: nat)
    ensures EventLogViewOf(events, q, limit, false) == NotAuthorized
  {
  }

  /** The state of the event-log screen: the fetched events, the window, and the
      queries it has sent to the event-log read. */
  class EventLogScreen {
    const query: LogQuery
    const isAdmin: bool
    var events: seq<Event>
    var limit: nat
    var issued: seq<LogQuery>
    ghost var presses: nat

    ghost predicate Valid()
      reads this
    {
      limit == LimitAfter(presses)
    }

    /** `useState([])` and `useState(20)`. */
    constructor (query: LogQuery, isAdmin: bool)
      ensures Valid()
      ensures this.query == query && this.isAdmin == isAdmin
      ensures events == [] && limit == InitialLimit && presses == 0 && issued == []
    {
      this.query := query;
      this.isAdmin := isAdmin;
      events := [];
      limit := InitialLimit;
      presses := 0;
      issued := [];
    }

    /** `onRefresh`: sends the query whoever the viewer is; a successful read
        replaces the events wholesale, a failed one never reaches `setEvents`. */
    method Refresh(fetched: Result<seq<Event>, QueryFailure>)
      requires Valid()
      modifies this`events, this`issued
      ensures Valid()
      ensures issued == old(issued) + [query]
      ensures events == if fetched.Success? then fetched.value else old(events)
    {
      issued := issued + [query];
      if fetched.Success? {
        events := fetched.value;
      }
    }

    /** "Load more": `setLimit(limit * 2)`. */
    method LoadMore()
      requires Valid()
      modifies this`limit, this`presses
      ensures Valid()
      ensures presses == old(presses) + 1 && limit == 2 * old(limit)
    {
      limit := limit * 2;
      presses := presses + 1;
    }

    /** One render: sorts the state array in place, then renders the view of the
        sorted state, which is the view of the events before the sort. */
    method Render() returns (view: EventLogView)
      requires Valid()
      modifies this`events
      ensures Valid()
      ensures events == SortNewestFirst(old(events))
      ensures view == EventLogViewOf(old(events), query, limit, isAdmin)
    {
      events := SortNewestFirst(events);
      SortKeepsSorted(events);
      view := EventLogViewOf(events, query, limit, isAdmin);
    }
  }

  /** Opening the screen: the first render, the mount effect's refresh, and the
      render that follows it. The read is sent even to a viewer who is not an
      admin, who still sees only "Not authorized". */
  method OpenEventLog(query: LogQuery, isAdmin: bool, fetched: Result<seq<Event>, QueryFailure>)
    returns (screen: EventLogScreen, first: EventLogView, view: EventLogView)
    ensures screen.issued == [query]
    ensures screen.limit == InitialLimit
    ensures isAdmin ==> first == EventList([], false)
    ensures !isAdmin ==> first == NotAuthorized && view == NotAuthorized
    ensures isAdmin && fetched.Success? ==> view == EventLogViewOf(fetched.value, query, InitialLimit, true)
    ensures isAdmin && fetched.Failure? ==> view == EventList([], false)
  {
    screen := new EventLogScreen(query, isAdmin);
    first := screen.Render();
    screen.Refresh(fetched);
    view := screen.Render();
  }

  // ----- The session list -----

  /** The device fields of a session; only `isMobile` drives a display rule. */
  datatype DeviceInfo = DeviceInfo(isMobile: Value)

  /** A session record as the session read returns it. */
  datatype Session = Session(
    key: string,
    userId: Value,
    userName: Value,
    startTime: Option<int>,
    endTime: Option<int>,
    deviceInfo: Option<DeviceInfo>)

  /** What the session list renders. */
  datatype SessionListView = SessionList(shown: seq<Session>, loadMore: bool)

  /** The session list shows the first `min(limit, |sessions|)` sessions in the
      order fetched, and offers "Load more" iff more sessions exist. */
  function SessionListViewOf(sessions: seq<Session>, limit: nat): (v: SessionListView)
    ensures |v.shown| == (if limit < |sessions| then limit else |sessions|)
    ensures v.shown == sessions[..|v.shown|]
    ensures v.loadMore <==> |sessions| > limit
  {
    SessionList(Page(sessions, limit), HasMore(sessions, limit))
  }

  /** The state of the session-list screen. */
  class SessionListScreen {
    var sessions: seq<Session>
    var limit: nat
    var fetches: nat
    ghost var presses: nat

    ghost predicate Valid()
      reads this
    {
      limit == LimitAfter(presses)
    }

    constructor ()
      ensures Valid()
      ensures sessions == [] && limit == InitialLimit && presses == 0 && fetches == 0
    {
      sessions := [];
      limit := InitialLimit;
      presses := 0;
      fetches := 0;
    }

    /** `onRefresh`: a successful read replaces the sessions wholesale, a failed
        one leaves them. */
    method Refresh(fetched: Result<seq<Session>, QueryFailure>)
      requires Valid()
      modifies this`sessions, this`fetches
      ensures Valid()
      ensures fetches == old(fetches) + 1
      ensures sessions == if fetched.Success? then fetched.value else old(sessions)
    {
      fetches := fetches + 1;
      if fetched.Success? {
        sessions := fetched.value;
      }
    }

    /** "Load more": `setLimit(limit * 2)`. */
    method LoadMore()
      requires Valid()
      modifies this`limit, this`presses
      ensures Valid()
      ensures presses == old(presses) + 1 && limit == 2 * old(limit)
    {
      limit := limit * 2;
      presses := presses + 1;
    }

    method Render() returns (view: SessionListView)
      ensures view == SessionListViewOf(sessions, limit)
    {
      view := SessionListViewOf(sessions, limit);
    }
  }

  // ----- Display rules -----

  /** The time a session row shows: `endTime ?? startTime`. */
  function SessionTime(s: Session): (t: Option<int>)
    ensures s.endTime.Some? ==> t == s.endTime
    ensures s.endTime.None? ==> t == s.startTime
  {
    if s.endTime.Some? then s.endTime else s.startTime
  }

  /** The device label: 'Mobile' iff the device info says `isMobile`, else 'Desktop'. */
  function DeviceLabel(s: Session): (device: string)
    ensures device == "Mobile" || device == "Desktop"
    ensures device == "Mobile" <==> s.deviceInfo.Some? && Truthy(s.deviceInfo.value.isMobile)
  {
    match s.deviceInfo
    case Some(d) => if Truthy(d.isMobile) then "Mobile" else "Desktop"
    case None => "Desktop"
  }

  /** The name an event preview shows: `userName ?? 'anon'`. */
  function PreviewUserName(e: Event): (name: string)
    ensures e.userName.Some? ==> name == e.userName.value
    ensures e.userName.None? ==> name == "anon"
  {
    match e.userName
    case Some(n) => n
    case None => "anon"
  }

  /** The fields the expanded event shows through dedicated widgets or not at all. */
  const ReservedFields: seq<string> := [
    "time", "eventType", "userName", "text", "url",
    "siloKey", "sessionKey", "instanceKey", "structureKey"]

  /** The event's own fields that the expanded view lists one by one. */
  function ExtraKeys(e: Event): (keys: seq<string>)
    ensures forall k :: k in keys ==> k in e.fieldNames && k !in ReservedFields
    ensures IsSubsequence(keys, e.fieldNames)
  {
    var p := (k: string) => k !in ReservedFields;
    KeepSatisfies(e.fieldNames, p);
    KeepIsSubsequence(e.fieldNames, p);
    SubsequenceMembers(Keep(e.fieldNames, p), e.fieldNames);
    Keep(e.fieldNames, p)
  }

  /** `extraKeys` holds exactly the event's field names that are not reserved,
      each as often as the event has it, in the event's own order. */
  lemma ExtraKeysSpec(e: Event)
    ensures forall k :: k in ExtraKeys(e) <==> k in e.fieldNames && k !in ReservedFields
    ensures forall k :: multiset(ExtraKeys(e))[k] == if k in ReservedFields then 0 else multiset(e.fieldNames)[k]
    ensures IsSubsequence(ExtraKeys(e), e.fieldNames)
  {
    KeepCount(e.fieldNames, (k: string) => k !in ReservedFields);
    KeepIsSubsequence(e.fieldNames, (k: string) => k !in ReservedFields);
    forall k ensures k in ExtraKeys(e) <==> k in e.fieldNames && k !in ReservedFields {
      assert k in ExtraKeys(e) <==> k in multiset(ExtraKeys(e));
      assert k in e.fieldNames <==> k in multiset(e.fieldNames);
    }
  }
}
