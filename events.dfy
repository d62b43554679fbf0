/** Events, their actors and their seen marks, the event-level filters a medium
    applies (time window, expiry, seen state) and the context loader. */
module Events {

  import opened Util
  import opened EntityGraph
  import opened Subscriptions

  type EventId = int

  /** The JSON context stored with an event, treated as an opaque value. */
  type Context = map<string, string>

  /** An Event row. `time` is set at creation; `timeExpires` is optional. */
  datatype Event = Event(
    id: EventId,
    source: SourceId,
    context: Context,
    time: int,
    timeExpires: Option<int>,
    uuid: string)

  /** An EventActor row: `entity` took part in `event`. */
  datatype EventActor = EventActor(event: EventId, entity: EntityId)

  /** An EventSeen row; the table is unique on (event, medium). */
  datatype EventSeen = EventSeen(event: EventId, medium: MediumId)

  /** The ids of the entities that took part in an event, read from the actor rows. */
  function ActorIds(rows: seq<EventActor>, event: EventId): set<EntityId> {
    set a | a in rows && a.event == event :: a.entity
  }

  function IdsOf(evs: seq<Event>): set<EventId> {
    set e | e in evs :: e.id
  }

  predicate DistinctIds(evs: seq<Event>) {
    forall i, j :: 0 <= i < j < |evs| ==> evs[i].id != evs[j].id
  }

  /** The optional arguments shared by the three queries of a medium. `seen` is
      None when the caller passes neither True nor False. */
  datatype EventQuery = EventQuery(
    startTime: Option<int>,
    endTime: Option<int>,
    seen: Option<bool>,
    includeExpired: bool,
    markSeen: bool)

  /** One of the Q objects Medium.get_event_filters returns. */
  datatype EventCondition =
    | TimeAtLeast(bound: int)
    | TimeAtMost(bound: int)
    | NotExpiredAt(now: int)
    | SeenOn(medium: MediumId)
    | NotSeenOn(medium: MediumId)

  predicate Holds(c: EventCondition, e: Event, seen: set<EventSeen>) {
    match c
    case TimeAtLeast(t) => e.time >= t
    case TimeAtMost(t) => e.time <= t
    case NotExpiredAt(now) => e.timeExpires.None? || e.timeExpires.value >= now
    case SeenOn(m) => EventSeen(e.id, m) in seen
    case NotSeenOn(m) => EventSeen(e.id, m) !in seen
  }

  /** Filtering by a list of conditions admits an event that meets every one of them. */
  predicate PassesFilters(cs: seq<EventCondition>, e: Event, seen: set<EventSeen>) {
    forall c :: c in cs ==> Holds(c, e, seen)
  }

  /** Medium.get_event_filters, with the clock reading `now` as a parameter. An event
      passes exactly when it lies in the time window, has not expired (unless expired
      events are asked for), and has (seen=True) or lacks (seen=False) a seen row of
      this medium. */
  function GetEventFilters(medium: MediumId, q: EventQuery, now: int): (r: seq<EventCondition>)
    ensures forall e, seen :: PassesFilters(r, e, seen) <==>
              && (q.startTime.Some? ==> e.time >= q.startTime.value)
              && (q.endTime.Some? ==> e.time <= q.endTime.value)
              && (!q.includeExpired ==> e.timeExpires.None? || e.timeExpires.value >= now)
              && (q.seen == Some(true) ==> EventSeen(e.id, medium) in seen)
              && (q.seen == Some(false) ==> EventSeen(e.id, medium) !in seen)
  {
    var r :=
      (if q.startTime.Some? then [TimeAtLeast(q.startTime.value)] else [])
      + (if q.endTime.Some? then [TimeAtMost(q.endTime.value)] else [])
      + (if q.includeExpired then [] else [NotExpiredAt(now)])
      + (if q.seen == Some(true) then [SeenOn(medium)]
         else if q.seen == Some(false) then [NotSeenOn(medium)]
         else []);
    assert forall c :: c in r <==>
      || (q.startTime.Some? && c == TimeAtLeast(q.startTime.value))
      || (q.endTime.Some? && c == TimeAtMost(q.endTime.value))
      || (!q.includeExpired && c == NotExpiredAt(now))
      || (q.seen == Some(true) && c == SeenOn(medium))
      || (q.seen == Some(false) && c == NotSeenOn(medium));
    assert forall e, seen :: PassesFilters(r, e, seen) <==>
              && (q.startTime.Some? ==> e.time >= q.startTime.value)
              && (q.endTime.Some? ==> e.time <= q.endTime.value)
              && (!q.includeExpired ==> e.timeExpires.None? || e.timeExpires.value >= now)
              && (q.seen == Some(true) ==> EventSeen(e.id, medium) in seen)
              && (q.seen == Some(false) ==> EventSeen(e.id, medium) !in seen) by {
      forall e: Event, seen: set<EventSeen> | PassesFilters(r, e, seen)
        ensures && (q.startTime.Some? ==> e.time >= q.startTime.value)
                && (q.endTime.Some? ==> e.time <= q.endTime.value)
                && (!q.includeExpired ==> e.timeExpires.None? || e.timeExpires.value >= now)
                && (q.seen == Some(true) ==> EventSeen(e.id, medium) in seen)
                && (q.seen == Some(false) ==> EventSeen(e.id, medium) !in seen)
      {
        if q.startTime.Some? { assert Holds(TimeAtLeast(q.startTime.value), e, seen); }
        if q.endTime.Some? { assert Holds(TimeAtMost(q.endTime.value), e, seen); }
        if !q.includeExpired { assert Holds(NotExpiredAt(now), e, seen); }
        if q.seen == Some(true) { assert Holds(SeenOn(medium), e, seen); }
        if q.seen == Some(false) { assert Holds(NotSeenOn(medium), e, seen); }
      }
    }
    r
  }

  /** The events of the table that meet every condition, in table order. */
  function EventsMatching(events: seq<Event>, filters: seq<EventCondition>, seen: set<EventSeen>): seq<Event> {
    Filter(events, (e: Event) => PassesFilters(filters, e, seen))
  }

  /** The events of the table whose id is among `ids`, in table order. */
  function EventsWithIds(events: seq<Event>, ids: set<EventId>): seq<Event> {
    Filter(events, (e: Event) => e.id in ids)
  }

  /** The events get_filtered_events returns, judged against the seen rows before the call. */
  function FilteredEvents(events: seq<Event>, seen: set<EventSeen>, medium: MediumId, q: EventQuery, now: int): seq<Event> {
    EventsMatching(events, GetEventFilters(medium, q, now), seen)
  }

  /** The rows `EventQuerySet.mark_seen` hands to bulk_create, one per event. */
  function SeenRows(evs: seq<Event>, medium: MediumId): seq<EventSeen> {
    seq(|evs|, i requires 0 <= i < |evs| => EventSeen(evs[i].id, medium))
  }

  /** bulk_create succeeds when no row is already present and no row occurs twice:
      otherwise the (event, medium) uniqueness constraint rejects the insert. */
  predicate CanInsertSeen(seen: set<EventSeen>, rows: seq<EventSeen>) {
    (forall r :: r in rows ==> r !in seen) && Distinct(rows)
  }

  /** The seen rows after get_filtered_events: marks are written only for seen=False
      with mark_seen, and then for every event the filters admitted. */
  function SeenAfter(events: seq<Event>, seen: set<EventSeen>, medium: MediumId, q: EventQuery, now: int): set<EventSeen> {
    if q.seen == Some(false) && q.markSeen then
      seen + set r | r in SeenRows(FilteredEvents(events, seen, medium, q, now), medium)
    else seen
  }

  /** What get_filtered_events returns and leaves behind: the events that pass the
      filters, and new seen rows of this medium for exactly those events, only when
      seen=False and mark_seen are both given. */
  lemma SeenAfterMeaning(events: seq<Event>, seen: set<EventSeen>, medium: MediumId, q: EventQuery, now: int)
    ensures forall e :: e in FilteredEvents(events, seen, medium, q, now) <==>
              e in events && PassesFilters(GetEventFilters(medium, q, now), e, seen)
    ensures forall r :: r in SeenAfter(events, seen, medium, q, now) <==>
              || r in seen
              || (&& q.seen == Some(false) && q.markSeen && r.medium == medium
                  && r.event in IdsOf(FilteredEvents(events, seen, medium, q, now)))
  {
    var f := FilteredEvents(events, seen, medium, q, now);
    var rows := SeenRows(f, medium);
    forall r ensures r in rows <==> r.medium == medium && r.event in IdsOf(f) {
      if r in rows {
        var i :| 0 <= i < |rows| && rows[i] == r;
        assert f[i] in f;
      }
      if r.medium == medium && r.event in IdsOf(f) {
        var e :| e in f && e.id == r.event;
        var i :| 0 <= i < |f| && f[i] == e;
        assert rows[i] == r;
      }
    }
  }

  lemma {:induction false} FilterKeepsDistinctIds(s: seq<Event>, p: Event -> bool)
    requires DistinctIds(s)
    ensures DistinctIds(Filter(s, p))
    decreases |s|
  {
    if |s| > 0 {
      var s' := s[..|s| - 1];
      var last := s[|s| - 1];
      assert DistinctIds(s');
      FilterKeepsDistinctIds(s', p);
      assert forall e :: e in Filter(s', p) ==> e in s' && e.id != last.id by {
        forall e | e in Filter(s', p) ensures e.id != last.id {
          var i :| 0 <= i < |s'| && s'[i] == e;
        }
      }
    }
  }

  /** The rows of the snapshot can always be inserted: each event was unseen, and the
      event table has no two events with one id. */
  lemma SnapshotCanBeMarked(events: seq<Event>, seen: set<EventSeen>, medium: MediumId, q: EventQuery, now: int)
    requires DistinctIds(events) && q.seen == Some(false)
    ensures CanInsertSeen(seen, SeenRows(FilteredEvents(events, seen, medium, q, now), medium))
  {
    var f := FilteredEvents(events, seen, medium, q, now);
    var rows := SeenRows(f, medium);
    FilterKeepsDistinctIds(events, (e: Event) => PassesFilters(GetEventFilters(medium, q, now), e, seen));
    forall r | r in rows ensures r !in seen {
      var i :| 0 <= i < |rows| && rows[i] == r;
      assert f[i] in f;
    }
  }

  lemma {:induction false} EventsWithIdsCongruent(s: seq<Event>, a: set<EventId>, b: set<EventId>)
    requires forall e :: e in s ==> (e.id in a <==> e.id in b)
    ensures EventsWithIds(s, a) == EventsWithIds(s, b)
    decreases |s|
  {
    if |s| > 0 {
      assert forall e :: e in s[..|s| - 1] ==> e in s;
      EventsWithIdsCongruent(s[..|s| - 1], a, b);
    }
  }

  /** Re-querying the event table by the ids of a filtered snapshot gives back the
      snapshot itself, in the same order (ids are unique). */
  lemma {:induction false} RequeryById(s: seq<Event>, p: Event -> bool)
    requires DistinctIds(s)
    ensures EventsWithIds(s, IdsOf(Filter(s, p))) == Filter(s, p)
    decreases |s|
  {
    if |s| > 0 {
      var s' := s[..|s| - 1];
      var x := s[|s| - 1];
      assert DistinctIds(s');
      var ids := IdsOf(Filter(s, p));
      var ids' := IdsOf(Filter(s', p));
      assert Filter(s, p) == Filter(s', p) + (if p(x) then [x] else []);
      assert forall e :: e in s' ==> e.id != x.id by {
        forall e | e in s' ensures e.id != x.id {
          var i :| 0 <= i < |s'| && s'[i] == e;
        }
      }
      assert ids == ids' + (if p(x) then {x.id} else {});
      EventsWithIdsCongruent(s', ids, ids');
      RequeryById(s', p);
      assert x.id in ids <==> p(x);
    }
  }

  /** The events get_filtered_events re-queries by id are those of the snapshot. */
  lemma RequerySnapshot(events: seq<Event>, seen: set<EventSeen>, medium: MediumId, q: EventQuery, now: int)
    requires DistinctIds(events)
    ensures EventsWithIds(events, IdsOf(FilteredEvents(events, seen, medium, q, now))) == FilteredEvents(events, seen, medium, q, now)
  {
    RequeryById(events, (e: Event) => PassesFilters(GetEventFilters(medium, q, now), e, seen));
  }

  /** The snapshot hazard is handled: once the events of an unseen query are marked,
      the same unseen query admits none of its events again, hence returns nothing. */
  lemma MarkedUnseenQueryIsEmpty(events: seq<Event>, seen: set<EventSeen>, medium: MediumId, q: EventQuery, now: int)
    requires q.seen == Some(false) && q.markSeen
    ensures FilteredEvents(events, SeenAfter(events, seen, medium, q, now), medium, q, now) == []
  {
    var after := SeenAfter(events, seen, medium, q, now);
    SeenAfterMeaning(events, seen, medium, q, now);
    assert forall e :: e in events ==> !PassesFilters(GetEventFilters(medium, q, now), e, after);
    FilterNone(events, (e: Event) => PassesFilters(GetEventFilters(medium, q, now), e, after));
  }

  /** With seen=False and mark_seen, every event get_filtered_events returns is marked
      seen on this medium afterwards. */
  lemma FilteredEventsMarked(events: seq<Event>, seen: set<EventSeen>, medium: MediumId, q: EventQuery, now: int)
    requires q.seen == Some(false) && q.markSeen
    ensures forall e :: e in FilteredEvents(events, seen, medium, q, now) ==>
              EventSeen(e.id, medium) in SeenAfter(events, seen, medium, q, now)
  {
    SeenAfterMeaning(events, seen, medium, q, now);
    forall e | e in FilteredEvents(events, seen, medium, q, now)
      ensures EventSeen(e.id, medium) in SeenAfter(events, seen, medium, q, now)
    {
      assert e.id in IdsOf(FilteredEvents(events, seen, medium, q, now));
    }
  }

  /** Source.get_context, with the source's context loader already resolved: no loader
      gives the stored context back unchanged, otherwise the loader's result. */
  function GetContext(loader: Option<Context -> Context>, context: Context): (r: Context)
    ensures loader.None? ==> r == context
  {
    match loader
    case Some(load) => load(context)
    case None => context
  }

  /** Event.get_context: the stored context run through the loader of the event's
      source; `loaders` holds the sources whose context_loader is set. */
  function EventContext(loaders: map<SourceId, Context -> Context>, e: Event): (r: Context)
    ensures e.source !in loaders ==> r == e.context
    ensures e.source in loaders ==> r == loaders[e.source](e.context)
  {
    GetContext(if e.source in loaders then Some(loaders[e.source]) else None, e.context)
  }
}
