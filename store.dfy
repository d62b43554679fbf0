/** The database the framework reads and writes: the entity tables, the
    subscription and unsubscription tables, and the event, actor and seen tables.
    A medium's three queries, get_filtered_events and EventQuerySet.mark_seen are
    methods on it that take the medium as a parameter; create_event is the
    EventManager's. Each `@transaction.atomic` method restores what it wrote when
    it raises. */
module Store {

  import opened Util
  import opened EntityGraph
  import opened Subscriptions
  import opened Events
  import opened Routing

  /** What EventManager.create_event gives back: the new event, None for an
      ignored duplicate, or the exception of the uuid uniqueness constraint. */
  datatype CreateResult = Created(event: Event) | Ignored | Failed(error: Error)

  /** Some event of the table already has this uuid. */
  predicate UuidTaken(events: seq<Event>, uuid: string) {
    exists e :: e in events && e.uuid == uuid
  }

  /** The EventActor rows create_event bulk-creates, one per actor, in order. */
  function ActorRows(event: EventId, actors: seq<EntityId>): (r: seq<EventActor>)
    ensures |r| == |actors|
    ensures forall i :: 0 <= i < |r| ==> r[i].event == event && r[i].entity == actors[i]
  {
    seq(|actors|, i requires 0 <= i < |actors| => EventActor(event, actors[i]))
  }

  /** The new event gets a fresh id, and its actors are exactly the ones passed. */
  lemma ActorRowsMeaning(rows: seq<EventActor>, event: EventId, actors: seq<EntityId>)
    requires forall a :: a in rows ==> a.event != event
    ensures ActorIds(rows + ActorRows(event, actors), event) == set a | a in actors
  {
    var all := rows + ActorRows(event, actors);
    forall x ensures x in ActorIds(all, event) <==> x in actors {
      if x in ActorIds(all, event) {
        var a :| a in all && a.event == event && a.entity == x;
        var i :| 0 <= i < |all| && all[i] == a;
        assert i >= |rows|;
        assert actors[i - |rows|] == x;
      }
      if x in actors {
        var i :| 0 <= i < |actors| && actors[i] == x;
        assert all[|rows| + i] == EventActor(event, x);
      }
    }
  }

  class Database {
    var graph: Graph
    var subscriptions: seq<Subscription>
    var unsubscriptions: seq<Unsubscription>
    var events: seq<Event>
    var eventActors: seq<EventActor>
    var seen: set<EventSeen>
    /** The id the next inserted event receives. */
    var nextEventId: EventId

    /** The primary key and the unique uuid column of the event table hold, every
        event and actor row carries an id below the next one to be handed out, and
        the entity tables are consistent. */
    ghost predicate Valid()
      reads this
    {
      && graph.Valid()
      && DistinctIds(events)
      && (forall e :: e in events ==> e.id < nextEventId)
      && (forall a :: a in eventActors ==> a.event < nextEventId)
      && (forall i, j :: 0 <= i < j < |events| ==> events[i].uuid != events[j].uuid)
    }

    constructor (g: Graph, subs: seq<Subscription>, unsubs: seq<Unsubscription>)
      requires g.Valid()
      ensures Valid()
      ensures graph == g && subscriptions == subs && unsubscriptions == unsubs
      ensures events == [] && eventActors == [] && seen == {}
    {
      graph := g;
      subscriptions := subs;
      unsubscriptions := unsubs;
      events := [];
      eventActors := [];
      seen := {};
      nextEventId := 0;
    }

    /** EventQuerySet.mark_seen: one bulk insert of a seen row per event. The
        (event, medium) uniqueness constraint rejects the whole insert when a row
        exists already or occurs twice. */
    method MarkSeen(medium: MediumId, evs: seq<Event>) returns (r: Result<()>)
      modifies this`seen
      ensures r.Ok? <==> CanInsertSeen(old(seen), SeenRows(evs, medium))
      ensures r.Ok? ==> seen == old(seen) + set x | x in SeenRows(evs, medium)
      ensures r.Err? ==> r.error == UniqueViolation && seen == old(seen)
    {
      var rows := SeenRows(evs, medium);
      if CanInsertSeen(seen, rows) {
        seen := seen + set x | x in rows;
        r := Ok(());
      } else {
        r := Err(UniqueViolation);
      }
    }

    /** EventManager.mark_seen: mark every event of the table. */
    method MarkAllSeen(medium: MediumId) returns (r: Result<()>)
      modifies this`seen
      ensures r.Ok? <==> CanInsertSeen(old(seen), SeenRows(events, medium))
      ensures r.Ok? ==> seen == old(seen) + set x | x in SeenRows(events, medium)
      ensures r.Err? ==> r.error == UniqueViolation && seen == old(seen)
    {
      r := MarkSeen(medium, events);
    }

    /** Medium.get_filtered_events: the events that pass the medium's filters, judged
        against the seen rows before the call; for seen=False with mark_seen the
        snapshot is re-queried by id and marked, and marking it cannot fail. */
    method GetFilteredEvents(medium: MediumId, q: EventQuery, now: int) returns (r: seq<Event>)
      requires Valid()
      modifies this`seen
      ensures r == FilteredEvents(events, old(seen), medium, q, now)
      ensures seen == SeenAfter(events, old(seen), medium, q, now)
    {
      var filters := GetEventFilters(medium, q, now);
      r := EventsMatching(events, filters, seen);
      if q.seen == Some(false) && q.markSeen {
        var ids := IdsOf(r);
        RequerySnapshot(events, seen, medium, q, now);
        SnapshotCanBeMarked(events, seen, medium, q, now);
        r := EventsWithIds(events, ids);
        var marked := MarkSeen(medium, r);
        assert marked.Ok?;
      }
    }

    /** Medium.unsubscriptions, read from the table. */
    method MediumUnsubscriptions(medium: MediumId) returns (m: map<SourceId, seq<EntityId>>)
      ensures forall source, e :: e in Lookup(m, source) <==> Unsubscription(e, medium, source) in unsubscriptions
      ensures m == UnsubscribedFor(unsubscriptions, medium)
    {
      m := Unsubscriptions(unsubscriptions, medium);
    }

    /** The loop of Medium.events: one Q object per subscription, in order. */
    method SubscriptionQObjects(subs: seq<Subscription>) returns (qs: seq<Q>)
      ensures qs == SubscriptionQs(graph, subs)
    {
      qs := [];
      for i := 0 to |subs|
        invariant qs == SubscriptionQs(graph, subs[..i])
      {
        var sub := subs[i];
        if sub.onlyFollowing {
          var entities := SubscribedEntities(graph, sub);
          var followedBy := FollowedBy(graph, entities);
          qs := qs + [SourceAndActorIn(sub.source, followedBy)];
        } else {
          qs := qs + [SourceIs(sub.source)];
        }
      }
      assert subs[..|subs|] == subs;
    }

    /** The loop of Medium.entity_events: one Q object per subscription, in order. */
    method EntitySubscriptionQObjects(entity: EntityId, subs: seq<Subscription>) returns (qs: seq<Q>)
      ensures qs == EntitySubscriptionQs(graph, entity, subs)
    {
      qs := [];
      for i := 0 to |subs|
        invariant qs == EntitySubscriptionQs(graph, entity, subs[..i])
      {
        var sub := subs[i];
        if sub.onlyFollowing {
          var followedBy := FollowedBy(graph, {entity});
          qs := qs + [SourceAndActorIn(sub.source, followedBy)];
        } else {
          qs := qs + [SourceIs(sub.source)];
        }
      }
      assert subs[..|subs|] == subs;
    }

    /** Medium.events. With no subscription for the medium the reduce raises, and the
        transaction undoes the seen rows get_filtered_events wrote. */
    method MediumEvents(medium: MediumId, q: EventQuery, now: int) returns (r: Result<seq<Event>>)
      requires Valid()
      modifies this`seen
      ensures r == EventsQuery(graph, subscriptions, eventActors, medium, FilteredEvents(events, old(seen), medium, q, now))
      ensures r.Ok? ==> seen == SeenAfter(events, old(seen), medium, q, now)
      ensures r.Err? ==> seen == old(seen)
    {
      var saved := seen;
      var filtered := GetFilteredEvents(medium, q, now);
      var subs := SubscriptionsFor(subscriptions, medium);
      var qs := SubscriptionQObjects(subs);
      var reduced := Reduce(qs);
      if reduced.Err? {
        seen := saved;
        r := Err(reduced.error);
      } else {
        r := Ok(EventsPassing(filtered, reduced.value, eventActors));
      }
    }

    /** Medium.entity_events, for an entity of the entity table. */
    method EntityEvents(medium: MediumId, entity: EntityId, q: EventQuery, now: int) returns (r: Result<seq<Event>>)
      requires Valid() && entity in graph.kind
      modifies this`seen
      ensures r == EntityEventsQuery(graph, subscriptions, unsubscriptions, eventActors, medium, entity,
                                     FilteredEvents(events, old(seen), medium, q, now))
      ensures r.Ok? ==> seen == SeenAfter(events, old(seen), medium, q, now)
      ensures r.Err? ==> seen == old(seen)
    {
      var saved := seen;
      var filtered := GetFilteredEvents(medium, q, now);
      var subs := SubscriptionsFor(subscriptions, medium);
      subs := SubsetSubscriptions(graph, subs, Some(entity));
      var qs := EntitySubscriptionQObjects(entity, subs);
      var reduced := Reduce(qs);
      if reduced.Err? {
        seen := saved;
        r := Err(reduced.error);
      } else {
        var unsubscribed := MediumUnsubscriptions(medium);
        r := Ok(StillSubscribed(EventsPassing(filtered, reduced.value, eventActors), unsubscribed, entity));
      }
    }

    /** Medium.events_targets. */
    method EventsTargets(medium: MediumId, entityKind: Option<KindId>, q: EventQuery, now: int)
      returns (r: seq<(Event, seq<EntityId>)>)
      requires Valid()
      modifies this`seen
      ensures r == EventsTargetsQuery(graph, subscriptions, unsubscriptions, eventActors, medium, entityKind,
                                      FilteredEvents(events, old(seen), medium, q, now))
      ensures seen == SeenAfter(events, old(seen), medium, q, now)
    {
      var filtered := GetFilteredEvents(medium, q, now);
      var subs := SubscriptionsFor(subscriptions, medium);
      var unsubscribed := MediumUnsubscriptions(medium);
      r := CollectEventPairs(graph, subs, unsubscribed, eventActors, entityKind, filtered);
    }

    /** EventManager.create_event. The uuid defaults to the empty string; `time` is
        the creation time `now`; `actors` of None or [] creates no actor rows. */
    method CreateEvent(
      source: SourceId, context: Context, actors: Option<seq<EntityId>>,
      timeExpires: Option<int>, uuid: Option<string>, ignoreDuplicates: bool, now: int)
      returns (r: CreateResult)
      requires Valid()
      modifies this`events, this`eventActors, this`nextEventId
      ensures Valid()
      ensures UuidTaken(old(events), uuid.GetOr("")) ==>
                && r == (if ignoreDuplicates then Ignored else Failed(UniqueViolation))
                && events == old(events) && eventActors == old(eventActors) && nextEventId == old(nextEventId)
      ensures !UuidTaken(old(events), uuid.GetOr("")) ==>
                && r == Created(Event(old(nextEventId), source, context, now, timeExpires, uuid.GetOr("")))
                && events == old(events) + [r.event]
                && eventActors == old(eventActors) + ActorRows(r.event.id, actors.GetOr([]))
                && nextEventId == old(nextEventId) + 1
      ensures r.Created? ==> ActorIds(eventActors, r.event.id) == set a | a in actors.GetOr([])
    {
      var u := uuid.GetOr("");
      if ignoreDuplicates && UuidTaken(events, u) {
        return Ignored;
      }
      if UuidTaken(events, u) {
        return Failed(UniqueViolation);
      }
      var event := Event(nextEventId, source, context, now, timeExpires, u);
      ActorRowsMeaning(eventActors, event.id, actors.GetOr([]));
      events := events + [event];
      nextEventId := nextEventId + 1;
      eventActors := eventActors + ActorRows(event.id, actors.GetOr([]));
      r := Created(event);
    }
  }
}
