/** The routing logic of a medium: the Q objects its queries OR together, the
    result of `events` and `entity_events` once the events have been filtered, and
    the (event, targets) pairs of `events_targets`. */
module Routing {

  import opened Util
  import opened EntityGraph
  import opened Subscriptions
  import opened Events

  /** The subscription Q objects: a source test, a source test together with an
      actor test against a set of entities, and the disjunction of two of them. */
  datatype Q =
    | SourceIs(source: SourceId)
    | SourceAndActorIn(source: SourceId, entities: set<EntityId>)
    | Or(left: Q, right: Q)

  /** Whether an event with the given actors satisfies a Q object. */
  predicate Matches(q: Q, e: Event, actors: set<EntityId>) {
    match q
    case SourceIs(s) => e.source == s
    case SourceAndActorIn(s, es) => e.source == s && actors * es != {}
    case Or(l, r) => Matches(l, e, actors) || Matches(r, e, actors)
  }

  /** Or-reducing the Q objects with no initial value: it raises on an empty list, and
      otherwise matches an event exactly when one of the Q objects does. */
  function Reduce(qs: seq<Q>): (r: Result<Q>)
    ensures r.Err? <==> qs == []
    ensures r.Err? ==> r.error == EmptySubscriptionReduce
    ensures r.Ok? ==> forall e, actors :: Matches(r.value, e, actors) <==> exists q :: q in qs && Matches(q, e, actors)
    decreases |qs|
  {
    if |qs| == 0 then Err(EmptySubscriptionReduce)
    else if |qs| == 1 then Ok(qs[0])
    else
      var init := qs[..|qs| - 1];
      assert forall q :: q in qs <==> q in init || q == qs[|qs| - 1] by {
        assert qs == init + [qs[|qs| - 1]];
      }
      var last := qs[|qs| - 1];
      var rest := Reduce(init);
      assert rest.Ok?;
      var q := Or(rest.value, last);
      assert forall e, actors :: Matches(q, e, actors) <==> exists q' :: q' in qs && Matches(q', e, actors) by {
        forall e: Event, actors: set<EntityId>
          ensures Matches(q, e, actors) <==> exists q' :: q' in qs && Matches(q', e, actors)
        {
          assert Matches(q, e, actors) <==> Matches(rest.value, e, actors) || Matches(last, e, actors);
          assert last in qs;
        }
      }
      Ok(q)
  }

  /** The Q object the loop of Medium.events builds for one subscription. */
  function SubscriptionQ(g: Graph, sub: Subscription): Q {
    if sub.onlyFollowing then SourceAndActorIn(sub.source, FollowedBy(g, SubscribedEntities(g, sub)))
    else SourceIs(sub.source)
  }

  /** The Q object the loop of Medium.entity_events builds for one subscription: the
      followed set is that of the entity, not of the subscription. */
  function EntitySubscriptionQ(g: Graph, entity: EntityId, sub: Subscription): Q {
    if sub.onlyFollowing then SourceAndActorIn(sub.source, FollowedBy(g, {entity}))
    else SourceIs(sub.source)
  }

  function SubscriptionQs(g: Graph, subs: seq<Subscription>): seq<Q> {
    seq(|subs|, i requires 0 <= i < |subs| => SubscriptionQ(g, subs[i]))
  }

  function EntitySubscriptionQs(g: Graph, entity: EntityId, subs: seq<Subscription>): seq<Q> {
    seq(|subs|, i requires 0 <= i < |subs| => EntitySubscriptionQ(g, entity, subs[i]))
  }

  /** The events that satisfy a Q object, in their order. */
  function EventsPassing(events: seq<Event>, q: Q, actors: seq<EventActor>): seq<Event> {
    Filter(events, (e: Event) => Matches(q, e, ActorIds(actors, e.id)))
  }

  /** Medium.events after get_filtered_events has produced `filtered`. */
  function EventsQuery(g: Graph, subs: seq<Subscription>, actors: seq<EventActor>, medium: MediumId, filtered: seq<Event>): Result<seq<Event>> {
    var reduced := Reduce(SubscriptionQs(g, SubscriptionsFor(subs, medium)));
    if reduced.Err? then Err(reduced.error)
    else Ok(EventsPassing(filtered, reduced.value, actors))
  }

  /** Medium.entity_events after get_filtered_events has produced `filtered`. */
  function EntityEventsQuery(
    g: Graph, subs: seq<Subscription>, unsubs: seq<Unsubscription>, actors: seq<EventActor>,
    medium: MediumId, entity: EntityId, filtered: seq<Event>): Result<seq<Event>>
    requires entity in g.kind
  {
    var mine := SubsetSubscriptions(g, SubscriptionsFor(subs, medium), Some(entity));
    var reduced := Reduce(EntitySubscriptionQs(g, entity, mine));
    var unsubscribed := UnsubscribedFor(unsubs, medium);
    if reduced.Err? then Err(reduced.error)
    else Ok(StillSubscribed(EventsPassing(filtered, reduced.value, actors), unsubscribed, entity))
  }

  /** The closing list comprehension of Medium.entity_events: the events whose source
      the entity has not unsubscribed from. */
  function StillSubscribed(events: seq<Event>, unsubscribed: map<SourceId, seq<EntityId>>, entity: EntityId): seq<Event> {
    Filter(events, (e: Event) => FilterSourceTargetsByUnsubscription(unsubscribed, e.source, [entity]) != [])
  }

  /** The subscription Q objects match an event exactly when the event has the
      subscription's source and, for only_following, an actor among the entities
      followed by those subscribed. */
  lemma SubscriptionQsMatch(g: Graph, subs: seq<Subscription>, e: Event, actors: set<EntityId>)
    ensures (exists q :: q in SubscriptionQs(g, subs) && Matches(q, e, actors)) <==>
            exists s :: s in subs && e.source == s.source &&
              (s.onlyFollowing ==> exists a :: a in actors && a in FollowedBy(g, SubscribedEntities(g, s)))
  {
    var qs := SubscriptionQs(g, subs);
    if exists q :: q in qs && Matches(q, e, actors) {
      var q :| q in qs && Matches(q, e, actors);
      var i :| 0 <= i < |qs| && qs[i] == q;
      var s := subs[i];
      if s.onlyFollowing {
        var a := Pick(actors * FollowedBy(g, SubscribedEntities(g, s)));
      }
    }
    if exists s :: s in subs && e.source == s.source &&
         (s.onlyFollowing ==> exists a :: a in actors && a in FollowedBy(g, SubscribedEntities(g, s))) {
      var s :| s in subs && e.source == s.source &&
         (s.onlyFollowing ==> exists a :: a in actors && a in FollowedBy(g, SubscribedEntities(g, s)));
      var i :| 0 <= i < |subs| && subs[i] == s;
      if s.onlyFollowing {
        var a :| a in actors && a in FollowedBy(g, SubscribedEntities(g, s));
        assert a in actors * FollowedBy(g, SubscribedEntities(g, s));
      }
      assert Matches(qs[i], e, actors);
    }
  }

  /** Medium.events raises exactly when the medium has no subscription; otherwise it
      returns the filtered events of which some subscription of the medium
      has the source and, for only_following, an actor among the entities followed by
      its subscribed entities. */
  lemma EventsQueryMeaning(g: Graph, subs: seq<Subscription>, actors: seq<EventActor>, medium: MediumId, filtered: seq<Event>)
    ensures EventsQuery(g, subs, actors, medium, filtered).Err? <==> forall s :: s in subs ==> s.medium != medium
    ensures EventsQuery(g, subs, actors, medium, filtered).Err? ==>
              EventsQuery(g, subs, actors, medium, filtered).error == EmptySubscriptionReduce
    ensures EventsQuery(g, subs, actors, medium, filtered).Ok? ==>
              forall e :: e in EventsQuery(g, subs, actors, medium, filtered).value <==>
                && e in filtered
                && exists s :: && s in subs && s.medium == medium && e.source == s.source
                               && (s.onlyFollowing ==>
                                     exists a :: a in ActorIds(actors, e.id) && a in FollowedBy(g, SubscribedEntities(g, s)))
  {
    var mine := SubscriptionsFor(subs, medium);
    var qs := SubscriptionQs(g, mine);
    if mine == [] {
      assert forall s :: s in subs ==> s.medium != medium;
    } else {
      assert mine[0] in mine;
    }
    var r := EventsQuery(g, subs, actors, medium, filtered);
    if r.Ok? {
      forall e ensures e in r.value <==>
                && e in filtered
                && exists s :: && s in subs && s.medium == medium && e.source == s.source
                               && (s.onlyFollowing ==>
                                     exists a :: a in ActorIds(actors, e.id) && a in FollowedBy(g, SubscribedEntities(g, s))) {
        SubscriptionQsMatch(g, mine, e, ActorIds(actors, e.id));
      }
    }
  }

  lemma EntitySubscriptionQsMatch(g: Graph, entity: EntityId, subs: seq<Subscription>, e: Event, actors: set<EntityId>)
    ensures (exists q :: q in EntitySubscriptionQs(g, entity, subs) && Matches(q, e, actors)) <==>
            exists s :: s in subs && e.source == s.source &&
              (s.onlyFollowing ==> exists a :: a in actors && a in FollowedBy(g, {entity}))
  {
    var qs := EntitySubscriptionQs(g, entity, subs);
    if exists q :: q in qs && Matches(q, e, actors) {
      var q :| q in qs && Matches(q, e, actors);
      var i :| 0 <= i < |qs| && qs[i] == q;
      var s := subs[i];
      if s.onlyFollowing {
        var a := Pick(actors * FollowedBy(g, {entity}));
      }
    }
    if exists s :: s in subs && e.source == s.source &&
         (s.onlyFollowing ==> exists a :: a in actors && a in FollowedBy(g, {entity})) {
      var s :| s in subs && e.source == s.source &&
         (s.onlyFollowing ==> exists a :: a in actors && a in FollowedBy(g, {entity}));
      var i :| 0 <= i < |subs| && subs[i] == s;
      if s.onlyFollowing {
        var a :| a in actors && a in FollowedBy(g, {entity});
        assert a in actors * FollowedBy(g, {entity});
      }
      assert Matches(qs[i], e, actors);
    }
  }

  /** Medium.entity_events raises exactly when none of the medium's subscriptions
      concerns the entity; otherwise it returns the filtered events that some such
      subscription admits (for only_following: an actor the entity follows) and whose
      source the entity has not unsubscribed from on this medium. */
  lemma EntityEventsQueryMeaning(
    g: Graph, subs: seq<Subscription>, unsubs: seq<Unsubscription>, actors: seq<EventActor>,
    medium: MediumId, entity: EntityId, filtered: seq<Event>)
    requires entity in g.kind
    ensures EntityEventsQuery(g, subs, unsubs, actors, medium, entity, filtered).Err? <==>
              forall s :: s in subs && s.medium == medium ==> entity !in SubscribedEntities(g, s)
    ensures EntityEventsQuery(g, subs, unsubs, actors, medium, entity, filtered).Ok? ==>
              forall e :: e in EntityEventsQuery(g, subs, unsubs, actors, medium, entity, filtered).value <==>
                && e in filtered
                && Unsubscription(entity, medium, e.source) !in unsubs
                && exists s :: && s in subs && s.medium == medium && entity in SubscribedEntities(g, s)
                               && e.source == s.source
                               && (s.onlyFollowing ==> exists a :: a in ActorIds(actors, e.id) && a in FollowedBy(g, {entity}))
  {
    var mine := SubsetSubscriptions(g, SubscriptionsFor(subs, medium), Some(entity));
    EntitySubscriptionsOf(g, subs, medium, entity);
    if mine != [] {
      assert mine[0] in mine;
    }
    var r := EntityEventsQuery(g, subs, unsubs, actors, medium, entity, filtered);
    if r.Ok? {
      forall e ensures e in r.value <==>
                && e in filtered
                && Unsubscription(entity, medium, e.source) !in unsubs
                && exists s :: && s in subs && s.medium == medium && entity in SubscribedEntities(g, s)
                               && e.source == s.source
                               && (s.onlyFollowing ==> exists a :: a in ActorIds(actors, e.id) && a in FollowedBy(g, {entity})) {
        EntityEventMember(g, subs, unsubs, actors, medium, entity, filtered, e);
      }
    }
  }

  lemma EntityEventMember(
    g: Graph, subs: seq<Subscription>, unsubs: seq<Unsubscription>, actors: seq<EventActor>,
    medium: MediumId, entity: EntityId, filtered: seq<Event>, e: Event)
    requires entity in g.kind
    requires EntityEventsQuery(g, subs, unsubs, actors, medium, entity, filtered).Ok?
    ensures e in EntityEventsQuery(g, subs, unsubs, actors, medium, entity, filtered).value <==>
              && e in filtered
              && Unsubscription(entity, medium, e.source) !in unsubs
              && exists s :: && s in subs && s.medium == medium && entity in SubscribedEntities(g, s)
                             && e.source == s.source
                             && (s.onlyFollowing ==> exists a :: a in ActorIds(actors, e.id) && a in FollowedBy(g, {entity}))
  {
    var mine := SubsetSubscriptions(g, SubscriptionsFor(subs, medium), Some(entity));
    EntitySubscriptionsOf(g, subs, medium, entity);
    EntitySubscriptionQsMatch(g, entity, mine, e, ActorIds(actors, e.id));
    EntityNotUnsubscribed(unsubs, medium, entity, e);
  }

  /** The subscriptions entity_events works with are the medium's subscriptions that
      concern the entity. */
  lemma EntitySubscriptionsOf(g: Graph, subs: seq<Subscription>, medium: MediumId, entity: EntityId)
    requires entity in g.kind
    ensures forall s :: s in SubsetSubscriptions(g, SubscriptionsFor(subs, medium), Some(entity)) <==>
              s in subs && s.medium == medium && entity in SubscribedEntities(g, s)
  {
    forall s: Subscription {
      SubscribedEntitiesMeaning(g, s);
    }
  }

  /** The closing filter of entity_events keeps an event exactly when the entity has
      not unsubscribed from its source on the medium. */
  lemma EntityNotUnsubscribed(unsubs: seq<Unsubscription>, medium: MediumId, entity: EntityId, e: Event)
    ensures FilterSourceTargetsByUnsubscription(UnsubscribedFor(unsubs, medium), e.source, [entity]) != [] <==>
              Unsubscription(entity, medium, e.source) !in unsubs
  {
    var kept := FilterSourceTargetsByUnsubscription(UnsubscribedFor(unsubs, medium), e.source, [entity]);
    assert kept != [] <==> entity in kept;
  }

  // ---- events_targets ----

  /** A set of entities listed from the entity table, in table order. */
  function ListEntities(g: Graph, es: set<EntityId>): seq<EntityId> {
    Filter(g.entities, (t: EntityId) => t in es)
  }

  /** The targets one subscription contributes to an event: its subscribed
      entities, for only_following cut down to the followers of the event's actors. */
  function SubscriptionTargets(g: Graph, sub: Subscription, actorIds: set<EntityId>): seq<EntityId> {
    if sub.onlyFollowing then ListEntities(g, SubscribedEntities(g, sub) * FollowersOf(g, actorIds))
    else ListEntities(g, SubscribedEntities(g, sub))
  }

  /** The `targets` list of events_targets before unsubscriptions and kinds are
      applied: the contributions of the subscriptions with the event's source,
      concatenated in subscription order, duplicates kept. */
  function RawTargets(g: Graph, subs: seq<Subscription>, e: Event, actorIds: set<EntityId>): seq<EntityId>
    decreases |subs|
  {
    if |subs| == 0 then []
    else
      var sub := subs[|subs| - 1];
      RawTargets(g, subs[..|subs| - 1], e, actorIds)
        + (if e.source == sub.source then SubscriptionTargets(g, sub, actorIds) else [])
  }

  /** When a kind is requested, only the targets of that kind remain. */
  function OfKind(g: Graph, targets: seq<EntityId>, entityKind: Option<KindId>): (r: seq<EntityId>)
    ensures forall t :: t in r <==> t in targets && (entityKind.Some? ==> t in g.kind && g.kind[t] == entityKind.value)
  {
    match entityKind
    case None => targets
    case Some(k) => Filter(targets, (t: EntityId) => t in g.kind && g.kind[t] == k)
  }

  /** The kind filter drops every copy of a target of another kind and keeps every
      copy of a target of the requested kind. */
  lemma OfKindCount(g: Graph, targets: seq<EntityId>, entityKind: Option<KindId>, t: EntityId)
    ensures multiset(OfKind(g, targets, entityKind))[t] ==
              if entityKind.Some? && !(t in g.kind && g.kind[t] == entityKind.value) then 0 else multiset(targets)[t]
  {
    if entityKind.Some? {
      var k := entityKind.value;
      FilterMultiplicity(targets, (t: EntityId) => t in g.kind && g.kind[t] == k, t);
    }
  }

  /** The final target list events_targets pairs with an event. */
  function FinalTargets(
    g: Graph, subs: seq<Subscription>, unsubscribed: map<SourceId, seq<EntityId>>,
    entityKind: Option<KindId>, e: Event, actorIds: set<EntityId>): seq<EntityId>
  {
    OfKind(g, FilterSourceTargetsByUnsubscription(unsubscribed, e.source, RawTargets(g, subs, e, actorIds)), entityKind)
  }

  /** The `event_pairs` list: one pair per event, in event order, for the events
      whose final target list is not empty. */
  function EventPairs(
    g: Graph, subs: seq<Subscription>, unsubscribed: map<SourceId, seq<EntityId>>,
    actors: seq<EventActor>, entityKind: Option<KindId>, events: seq<Event>): seq<(Event, seq<EntityId>)>
    decreases |events|
  {
    if |events| == 0 then []
    else
      var e := events[|events| - 1];
      var targets := FinalTargets(g, subs, unsubscribed, entityKind, e, ActorIds(actors, e.id));
      EventPairs(g, subs, unsubscribed, actors, entityKind, events[..|events| - 1])
        + (if targets != [] then [(e, targets)] else [])
  }

  /** Medium.events_targets after get_filtered_events has produced `filtered`. */
  function EventsTargetsQuery(
    g: Graph, subs: seq<Subscription>, unsubs: seq<Unsubscription>, actors: seq<EventActor>,
    medium: MediumId, entityKind: Option<KindId>, filtered: seq<Event>): seq<(Event, seq<EntityId>)>
  {
    EventPairs(g, SubscriptionsFor(subs, medium), UnsubscribedFor(unsubs, medium), actors, entityKind, filtered)
  }

  /** The inner loop of Medium.events_targets: the targets every subscription with the
      event's source contributes, concatenated in subscription order. */
  method CollectTargets(g: Graph, subs: seq<Subscription>, event: Event, actorIds: set<EntityId>)
    returns (targets: seq<EntityId>)
    ensures targets == RawTargets(g, subs, event, actorIds)
  {
    targets := [];
    for j := 0 to |subs|
      invariant targets == RawTargets(g, subs[..j], event, actorIds)
    {
      var sub := subs[j];
      assert subs[..j + 1][..j] == subs[..j];
      if event.source == sub.source {
        var subscribed := SubscribedEntities(g, sub);
        var subscriptionTargets;
        if sub.onlyFollowing {
          var potentialTargets := FollowersOf(g, actorIds);
          subscriptionTargets := ListEntities(g, subscribed * potentialTargets);
        } else {
          subscriptionTargets := ListEntities(g, subscribed);
        }
        targets := targets + subscriptionTargets;
      }
    }
    assert subs[..|subs|] == subs;
  }

  /** The outer loop of Medium.events_targets over the filtered events. */
  method CollectEventPairs(
    g: Graph, subs: seq<Subscription>, unsubscribed: map<SourceId, seq<EntityId>>,
    actors: seq<EventActor>, entityKind: Option<KindId>, events: seq<Event>)
    returns (pairs: seq<(Event, seq<EntityId>)>)
    ensures pairs == EventPairs(g, subs, unsubscribed, actors, entityKind, events)
  {
    pairs := [];
    for i := 0 to |events|
      invariant pairs == EventPairs(g, subs, unsubscribed, actors, entityKind, events[..i])
    {
      var event := events[i];
      var targets := CollectTargets(g, subs, event, ActorIds(actors, event.id));
      targets := FilterSourceTargetsByUnsubscription(unsubscribed, event.source, targets);
      targets := OfKind(g, targets, entityKind);
      assert targets == FinalTargets(g, subs, unsubscribed, entityKind, event, ActorIds(actors, event.id));
      assert events[..i + 1][..i] == events[..i];
      assert EventPairs(g, subs, unsubscribed, actors, entityKind, events[..i + 1]) ==
             pairs + (if targets != [] then [(event, targets)] else []);
      if targets != [] {
        pairs := pairs + [(event, targets)];
      }
    }
    assert events[..|events|] == events;
  }

  // ---- what events_targets promises ----

  /** Listing a set of entities gives every member that is in the table, once. */
  lemma ListEntitiesMeaning(g: Graph, es: set<EntityId>)
    requires g.Valid()
    ensures forall t :: t in ListEntities(g, es) <==> t in es && t in g.kind
    ensures Distinct(ListEntities(g, es))
  {
    assert Distinct(g.entities);
    FilterDistinct(g.entities, (t: EntityId) => t in es);
  }

  /** One subscription names `t` as a target exactly when `t` is subscribed by it
      and, for only_following, is a follower of the event's actors. */
  lemma SubscriptionTargetsMeaning(g: Graph, sub: Subscription, actorIds: set<EntityId>, t: EntityId)
    requires g.Valid()
    ensures t in SubscriptionTargets(g, sub, actorIds) <==>
              t in SubscribedEntities(g, sub) && (sub.onlyFollowing ==> t in FollowersOf(g, actorIds))
  {
    SubscribedEntitiesMeaning(g, sub);
    if sub.onlyFollowing {
      ListEntitiesMeaning(g, SubscribedEntities(g, sub) * FollowersOf(g, actorIds));
    } else {
      ListEntitiesMeaning(g, SubscribedEntities(g, sub));
    }
  }

  lemma {:induction false} RawTargetsMembership(g: Graph, subs: seq<Subscription>, e: Event, actorIds: set<EntityId>, t: EntityId)
    ensures t in RawTargets(g, subs, e, actorIds) <==>
              exists s :: s in subs && e.source == s.source && t in SubscriptionTargets(g, s, actorIds)
    decreases |subs|
  {
    if |subs| > 0 {
      var init := subs[..|subs| - 1];
      var last := subs[|subs| - 1];
      RawTargetsMembership(g, init, e, actorIds, t);
      assert forall s :: s in subs <==> s in init || s == last by {
        assert subs == init + [last];
      }
    }
  }

  /** The target list keeps duplicates: an entity occurs in it once for every
      subscription with the event's source that names it. */
  lemma {:induction false} RawTargetsCount(g: Graph, subs: seq<Subscription>, e: Event, actorIds: set<EntityId>, t: EntityId)
    requires g.Valid()
    ensures multiset(RawTargets(g, subs, e, actorIds))[t] ==
              |Filter(subs, (s: Subscription) => e.source == s.source && t in SubscriptionTargets(g, s, actorIds))|
    decreases |subs|
  {
    if |subs| > 0 {
      var init := subs[..|subs| - 1];
      var last := subs[|subs| - 1];
      RawTargetsCount(g, init, e, actorIds, t);
      var mine := if e.source == last.source then SubscriptionTargets(g, last, actorIds) else [];
      assert multiset(RawTargets(g, subs, e, actorIds)) == multiset(RawTargets(g, init, e, actorIds)) + multiset(mine);
      if e.source == last.source {
        SubscribedEntitiesMeaning(g, last);
        if last.onlyFollowing {
          ListEntitiesMeaning(g, SubscribedEntities(g, last) * FollowersOf(g, actorIds));
        } else {
          ListEntitiesMeaning(g, SubscribedEntities(g, last));
        }
        DistinctMultiplicity(mine, t);
      }
    }
  }

  /** An entity is in the final target list of an event exactly when it is not
      unsubscribed from the event's source, has the requested kind, and some
      subscription with the event's source subscribes it (and, for only_following,
      it is a follower of one of the event's actors). */
  lemma FinalTargetsMeaning(
    g: Graph, subs: seq<Subscription>, unsubscribed: map<SourceId, seq<EntityId>>,
    entityKind: Option<KindId>, e: Event, actorIds: set<EntityId>, t: EntityId)
    requires g.Valid()
    ensures t in FinalTargets(g, subs, unsubscribed, entityKind, e, actorIds) <==>
              && t !in Lookup(unsubscribed, e.source)
              && (entityKind.Some? ==> t in g.kind && g.kind[t] == entityKind.value)
              && exists s :: && s in subs && e.source == s.source && t in SubscribedEntities(g, s)
                             && (s.onlyFollowing ==> t in FollowersOf(g, actorIds))
  {
    RawTargetsMembership(g, subs, e, actorIds, t);
    forall s: Subscription ensures t in SubscriptionTargets(g, s, actorIds) <==>
              t in SubscribedEntities(g, s) && (s.onlyFollowing ==> t in FollowersOf(g, actorIds)) {
      SubscriptionTargetsMeaning(g, s, actorIds, t);
    }
  }

  /** The events of a list of (event, targets) pairs. */
  function Firsts(pairs: seq<(Event, seq<EntityId>)>): seq<Event> {
    seq(|pairs|, i requires 0 <= i < |pairs| => pairs[i].0)
  }

  lemma FirstsAppend(pairs: seq<(Event, seq<EntityId>)>, more: seq<(Event, seq<EntityId>)>)
    ensures Firsts(pairs + more) == Firsts(pairs) + Firsts(more)
  {
  }

  /** Each pair carries its event's final target list, which is never empty. */
  lemma {:induction false} EventPairsTargets(
    g: Graph, subs: seq<Subscription>, unsubscribed: map<SourceId, seq<EntityId>>,
    actors: seq<EventActor>, entityKind: Option<KindId>, events: seq<Event>)
    ensures forall p :: p in EventPairs(g, subs, unsubscribed, actors, entityKind, events) ==>
              p.1 == FinalTargets(g, subs, unsubscribed, entityKind, p.0, ActorIds(actors, p.0.id)) && p.1 != []
    decreases |events|
  {
    if |events| > 0 {
      EventPairsTargets(g, subs, unsubscribed, actors, entityKind, events[..|events| - 1]);
    }
  }

  /** The pairs follow the order of the events and hold every event whose final
      target list is not empty, and no other. */
  lemma {:induction false} EventPairsOrder(
    g: Graph, subs: seq<Subscription>, unsubscribed: map<SourceId, seq<EntityId>>,
    actors: seq<EventActor>, entityKind: Option<KindId>, events: seq<Event>)
    ensures Firsts(EventPairs(g, subs, unsubscribed, actors, entityKind, events)) ==
              Filter(events, (e: Event) => FinalTargets(g, subs, unsubscribed, entityKind, e, ActorIds(actors, e.id)) != [])
    decreases |events|
  {
    if |events| > 0 {
      var init := events[..|events| - 1];
      var e := events[|events| - 1];
      var targets := FinalTargets(g, subs, unsubscribed, entityKind, e, ActorIds(actors, e.id));
      var more := if targets != [] then [(e, targets)] else [];
      assert EventPairs(g, subs, unsubscribed, actors, entityKind, events) ==
             EventPairs(g, subs, unsubscribed, actors, entityKind, init) + more;
      EventPairsOrder(g, subs, unsubscribed, actors, entityKind, init);
      FirstsAppend(EventPairs(g, subs, unsubscribed, actors, entityKind, init), more);
      assert Firsts(more) == if targets != [] then [e] else [];
    }
  }

  /** Who receives an event through events_targets, stated on the tables: an entity
      of the requested kind (if any), not unsubscribed from the event's source on this
      medium, subscribed by a subscription of the medium with the event's source,
      and for only_following a follower of one of the event's actors. */
  ghost predicate Receives(
    g: Graph, subs: seq<Subscription>, unsubs: seq<Unsubscription>, medium: MediumId,
    entityKind: Option<KindId>, e: Event, actorIds: set<EntityId>, t: EntityId)
  {
    && t in g.kind
    && Unsubscription(t, medium, e.source) !in unsubs
    && (entityKind.Some? ==> g.kind[t] == entityKind.value)
    && exists s :: && s in subs && s.medium == medium && s.source == e.source
                   && t in SubscribedEntities(g, s)
                   && (s.onlyFollowing ==> t in FollowersOf(g, actorIds))
  }

  /** The final target list of an event, computed from the medium's subscriptions
      and unsubscriptions, holds exactly the entities that receive the event. */
  lemma FinalTargetsReceives(
    g: Graph, subs: seq<Subscription>, unsubs: seq<Unsubscription>, medium: MediumId,
    entityKind: Option<KindId>, e: Event, actorIds: set<EntityId>, t: EntityId)
    requires g.Valid()
    ensures t in FinalTargets(g, SubscriptionsFor(subs, medium), UnsubscribedFor(unsubs, medium), entityKind, e, actorIds) <==>
              Receives(g, subs, unsubs, medium, entityKind, e, actorIds, t)
  {
    var mine := SubscriptionsFor(subs, medium);
    FinalTargetsMeaning(g, mine, UnsubscribedFor(unsubs, medium), entityKind, e, actorIds, t);
    forall s | s in mine && t in SubscribedEntities(g, s) ensures t in g.kind {
      SubscribedEntitiesMeaning(g, s);
    }
  }

  /** The subscriptions of the medium through which `t` receives event `e`: they have
      the event's source, subscribe `t` and, for only_following, `t` is a follower of
      one of the event's actors. */
  ghost function Contributors(
    g: Graph, subs: seq<Subscription>, medium: MediumId, e: Event, actorIds: set<EntityId>, t: EntityId): seq<Subscription>
  {
    Filter(subs, (s: Subscription) =>
      && s.medium == medium && s.source == e.source && t in SubscribedEntities(g, s)
      && (s.onlyFollowing ==> t in FollowersOf(g, actorIds)))
  }

  /** Duplicates survive the filters: an entity that is neither unsubscribed nor of
      the wrong kind occurs in the final target list once per subscription of the
      medium through which it receives the event; any other entity does not occur. */
  lemma FinalTargetsCount(
    g: Graph, subs: seq<Subscription>, unsubs: seq<Unsubscription>, medium: MediumId,
    entityKind: Option<KindId>, e: Event, actorIds: set<EntityId>, t: EntityId)
    requires g.Valid()
    ensures multiset(FinalTargets(g, SubscriptionsFor(subs, medium), UnsubscribedFor(unsubs, medium), entityKind, e, actorIds))[t] ==
              if Unsubscription(t, medium, e.source) in unsubs || (entityKind.Some? && !(t in g.kind && g.kind[t] == entityKind.value))
              then 0
              else |Contributors(g, subs, medium, e, actorIds, t)|
  {
    var mine := SubscriptionsFor(subs, medium);
    var unsubscribed := UnsubscribedFor(unsubs, medium);
    var raw := RawTargets(g, mine, e, actorIds);
    RawTargetsCount(g, mine, e, actorIds, t);
    UnsubscriptionFilterCount(unsubscribed, e.source, raw, t);
    OfKindCount(g, FilterSourceTargetsByUnsubscription(unsubscribed, e.source, raw), entityKind, t);
    forall s: Subscription ensures t in SubscriptionTargets(g, s, actorIds) <==>
              t in SubscribedEntities(g, s) && (s.onlyFollowing ==> t in FollowersOf(g, actorIds)) {
      SubscriptionTargetsMeaning(g, s, actorIds, t);
    }
    FilterTwice(subs,
      (s: Subscription) => s.medium == medium,
      (s: Subscription) => e.source == s.source && t in SubscriptionTargets(g, s, actorIds),
      (s: Subscription) =>
        && s.medium == medium && s.source == e.source && t in SubscribedEntities(g, s)
        && (s.onlyFollowing ==> t in FollowersOf(g, actorIds)));
  }

  /** What Medium.events_targets pairs an event with: the event passed the filters,
      and its target list is non-empty, holds exactly the entities that receive it,
      and lists each of them once per subscription through which it receives it. */
  lemma EventsTargetsPairs(
    g: Graph, subs: seq<Subscription>, unsubs: seq<Unsubscription>, actors: seq<EventActor>,
    medium: MediumId, entityKind: Option<KindId>, filtered: seq<Event>)
    requires g.Valid()
    ensures forall p :: p in EventsTargetsQuery(g, subs, unsubs, actors, medium, entityKind, filtered) ==>
              && p.0 in filtered
              && p.1 != []
              && (forall t :: t in p.1 <==> Receives(g, subs, unsubs, medium, entityKind, p.0, ActorIds(actors, p.0.id), t))
              && forall t :: t in p.1 ==> multiset(p.1)[t] == |Contributors(g, subs, medium, p.0, ActorIds(actors, p.0.id), t)|
  {
    var mine := SubscriptionsFor(subs, medium);
    var unsubscribed := UnsubscribedFor(unsubs, medium);
    var r := EventPairs(g, mine, unsubscribed, actors, entityKind, filtered);
    EventPairsTargets(g, mine, unsubscribed, actors, entityKind, filtered);
    EventPairsOrder(g, mine, unsubscribed, actors, entityKind, filtered);
    forall p | p in r
      ensures && p.0 in filtered
              && (forall t :: t in p.1 <==> Receives(g, subs, unsubs, medium, entityKind, p.0, ActorIds(actors, p.0.id), t))
              && forall t :: t in p.1 ==> multiset(p.1)[t] == |Contributors(g, subs, medium, p.0, ActorIds(actors, p.0.id), t)|
    {
      var i :| 0 <= i < |r| && r[i] == p;
      assert Firsts(r)[i] == p.0;
      forall t ensures t in p.1 <==> Receives(g, subs, unsubs, medium, entityKind, p.0, ActorIds(actors, p.0.id), t) {
        FinalTargetsReceives(g, subs, unsubs, medium, entityKind, p.0, ActorIds(actors, p.0.id), t);
      }
      forall t | t in p.1 ensures multiset(p.1)[t] == |Contributors(g, subs, medium, p.0, ActorIds(actors, p.0.id), t)| {
        FinalTargetsMeaning(g, mine, unsubscribed, entityKind, p.0, ActorIds(actors, p.0.id), t);
        FinalTargetsCount(g, subs, unsubs, medium, entityKind, p.0, ActorIds(actors, p.0.id), t);
      }
    }
  }

  /** Which events Medium.events_targets returns: exactly the filtered events that
      someone receives (EventPairsOrder states their order). */
  lemma EventsTargetsEvents(
    g: Graph, subs: seq<Subscription>, unsubs: seq<Unsubscription>, actors: seq<EventActor>,
    medium: MediumId, entityKind: Option<KindId>, filtered: seq<Event>)
    requires g.Valid()
    ensures forall e :: e in Firsts(EventsTargetsQuery(g, subs, unsubs, actors, medium, entityKind, filtered)) <==>
              e in filtered && exists t :: Receives(g, subs, unsubs, medium, entityKind, e, ActorIds(actors, e.id), t)
  {
    var mine := SubscriptionsFor(subs, medium);
    var unsubscribed := UnsubscribedFor(unsubs, medium);
    EventPairsOrder(g, mine, unsubscribed, actors, entityKind, filtered);
    forall e ensures e in Firsts(EventPairs(g, mine, unsubscribed, actors, entityKind, filtered)) <==>
                       e in filtered && exists t :: Receives(g, subs, unsubs, medium, entityKind, e, ActorIds(actors, e.id), t)
    {
      var ts := FinalTargets(g, mine, unsubscribed, entityKind, e, ActorIds(actors, e.id));
      if ts != [] {
        FinalTargetsReceives(g, subs, unsubs, medium, entityKind, e, ActorIds(actors, e.id), ts[0]);
      }
      if exists t :: Receives(g, subs, unsubs, medium, entityKind, e, ActorIds(actors, e.id), t) {
        var t :| Receives(g, subs, unsubs, medium, entityKind, e, ActorIds(actors, e.id), t);
        FinalTargetsReceives(g, subs, unsubs, medium, entityKind, e, ActorIds(actors, e.id), t);
      }
    }
  }

  /** entity_events and events_targets agree: an event is returned for the entity
      exactly when it passed the filters and the entity receives it through
      events_targets (with no kind requested). */
  lemma EntityEventsReceive(
    g: Graph, subs: seq<Subscription>, unsubs: seq<Unsubscription>, actors: seq<EventActor>,
    medium: MediumId, entity: EntityId, filtered: seq<Event>, e: Event)
    requires g.Valid() && entity in g.kind
    ensures EntityEventsQuery(g, subs, unsubs, actors, medium, entity, filtered).Ok? ==>
              (e in EntityEventsQuery(g, subs, unsubs, actors, medium, entity, filtered).value <==>
                 e in filtered && Receives(g, subs, unsubs, medium, None, e, ActorIds(actors, e.id), entity))
  {
    if EntityEventsQuery(g, subs, unsubs, actors, medium, entity, filtered).Ok? {
      var actorIds := ActorIds(actors, e.id);
      EntityEventMember(g, subs, unsubs, actors, medium, entity, filtered, e);
      FollowersOfIsInverse(g, entity, actorIds);
      if FollowedBy(g, {entity}) * actorIds != {} {
        var a := Pick(FollowedBy(g, {entity}) * actorIds);
        assert a in actorIds && a in FollowedBy(g, {entity});
      }
    }
  }

  /** When seen=False and mark_seen are given, every event the three queries return
      is marked seen on the medium afterwards. */
  lemma ReturnedEventsMarked(
    g: Graph, subs: seq<Subscription>, unsubs: seq<Unsubscription>, actors: seq<EventActor>,
    events: seq<Event>, seen: set<EventSeen>, medium: MediumId, entity: EntityId,
    entityKind: Option<KindId>, q: EventQuery, now: int)
    requires g.Valid() && entity in g.kind
    requires q.seen == Some(false) && q.markSeen
    ensures var filtered := FilteredEvents(events, seen, medium, q, now);
            EventsQuery(g, subs, actors, medium, filtered).Ok? ==>
              forall e :: e in EventsQuery(g, subs, actors, medium, filtered).value ==>
                EventSeen(e.id, medium) in SeenAfter(events, seen, medium, q, now)
    ensures var filtered := FilteredEvents(events, seen, medium, q, now);
            EntityEventsQuery(g, subs, unsubs, actors, medium, entity, filtered).Ok? ==>
              forall e :: e in EntityEventsQuery(g, subs, unsubs, actors, medium, entity, filtered).value ==>
                EventSeen(e.id, medium) in SeenAfter(events, seen, medium, q, now)
    ensures var filtered := FilteredEvents(events, seen, medium, q, now);
            forall p :: p in EventsTargetsQuery(g, subs, unsubs, actors, medium, entityKind, filtered) ==>
              EventSeen(p.0.id, medium) in SeenAfter(events, seen, medium, q, now)
  {
    var filtered := FilteredEvents(events, seen, medium, q, now);
    FilteredEventsMarked(events, seen, medium, q, now);
    EventsQueryMeaning(g, subs, actors, medium, filtered);
    if EntityEventsQuery(g, subs, unsubs, actors, medium, entity, filtered).Ok? {
      forall e | e in EntityEventsQuery(g, subs, unsubs, actors, medium, entity, filtered).value
        ensures e in filtered
      {
        EntityEventMember(g, subs, unsubs, actors, medium, entity, filtered, e);
      }
    }
    EventsTargetsPairs(g, subs, unsubs, actors, medium, entityKind, filtered);
  }

  /** Marking is not limited to returned events: an event that passed the event-level
      filters but whose source no subscription of the medium has is returned by neither
      events nor entity_events, yet seen=False with mark_seen marks it. */
  lemma UnadmittedEventMarked(
    g: Graph, subs: seq<Subscription>, unsubs: seq<Unsubscription>, actors: seq<EventActor>,
    events: seq<Event>, seen: set<EventSeen>, medium: MediumId, entity: EntityId,
    q: EventQuery, now: int, e: Event)
    requires entity in g.kind
    requires q.seen == Some(false) && q.markSeen
    requires e in FilteredEvents(events, seen, medium, q, now)
    requires forall s :: s in subs && s.medium == medium ==> s.source != e.source
    ensures var filtered := FilteredEvents(events, seen, medium, q, now);
            EventsQuery(g, subs, actors, medium, filtered).Ok? ==>
              e !in EventsQuery(g, subs, actors, medium, filtered).value
    ensures var filtered := FilteredEvents(events, seen, medium, q, now);
            EntityEventsQuery(g, subs, unsubs, actors, medium, entity, filtered).Ok? ==>
              e !in EntityEventsQuery(g, subs, unsubs, actors, medium, entity, filtered).value
    ensures EventSeen(e.id, medium) in SeenAfter(events, seen, medium, q, now)
  {
    var filtered := FilteredEvents(events, seen, medium, q, now);
    FilteredEventsMarked(events, seen, medium, q, now);
    EventsQueryMeaning(g, subs, actors, medium, filtered);
    if EntityEventsQuery(g, subs, unsubs, actors, medium, entity, filtered).Ok? {
      EntityEventMember(g, subs, unsubs, actors, medium, entity, filtered, e);
    }
  }

  /** A concrete instance: one subscription of medium 5 for source 10 and one unseen
      event of source 20. Both queries succeed without the event, and it is marked. */
  lemma UnadmittedEventExample()
    ensures var g := Graph([1], map[1 := 0], {});
            var subs := [Subscription(5, 10, 1, None, false)];
            var events := [Event(0, 20, map[], 0, None, "")];
            var q := EventQuery(None, None, Some(false), false, true);
            var filtered := FilteredEvents(events, {}, 5, q, 0);
            && filtered == events
            && EventsQuery(g, subs, [], 5, filtered) == Ok([])
            && EntityEventsQuery(g, subs, [], [], 5, 1, filtered) == Ok([])
            && EventSeen(0, 5) in SeenAfter(events, {}, 5, q, 0)
  {
    var g := Graph([1], map[1 := 0], {});
    var sub := Subscription(5, 10, 1, None, false);
    var subs := [sub];
    var ev := Event(0, 20, map[], 0, None, "");
    var q := EventQuery(None, None, Some(false), false, true);
    var filtered := FilteredEvents([ev], {}, 5, q, 0);
    assert PassesFilters(GetEventFilters(5, q, 0), ev, {});
    FilterSnoc([], ev, (e: Event) => PassesFilters(GetEventFilters(5, q, 0), e, {}));
    assert [] + [ev] == [ev];
    assert filtered == [ev];
    assert sub.medium == 5 && sub in subs;
    UnadmittedEventMarked(g, subs, [], [], [ev], {}, 5, 1, q, 0, ev);
    EventsQueryMeaning(g, subs, [], 5, filtered);
    assert SubsetSubscriptions(g, SubscriptionsFor(subs, 5), Some(1)) != [] by {
      EntitySubscriptionsOf(g, subs, 5, 1);
      assert 1 in SubscribedEntities(g, sub);
    }
  }

  /** Medium.events and Medium.events_targets agree on only_following: a subscription
      of that kind admits an event in `events` exactly when it names at least one
      target for it in `events_targets`. */
  lemma OnlyFollowingAgrees(g: Graph, sub: Subscription, e: Event, actorIds: set<EntityId>)
    requires g.Valid() && sub.onlyFollowing
    ensures Matches(SubscriptionQ(g, sub), e, actorIds) <==>
              e.source == sub.source && SubscriptionTargets(g, sub, actorIds) != []
  {
    var subscribed := SubscribedEntities(g, sub);
    SubscribedEntitiesMeaning(g, sub);
    ActorsMeetFollowed(g, actorIds, subscribed);
    ListEntitiesMeaning(g, subscribed * FollowersOf(g, actorIds));
    if subscribed * FollowersOf(g, actorIds) != {} {
      var t := Pick(subscribed * FollowersOf(g, actorIds));
      assert t in SubscriptionTargets(g, sub, actorIds);
    }
    if SubscriptionTargets(g, sub, actorIds) != [] {
      assert SubscriptionTargets(g, sub, actorIds)[0] in subscribed * FollowersOf(g, actorIds);
    }
  }
}
