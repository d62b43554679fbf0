# django-entity-event event routing, modelled in Dafny

django-entity-event lets an application record *events* and route them to entities. An event has a source and a set of actor entities. Each destination, such as an email digest or a newsfeed, is a *medium*. Entities subscribe through subscriptions. A subscription names a medium, a source and an entity. It may cover a whole group: the entity's direct sub-entities of one kind. An `only_following` subscription only delivers events whose actors the subscriber follows. Unsubscriptions opt single entities out of one source on one medium. Seen rows record which events a medium has already delivered.

The model covers the core of `entity_event/models.py`:

- the three queries of a medium (`events`, `entity_events`, `events_targets`) and what they share: the event-level filters, seen marking, the subset of subscriptions an entity belongs to, the unsubscription lists, and the default follow policy (`followed_by`, `followers_of`);
- `Subscription.subscribed_entities`;
- `EventQuerySet.mark_seen` and `EventManager.mark_seen`;
- `EventManager.create_event`;
- `Source.get_context` and `Event.get_context`.

Layout, one module per file:

- `util.dfy` (`Util`): option and result types, the two exceptions the code can raise, and the order-preserving `Filter` that stands for a queryset `.filter(...)` or a list comprehension.
- `entity_graph.dfy` (`EntityGraph`): the entity table, kinds and direct relationships, with `followed_by` and `followers_of`.
- `subscriptions.dfy` (`Subscriptions`):
  - subscription and unsubscription rows;
  - `subscribed_entities` and `subset_subscriptions`;
  - the `unsubscriptions` loop, written as a method proved against a function;
  - `filter_source_targets_by_unsubscription`.
- `events.dfy` (`Events`): events, actors and seen rows; `get_event_filters`; the seen rows that `get_filtered_events` leaves behind; and `get_context`.
- `routing.dfy` (`Routing`):
  - the Q objects and `reduce(or_, ...)`;
  - the results of the three queries as functions of the filtered events;
  - the nested loops of `events_targets`, written as a method proved against a function;
  - what each result means, stated on the tables.
- `store.dfy` (`Store`): a `Database` class holding the tables. Its methods run each query, mark events seen, and create events. They state their result and the new table contents in terms of the functions above.

Entities, kinds, sources, media and events are identified by integer ids. A queryset becomes a sequence in table order. The wall clock is the parameter `now`. A source's context loader is passed in as a function value; it is absent when `context_loader` is empty.

Four behaviours of the code are easy to miss:

- **No subscriptions raises.** With no matching subscription, `reduce(or_, [])` has no initial value and raises `TypeError` (models.py:148 and 244). The query's transaction then rolls back the seen rows it wrote (`Store.Database.MediumEvents`, `Store.Database.EntityEvents`).
- **mark_seen is one plain insert.** It is one `bulk_create` under the `(event, medium)` uniqueness constraint. It fails as a whole when a row already exists or occurs twice (`Store.Database.MarkSeen`). Through `get_filtered_events` it can never fail, which `Events.SnapshotCanBeMarked` proves.
- **mark_seen marks the filtered events, not the returned ones.** The docstrings of the three queries say that `mark_seen` marks the returned events (models.py:125-128, 218-221, 312-315). The code marks only when `seen is False` (models.py:446); with `seen=None` or `seen=True` it writes nothing (`Events.SeenAfterMeaning`). When it marks, it marks every event that passed the event-level filters, before any subscription is consulted. So events that no subscription admits, and events that `entity_events` returns only to other entities, are marked too (`Routing.UnadmittedEventMarked`, `Routing.UnadmittedEventExample`). The docstring's promise does hold in one direction: with `seen=False` every returned event ends up marked (`Routing.ReturnedEventsMarked`).
- **events_targets keeps duplicate targets.** In a returned target list, an entity appears once per subscription through which it receives the event (`Routing.FinalTargetsCount`, `Routing.EventsTargetsPairs`).

## Model

| member | source | states |
|---|---|---|
| EntityGraph.FollowedByIsSelfAndSupers | entity_event/models.py:456-490 | followed_by(X) is exactly X plus every direct super-entity of a member of X |
| EntityGraph.FollowersOfIsSelfAndSubs | entity_event/models.py:492-529 | followers_of(X) is exactly X plus every direct sub-entity of a member of X |
| EntityGraph.FollowInverse | entity_event/models.py:478-479 | followers_of is the inverse of followed_by: a is a follower of b exactly when b is followed by a |
| EntityGraph.FollowersOfIsInverse | entity_event/models.py:515-516 | a is a follower of Y exactly when a is in the table and something a follows lies in Y |
| EntityGraph.FollowedByIsInverse | entity_event/models.py:478-479 | b is followed by X exactly when b is in the table and some follower of b lies in X |
| EntityGraph.FollowClosuresContainArgument | entity_event/models.py:466-477 | both closures contain their argument, and so does either closure applied to the other's result |
| EntityGraph.ActorsMeetFollowed | entity_event/models.py:138-142 | an actor lies among the entities followed by the subscribed ones exactly when a subscribed entity is a follower of the actors |
| Subscriptions.SubscribedEntitiesMeaning | entity_event/models.py:721-738 | an individual subscription gives {entity}; a group subscription gives exactly the direct sub-entities of the owner that have its kind; the result lies in the entity table |
| Subscriptions.SubsetSubscriptions | entity_event/models.py:352-383 | with no entity, all subscriptions come back; with an entity, a subscription is kept exactly when it is the entity's individual one, or a group one whose owner is a direct super-entity of the entity and whose kind is the entity's kind |
| Subscriptions.CollectUnsubscriptions | entity_event/models.py:395-397 | the list of a source holds exactly the entities of the rows with that source; a missing source reads as empty |
| Subscriptions.UnsubscribedFor | entity_event/models.py:385-398 | an entity is on the list of a source exactly when an Unsubscription row (entity, medium, source) exists |
| Subscriptions.Unsubscriptions | entity_event/models.py:385-398 | the loop builds the dictionary UnsubscribedFor describes |
| Subscriptions.FilterSourceTargetsByUnsubscription | entity_event/models.py:400-405 | keeps exactly the targets that are not on the source's list, and never more of them than it was given |
| Subscriptions.UnsubscriptionFilterCount | entity_event/models.py:400-405 | every copy of a target on the source's list is dropped and every copy of any other target is kept |
| Events.GetEventFilters | entity_event/models.py:407-435 | an event passes exactly when it lies in the given time window, has not expired at `now` (unless expired events are included), and has a seen row of this medium for seen=True or lacks one for seen=False; seen=None applies no seen condition |
| Events.SeenAfterMeaning | entity_event/models.py:437-454 | the filtered events are the events that pass the filters against the old seen rows; afterwards a seen row exists exactly when it existed before or (seen=False and mark_seen) it marks a filtered event on this medium |
| Events.RequerySnapshot | entity_event/models.py:444-452 | re-querying the event table by the ids of the snapshot gives back the snapshot in the same order |
| Events.SnapshotCanBeMarked | entity_event/models.py:444-452 | with seen=False, none of the snapshot's rows exists and none repeats, so the bulk insert meets the uniqueness constraint |
| Events.FilteredEventsMarked | entity_event/models.py:444-452 | with seen=False and mark_seen, every event get_filtered_events returns has a seen row of the medium afterwards |
| Events.MarkedUnseenQueryIsEmpty | entity_event/models.py:447-452 | after an unseen query with mark_seen, repeating the same unseen query returns nothing |
| Events.GetContext | entity_event/models.py:591-606 | with no context loader the stored context comes back unchanged |
| Events.EventContext | entity_event/models.py:832-844 | an event's context is its stored context, passed through its source's loader when the source has one |
| Routing.Reduce | entity_event/models.py:148 | or-reducing an empty list raises; otherwise the reduced Q matches an event exactly when one of the Q objects does |
| Routing.SubscriptionQsMatch | entity_event/models.py:136-147 | the Q objects of events match an event exactly when a subscription has its source and, for only_following, one of its actors is followed by the subscribed entities |
| Routing.EventsQueryMeaning | entity_event/models.py:133-149 | events raises exactly when the medium has no subscription; otherwise an event is returned exactly when it passed the filters and some subscription of the medium admits it |
| Routing.EntitySubscriptionQsMatch | entity_event/models.py:231-241 | the Q objects of entity_events match exactly when a subscription has the event's source and, for only_following, an actor is followed by the entity itself |
| Routing.EntityEventsQueryMeaning | entity_event/models.py:226-246 | entity_events raises exactly when no subscription of the medium has the entity among its subscribed entities; otherwise an event is returned exactly when it passed the filters, its source is not unsubscribed by the entity, and such a subscription admits it (for only_following, an actor the entity follows) |
| Routing.ListEntitiesMeaning | entity_event/models.py:336-339 | listing a set of entities yields exactly its members that are in the table, each once |
| Routing.SubscriptionTargetsMeaning | entity_event/models.py:331-339 | a subscription contributes t exactly when it subscribes t and, for only_following, t is a follower of the event's actors |
| Routing.RawTargetsMembership | entity_event/models.py:326-341 | t is among the collected targets exactly when some subscription with the event's source contributes it |
| Routing.RawTargetsCount | entity_event/models.py:326-341 | duplicates are kept: t occurs once for every subscription with the event's source that contributes it |
| Routing.OfKindCount | entity_event/models.py:345-346 | with a kind requested, every copy of a target of another kind is dropped and every copy of a target of that kind is kept; with none, the list is unchanged |
| Routing.FinalTargetsMeaning | entity_event/models.py:326-346 | t is a final target exactly when it is not unsubscribed from the source, has the requested kind if one is given, and some subscription with the event's source contributes it |
| Routing.FinalTargetsReceives | entity_event/models.py:321-346 | the final targets computed from the medium's subscriptions and unsubscriptions are exactly the entities that receive the event, stated on the tables |
| Routing.FinalTargetsCount | entity_event/models.py:326-346 | an entity neither unsubscribed nor of the wrong kind occurs in the final list once per subscription of the medium through which it receives the event; any other entity occurs zero times |
| Routing.EventPairsTargets | entity_event/models.py:343-348 | every pair carries its event's final target list, and that list is never empty |
| Routing.EventPairsOrder | entity_event/models.py:324-350 | the paired events are, in order, exactly the events whose final target list is not empty |
| Routing.EventsTargetsPairs | entity_event/models.py:321-350 | every pair holds a filtered event and a non-empty list of exactly the entities that receive it, each listed once per subscription through which it receives the event |
| Routing.EventsTargetsEvents | entity_event/models.py:321-350 | an event is paired exactly when it passed the filters and someone receives it |
| Routing.CollectTargets | entity_event/models.py:326-341 | the inner loop collects the targets RawTargets describes, whose meaning RawTargetsMembership and RawTargetsCount state |
| Routing.CollectEventPairs | entity_event/models.py:324-350 | the outer loop builds the pairs EventPairs describes, whose meaning EventPairsTargets and EventPairsOrder state |
| Routing.EntityEventsReceive | entity_event/models.py:226-246 | when entity_events succeeds, it returns an event exactly when the event passed the filters and the entity is among the targets events_targets gives it with no kind requested |
| Routing.ReturnedEventsMarked | entity_event/models.py:437-454 | with seen=False and mark_seen, every event that events, entity_events or events_targets returns is marked seen on the medium afterwards |
| Routing.UnadmittedEventMarked | entity_event/models.py:437-454 | an event that passed the event-level filters but whose source no subscription of the medium has is returned by neither events nor entity_events, yet it is marked seen |
| Routing.UnadmittedEventExample | entity_event/models.py:437-454 | one subscription for source 10 and one unseen event of source 20: both queries succeed with an empty result, and the event is marked seen |
| Routing.OnlyFollowingAgrees | entity_event/models.py:138-142 | for an only_following subscription, events admits an event exactly when events_targets finds at least one target for it through that subscription |
| Store.ActorRows | entity_event/models.py:813-818 | one actor row per actor passed, in order, each for the new event |
| Store.ActorRowsMeaning | entity_event/models.py:810-818 | after creation the actors of the new event are exactly the actors passed |
| Store.Database.MarkSeen | entity_event/models.py:742-753 | the insert succeeds exactly when no row exists already and none repeats; it then adds one seen row per event, and otherwise raises the uniqueness error and changes nothing |
| Store.Database.MarkAllSeen | entity_event/models.py:762-771 | mark_seen applied to every event of the table |
| Store.Database.GetFilteredEvents | entity_event/models.py:437-454 | returns the events that pass the filters against the old seen rows; the new seen rows are those SeenAfter gives |
| Store.Database.MediumUnsubscriptions | entity_event/models.py:385-398 | the medium's dictionary read from the Unsubscription table |
| Store.Database.SubscriptionQObjects | entity_event/models.py:136-147 | the loop of events builds one Q object per subscription, in order |
| Store.Database.EntitySubscriptionQObjects | entity_event/models.py:231-241 | the loop of entity_events builds one Q object per subscription, in order |
| Store.Database.MediumEvents | entity_event/models.py:65-149 | returns EventsQuery of the old tables; on success the seen rows are SeenAfter's, and on the reduce error they are rolled back |
| Store.Database.EntityEvents | entity_event/models.py:151-246 | returns EntityEventsQuery of the old tables; on success the seen rows are SeenAfter's, and on the reduce error they are rolled back |
| Store.Database.EventsTargets | entity_event/models.py:248-350 | returns EventsTargetsQuery of the old tables; the seen rows are SeenAfter's |
| Store.Database.CreateEvent | entity_event/models.py:773-819 | with the uuid (default "") already taken: None under ignore_duplicates, else the uniqueness error, nothing changed; otherwise one new event with a fresh id, time `now` and that uuid, plus one actor row per actor; the table invariants (unique ids and uuids) are kept |

## Left out

- The ORM is modelled by its results only. Lazy querysets are taken as evaluated when the query returns, and database ordering is table order.
- Medium.events and Medium.entity_events: the join through `eventactor__entity__in` can list an event once per matching actor row. The model lists each event once.
- Medium.unsubscriptions is a `cached_property`. The model reads the table afresh on each call, so staleness across calls is not modelled.
- `import_by_path`, `Source.clean` and `Source.save` are not part of the model, because they resolve a dotted path at run time. The loader is an injected function value.
- The JSON `context` is an opaque map of strings. A context loader is any function on it.
- The `__str__` methods, `AdminEvent`, `SourceGroup`, and display fields and descriptions are left out, because they have no routing logic.
- `EventSeen.time_seen` is left out, because nothing reads it.
- The migration file is left out.
- create_event accepts actors as Entity objects or as ids. The model takes ids only, because entities are ids here.
- Foreign-key checks on inserted rows are not modelled. Only the uniqueness constraints, which the code relies on, are modelled.
- `datetime.utcnow()` is the parameter `now`, and times are integers.
- Concurrency between transactions is not modelled. A transaction's rollback is modelled as restoring the rows it wrote.
- `followed_by` and `followers_of` can be overridden by a subclass of Medium. The model fixes the default policy.
- Events.GetContext: the contract states only the case without a loader. With a loader the result is whatever the application's loader returns, and the model says nothing more about it.
