/** Subscriptions and unsubscriptions: which entities a subscription reaches,
    which of a medium's subscriptions concern one entity, and the per-source
    opt-out lists a medium filters targets by. */
module Subscriptions {

  import opened Util
  import opened EntityGraph

  type MediumId = int
  type SourceId = int

  /** A Subscription row. `subEntityKind == None` is an individual subscription of
      `entity`; `Some(k)` subscribes the direct sub-entities of `entity` of kind k. */
  datatype Subscription = Subscription(
    medium: MediumId,
    source: SourceId,
    entity: EntityId,
    subEntityKind: Option<KindId>,
    onlyFollowing: bool)

  /** An Unsubscription row: `entity` receives nothing of `source` through `medium`. */
  datatype Unsubscription = Unsubscription(entity: EntityId, medium: MediumId, source: SourceId)

  /** The subscriptions of one medium, in table order. */
  function SubscriptionsFor(subs: seq<Subscription>, medium: MediumId): seq<Subscription> {
    Filter(subs, (s: Subscription) => s.medium == medium)
  }

  /** Subscription.subscribed_entities: for a group subscription the direct
      sub-entities of the owner that have the subscription's kind, for an
      individual subscription the owner itself (each looked up in the entity table). */
  function SubscribedEntities(g: Graph, sub: Subscription): set<EntityId> {
    match sub.subEntityKind
    case Some(k) => set e | e in g.kind && e in SubEntitiesOf(g, {sub.entity}) && g.kind[e] == k
    case None => set e | e in g.kind && e == sub.entity
  }

  /** What subscribed_entities promises: `{entity}` for an individual subscription,
      exactly the direct sub-entities of the right kind for a group subscription, and
      the owner of a group only if it is its own sub-entity. */
  lemma SubscribedEntitiesMeaning(g: Graph, sub: Subscription)
    ensures SubscribedEntities(g, sub) <= g.kind.Keys
    ensures sub.subEntityKind.None? && sub.entity in g.kind ==> SubscribedEntities(g, sub) == {sub.entity}
    ensures sub.subEntityKind.Some? ==> forall e :: e in SubscribedEntities(g, sub) <==>
              e in g.kind && Relationship(sub.entity, e) in g.relationships && g.kind[e] == sub.subEntityKind.value
    ensures sub.subEntityKind.Some? && sub.entity in SubscribedEntities(g, sub) ==>
              Relationship(sub.entity, sub.entity) in g.relationships
  {
    if sub.subEntityKind.Some? {
      forall e ensures e in SubEntitiesOf(g, {sub.entity}) <==> Relationship(sub.entity, e) in g.relationships {
        if e in SubEntitiesOf(g, {sub.entity}) {
          var r :| r in g.relationships && r.superEntity in {sub.entity} && r.subEntity == e;
          assert r == Relationship(sub.entity, e);
        }
        if Relationship(sub.entity, e) in g.relationships {
          var r := Relationship(sub.entity, e);
          assert r.superEntity in {sub.entity};
        }
      }
    }
  }

  /** Condition of Medium.subset_subscriptions for one subscription: individual for
      exactly `e`, or a group owned by a direct super-entity of `e` whose kind is `k`,
      the kind of `e`. */
  predicate PartOf(g: Graph, e: EntityId, k: KindId, s: Subscription) {
    || (s.entity == e && s.subEntityKind.None?)
    || (s.entity in SuperEntitiesOf(g, {e}) && s.subEntityKind == Some(k))
  }

  /** Medium.subset_subscriptions. */
  function SubsetSubscriptions(g: Graph, subs: seq<Subscription>, entity: Option<EntityId>): (r: seq<Subscription>)
    requires entity.Some? ==> entity.value in g.kind
    ensures entity.None? ==> r == subs
    ensures entity.Some? ==> forall s :: s in r <==>
              (&& s in subs
               && (|| (s.entity == entity.value && s.subEntityKind.None?)
                   || (Relationship(s.entity, entity.value) in g.relationships
                       && s.subEntityKind == Some(g.kind[entity.value]))))
  {
    match entity
    case None => subs
    case Some(e) =>
      var k := g.kind[e];
      var r := Filter(subs, (s: Subscription) => PartOf(g, e, k, s));
      forall x: EntityId ensures x in SuperEntitiesOf(g, {e}) <==> Relationship(x, e) in g.relationships {
        if x in SuperEntitiesOf(g, {e}) {
          var y :| y in g.relationships && y.subEntity in {e} && y.superEntity == x;
          assert y == Relationship(x, e);
        }
        if Relationship(x, e) in g.relationships {
          assert Relationship(x, e).subEntity in {e};
        }
      }
      r
  }

  /** Reading the opt-out list of a source; a source with no list reads as empty. */
  function Lookup(m: map<SourceId, seq<EntityId>>, source: SourceId): seq<EntityId> {
    if source in m then m[source] else []
  }

  /** The dictionary Medium.unsubscriptions builds from the given rows: each row's
      entity appended to the list of its source, in row order. */
  function CollectUnsubscriptions(rows: seq<Unsubscription>): (m: map<SourceId, seq<EntityId>>)
    ensures forall source, e :: e in Lookup(m, source) <==>
              exists u :: u in rows && u.source == source && u.entity == e
    decreases |rows|
  {
    if |rows| == 0 then map[]
    else
      var m := CollectUnsubscriptions(rows[..|rows| - 1]);
      var u := rows[|rows| - 1];
      var r := m[u.source := Lookup(m, u.source) + [u.entity]];
      assert forall source, e :: e in Lookup(r, source) <==>
        (e in Lookup(m, source) || (source == u.source && e == u.entity));
      assert forall x :: x in rows <==> x in rows[..|rows| - 1] || x == u by {
        assert rows == rows[..|rows| - 1] + [u];
      }
      r
  }

  /** Medium.unsubscriptions as a function of the Unsubscription table. */
  function UnsubscribedFor(rows: seq<Unsubscription>, medium: MediumId): (m: map<SourceId, seq<EntityId>>)
    ensures forall source, e :: e in Lookup(m, source) <==> Unsubscription(e, medium, source) in rows
  {
    var mine := Filter(rows, (u: Unsubscription) => u.medium == medium);
    var m := CollectUnsubscriptions(mine);
    assert forall source, e :: Unsubscription(e, medium, source) in rows ==> Unsubscription(e, medium, source) in mine;
    m
  }

  /** The loop of Medium.unsubscriptions over the medium's unsubscription rows. */
  method Unsubscriptions(rows: seq<Unsubscription>, medium: MediumId) returns (m: map<SourceId, seq<EntityId>>)
    ensures m == UnsubscribedFor(rows, medium)
    ensures forall source, e :: e in Lookup(m, source) <==> Unsubscription(e, medium, source) in rows
  {
    var mine := Filter(rows, (u: Unsubscription) => u.medium == medium);
    m := map[];
    for i := 0 to |mine|
      invariant m == CollectUnsubscriptions(mine[..i])
    {
      var u := mine[i];
      assert mine[..i + 1][..i] == mine[..i];
      m := m[u.source := Lookup(m, u.source) + [u.entity]];
    }
    assert mine[..|mine|] == mine;
  }

  /** Medium.filter_source_targets_by_unsubscription: the targets whose id is not on
      the opt-out list of `source`. */
  function FilterSourceTargetsByUnsubscription(m: map<SourceId, seq<EntityId>>, source: SourceId, targets: seq<EntityId>): (r: seq<EntityId>)
    ensures |r| <= |targets|
    ensures forall t :: t in r <==> t in targets && t !in Lookup(m, source)
  {
    Filter(targets, (t: EntityId) => t !in Lookup(m, source))
  }

  /** The opt-out filter drops every copy of an unsubscribed target and keeps every
      copy of any other: duplicates among the remaining targets survive. */
  lemma UnsubscriptionFilterCount(m: map<SourceId, seq<EntityId>>, source: SourceId, targets: seq<EntityId>, t: EntityId)
    ensures multiset(FilterSourceTargetsByUnsubscription(m, source, targets))[t] ==
              if t in Lookup(m, source) then 0 else multiset(targets)[t]
  {
    FilterMultiplicity(targets, (t: EntityId) => t !in Lookup(m, source), t);
  }
}
