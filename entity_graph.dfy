/** The entity hierarchy the event router consumes read-only: every entity has an
    id and a kind, and the relationship table holds direct (super, sub) pairs.
    `followed_by` and `followers_of` are the default follow policy of a medium. */
module EntityGraph {

  import opened Util

  type EntityId = int
  type KindId = int

  /** One row of the relationship table: `superEntity` is a direct super-entity of `subEntity`. */
  datatype Relationship = Relationship(superEntity: EntityId, subEntity: EntityId)

  /** `entities` is the entity table in the order the database lists it,
      `kind` gives each entity's kind, `relationships` the direct pairs. */
  datatype Graph = Graph(entities: seq<EntityId>, kind: map<EntityId, KindId>, relationships: set<Relationship>)
  {
    /** Referential integrity of the entity tables. */
    ghost predicate Valid() {
      && (forall i, j :: 0 <= i < j < |entities| ==> entities[i] != entities[j])
      && (forall e :: e in entities <==> e in kind)
      && (forall r :: r in relationships ==> r.superEntity in kind && r.subEntity in kind)
    }
  }

  /** The super-entity end of every relationship row whose sub-entity lies in `xs`. */
  function SuperEntitiesOf(g: Graph, xs: set<EntityId>): set<EntityId> {
    set r | r in g.relationships && r.subEntity in xs :: r.superEntity
  }

  /** The sub-entity end of every relationship row whose super-entity lies in `xs`. */
  function SubEntitiesOf(g: Graph, xs: set<EntityId>): set<EntityId> {
    set r | r in g.relationships && r.superEntity in xs :: r.subEntity
  }

  /** Medium.followed_by: the entities of the table that are among `xs` or are a
      direct super-entity of one of them. */
  function FollowedBy(g: Graph, xs: set<EntityId>): set<EntityId> {
    set e | e in g.kind && (e in xs || e in SuperEntitiesOf(g, xs))
  }

  /** Medium.followers_of: the entities of the table that are among `xs` or are a
      direct sub-entity of one of them. */
  function FollowersOf(g: Graph, xs: set<EntityId>): set<EntityId> {
    set e | e in g.kind && (e in xs || e in SubEntitiesOf(g, xs))
  }

  /** followed_by(X) is X together with the direct super-entities of X. */
  lemma FollowedByIsSelfAndSupers(g: Graph, xs: set<EntityId>)
    requires g.Valid() && xs <= g.kind.Keys
    ensures FollowedBy(g, xs) == xs + SuperEntitiesOf(g, xs)
    ensures forall e :: e in FollowedBy(g, xs) <==>
              e in xs || exists x :: x in xs && Relationship(e, x) in g.relationships
  {
    forall e | e in SuperEntitiesOf(g, xs) ensures e in g.kind {
      var r :| r in g.relationships && r.subEntity in xs && r.superEntity == e;
    }
    forall e ensures e in SuperEntitiesOf(g, xs) <==> exists x :: x in xs && Relationship(e, x) in g.relationships {
      if e in SuperEntitiesOf(g, xs) {
        var r :| r in g.relationships && r.subEntity in xs && r.superEntity == e;
        assert Relationship(e, r.subEntity) == r;
      }
      if exists x :: x in xs && Relationship(e, x) in g.relationships {
        var x :| x in xs && Relationship(e, x) in g.relationships;
        assert Relationship(e, x).superEntity == e;
      }
    }
  }

  /** followers_of(X) is X together with the direct sub-entities of X. */
  lemma FollowersOfIsSelfAndSubs(g: Graph, xs: set<EntityId>)
    requires g.Valid() && xs <= g.kind.Keys
    ensures FollowersOf(g, xs) == xs + SubEntitiesOf(g, xs)
    ensures forall e :: e in FollowersOf(g, xs) <==>
              e in xs || exists x :: x in xs && Relationship(x, e) in g.relationships
  {
    forall e | e in SubEntitiesOf(g, xs) ensures e in g.kind {
      var r :| r in g.relationships && r.superEntity in xs && r.subEntity == e;
    }
    forall e ensures e in SubEntitiesOf(g, xs) <==> exists x :: x in xs && Relationship(x, e) in g.relationships {
      if e in SubEntitiesOf(g, xs) {
        var r :| r in g.relationships && r.superEntity in xs && r.subEntity == e;
        assert Relationship(r.superEntity, e) == r;
      }
      if exists x :: x in xs && Relationship(x, e) in g.relationships {
        var x :| x in xs && Relationship(x, e) in g.relationships;
        assert Relationship(x, e).subEntity == e;
      }
    }
  }

  /** The two closures are inverse: A follows B exactly when B is followed by A. */
  lemma FollowInverse(g: Graph, a: EntityId, b: EntityId)
    requires a in g.kind && b in g.kind
    ensures a in FollowersOf(g, {b}) <==> b in FollowedBy(g, {a})
  {
    if a in SubEntitiesOf(g, {b}) {
      var r :| r in g.relationships && r.superEntity == b && r.subEntity == a;
      assert b in SuperEntitiesOf(g, {a});
    }
    if b in SuperEntitiesOf(g, {a}) {
      var r :| r in g.relationships && r.subEntity == a && r.superEntity == b;
      assert a in SubEntitiesOf(g, {b});
    }
  }

  /** The inverse property for any set: an entity is a follower of `ys` exactly when
      something it follows lies in `ys`. */
  lemma FollowersOfIsInverse(g: Graph, a: EntityId, ys: set<EntityId>)
    requires g.Valid()
    ensures a in FollowersOf(g, ys) <==> a in g.kind && FollowedBy(g, {a}) * ys != {}
  {
    if a in FollowersOf(g, ys) {
      if a in ys {
        assert a in FollowedBy(g, {a}) * ys;
      } else {
        var r :| r in g.relationships && r.superEntity in ys && r.subEntity == a;
        assert r.superEntity in SuperEntitiesOf(g, {a});
        assert r.superEntity in FollowedBy(g, {a}) * ys;
      }
    }
    if a in g.kind && FollowedBy(g, {a}) * ys != {} {
      var both := FollowedBy(g, {a}) * ys;
      var y := Pick(both);
      if y != a {
        var r :| r in g.relationships && r.subEntity == a && r.superEntity == y;
        assert a in SubEntitiesOf(g, ys);
      }
    }
  }

  /** The same inverse property read from the other side. */
  lemma FollowedByIsInverse(g: Graph, b: EntityId, xs: set<EntityId>)
    requires g.Valid()
    ensures b in FollowedBy(g, xs) <==> b in g.kind && FollowersOf(g, {b}) * xs != {}
  {
    if b in FollowedBy(g, xs) {
      if b in xs {
        assert b in FollowersOf(g, {b}) * xs;
      } else {
        var r :| r in g.relationships && r.subEntity in xs && r.superEntity == b;
        assert r.subEntity in SubEntitiesOf(g, {b});
        assert r.subEntity in FollowersOf(g, {b}) * xs;
      }
    }
    if b in g.kind && FollowersOf(g, {b}) * xs != {} {
      var both := FollowersOf(g, {b}) * xs;
      var x := Pick(both);
      if x != b {
        var r :| r in g.relationships && r.superEntity == b && r.subEntity == x;
        assert b in SuperEntitiesOf(g, xs);
      }
    }
  }

  /** Both closures keep their argument, so each undoes nothing of the other. */
  lemma FollowClosuresContainArgument(g: Graph, xs: set<EntityId>)
    requires xs <= g.kind.Keys
    ensures xs <= FollowedBy(g, xs) && xs <= FollowersOf(g, xs)
    ensures xs <= FollowedBy(g, FollowersOf(g, xs)) && xs <= FollowersOf(g, FollowedBy(g, xs))
  {
    assert xs <= FollowedBy(g, xs) && xs <= FollowersOf(g, xs);
    assert FollowersOf(g, xs) <= FollowedBy(g, FollowersOf(g, xs));
    assert FollowedBy(g, xs) <= FollowersOf(g, FollowedBy(g, xs));
  }

  /** What `only_following` checks in the two directions agrees: some actor lies in
      the entities followed by `subscribed` exactly when some subscribed entity is a
      follower of the actors. */
  lemma ActorsMeetFollowed(g: Graph, actors: set<EntityId>, subscribed: set<EntityId>)
    requires g.Valid() && subscribed <= g.kind.Keys
    ensures actors * FollowedBy(g, subscribed) != {} <==> subscribed * FollowersOf(g, actors) != {}
  {
    if actors * FollowedBy(g, subscribed) != {} {
      var both := actors * FollowedBy(g, subscribed);
      var a := Pick(both);
      if a in subscribed {
        assert a in subscribed * FollowersOf(g, actors);
      } else {
        var r :| r in g.relationships && r.subEntity in subscribed && r.superEntity == a;
        assert r.subEntity in SubEntitiesOf(g, actors);
        assert r.subEntity in subscribed * FollowersOf(g, actors);
      }
    }
    if subscribed * FollowersOf(g, actors) != {} {
      var both := subscribed * FollowersOf(g, actors);
      var t := Pick(both);
      if t in actors {
        assert t in actors * FollowedBy(g, subscribed);
      } else {
        var r :| r in g.relationships && r.superEntity in actors && r.subEntity == t;
        assert r.superEntity in SuperEntitiesOf(g, subscribed);
        assert r.superEntity in actors * FollowedBy(g, subscribed);
      }
    }
  }
}
