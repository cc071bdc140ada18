/** The components the gameplay systems read and write, and the world state
    that holds one map per component, keyed by entity. */
module Ecs {
  import opened Geometry
  import opened Animation

  type Entity = nat

  datatype Option<T> = None | Some(value: T)

  /** The one state type shared by the player and the enemies. */
  datatype PlayerState = Idle | Running | Jumping | Punching

  datatype Player = Player(speed: real, state: PlayerState, animationEntity: Option<Entity>)

  datatype Enemy = Enemy(speed: real, state: PlayerState, animationEntity: Option<Entity>)

  /** A transform whose rotation is a yaw about the vertical axis: the only
      rotations the systems apply are about that axis. */
  datatype Transform = Transform(translation: Vec3, yaw: real)

  datatype WorldState = WorldState(
    transforms: map<Entity, Transform>,
    players: map<Entity, Player>,
    enemies: map<Entity, Enemy>,
    parents: map<Entity, Entity>,
    animPlayers: map<Entity, AnimPlayer>,
    graphs: set<Entity>)  // entities that were given the animation graph

  /** The entities a query over `(Transform, Player)` visits. */
  function PlayerQuery(w: WorldState): (r: set<Entity>)
    ensures r <= w.players.Keys && r <= w.transforms.Keys
    ensures forall e :: e in w.players && e in w.transforms ==> e in r
    ensures w.players.Keys <= w.transforms.Keys ==> r == w.players.Keys
  {
    set e | e in w.players && e in w.transforms
  }

  /** The entities a query over `(Transform, Enemy)` without `Player` visits:
      an enemy with a transform is visited by exactly one of the two queries. */
  function EnemyQuery(w: WorldState): (r: set<Entity>)
    ensures r <= w.enemies.Keys && r <= w.transforms.Keys
    ensures r !! PlayerQuery(w)
    ensures forall e :: e in w.enemies && e in w.transforms ==> (e in r <==> e !in PlayerQuery(w))
  {
    set e | e in w.enemies && e in w.transforms && e !in w.players
  }

  /** `order` is an iteration order of a query matching exactly `matches`:
      each matching entity once, nothing else. */
  ghost predicate IsQueryOrder(order: seq<Entity>, matches: set<Entity>) {
    (forall e :: e in order <==> e in matches) &&
    (forall i, j :: 0 <= i < j < |order| ==> order[i] != order[j])
  }

  /** The animation player an actor is linked to, if the link is set and the
      linked entity has an animation player. */
  function Linked(link: Option<Entity>, anims: map<Entity, AnimPlayer>): (r: Option<AnimPlayer>)
    ensures r.Some? <==> link.Some? && link.value in anims
    ensures r.Some? ==> r.value == anims[link.value]
  {
    match link
    case None => None
    case Some(e) => if e in anims then Some(anims[e]) else None
  }

  /** A non-empty set with one element holds no other. */
  lemma SingletonMember(s: set<Entity>, p: Entity, q: Entity)
    requires |s| == 1 && p in s && q in s
    ensures p == q
  {
    if p != q {
      assert {p, q} <= s;
      assert |{p, q}| == 2;
      SubsetCardinality({p, q}, s);
    }
  }

  lemma {:induction false} SubsetCardinality(a: set<Entity>, b: set<Entity>)
    requires a <= b
    ensures |a| <= |b|
    decreases a
  {
    if a != {} {
      var x :| x in a;
      SubsetCardinality(a - {x}, b - {x});
    }
  }
}
