/** The game world and the three gameplay systems that update it each frame,
    written as the step-by-step updates the systems perform, each proved to
    produce the world its specification function describes. */
module Systems {
  import opened Geometry
  import opened Animation
  import opened Ecs
  import opened Input
  import opened EnemyAi
  import opened PlayerControl
  import opened Hierarchy

  /** The world: one map per component, and the entities that were given the
      animation graph. */
  class World {
    var transforms: map<Entity, Transform>
    var players: map<Entity, Player>
    var enemies: map<Entity, Enemy>
    var parents: map<Entity, Entity>
    var animPlayers: map<Entity, AnimPlayer>
    var graphs: set<Entity>

    function State(): WorldState
      reads this
    {
      WorldState(transforms, players, enemies, parents, animPlayers, graphs)
    }

    /** One iteration of `enemy_behavior`'s loop: enemy `e` takes its step. */
    method StepEnemy(e: Entity, playerPos: Vec3, dt: real, m: Maths)
      requires e in EnemyQuery(State())
      modifies this
      ensures State() == EnemyTickIn(old(State()), e, playerPos, dt, m)
    {
      var u := UpdateEnemy(enemies[e], transforms[e], playerPos, animPlayers, dt, m);
      enemies := enemies[e := u.enemy];
      transforms := transforms[e := u.transform];
      animPlayers := u.anims;
    }

    /** One iteration of `player_movement`'s loop: player `e` takes its step. */
    method StepPlayer(e: Entity, keys: Keys, mobile: MobileSnapshot, dt: real, m: Maths)
      requires e in PlayerQuery(State())
      modifies this
      ensures State() == PlayerTickIn(old(State()), e, keys, mobile, dt, m)
    {
      var u := UpdatePlayer(players[e], transforms[e], animPlayers, keys, mobile, dt, m);
      players := players[e := u.player];
      transforms := transforms[e := u.transform];
      animPlayers := u.anims;
    }

    /** One iteration of `link_animations`' loop: the entity gets the graph,
        and the walk up its parents records it on the nearest owner. */
    method LinkEntity(entity: Entity, ghost rank: map<Entity, nat>)
      requires Ranked(parents, rank)
      modifies this
      ensures State() == LinkOne(old(State()), entity, rank)
    {
      graphs := graphs + {entity};
      var owner := FindOwner(parents, rank, players.Keys, enemies.Keys, entity);
      match owner {
        case Some(PlayerOwner(a)) =>
          players := players[a := players[a].(animationEntity := Some(entity))];
        case Some(EnemyOwner(a)) =>
          enemies := enemies[a := enemies[a].(animationEntity := Some(entity))];
        case None =>
      }
    }

    /** `enemy_behavior`: if exactly one entity has a player and a transform,
        every enemy (in the query's order) re-decides its state from its
        distance to that player, chases while running, and selects its clip;
        otherwise nothing changes. */
    method EnemyBehavior(order: seq<Entity>, dt: real, m: Maths)
      requires IsQueryOrder(order, EnemyQuery(State()))
      modifies this
      ensures State() == EnemyFrame(old(State()), order, dt, m)
    {
      var candidates := set e | e in players && e in transforms;
      assert candidates == PlayerQuery(State());
      if |candidates| != 1 {
        return;
      }
      var player :| player in candidates;
      forall q | q in candidates ensures q == player {
        SingletonMember(candidates, player, q);
      }
      var playerPos := transforms[player].translation;
      ghost var start := State();

      var i := 0;
      while i < |order|
        invariant 0 <= i <= |order|
        invariant State() == EnemyFold(start, order[..i], playerPos, dt, m)
        invariant players == start.players && enemies.Keys == start.enemies.Keys
        invariant transforms.Keys == start.transforms.Keys
      {
        var e := order[i];
        assert e in EnemyQuery(start);
        StepEnemy(e, playerPos, dt, m);
        assert order[..i + 1][..i] == order[..i];
        i := i + 1;
      }
      assert order[..|order|] == order;
    }

    /** `player_movement`: every player (in the query's order) reads the
        keyboard and mobile input, takes the input-driven transition, turns and,
        unless punching, moves along its facing, then selects its clip, which
        may end a jump or a punch. */
    method PlayerMovement(order: seq<Entity>, keys: Keys, mobile: MobileInput, dt: real, m: Maths)
      requires IsQueryOrder(order, PlayerQuery(State()))
      modifies this
      ensures State() == PlayerFold(old(State()), order, keys, mobile.Snapshot(), dt, m)
    {
      ghost var start := State();
      var snapshot := mobile.Snapshot();
      var i := 0;
      while i < |order|
        invariant 0 <= i <= |order|
        invariant State() == PlayerFold(start, order[..i], keys, snapshot, dt, m)
        invariant players.Keys == start.players.Keys && transforms.Keys == start.transforms.Keys
      {
        var e := order[i];
        assert e in PlayerQuery(start);
        StepPlayer(e, keys, snapshot, dt, m);
        assert order[..i + 1][..i] == order[..i];
        i := i + 1;
      }
      assert order[..|order|] == order;
    }

    /** `link_animations`: each newly added animation player gets the
        animation graph and is recorded on its nearest player or enemy
        ancestor. */
    method LinkAnimations(added: seq<Entity>, ghost rank: map<Entity, nat>)
      requires Ranked(parents, rank)
      modifies this
      ensures State() == LinkFold(old(State()), added, rank)
    {
      ghost var start := State();
      var i := 0;
      while i < |added|
        invariant 0 <= i <= |added|
        invariant parents == start.parents
        invariant State() == LinkFold(start, added[..i], rank)
      {
        LinkEntity(added[i], rank);
        assert added[..i + 1][..i] == added[..i];
        i := i + 1;
      }
      assert added[..|added|] == added;
    }
  }

  /** `sync_mobile_input`: the frame's input resource takes all four fields of
      the shared record that the page writes. */
  method SyncMobileInput(input: MobileInput, shared: MobileInput)
    modifies input
    ensures input.Snapshot() == old(shared.Snapshot())
  {
    input.SyncFrom(shared);
  }
}
