/** The per-enemy logic of `enemy_behavior`: the distance-driven state machine,
    the chase movement and the clip selection, and what they imply over a
    whole frame and over many frames. */
module EnemyAi {
  import opened Geometry
  import opened Animation
  import opened Ecs

  const ChaseRange: real := 15.0
  const AttackRange: real := 1.5
  /** Factor of the frame time by which an enemy turns toward the player. */
  const TurnRate: real := 10.0

  /** The next state of an enemy at `distance` from the player. A punch is held
      until the linked animation player reports that all its clips finished. */
  function EnemyTransition(state: PlayerState, distance: real, anim: Option<AnimPlayer>): (next: PlayerState)
    ensures next != Jumping
    ensures state != Punching ==> (next == Punching <==> distance < AttackRange)
    ensures state != Punching ==> (next == Running <==> AttackRange <= distance < ChaseRange)
    ensures state != Punching ==> (next == Idle <==> ChaseRange <= distance)
    ensures state == Punching ==> (next == Idle <==> anim.Some? && anim.value.allFinished)
    ensures state == Punching && next != Idle ==> next == Punching
  {
    if state == Punching then
      match anim
      case Some(a) => if a.allFinished then Idle else Punching
      case None => Punching
    else if distance < AttackRange then Punching
    else if distance < ChaseRange then Running
    else Idle
  }

  /** The chase: only a running enemy moves, along the normalised horizontal
      direction to the player, and turns toward it. */
  function EnemyMove(state: PlayerState, t: Transform, playerPos: Vec3, speed: real, dt: real, m: Maths): (r: Transform)
    ensures r.translation.y == t.translation.y
    ensures state != Running ==> r == t
    ensures Horizontal(Sub(playerPos, t.translation)) == Zero ==> r == t
  {
    if state == Running then
      var direction := Horizontal(Sub(playerPos, t.translation));
      if LengthSquared(direction) > 0.0 then
        var unit := Scale(direction, m.lengthRecip(direction));
        Transform(Add(t.translation, Scale(unit, speed * dt)), m.turnToward(t.yaw, unit, TurnRate * dt))
      else t
    else t
  }

  /** The clip for each enemy state; an enemy never jumps, and a jumping state
      would show the idle clip. */
  function EnemyClip(s: PlayerState): (c: Clip)
    ensures c != JumpClip
    ensures c == IdleClip <==> s == Idle || s == Jumping
    ensures c == RunClip <==> s == Running
    ensures c == PunchClip <==> s == Punching
  {
    match s
    case Running => RunClip
    case Idle => IdleClip
    case Punching => PunchClip
    case Jumping => IdleClip
  }

  /** Start the state's clip on the linked animation player, if any. */
  function EnemyAnimate(s: PlayerState, link: Option<Entity>, anims: map<Entity, AnimPlayer>): (r: map<Entity, AnimPlayer>)
    ensures r.Keys == anims.Keys
    ensures forall e :: e in anims && link != Some(e) ==> r[e] == anims[e]
    ensures link.Some? && link.value in anims ==>
              r[link.value] == Select(anims[link.value], EnemyClip(s))
  {
    match link
    case None => anims
    case Some(e) => if e in anims then anims[e := Select(anims[e], EnemyClip(s))] else anims
  }

  datatype EnemyUpdate = EnemyUpdate(enemy: Enemy, transform: Transform, anims: map<Entity, AnimPlayer>)

  /** One enemy's frame: transition on the distance before moving, then the
      chase, then the clip of the new state. */
  function EnemyStep(en: Enemy, t: Transform, playerPos: Vec3, anims: map<Entity, AnimPlayer>, dt: real, m: Maths): EnemyUpdate
  {
    var next := EnemyTransition(en.state, m.length(Sub(t.translation, playerPos)), Linked(en.animationEntity, anims));
    EnemyUpdate(
      en.(state := next),
      EnemyMove(next, t, playerPos, en.speed, dt, m),
      EnemyAnimate(next, en.animationEntity, anims))
  }

  /** The body of `enemy_behavior`'s loop for one enemy, step by step: it
      computes exactly the enemy's frame. */
  method UpdateEnemy(en: Enemy, t: Transform, playerPos: Vec3, animPlayers: map<Entity, AnimPlayer>, dt: real, m: Maths)
    returns (u: EnemyUpdate)
    ensures u == EnemyStep(en, t, playerPos, animPlayers, dt, m)
  {
    var enemy, transform, anims := en, t, animPlayers;
    var distance := m.length(Sub(transform.translation, playerPos));

    // state transition
    if enemy.state == Punching {
      match enemy.animationEntity {
        case Some(entity) =>
          if entity in anims && anims[entity].allFinished {
            enemy := enemy.(state := Idle);
          }
        case None =>
      }
    } else if distance < AttackRange {
      enemy := enemy.(state := Punching);
    } else if distance < ChaseRange {
      enemy := enemy.(state := Running);
    } else {
      enemy := enemy.(state := Idle);
    }

    // chase
    if enemy.state == Running {
      var direction := Horizontal(Sub(playerPos, transform.translation));
      if LengthSquared(direction) > 0.0 {
        direction := Scale(direction, m.lengthRecip(direction));
        transform := Transform(
          Add(transform.translation, Scale(direction, enemy.speed * dt)),
          m.turnToward(transform.yaw, direction, TurnRate * dt));
      }
    }

    // clip selection
    match enemy.animationEntity {
      case Some(entity) =>
        if entity in anims {
          anims := anims[entity := Select(anims[entity], EnemyClip(enemy.state))];
        }
      case None =>
    }
    u := EnemyUpdate(enemy, transform, anims);
  }

  /** The step applied to entity `e` of the world, when the enemy query matches it. */
  function EnemyTickIn(w: WorldState, e: Entity, playerPos: Vec3, dt: real, m: Maths): WorldState
  {
    if e in w.enemies && e in w.transforms && e !in w.players then
      var u := EnemyStep(w.enemies[e], w.transforms[e], playerPos, w.animPlayers, dt, m);
      w.(enemies := w.enemies[e := u.enemy], transforms := w.transforms[e := u.transform], animPlayers := u.anims)
    else w
  }

  /** The enemies of `order` stepped one after another. */
  function EnemyFold(w: WorldState, order: seq<Entity>, playerPos: Vec3, dt: real, m: Maths): WorldState
    decreases |order|
  {
    if order == [] then w
    else EnemyTickIn(EnemyFold(w, order[..|order| - 1], playerPos, dt, m), order[|order| - 1], playerPos, dt, m)
  }

  /** A whole `enemy_behavior` frame: nothing happens unless the player query
      matches exactly one entity; otherwise every enemy chases that one. */
  ghost function EnemyFrame(w: WorldState, order: seq<Entity>, dt: real, m: Maths): WorldState
  {
    var players := PlayerQuery(w);
    if |players| == 1 then
      var p :| p in players;
      EnemyFold(w, order, w.transforms[p].translation, dt, m)
    else w
  }

  /** A frame changes only enemies, their transforms and animation players;
      which entities have which component stays the same. */
  lemma {:induction false} EnemyFoldFrame(w: WorldState, order: seq<Entity>, playerPos: Vec3, dt: real, m: Maths)
    ensures var r := EnemyFold(w, order, playerPos, dt, m);
      r.players == w.players && r.parents == w.parents && r.graphs == w.graphs &&
      r.enemies.Keys == w.enemies.Keys && r.transforms.Keys == w.transforms.Keys &&
      r.animPlayers.Keys == w.animPlayers.Keys
    decreases |order|
  {
    if order != [] {
      EnemyFoldFrame(w, order[..|order| - 1], playerPos, dt, m);
    }
  }

  /** One enemy's step inside a world: the enemy takes the threshold
      transition and keeps its speed, link and height, and does not move
      unless running; no other enemy or transform changes, and no animation
      player's finished flag changes. */
  lemma EnemyTickEffect(v: WorldState, x: Entity, playerPos: Vec3, dt: real, m: Maths)
    requires x in v.enemies && x in v.transforms && x !in v.players
    ensures var r := EnemyTickIn(v, x, playerPos, dt, m);
      r.players == v.players && r.enemies.Keys == v.enemies.Keys &&
      r.transforms.Keys == v.transforms.Keys && r.animPlayers.Keys == v.animPlayers.Keys &&
      (forall k :: k in v.animPlayers ==> r.animPlayers[k].allFinished == v.animPlayers[k].allFinished) &&
      (forall e :: e in v.enemies && e != x ==> r.enemies[e] == v.enemies[e]) &&
      (forall e :: e in v.transforms && e != x ==> r.transforms[e] == v.transforms[e])
    ensures var r := EnemyTickIn(v, x, playerPos, dt, m);
      r.enemies[x] == v.enemies[x].(state := EnemyTransition(v.enemies[x].state,
                                                             m.length(Sub(v.transforms[x].translation, playerPos)),
                                                             Linked(v.enemies[x].animationEntity, v.animPlayers))) &&
      r.transforms[x].translation.y == v.transforms[x].translation.y &&
      (r.enemies[x].state != Running ==> r.transforms[x] == v.transforms[x])
  {
  }

  /** The transition reads an animation player only through its finished
      flag, so two maps with the same keys and flags give the same transition. */
  lemma TransitionSeesOnlyFinished(s: PlayerState, distance: real, link: Option<Entity>,
                                   a: map<Entity, AnimPlayer>, b: map<Entity, AnimPlayer>)
    requires a.Keys == b.Keys
    requires forall k :: k in a ==> a[k].allFinished == b[k].allFinished
    ensures EnemyTransition(s, distance, Linked(link, a)) == EnemyTransition(s, distance, Linked(link, b))
  {
  }

  /** No clip selection of an enemy frame changes an animation player's
      finished flag. */
  lemma {:induction false} EnemyFoldFlags(w: WorldState, order: seq<Entity>, playerPos: Vec3, dt: real, m: Maths)
    ensures var r := EnemyFold(w, order, playerPos, dt, m);
      r.animPlayers.Keys == w.animPlayers.Keys &&
      forall k :: k in w.animPlayers ==> r.animPlayers[k].allFinished == w.animPlayers[k].allFinished
    decreases |order|
  {
    if order != [] {
      var init := order[..|order| - 1];
      var x := order[|order| - 1];
      EnemyFoldFlags(w, init, playerPos, dt, m);
      var r0 := EnemyFold(w, init, playerPos, dt, m);
      if x in r0.enemies && x in r0.transforms && x !in r0.players {
        EnemyTickEffect(r0, x, playerPos, dt, m);
      }
    }
  }

  /** What a frame that visits each entity once does to one enemy `e` of the
      query: see EnemyFoldEffects. */
  lemma {:induction false} EnemyFoldEffectsAt(w: WorldState, order: seq<Entity>, playerPos: Vec3, dt: real, m: Maths, e: Entity)
    requires forall i, j :: 0 <= i < j < |order| ==> order[i] != order[j]
    requires e in w.enemies && e in w.transforms && e !in w.players
    ensures var r := EnemyFold(w, order, playerPos, dt, m);
      e in r.enemies && e in r.transforms &&
      r.enemies[e].speed == w.enemies[e].speed &&
      r.enemies[e].animationEntity == w.enemies[e].animationEntity &&
      r.transforms[e].translation.y == w.transforms[e].translation.y &&
      (e in order ==>
         r.enemies[e].state ==
           EnemyTransition(w.enemies[e].state, m.length(Sub(w.transforms[e].translation, playerPos)),
                           Linked(w.enemies[e].animationEntity, w.animPlayers))) &&
      (e in order && r.enemies[e].state != Running ==> r.transforms[e] == w.transforms[e]) &&
      (e !in order ==> r.enemies[e] == w.enemies[e] && r.transforms[e] == w.transforms[e])
    decreases |order|
  {
    if order != [] {
      var init := order[..|order| - 1];
      var x := order[|order| - 1];
      assert x !in init;
      EnemyFoldEffectsAt(w, init, playerPos, dt, m, e);
      EnemyFoldFrame(w, init, playerPos, dt, m);
      var r0 := EnemyFold(w, init, playerPos, dt, m);
      if x in r0.enemies && x in r0.transforms && x !in r0.players {
        EnemyTickEffect(r0, x, playerPos, dt, m);
        if x == e {
          EnemyFoldFlags(w, init, playerPos, dt, m);
          TransitionSeesOnlyFinished(w.enemies[e].state, m.length(Sub(w.transforms[e].translation, playerPos)),
                                     w.enemies[e].animationEntity, r0.animPlayers, w.animPlayers);
        }
      }
    }
  }

  /** What a frame does to each enemy of the query, when it visits each
      entity once: a visited enemy takes the threshold transition on its
      distance at the start of the frame (clip selections of earlier enemies
      cannot affect it, since no animation player's finished flag changes),
      keeps its speed, its link and its height, is not jumping, and has not
      moved unless it ends the frame running; an enemy the frame did not visit
      is as it was. */
  lemma EnemyFoldEffects(w: WorldState, order: seq<Entity>, playerPos: Vec3, dt: real, m: Maths)
    requires forall i, j :: 0 <= i < j < |order| ==> order[i] != order[j]
    ensures var r := EnemyFold(w, order, playerPos, dt, m);
      forall k :: k in w.animPlayers ==> k in r.animPlayers && r.animPlayers[k].allFinished == w.animPlayers[k].allFinished
    ensures var r := EnemyFold(w, order, playerPos, dt, m);
      forall e :: e in EnemyQuery(w) ==>
        e in r.enemies && e in r.transforms &&
        r.enemies[e].speed == w.enemies[e].speed &&
        r.enemies[e].animationEntity == w.enemies[e].animationEntity &&
        r.transforms[e].translation.y == w.transforms[e].translation.y &&
        (e in order ==>
           r.enemies[e].state ==
             EnemyTransition(w.enemies[e].state, m.length(Sub(w.transforms[e].translation, playerPos)),
                             Linked(w.enemies[e].animationEntity, w.animPlayers))) &&
        (e in order ==> r.enemies[e].state != Jumping) &&
        (e in order && r.enemies[e].state != Running ==> r.transforms[e] == w.transforms[e]) &&
        (e !in order ==> r.enemies[e] == w.enemies[e] && r.transforms[e] == w.transforms[e])
  {
    EnemyFoldFlags(w, order, playerPos, dt, m);
    forall e | e in EnemyQuery(w) {
      EnemyFoldEffectsAt(w, order, playerPos, dt, m, e);
    }
  }

  /** Over a frame in which exactly one player exists, every enemy of the
      query takes the threshold transition on its distance to that player,
      keeps its speed, its link and its height, is not jumping, and has not
      moved unless it is running. */
  lemma EnemyFrameEffects(w: WorldState, order: seq<Entity>, dt: real, m: Maths)
    requires IsQueryOrder(order, EnemyQuery(w))
    requires |PlayerQuery(w)| == 1
    ensures var r := EnemyFrame(w, order, dt, m);
      forall e, p :: e in EnemyQuery(w) && p in PlayerQuery(w) ==>
        e in r.enemies && e in r.transforms &&
        r.enemies[e].state ==
          EnemyTransition(w.enemies[e].state, m.length(Sub(w.transforms[e].translation, w.transforms[p].translation)),
                          Linked(w.enemies[e].animationEntity, w.animPlayers)) &&
        r.enemies[e].speed == w.enemies[e].speed &&
        r.enemies[e].animationEntity == w.enemies[e].animationEntity &&
        r.transforms[e].translation.y == w.transforms[e].translation.y &&
        r.enemies[e].state != Jumping &&
        (r.enemies[e].state != Running ==> r.transforms[e] == w.transforms[e])
  {
    var p :| p in PlayerQuery(w);
    forall q | q in PlayerQuery(w) ensures q == p {
      SingletonMember(PlayerQuery(w), p, q);
    }
    EnemyFoldEffects(w, order, w.transforms[p].translation, dt, m);
  }

  /** Without exactly one player, an `enemy_behavior` frame changes nothing. */
  lemma NoSinglePlayerNoChange(w: WorldState, order: seq<Entity>, dt: real, m: Maths)
    requires |PlayerQuery(w)| != 1
    ensures EnemyFrame(w, order, dt, m) == w
  {
  }

  /** A running enemy moves along the line to the player: its new horizontal
      offset to the player is the old one shrunk by the factor the step uses,
      and that factor is positive when the library's reciprocal length is. */
  lemma ChaseTowardPlayer(t: Transform, playerPos: Vec3, speed: real, dt: real, m: Maths)
    requires LengthSquared(Horizontal(Sub(playerPos, t.translation))) > 0.0
    ensures var offset := Horizontal(Sub(playerPos, t.translation));
      var k := m.lengthRecip(offset) * speed * dt;
      var r := EnemyMove(Running, t, playerPos, speed, dt, m);
      Horizontal(Sub(playerPos, r.translation)) == Scale(offset, 1.0 - k) &&
      (m.lengthRecip(offset) > 0.0 && speed > 0.0 && dt > 0.0 ==> k > 0.0)
  {
    var offset := Horizontal(Sub(playerPos, t.translation));
    var k := m.lengthRecip(offset) * speed * dt;
    assert m.lengthRecip(offset) > 0.0 && speed > 0.0 && dt > 0.0 ==> m.lengthRecip(offset) * speed > 0.0;
  }

  /** What one enemy sees in a frame. */
  datatype EnemyFrameInput = EnemyFrameInput(playerPos: Vec3, anims: map<Entity, AnimPlayer>, dt: real)

  /** One enemy over a sequence of frames. */
  function EnemyRun(en: Enemy, t: Transform, frames: seq<EnemyFrameInput>, m: Maths): (Enemy, Transform)
    decreases |frames|
  {
    if frames == [] then (en, t)
    else
      var u := EnemyStep(en, t, frames[0].playerPos, frames[0].anims, frames[0].dt, m);
      EnemyRun(u.enemy, u.transform, frames[1..], m)
  }

  /** An enemy that punches without a linked animation entity punches forever
      and never moves, whatever the player does. */
  lemma {:induction false} UnlinkedPunchNeverEnds(en: Enemy, t: Transform, frames: seq<EnemyFrameInput>, m: Maths)
    requires en.state == Punching && en.animationEntity == None
    ensures EnemyRun(en, t, frames, m).0.state == Punching
    ensures EnemyRun(en, t, frames, m).1 == t
    decreases |frames|
  {
    if frames != [] {
      var u := EnemyStep(en, t, frames[0].playerPos, frames[0].anims, frames[0].dt, m);
      assert u.enemy == en && u.transform == t;
      UnlinkedPunchNeverEnds(u.enemy, u.transform, frames[1..], m);
    }
  }

  /** Repeating the clip selection in the same state changes nothing more. */
  lemma EnemyAnimateIdempotent(s: PlayerState, link: Option<Entity>, anims: map<Entity, AnimPlayer>)
    ensures EnemyAnimate(s, link, EnemyAnimate(s, link, anims)) == EnemyAnimate(s, link, anims)
  {
    if link.Some? && link.value in anims {
      SelectIdempotent(anims[link.value], EnemyClip(s));
    }
  }
}
