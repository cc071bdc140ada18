/** The per-player logic of `player_movement`: the input direction, the state
    machine with its priority rule, tank steering with translation gated by the
    punch, and the clip selection that ends the one-shot states. */
module PlayerControl {
  import opened Geometry
  import opened Animation
  import opened Ecs
  import opened Input

  /** Radians per second of yaw for a full sideways input. */
  const RotationSpeed: real := 2.0

  /** The contribution of a pair of opposed keys: -1, 0 or 1. */
  function KeyAxis(negative: bool, positive: bool): real {
    (if negative then -1.0 else 0.0) + (if positive then 1.0 else 0.0)
  }

  /** The frame's direction: W and S move along z, A and D along x, and a
      deflected joystick adds its two axes on top; nothing sets y. */
  function Direction(keys: Keys, mobile: MobileSnapshot): (d: Vec3)
    ensures d.y == 0.0
    ensures d.x == KeyAxis(keys.a, keys.d) + (if mobile.joystickX != 0.0 || mobile.joystickY != 0.0 then mobile.joystickX else 0.0)
    ensures d.z == KeyAxis(keys.w, keys.s) + (if mobile.joystickX != 0.0 || mobile.joystickY != 0.0 then mobile.joystickY else 0.0)
    ensures mobile.joystickX == 0.0 && !keys.a && !keys.d ==> d.x == 0.0
    ensures mobile.joystickY == 0.0 && !keys.w && !keys.s ==> d.z == 0.0
  {
    var fromKeys := Vec3(KeyAxis(keys.a, keys.d), 0.0, KeyAxis(keys.w, keys.s));
    if mobile.joystickX != 0.0 || mobile.joystickY != 0.0 then
      Vec3(fromKeys.x + mobile.joystickX, 0.0, fromKeys.z + mobile.joystickY)
    else fromKeys
  }

  /** The input-driven transition. From Idle or Running a punch wins over a
      jump, a jump over movement, movement over standing still; Jumping and
      Punching ignore input. */
  function PlayerIntent(state: PlayerState, punch: bool, jump: bool, moving: bool): (next: PlayerState)
    ensures (state == Jumping || state == Punching) ==> next == state
    ensures (state == Idle || state == Running) ==>
      (next == Punching <==> punch) &&
      (next == Jumping <==> !punch && jump) &&
      (next == Running <==> !punch && !jump && moving) &&
      (next == Idle <==> !punch && !jump && !moving)
  {
    match state
    case Idle | Running =>
      if punch then Punching
      else if jump then Jumping
      else if moving then Running
      else Idle
    case Jumping => state
    case Punching => state
  }

  /** Tank steering: sideways input turns the yaw; forward input moves along
      the facing after that turn, except while punching. */
  function Steer(t: Transform, direction: Vec3, state: PlayerState, speed: real, dt: real, m: Maths): Transform
  {
    var rotationInput := -direction.x;
    var yaw := if Abs(rotationInput) > 0.0 then t.yaw + rotationInput * RotationSpeed * dt else t.yaw;
    var moveInput := -direction.z;
    var translation :=
      if state != Punching && Abs(moveInput) > 0.0
      then Add(t.translation, Scale(m.forward(yaw), moveInput * speed * dt))
      else t.translation;
    Transform(translation, yaw)
  }

  /** What steering does, stated without the key-by-key guards: the yaw moves
      by the sideways input at two radians per second (a zero input adds
      nothing), and the position moves along the new facing by the forward
      input, unless punching or the forward input is zero. */
  lemma SteerMeaning(t: Transform, direction: Vec3, state: PlayerState, speed: real, dt: real, m: Maths)
    ensures var r := Steer(t, direction, state, speed, dt, m);
      r.yaw == t.yaw - direction.x * RotationSpeed * dt &&
      (state == Punching ==> r.translation == t.translation) &&
      (direction.z == 0.0 ==> r.translation == t.translation) &&
      (state != Punching ==>
        r.translation == Add(t.translation, Scale(m.forward(r.yaw), -direction.z * speed * dt)))
  {
  }

  /** The clip for each player state. */
  function PlayerClip(s: PlayerState): (c: Clip)
    ensures c == IdleClip <==> s == Idle
    ensures c == RunClip <==> s == Running
    ensures c == PunchClip <==> s == Punching
    ensures c == JumpClip <==> s == Jumping
    ensures Settings(c).repeat <==> s == Idle || s == Running
  {
    match s
    case Running => RunClip
    case Idle => IdleClip
    case Punching => PunchClip
    case Jumping => JumpClip
  }

  datatype AnimOutcome = AnimOutcome(state: PlayerState, anims: map<Entity, AnimPlayer>)

  /** The animation block: start the state's clip if it is not playing; a
      one-shot state whose clip is already playing returns to Idle once the
      animation player reports that everything finished. */
  function PlayerAnimate(state: PlayerState, link: Option<Entity>, anims: map<Entity, AnimPlayer>): (r: AnimOutcome)
    ensures r.state != state ==> r.state == Idle && (state == Jumping || state == Punching)
    ensures r.state != state <==>
      (state == Jumping || state == Punching) && Linked(link, anims).Some? &&
      IsPlaying(Linked(link, anims).value, PlayerClip(state)) && Linked(link, anims).value.allFinished
    ensures r.anims.Keys == anims.Keys
    ensures forall e :: e in anims && link != Some(e) ==> r.anims[e] == anims[e]
    ensures link.Some? && link.value in anims ==>
              r.anims[link.value] == Select(anims[link.value], PlayerClip(state))
  {
    match link
    case None => AnimOutcome(state, anims)
    case Some(e) =>
      if e !in anims then AnimOutcome(state, anims)
      else
        var a := anims[e];
        match state
        case Running => AnimOutcome(state, anims[e := Select(a, RunClip)])
        case Idle => AnimOutcome(state, anims[e := Select(a, IdleClip)])
        case Punching =>
          if !IsPlaying(a, PunchClip) then AnimOutcome(state, anims[e := Select(a, PunchClip)])
          else if a.allFinished then AnimOutcome(Idle, anims)
          else AnimOutcome(state, anims)
        case Jumping =>
          if !IsPlaying(a, JumpClip) then AnimOutcome(state, anims[e := Select(a, JumpClip)])
          else if a.allFinished then AnimOutcome(Idle, anims)
          else AnimOutcome(state, anims)
  }

  datatype PlayerUpdate = PlayerUpdate(player: Player, transform: Transform, anims: map<Entity, AnimPlayer>)

  /** One player's frame: read the input, take the input-driven transition,
      steer, then select the clip (which may end a one-shot state). */
  function PlayerStep(p: Player, t: Transform, anims: map<Entity, AnimPlayer>, keys: Keys, mobile: MobileSnapshot, dt: real, m: Maths): PlayerUpdate
  {
    var direction := Direction(keys, mobile);
    var jump := keys.space || mobile.jump;
    var punch := keys.enter || mobile.punch;
    var intent := PlayerIntent(p.state, punch, jump, LengthSquared(direction) > 0.0);
    var steered := Steer(t, direction, intent, p.speed, dt, m);
    var outcome := PlayerAnimate(intent, p.animationEntity, anims);
    PlayerUpdate(p.(state := outcome.state), steered, outcome.anims)
  }

  /** The input block of `player_movement`, key by key: it computes the
      frame's direction. */
  method ReadDirection(keys: Keys, mobile: MobileSnapshot) returns (direction: Vec3)
    ensures direction == Direction(keys, mobile)
  {
    direction := Zero;
    if keys.w { direction := direction.(z := direction.z - 1.0); }
    if keys.s { direction := direction.(z := direction.z + 1.0); }
    if keys.a { direction := direction.(x := direction.x - 1.0); }
    if keys.d { direction := direction.(x := direction.x + 1.0); }
    if mobile.joystickX != 0.0 || mobile.joystickY != 0.0 {
      direction := direction.(x := direction.x + mobile.joystickX, z := direction.z + mobile.joystickY);
    }
  }

  /** The steering block: turn first, then move along the new facing unless
      punching. */
  method SteerTransform(t: Transform, direction: Vec3, state: PlayerState, speed: real, dt: real, m: Maths)
    returns (transform: Transform)
    ensures transform == Steer(t, direction, state, speed, dt, m)
  {
    ghost var spec := Steer(t, direction, state, speed, dt, m);
    var rotationInput := -direction.x;
    var yaw := t.yaw;
    if Abs(rotationInput) > 0.0 {
      yaw := t.yaw + rotationInput * RotationSpeed * dt;
    }
    assert yaw == spec.yaw;
    var translation := t.translation;
    if state != Punching {
      var moveInput := -direction.z;
      if Abs(moveInput) > 0.0 {
        var forward := m.forward(yaw);
        translation := Add(t.translation, Scale(forward, moveInput * speed * dt));
      }
    }
    assert translation == spec.translation;
    transform := Transform(translation, yaw);
  }

  /** The clip-selection block: it starts the state's clip on the linked
      animation player, or ends a one-shot state whose clip has finished. */
  method SelectPlayerClip(state: PlayerState, link: Option<Entity>, animPlayers: map<Entity, AnimPlayer>)
    returns (outcome: AnimOutcome)
    ensures outcome == PlayerAnimate(state, link, animPlayers)
  {
    var next, anims := state, animPlayers;
    match link {
      case Some(entity) =>
        if entity in anims {
          var anim := anims[entity];
          match state {
            case Running =>
              if !IsPlaying(anim, RunClip) {
                anims := anims[entity := Select(anim, RunClip)];
              }
            case Idle =>
              if !IsPlaying(anim, IdleClip) {
                anims := anims[entity := Select(anim, IdleClip)];
              }
            case Punching =>
              if !IsPlaying(anim, PunchClip) {
                anims := anims[entity := Select(anim, PunchClip)];
              } else if anim.allFinished {
                next := Idle;
              }
            case Jumping =>
              if !IsPlaying(anim, JumpClip) {
                anims := anims[entity := Select(anim, JumpClip)];
              } else if anim.allFinished {
                next := Idle;
              }
          }
        }
      case None =>
    }
    outcome := AnimOutcome(next, anims);
  }

  /** The body of `player_movement`'s loop for one player, block by block: it
      computes exactly the player's frame. */
  method UpdatePlayer(p: Player, t: Transform, animPlayers: map<Entity, AnimPlayer>, keys: Keys, mobile: MobileSnapshot, dt: real, m: Maths)
    returns (u: PlayerUpdate)
    ensures u == PlayerStep(p, t, animPlayers, keys, mobile, dt, m)
  {
    var player := p;
    var direction := ReadDirection(keys, mobile);
    var jump := keys.space || mobile.jump;
    var punch := keys.enter || mobile.punch;

    // state machine
    if player.state == Idle || player.state == Running {
      var isMoving := LengthSquared(direction) > 0.0;
      if punch {
        player := player.(state := Punching);
      } else if jump {
        player := player.(state := Jumping);
      } else if isMoving {
        player := player.(state := Running);
      } else {
        player := player.(state := Idle);
      }
    }

    var transform := SteerTransform(t, direction, player.state, player.speed, dt, m);
    var outcome := SelectPlayerClip(player.state, player.animationEntity, animPlayers);
    u := PlayerUpdate(player.(state := outcome.state), transform, outcome.anims);
  }

  /** The step applied to entity `e` of the world, when the player query matches it. */
  function PlayerTickIn(w: WorldState, e: Entity, keys: Keys, mobile: MobileSnapshot, dt: real, m: Maths): WorldState
  {
    if e in w.players && e in w.transforms then
      var u := PlayerStep(w.players[e], w.transforms[e], w.animPlayers, keys, mobile, dt, m);
      w.(players := w.players[e := u.player], transforms := w.transforms[e := u.transform], animPlayers := u.anims)
    else w
  }

  /** The players of `order` stepped one after another. */
  function PlayerFold(w: WorldState, order: seq<Entity>, keys: Keys, mobile: MobileSnapshot, dt: real, m: Maths): WorldState
    decreases |order|
  {
    if order == [] then w
    else PlayerTickIn(PlayerFold(w, order[..|order| - 1], keys, mobile, dt, m), order[|order| - 1], keys, mobile, dt, m)
  }

  /** A frame changes only players, their transforms and animation players;
      which entities have which component stays the same. */
  lemma {:induction false} PlayerFoldFrame(w: WorldState, order: seq<Entity>, keys: Keys, mobile: MobileSnapshot, dt: real, m: Maths)
    ensures var r := PlayerFold(w, order, keys, mobile, dt, m);
      r.enemies == w.enemies && r.parents == w.parents && r.graphs == w.graphs &&
      r.players.Keys == w.players.Keys && r.transforms.Keys == w.transforms.Keys &&
      r.animPlayers.Keys == w.animPlayers.Keys
    decreases |order|
  {
    if order != [] {
      PlayerFoldFrame(w, order[..|order| - 1], keys, mobile, dt, m);
    }
  }

  /** One player's step inside a world: the player keeps its speed and its
      link, does not move if it was punching, and stays in an unlinked jump or
      punch; no other player or transform changes. */
  lemma PlayerTickEffect(v: WorldState, x: Entity, keys: Keys, mobile: MobileSnapshot, dt: real, m: Maths)
    requires x in v.players && x in v.transforms
    ensures var r := PlayerTickIn(v, x, keys, mobile, dt, m);
      r.players.Keys == v.players.Keys && r.transforms.Keys == v.transforms.Keys &&
      (forall e :: e in v.players && e != x ==> r.players[e] == v.players[e]) &&
      (forall e :: e in v.transforms && e != x ==> r.transforms[e] == v.transforms[e])
    ensures var r := PlayerTickIn(v, x, keys, mobile, dt, m);
      r.players[x].speed == v.players[x].speed &&
      r.players[x].animationEntity == v.players[x].animationEntity &&
      (v.players[x].state == Punching ==> r.transforms[x].translation == v.transforms[x].translation) &&
      ((v.players[x].state == Jumping || v.players[x].state == Punching) && v.players[x].animationEntity == None ==>
         r.players[x].state == v.players[x].state)
  {
    var p := v.players[x];
    var direction := Direction(keys, mobile);
    var intent := PlayerIntent(p.state, keys.enter || mobile.punch, keys.space || mobile.jump, LengthSquared(direction) > 0.0);
    SteerMeaning(v.transforms[x], direction, intent, p.speed, dt, m);
  }

  /** What a frame that visits each entity once does to one player `e` of the
      query: see PlayerFoldEffects. */
  lemma {:induction false} PlayerFoldEffectsAt(w: WorldState, order: seq<Entity>, keys: Keys, mobile: MobileSnapshot, dt: real, m: Maths, e: Entity)
    requires forall i, j :: 0 <= i < j < |order| ==> order[i] != order[j]
    requires e in w.players && e in w.transforms
    ensures var r := PlayerFold(w, order, keys, mobile, dt, m);
      e in r.players && e in r.transforms &&
      r.players[e].speed == w.players[e].speed &&
      r.players[e].animationEntity == w.players[e].animationEntity &&
      (w.players[e].state == Punching ==> r.transforms[e].translation == w.transforms[e].translation) &&
      ((w.players[e].state == Jumping || w.players[e].state == Punching) && w.players[e].animationEntity == None ==>
         r.players[e].state == w.players[e].state) &&
      (e !in order ==> r.players[e] == w.players[e] && r.transforms[e] == w.transforms[e])
    decreases |order|
  {
    if order != [] {
      var init := order[..|order| - 1];
      var x := order[|order| - 1];
      assert x !in init;
      PlayerFoldEffectsAt(w, init, keys, mobile, dt, m, e);
      PlayerFoldFrame(w, init, keys, mobile, dt, m);
      var r0 := PlayerFold(w, init, keys, mobile, dt, m);
      if x in r0.players && x in r0.transforms {
        PlayerTickEffect(r0, x, keys, mobile, dt, m);
      }
    }
  }

  /** What a frame does to each player of the query, when it visits each
      entity once: a visited player keeps its speed and its link; one that
      starts the frame punching does not move; a jump or a punch with no
      linked animation entity goes on; a player the frame did not visit is as
      it was. */
  lemma PlayerFoldEffects(w: WorldState, order: seq<Entity>, keys: Keys, mobile: MobileSnapshot, dt: real, m: Maths)
    requires forall i, j :: 0 <= i < j < |order| ==> order[i] != order[j]
    ensures var r := PlayerFold(w, order, keys, mobile, dt, m);
      forall e :: e in PlayerQuery(w) ==>
        e in r.players && e in r.transforms &&
        r.players[e].speed == w.players[e].speed &&
        r.players[e].animationEntity == w.players[e].animationEntity &&
        (w.players[e].state == Punching ==> r.transforms[e].translation == w.transforms[e].translation) &&
        ((w.players[e].state == Jumping || w.players[e].state == Punching) && w.players[e].animationEntity == None ==>
           r.players[e].state == w.players[e].state) &&
        (e !in order ==> r.players[e] == w.players[e] && r.transforms[e] == w.transforms[e])
  {
    forall e | e in PlayerQuery(w) {
      PlayerFoldEffectsAt(w, order, keys, mobile, dt, m, e);
    }
  }

  /** Holding only A or only D, with the joystick at rest and no button, turns
      a standing or running player on the spot: it is Running, its position
      does not change, and its yaw changes by two radians per second. */
  lemma TurnKeysRunInPlace(p: Player, t: Transform, anims: map<Entity, AnimPlayer>, left: bool, dt: real, m: Maths)
    requires p.state == Idle || p.state == Running
    ensures var u := PlayerStep(p, t, anims, Keys(false, false, left, !left, false, false), AtRest, dt, m);
      u.player.state == Running &&
      u.transform.translation == t.translation &&
      u.transform.yaw == t.yaw + (if left then RotationSpeed else -RotationSpeed) * dt
  {
    var keys := Keys(false, false, left, !left, false, false);
    var direction := Direction(keys, AtRest);
    assert direction == Vec3(if left then -1.0 else 1.0, 0.0, 0.0);
    assert LengthSquared(direction) == 1.0;
  }

  /** Whenever the input-driven transition leaves the player Punching, the
      frame does not move it, yet it still turns with the sideways input. */
  lemma PunchFreezesPosition(p: Player, t: Transform, anims: map<Entity, AnimPlayer>, keys: Keys, mobile: MobileSnapshot, dt: real, m: Maths)
    requires p.state == Punching || ((p.state == Idle || p.state == Running) && (keys.enter || mobile.punch))
    ensures var u := PlayerStep(p, t, anims, keys, mobile, dt, m);
      u.transform.translation == t.translation &&
      u.transform.yaw == t.yaw - Direction(keys, mobile).x * RotationSpeed * dt
  {
    var jump := keys.space || mobile.jump;
    var punch := keys.enter || mobile.punch;
    var intent := PlayerIntent(p.state, punch, jump, LengthSquared(Direction(keys, mobile)) > 0.0);
    SteerMeaning(t, Direction(keys, mobile), intent, p.speed, dt, m);
  }

  /** What one player sees in a frame. */
  datatype PlayerFrameInput = PlayerFrameInput(keys: Keys, mobile: MobileSnapshot, anims: map<Entity, AnimPlayer>, dt: real)

  /** One player over a sequence of frames. */
  function PlayerRun(p: Player, t: Transform, frames: seq<PlayerFrameInput>, m: Maths): (Player, Transform)
    decreases |frames|
  {
    if frames == [] then (p, t)
    else
      var u := PlayerStep(p, t, frames[0].anims, frames[0].keys, frames[0].mobile, frames[0].dt, m);
      PlayerRun(u.player, u.transform, frames[1..], m)
  }

  /** Without a linked animation entity a jump or a punch never ends, whatever
      the input; a player stuck punching never moves again. */
  lemma {:induction false} UnlinkedOneShotNeverEnds(p: Player, t: Transform, frames: seq<PlayerFrameInput>, m: Maths)
    requires p.state == Jumping || p.state == Punching
    requires p.animationEntity == None
    ensures PlayerRun(p, t, frames, m).0.state == p.state
    ensures p.state == Punching ==> PlayerRun(p, t, frames, m).1.translation == t.translation
    decreases |frames|
  {
    if frames != [] {
      var u := PlayerStep(p, t, frames[0].anims, frames[0].keys, frames[0].mobile, frames[0].dt, m);
      assert u.player == p;
      UnlinkedOneShotNeverEnds(u.player, u.transform, frames[1..], m);
    }
  }

  /** Selecting the clip a second time in the same state changes nothing more. */
  lemma PlayerAnimateIdempotent(state: PlayerState, link: Option<Entity>, anims: map<Entity, AnimPlayer>)
    requires state == Idle || state == Running
    ensures var r := PlayerAnimate(state, link, anims);
      PlayerAnimate(r.state, link, r.anims) == r
  {
    if link.Some? && link.value in anims {
      SelectIdempotent(anims[link.value], PlayerClip(state));
    }
  }
}
