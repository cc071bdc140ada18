# kero_bevy gameplay core, modelled in Dafny

kero_bevy is a small Bevy game. Its per-frame gameplay lives in
`src/kero_bevy/src/lib.rs`. A player steers with tank controls from the
keyboard or from a mobile joystick with jump and punch buttons. Enemies chase
the single player and punch when close. Each actor's animation player is
found by walking up the scene hierarchy.

This project models that gameplay as imperative Dafny:

- `Systems.World` is the ECS world. It holds one map per component
  (transforms, players, enemies, parents, animation players) and the set of
  entities that were given the animation graph.
- The systems `enemy_behavior`, `player_movement` and `link_animations` are
  methods of `World`. Each loops over its query in a given iteration order.
- Each system is proved to produce exactly the world that a specification
  function (a left fold of one entity's step) describes.
- The per-entity loop bodies are methods (`UpdateEnemy`, `UpdatePlayer` and
  its three blocks) written statement by statement like the source. Each is
  proved equal to a pure step function.
- The source's promises are lemmas about those step functions:
  - the enemy thresholds and how an enemy leaves Punching;
  - the chase;
  - the player's priority rule and one-shot states;
  - movement gating while punching;
  - idempotent clip selection;
  - the nearest-owner search.
- The mobile input record is a class. Its setters and the per-frame sync are
  methods.

Modules:

- `Geometry`: vectors over reals, and the library maths as uninterpreted
  functions (`Maths`).
- `Animation`: clips, playback settings and clip selection.
- `Ecs`: components, world state and query sets.
- `Input`: keyboard state and the mobile input record.
- `EnemyAi` and `PlayerControl`: the per-entity logic of the two movement
  systems.
- `Hierarchy`: the parent walk of `link_animations`.
- `Systems`: the world and the four systems.

Modelling choices:

- Coordinates, distances and times are `real`.
- A rotation is a yaw about the vertical axis. `rotate_y` adds to the yaw.
- `Vec3::length`, `length_recip` (by which `normalize` multiplies),
  `Transform::forward` and the slerp toward the target heading are fields of
  `Geometry.Maths`. Every statement that uses them holds whatever functions
  they are.
- An animation player is its set of active clips, with their repeat and speed
  settings, plus the `all_finished` flag. The animation library reports that
  flag and the model never changes it.
- A query's iteration order is a parameter. It lists every matching entity
  exactly once.
- The parent map is required to be a forest. A ghost `rank` that decreases
  from child to parent witnesses this, and bounds the walk.
- The code has no health, damage, cooldown timers, jump physics or punch
  hit-cone, so neither does the model.

## Model

| member | source | states |
|---|---|---|
| Animation.Settings | src/kero_bevy/src/lib.rs:333-354 | Idle and run clips repeat and the one-shot clips do not; run plays at 1.5, every other clip at 1.0 |
| Animation.Select | src/kero_bevy/src/lib.rs:335-341 | Afterwards the clip is playing. If it was already playing, the animation player is untouched. Otherwise it starts with its settings. Other clips and the finished flag are unchanged. |
| Animation.SelectIdempotent | src/kero_bevy/src/lib.rs:437-461 | Selecting the same clip twice equals selecting it once |
| Ecs.PlayerQuery | src/kero_bevy/src/lib.rs:365 | The player query visits exactly the entities that have both a player and a transform, so every player when all players have transforms |
| Ecs.EnemyQuery | src/kero_bevy/src/lib.rs:278-279 | The enemy query visits only enemies with transforms. It shares no entity with the player query, and an enemy with a transform is visited by exactly one of the two. |
| Ecs.Linked | src/kero_bevy/src/lib.rs:331-332 | An actor's animation player is found iff its link is set and the linked entity has an animation player; it is that entity's player |
| Input.MobileInput.constructor | src/kero_bevy/src/lib.rs:63-69 | The default record has the joystick centred and no button pressed |
| Input.MobileInput.UpdateJoystick | src/kero_bevy/src/lib.rs:88-93 | Sets both joystick axes and leaves the buttons as they were |
| Input.MobileInput.UpdateButtons | src/kero_bevy/src/lib.rs:95-101 | Sets both buttons and leaves the joystick as it was |
| Input.MobileInput.SyncFrom | src/kero_bevy/src/lib.rs:241-248 | The frame's record equals the shared record in all four fields |
| Input.LatestInputReachesFrame | src/kero_bevy/src/lib.rs:88-101 | Whichever order the two setters run in, the next sync sees exactly the last joystick and button values written |
| Systems.SyncMobileInput | src/kero_bevy/src/lib.rs:241-248 | The input resource takes the shared record's four fields |
| EnemyAi.EnemyTransition | src/kero_bevy/src/lib.rs:292-312 | Outside Punching: Punching iff distance < 1.5, Running iff 1.5 <= distance < 15, Idle iff distance >= 15. In Punching: Idle iff a linked animation player reports all finished, else Punching. Never Jumping. |
| EnemyAi.EnemyMove | src/kero_bevy/src/lib.rs:315-328 | The height never changes. A non-running enemy, or one with no horizontal offset to the player, does not move or turn. |
| EnemyAi.ChaseTowardPlayer | src/kero_bevy/src/lib.rs:316-321 | A running enemy's new horizontal offset to the player is the old offset scaled by 1 - k. The factor k is positive when the reciprocal length, the speed and the frame time are positive. |
| EnemyAi.EnemyClip | src/kero_bevy/src/lib.rs:333-354 | Running shows the run clip and Punching the punch clip. Idle and Jumping show the idle clip, and an enemy never shows the jump clip. |
| EnemyAi.EnemyAnimate | src/kero_bevy/src/lib.rs:331-356 | Only the linked animation player changes: it gets the state's clip selected, with Jumping showing idle. The set of animation players is unchanged. |
| EnemyAi.EnemyAnimateIdempotent | src/kero_bevy/src/lib.rs:333-354 | Running the enemy clip selection a second time in the same state changes nothing |
| EnemyAi.UpdateEnemy | src/kero_bevy/src/lib.rs:289-357 | The loop body, statement by statement, computes exactly one enemy's step: transition on the distance, then chase, then clip |
| EnemyAi.EnemyFoldFrame | src/kero_bevy/src/lib.rs:276-282 | An enemy frame leaves players, parents and the graph set unchanged, and adds or removes no component |
| EnemyAi.EnemyTickEffect | src/kero_bevy/src/lib.rs:289-356 | One enemy's step takes the threshold transition and keeps its speed, link and height. It does not move unless Running. No other enemy, no other transform and no finished flag changes. |
| EnemyAi.TransitionSeesOnlyFinished | src/kero_bevy/src/lib.rs:296-303 | The transition reads a linked animation player only through its all-finished flag |
| EnemyAi.EnemyFoldFlags | src/kero_bevy/src/lib.rs:331-356 | No clip selection in an enemy frame changes any animation player's all-finished flag or the set of animation players |
| EnemyAi.EnemyFoldEffectsAt | src/kero_bevy/src/lib.rs:289-356 | The per-enemy form of EnemyFoldEffects, for one enemy of the query |
| EnemyAi.EnemyFoldEffects | src/kero_bevy/src/lib.rs:289-356 | After a pass over distinct enemies, each visited enemy's state is the threshold transition on its distance and its linked animation player at the start of the frame. No animation player's finished flag changes. Each visited enemy keeps its speed, link and height and is not Jumping; one that is not Running has not moved. Unvisited enemies are untouched. |
| EnemyAi.EnemyFrameEffects | src/kero_bevy/src/lib.rs:283-328 | With exactly one player, every enemy of the query takes the threshold transition on its distance to that player. It ends the frame not Jumping, at its old height, and unmoved unless Running. |
| EnemyAi.NoSinglePlayerNoChange | src/kero_bevy/src/lib.rs:283-287 | Without exactly one player, the enemy frame changes nothing |
| EnemyAi.UnlinkedPunchNeverEnds | src/kero_bevy/src/lib.rs:296-303 | An enemy punching with no linked animation entity stays Punching and unmoved over any sequence of frames |
| PlayerControl.Direction | src/kero_bevy/src/lib.rs:371-383 | W/S give -1/+1 on z and A/D give -1/+1 on x. A deflected joystick adds both its axes. y is zero, and an axis with no key and no joystick input is zero. |
| PlayerControl.ReadDirection | src/kero_bevy/src/lib.rs:371-383 | The key-by-key accumulation yields exactly the frame's direction |
| PlayerControl.PlayerIntent | src/kero_bevy/src/lib.rs:385-414 | From Idle or Running: Punching iff punch; Jumping iff jump and no punch; Running iff moving with neither; Idle iff none of these. Jumping and Punching ignore input. |
| PlayerControl.SteerMeaning | src/kero_bevy/src/lib.rs:416-432 | The yaw changes by -direction.x * 2 * dt. While Punching, or with no forward input, the translation is unchanged. Otherwise the player moves along the new facing by -direction.z * speed * dt. |
| PlayerControl.SteerTransform | src/kero_bevy/src/lib.rs:416-432 | The turn-then-move block computes exactly the steering step |
| PlayerControl.PlayerClip | src/kero_bevy/src/lib.rs:437-461 | Each state has its own clip: idle, run, punch or jump. The clip repeats iff the state is Idle or Running. |
| PlayerControl.PlayerAnimate | src/kero_bevy/src/lib.rs:434-464 | The state changes iff it is Jumping or Punching, its clip is already playing on the linked animation player, and that player reports all finished; it then becomes Idle. Only the linked animation player changes, to the state's clip selected. |
| PlayerControl.SelectPlayerClip | src/kero_bevy/src/lib.rs:434-464 | The clip-selection block computes exactly the animation step |
| PlayerControl.PlayerAnimateIdempotent | src/kero_bevy/src/lib.rs:437-447 | In Idle or Running, a second clip selection changes neither the state nor any animation player |
| PlayerControl.UpdatePlayer | src/kero_bevy/src/lib.rs:370-465 | The loop body computes exactly one player's step: input, transition, steering, clip |
| PlayerControl.PlayerFoldFrame | src/kero_bevy/src/lib.rs:360-369 | A player frame leaves enemies, parents and the graph set unchanged, and adds or removes no component |
| PlayerControl.PlayerTickEffect | src/kero_bevy/src/lib.rs:370-465 | One player's step keeps its speed and link. A punching player does not move, and an unlinked jump or punch persists. No other player or transform changes. |
| PlayerControl.PlayerFoldEffectsAt | src/kero_bevy/src/lib.rs:389-461 | The per-player form of PlayerFoldEffects, for one player of the query |
| PlayerControl.PlayerFoldEffects | src/kero_bevy/src/lib.rs:389-461 | After a pass over distinct players, each keeps its speed and link. One that started Punching has not moved. An unlinked one-shot state persists. Unvisited players are untouched. |
| PlayerControl.TurnKeysRunInPlace | src/kero_bevy/src/lib.rs:376-377 | Holding only A or only D from Idle or Running gives Running, no translation, and a yaw change of +2*dt or -2*dt |
| PlayerControl.PunchFreezesPosition | src/kero_bevy/src/lib.rs:393-394 | When the transition leaves the player Punching, its position does not change while its yaw still turns by -direction.x * 2 * dt |
| PlayerControl.UnlinkedOneShotNeverEnds | src/kero_bevy/src/lib.rs:448-461 | With no linked animation entity, a jump or a punch lasts through any sequence of frames, and a punching player never moves |
| Hierarchy.NearestOwner | src/kero_bevy/src/lib.rs:262-272 | A player owner is a player. An enemy owner is an enemy that is not a player, since the player is tested first at each ancestor. |
| Hierarchy.FindOwner | src/kero_bevy/src/lib.rs:259-272 | The while loop over the parent chain returns exactly the nearest owner |
| Hierarchy.OwnerIsNearestAncestor | src/kero_bevy/src/lib.rs:262-271 | A found owner is the k-th ancestor for some k >= 1 (the entity itself is never tested), and no ancestor strictly between them is a player or an enemy |
| Hierarchy.NoOwnerNoActorAncestor | src/kero_bevy/src/lib.rs:262-272 | When the walk finds nothing, no strict ancestor is a player or an enemy |
| Hierarchy.LinkOne | src/kero_bevy/src/lib.rs:258-273 | One added animation entity gets the graph. Its nearest owner, and only that actor, records it. Nothing else changes. |
| Hierarchy.LinkFold | src/kero_bevy/src/lib.rs:258-273 | After linking a sequence of entities, all of them have the graph. Transforms, parents and animation players are unchanged, and no actor is added or removed. |
| Hierarchy.LastLinkedTo | src/kero_bevy/src/lib.rs:258-271 | It is the last added entity whose nearest owner is the given actor, with no later one owned by that actor; it is None iff no added entity is owned by that actor |
| Hierarchy.LinkFoldRecordsPlayer | src/kero_bevy/src/lib.rs:264-266 | After the pass, a given player records the last added entity whose nearest owner it is, and is unchanged if there is none |
| Hierarchy.LinkFoldRecordsEnemy | src/kero_bevy/src/lib.rs:268-270 | After the pass, a given enemy records the last added entity whose nearest owner it is, and is unchanged if there is none |
| Hierarchy.LinkFoldRecords | src/kero_bevy/src/lib.rs:258-273 | After the pass, each player and each enemy records the last added entity whose nearest owner it is, and is unchanged if there is none |
| Systems.World.StepEnemy | src/kero_bevy/src/lib.rs:289-357 | One iteration of the enemy loop writes back exactly that enemy's step: its state, transform and the animation players |
| Systems.World.StepPlayer | src/kero_bevy/src/lib.rs:370-465 | One iteration of the player loop writes back exactly that player's step |
| Systems.World.LinkEntity | src/kero_bevy/src/lib.rs:258-273 | One iteration of the link loop adds the graph and records the entity on its nearest owner, and changes nothing else |
| Systems.World.EnemyBehavior | src/kero_bevy/src/lib.rs:276-358 | The system's loop turns the world into the enemy frame: unchanged without exactly one player, else every enemy stepped in query order |
| Systems.World.PlayerMovement | src/kero_bevy/src/lib.rs:360-466 | The system's loop turns the world into every player stepped in query order with this frame's input |
| Systems.World.LinkAnimations | src/kero_bevy/src/lib.rs:250-274 | The system's loop links every added animation entity in order |

## Left out

- App setup, scene spawning, lights, ground, camera, asset loading and audio
  (`start`, `setup`, lines 5-26 and 112-232) are engine calls with no
  stateable behaviour. The punch sound spawned at lines 396-399 is left out
  for the same reason.
- `animate_fps_hands` (lines 468-515) is left out because it is float
  bobbing with sines. `animate_light_direction` (lines 234-239) is left out
  because it does nothing.
- Square roots, trigonometry and quaternions are not computed. `length`,
  `length_recip`, `forward` and the `atan2`-then-`slerp` turn are the
  uninterpreted functions of `Geometry.Maths`. `normalize` is scaling by the
  uninterpreted `lengthRecip`. `rotate_y` is modelled, not abstracted: it adds
  its angle to the yaw, which is exact for rotations about the vertical axis
  only.
- EnemyMove: the new rotation is the library's slerp toward the player's
  heading, taken as an uninterpreted function. It is not proved to face the
  player.
- ChaseTowardPlayer: the step length is stated through the library's
  reciprocal length. It is not proved to be exactly speed * dt, because that
  needs a square root.
- `f32` rounding and overflow are not modelled; all arithmetic is on reals.
- The `OnceLock<Mutex<...>>` global (lines 78-85) and the case where taking
  the lock fails are concurrency plumbing. The shared record is a second
  `MobileInput` object.
- The `wasm_bindgen` exports are foreign-interface glue; the setters are
  plain methods.
- The internals of Bevy's `AnimationPlayer` are not modelled:
  - `all_finished` is an input flag;
  - `play` is modelled as adding the clip to the active set with its repeat
    and speed settings, without stopping the other clips.
- Bevy's deferred `Commands` are not modelled. The insertion of the graph
  handle is applied at once, as membership in the world's graph set.
- The `Added<AnimationPlayer>` change detection is not modelled. The newly
  added entities are a parameter of `LinkAnimations`.
- Bevy's `Parent` hierarchy is not modelled as such. It is a parent map,
  required to be acyclic.
- The speeds the actors are spawned with are part of `setup` and are not
  modelled; they are fields of the components.
- The keyboard's `pressed` and `just_pressed` bookkeeping is not modelled.
  It is the `Input.Keys` value a frame sees.
