/** The parent walk of `link_animations`: from an animation-player entity up
    the parent chain to the first ancestor that is a player or an enemy. */
module Hierarchy {
  import opened Ecs

  /** The actor an animation entity belongs to. */
  datatype Owner = PlayerOwner(entity: Entity) | EnemyOwner(entity: Entity)

  /** `rank` strictly decreases from child to parent, so the parent chain of
      every entity is finite: the hierarchy is a forest. */
  ghost predicate Ranked(parents: map<Entity, Entity>, rank: map<Entity, nat>) {
    forall e :: e in parents ==> e in rank && parents[e] in rank && rank[parents[e]] < rank[e]
  }

  /** The `k`-th ancestor of `e` (`e` itself for `k == 0`), if the chain is that long. */
  function AncestorAt(parents: map<Entity, Entity>, e: Entity, k: nat): Option<Entity>
    decreases k
  {
    if k == 0 then Some(e)
    else if e in parents then AncestorAt(parents, parents[e], k - 1)
    else None
  }

  /** The nearest strict ancestor of `e` that is a player or an enemy, a player
      being preferred when one entity is both. */
  ghost function NearestOwner(parents: map<Entity, Entity>, rank: map<Entity, nat>,
                              players: set<Entity>, enemies: set<Entity>, e: Entity): (r: Option<Owner>)
    requires Ranked(parents, rank)
    ensures r.Some? && r.value.PlayerOwner? ==> r.value.entity in players
    ensures r.Some? && r.value.EnemyOwner? ==> r.value.entity in enemies && r.value.entity !in players
    decreases if e in rank then rank[e] else 0
  {
    if e !in parents then None
    else
      var ancestor := parents[e];
      if ancestor in players then Some(PlayerOwner(ancestor))
      else if ancestor in enemies then Some(EnemyOwner(ancestor))
      else NearestOwner(parents, rank, players, enemies, ancestor)
  }

  /** The walk as `link_animations` runs it: step to the parent, test for a
      player, then for an enemy, and stop at the first match or at a root. */
  method FindOwner(parents: map<Entity, Entity>, ghost rank: map<Entity, nat>,
                   players: set<Entity>, enemies: set<Entity>, entity: Entity) returns (owner: Option<Owner>)
    requires Ranked(parents, rank)
    ensures owner == NearestOwner(parents, rank, players, enemies, entity)
  {
    var ancestor := entity;
    while ancestor in parents
      invariant NearestOwner(parents, rank, players, enemies, ancestor) == NearestOwner(parents, rank, players, enemies, entity)
      decreases if ancestor in rank then rank[ancestor] else 0
    {
      ancestor := parents[ancestor];
      if ancestor in players {
        return Some(PlayerOwner(ancestor));
      }
      if ancestor in enemies {
        return Some(EnemyOwner(ancestor));
      }
    }
    return None;
  }

  /** A found owner is the `k`-th ancestor for some `k >= 1`, and no ancestor
      strictly between the entity and it is a player or an enemy. */
  lemma {:induction false} OwnerIsNearestAncestor(parents: map<Entity, Entity>, rank: map<Entity, nat>,
                                                  players: set<Entity>, enemies: set<Entity>, e: Entity) returns (k: nat)
    requires Ranked(parents, rank)
    requires NearestOwner(parents, rank, players, enemies, e).Some?
    ensures k >= 1
    ensures AncestorAt(parents, e, k) == Some(NearestOwner(parents, rank, players, enemies, e).value.entity)
    ensures forall j :: 1 <= j < k ==>
      AncestorAt(parents, e, j).Some? &&
      AncestorAt(parents, e, j).value !in players && AncestorAt(parents, e, j).value !in enemies
    decreases if e in rank then rank[e] else 0
  {
    var ancestor := parents[e];
    if ancestor in players || ancestor in enemies {
      k := 1;
    } else {
      var rest := OwnerIsNearestAncestor(parents, rank, players, enemies, ancestor);
      k := rest + 1;
      forall j | 1 <= j < k
        ensures AncestorAt(parents, e, j) == AncestorAt(parents, ancestor, j - 1)
      {
      }
    }
  }

  /** When no owner is found, no strict ancestor is a player or an enemy. */
  lemma {:induction false} NoOwnerNoActorAncestor(parents: map<Entity, Entity>, rank: map<Entity, nat>,
                                                 players: set<Entity>, enemies: set<Entity>, e: Entity, k: nat)
    requires Ranked(parents, rank)
    requires NearestOwner(parents, rank, players, enemies, e) == None
    requires k >= 1 && AncestorAt(parents, e, k).Some?
    ensures AncestorAt(parents, e, k).value !in players && AncestorAt(parents, e, k).value !in enemies
    decreases k
  {
    if k > 1 {
      NoOwnerNoActorAncestor(parents, rank, players, enemies, parents[e], k - 1);
    }
  }

  /** One animation entity linked: it gets the animation graph, and its
      nearest owner, if any, records it as its animation entity. */
  ghost function LinkOne(w: WorldState, e: Entity, rank: map<Entity, nat>): (r: WorldState)
    requires Ranked(w.parents, rank)
    ensures r.parents == w.parents && r.transforms == w.transforms && r.animPlayers == w.animPlayers
    ensures r.graphs == w.graphs + {e}
    ensures r.players.Keys == w.players.Keys && r.enemies.Keys == w.enemies.Keys
    ensures forall a :: a in w.players ==>
      r.players[a] == if NearestOwner(w.parents, rank, w.players.Keys, w.enemies.Keys, e) == Some(PlayerOwner(a))
                      then w.players[a].(animationEntity := Some(e)) else w.players[a]
    ensures forall a :: a in w.enemies ==>
      r.enemies[a] == if NearestOwner(w.parents, rank, w.players.Keys, w.enemies.Keys, e) == Some(EnemyOwner(a))
                      then w.enemies[a].(animationEntity := Some(e)) else w.enemies[a]
  {
    var linked := w.(graphs := w.graphs + {e});
    match NearestOwner(w.parents, rank, w.players.Keys, w.enemies.Keys, e)
    case None => linked
    case Some(PlayerOwner(a)) => linked.(players := w.players[a := w.players[a].(animationEntity := Some(e))])
    case Some(EnemyOwner(a)) => linked.(enemies := w.enemies[a := w.enemies[a].(animationEntity := Some(e))])
  }

  /** The animation entities of `added` linked one after another. */
  ghost function LinkFold(w: WorldState, added: seq<Entity>, rank: map<Entity, nat>): (r: WorldState)
    requires Ranked(w.parents, rank)
    ensures r.parents == w.parents && r.transforms == w.transforms && r.animPlayers == w.animPlayers
    ensures r.graphs == w.graphs + set e | e in added
    ensures r.players.Keys == w.players.Keys && r.enemies.Keys == w.enemies.Keys
    decreases |added|
  {
    if added == [] then w
    else
      var init := added[..|added| - 1];
      assert (set e | e in added) == (set e | e in init) + {added[|added| - 1]};
      LinkOne(LinkFold(w, init, rank), added[|added| - 1], rank)
  }

  /** The last entity of `added` whose nearest owner is `owner`, if any: the
      one that owner records after a linking pass, since each later link
      overwrites the earlier one. */
  ghost function LastLinkedTo(parents: map<Entity, Entity>, rank: map<Entity, nat>,
                              players: set<Entity>, enemies: set<Entity>,
                              added: seq<Entity>, owner: Owner): (r: Option<Entity>)
    requires Ranked(parents, rank)
    ensures r.Some? ==>
      exists i :: (0 <= i < |added| && added[i] == r.value &&
                   NearestOwner(parents, rank, players, enemies, added[i]) == Some(owner) &&
                   (forall j :: i < j < |added| ==> NearestOwner(parents, rank, players, enemies, added[j]) != Some(owner)))
    ensures r == None <==> forall i :: 0 <= i < |added| ==> NearestOwner(parents, rank, players, enemies, added[i]) != Some(owner)
    decreases |added|
  {
    if added == [] then None
    else if NearestOwner(parents, rank, players, enemies, added[|added| - 1]) == Some(owner) then Some(added[|added| - 1])
    else LastLinkedTo(parents, rank, players, enemies, added[..|added| - 1], owner)
  }

  /** After a linking pass, player `a` records the last added entity whose
      nearest owner it is, and is unchanged if there is none. */
  lemma {:induction false} LinkFoldRecordsPlayer(w: WorldState, added: seq<Entity>, rank: map<Entity, nat>, a: Entity)
    requires Ranked(w.parents, rank)
    requires a in w.players
    ensures var last := LastLinkedTo(w.parents, rank, w.players.Keys, w.enemies.Keys, added, PlayerOwner(a));
      LinkFold(w, added, rank).players[a] == if last.None? then w.players[a] else w.players[a].(animationEntity := last)
    decreases |added|
  {
    if added != [] {
      LinkFoldRecordsPlayer(w, added[..|added| - 1], rank, a);
    }
  }

  /** After a linking pass, enemy `a` records the last added entity whose
      nearest owner it is, and is unchanged if there is none. */
  lemma {:induction false} LinkFoldRecordsEnemy(w: WorldState, added: seq<Entity>, rank: map<Entity, nat>, a: Entity)
    requires Ranked(w.parents, rank)
    requires a in w.enemies
    ensures var last := LastLinkedTo(w.parents, rank, w.players.Keys, w.enemies.Keys, added, EnemyOwner(a));
      LinkFold(w, added, rank).enemies[a] == if last.None? then w.enemies[a] else w.enemies[a].(animationEntity := last)
    decreases |added|
  {
    if added != [] {
      LinkFoldRecordsEnemy(w, added[..|added| - 1], rank, a);
    }
  }

  /** After a linking pass, every actor records the last added entity whose
      nearest owner it is, and is unchanged if there is none. */
  lemma LinkFoldRecords(w: WorldState, added: seq<Entity>, rank: map<Entity, nat>)
    requires Ranked(w.parents, rank)
    ensures var r := LinkFold(w, added, rank);
      forall a :: a in w.players ==>
        var last := LastLinkedTo(w.parents, rank, w.players.Keys, w.enemies.Keys, added, PlayerOwner(a));
        r.players[a] == if last.None? then w.players[a] else w.players[a].(animationEntity := last)
    ensures var r := LinkFold(w, added, rank);
      forall a :: a in w.enemies ==>
        var last := LastLinkedTo(w.parents, rank, w.players.Keys, w.enemies.Keys, added, EnemyOwner(a));
        r.enemies[a] == if last.None? then w.enemies[a] else w.enemies[a].(animationEntity := last)
  {
    forall a | a in w.players {
      LinkFoldRecordsPlayer(w, added, rank, a);
    }
    forall a | a in w.enemies {
      LinkFoldRecordsEnemy(w, added, rank, a);
    }
  }
}
