/** What holds over whole runs of the game, for every sequence of events. */
module GameRuns {
  import opened Caches
  import opened Characters
  import opened Commands
  import opened Game
  import opened GameLaws
  import opened Sequences
  import opened Text
  import opened World
  import Commits
  import Items
  import Store

  /** A run is the run before its last event, and that event. */
  lemma LastStep(states: seq<Game>, es: seq<Event>)
    requires Runs(states, es) && es != []
    ensures |states| > 1 && Runs(Init(states), Init(es)) && Init(states)[0] == states[0]
    ensures Leads(Last(Init(states)), Last(es), Last(states))
  {
    hide Leads;
    assert forall i {:trigger Init(es)[i]} :: 0 <= i < |es| - 1 ==> Init(es)[i] == es[i];
  }

  lemma NoStep(states: seq<Game>, es: seq<Event>)
    requires Runs(states, es) && es == []
    ensures |states| == 1 && Last(states) == states[0]
  {
  }

  lemma SomeState(states: seq<Game>, es: seq<Event>)
    requires Runs(states, es)
    ensures states != []
  {
  }

  lemma LeadKeeps(g: Game, e: Event, h: Game)
    requires Inv(g) && Leads(g, e, h)
    ensures Inv(h) && Follows(g, h)
  {
    hide Inv, Step, Follows, Possible;
    StepKeeps(g, e);
  }

  lemma {:induction false} RunKeeps(states: seq<Game>, es: seq<Event>)
    requires Runs(states, es) && Inv(states[0])
    ensures Inv(Last(states))
    decreases |es|
  {
    hide Inv, Leads, Runs;
    if es == [] {
      NoStep(states, es);
    } else {
      LastStep(states, es);
      RunKeeps(Init(states), Init(es));
      LeadKeeps(Last(Init(states)), Last(es), Last(states));
    }
  }

  /** Any events whatever, at clocks after the epoch, make a run. */
  lemma {:induction false} EveryListRuns(g: Game, es: seq<Event>) returns (states: seq<Game>)
    requires forall e :: e in es ==> Possible(e)
    ensures Runs(states, es) && states[0] == g
    decreases |es|
  {
    hide Step, Possible;
    if es == [] {
      states := [g];
    } else {
      var before := EveryListRuns(g, Init(es));
      assert Last(es) in es;
      states := before + [Step(Last(before), Last(es))];
      forall i {:trigger es[i]} | 0 <= i < |es| ensures Leads(states[i], es[i], states[i + 1]) {
        assert i < |es| - 1 ==> es[i] == Init(es)[i];
      }
    }
  }

  /** A run of a server started on a store that reads back sound. */
  ghost predicate Served(states: seq<Game>, es: seq<Event>) {
    Runs(states, es)
    && exists federated, rows :: Sturdy(rows) && states[0] == Start(federated, rows)
  }

  lemma ServedKeeps(states: seq<Game>, es: seq<Event>)
    requires Served(states, es)
    ensures states != [] && Inv(Last(states))
  {
    hide Inv, Runs, Sturdy, Start;
    SomeState(states, es);
    var federated, rows :| Sturdy(rows) && states[0] == Start(federated, rows);
    StartKeeps(federated, rows);
    RunKeeps(states, es);
  }

  // ------------------------------------------------------------ moral arc

  /** Past the choice of a life: the id cannot come up again. */
  predicate Arrived(g: Game, id: nat) {
    id < g.nextId && id !in g.drafts
  }

  lemma PlayersArrived(g: Game, id: nat)
    requires Inv(g) && id in g.players
    ensures Arrived(g, id)
  {
    hide Living, Sturdy, Counted, Taught, Known, Earned, Tidal, Paired, Peopled, Caches.Kept, Aiming, Spaced,
      Untried, Store.ValidName;
  }

  lemma {:induction false} ArrivedStays(states: seq<Game>, es: seq<Event>, id: nat)
    requires Runs(states, es) && Inv(states[0]) && id in states[0].players
    ensures states != [] && Arrived(Last(states), id)
    decreases |es|
  {
    hide Inv, Leads, Runs, Continues;
    SomeState(states, es);
    if es == [] {
      NoStep(states, es);
      PlayersArrived(states[0], id);
    } else {
      LastStep(states, es);
      ArrivedStays(Init(states), Init(es), id);
      RunKeeps(Init(states), Init(es));
      LeadKeeps(Last(Init(states)), Last(es), Last(states));
    }
  }

  /** A session that is still there was there one step before, and goes on from there. */
  lemma WasThere(states: seq<Game>, es: seq<Event>, id: nat)
    requires Runs(states, es) && Inv(states[0]) && es != []
    requires id in states[0].players && id in Last(states).players
    ensures |states| > 1 && Runs(Init(states), Init(es)) && Init(states)[0] == states[0]
    ensures id in Last(Init(states)).players
    ensures Continues(Last(Init(states)).players[id], Last(states).players[id])
  {
    hide Inv, Leads, Runs, Continues;
    LastStep(states, es);
    ArrivedStays(Init(states), Init(es), id);
    RunKeeps(Init(states), Init(es));
    LeadKeeps(Last(Init(states)), Last(es), Last(states));
  }

  /** Ash, straying and return are for good, whatever is done or suffered,
   *  and a return means one strayed. */
  lemma {:induction false} MarksLast(states: seq<Game>, es: seq<Event>, id: nat)
    requires Runs(states, es) && Inv(states[0])
    requires id in states[0].players && id in Last(states).players
    ensures var c, d := states[0].players[id].c, Last(states).players[id].c;
            && (c.ashsworn ==> d.ashsworn) && (c.strayed ==> d.strayed) && (c.redeemed ==> d.redeemed)
            && (d.redeemed ==> d.strayed) && d.name == c.name
    decreases |es|
  {
    hide Inv, Leads, Runs, IsRoom;
    SomeState(states, es);
    RunKeeps(states, es);
    LivesNow(Last(states), id);
    if es == [] {
      NoStep(states, es);
    } else {
      WasThere(states, es, id);
      MarksLast(Init(states), Init(es), id);
    }
  }

  lemma LivesNow(g: Game, id: nat)
    requires Inv(g) && id in g.players
    ensures Hale(g.players[id].c) && IsRoom(g.players[id].c.room) && Store.Fits(g.players[id].c)
  {
    hide Hale, IsRoom, Store.Fits;
  }

  predicate Redeemed(g: Game, id: nat) {
    id in g.players && g.players[id].c.redeemed
  }

  /** How often a session's return happened on the way. */
  function Returns(states: seq<Game>, id: nat): nat {
    if |states| < 2 then 0
    else
      var before, after := Last(Init(states)), Last(states);
      Returns(Init(states), id) + if id in before.players && !Redeemed(before, id) && Redeemed(after, id) then 1 else 0
  }

  /** One returns at most once, and at that step does not stand with the Front. */
  lemma {:induction false} ReturnsOnce(states: seq<Game>, es: seq<Event>, id: nat)
    requires Runs(states, es) && Inv(states[0])
    requires id in states[0].players && id in Last(states).players
    ensures Returns(states, id) == (if Redeemed(Last(states), id) then 1 else 0) - (if Redeemed(states[0], id) then 1 else 0)
    ensures |states| > 1 && !Redeemed(Last(Init(states)), id) && Redeemed(Last(states), id)
            ==> Last(states).players[id].c.strayed && Last(states).players[id].c.faction != "front"
    decreases |es|
  {
    hide Inv, Leads, Runs;
    if es == [] {
      NoStep(states, es);
    } else {
      WasThere(states, es, id);
      ReturnsOnce(Init(states), Init(es), id);
    }
  }

  /** No run announces the return of an ash-sworn character, or of one of the Front. */
  lemma AnnouncementsAreEarned(states: seq<Game>, es: seq<Event>)
    requires Served(states, es)
    ensures forall c :: c in Last(states).pardons ==>
              c.redeemed && c.strayed && !c.ashsworn && c.faction != "front" && c.title != ""
  {
    hide Served, Roster, Living, Sturdy, Counted, Taught, Known, Tidal, Paired, Drafted, Aiming, Spaced, Untried,
      Peopled, Caches.Kept;
    ServedKeeps(states, es);
  }

  // --------------------------------------------------------------- combat

  /** Mobs and players stay within their hit points, and experience is earned. */
  lemma NobodyExceeds(states: seq<Game>, es: seq<Event>)
    requires Served(states, es)
    ensures var g := Last(states);
            && (forall m :: 0 <= m < |g.mobs| ==> Sound(g.mobs[m]))
            && (forall id :: id in g.players ==> 1 <= g.players[id].c.hp <= g.players[id].c.maxHp)
            && (forall id :: id in g.players && g.players[id].playing ==>
                  g.players[id].c.xp == g.players[id].baseXp + Lessons(g.kills, id))
  {
    hide Served, Seed, Sound, Lessons, IsRoom, Roster, Sturdy, Counted, Known, Earned, Tidal, Paired, Drafted,
      Aiming, Spaced, Untried, Caches.Kept;
    ServedKeeps(states, es);
  }

  /** Of every mob's deaths all but at most the last were undone, so the
   *  Ashmonger, who does not respawn, is slain at most once. */
  lemma DeathsAreUndoneOrFinal(states: seq<Game>, es: seq<Event>, m: nat)
    requires Served(states, es) && m < 6
    ensures var g := Last(states);
            && |g.mobs| == |g.revived| == 6
            && Count(KillOf(m), g.kills) == g.revived[m] + (if g.mobs[m].alive then 0 else 1)
            && Count(KillOf(ASHMONGER), g.kills) <= 1
  {
    hide Served, Seed, Sound, Roster, Living, Sturdy, Taught, Known, Earned, Tidal, Paired, Drafted, Aiming, Spaced,
      Untried, Caches.Kept;
    ServedKeeps(states, es);
    SeedIsPeopled();
    assert SameKind(Last(states).mobs[ASHMONGER], Seed()[ASHMONGER]);
  }

  // --------------------------------------------------------- tide, travel

  /** Without a hub the tide is the saturating sum of all pushes, never out of its bounds. */
  lemma TideSaturates(states: seq<Game>, es: seq<Event>)
    requires Served(states, es) && !states[0].federated
    ensures Last(states).tide == Tide(Last(states).deltas) && TIDE_FLOOR <= Last(states).tide <= TIDE_CEIL
  {
    ServedKeeps(states, es);
    hide Served, Roster, Living, Sturdy, Counted, Taught, Known, Earned, Paired, Drafted, Aiming, Spaced, Untried,
      Peopled, Caches.Kept;
    ServedRuns(states, es);
    StaysAlone(states, es);
  }

  lemma ServedRuns(states: seq<Game>, es: seq<Event>)
    requires Served(states, es)
    ensures Runs(states, es)
  {
  }

  lemma {:induction false} StaysAlone(states: seq<Game>, es: seq<Event>)
    requires Runs(states, es)
    ensures Last(states).federated == states[0].federated
    decreases |es|
  {
    hide Step, Runs, Possible;
    if es == [] {
      NoStep(states, es);
    } else {
      LastStep(states, es);
      StaysAlone(Init(states), Init(es));
      StepStaysAlone(Last(Init(states)), Last(es));
    }
  }

  lemma TickStaysAlone(g: Game, id: nat, now: int)
    requires id in g.players
    ensures Ticked(g, id, now).federated == g.federated
  {
    hide Rested, Damage, MobInRoom, Reknit, Store.Save, Clamp;
  }

  lemma EntryStaysAlone(g: Game, id: nat, name: string, sheet: Option<Commits.Sheet>, now: int)
    ensures Named(g, name, now).federated == Picked(g, id, name, now).federated == Answered(g, id, sheet, now).federated == g.federated
  {
    hide Store.Load, Store.Save, Store.ValidName, Store.Key, RACES, IsRoom, Merge, TickRespawns, Risen;
  }

  lemma SpawnStaysAlone(g: Game, now: int)
    ensures Respawned(g, now).federated == g.federated
  {
  }

  lemma StepStaysAlone(g: Game, e: Event)
    ensures Step(g, e).federated == g.federated
  {
    hide Play, Ticked, Named, Picked, Answered, Respawned, Store.Save;
    match e
    case Name(name, now) => EntryStaysAlone(g, 0, name, None, now);
    case PickRace(id, race, now) => EntryStaysAlone(g, id, race, None, now);
    case Answer(id, sheet, now) => EntryStaysAlone(g, id, "", sheet, now);
    case Do(id, cmd, now) =>
      SpawnMoves(g, now);
      SpawnStaysAlone(g, now);
      if Acts(g, id) {
        PlaySparesMobs(Respawned(g, now), id, cmd, now);
      }
    case Tick(id, now) =>
      SpawnMoves(g, now);
      SpawnStaysAlone(g, now);
      if Acts(g, id) {
        TickStaysAlone(Respawned(g, now), id, now);
      }
    case _ =>
  }

  /** fill_hub_sheet. */
  function Fill(c: Character): Commits.Sheet {
    Commits.Sheet(c.level, c.xp, c.gold, c.morality, c.faction, c.title, c.race, c.ashsworn)
  }

  /** A character met again in another world has the standing last committed there,
   *  except that what a sheet leaves blank stays as it was and a brand is not lifted. */
  lemma StandingTravelsIff(c: Character, d: Character)
    requires Store.Fits(c)
    ensures var m := Merge(d, Fill(c));
            Fill(m) == Fill(c) <==>
              && (c.level > 0 || d.level == c.level)
              && (c.gold > 0 || c.race != "" || d.gold == c.gold)
              && (c.faction != "" || d.faction == "") && (c.race != "" || d.race == "")
              && (d.ashsworn ==> c.ashsworn)
    ensures Merge(d, Fill(c)).strayed == d.strayed && Merge(d, Fill(c)).redeemed == d.redeemed
  {
  }
}
