/** What the world remembers of what one did: forgiveness, vigils, emptied cages. */
module Remembrance {
  import opened Caches
  import opened Characters
  import opened Commands
  import opened Game
  import opened GameLaws
  import opened GameRuns
  import opened Sequences
  import opened Text
  import opened World
  import Commits
  import Items
  import Store

  // ---------------------------------------------------------- forgiveness

  lemma SamePlayers(g: Game, h: Game, name: string)
    requires h.order == g.order && h.players.Keys == g.players.Keys
    requires forall x :: x in g.players ==> h.players[x].playing == g.players[x].playing && h.players[x].c.name == g.players[x].c.name
    ensures FindPlayer(h, name) == FindPlayer(g, name)
  {
    var i := IndexOf(IsCalled(g.players, name), g.order);
    forall j | 0 <= j < |g.order|
      ensures IsCalled(h.players, name)(g.order[j]) == IsCalled(g.players, name)(g.order[j])
    {
    }
    if i < |g.order| {
      IsIndexOf(IsCalled(h.players, name), g.order, i);
    } else {
      NoneIs(IsCalled(h.players, name), g.order);
    }
  }

  lemma MarkedIff(pairs: seq<Pair>, who: string, whom: string, cap: nat)
    requires !Has(pairs, who, whom)
    ensures Has(Mark(pairs, who, whom, cap), who, whom) <==> |pairs| < cap
  {
    if |pairs| < cap {
      var r := pairs + [Pair(who, whom)];
      forall j | 0 <= j < |pairs| ensures !PairIs(who, whom)(r[j]) {
        assert r[j] == pairs[j];
      }
      IsIndexOf(PairIs(who, whom), r, |pairs|);
    }
  }

  /** Forgiving a person is remembered exactly when the table has room; saying it again
   *  has its effect, reward and all, exactly when it was not remembered and the person
   *  still bears a mark. */
  lemma ForgivingCountsOnce(g: Game, id: nat, arg: string)
    requires Inv(g) && id in g.players && Subject(g, id, arg).Some?
    ensures var other := Subject(g, id, arg).value;
            var h := Forgive(g, id, arg);
            && other in g.players && h.players.Keys == g.players.Keys
            && (Has(h.forgiven, g.players[id].c.name, g.players[other].c.name) <==> |g.forgiven| < MAX_FORGIVEN)
            && (Subject(h, id, arg) == Some(other) <==>
                  |g.forgiven| >= MAX_FORGIVEN && Marked(Forgiven(g.players[other]).p.c))
            && (Subject(h, id, arg) != Some(other) ==> Again(h, id, arg) == h)
            && (Subject(h, id, arg) == Some(other) ==>
                  id in Again(h, id, arg).players && Again(h, id, arg).players[id] == Witness(h.players[id]).p)
  {
    hide Inv, Forgive, Subject, FindPlayer, Mark, Has, Store.Save, Forgiven, Witness, Clip, FirstWord, Marked;
    var other := Subject(g, id, arg).value;
    var p, q := g.players[id], g.players[other];
    var h := Forgive(g, id, arg);
    SubjectIsNew(g, id, arg);
    ForgiveIs(g, id, arg);
    MarkedIff(g.forgiven, p.c.name, q.c.name, MAX_FORGIVEN);
    ForgivingKeepsNames(p, q);
    SamePlayers(g, h, FirstWord(Clip(arg, 33)));
    SubjectAgainIff(g, h, id, arg);
    ForgiveIs(h, id, arg);
  }

  function Again(g: Game, id: nat, arg: string): Game {
    if id in g.players then Forgive(g, id, arg) else g
  }

  lemma ForgivingKeepsNames(p: Player, q: Player)
    ensures Forgiven(q).p.playing == q.playing && Forgiven(q).p.c.name == q.c.name && Forgiven(q).p.c.room == q.c.room
    ensures Witness(p).p.playing == p.playing && Witness(p).p.c.name == p.c.name && Witness(p).p.c.room == p.c.room
  {
  }

  lemma SubjectIsNew(g: Game, id: nat, arg: string)
    requires id in g.players && Subject(g, id, arg).Some?
    ensures var other := Subject(g, id, arg).value;
            !Has(g.forgiven, g.players[id].c.name, g.players[other].c.name)
            && FindPlayer(g, FirstWord(Clip(arg, 33))) == Some(other)
  {
    hide FindPlayer, Has, Marked, FirstWord, Clip;
  }

  lemma SubjectAgainIff(g: Game, h: Game, id: nat, arg: string)
    requires id in g.players && id in h.players && Subject(g, id, arg).Some?
    requires FindPlayer(h, FirstWord(Clip(arg, 33))) == Some(Subject(g, id, arg).value)
    requires var other := Subject(g, id, arg).value;
             && h.players[id].c.name == g.players[id].c.name && h.players[other].c.name == g.players[other].c.name
             && h.players[id].c.room == g.players[id].c.room && h.players[other].c.room == g.players[other].c.room
    ensures var other := Subject(g, id, arg).value;
            && (Subject(h, id, arg) == Some(other) <==>
                  !Has(h.forgiven, g.players[id].c.name, g.players[other].c.name) && Marked(h.players[other].c))
            && (Subject(h, id, arg) == Some(other) || Subject(h, id, arg).None?)
  {
    hide FindPlayer, Has, Marked, FirstWord, Clip;
  }

  /** The tables of pairs only ever grow at the end. */
  ghost predicate Grown(g: Game, h: Game) {
    g.forgiven <= h.forgiven && g.kept <= h.kept
  }

  lemma TurnGrows(g: Game, id: nat, t: Turn)
    ensures Grown(g, Settle(g, id, t))
  {
  }

  lemma TurnsGrow(g: Game, a: nat, t: Turn, b: nat, u: Turn)
    ensures Grown(g, Settle(g, a, t)) && Grown(g, Settle(Settle(g, a, t), b, u))
  {
    hide Settle;
    TurnGrows(g, a, t);
    TurnGrows(Settle(g, a, t), b, u);
  }

  lemma ForgiveGrows(g: Game, id: nat, arg: string)
    requires id in g.players
    ensures Grown(g, Forgive(g, id, arg))
  {
    hide Settle, Subject, Has, Forgiven, Witness;
    var r := Subject(g, id, arg);
    if r.Some? {
      var other := r.value;
      var h := g.(forgiven := Mark(g.forgiven, g.players[id].c.name, g.players[other].c.name, MAX_FORGIVEN));
      var t := Forgiven(h.players[other]);
      OthersStay(h, other, t, id);
      TurnsGrow(h, other, t, id, Witness(Settle(h, other, t).players[id]));
    }
  }

  lemma SharedGrow(g: Game, id: nat, a: string, b: string)
    requires id in g.players
    ensures Grown(g, Hand(g, id, a, b)) && Grown(g, Remember(g, id, a))
  {
    hide Neighbour, Has, Witness, AddItem, Without, Store.Save, Clamp;
  }

  lemma CagesAndCoinGrow(g: Game, id: nat, amount: int, now: int)
    requires id in g.players
    ensures Grown(g, Free(g, id, now)) && Grown(g, Shelter(g, id, now))
    ensures Grown(g, Leave(g, id, amount)) && Grown(g, Gather(g, id))
  {
    hide Rescue, FreeFromPit, WardenCleared, CagesReady, Shifted, Caches.AddCache, Caches.TakeCache, Store.Save, Clamp;
  }

  lemma PlayGrows(g: Game, id: nat, cmd: Command, now: int)
    requires id in g.players
    ensures Grown(g, Play(g, id, cmd, now))
  {
    hide Own, Engage, Quarry, Settle, Forgive, Hand, Remember, Free, Shelter, Leave, Gather, Grown;
    var p := g.players[id];
    match cmd
    case Attack(arg) => TurnGrows(g, id, Engage(p, Quarry(g, p, arg)));
    case ForgiveName(arg) => ForgiveGrows(g, id, arg);
    case Give(item, who) => SharedGrow(g, id, item, who);
    case WitnessName(arg) => SharedGrow(g, id, arg, "");
    case FreeCaptive => CagesAndCoinGrow(g, id, 0, now);
    case ShelterThem => CagesAndCoinGrow(g, id, 0, now);
    case CacheGold(amount) => CagesAndCoinGrow(g, id, amount, now);
    case GatherGold => CagesAndCoinGrow(g, id, 0, now);
    case _ => TurnGrows(g, id, Own(p, g.tide, now, cmd));
  }

  lemma ComingsGrow(g: Game, id: nat, name: string, sheet: Option<Commits.Sheet>, now: int)
    ensures Grown(g, Named(g, name, now)) && Grown(g, Picked(g, id, name, now)) && Grown(g, Answered(g, id, sheet, now))
  {
    hide Store.Load, Store.Save, Store.ValidName, Store.Key, RACES, IsRoom, Merge, TickRespawns, Risen;
  }

  lemma TicksGrow(g: Game, id: nat, now: int)
    ensures Grown(g, Respawned(g, now))
    ensures id in g.players ==> Grown(g, Ticked(g, id, now))
  {
    hide TickRespawns, Risen, Rested, Damage, MobInRoom, Reknit, Store.Save, Clamp;
  }

  lemma StepGrows(g: Game, e: Event)
    ensures Grown(g, Step(g, e))
  {
    hide Play, Ticked, Named, Picked, Answered, Respawned, Store.Save;
    match e
    case Name(name, now) => ComingsGrow(g, 0, name, None, now);
    case PickRace(id, race, now) => ComingsGrow(g, id, race, None, now);
    case Answer(id, sheet, now) => ComingsGrow(g, id, "", sheet, now);
    case Do(id, cmd, now) =>
      SpawnMoves(g, now);
      TicksGrow(g, id, now);
      if Acts(g, id) {
        PlayGrows(Respawned(g, now), id, cmd, now);
      }
    case Tick(id, now) =>
      SpawnMoves(g, now);
      TicksGrow(g, id, now);
      if Acts(g, id) {
        TicksGrow(Respawned(g, now), id, now);
      }
    case _ =>
  }

  lemma HasStill(pairs: seq<Pair>, more: seq<Pair>, who: string, whom: string)
    requires pairs <= more && Has(pairs, who, whom)
    ensures Has(more, who, whom)
  {
    assert PairIs(who, whom)(more[IndexOf(PairIs(who, whom), pairs)]);
  }

  /** What was forgiven, and whose memory was kept, is remembered for the rest of every run. */
  lemma {:induction false} RememberedForGood(states: seq<Game>, es: seq<Event>, who: string, whom: string)
    requires Runs(states, es)
    ensures states != []
    ensures Has(states[0].forgiven, who, whom) ==> Has(Last(states).forgiven, who, whom)
    ensures Has(states[0].kept, who, whom) ==> Has(Last(states).kept, who, whom)
    decreases |es|
  {
    hide Step, Runs, Has, Possible;
    SomeState(states, es);
    if es == [] {
      NoStep(states, es);
    } else {
      LastStep(states, es);
      RememberedForGood(Init(states), Init(es), who, whom);
      var g, h := Last(Init(states)), Last(states);
      StepGrows(g, Last(es));
      if Has(g.forgiven, who, whom) {
        HasStill(g.forgiven, h.forgiven, who, whom);
      }
      if Has(g.kept, who, whom) {
        HasStill(g.kept, h.kept, who, whom);
      }
    }
  }

  /** witness has its effect: somebody else, on the roll, not yet kept by this player. */
  predicate Keeps(g: Game, id: nat, arg: string) {
    id in g.players
    && var i := IndexOf(NameIs(arg), g.fallen);
    arg != "" && !SameName(arg, g.players[id].c.name) && i < |g.fallen| && !Has(g.kept, g.players[id].c.name, g.fallen[i])
  }

  /** A vigil too counts once exactly as long as its table has room. */
  lemma KeepingCountsOnce(g: Game, id: nat, arg: string)
    requires Keeps(g, id, arg)
    ensures Keeps(Remember(g, id, arg), id, arg) <==> |g.kept| >= MAX_KEPT
    ensures id in Remember(g, id, arg).players && Remember(g, id, arg).players[id] == Witness(g.players[id]).p
  {
    hide Mark, Has, Witness, Store.Save, Clamp;
    var name := g.fallen[IndexOf(NameIs(arg), g.fallen)];
    MarkedIff(g.kept, g.players[id].c.name, name, MAX_KEPT);
    ForgivingKeepsNames(g.players[id], g.players[id]);
    if |g.kept| >= MAX_KEPT {
      FullMarksNothing(g.kept, g.players[id].c.name, name, MAX_KEPT);
    }
  }

  lemma FullMarksNothing(pairs: seq<Pair>, who: string, whom: string, cap: nat)
    requires |pairs| >= cap
    ensures Mark(pairs, who, whom, cap) == pairs
  {
  }

  // ---------------------------------------------------------------- cages

  /** Freeing the cells, or sheltering at the hub, rescues somebody exactly when it is
   *  entered in the log, and else changes nothing. */
  lemma RescuesAreLogged(g: Game, id: nat, now: int)
    requires id in g.players
    ensures g.players[id].c.room == "cells" ==>
              if Free(g, id, now).cellsFreed != g.cellsFreed then
                Free(g, id, now).cellsFreed == g.cellsFreed + [now] && Free(g, id, now).players == g.players[id := Rescue(g.players[id]).p]
              else Free(g, id, now) == g
    ensures if Shelter(g, id, now).hubFreed != g.hubFreed then
              Shelter(g, id, now).hubFreed == g.hubFreed + [now] && Shelter(g, id, now).players == g.players[id := Rescue(g.players[id]).p]
            else Shelter(g, id, now) == g
  {
    hide Rescue, FreeFromPit, WardenCleared, Store.Save, Clamp;
    assert |g.cellsFreed + [now]| != |g.cellsFreed| && |g.hubFreed + [now]| != |g.hubFreed|;
  }

  /** In every run any two rescues from the same cages lie at least a refill apart. */
  lemma CagesRefillFirst(states: seq<Game>, es: seq<Event>)
    requires Served(states, es)
    ensures var g := Last(states);
            && (forall i, j :: 0 <= i < j < |g.cellsFreed| ==> g.cellsFreed[i] + CAGE_REFILL <= g.cellsFreed[j])
            && (forall i, j :: 0 <= i < j < |g.hubFreed| ==> g.hubFreed[i] + CAGE_REFILL <= g.hubFreed[j])
  {
    hide Served, Roster, Living, Sturdy, Counted, Taught, Known, Earned, Tidal, Paired, Drafted, Aiming, Untried,
      Peopled, Caches.Kept;
    ServedKeeps(states, es);
  }
}
