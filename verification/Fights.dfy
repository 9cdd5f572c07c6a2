/** Every fight ends: mob hit points are what runs out. */
module Fights {
  import opened Commands
  import opened Game
  import opened GameLaws
  import opened GameRuns
  import opened Sequences
  import opened Text
  import opened World
  import Buffers
  import Caches
  import Characters
  import Commits
  import Store

  /** The session is in play and has a target. */
  predicate InFight(g: Game, id: nat) {
    Acts(g, id) && g.players[id].target != ""
  }

  /** The target was never laid down along the run. */
  ghost predicate FightsOn(states: seq<Game>, id: nat) {
    forall g :: g in states ==> InFight(g, id)
  }

  /** The fighter's blow was worth at least d at every point of the run. */
  ghost predicate Armed(states: seq<Game>, id: nat, d: int) {
    forall g :: g in states && Acts(g, id) ==> Damage(g.players[id].c) >= d
  }

  predicate OwnTick(e: Event, id: nat) {
    e.Tick? && e.id == id
  }

  function OwnTicks(es: seq<Event>, id: nat): nat {
    if es == [] then 0 else OwnTicks(Init(es), id) + if OwnTick(Last(es), id) then 1 else 0
  }

  /** The target names the m-th mob, in the fighter's room. */
  predicate Hunts(g: Game, id: nat, m: nat) {
    && InFight(g, id) && m < |g.mobs|
    && g.mobs[m].room == g.players[id].c.room && SameName(g.mobs[m].id, g.players[id].target)
  }

  /** How a step may treat one mob when it brings none back: wounds add up, death stays. */
  ghost predicate Wears(g: Game, h: Game, m: nat) {
    && |h.mobs| == |g.mobs| && |h.revived| == |g.revived| == |g.mobs|
    && (m < |g.mobs| ==>
          && SameKind(h.mobs[m], g.mobs[m]) && g.revived[m] <= h.revived[m]
          && (h.revived[m] == g.revived[m] ==>
                (h.mobs[m].alive ==> g.mobs[m].alive) && h.mobs[m].hp <= g.mobs[m].hp))
  }

  lemma SpawnWears(g: Game, now: int, m: nat)
    requires Peopled(g.mobs) && |g.revived| == |g.mobs|
    ensures Wears(g, Respawned(g, now), m)
  {
    hide Seed;
  }

  /** The mob after a blow of that weight. */
  function Hit(mob: Mob, damage: int, now: int): Mob {
    var hp := Floor0(mob.hp - damage);
    if hp <= 0 then mob.(hp := hp, alive := false, diedAt := now) else mob.(hp := hp)
  }

  /** A round touches the quarry and no other mob. */
  lemma RoundMobs(g: Game, id: nat, now: int)
    requires id in g.players
    ensures var p := g.players[id];
            var i := MobInRoom(g.mobs, p.c.room, p.target);
            && CombatRound(g, id, now).revived == g.revived
            && CombatRound(g, id, now).mobs ==
                 if i < |g.mobs| then g.mobs[i := Hit(g.mobs[i], Damage(p.c), now)] else g.mobs
  {
    hide MobInRoom, Damage, Store.Save, Reknit;
  }

  lemma HitWears(g: Game, h: Game, i: nat, damage: int, now: int, m: nat)
    requires i < |g.mobs| == |g.revived| && g.mobs[i].alive && 0 <= g.mobs[i].hp && damage >= 0
    requires h.revived == g.revived && h.mobs == g.mobs[i := Hit(g.mobs[i], damage, now)]
    ensures Wears(g, h, m)
  {
  }

  lemma RoundWears(g: Game, id: nat, now: int, m: nat)
    requires Inv(g) && id in g.players
    ensures Wears(g, CombatRound(g, id, now), m)
  {
    hide Inv, Damage, Peopled, CombatRound, Hit, Wears;
    LevelFacts(g, id);
    MobsNow(g);
    RoundMobs(g, id, now);
    var p := g.players[id];
    var i := MobInRoom(g.mobs, p.c.room, p.target);
    if i < |g.mobs| {
      HitWears(g, CombatRound(g, id, now), i, Damage(p.c), now, m);
    } else {
      SameWears(g, CombatRound(g, id, now), m);
    }
  }

  lemma MobsNow(g: Game)
    requires Inv(g)
    ensures Peopled(g.mobs) && |g.revived| == |g.mobs|
    ensures forall m :: 0 <= m < |g.mobs| ==> Sound(g.mobs[m])
  {
    hide Roster, Living, Sturdy, Taught, Known, Earned, Tidal, Paired, Drafted, Aiming, Spaced, Untried, Caches.Kept,
      Seed, Sound;
  }

  lemma WearsOn(g: Game, h: Game, k: Game, m: nat)
    requires Wears(g, h, m) && Wears(h, k, m)
    ensures Wears(g, k, m)
  {
  }

  lemma SameWears(g: Game, h: Game, m: nat)
    requires h.mobs == g.mobs && h.revived == g.revived && |g.revived| == |g.mobs|
    ensures Wears(g, h, m)
  {
  }

  lemma DoWears(g: Game, id: nat, cmd: Command, now: int, m: nat)
    requires Inv(g) && Acts(g, id)
    ensures Wears(g, Play(Respawned(g, now), id, cmd, now), m)
  {
    hide Inv, Play, Peopled, Wears, Acts, Sound;
    MobsNow(g);
    SpawnMoves(g, now);
    SpawnWears(g, now, m);
    var h := Respawned(g, now);
    assert |h.revived| == |h.mobs|;
    hide Respawned;
    assert id in h.players by { ActsHere(g, id); }
    PlaySparesMobs(h, id, cmd, now);
    SameWears(h, Play(h, id, cmd, now), m);
    WearsOn(g, h, Play(h, id, cmd, now), m);
  }

  lemma ActsHere(g: Game, id: nat)
    requires Acts(g, id)
    ensures id in g.players && g.players[id].playing
  {
  }

  lemma TickWears(g: Game, id: nat, now: int, m: nat)
    requires Inv(g) && Acts(g, id)
    ensures Wears(g, Ticked(Respawned(g, now), id, now), m)
  {
    hide Inv, CombatRound, Settle, Peopled, Wears, Sound, Rested;
    MobsNow(g);
    SpawnMoves(g, now);
    SpawnWears(g, now, m);
    var h := Respawned(g, now);
    RespawnedKeeps(g, now);
    assert |h.revived| == |h.mobs|;
    hide Respawned;
    if h.players[id].target != "" {
      RoundWears(h, id, now, m);
    } else {
      TurnSparesMobs(h, id, Rested(h.players[id]));
      SameWears(h, Ticked(h, id, now), m);
    }
    WearsOn(g, h, Ticked(h, id, now), m);
  }

  lemma ShownWears(g: Game, h: Game, playing: bool, now: int, m: nat)
    requires Peopled(g.mobs) && |g.revived| == |g.mobs| && h.mobs == g.mobs && h.revived == g.revived
    ensures Wears(g, Shown(h, playing, now), m)
  {
    hide Wears, Peopled;
    SameWears(g, h, m);
    SpawnWears(h, now, m);
    WearsOn(g, h, Respawned(h, now), m);
  }

  lemma ComingWears(g: Game, id: nat, name: string, sheet: Characters.Option<Commits.Sheet>, now: int, m: nat)
    requires Peopled(g.mobs) && |g.revived| == |g.mobs|
    ensures Wears(g, Named(g, name, now), m) && Wears(g, Picked(g, id, name, now), m)
            && Wears(g, Answered(g, id, sheet, now), m)
  {
    hide Wears, Peopled, Shown, Store.Load, Store.Save, Store.ValidName, Store.Key, RACES, IsRoom, Merge;
    SameWears(g, g, m);
    forall h: Game, playing: bool | h.mobs == g.mobs && h.revived == g.revived ensures Wears(g, Shown(h, playing, now), m) {
      ShownWears(g, h, playing, now, m);
    }
    forall h: Game | h.mobs == g.mobs && h.revived == g.revived ensures Wears(g, h, m) {
      SameWears(g, h, m);
    }
  }

  /** No step wounds a mob back to health except a respawn. */
  lemma StepWears(g: Game, e: Event, m: nat)
    requires Inv(g) && Possible(e)
    ensures Wears(g, Step(g, e), m)
  {
    hide Inv, Wears, Play, Ticked, Respawned, Named, Picked, Answered, Merge, Store.Save, Peopled, Sound;
    MobsNow(g);
    match e
    case Do(id, cmd, now) =>
      if Acts(g, id) {
        DoWears(g, id, cmd, now, m);
      } else {
        SameWears(g, g, m);
      }
    case Tick(id, now) =>
      if Acts(g, id) {
        TickWears(g, id, now, m);
      } else {
        SameWears(g, g, m);
      }
    case Name(name, now) => ComingWears(g, 0, name, Characters.None, now, m);
    case PickRace(id, race, now) => ComingWears(g, id, race, Characters.None, now, m);
    case Answer(id, sheet, now) => ComingWears(g, id, "", sheet, now, m);
    case _ => SameWears(g, Step(g, e), m);
  }

  /** Nobody answers to the target in a room whose one mob is dead. */
  lemma DeadIsGone(mobs: seq<Mob>, m: nat, target: string)
    requires Peopled(mobs) && m < |mobs| && !mobs[m].alive
    ensures MobInRoom(mobs, mobs[m].room, target) == |mobs|
  {
    hide Seed;
  }

  /** A round that leaves its fighter fighting took the blow's weight off the quarry. */
  lemma RoundHurts(g: Game, h: Game, id: nat, m: nat, now: int)
    requires Inv(g) && Hunts(g, id, m)
    requires h == CombatRound(g, id, now) && InFight(h, id) && m < |h.mobs|
    ensures g.mobs[m].alive && h.mobs[m].alive && h.mobs[m].hp == g.mobs[m].hp - Damage(g.players[id].c)
  {
    hide Inv, Damage, Peopled, Store.Save, Buffers.Enroll, MobInRoom;
    MobsNow(g);
    var p := g.players[id];
    if !g.mobs[m].alive {
      DeadIsGone(g.mobs, m, p.target);
    } else {
      TargetIs(g.mobs, m, p.target);
    }
  }

  /** A respawn tick that did not bring a mob back did not touch it. */
  lemma SpawnSpares(g: Game, now: int, m: nat)
    requires m < |g.mobs| == |g.revived| && Respawned(g, now).revived[m] == g.revived[m]
    requires Sound(g.mobs[m])
    ensures Respawned(g, now).mobs[m] == g.mobs[m]
  {
  }

  lemma HuntsStill(g: Game, h: Game, id: nat, m: nat)
    requires Hunts(g, id, m) && id in h.players && h.players[id] == g.players[id]
    requires m < |h.mobs| && h.mobs[m] == g.mobs[m]
    ensures Hunts(h, id, m)
  {
  }

  lemma OwnTickHurts(g: Game, id: nat, m: nat, now: int)
    requires Inv(g) && now > 0 && Hunts(g, id, m)
    requires InFight(Step(g, Tick(id, now)), id)
    requires m < |Step(g, Tick(id, now)).revived| && m < |g.revived|
    requires Step(g, Tick(id, now)).revived[m] == g.revived[m]
    ensures var h := Step(g, Tick(id, now));
            m < |h.mobs| && h.mobs[m].alive && h.mobs[m].hp == g.mobs[m].hp - Damage(g.players[id].c)
  {
    hide Inv, CombatRound, Damage, Peopled, Sound, Hunts, InFight;
    HuntsFacts(g, id, m);
    MobsNow(g);
    RespawnedKeeps(g, now);
    SpawnMoves(g, now);
    var h := Respawned(g, now);
    assert |h.mobs| == |g.mobs|;
    assert Step(g, Tick(id, now)) == CombatRound(h, id, now);
    RoundMobs(h, id, now);
    assert h.revived[m] == g.revived[m];
    SpawnSpares(g, now, m);
    hide Respawned, Step;
    HuntsStill(g, h, id, m);
    RoundHurts(h, CombatRound(h, id, now), id, m, now);
  }

  lemma HuntsFacts(g: Game, id: nat, m: nat)
    requires Hunts(g, id, m)
    ensures Acts(g, id) && id in g.players && g.players[id].target != "" && m < |g.mobs|
  {
  }

  /** While the fight goes on it is about the same mob. */
  lemma HuntGoesOn(g: Game, e: Event, id: nat, m: nat)
    requires Inv(g) && Possible(e) && Hunts(g, id, m) && InFight(Step(g, e), id)
    ensures Hunts(Step(g, e), id, m)
  {
    hide Inv, Step, Possible;
    StepKeeps(g, e);
    StepWears(g, e, m);
  }

  lemma {:induction false} RespawnsGrow(states: seq<Game>, es: seq<Event>, m: nat)
    requires Runs(states, es) && Inv(states[0]) && m < |states[0].mobs|
    ensures |Last(states).mobs| == |Last(states).revived| == |states[0].revived| == |states[0].mobs|
    ensures states[0].revived[m] <= Last(states).revived[m]
    decreases |es|
  {
    hide Inv, Step, Possible, Peopled, Sound, Runs;
    SomeState(states, es);
    MobsNow(states[0]);
    if es == [] {
      NoStep(states, es);
    } else {
      LastStep(states, es);
      RespawnsGrow(Init(states), Init(es), m);
      RunKeeps(Init(states), Init(es));
      StepWears(Last(Init(states)), Last(es), m);
    }
  }

  /** What the fighter's own heartbeats must have taken off the mob. */
  ghost predicate WornDown(g: Game, h: Game, m: nat, loss: int) {
    && m < |g.mobs| && m < |h.mobs|
    && (if h.mobs[m].alive then h.mobs[m].hp + loss <= g.mobs[m].hp else loss < g.mobs[m].hp)
  }

  lemma WornStep(g: Game, before: Game, after: Game, m: nat, loss: int, blow: int)
    requires WornDown(g, before, m, loss) && m < |after.mobs|
    requires 0 <= blow
    requires Sound(before.mobs[m]) && Sound(after.mobs[m])
    requires if blow == 0 then after.mobs[m].hp <= before.mobs[m].hp && (after.mobs[m].alive ==> before.mobs[m].alive)
             else before.mobs[m].alive && after.mobs[m].alive && after.mobs[m].hp <= before.mobs[m].hp - blow
    ensures WornDown(g, after, m, loss + blow)
  {
  }

  /** One step of a fight that goes on. */
  lemma StepWearsDown(g: Game, before: Game, e: Event, after: Game, id: nat, m: nat, loss: nat, d: nat)
    requires Inv(before) && Leads(before, e, after) && Hunts(before, id, m) && InFight(after, id) && 0 < d
    requires m < |before.revived| && m < |after.revived| && after.revived[m] == before.revived[m]
    requires Damage(before.players[id].c) >= d && WornDown(g, before, m, loss)
    ensures Hunts(after, id, m) && WornDown(g, after, m, loss + if OwnTick(e, id) then d else 0)
  {
    hide Inv, Step, Possible, Damage, Hunts, Sound, Peopled, WornDown;
    HuntsFacts(before, id, m);
    StepWears(before, e, m);
    StepKeeps(before, e);
    MobsNow(before);
    MobsNow(after);
    HuntGoesOn(before, e, id, m);
    if OwnTick(e, id) {
      TickIsPossible(e);
      OwnTickHurts(before, id, m, e.now);
      WornStep(g, before, after, m, loss, d);
    } else {
      WornStep(g, before, after, m, loss, 0);
    }
  }

  lemma {:induction false} FightWears(states: seq<Game>, es: seq<Event>, id: nat, m: nat, d: nat)
    requires Runs(states, es) && Inv(states[0]) && Hunts(states[0], id, m) && states[0].mobs[m].alive && 0 < d
    requires FightsOn(states, id) && Armed(states, id, d)
    requires m < |states[0].revived| && m < |Last(states).revived| && Last(states).revived[m] == states[0].revived[m]
    ensures Hunts(Last(states), id, m) && WornDown(states[0], Last(states), m, d * OwnTicks(es, id))
    decreases |es|
  {
    hide Inv, Leads, Damage, Hunts, Sound, Peopled, WornDown, Runs, Wears, SameKind, InFight, FightsOn, Armed;
    SomeState(states, es);
    HuntsFacts(states[0], id, m);
    if es == [] {
      NoStep(states, es);
      MobsNow(states[0]);
      WornAtStart(states[0], id, m);
    } else {
      LastStep(states, es);
      var before := Last(Init(states));
      Shortened(states, id, d);
      RunKeeps(Init(states), Init(es));
      RespawnsGrow(Init(states), Init(es), m);
      RespawnsStep(before, Last(es), Last(states), m);
      FightWears(Init(states), Init(es), id, m, d);
      StepWearsDown(states[0], before, Last(es), Last(states), id, m, d * OwnTicks(Init(es), id), d);
    }
  }

  lemma RespawnsStep(g: Game, e: Event, h: Game, m: nat)
    requires Inv(g) && Leads(g, e, h) && m < |g.mobs|
    ensures m < |g.revived| && m < |h.revived| && g.revived[m] <= h.revived[m]
  {
    hide Inv, Step, Possible;
    StepWears(g, e, m);
  }

  lemma Shortened(states: seq<Game>, id: nat, d: int)
    requires |states| > 1 && FightsOn(states, id) && Armed(states, id, d)
    ensures FightsOn(Init(states), id) && Armed(Init(states), id, d)
    ensures InFight(Last(states), id) && InFight(Last(Init(states)), id)
    ensures Acts(Last(Init(states)), id) && Damage(Last(Init(states)).players[id].c) >= d
  {
    hide Damage;
    assert Last(states) in states && Last(Init(states)) in states && forall g :: g in Init(states) ==> g in states;
  }

  lemma TickIsPossible(e: Event)
    requires e.Tick? && Possible(e)
    ensures e.now > 0
  {
  }

  lemma WornAtStart(g: Game, id: nat, m: nat)
    requires Hunts(g, id, m) && Sound(g.mobs[m]) && g.mobs[m].alive
    ensures WornDown(g, g, m, 0)
  {
  }

  /** A fighter whose blows are worth d has laid the target down, or been laid down,
   *  by the time its own heartbeats number the mob's hit points over d, whatever
   *  anyone else does meanwhile, unless the mob came back in between. */
  lemma FightsEnd(states: seq<Game>, es: seq<Event>, id: nat, m: nat, d: nat)
    requires Runs(states, es) && Inv(states[0]) && Hunts(states[0], id, m) && states[0].mobs[m].alive && 0 < d
    requires Armed(states, id, d)
    requires m < |states[0].revived| && m < |Last(states).revived| && Last(states).revived[m] == states[0].revived[m]
    ensures d * OwnTicks(es, id) >= states[0].mobs[m].hp ==> !FightsOn(states, id)
  {
    hide Inv, Runs, Damage, Hunts, FightsOn, Armed;
    SomeState(states, es);
    if FightsOn(states, id) {
      FightWears(states, es, id, m, d);
      RunKeeps(states, es);
      MobsNow(Last(states));
    }
  }

  /** Two is a weight every blow has. */
  lemma {:induction false} EverybodyIsArmed(states: seq<Game>, es: seq<Event>, id: nat)
    requires Runs(states, es) && Inv(states[0])
    ensures Armed(states, id, 2)
    decreases |es|
  {
    hide Inv, Leads, Damage, Runs;
    SomeState(states, es);
    RunKeeps(states, es);
    if Acts(Last(states), id) {
      LevelFacts(Last(states), id);
    }
    if es == [] {
      NoStep(states, es);
      assert forall g :: g in states ==> g == Last(states);
    } else {
      LastStep(states, es);
      EverybodyIsArmed(Init(states), Init(es), id);
      assert forall g :: g in states ==> g in Init(states) || g == Last(states);
    }
  }

  // ------------------------------------------------- from attack to the end

  /** Whoever attacks a creature of the room hunts it, and it lives. */
  lemma AttackHunts(g: Game, id: nat, arg: string, now: int)
    requires Inv(g) && Acts(g, id) && g.players[id].target == "" && now > 0
    requires Quarry(Respawned(g, now), g.players[id], arg).Some?
    ensures var h := Step(g, Do(id, Attack(arg), now));
            var m := MobInRoom(Respawned(g, now).mobs, g.players[id].c.room, arg);
            Hunts(h, id, m) && m < |h.mobs| && h.mobs[m].alive
  {
    hide Inv, Peopled, MobInRoom, Respawned, Sound;
    RespawnedKeeps(g, now);
    SpawnMoves(g, now);
    var h := Respawned(g, now);
    MobsNow(h);
    CreaturesHaveNames(h.mobs, MobInRoom(h.mobs, g.players[id].c.room, arg));
  }

  lemma CreaturesHaveNames(mobs: seq<Mob>, m: nat)
    requires Peopled(mobs) && m < |mobs|
    ensures mobs[m].id != ""
  {
    assert SameKind(mobs[m], Seed()[m]);
  }

  /** In every sound state whoever has a target hunts a creature of the room, dead or alive. */
  lemma FightersHunt(g: Game, id: nat) returns (m: nat)
    requires Inv(g) && InFight(g, id)
    ensures Hunts(g, id, m)
  {
    hide Roster, Living, Sturdy, Counted, Taught, Known, Earned, Tidal, Paired, Drafted, Spaced, Untried, Peopled,
      Caches.Kept;
    var p := g.players[id];
    assert AimsAt(p, g.mobs);
    var i :| 0 <= i < |g.mobs| && g.mobs[i].room == p.c.room && SameName(g.mobs[i].id, p.target);
    m := i;
  }

  /** Who hunts what is already dead, and has not come back, stops at the next heartbeat. */
  lemma DeadQuarryEnds(g: Game, id: nat, m: nat, now: int)
    requires Inv(g) && now > 0 && Hunts(g, id, m) && !g.mobs[m].alive
    requires m < |g.revived| && m < |Step(g, Tick(id, now)).revived|
            && Step(g, Tick(id, now)).revived[m] == g.revived[m]
    ensures !InFight(Step(g, Tick(id, now)), id)
  {
    hide Inv, Peopled, Sound, MobInRoom, Damage, Kills, Struck;
    MobsNow(g);
    RespawnedKeeps(g, now);
    SpawnMoves(g, now);
    var h := Respawned(g, now);
    MobsNow(h);
    RoundMobs(h, id, now);
    SpawnSpares(g, now, m);
    hide Respawned;
    DeadIsGone(h.mobs, m, g.players[id].target);
  }

  lemma DeadStepEnds(before: Game, e: Event, after: Game, id: nat, m: nat)
    requires Inv(before) && Leads(before, e, after) && Hunts(before, id, m) && !before.mobs[m].alive
            && InFight(after, id)
    requires m < |before.revived| && m < |after.revived| && after.revived[m] == before.revived[m]
    ensures Hunts(after, id, m) && !after.mobs[m].alive && !OwnTick(e, id)
  {
    hide Inv, Step, Possible, Hunts, Sound, Peopled, InFight;
    HuntsFacts(before, id, m);
    StepWears(before, e, m);
    HuntGoesOn(before, e, id, m);
    if OwnTick(e, id) {
      TickIsPossible(e);
      DeadQuarryEnds(before, id, m, e.now);
    }
  }

  lemma {:induction false} DeadQuarryStays(states: seq<Game>, es: seq<Event>, id: nat, m: nat)
    requires Runs(states, es) && Inv(states[0]) && Hunts(states[0], id, m) && !states[0].mobs[m].alive
            && FightsOn(states, id)
    requires m < |states[0].revived| && m < |Last(states).revived| && Last(states).revived[m] == states[0].revived[m]
    ensures Hunts(Last(states), id, m) && !Last(states).mobs[m].alive && OwnTicks(es, id) == 0
    decreases |es|
  {
    hide Inv, Leads, Hunts, Sound, Peopled, Runs, InFight, FightsOn, Armed;
    SomeState(states, es);
    HuntsFacts(states[0], id, m);
    if es == [] {
      NoStep(states, es);
    } else {
      LastStep(states, es);
      FoughtOn(states, id);
      RunKeeps(Init(states), Init(es));
      RespawnsGrow(Init(states), Init(es), m);
      RespawnsStep(Last(Init(states)), Last(es), Last(states), m);
      DeadQuarryStays(Init(states), Init(es), id, m);
      DeadStepEnds(Last(Init(states)), Last(es), Last(states), id, m);
    }
  }

  lemma FoughtOn(states: seq<Game>, id: nat)
    requires |states| > 1 && FightsOn(states, id)
    ensures FightsOn(Init(states), id) && InFight(Last(states), id)
  {
    assert Last(states) in states && forall g :: g in Init(states) ==> g in states;
  }

  /** In every run of the server, every fight under way is about one creature of the
   *  room, and is over by the time the fighter's own heartbeats number half that
   *  creature's hit points, and at least one, unless it came back in between. */
  lemma EveryFightEnds(past: seq<Game>, olds: seq<Event>, states: seq<Game>, es: seq<Event>, id: nat) returns (m: nat)
    requires Served(past, olds) && Runs(states, es) && past != [] && states[0] == Last(past) && InFight(states[0], id)
    ensures m < |states[0].mobs| == |states[0].revived| == |Last(states).revived|
    ensures Hunts(states[0], id, m)
    ensures Last(states).revived[m] == states[0].revived[m] && OwnTicks(es, id) >= 1
            && 2 * OwnTicks(es, id) >= states[0].mobs[m].hp
            ==> !FightsOn(states, id)
  {
    hide Served, Inv, Runs, Hunts, FightsOn, Armed, InFight, Peopled, Sound, Damage;
    ServedKeeps(past, olds);
    SomeState(states, es);
    m := FightersHunt(states[0], id);
    HuntsFacts(states[0], id, m);
    RespawnsGrow(states, es, m);
    if Last(states).revived[m] == states[0].revived[m] && FightsOn(states, id) {
      if states[0].mobs[m].alive {
        EverybodyIsArmed(states, es, id);
        FightsEnd(states, es, id, m, 2);
      } else {
        DeadQuarryStays(states, es, id, m);
      }
    }
  }
}
