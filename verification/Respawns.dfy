/** When the dead creatures of the world come back, over whole runs. */
module Respawns {
  import opened Blows
  import opened Commands
  import opened Fights
  import opened Game
  import opened GameLaws
  import opened GameRuns
  import opened Sequences
  import opened Text
  import opened World
  import Buffers
  import Caches
  import Characters
  import Commits
  import Store

  /** The seconds a slain creature stays away; none for the Ashmonger, who stays for good. */
  function Absence(m: nat): nat {
    if m == 0 then 20 else if m == 1 then 40 else if m == 2 then 60 else if m == 3 then 30 else if m == 4 then 60 else 0
  }

  lemma AbsenceIs(mobs: seq<Mob>, m: nat)
    requires Peopled(mobs) && m < |mobs|
    ensures |mobs| == 6 && mobs[m].respawnMs == 1000 * Absence(m)
  {
    SeedIsPeopled();
    assert SameKind(mobs[m], Seed()[m]);
  }

  /** The creature lies dead since that clock. */
  predicate Slain(g: Game, m: nat, at: int) {
    m < |g.mobs| && !g.mobs[m].alive && g.mobs[m].diedAt == at
  }

  predicate Timed(e: Event) {
    e.Name? || e.PickRace? || e.Answer? || e.Do? || e.Tick?
  }

  /** How a step treats a creature that nobody is about to strike: as the clock says, or
   *  not at all; a command or a heartbeat never leaves it out. */
  ghost predicate Treated(g: Game, e: Event, h: Game, m: nat)
    requires m < |g.mobs| && m < |h.mobs|
  {
    if e.Do? || e.Tick? then
      if Acts(g, e.id) then Met(g.mobs[m], e.now, h.mobs[m]) else h.mobs[m] == g.mobs[m]
    else
      h.mobs[m] == g.mobs[m] || (Timed(e) && Met(g.mobs[m], e.now, h.mobs[m]))
  }

  /** The one that a heartbeat strikes at. */
  predicate StrikesAt(g: Game, e: Event, m: nat) {
    e.Tick? && Hunts(g, e.id, m)
  }

  lemma DoTreats(g: Game, id: nat, cmd: Command, now: int, m: nat)
    requires Inv(g) && Acts(g, id) && now > 0 && m < |g.mobs|
    ensures |Step(g, Do(id, cmd, now)).mobs| == |g.mobs| && Met(g.mobs[m], now, Step(g, Do(id, cmd, now)).mobs[m])
  {
    hide Inv, Play, Met, Peopled, Respawned;
    MobsNow(g);
    SpawnMoves(g, now);
    RespawnsMet(g, now);
    PlaySparesMobs(Respawned(g, now), id, cmd, now);
  }

  lemma TickTreats(g: Game, id: nat, now: int, m: nat)
    requires Inv(g) && Acts(g, id) && now > 0 && m < |g.mobs| && !Hunts(g, id, m)
    ensures |Step(g, Tick(id, now)).mobs| == |g.mobs| && Met(g.mobs[m], now, Step(g, Tick(id, now)).mobs[m])
  {
    hide Inv, Met, Peopled, Respawned, CombatRound, Settle, Rested, Sound, Hunts, Beaten;
    MobsNow(g);
    SpawnMoves(g, now);
    RespawnsMet(g, now);
    var p := g.players[id];
    if p.target != "" {
      var k := FightersHunt(g, id);
      HuntsFacts(g, id, k);
      HeartbeatBeats(g, id, k, now);
      BeatenElsewhere(g, id, k, now, Step(g, Tick(id, now)), m);
    } else {
      TurnSparesMobs(Respawned(g, now), id, Rested(p));
    }
  }

  lemma BeatenElsewhere(g: Game, id: nat, k: nat, now: int, h: Game, m: nat)
    requires id in g.players && id in h.players && k < |g.mobs| == |h.mobs| && Beaten(g, id, k, now, h)
            && m < |g.mobs| && m != k
    ensures Met(g.mobs[m], now, h.mobs[m])
  {
    hide Met, Wounded, Store.Save, Damage;
  }

  /** As it was, or as the clock says. */
  ghost predicate Spawned(g: Game, now: int, h: Game, m: nat) {
    |h.mobs| == |g.mobs| && (m < |g.mobs| ==> h.mobs[m] == g.mobs[m] || Met(g.mobs[m], now, h.mobs[m]))
  }

  lemma SpawnsAlike(g: Game, k: Game, now: int)
    requires k.mobs == g.mobs
    ensures Respawned(k, now).mobs == Respawned(g, now).mobs
  {
    hide TickRespawns, Risen;
  }

  lemma ShownSpawns(g: Game, k: Game, playing: bool, now: int, m: nat)
    requires Peopled(g.mobs) && k.mobs == g.mobs
    ensures Spawned(g, now, Shown(k, playing, now), m) && Spawned(g, now, g, m)
  {
    hide Met, Peopled, Respawned;
    RespawnsMet(k, now);
  }

  lemma EnterSpawns(g: Game, k: Game, id: nat, c: Characters.Character, now: int, m: nat)
    requires Peopled(g.mobs) && k.mobs == g.mobs
    ensures Spawned(g, now, Enter(k, id, c, now), m)
  {
    hide Spawned, Peopled, Shown, IsRoom;
    var room := if IsRoom(c.room) then c.room else "nexus";
    var position := if c.position == "" then "standing" else c.position;
    var p := Player(!k.federated, c.(room := room, position := position), "", false, 0, 0, c.xp);
    ShownSpawns(g, k.(players := k.players[id := p], order := [id] + k.order), p.playing, now, m);
  }

  lemma NamedSpawns(g: Game, name: string, now: int, m: nat)
    requires Peopled(g.mobs)
    ensures Spawned(g, now, Named(g, name, now), m)
  {
    hide Met, Peopled, Enter, Store.Load, Store.ValidName;
    if Store.Load(g.rows, name).Found? {
      EnterSpawns(g, g.(nextId := g.nextId + 1), g.nextId, Store.Load(g.rows, name).c, now, m);
    }
  }

  lemma PickedSpawns(g: Game, id: nat, race: string, now: int, m: nat)
    requires Peopled(g.mobs)
    ensures Spawned(g, now, Picked(g, id, race, now), m)
  {
    hide Met, Peopled, Enter, Store.Save, Store.Key, RACES;
    if id in g.drafts {
      var c := Characters.NewCharacter(g.drafts[id]).(race := race);
      EnterSpawns(g, g.(drafts := g.drafts - {id}, rows := Store.Save(g.rows, c)), id, c, now, m);
    }
  }

  lemma AnsweredSpawns(g: Game, id: nat, sheet: Characters.Option<Commits.Sheet>, now: int, m: nat)
    requires Peopled(g.mobs)
    ensures Spawned(g, now, Answered(g, id, sheet, now), m)
  {
    hide Met, Peopled, Shown, Merge;
    if id in g.players {
      var p := g.players[id];
      var c := if sheet.Some? then Merge(p.c, sheet.value) else p.c;
      ShownSpawns(g, g.(players := g.players[id := p.(c := c, playing := true, baseXp := c.xp)]), true, now, m);
    }
    ShownSpawns(g, g, false, now, m);
  }

  /** Every step, every creature. */
  lemma StepTreats(g: Game, e: Event, m: nat)
    requires Inv(g) && Possible(e) && m < |g.mobs| && !StrikesAt(g, e, m)
    ensures |Step(g, e).mobs| == |g.mobs| && Treated(g, e, Step(g, e), m)
  {
    hide Inv, Met, Peopled, Hunts, Play, Ticked, Named, Picked, Answered, Respawned, Closed;
    MobsNow(g);
    match e
    case Do(id, cmd, now) =>
      if Acts(g, id) {
        DoTreats(g, id, cmd, now, m);
      }
    case Tick(id, now) =>
      if Acts(g, id) {
        TickTreats(g, id, now, m);
      }
    case Name(name, now) => NamedSpawns(g, name, now, m);
    case PickRace(id, race, now) => PickedSpawns(g, id, race, now, m);
    case Answer(id, sheet, now) => AnsweredSpawns(g, id, sheet, now, m);
    case Close(id) => ClosingSparesMobs(g, id);
    case _ =>
  }

  lemma ClosingSparesMobs(g: Game, id: nat)
    ensures Closed(g, id).mobs == g.mobs
  {
    hide Store.Save, Filter;
  }

  // -------------------------------------------------- until it is time

  /** What is dead stays dead, in every kind of step, as long as its time has not come. */
  lemma DeadTillThen(g: Game, e: Event, m: nat, at: int)
    requires Inv(g) && Possible(e) && Slain(g, m, at)
    requires Timed(e) ==> Absence(m) == 0 || e.now < at + Absence(m)
    ensures Slain(Step(g, e), m, at)
  {
    hide Inv, Step, Possible, Hunts, Peopled, Beaten;
    MobsNow(g);
    AbsenceIs(g.mobs, m);
    if StrikesAt(g, e, m) {
      StruckFacts(g, e, m);
      HeartbeatBeats(g, e.id, m, e.now);
      BeatenDead(g, e.id, m, e.now, Step(g, e));
    } else {
      StepTreats(g, e, m);
    }
  }

  lemma StruckFacts(g: Game, e: Event, m: nat)
    requires StrikesAt(g, e, m) && Possible(e)
    ensures e.Tick? && Hunts(g, e.id, m) && e.now > 0 && e.id in g.players && e == Tick(e.id, e.now)
  {
  }

  lemma BeatenDead(g: Game, id: nat, m: nat, now: int, h: Game)
    requires id in g.players && id in h.players && m < |g.mobs| == |h.mobs| && Beaten(g, id, m, now, h)
    requires !g.mobs[m].alive && !(g.mobs[m].respawnMs > 0 && (now - g.mobs[m].diedAt) * 1000 >= g.mobs[m].respawnMs)
    ensures h.mobs[m] == g.mobs[m]
  {
    hide Wounded, Store.Save, Damage;
  }

  /** And is alive and whole after the first command or heartbeat from then on, unless that
   *  is the heartbeat of one who hunts it and strikes at once. */
  lemma BackFromThen(g: Game, e: Event, m: nat, at: int)
    requires Inv(g) && Possible(e) && Slain(g, m, at) && Absence(m) > 0
    requires (e.Do? || e.Tick?) && Acts(g, e.id) && e.now >= at + Absence(m)
    ensures |Step(g, e).mobs| == |g.mobs|
    ensures var n, now := g.mobs[m], Step(g, e).mobs[m];
            if !StrikesAt(g, e, m) then now == n.(hp := n.maxHp, alive := true, diedAt := 0)
            else
              var blow := Damage(g.players[e.id].c);
              if n.maxHp > blow then now == n.(hp := n.maxHp - blow, alive := true, diedAt := 0)
              else now == n.(hp := 0, alive := false, diedAt := e.now)
  {
    hide Inv, Step, Possible, Hunts, Peopled, Beaten, Damage;
    MobsNow(g);
    AbsenceIs(g.mobs, m);
    if StrikesAt(g, e, m) {
      StruckFacts(g, e, m);
      HeartbeatBeats(g, e.id, m, e.now);
      BeatenBack(g, e.id, m, e.now, Step(g, e));
    } else {
      StepTreats(g, e, m);
    }
  }

  lemma BeatenBack(g: Game, id: nat, m: nat, now: int, h: Game)
    requires id in g.players && id in h.players && m < |g.mobs| == |h.mobs| && Beaten(g, id, m, now, h)
    requires var n := g.mobs[m]; !n.alive && n.respawnMs > 0 && (now - n.diedAt) * 1000 >= n.respawnMs
    ensures var n, blow := g.mobs[m], Damage(g.players[id].c);
            h.mobs[m] == if n.maxHp > blow then n.(hp := n.maxHp - blow, alive := true, diedAt := 0)
                         else n.(hp := 0, alive := false, diedAt := now)
  {
    hide Wounded, Store.Save, Damage;
  }

  /** Over whole runs. */
  lemma {:induction false} DeadUntilItsTime(states: seq<Game>, es: seq<Event>, m: nat, at: int)
    requires Runs(states, es) && states != [] && Inv(states[0]) && Slain(states[0], m, at)
    requires forall e :: e in es && Timed(e) ==> Absence(m) == 0 || e.now < at + Absence(m)
    ensures Slain(Last(states), m, at)
    decreases |es|
  {
    hide Inv, Step, Possible, Runs, Slain, Timed;
    if es == [] {
      NoStep(states, es);
    } else {
      LastStep(states, es);
      SomeState(Init(states), Init(es));
      assert Last(es) in es && forall e :: e in Init(es) ==> e in es;
      DeadUntilItsTime(Init(states), Init(es), m, at);
      RunKeeps(Init(states), Init(es));
      DeadTillThen(Last(Init(states)), Last(es), m, at);
    }
  }

  // ---------------------------------------------------- kills lie apart

  /** The last clock an event of the list showed. */
  function Latest(es: seq<Event>): int {
    if es == [] then 0 else if Timed(Last(es)) then Last(es).now else Latest(Init(es))
  }

  /** Clocks never run backwards. */
  predicate Clocked(es: seq<Event>) {
    es == [] || (Clocked(Init(es)) && (Timed(Last(es)) ==> Latest(Init(es)) <= Last(es).now))
  }

  /** Two kills of one creature lie its absence apart. */
  ghost predicate Apart(kills: seq<Kill>) {
    forall i, j :: 0 <= i < j < |kills| && kills[i].mob == kills[j].mob ==>
      Absence(kills[i].mob) > 0 && kills[i].at + Absence(kills[i].mob) <= kills[j].at
  }

  /** A creature's kills are over by the clock when it lives, and by its death when it is dead. */
  ghost predicate Over(mob: Mob, m: nat, kills: seq<Kill>, clock: int) {
    && (!mob.alive ==> mob.diedAt <= clock)
    && forall k :: k in kills && k.mob == m ==>
         if mob.alive then Absence(m) > 0 && k.at + Absence(m) <= clock
         else k.at == mob.diedAt || (Absence(m) > 0 && k.at + Absence(m) <= mob.diedAt)
  }

  ghost predicate Told(g: Game, clock: int) {
    Apart(g.kills) && forall m :: 0 <= m < |g.mobs| ==> Over(g.mobs[m], m, g.kills, clock)
  }

  lemma OverLater(mob: Mob, m: nat, kills: seq<Kill>, clock: int, now: int)
    requires Over(mob, m, kills, clock) && clock <= now
    ensures Over(mob, m, kills, now)
  {
  }

  lemma OverMet(before: Mob, mob: Mob, m: nat, kills: seq<Kill>, clock: int, now: int)
    requires Over(before, m, kills, clock) && clock <= now && Met(before, now, mob)
            && before.respawnMs == 1000 * Absence(m)
    ensures Over(mob, m, kills, now)
  {
  }

  lemma KillApart(kills: seq<Kill>, k: Kill, mob: Mob, clock: int)
    requires Apart(kills) && mob.alive && Over(mob, k.mob, kills, clock) && clock <= k.at
    ensures Apart(kills + [k])
  {
    forall i | 0 <= i < |kills| && kills[i].mob == k.mob ensures Absence(k.mob) > 0 && kills[i].at + Absence(k.mob) <= k.at {
      assert kills[i] in kills;
    }
  }

  lemma OverKill(mob: Mob, dead: Mob, m: nat, kills: seq<Kill>, k: Kill)
    requires mob.alive && Over(mob, m, kills, k.at) && k.mob == m && !dead.alive && dead.diedAt == k.at
    ensures Over(dead, m, kills + [k], k.at)
  {
  }

  lemma OverElse(mob: Mob, m: nat, kills: seq<Kill>, k: Kill, clock: int)
    requires Over(mob, m, kills, clock) && k.mob != m
    ensures Over(mob, m, kills + [k], clock)
  {
  }

  /** Only a heartbeat of a hunt can add a kill. */
  lemma NoKills(g: Game, e: Event)
    requires Inv(g) && Possible(e) && (e.Tick? && Acts(g, e.id) ==> g.players[e.id].target == "")
    ensures Step(g, e).kills == g.kills
  {
    hide Inv, Play, Named, Picked, Respawned, Store.Save, Filter, Merge, TickRespawns, Risen;
    match e
    case Do(id, cmd, now) =>
      if Acts(g, id) {
        SpawnSparesTables(g, now);
        SpawnMoves(g, now);
        PlaySparesMobs(Respawned(g, now), id, cmd, now);
      }
    case Tick(id, now) =>
      SpawnSparesTables(g, now);
      SpawnMoves(g, now);
    case Name(name, now) => ComingSparesKills(g, 0, name, now);
    case PickRace(id, race, now) => ComingSparesKills(g, id, race, now);
    case Answer(id, sheet, now) => AnswerSparesKills(g, id, sheet, now);
    case _ =>
  }

  lemma AnswerSparesKills(g: Game, id: nat, sheet: Characters.Option<Commits.Sheet>, now: int)
    ensures Answered(g, id, sheet, now).kills == g.kills
  {
    hide Merge, TickRespawns, Risen;
  }

  lemma ComingSparesKills(g: Game, id: nat, name: string, now: int)
    ensures Named(g, name, now).kills == g.kills && Picked(g, id, name, now).kills == g.kills
  {
    hide Store.Load, Store.Save, Store.ValidName, Store.Key, RACES, IsRoom, TickRespawns, Risen;
  }

  lemma HuntTells(g: Game, id: nat, m: nat, now: int, h: Game, clock: int)
    requires Peopled(g.mobs) && id in g.players && id in h.players && m < |g.mobs| == |h.mobs|
            && Beaten(g, id, m, now, h)
    requires Told(g, clock) && clock <= now
    ensures Told(h, now)
  {
    hide Peopled, Wounded, Store.Save, Damage, Over, Apart, Met;
    var mob := Facing(g, id, m, now, h);
    forall k | 0 <= k < |g.mobs| ensures g.mobs[k].respawnMs == 1000 * Absence(k) {
      AbsenceIs(g.mobs, k);
    }
    OverMet(g.mobs[m], mob, m, g.kills, clock, now);
    forall k | 0 <= k < |g.mobs| && k != m ensures Over(h.mobs[k], k, g.kills, now) {
      OverMet(g.mobs[k], h.mobs[k], k, g.kills, clock, now);
    }
    if h.kills == g.kills {
      OverWound(mob, h.mobs[m], m, g.kills, now);
    } else {
      var kill := Kill(id, m, mob.xp, now);
      KillApart(g.kills, kill, mob, now);
      OverKill(mob, h.mobs[m], m, g.kills, kill);
      forall k | 0 <= k < |g.mobs| && k != m ensures Over(h.mobs[k], k, g.kills + [kill], now) {
        OverElse(h.mobs[k], k, g.kills, kill, now);
      }
    }
  }

  lemma OverWound(mob: Mob, after: Mob, m: nat, kills: seq<Kill>, clock: int)
    requires Over(mob, m, kills, clock) && after.alive == mob.alive && after.diedAt == mob.diedAt
    ensures Over(after, m, kills, clock)
  {
  }

  /** The creature a heartbeat faced. */
  lemma Facing(g: Game, id: nat, m: nat, now: int, h: Game) returns (mob: Mob)
    requires id in g.players && id in h.players && m < |g.mobs| == |h.mobs| && Beaten(g, id, m, now, h)
    ensures Met(g.mobs[m], now, mob)
    ensures forall k :: 0 <= k < |g.mobs| && k != m ==> Met(g.mobs[k], now, h.mobs[k])
    ensures if h.kills == g.kills then h.mobs[m].alive == mob.alive && h.mobs[m].diedAt == mob.diedAt
            else mob.alive && !h.mobs[m].alive && h.mobs[m].diedAt == now && h.kills == g.kills + [Kill(id, m, mob.xp, now)]
  {
    hide Met, Wounded, Store.Save, Damage;
    mob :| Met(g.mobs[m], now, mob)
           && (if !mob.alive then h.mobs[m] == mob && h.kills == g.kills
               else if mob.hp > Damage(g.players[id].c) then
                 h.mobs[m] == mob.(hp := mob.hp - Damage(g.players[id].c)) && h.kills == g.kills
               else h.mobs[m] == mob.(hp := 0, alive := false, diedAt := now) && h.kills == g.kills + [Kill(id, m, mob.xp, now)]);
  }

  lemma StepTells(g: Game, e: Event, h: Game, clock: int)
    requires Inv(g) && Leads(g, e, h) && Told(g, clock) && (Timed(e) ==> clock <= e.now)
    ensures Told(h, if Timed(e) then e.now else clock)
  {
    hide Inv, Step, Possible, Hunts, Beaten, Peopled, Over, Apart, Met;
    MobsNow(g);
    if e.Tick? && Acts(g, e.id) && g.players[e.id].target != "" {
      var m := FightersHunt(g, e.id);
      HuntsFacts(g, e.id, m);
      TickIsPossible(e);
      assert e == Tick(e.id, e.now);
      HeartbeatBeats(g, e.id, m, e.now);
      HuntTells(g, e.id, m, e.now, h, clock);
    } else {
      NoKills(g, e);
      var later := if Timed(e) then e.now else clock;
      assert |h.mobs| == |g.mobs| by {
        StepWears(g, e, 0);
      }
      forall m | 0 <= m < |h.mobs| ensures Over(h.mobs[m], m, h.kills, later) {
        NotStruck(g, e, m);
        StepTreats(g, e, m);
        AbsenceIs(g.mobs, m);
        OverLater(g.mobs[m], m, g.kills, clock, later);
        if h.mobs[m] != g.mobs[m] {
          OverMet(g.mobs[m], h.mobs[m], m, g.kills, clock, later);
        }
      }
    }
  }

  lemma NotStruck(g: Game, e: Event, m: nat)
    requires !(e.Tick? && Acts(g, e.id) && g.players[e.id].target != "")
    ensures !StrikesAt(g, e, m)
  {
  }

  lemma {:induction false} RunTells(states: seq<Game>, es: seq<Event>)
    requires Runs(states, es) && states != [] && Inv(states[0]) && Told(states[0], 0) && Clocked(es)
    ensures Told(Last(states), Latest(es))
    decreases |es|
  {
    hide Inv, Leads, Runs, Told;
    if es == [] {
      NoStep(states, es);
    } else {
      LastStep(states, es);
      SomeState(Init(states), Init(es));
      RunTells(Init(states), Init(es));
      RunKeeps(Init(states), Init(es));
      StepTells(Last(Init(states)), Last(es), Last(states), Latest(Init(es)));
    }
  }

  /** In every run whose clock never runs backwards, two kills of one creature lie at least
   *  its absence apart: twenty seconds for the rat, up to a minute for others. */
  lemma KillsLieApart(states: seq<Game>, es: seq<Event>)
    requires Served(states, es) && Clocked(es)
    ensures states != []
    ensures var kills := Last(states).kills;
            forall i, j :: 0 <= i < j < |kills| && kills[i].mob == kills[j].mob ==>
              Absence(kills[i].mob) > 0 && kills[i].at + Absence(kills[i].mob) <= kills[j].at
  {
    hide Inv, Runs, Sturdy, Start, Over;
    SomeState(states, es);
    var federated, rows :| Sturdy(rows) && states[0] == Start(federated, rows);
    StartKeeps(federated, rows);
    StartTells(federated, rows);
    RunTells(states, es);
  }

  lemma StartTells(federated: bool, rows: map<string, Store.Row>)
    ensures Told(Start(federated, rows), 0)
  {
    SeedIsPeopled();
    assert forall m :: 0 <= m < |Seed()| ==> Seed()[m].alive;
  }
}
