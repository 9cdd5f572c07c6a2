/** What a heartbeat of a fight costs either side, and how long a fighter lasts. */
module Blows {
  import opened Characters
  import opened Commands
  import opened Fights
  import opened Game
  import opened GameLaws
  import opened GameRuns
  import opened Reach
  import opened Sequences
  import opened Text
  import opened World
  import Buffers
  import Caches
  import Items
  import Store

  /** What a player's blow takes: one, one for every level, and what is in hand. */
  lemma BlowsWeigh(c: Character)
    ensures Damage(c) == c.level + (if c.weapon == "rebar" then 7 else if c.weapon == "shiv" then 4 else 1)
  {
  }

  /** The player after a creature's blow: that much weaker, or whole again in the nexus
   *  with the fight over. */
  predicate Wounded(p: Player, q: Player, blow: int) {
    if p.c.hp > blow then
      q.c.hp == p.c.hp - blow && q == p.(c := p.c.(hp := q.c.hp))
    else
      && q.c.hp == q.c.maxHp == p.c.maxHp && q.c.room == "nexus" && q.c.position == "standing" && q.target == ""
      && q == p.(target := q.target, c := p.c.(hp := q.c.hp, room := q.c.room, position := q.c.position))
  }

  /** The roll with a new name at its head; the sixty-fifth falls off. */
  function Headed(roll: seq<string>, name: string): seq<string> {
    [name] + if |roll| > MAX_FALLEN - 1 then roll[..MAX_FALLEN - 1] else roll
  }

  /** The mob that a heartbeat finds in place of the m-th: as it was, or just returned. */
  predicate Met(before: Mob, now: int, mob: Mob) {
    if !before.alive && before.respawnMs > 0 && (now - before.diedAt) * 1000 >= before.respawnMs then
      mob == before.(hp := before.maxHp, alive := true, diedAt := 0)
    else mob == before
  }

  /** A heartbeat of a session on the hunt, for everybody and everything: nobody else
   *  changes. A creature that stands takes the blow; if it still stands it gives its own
   *  back, which wounds the player by just its damage, or lays the player down in front
   *  of the roll of the fallen. If it falls, the player is unhurt, taught, and free. A
   *  creature that is not there costs nobody anything but the target. */
  ghost predicate Beaten(g: Game, id: nat, m: nat, now: int, h: Game)
    requires id in g.players && id in h.players && m < |g.mobs| == |h.mobs|
  {
    var p, q := g.players[id], h.players[id];
    && h == g.(players := g.players[id := q], mobs := h.mobs, revived := h.revived, rows := h.rows, fallen := h.fallen,
               kills := h.kills, wardenSlainAt := h.wardenSlainAt)
    && (forall k :: 0 <= k < |g.mobs| && k != m ==> Met(g.mobs[k], now, h.mobs[k]))
    && exists mob ::
         && Met(g.mobs[m], now, mob)
         && (if !mob.alive then
               q == p.(target := "") && h.mobs[m] == mob && h.fallen == g.fallen && h.kills == g.kills && h.rows == g.rows
               && h.wardenSlainAt == g.wardenSlainAt
             else if mob.hp > Damage(p.c) then
               && h.mobs[m] == mob.(hp := mob.hp - Damage(p.c)) && Wounded(p, q, mob.damage)
               && h.fallen == (if p.c.hp > mob.damage then g.fallen else Headed(g.fallen, p.c.name))
               && h.kills == g.kills && h.rows == g.rows && h.wardenSlainAt == g.wardenSlainAt
             else
               && h.mobs[m] == mob.(hp := 0, alive := false, diedAt := now)
               && q == p.(target := "", c := p.c.(xp := p.c.xp + mob.xp))
               && h.kills == g.kills + [Kill(id, m, mob.xp, now)] && h.fallen == g.fallen
               && h.rows == Store.Save(g.rows, q.c)
               && h.wardenSlainAt == if mob.id == "warden" then now else g.wardenSlainAt)
  }

  lemma RespawnsMet(g: Game, now: int)
    requires Peopled(g.mobs)
    ensures var h := Respawned(g, now);
            && |h.mobs| == |g.mobs| && SameKinds(g.mobs, h.mobs)
            && forall k :: 0 <= k < |g.mobs| ==> Met(g.mobs[k], now, h.mobs[k])
  {
    hide Seed;
  }

  lemma ReknitIs(p: Player, damage: int)
    ensures var hit := p.(c := p.c.(hp := p.c.hp - damage));
            Wounded(p, if hit.c.hp <= 0 then Reknit(hit) else hit, damage)
  {
  }

  lemma EnrollHeads(roll: seq<string>, name: string)
    ensures Buffers.Enroll(roll, name, MAX_FALLEN) == Headed(roll, name)
  {
  }

  lemma StrikingBack(g: Game, id: nat, m: nat, mob: Mob)
    requires id in g.players && m < |g.mobs|
    ensures var p, h := g.players[id], Struck(g, id, m, mob);
            && id in h.players && h.players == g.players[id := h.players[id]] && h.mobs == g.mobs[m := mob]
            && Wounded(p, h.players[id], mob.damage)
            && h == g.(players := h.players, mobs := h.mobs, fallen := h.fallen)
            && h.fallen == if p.c.hp > mob.damage then g.fallen else Headed(g.fallen, p.c.name)
  {
    hide Headed, Wounded, Reknit, Buffers.Enroll;
    ReknitIs(g.players[id], mob.damage);
    EnrollHeads(g.fallen, g.players[id].c.name);
  }

  lemma Killing(g: Game, id: nat, m: nat, mob: Mob, now: int)
    requires id in g.players && m < |g.mobs|
    ensures var p, h := g.players[id], Kills(g, id, m, mob, now);
            var q := p.(target := "", c := p.c.(xp := p.c.xp + mob.xp));
            && h.players == g.players[id := q] && h.mobs == g.mobs[m := mob.(alive := false, diedAt := now)]
            && h == g.(players := h.players, mobs := h.mobs, kills := h.kills, rows := h.rows, wardenSlainAt := h.wardenSlainAt)
            && h.kills == g.kills + [Kill(id, m, mob.xp, now)] && h.rows == Store.Save(g.rows, q.c)
            && h.wardenSlainAt == if mob.id == "warden" then now else g.wardenSlainAt
  {
    hide Store.Save;
  }

  /** The round itself, once the mob is found. */
  lemma RoundBeats(g: Game, id: nat, m: nat, now: int)
    requires id in g.players && m < |g.mobs| && MobInRoom(g.mobs, g.players[id].c.room, g.players[id].target) == m
    ensures var p := g.players[id];
            var h := CombatRound(g, id, now);
            && id in h.players && |h.mobs| == |g.mobs| && h.players == g.players[id := h.players[id]]
            && h == g.(players := h.players, mobs := h.mobs, rows := h.rows, fallen := h.fallen, kills := h.kills,
                       wardenSlainAt := h.wardenSlainAt)
            && var mob, q := g.mobs[m], h.players[id];
               if mob.hp > Damage(p.c) then
                 && h.mobs == g.mobs[m := mob.(hp := mob.hp - Damage(p.c))] && Wounded(p, q, mob.damage)
                 && h.fallen == (if p.c.hp > mob.damage then g.fallen else Headed(g.fallen, p.c.name))
                 && h.kills == g.kills && h.rows == g.rows && h.wardenSlainAt == g.wardenSlainAt
               else
                 && h.mobs == g.mobs[m := mob.(hp := 0, alive := false, diedAt := now)]
                 && q == p.(target := "", c := p.c.(xp := p.c.xp + mob.xp))
                 && h.kills == g.kills + [Kill(id, m, mob.xp, now)] && h.fallen == g.fallen
                 && h.rows == Store.Save(g.rows, q.c)
                 && h.wardenSlainAt == if mob.id == "warden" then now else g.wardenSlainAt
  {
    hide Damage, MobInRoom, Store.Save, Headed, Kills, Struck, Wounded;
    var blow := Damage(g.players[id].c);
    StrikingBack(g, id, m, g.mobs[m].(hp := g.mobs[m].hp - blow));
    Killing(g, id, m, g.mobs[m].(hp := 0), now);
  }

  lemma RoundMisses(g: Game, id: nat, now: int)
    requires id in g.players && MobInRoom(g.mobs, g.players[id].c.room, g.players[id].target) >= |g.mobs|
    ensures CombatRound(g, id, now) == g.(players := g.players[id := g.players[id].(target := "")])
  {
    hide MobInRoom;
  }

  /** Every heartbeat of a session on the hunt is as told. */
  lemma HeartbeatBeats(g: Game, id: nat, m: nat, now: int)
    requires Inv(g) && now > 0 && Hunts(g, id, m)
    ensures var h := Step(g, Tick(id, now));
            id in h.players && |h.mobs| == |g.mobs| && Beaten(g, id, m, now, h)
  {
    hide Inv, Peopled, Sound, MobInRoom, Damage, CombatRound, Respawned, Met, Wounded, Store.Save, Headed, Hunts,
      InFight;
    HuntsFacts(g, id, m);
    MobsNow(g);
    RespawnedKeeps(g, now);
    SpawnMoves(g, now);
    SpawnSparesTables(g, now);
    RespawnsMet(g, now);
    var r := Respawned(g, now);
    MobsNow(r);
    var p := g.players[id];
    HuntedIs(g, r, id, m);
    if r.mobs[m].alive {
      RoundBeats(r, id, m, now);
      SoundWhileAlive(r.mobs[m]);
    } else {
      DeadIsGone(r.mobs, m, p.target);
      RoundMisses(r, id, now);
    }
    assert Step(g, Tick(id, now)) == CombatRound(r, id, now);
    assert Met(g.mobs[m], now, r.mobs[m]);
  }

  lemma SoundWhileAlive(mob: Mob)
    requires Sound(mob) && mob.alive
    ensures mob.hp > 0
  {
  }

  lemma SpawnSparesTables(g: Game, now: int)
    ensures Respawned(g, now) == g.(mobs := Respawned(g, now).mobs, revived := Respawned(g, now).revived)
  {
  }

  /** The quarry of a hunt is the one its round finds, if it is there at all. */
  lemma HuntedIs(g: Game, r: Game, id: nat, m: nat)
    requires Hunts(g, id, m) && Peopled(r.mobs) && |r.mobs| == |g.mobs| && SameKinds(g.mobs, r.mobs)
    ensures r.mobs[m].room == g.players[id].c.room && SameName(r.mobs[m].id, g.players[id].target)
    ensures r.mobs[m].alive ==> MobInRoom(r.mobs, g.players[id].c.room, g.players[id].target) == m
  {
    hide MobInRoom, Peopled;
    if r.mobs[m].alive {
      TargetIs(r.mobs, m, g.players[id].target);
    }
  }

  // ------------------------------------------------- nothing else wounds

  ghost predicate Mended(g: Game, h: Game, id: nat) {
    id in g.players && id in h.players && h.players[id].c.hp >= g.players[id].c.hp
  }

  lemma SettledMends(g: Game, m: Game, id: nat, t: Turn)
    requires id in g.players && m.players == g.players && Lawful(g.players[id], t) && Hale(g.players[id].c)
    ensures id in Settle(m, id, t).players && Settle(m, id, t).players[id].c.hp >= g.players[id].c.hp
  {
    hide Store.Save, Clamp, IsRoom, Store.Fits;
  }

  lemma VigilMends(g: Game, id: nat, arg: string)
    requires id in g.players && Hale(g.players[id].c)
    ensures Mended(g, Remember(g, id, arg), id)
  {
    hide Lawful, Hale, Settle, Witness, Mark, Has;
    var p := g.players[id];
    NamingIsLawful(p, "");
    var i := IndexOf(NameIs(arg), g.fallen);
    if i < |g.fallen| {
      SettledMends(g, g.(kept := Mark(g.kept, p.c.name, g.fallen[i], MAX_KEPT)), id, Witness(p));
    }
  }

  lemma CagesMend(g: Game, id: nat, now: int)
    requires id in g.players && Hale(g.players[id].c)
    ensures Mended(g, Free(g, id, now), id)
    ensures Mended(g, Shelter(g, id, now), id)
  {
    hide Lawful, Hale, Settle, Rescue, FreeFromPit, WardenCleared, CagesReady;
    var p := g.players[id];
    RescueIsLawful(p);
    SettledMends(g, g.(cellsAt := now + CAGE_REFILL, cellsFreed := g.cellsFreed + [now]), id, Rescue(p));
    SettledMends(g, g.(transitAt := now + CAGE_REFILL, hubFreed := g.hubFreed + [now]), id, Rescue(p));
    SettledMends(g, g, id, FreeFromPit(p));
  }

  lemma CoinMends(g: Game, id: nat, amount: int)
    requires id in g.players && Hale(g.players[id].c)
    ensures Mended(g, Leave(g, id, amount), id)
    ensures Mended(g, Gather(g, id), id)
  {
    hide Lawful, Hale, Settle, Caches.AddCache, Caches.TakeCache, Shifted;
    var p := g.players[id];
    var taken := Caches.TakeCache(g.caches, p.c.room);
    CoinIsLawful(p, p.c.gold - amount);
    CoinIsLawful(p, p.c.gold + taken.0);
    SettledMends(g, g.(caches := Caches.AddCache(g.caches, p.c.room, amount)), id,
                 Saved(p, Shifted(p.c.(gold := p.c.gold - amount), 2)));
    SettledMends(g, g.(caches := taken.1), id, Saved(p, p.c.(gold := p.c.gold + taken.0)));
  }

  lemma SparedIsMended(g: Game, h: Game, id: nat)
    requires id in g.players && h.players.Keys == g.players.Keys && h.players[id].c.hp == g.players[id].c.hp
    ensures Mended(g, h, id)
  {
  }

  lemma ReachingMends(g: Game, id: nat, cmd: Command, now: int)
    requires id in g.players && Hale(g.players[id].c) && Store.Fits(g.players[id].c) && Reaches(cmd)
    ensures Mended(g, Play(g, id, cmd, now), id)
  {
    hide Hale, Settle, Own, Engage, Quarry, Forgive, Hand, Remember, Free, Shelter, Leave, Gather, Store.Fits, Mended;
    match cmd
    case Attack(arg) => EngagingMends(g, id, Quarry(g, g.players[id], arg));
    case ForgiveName(arg) =>
      ForgivingSpares(g, id, arg);
      SparedIsMended(g, Forgive(g, id, arg), id);
    case Give(item, who) =>
      GivingSpares(g, id, item, who);
      SparedIsMended(g, Hand(g, id, item, who), id);
    case WitnessName(arg) => VigilMends(g, id, arg);
    case FreeCaptive => CagesMend(g, id, now);
    case ShelterThem => CagesMend(g, id, now);
    case CacheGold(amount) => CoinMends(g, id, amount);
    case GatherGold => CoinMends(g, id, 0);
  }

  lemma OwnCommandsMend(g: Game, id: nat, cmd: Command, now: int)
    requires id in g.players && Hale(g.players[id].c) && Store.Fits(g.players[id].c)
    ensures id in Play(g, id, cmd, now).players && Play(g, id, cmd, now).players[id].c.hp >= g.players[id].c.hp
  {
    hide Lawful, Hale, Settle, Own, Play, Reaches, Store.Fits;
    if Reaches(cmd) {
      ReachingMends(g, id, cmd, now);
    } else {
      PlaysOwn(g, id, cmd, now);
      OwnIsLawful(g.players[id], g.tide, now, cmd);
      SettledMends(g, g, id, Own(g.players[id], g.tide, now, cmd));
    }
  }

  lemma EngagingMends(g: Game, id: nat, mob: Option<string>)
    requires id in g.players
    ensures Mended(g, Settle(g, id, Engage(g.players[id], mob)), id)
  {
    hide Store.Save, Clamp;
  }

  lemma ForgivingSpares(g: Game, id: nat, arg: string)
    requires id in g.players
    ensures Forgive(g, id, arg).players.Keys == g.players.Keys
    ensures forall x :: x in g.players ==> Forgive(g, id, arg).players[x].c.hp == g.players[x].c.hp
  {
    hide CanForgive, Forgive, Store.Save, Has;
    ForgiveIff(g, id, arg, 0);
    if x :| CanForgive(g, id, arg, x) {
      ForgiveIff(g, id, arg, x);
      CanForgiveFacts(g, id, arg, x);
    } else {
      assert Forgive(g, id, arg) == g;
    }
  }

  lemma GivingSpares(g: Game, id: nat, item: string, who: string)
    requires id in g.players && Store.Fits(g.players[id].c)
    ensures Hand(g, id, item, who).players.Keys == g.players.Keys
    ensures forall x :: x in g.players ==> Hand(g, id, item, who).players[x].c.hp == g.players[x].c.hp
  {
    hide CanGive, Hand, Store.Save, Store.Fits, WithoutFirst;
    HandIff(g, id, item, who, "", 0);
    if thing, x :| CanGive(g, id, item, who, thing, x) {
      HandIff(g, id, item, who, thing, x);
      CanGiveFacts(g, id, item, who, thing, x);
      var a, b := g.players[id], g.players[x];
      PacksSpareHp(g.players, id, a.(c := a.c.(inventory := WithoutFirst(a.c.inventory, thing))), x,
                   b.(c := b.c.(inventory := b.c.inventory + [thing])));
    } else {
      assert Hand(g, id, item, who) == g;
    }
  }

  lemma PacksSpareHp(players: map<nat, Player>, id: nat, p: Player, x: nat, q: Player)
    requires id in players && x in players && p.c.hp == players[id].c.hp && q.c.hp == players[x].c.hp
    ensures players[id := p][x := q].Keys == players.Keys
    ensures forall y :: y in players ==> players[id := p][x := q][y].c.hp == players[y].c.hp
  {
  }

  /** No one is wounded but by a heartbeat of one's own. */
  lemma OnlyHeartbeatsWound(g: Game, e: Event, id: nat)
    requires Inv(g) && Possible(e) && Acts(g, id) && id in Step(g, e).players && !OwnTick(e, id)
    ensures Step(g, e).players[id].c.hp >= g.players[id].c.hp
  {
    hide Inv, Play, Ticked, Named, Picked, Respawned, Nearby, Hale, Store.Fits, IsRoom, Closed, Possible;
    LivesNow(g, id);
    if e.Do? && Acts(g, e.id) && Reaching(e.cmd) {
      SpawnMoves(g, e.now);
      LivesNow(g, e.id);
      if e.cmd.Give? {
        GivingSpares(Respawned(g, e.now), e.id, e.cmd.item, e.cmd.who);
      } else {
        ForgivingSpares(Respawned(g, e.now), e.id, e.cmd.arg);
      }
      PlaysReaching(Respawned(g, e.now), e.id, e.cmd, e.now);
    } else if e.Do? && e.id == id {
      SpawnMoves(g, e.now);
      OwnCommandsMend(Respawned(g, e.now), id, e.cmd, e.now);
    } else if !Its(e, id) {
      NobodyElseIsReached(g, e, id);
    }
  }

  predicate Reaching(cmd: Command) {
    cmd.Give? || cmd.ForgiveName?
  }

  lemma PlaysReaching(g: Game, id: nat, cmd: Command, now: int)
    requires id in g.players && Reaching(cmd)
    ensures Play(g, id, cmd, now) == if cmd.Give? then Hand(g, id, cmd.item, cmd.who) else Forgive(g, id, cmd.arg)
  {
    hide Hand, Forgive;
  }

  // ------------------------------------------------------------ whole fights

  /** Nothing mends the fighter along the run. */
  ghost predicate Unrelieved(states: seq<Game>, es: seq<Event>, id: nat) {
    && |states| == |es| + 1
    && forall i {:trigger es[i]} :: 0 <= i < |es| && !OwnTick(es[i], id) && id in states[i].players && id in states[i + 1].players ==>
         states[i + 1].players[id].c.hp <= states[i].players[id].c.hp
  }

  lemma UnrelievedBefore(states: seq<Game>, es: seq<Event>, id: nat)
    requires Unrelieved(states, es, id) && es != []
    ensures Unrelieved(Init(states), Init(es), id)
    ensures !OwnTick(Last(es), id) && id in Last(Init(states)).players && id in Last(states).players ==>
              Last(states).players[id].c.hp <= Last(Init(states)).players[id].c.hp
  {
    assert forall i {:trigger Init(es)[i]} :: 0 <= i < |es| - 1 ==> Init(es)[i] == es[i];
    assert Last(es) == es[|es| - 1];
  }

  /** One step of a fight that goes on costs the creature's damage at a heartbeat, and
   *  otherwise nothing. */
  lemma FightStepCosts(g: Game, e: Event, h: Game, id: nat, m: nat)
    requires Inv(g) && Leads(g, e, h) && Hunts(g, id, m) && InFight(h, id)
    requires !OwnTick(e, id) && id in h.players ==> h.players[id].c.hp <= g.players[id].c.hp
    ensures id in h.players && id in g.players && m < |g.mobs| && m < |h.mobs| && h.mobs[m].damage == g.mobs[m].damage
    ensures h.players[id].c.hp == g.players[id].c.hp - if OwnTick(e, id) then g.mobs[m].damage else 0
    ensures Hunts(h, id, m)
  {
    hide Inv, Step, Possible, Hunts, Wears, Beaten, SameKind;
    HuntsFacts(g, id, m);
    HuntGoesOn(g, e, id, m);
    HuntsFacts(h, id, m);
    StepWears(g, e, m);
    SameDamage(g, h, m);
    if OwnTick(e, id) {
      TickIsPossible(e);
      HeartbeatBeats(g, id, m, e.now);
      BeatenOn(g, id, m, e.now, h);
    } else {
      OnlyHeartbeatsWound(g, e, id);
    }
  }

  lemma SameDamage(g: Game, h: Game, m: nat)
    requires Wears(g, h, m) && m < |g.mobs|
    ensures |h.mobs| == |g.mobs| && h.mobs[m].damage == g.mobs[m].damage
  {
  }

  lemma BeatenOn(g: Game, id: nat, m: nat, now: int, h: Game)
    requires id in g.players && id in h.players && m < |g.mobs| == |h.mobs| && Beaten(g, id, m, now, h)
    requires h.players[id].target != ""
    ensures h.players[id].c.hp == g.players[id].c.hp - g.mobs[m].damage
  {
    hide Store.Save, Damage;
  }

  lemma {:induction false} FightCosts(states: seq<Game>, es: seq<Event>, id: nat, m: nat)
    requires Runs(states, es) && Inv(states[0]) && Hunts(states[0], id, m) && FightsOn(states, id)
            && Unrelieved(states, es, id)
    ensures states != [] && Hunts(Last(states), id, m) && id in states[0].players && id in Last(states).players
    ensures m < |states[0].mobs| && m < |Last(states).mobs| && Last(states).mobs[m].damage == states[0].mobs[m].damage
    ensures Last(states).players[id].c.hp == states[0].players[id].c.hp - states[0].mobs[m].damage * OwnTicks(es, id)
    decreases |es|
  {
    hide Inv, Leads, Hunts, Runs, InFight, FightsOn, Unrelieved;
    SomeState(states, es);
    HuntsFacts(states[0], id, m);
    if es == [] {
      NoStep(states, es);
    } else {
      LastStep(states, es);
      FoughtOn(states, id);
      UnrelievedBefore(states, es, id);
      RunKeeps(Init(states), Init(es));
      FightCosts(Init(states), Init(es), id, m);
      FightStepCosts(Last(Init(states)), Last(es), Last(states), id, m);
      Distribute(states[0].mobs[m].damage, OwnTicks(Init(es), id));
    }
  }

  lemma Distribute(d: int, n: int)
    ensures d * (n + 1) == d * n + d
  {
  }

  /** How long an unrelieved fighter lasts. As long as the creature stands, at the
   *  heartbeat by which its blows add up to the fighter's hit points, and not before, the
   *  fighter falls: whole again in the nexus, no target, and at the head of the roll. */
  lemma FightersFallOnTime(states: seq<Game>, es: seq<Event>, id: nat, m: nat)
    requires Runs(states, es) && Inv(states[0]) && Hunts(states[0], id, m) && es != [] && OwnTick(Last(es), id)
    requires FightsOn(Init(states), id) && Unrelieved(Init(states), Init(es), id)
    requires m < |Last(states).mobs| && Last(states).mobs[m].alive
    ensures |states| > 1 && id in states[0].players && id in Last(states).players && m < |states[0].mobs|
    ensures var p, q := states[0].players[id], Last(states).players[id];
            var cost := states[0].mobs[m].damage * OwnTicks(es, id);
            if p.c.hp > cost then q.c.hp == p.c.hp - cost && InFight(Last(states), id)
            else
              && q.c.hp == q.c.maxHp && q.c.room == "nexus" && q.target == "" && q.c.position == "standing"
              && Last(states).fallen != [] && Last(states).fallen[0] == q.c.name
  {
    hide Inv, Leads, Hunts, Runs, FightsOn, Unrelieved, Beaten, Possible, Step;
    LastStep(states, es);
    SomeState(Init(states), Init(es));
    FightCosts(Init(states), Init(es), id, m);
    RunKeeps(Init(states), Init(es));
    Distribute(states[0].mobs[m].damage, OwnTicks(Init(es), id));
    var g, h := Last(Init(states)), Last(states);
    HuntsFacts(g, id, m);
    LedByTick(g, Last(es), h);
    HeartbeatBeats(g, id, m, Last(es).now);
    BeatenStanding(g, id, m, Last(es).now, h);
  }

  lemma LedByTick(g: Game, e: Event, h: Game)
    requires Leads(g, e, h) && e.Tick?
    ensures h == Step(g, e) && e.now > 0 && e == Tick(e.id, e.now)
  {
    hide Step;
  }

  lemma BeatenStanding(g: Game, id: nat, m: nat, now: int, h: Game)
    requires id in g.players && id in h.players && m < |g.mobs| == |h.mobs| && Beaten(g, id, m, now, h)
    requires h.mobs[m].alive && g.players[id].playing && g.players[id].target != ""
    ensures Wounded(g.players[id], h.players[id], g.mobs[m].damage)
    ensures h.fallen == if g.players[id].c.hp > g.mobs[m].damage then g.fallen else Headed(g.fallen, g.players[id].c.name)
  {
    hide Store.Save, Damage, Wounded, Headed;
  }
}
