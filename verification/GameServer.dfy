/** The server's own objects: sessions, the mob and cache tables, the store, updated
 *  in place by the handlers and seen through View as the value the laws speak of. */
module GameServer {
  import opened Caches
  import opened Characters
  import opened Commands
  import opened Game
  import opened Sequences
  import opened Text
  import opened World
  import Buffers
  import Store

  /** The playing half of hg_session. */
  class Hero {
    const id: nat   // which connection it belongs to
    var playing: bool
    var c: Character
    var target: string
    var resolved: bool
    var traitReadyAt: int
    var treatReadyAt: int
    ghost var baseXp: int

    ghost function P(): Player
      reads this
    {
      Player(playing, c, target, resolved, traitReadyAt, treatReadyAt, baseXp)
    }

    constructor (id: nat, c: Character, playing: bool)
      ensures this.id == id && P() == Player(playing, c, "", false, 0, 0, c.xp)
    {
      this.id := id;
      this.playing, this.c, target, resolved, traitReadyAt, treatReadyAt := playing, c, "", false, 0, 0;
      baseXp := c.xp;
    }

    method ShiftMorality(delta: int)
      modifies this`c
      ensures c == Shifted(old(c), delta)
    {
      c := c.(morality := c.morality + delta);
      if c.morality > MORALITY_CEIL {
        c := c.(morality := MORALITY_CEIL);
      }
      if c.morality < MORALITY_FLOOR {
        c := c.(morality := MORALITY_FLOOR);
      }
    }
  }

  lemma SaveTwice(rows: map<string, Store.Row>, a: Character, b: Character)
    requires a.name == b.name
    ensures Store.Save(Store.Save(rows, a), b) == Store.Save(rows, b)
  {
    hide Store.ToDoc;
  }

  /** The moral arc adds to a turn what it would add to none. */
  lemma ArcAdds(t: Turn)
    ensures var u := MoralArc(Stay(t.p));
            && MoralArc(t).p == u.p && MoralArc(t).saved == (t.saved || u.saved)
            && MoralArc(t).tide == t.tide && MoralArc(t).returned == (t.returned || u.returned)
            && u.tide == 0 && u.p.c.name == t.p.c.name && (!u.saved ==> u.p == t.p)
  {
  }

  class Server {
    const federated: bool
    const world: WorldState
    const caches: CacheTable
    const store: Store.CharacterStore
    var drafts: map<nat, string>
    var sessions: map<nat, Hero>
    var order: seq<nat>
    var nextId: nat
    var tide: int
    var forgiven: seq<Pair>
    var kept: seq<Pair>
    var fallen: seq<string>
    var wardenSlainAt: int
    var cellsAt: int
    var transitAt: int
    ghost var kills: seq<Kill>
    ghost var revived: seq<nat>
    ghost var pardons: seq<Character>
    ghost var deltas: seq<int>
    ghost var cellsFreed: seq<int>
    ghost var hubFreed: seq<int>

    ghost predicate Valid()
      reads this, world, caches
    {
      && world.Valid() && caches.Valid() && |revived| == world.mobCount
      && (forall id :: id in order ==> id in sessions)
      && (forall id :: id in sessions ==> sessions[id].id == id)
    }

    ghost function Players(): map<nat, Player>
      reads this, sessions.Values
    {
      map id | id in sessions :: sessions[id].P()
    }

    ghost function View(): Game
      reads this, sessions.Values, world, world.mobs, caches, caches.slots, store
      requires Valid()
    {
      Game(federated, drafts, Players(), order, nextId, world.Live(), caches.Table(), store.rows, tide,
           forgiven, kept, fallen, wardenSlainAt, cellsAt, transitAt, kills, revived, pardons, deltas,
           cellsFreed, hubFreed)
    }

    constructor (federated: bool, store: Store.CharacterStore)
      ensures Valid() && View() == Start(federated, store.rows)
    {
      this.federated, this.store := federated, store;
      world := new WorldState();
      caches := new CacheTable();
      drafts, sessions, order, nextId := map[], map[], [], 0;
      tide, forgiven, kept, fallen := 0, [], [], [];
      wardenSlainAt, cellsAt, transitAt := 0, 0, 0;
      kills, revived, pardons, deltas := [], seq(|Seed()|, _ => 0), [], [];
      cellsFreed, hubFreed := [], [];
    }

    /** The turn t was written to session, store and tide, and nothing else of them. */
    twostate predicate Settled(s: Hero, t: Turn)
      reads this, s, store
    {
      && s.P() == t.p
      && store.rows == (if t.saved then Store.Save(old(store.rows), t.p.c) else old(store.rows))
      && tide == (if t.tide != 0 then Clamp(old(tide) + t.tide, TIDE_FLOOR, TIDE_CEIL) else old(tide))
      && deltas == (if t.tide != 0 then old(deltas) + [t.tide] else old(deltas))
      && pardons == (if t.returned then old(pardons) + [t.p.c] else old(pardons))
    }

    /** contribute_tide without a hub. */
    method ContributeTide(delta: int)
      requires delta != 0
      modifies this`tide, this`deltas
      ensures tide == Clamp(old(tide) + delta, TIDE_FLOOR, TIDE_CEIL) && deltas == old(deltas) + [delta]
    {
      tide := tide + delta;
      if tide > TIDE_CEIL {
        tide := TIDE_CEIL;
      }
      if tide < TIDE_FLOOR {
        tide := TIDE_FLOOR;
      }
      deltas := deltas + [delta];
    }

    method ResolveReturn(s: Hero)
      modifies s`c, store, this`pardons
      ensures Settled(s, Commands.ResolveReturn(Stay(old(s.P()))))
    {
      s.c := s.c.(redeemed := true);
      if s.c.title == "" {
        s.c := s.c.(title := "the Returned");
      }
      var ok := store.SaveCharacter(s.c);
      pardons := pardons + [s.c];
    }

    method MoralArc(s: Hero)
      modifies s`c, store, this`pardons
      ensures Settled(s, Commands.MoralArc(Stay(old(s.P()))))
    {
      if !s.c.strayed && s.c.morality <= STRAY_FLOOR {
        s.c := s.c.(strayed := true);
        var ok := store.SaveCharacter(s.c);
        return;
      }
      if s.c.strayed && !s.c.redeemed && s.c.morality >= REDEEM_CEIL && s.c.faction != "front" {
        s.c := s.c.(redeemed := true);
        if s.c.ashsworn {
          var ok := store.SaveCharacter(s.c);
          return;
        }
        ResolveReturn(s);
      }
    }

    /** What the oath handlers end with: the tide, the store, the moral arc. */
    method Conclude(s: Hero, delta: int)
      requires delta != 0
      modifies s`c, store, this`pardons, this`tide, this`deltas
      ensures Settled(s, Commands.MoralArc(Turn(old(s.P()), true, delta, false)))
    {
      hide Commands.MoralArc, Store.Save, Clamp;
      ghost var c := s.c;
      ArcAdds(Turn(s.P(), true, delta, false));
      ContributeTide(delta);
      var ok := store.SaveCharacter(s.c);
      MoralArc(s);
      SaveTwice(old(store.rows), c, s.c);
    }

    /** The oath itself, where the recruiters and the Ashmonger take it. */
    method Swear(s: Hero, cost: int)
      modifies s`c
      ensures s.c == Sworn(old(s.c), cost)
    {
      s.c := s.c.(faction := "front");
      if RaceIsHunted(s.c.race) {
        s.c := s.c.(ashsworn := true);
        s.ShiftMorality(-40);
      } else {
        s.ShiftMorality(-cost);
      }
    }

    method DaisPledge(s: Hero)
      modifies s`c, store, this`pardons, this`tide, this`deltas
      ensures Settled(s, Pledge(old(s.P())))
    {
      hide Commands.MoralArc, Store.Save, Clamp, Sworn;
      if s.c.faction != "none" {
        return;
      }
      Swear(s, 25);
      Conclude(s, -10);
    }

    method DaisDefect(s: Hero)
      modifies s`c, store, this`pardons, this`tide, this`deltas
      ensures Settled(s, Defect(old(s.P())))
    {
      hide Store.Save, Clamp;
      if s.c.room != "dais" || s.c.faction != "front" {
        return;
      }
      s.c := s.c.(faction := "ally");
      s.ShiftMorality(30);
      ContributeTide(10);
      var ok := store.SaveCharacter(s.c);
      ghost var c := s.c;
      ArcAdds(Turn(s.P(), true, 10, false));
      if s.c.strayed && !s.c.redeemed && !s.c.ashsworn && s.c.morality >= REDEEM_CEIL {
        ResolveReturn(s);
      } else {
        MoralArc(s);
      }
      SaveTwice(old(store.rows), c, s.c);
    }

    method CmdJoin(s: Hero)
      modifies s`c, s`resolved, store, this`pardons, this`tide, this`deltas
      ensures Settled(s, Join(old(s.P())))
    {
      hide Commands.MoralArc, Store.Save, Clamp, Sworn, Pledge;
      if s.c.room == "dais" {
        DaisPledge(s);
        return;
      }
      if s.c.room != "market" && s.c.room != "checkpoint" {
        return;
      }
      if s.resolved {
        return;
      }
      Swear(s, 15);
      s.resolved := true;
      Conclude(s, -10);
    }

    method CmdDefend(s: Hero)
      modifies s`c, s`resolved, store, this`pardons, this`tide, this`deltas
      ensures Settled(s, Defend(old(s.P())))
    {
      hide Commands.MoralArc, Store.Save, Clamp;
      if s.c.room != "market" && s.c.room != "checkpoint" {
        return;
      }
      if s.resolved {
        return;
      }
      s.c := s.c.(faction := "ally");
      s.ShiftMorality(10);
      s.resolved := true;
      if "charm" !in s.c.inventory {
        s.c := Commands.AddItem(s.c, "charm");
      }
      Conclude(s, 10);
    }

    // ---------------------------------------------------- whole handlers

    /** One session changed: in the view, one entry of the session table. */
    twostate lemma OneHero(id: nat)
      requires id in sessions && sessions == old(sessions)
      requires forall a :: a in sessions && a != id ==> unchanged(sessions[a])
      ensures Players() == old(Players())[id := sessions[id].P()]
    {
    }

    /** session_find. */
    method FindSession(name: string) returns (r: Option<nat>)
      requires Valid()
      ensures r == FindPlayer(View(), name)
    {
      ghost var players := Players();
      for i := 0 to |order|
        invariant forall j :: 0 <= j < i ==> !IsCalled(players, name)(order[j])
      {
        var s := sessions[order[i]];
        if s.playing && SameName(s.c.name, name) {
          IsIndexOf(IsCalled(players, name), order, i);
          return Some(order[i]);
        }
      }
      NoneIs(IsCalled(players, name), order);
      return None;
    }

    /** cmd_cache on the session. */
    method CacheGold(s: Hero, amount: int)
      requires caches.Valid()
      modifies s`c, caches`count, caches.slots, store
      ensures caches.Valid()
      ensures var p := old(s.P());
              if amount < 1 || p.c.gold < amount then
                s.P() == p && caches.Table() == old(caches.Table()) && store.rows == old(store.rows)
              else
                var c := Shifted(p.c.(gold := p.c.gold - amount), 2);
                && s.P() == p.(c := c) && store.rows == Store.Save(old(store.rows), c)
                && caches.Table() == AddCache(old(caches.Table()), p.c.room, amount)
    {
      hide AddCache, Store.Save, Shifted;
      if amount < 1 || s.c.gold < amount {
        return;
      }
      s.c := s.c.(gold := s.c.gold - amount);
      caches.Add(s.c.room, amount);
      s.ShiftMorality(2);
      var ok := store.SaveCharacter(s.c);
    }

    method CmdCache(id: nat, amount: int)
      requires Valid() && id in sessions
      modifies sessions[id], caches`count, caches.slots, store
      ensures Valid() && View() == Leave(old(View()), id, amount)
    {
      hide Leave, AddCache, Store.Save, Shifted, CacheTable.Table;
      LeaveIs(View(), id, amount);
      CacheGold(sessions[id], amount);
      OneHero(id);
    }

    /** cmd_gather on the session. */
    method GatherGold(s: Hero)
      requires caches.Valid()
      modifies s`c, caches.slots, store
      ensures caches.Valid()
      ensures var p := old(s.P());
              var here := TakeCache(old(caches.Table()), p.c.room);
              var c := p.c.(gold := p.c.gold + here.0);
              && caches.Table() == here.1
              && s.P() == (if here.0 <= 0 then p else p.(c := c))
              && store.rows == (if here.0 <= 0 then old(store.rows) else Store.Save(old(store.rows), c))
    {
      hide TakeCache, Store.Save;
      var here := caches.Take(s.c.room);
      if here <= 0 {
        return;
      }
      s.c := s.c.(gold := s.c.gold + here);
      var ok := store.SaveCharacter(s.c);
    }

    method CmdGather(id: nat)
      requires Valid() && id in sessions
      modifies sessions[id], caches.slots, store
      ensures Valid() && View() == Gather(old(View()), id)
    {
      hide Gather, TakeCache, Store.Save, CacheTable.Table;
      GatherIs(View(), id);
      GatherGold(sessions[id]);
      OneHero(id);
    }

    method PlayJoin(id: nat)
      requires Valid() && id in sessions
      modifies sessions[id], store, this`pardons, this`tide, this`deltas
      ensures Valid() && View() == Settle(old(View()), id, Join(old(View()).players[id]))
    {
      hide Join, Settle, Players, Store.Save, Clamp, CacheTable.Table, WorldState.Live;
      ghost var g := View();
      PlayersAt(id);
      CmdJoin(sessions[id]);
      OneHero(id);
      SettledIs(g, View(), id, Join(g.players[id]));
    }

    method PlayDefend(id: nat)
      requires Valid() && id in sessions
      modifies sessions[id], store, this`pardons, this`tide, this`deltas
      ensures Valid() && View() == Settle(old(View()), id, Defend(old(View()).players[id]))
    {
      hide Defend, Settle, Players, Store.Save, Clamp, CacheTable.Table, WorldState.Live;
      ghost var g := View();
      PlayersAt(id);
      CmdDefend(sessions[id]);
      OneHero(id);
      SettledIs(g, View(), id, Defend(g.players[id]));
    }

    method PlayDefy(id: nat)
      requires Valid() && id in sessions
      modifies sessions[id], store, this`pardons, this`tide, this`deltas
      ensures Valid() && View() == Settle(old(View()), id, Defect(old(View()).players[id]))
    {
      hide Defect, Settle, Players, Store.Save, Clamp, CacheTable.Table, WorldState.Live;
      ghost var g := View();
      PlayersAt(id);
      DaisDefect(sessions[id]);
      OneHero(id);
      SettledIs(g, View(), id, Defect(g.players[id]));
    }

    // ----------------------------------------------------------- forgiving

    /** has_forgiven. */
    method HasForgiven(who: string, whom: string) returns (has: bool)
      ensures has == Has(forgiven, who, whom)
    {
      for i := 0 to |forgiven|
        invariant forall j :: 0 <= j < i ==> !PairIs(who, whom)(forgiven[j])
      {
        if SameName(forgiven[i].who, who) && SameName(forgiven[i].whom, whom) {
          IsIndexOf(PairIs(who, whom), forgiven, i);
          return true;
        }
      }
      NoneIs(PairIs(who, whom), forgiven);
      return false;
    }

    method MarkForgiven(who: string, whom: string)
      modifies this`forgiven
      ensures forgiven == Mark(old(forgiven), who, whom, MAX_FORGIVEN)
    {
      var has := HasForgiven(who, whom);
      if has {
        return;
      }
      if |forgiven| >= MAX_FORGIVEN {
        return;
      }
      forgiven := forgiven + [Pair(who, whom)];
    }

    /** What forgiving does to the table, the one forgiven and the one forgiving. */
    method Absolve(s: Hero, target: Hero)
      requires s != target
      modifies s`c, target`c, store, this`pardons, this`forgiven
      ensures forgiven == Mark(old(forgiven), old(s.c.name), old(target.c.name), MAX_FORGIVEN)
      ensures var t, u := Forgiven(old(target.P())), Witness(old(s.P()));
              && target.P() == t.p && s.P() == u.p
              && store.rows == Store.Save(Store.Save(old(store.rows), t.p.c), u.p.c)
              && pardons == if t.returned then old(pardons) + [t.p.c] else old(pardons)
    {
      hide Store.Save, Clamp, Mark;
      MarkForgiven(s.c.name, target.c.name);
      target.c := target.c.(morality := target.c.morality + 5);
      if target.c.morality > MORALITY_CEIL {
        target.c := target.c.(morality := MORALITY_CEIL);
      }
      s.ShiftMorality(2);
      ghost var rows := store.rows;
      if !target.c.ashsworn && target.c.strayed && !target.c.redeemed && target.c.faction != "front" {
        ResolveReturn(target);
        SaveTwice(rows, target.c, target.c);
      }
      var ok := store.SaveCharacter(target.c);
      ok := store.SaveCharacter(s.c);
    }

    /** The same, seen in the session table. */
    method AbsolveBoth(id: nat, other: nat)
      requires id in sessions && other in sessions && sessions[id] != sessions[other]
      requires forall a, b :: a in sessions && b in sessions && sessions[a] == sessions[b] ==> a == b
      modifies sessions[id], sessions[other], store, this`pardons, this`forgiven
      ensures var p, q := old(sessions[id].P()), old(sessions[other].P());
              var t, u := Forgiven(q), Witness(p);
              && Players() == old(Players())[other := t.p][id := u.p]
              && forgiven == Mark(old(forgiven), p.c.name, q.c.name, MAX_FORGIVEN)
              && store.rows == Store.Save(Store.Save(old(store.rows), t.p.c), u.p.c)
              && pardons == if t.returned then old(pardons) + [t.p.c] else old(pardons)
    {
      hide Store.Save, Forgiven, Witness, Mark;
      ghost var players := Players();
      Absolve(sessions[id], sessions[other]);
      TwoChanged(players, Players(), id, other);
    }

    method AbsolveAt(id: nat, other: nat)
      requires Valid() && id in sessions && other in sessions && id != other
      modifies sessions[id], sessions[other], store, this`pardons, this`forgiven
      ensures Valid() && View() == Absolved(old(View()), id, other)
    {
      hide Absolved, Players, Store.Save, CacheTable.Table, WorldState.Live, Forgiven, Witness, Mark;
      ghost var g := View();
      PlayersAt(id);
      PlayersAt(other);
      AbsolveBoth(id, other);
      AbsolvedIs(g, View(), id, other);
    }

    lemma PlayersAt(id: nat)
      requires id in sessions
      ensures id in Players() && Players()[id] == sessions[id].P()
    {
    }

    /** Whom the command finds to forgive, if anybody. */
    method FindSubject(id: nat, arg: string) returns (r: Option<nat>)
      requires Valid() && id in sessions
      ensures r == Subject(View(), id, arg)
    {
      hide Clip, FirstWord, Has, FindPlayer, Marked;
      if arg == "" {
        return None;
      }
      r := FindSession(FirstWord(Clip(arg, 33)));
      if r.None? {
        return;
      }
      var s, target := sessions[id], sessions[r.value];
      if target.c.room != s.c.room || SameName(target.c.name, s.c.name) {
        return None;
      }
      var has := HasForgiven(s.c.name, target.c.name);
      if has || !Marked(target.c) {
        return None;
      }
    }

    method CmdForgive(id: nat, arg: string)
      requires Valid() && id in sessions
      modifies sessions.Values, store, this`pardons, this`forgiven
      ensures Valid() && View() == Forgive(old(View()), id, arg)
    {
      hide Forgive, Store.Save, Subject, Absolved, CacheTable.Table, WorldState.Live;
      AbsolvedForgives(View(), id, arg);
      var r := FindSubject(id, arg);
      if r.Some? {
        AbsolveAt(id, r.value);
      }
    }

    // -------------------------------------------------------------- combat

    /** combat_round on the session. */
    method ExchangeBlows(id: nat, s: Hero, now: int)
      requires world.Valid()
      modifies s, store, world.mobs, this`fallen, this`wardenSlainAt, this`kills
      ensures world.Valid()
      ensures var p, mobs := old(s.P()), old(world.Live());
              var m := MobInRoom(mobs, p.c.room, p.target);
              if m >= |mobs| then
                && s.P() == p.(target := "") && world.Live() == mobs && store.rows == old(store.rows)
                && fallen == old(fallen) && wardenSlainAt == old(wardenSlainAt) && kills == old(kills)
              else
                var b := Fight(p, mobs[m], now);
                && s.P() == b.p && world.Live() == mobs[m := b.mob]
                && store.rows == (if b.killed then Store.Save(old(store.rows), b.p.c) else old(store.rows))
                && fallen == (if b.died then Buffers.Enroll(old(fallen), p.c.name, MAX_FALLEN) else old(fallen))
                && wardenSlainAt == (if b.killed && b.mob.id == "warden" then now else old(wardenSlainAt))
                && kills == (if b.killed then old(kills) + [Kill(id, m, b.mob.xp, now)] else old(kills))
    {
      hide Store.Save, Buffers.Enroll, MobInRoom, Damage, Reknit;
      var m := world.FindMob(s.c.room, s.target);
      if m >= world.mobCount {
        s.target := "";
        return;
      }
      var mob := world.mobs[m];
      mob := mob.(hp := mob.hp - Damage(s.c));
      if mob.hp < 0 {
        mob := mob.(hp := 0);
      }
      if mob.hp > 0 {
        s.c := s.c.(hp := s.c.hp - mob.damage);
      }
      if mob.hp <= 0 {
        mob := mob.(alive := false, diedAt := now);
        world.mobs[m] := mob;
        Slay(id, s, m, mob, now);
        return;
      }
      world.mobs[m] := mob;
      if s.c.hp <= 0 {
        Fall(s);
      }
    }

    /** The rewards of a killing blow. */
    method Slay(id: nat, s: Hero, m: nat, mob: Mob, now: int)
      modifies s, store, this`wardenSlainAt, this`kills
      ensures var c := old(s.c).(xp := old(s.c).xp + mob.xp);
              s.P() == old(s.P()).(c := c, target := "") && store.rows == Store.Save(old(store.rows), c)
      ensures wardenSlainAt == if mob.id == "warden" then now else old(wardenSlainAt)
      ensures kills == old(kills) + [Kill(id, m, mob.xp, now)]
    {
      hide Store.Save;
      s.c := s.c.(xp := s.c.xp + mob.xp);
      if mob.id == "warden" {
        wardenSlainAt := now;
      }
      s.target := "";
      var ok := store.SaveCharacter(s.c);
      kills := kills + [Kill(id, m, mob.xp, now)];
    }

    /** The death of a player. */
    method Fall(s: Hero)
      modifies s, this`fallen
      ensures s.P() == Reknit(old(s.P())) && fallen == Buffers.Enroll(old(fallen), old(s.c.name), MAX_FALLEN)
    {
      fallen := Buffers.Enroll(fallen, s.c.name, MAX_FALLEN);
      s.c := s.c.(hp := s.c.maxHp, room := "nexus", position := "standing");
      s.target := "";
    }

    method HealInRest(s: Hero)
      modifies s`c
      ensures s.P() == Rested(old(s.P())).p
    {
      if s.c.position == "resting" && s.c.hp < s.c.maxHp {
        s.c := s.c.(hp := s.c.hp + 2);
        if s.c.hp > s.c.maxHp {
          s.c := s.c.(hp := s.c.maxHp);
        }
      }
    }

    /** hg_world_tick_respawns at the head of every heartbeat and command. */
    method TickWorld(now: int)
      requires Valid()
      modifies world.mobs, this`revived
      ensures Valid() && View() == Respawned(old(View()), now)
    {
      hide TickRespawns, Risen;
      ghost var was := world.Live();
      world.Tick(now);
      revived := Risen(was, revived, now);
    }

    method Fights(id: nat, now: int)
      requires Valid() && id in sessions
      modifies sessions[id], store, world.mobs, this`fallen, this`wardenSlainAt, this`kills
      ensures Valid() && View() == CombatRound(old(View()), id, now)
    {
      hide CombatRound, Players, Store.Save, Buffers.Enroll, MobInRoom, Fight, CacheTable.Table, WorldState.Live;
      ghost var g := View();
      PlayersAt(id);
      ExchangeBlows(id, sessions[id], now);
      OneHero(id);
      RoundIs(g, View(), id, now);
    }

    method Rests(id: nat)
      requires Valid() && id in sessions
      modifies sessions[id]
      ensures Valid() && View() == Settle(old(View()), id, Rested(old(View()).players[id]))
    {
      hide Rested, Store.Save, Clamp, CacheTable.Table, WorldState.Live;
      RestedIs(sessions[id].P());
      HealInRest(sessions[id]);
      OneHero(id);
    }

    /** on_tick: the heartbeat of a playing session. */
    method OnTick(id: nat, now: int)
      requires Valid() && id in sessions && sessions[id].playing
      modifies sessions[id], store, world.mobs, this`fallen, this`wardenSlainAt, this`kills, this`revived
      ensures Valid() && View() == Step(old(View()), Tick(id, now))
    {
      hide CombatRound, Settle, Rested, Respawned;
      SpawnKeepsSessions(View(), now);
      TickWorld(now);
      if sessions[id].target != "" {
        Fights(id, now);
      } else {
        Rests(id);
      }
    }
  }

  /** What forgiving changes, once there is somebody to forgive. */
  function Absolved(g: Game, id: nat, other: nat): Game
    requires id in g.players && other in g.players
  {
    var p, q := g.players[id], g.players[other];
    var t, u := Forgiven(q), Witness(p);
    g.(players := g.players[other := t.p][id := u.p],
       forgiven := Mark(g.forgiven, p.c.name, q.c.name, MAX_FORGIVEN),
       rows := Store.Save(Store.Save(g.rows, t.p.c), u.p.c),
       pardons := if t.returned then g.pardons + [t.p.c] else g.pardons)
  }

  lemma AbsolvedForgives(g: Game, id: nat, arg: string)
    requires id in g.players
    ensures Forgive(g, id, arg) == match Subject(g, id, arg) case None => g case Some(other) => Absolved(g, id, other)
  {
    hide Forgive, Subject, Forgiven, Witness, Mark, Store.Save;
    ForgiveIs(g, id, arg);
  }

  lemma AbsolvedIs(g: Game, h: Game, id: nat, other: nat)
    requires id in g.players && other in g.players
    requires h == g.(players := h.players, forgiven := h.forgiven, rows := h.rows, pardons := h.pardons)
    requires var t, u := Forgiven(g.players[other]), Witness(g.players[id]);
             && h.players == g.players[other := t.p][id := u.p]
             && h.forgiven == Mark(g.forgiven, g.players[id].c.name, g.players[other].c.name, MAX_FORGIVEN)
             && h.rows == Store.Save(Store.Save(g.rows, t.p.c), u.p.c)
             && h.pardons == if t.returned then g.pardons + [t.p.c] else g.pardons
    ensures h == Absolved(g, id, other)
  {
    hide Forgiven, Witness, Mark, Store.Save;
  }

  lemma SettledIs(g: Game, h: Game, id: nat, t: Turn)
    requires h == g.(players := h.players, rows := h.rows, tide := h.tide, deltas := h.deltas, pardons := h.pardons)
    requires h.players == g.players[id := t.p]
    requires h.rows == if t.saved then Store.Save(g.rows, t.p.c) else g.rows
    requires h.tide == if t.tide != 0 then Clamp(g.tide + t.tide, TIDE_FLOOR, TIDE_CEIL) else g.tide
    requires h.deltas == if t.tide != 0 then g.deltas + [t.tide] else g.deltas
    requires h.pardons == if t.returned then g.pardons + [t.p.c] else g.pardons
    ensures h == Settle(g, id, t)
  {
    hide Store.Save, Clamp;
  }

  lemma TwoChanged(was: map<nat, Player>, players: map<nat, Player>, a: nat, b: nat)
    requires players.Keys == was.Keys && a in was && b in was
    requires forall x :: x in was && x != a && x != b ==> players[x] == was[x]
    ensures players == was[b := players[b]][a := players[a]]
  {
  }

  lemma SpawnKeepsSessions(g: Game, now: int)
    ensures Respawned(g, now).players == g.players
  {
  }

  lemma RestedIs(p: Player)
    ensures var t := Rested(p); !t.saved && t.tide == 0 && !t.returned
  {
  }

  /** One exchange of blows, for the two it concerns. */
  datatype Bout = Bout(p: Player, mob: Mob, killed: bool, died: bool)

  function Fight(p: Player, mob: Mob, now: int): Bout {
    var hit := mob.(hp := Floor0(mob.hp - Damage(p.c)));
    if hit.hp <= 0 then
      Bout(p.(c := p.c.(xp := p.c.xp + mob.xp), target := ""), hit.(alive := false, diedAt := now), true, false)
    else
      var q := p.(c := p.c.(hp := p.c.hp - mob.damage));
      if q.c.hp <= 0 then Bout(Reknit(q), hit, false, true) else Bout(q, hit, false, false)
  }

  /** A bout between the player and the quarry, and nothing else, is a round of the game. */
  lemma RoundIs(g: Game, h: Game, id: nat, now: int)
    requires id in g.players && id in h.players && h.players == g.players[id := h.players[id]]
    requires h == g.(players := h.players, mobs := h.mobs, rows := h.rows, fallen := h.fallen,
                     wardenSlainAt := h.wardenSlainAt, kills := h.kills)
    requires var p := g.players[id];
             var m := MobInRoom(g.mobs, p.c.room, p.target);
             if m >= |g.mobs| then
               && h.players[id] == p.(target := "") && h.mobs == g.mobs && h.rows == g.rows
               && h.fallen == g.fallen && h.wardenSlainAt == g.wardenSlainAt && h.kills == g.kills
             else
               var b := Fight(p, g.mobs[m], now);
               && h.players[id] == b.p && h.mobs == g.mobs[m := b.mob]
               && h.rows == (if b.killed then Store.Save(g.rows, b.p.c) else g.rows)
               && h.fallen == (if b.died then Buffers.Enroll(g.fallen, p.c.name, MAX_FALLEN) else g.fallen)
               && h.wardenSlainAt == (if b.killed && b.mob.id == "warden" then now else g.wardenSlainAt)
               && h.kills == (if b.killed then g.kills + [Kill(id, m, b.mob.xp, now)] else g.kills)
    ensures h == CombatRound(g, id, now)
  {
    hide Store.Save, Buffers.Enroll, MobInRoom, Damage, Reknit;
  }
}
