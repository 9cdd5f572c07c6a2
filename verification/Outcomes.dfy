/** What every command is worth: who may give it where, what it costs and what it brings,
 *  and that it changes nothing else. */
module Outcomes {
  import opened Blows
  import opened Characters
  import opened Commands
  import opened Game
  import opened GameLaws
  import opened GameRuns
  import opened Oaths
  import opened Sequences
  import opened Text
  import opened World
  import Buffers
  import Caches
  import Commits
  import Fights
  import Goods
  import Items
  import Respawns
  import Store

  // --------------------------------------------------- one player's commands

  /** A turn and nothing else: the player, the store if the turn is saved, the tide if it
   *  is pushed, the announcement if there is one. */
  ghost predicate Wrought(g: Game, id: nat, t: Turn, h: Game)
    requires id in g.players
  {
    && (forall x :: x in h.players <==> x in g.players) && (forall x :: x in g.players && x != id ==> h.players[x] == g.players[x])
    && id in h.players && h.players[id] == t.p
    && h.rows == (if t.saved then Store.Save(g.rows, t.p.c) else g.rows)
    && (if t.tide == 0 then h.tide == g.tide && h.deltas == g.deltas
        else
          && h.deltas == g.deltas + [t.tide]
          && h.tide == if g.tide + t.tide > 100 then 100 else if g.tide + t.tide < -100 then -100 else g.tide + t.tide)
    && h.pardons == (if t.returned then g.pardons + [t.p.c] else g.pardons)
    && h == g.(mobs := h.mobs, revived := h.revived, players := h.players, rows := h.rows, tide := h.tide, deltas := h.deltas,
               pardons := h.pardons)
  }

  lemma SettlingIsWrought(g: Game, id: nat, t: Turn)
    requires id in g.players
    ensures Wrought(g, id, t, Settle(g, id, t))
  {
    hide Store.Save;
  }

  /** A command that is its player's own does to the game what it does to the player. */
  lemma OwnCommandsAreWrought(g: Game, id: nat, cmd: Command, now: int)
    requires Acts(g, id) && !Reaches(cmd)
    ensures Wrought(g, id, Own(g.players[id], g.tide, now, cmd), Step(g, Do(id, cmd, now)))
  {
    hide Wrought, Own, Settle, Respawned, Play;
    SpawnSparesPlayers(g, now);
    var r := Respawned(g, now);
    PlaysOwn(r, id, cmd, now);
    SettlingIsWrought(r, id, Own(g.players[id], g.tide, now, cmd));
    WroughtFrom(g, r, id, Own(g.players[id], g.tide, now, cmd), Settle(r, id, Own(g.players[id], g.tide, now, cmd)));
  }

  lemma WroughtFrom(g: Game, r: Game, id: nat, t: Turn, h: Game)
    requires r == g.(mobs := r.mobs, revived := r.revived) && id in g.players && Wrought(r, id, t, h)
    ensures Wrought(g, id, t, h)
  {
    hide Store.Save;
  }

  /** Nothing came of it. */
  predicate Refused(p: Player, t: Turn) {
    t.p == p && !t.saved && t.tide == 0 && !t.returned
  }

  /** Nothing but the player changed. */
  predicate Plain(t: Turn, saved: bool) {
    t.saved == saved && t.tide == 0 && !t.returned
  }

  lemma Moving(p: Player, tide: int, now: int, direction: string)
    ensures var t := Own(p, tide, now, Walk(direction));
            var there := Move(Find(p.c.room), direction);
            if there.Some? && p.target == "" then
              Plain(t, true) && t.p == p.(c := p.c.(room := there.value.id, position := "standing"))
            else Refused(p, t)
    ensures var t := Own(p, tide, now, GoHome);
            Plain(t, false) && t.p == p.(target := "", c := p.c.(room := "nexus", position := "standing"))
    ensures var t := Own(p, tide, now, Look);
            Plain(t, false) && t.p == if IsRoom(p.c.room) then p else p.(c := p.c.(room := "nexus"))
  {
    hide Move, Find;
  }

  lemma Posing(p: Player, tide: int, now: int)
    ensures var t := Own(p, tide, now, Rest);
            if p.target == "" then Plain(t, false) && t.p == p.(c := p.c.(position := "resting")) else Refused(p, t)
    ensures var t := Own(p, tide, now, Stand); Plain(t, false) && t.p == p.(c := p.c.(position := "standing"))
    ensures Refused(p, Own(p, tide, now, Other))
  {
  }

  lemma Naming(p: Player, tide: int, now: int, word: string)
    ensures var t := Own(p, tide, now, TakeTitle(word));
            Plain(t, true) && t.p == p.(c := p.c.(title := if |word| < 48 then word else word[..47]))
  {
  }

  /** Travel to a world that answers, out of a fight, saves; the player stays till the
   *  connection closes. */
  lemma Travelling(p: Player, tide: int, now: int, answers: bool)
    ensures var t := Own(p, tide, now, Travel(answers));
            if answers && p.target == "" then Plain(t, true) && t.p == p else Refused(p, t)
  {
  }

  /** Only what is carried and a weapon is wielded, and only what is wielded is put away. */
  lemma Arming(p: Player, tide: int, now: int, id: string)
    ensures var t := Own(p, tide, now, WieldItem(id));
            if id in p.c.inventory && (id == "shiv" || id == "rebar") then
              Plain(t, true) && t.p == p.(c := p.c.(weapon := id))
            else Refused(p, t)
    ensures var t := Own(p, tide, now, RemoveItem(id));
            if id != "" && p.c.weapon == id then Plain(t, true) && t.p == p.(c := p.c.(weapon := ""))
            else Refused(p, t)
  {
  }

  /** Theft pays twelve at the market and costs eight of morality, with what follows. */
  lemma Stealing(p: Player, tide: int, now: int)
    ensures var t := Own(p, tide, now, StealCoin);
            if p.c.room == "market" then
              && t.saved && t.tide == 0 && t.p == p.(c := t.p.c)
              && Arced(p.c.(gold := p.c.gold + 12, morality := Swayed(p.c.morality, -8)), t.p.c, t.returned)
            else Refused(p, t)
  {
    hide MoralArc, Arced;
    ArcIsArced(Saved(p, Shifted(p.c, -8).(gold := p.c.gold + 12)));
  }

  function Least(a: int, b: int): int {
    if a < b then a else b
  }

  /** The medic's bench: not for the Front's or the branded, nor in a fight, nor while the
   *  tide runs low, nor for the whole, nor twice in forty-five seconds. */
  lemma Treating(p: Player, tide: int, now: int)
    ensures var t := Own(p, tide, now, SeeMedic);
            if && p.c.room == "waystation" && p.target == "" && p.c.faction != "front" && !p.c.ashsworn && tide > -40
               && p.c.hp < p.c.maxHp && p.treatReadyAt <= now
            then
              && Plain(t, true)
              && t.p == p.(treatReadyAt := now + 45,
                           c := p.c.(hp := if tide >= 40 then p.c.maxHp else Least(p.c.hp + 12, p.c.maxHp)))
            else Refused(p, t)
  {
  }

  lemma HealIs(c: Character, amount: int)
    ensures Heal(c, amount) == c.(hp := Least(c.hp + amount, c.maxHp))
  {
  }

  /** The hit points a race's trait gives back. */
  function Mending(race: string): nat {
    if race == "ghoul" then 25 else if race == "revenant" then 15 else if race == "vatborn" then 12 else 0
  }

  lemma MendingIs(race: string)
    ensures TraitMends(race) == Mending(race)
  {
  }

  /** A race's trait: coin for humans, and for the dustkin in the open; mending for ghouls,
   *  revenants and the vat-born; nothing for the rest; each with its own wait. */
  lemma Racing(p: Player, tide: int, now: int, luck: nat)
    ensures var t := Own(p, tide, now, UseTrait(luck));
            var mends := Mending(p.c.race);
            var room := Find(p.c.room);
            if p.traitReadyAt > now then Refused(p, t)
            else if p.c.race == "human" then
              Plain(t, true) && t.p == p.(traitReadyAt := now + 180, c := p.c.(gold := p.c.gold + 15 + luck % 16))
            else if mends > 0 then
              Plain(t, false) && t.p == p.(traitReadyAt := now + 120, c := p.c.(hp := Least(p.c.hp + mends, p.c.maxHp)))
            else if p.c.race == "dustkin" && room.Some? && room.value.outdoors then
              Plain(t, true) && t.p == p.(traitReadyAt := now + 90, c := p.c.(gold := p.c.gold + 5 + luck % 11))
            else Refused(p, t)
  {
    hide Find, Heal, Mending, TraitMends;
    MendingIs(p.c.race);
    HealIs(p.c, Mending(p.c.race));
  }

  /** What the tinker sells, and for how much. */
  lemma {:induction false} OnTheShelf(stock: seq<(string, int)>, arg: string)
    ensures match Ware(stock, arg)
            case Some(w) => w in stock && arg != "" && (SameName(w.0, arg) || ContainsFolded(Items.Name(w.0), arg))
            case None => arg == "" || forall w :: w in stock ==> !SameName(w.0, arg) && !ContainsFolded(Items.Name(w.0), arg)
  {
    hide ContainsFolded, Items.Name;
    if stock != [] && arg != "" {
      OnTheShelf(stock[1..], arg);
      assert stock == [stock[0]] + stock[1..];
    }
  }

  /** Buying: dust at the tavern for ten, wares at the workshop for their price if there is
   *  a slot for them. */
  lemma Buying(p: Player, tide: int, now: int, arg: string)
    ensures var t := Own(p, tide, now, BuyItem(arg));
            var ware := Ware([("helm", 14), ("plating", 18), ("rebar", 20)], arg);
            if p.c.room == "tavern" && ContainsFolded(arg, "dust") && p.c.gold >= 10 then
              && Plain(t, true)
              && t.p == p.(c := p.c.(gold := p.c.gold - 10,
                                     inventory := if |p.c.inventory| < 8 then p.c.inventory + ["dust"] else p.c.inventory))
            else if p.c.room == "workshop" && ware.Some? && p.c.gold >= ware.value.1 && |p.c.inventory| < 8 then
              && Plain(t, true)
              && t.p == p.(c := p.c.(gold := p.c.gold - ware.value.1, inventory := p.c.inventory + [ware.value.0]))
            else Refused(p, t)
  {
    hide ContainsFolded, Ware;
    StockIs();
    var ware := Ware(Items.STOCK, arg);
    OnTheShelf(Items.STOCK, arg);
    WaresFit();
  }

  lemma StockIs()
    ensures Items.STOCK == [("helm", 14), ("plating", 18), ("rebar", 20)]
  {
  }

  lemma WaresFit()
    ensures forall w :: w in Items.STOCK ==> |w.0| < 16
  {
  }

  /** What a thing fetches at the market. */
  function Fetches(id: string, faction: string): int {
    var value := if id == "shiv" then 5 else if id == "rebar" then 10 else if id == "helm" then 6
                 else if id == "plating" then 3 else if id == "radcell" then 12 else if id == "dust" then 2 else 0;
    if faction == "ally" then value + value / 5 else value
  }

  lemma Selling(p: Player, tide: int, now: int, arg: string)
    ensures var t := Own(p, tide, now, SellItem(arg));
            var thing := FindInventory(p.c.inventory, arg, Items.Name);
            if p.c.room == "market" && p.c.faction != "front" && thing.Some? && Fetches(thing.value, "") > 0 then
              && Plain(t, true)
              && t.p == p.(c := p.c.(gold := p.c.gold + Fetches(thing.value, p.c.faction),
                                     inventory := WithoutFirst(p.c.inventory, thing.value)))
            else Refused(p, t)
  {
    hide FindInventory, WithoutFirst;
  }

  /** Dust mends all wounds for ten of morality, unchecked, and one of addiction. */
  lemma Dosing(p: Player, tide: int, now: int, arg: string)
    ensures var t := Own(p, tide, now, UseItem(arg));
            if FindInventory(p.c.inventory, arg, Items.Name) == Some("dust") then
              && Plain(t, true)
              && t.p == p.(c := p.c.(hp := p.c.maxHp, morality := p.c.morality - 10, addiction := p.c.addiction + 1,
                                     inventory := WithoutFirst(p.c.inventory, "dust")))
            else Refused(p, t)
  {
    hide FindInventory, WithoutFirst;
  }

  /** The dais: kneeling for those without a side, rising for the Front's. */
  lemma Kneeling(p: Player, tide: int, now: int)
    requires p.c.room == "dais"
    ensures var t := Own(p, tide, now, JoinFront);
            if p.c.faction == "none" then
              t.saved && t.tide == -10 && t.p == p.(c := t.p.c) && Arced(Bound(p.c, 25), t.p.c, t.returned)
            else Refused(p, t)
  {
    hide Sworn, MoralArc, Arced, Bound;
    SwornIsBound(p.c, 25);
    if p.c.faction == "none" {
      ArcIsArced(Turn(p.(c := Sworn(p.c, 25)), true, -10, false));
    }
  }

  lemma Rising(p: Player, tide: int, now: int)
    ensures var t := Own(p, tide, now, Defy);
            if p.c.room == "dais" && p.c.faction == "front" then
              && t.saved && t.tide == 10 && t.p == p.(c := t.p.c)
              && Arced(p.c.(faction := "ally", morality := Swayed(p.c.morality, 30)), t.p.c, t.returned)
            else Refused(p, t)
  {
    hide MoralArc, Defect, Arced, Shifted;
    if p.c.room == "dais" && p.c.faction == "front" {
      DefectIsAnArc(p);
      ShiftMoves(p.c.(faction := "ally"), 30);
      ArcIsArced(Turn(p.(c := Shifted(p.c.(faction := "ally"), 30)), true, 10, false));
    } else {
      DefectStays(p);
    }
  }

  lemma ShiftMoves(c: Character, delta: int)
    ensures Shifted(c, delta) == c.(morality := Swayed(c.morality, delta))
  {
  }

  // -------------------------------------------------- commands on the tables

  /** A creature of that name and room is alive. */
  predicate Stands(g: Game, room: string, name: string) {
    exists m :: 0 <= m < |g.mobs| && g.mobs[m].alive && g.mobs[m].room == room && SameName(g.mobs[m].id, name)
  }

  lemma StandsIff(g: Game, room: string, name: string)
    ensures Stands(g, room, name) <==> MobInRoom(g.mobs, room, name) < |g.mobs|
  {
  }

  /** A deed of rescue: points of morality, with what follows. */
  predicate Kind(p: Player, c: Character, points: int, q: Player, announced: bool) {
    q == p.(c := q.c) && Arced(c.(morality := Swayed(c.morality, points)), q.c, announced)
  }

  lemma RescueIsKind(p: Player)
    ensures Kind(p, p.c, 15, Rescue(p).p, Rescue(p).returned) && Rescue(p).saved && Rescue(p).tide == 0
    ensures "antidote" !in p.c.inventory ==>
              var c := p.c.(inventory := if |p.c.inventory| < 8 then p.c.inventory + ["antidote"] else p.c.inventory);
              Kind(p, c, 12, FreeFromPit(p).p, FreeFromPit(p).returned) && FreeFromPit(p).saved && FreeFromPit(p).tide == 0
  {
    hide MoralArc, Arced, Shifted;
    ShiftMoves(p.c, 15);
    ArcIsArced(Saved(p, Shifted(p.c, 15)));
    ShiftMoves(AddItem(p.c, "antidote"), 12);
    ArcIsArced(Saved(p, Shifted(AddItem(p.c, "antidote"), 12)));
  }

  /** A kind deed done, in the whole game; nothing else but the named tables changes. */
  ghost predicate Done(g: Game, id: nat, c: Character, points: int, h: Game)
    requires id in g.players && id in h.players
  {
    && h.players == g.players[id := h.players[id]]
    && Kind(g.players[id], c, points, h.players[id], |h.pardons| > |g.pardons|)
    && h.rows == Store.Save(g.rows, h.players[id].c)
    && h.pardons == (if |h.pardons| > |g.pardons| then g.pardons + [h.players[id].c] else g.pardons)
    && h.tide == g.tide && h.deltas == g.deltas
  }

  lemma SettlingIsDone(g: Game, id: nat, c: Character, points: int, t: Turn)
    requires id in g.players && Kind(g.players[id], c, points, t.p, t.returned) && t.saved && t.tide == 0
    ensures id in Settle(g, id, t).players && Done(g, id, c, points, Settle(g, id, t))
  {
    hide Kind, Store.Save;
  }

  lemma PlaysTable(g: Game, id: nat, amount: int, arg: string, now: int)
    requires id in g.players
    ensures Play(g, id, FreeCaptive, now) == Free(g, id, now) && Play(g, id, ShelterThem, now) == Shelter(g, id, now)
    ensures Play(g, id, CacheGold(amount), now) == Leave(g, id, amount) && Play(g, id, GatherGold, now) == Gather(g, id)
    ensures Play(g, id, WitnessName(arg), now) == Remember(g, id, arg)
  {
    hide Free, Shelter, Leave, Gather, Remember, Settle, Own, Forgive, Hand, Engage, Quarry;
  }

  /** The commands on the tables, as steps. */
  lemma TableCommandsAre(g: Game, id: nat, amount: int, arg: string, now: int)
    requires Acts(g, id)
    ensures Step(g, Do(id, FreeCaptive, now)) == Free(Respawned(g, now), id, now)
    ensures Step(g, Do(id, ShelterThem, now)) == Shelter(Respawned(g, now), id, now)
    ensures Step(g, Do(id, CacheGold(amount), now)) == Leave(Respawned(g, now), id, amount)
    ensures Step(g, Do(id, GatherGold, now)) == Gather(Respawned(g, now), id)
    ensures Step(g, Do(id, WitnessName(arg), now)) == Remember(Respawned(g, now), id, arg)
  {
    hide Free, Shelter, Leave, Gather, Remember, Respawned, Play;
    SpawnMoves(g, now);
    PlaysTable(Respawned(g, now), id, amount, arg, now);
  }

  /** The cells and the pit. The cells stand empty for four minutes; the pit's maiden asks
   *  for the warden out of the way, dead or slain in the last three minutes, and gives one
   *  vial to who has none. */
  lemma Freeing(g: Game, id: nat, now: int)
    requires id in g.players
    ensures var p := g.players[id];
            var h := Free(g, id, now);
            var cleared := !Stands(g, "holding_pit", "warden") || (g.wardenSlainAt != 0 && now - g.wardenSlainAt < 180);
            if p.c.room == "cells" && (g.cellsAt == 0 || now >= g.cellsAt) then
              && id in h.players && Done(g, id, p.c, 15, h)
              && h == g.(players := h.players, rows := h.rows, pardons := h.pardons, cellsAt := now + 240,
                         cellsFreed := g.cellsFreed + [now])
            else if p.c.room == "holding_pit" && cleared && "antidote" !in p.c.inventory then
              var c := p.c.(inventory := if |p.c.inventory| < 8 then p.c.inventory + ["antidote"] else p.c.inventory);
              id in h.players && Done(g, id, c, 12, h) && h == g.(players := h.players, rows := h.rows, pardons := h.pardons)
            else h == g
  {
    hide Rescue, FreeFromPit, Settle, Kind, Stands, Done;
    var p := g.players[id];
    RescueIsKind(p);
    StandsIff(g, "holding_pit", "warden");
    var c := p.c.(inventory := if |p.c.inventory| < 8 then p.c.inventory + ["antidote"] else p.c.inventory);
    var r := g.(cellsAt := now + CAGE_REFILL, cellsFreed := g.cellsFreed + [now]);
    SettlingIsDone(r, id, p.c, 15, Rescue(p));
    DoneFrom(g, r, id, p.c, 15, Settle(r, id, Rescue(p)));
    SettlesOnly(r, id, Rescue(p));
    if "antidote" in p.c.inventory {
      PitIsRefused(g, id);
    } else {
      SettlingIsDone(g, id, c, 12, FreeFromPit(p));
      SettlesOnly(g, id, FreeFromPit(p));
    }
  }

  lemma PitIsRefused(g: Game, id: nat)
    requires id in g.players && "antidote" in g.players[id].c.inventory
    ensures Settle(g, id, FreeFromPit(g.players[id])) == g
  {
    hide Store.Save;
    assert g.players[id := g.players[id]] == g.players;
  }

  lemma SettlesOnly(g: Game, id: nat, t: Turn)
    requires id in g.players && t.tide == 0
    ensures var h := Settle(g, id, t); h == g.(players := h.players, rows := h.rows, pardons := h.pardons)
  {
    hide Store.Save;
  }

  lemma DoneFrom(g: Game, r: Game, id: nat, c: Character, points: int, h: Game)
    requires r.players == g.players && r.rows == g.rows && r.pardons == g.pardons && r.tide == g.tide
            && r.deltas == g.deltas
    requires id in g.players && id in h.players && Done(r, id, c, points, h)
    ensures Done(g, id, c, points, h)
  {
    hide Kind, Store.Save;
  }

  lemma Sheltering(g: Game, id: nat, now: int)
    requires id in g.players
    ensures var p := g.players[id];
            var h := Shelter(g, id, now);
            if p.c.room == "transit_hub" && (g.transitAt == 0 || now >= g.transitAt) then
              && id in h.players && Done(g, id, p.c, 15, h)
              && h == g.(players := h.players, rows := h.rows, pardons := h.pardons, transitAt := now + 240,
                         hubFreed := g.hubFreed + [now])
            else h == g
  {
    hide Rescue, Settle, Kind, Done;
    var p := g.players[id];
    RescueIsKind(p);
    var r := g.(transitAt := now + CAGE_REFILL, hubFreed := g.hubFreed + [now]);
    SettlingIsDone(r, id, p.c, 15, Rescue(p));
    DoneFrom(g, r, id, p.c, 15, Settle(r, id, Rescue(p)));
    SettlesOnly(r, id, Rescue(p));
  }

  /** Leaving gold: what one has, a coin or more, for two of morality. */
  lemma Leaving(g: Game, id: nat, amount: int)
    requires id in g.players
    ensures var p := g.players[id];
            var h := Leave(g, id, amount);
            if 1 <= amount <= p.c.gold then
              var c := p.c.(gold := p.c.gold - amount, morality := Swayed(p.c.morality, 2));
              h == g.(players := g.players[id := p.(c := c)], rows := Store.Save(g.rows, c),
                      caches := Caches.AddCache(g.caches, p.c.room, amount))
            else h == g
  {
    hide Caches.AddCache, Store.Save, Shifted;
    ShiftMoves(g.players[id].c.(gold := g.players[id].c.gold - amount), 2);
    LeaveIs(g, id, amount);
  }

  /** A vigil: for somebody else on the roll of the fallen, once, for two of morality. */
  lemma KeepingVigil(g: Game, id: nat, arg: string)
    requires id in g.players
    ensures var p := g.players[id];
            var h := Remember(g, id, arg);
            (exists i :: 0 <= i < |g.fallen| && SameName(g.fallen[i], arg) && (forall k :: 0 <= k < i ==> !SameName(g.fallen[k], arg))
               && arg != "" && !SameName(arg, p.c.name) && !Has(g.kept, p.c.name, g.fallen[i])
               && h == g.(players := h.players, rows := h.rows, kept := Mark(g.kept, p.c.name, g.fallen[i], MAX_KEPT))
               && h.players == g.players[id := p.(c := p.c.(morality := Swayed(p.c.morality, 2)))]
               && h.rows == Store.Save(g.rows, p.c.(morality := Swayed(p.c.morality, 2))))
            || ((arg == "" || SameName(arg, p.c.name)
                 || forall i :: 0 <= i < |g.fallen| && SameName(g.fallen[i], arg) && (forall k :: 0 <= k < i ==> !SameName(g.fallen[k], arg))
                      ==> Has(g.kept, p.c.name, g.fallen[i]))
                && h == g)
  {
    hide Mark, Has, Store.Save, Shifted;
    var p := g.players[id];
    ShiftMoves(p.c, 2);
    var i := IndexOf(NameIs(arg), g.fallen);
    assert forall k :: 0 <= k < |g.fallen| ==> (NameIs(arg)(g.fallen[k]) <==> SameName(g.fallen[k], arg));
  }

  // ------------------------------------------------------- coming and going

  /** What the hub's record does to a character at login: the sheet's experience, morality
   *  and title; its level, race and faction where it has one; its gold unless it is blank;
   *  the brand of either. All else is the local record's. */
  lemma Merging(c: Character, s: Commits.Sheet)
    ensures var m := Merge(c, s);
            && m.xp == s.xp && m.morality == s.morality && m.title == (if |s.title| < 48 then s.title else s.title[..47])
            && m.level == (if s.level > 0 then s.level else c.level)
            && m.gold == (if s.gold > 0 || s.race != "" then s.gold else c.gold)
            && m.faction == (if s.faction == "" then c.faction else if |s.faction| < 16 then s.faction else s.faction[..15])
            && m.race == (if s.race == "" then c.race else if |s.race| < 16 then s.race else s.race[..15])
            && m.ashsworn == (c.ashsworn || s.ashsworn)
            && m == c.(xp := m.xp, morality := m.morality, title := m.title, level := m.level, gold := m.gold,
                       faction := m.faction, race := m.race, ashsworn := m.ashsworn)
  {
  }

  /** What is committed of a character, and what comes back of it elsewhere: its experience,
   *  morality and title always; its level, race, side and gold unless blank; a brand. */
  lemma Filling(c: Character, d: Character)
    requires Store.Fits(c)
    ensures Fill(c) == Commits.Sheet(c.level, c.xp, c.gold, c.morality, c.faction, c.title, c.race, c.ashsworn)
    ensures var m := Merge(d, Fill(c));
            && m.xp == c.xp && m.morality == c.morality && m.title == c.title && (c.level > 0 ==> m.level == c.level)
            && (c.race != "" ==> m.race == c.race && m.gold == c.gold) && (c.faction != "" ==> m.faction == c.faction)
            && (m.ashsworn <==> c.ashsworn || d.ashsworn)
  {
  }

  /** The player that a login makes of a character: in a room of the table and on its feet,
   *  nothing in hand from another session, in play unless there is a hub to ask first. */
  predicate Fresh(c: Character, federated: bool, p: Player) {
    && p.playing == !federated && p.target == "" && !p.resolved && p.traitReadyAt == 0 && p.treatReadyAt == 0
    && p.baseXp == c.xp
    && p.c == c.(room := if IsRoom(c.room) then c.room else "nexus", position := if c.position == "" then "standing" else c.position)
  }

  lemma EnteringIsFresh(g: Game, id: nat, c: Character, now: int)
    ensures var h := Enter(g, id, c, now);
            && id in h.players && h.players == g.players[id := h.players[id]] && Fresh(c, g.federated, h.players[id])
            && h.order == [id] + g.order
            && h == g.(players := h.players, order := h.order, mobs := h.mobs, revived := h.revived)
  {
    hide TickRespawns, Risen, IsRoom;
  }

  /** A name is typed: a good one on record comes back as it was saved, a good one not on
   *  record is asked for its life, and any other changes nothing. */
  lemma Arriving(g: Game, name: string, now: int)
    ensures var h := Step(g, Name(name, now));
            var good := 2 <= |name| <= 32 && forall i :: 0 <= i < |name| ==> Store.NameChar(name[i]);
            var k := Fold(name);
            if good && k in g.rows && g.rows[k].Record? then
              && g.nextId in h.players && h.players == g.players[g.nextId := h.players[g.nextId]]
              && Fresh(Store.FromDoc(g.rows[k].doc, name), g.federated, h.players[g.nextId])
              && h.order == [g.nextId] + g.order
              && h == g.(players := h.players, order := h.order, nextId := g.nextId + 1, mobs := h.mobs, revived := h.revived)
            else if good && k !in g.rows then h == g.(drafts := g.drafts[g.nextId := name], nextId := g.nextId + 1)
            else h == g
  {
    hide Enter, Fresh, Store.FromDoc, Store.NameChar;
    if Store.ValidName(name) && Fold(name) in g.rows && g.rows[Fold(name)].Record? {
      EnteringIsFresh(g.(nextId := g.nextId + 1), g.nextId, Store.FromDoc(g.rows[Fold(name)].doc, name), now);
    }
  }

  /** A race is picked: one of seven, by somebody who was asked. */
  lemma Picking(g: Game, id: nat, race: string, now: int)
    requires Inv(g)
    ensures var h := Step(g, PickRace(id, race, now));
            var offered := race in {"human", "elf", "revenant", "ghoul", "chromed", "dustkin", "vatborn"};
            if id in g.drafts && offered then
              var c := Character(g.drafts[id], race, "nexus", "none", "standing", "", ["shiv"], "", 30, 30, 1, 0, 20, 0, 0,
                                 false, false, false);
              && id in h.players && h.players == g.players[id := h.players[id]] && Fresh(c, g.federated, h.players[id])
              && h.order == [id] + g.order && h.rows == Store.Save(g.rows, c)
              && h == g.(players := h.players, order := h.order, rows := h.rows, drafts := g.drafts - {id}, mobs := h.mobs,
                         revived := h.revived)
            else h == g
  {
    hide Inv, Enter, Fresh, Store.Save, Store.ValidName;
    DraftsAreValid(g);
    if id in g.drafts {
      DraftName(g.drafts[id]);
      var c := NewCharacter(g.drafts[id]).(race := race);
      EnteringIsFresh(g.(drafts := g.drafts - {id}, rows := Store.Save(g.rows, c)), id, c, now);
    }
  }

  lemma DraftName(name: string)
    requires Store.ValidName(name)
    ensures Store.Key(name).Some? && Clip(name, 33) == name
  {
  }

  /** The hub answers, or fails to: who waited plays, with its record merged in. */
  lemma Answering(g: Game, id: nat, sheet: Option<Commits.Sheet>, now: int)
    ensures var h := Step(g, Answer(id, sheet, now));
            if id in g.players && !g.players[id].playing then
              var p := g.players[id];
              var c := if sheet.Some? then Merge(p.c, sheet.value) else p.c;
              && h.players == g.players[id := p.(playing := true, c := c, baseXp := c.xp)]
              && h == g.(players := h.players, mobs := h.mobs, revived := h.revived)
            else h == g
  {
    hide Merge, TickRespawns, Risen;
  }

  /** A connection closes: who plays is saved as they are; they leave the list; the others
   *  stay, in their order. */
  lemma Leaves(g: Game, id: nat)
    requires Inv(g)
    ensures var h := Step(g, Close(id));
            && h.players == g.players - {id} && h.drafts == g.drafts - {id}
            && h.rows == (if id in g.players && g.players[id].playing then Store.Save(g.rows, g.players[id].c) else g.rows)
            && Subseq(h.order, g.order) && (forall x :: x in h.order <==> x in g.order && x != id)
            && h == g.(players := h.players, drafts := h.drafts, rows := h.rows, order := h.order)
  {
    hide Inv, Store.Save, Subseq;
    ListIsDistinct(g);
    DraftsAreValid(g);
    if id in g.players {
      FilterDistinct(OthersThan(id), g.order);
      FilterSelects(OthersThan(id), g.order);
    } else {
      SubseqRefl(g.order);
    }
  }

  lemma ListIsDistinct(g: Game)
    requires Inv(g)
    ensures Distinct(g.order) && forall x :: x in g.order <==> x in g.players
  {
    hide Living, Sturdy, Counted, Taught, Known, Earned, Tidal, Paired, Drafted, Aiming, Spaced, Untried, Peopled,
      Caches.Kept;
  }

  lemma {:induction false} FilterSelects<T>(keep: T -> bool, s: seq<T>)
    ensures Subseq(Filter(keep, s), s)
  {
    if s != [] {
      assert s == Init(s) + [Last(s)];
      FilterSnoc(keep, Init(s), Last(s));
      FilterSelects(keep, Init(s));
      SubseqGrow(Filter(keep, Init(s)), Init(s), Last(s));
    }
  }

  /** A heartbeat out of a fight mends two of a resting player's hit points. */
  lemma Resting(g: Game, id: nat, now: int)
    requires Acts(g, id) && g.players[id].target == ""
    ensures var p := g.players[id];
            var h := Step(g, Tick(id, now));
            && h == g.(mobs := h.mobs, revived := h.revived, players := h.players)
            && h.players == g.players[id := if p.c.position == "resting" && p.c.hp < p.c.maxHp
                                            then p.(c := p.c.(hp := Least(p.c.hp + 2, p.c.maxHp))) else p]
  {
    hide TickRespawns, Risen, Store.Save;
  }

  /** An attack, when not in a fight already, turns its player on the creature of that name
   *  in the room, and changes nothing else. */
  lemma Attacking(g: Game, id: nat, arg: string, now: int)
    requires Inv(g) && Acts(g, id) && now > 0
    ensures var p := g.players[id];
            var h := Step(g, Do(id, Attack(arg), now));
            && h == g.(mobs := h.mobs, revived := h.revived, players := g.players[id := Facing(p, h.mobs, arg)])
  {
    hide Inv, TickRespawns, Risen, Store.Save, Peopled;
    SpawnMoves(g, now);
    RespawnedKeeps(g, now);
    Fights.MobsNow(Respawned(g, now));
    AttackFaces(Respawned(g, now), g.players[id], arg);
  }

  /** The player who says attack among those creatures. */
  function Facing(p: Player, mobs: seq<Mob>, arg: string): Player {
    if p.target == "" && arg != "" && exists m :: 0 <= m < |mobs| && mobs[m].alive && mobs[m].room == p.c.room && SameName(mobs[m].id, arg) then
      var m := MobInRoom(mobs, p.c.room, arg);
      if m < |mobs| then p.(target := mobs[m].id, c := p.c.(position := "standing")) else p
    else p
  }

  lemma AttackFaces(g: Game, p: Player, arg: string)
    ensures Engage(p, Quarry(g, p, arg)) == As(Facing(p, g.mobs, arg), Facing(p, g.mobs, arg).c)
  {
  }

  /** Gathering takes all the gold that lies in the room, and leaves none there. */
  lemma Gathering(g: Game, id: nat, other: string)
    requires Inv(g) && id in g.players && other != g.players[id].c.room
    ensures var p := g.players[id];
            var h := Gather(g, id);
            var here := Caches.GoldAt(g.caches, p.c.room);
            && h == g.(players := h.players, caches := h.caches, rows := h.rows)
            && Caches.GoldAt(h.caches, p.c.room) == 0
            && Caches.GoldAt(h.caches, other) == Caches.GoldAt(g.caches, other)
            && if here > 0 then
                 var c := p.c.(gold := p.c.gold + here);
                 h.players == g.players[id := p.(c := c)] && h.rows == Store.Save(g.rows, c)
               else h.players == g.players && h.rows == g.rows
  {
    hide Inv, Gather, Caches.TakeCache, Caches.Kept, Store.Save, Roster;
    GatherIs(g, id);
    Goods.TablesNow(g);
    Caches.TakeEmpties(g.caches, g.players[id].c.room, other);
  }

  /** Whoever enters play sees a scene, and the scene wakes the dead whose time has come. */
  lemma ScenesWake(g: Game, e: Event, m: nat)
    requires Inv(g) && m < |g.mobs|
    requires match e
             case Name(_, _) => !g.federated && Step(g, e).players != g.players
             case PickRace(_, _, _) => !g.federated && Step(g, e).players != g.players
             case Answer(_, _, _) => Step(g, e).players != g.players
             case _ => false
    ensures |Step(g, e).mobs| == |g.mobs| && Met(g.mobs[m], e.now, Step(g, e).mobs[m])
  {
    hide Inv, TickRespawns, Risen, Peopled, Met, IsRoom, Merge, Store.Load, Store.Save, Store.ValidName, Store.Key,
      RACES;
    Fights.MobsNow(g);
    RespawnsMet(g, e.now);
    forall k: Game | k.mobs == g.mobs ensures Respawned(k, e.now).mobs == Respawned(g, e.now).mobs {
      Respawns.SpawnsAlike(g, k, e.now);
    }
  }

  /** Word from the hub sets the tide, where there is a hub. */
  lemma Polling(g: Game, tide: int)
    ensures Step(g, Poll(tide)) == if g.federated then g.(tide := tide) else g
  {
  }
}
