/** The game as the event loop runs it: every handler is one step, for any
 *  commands, ticks and clocks of any number of sessions. */
module Game {
  import opened Caches
  import opened Characters
  import opened Commands
  import opened Sequences
  import opened Text
  import opened World
  import Buffers
  import Commits
  import Items
  import Store

  const TIDE_FLOOR := -100
  const TIDE_CEIL := 100
  const WARDEN_GRACE := 180
  const CAGE_REFILL := 240
  const MAX_FORGIVEN: nat := 128
  const MAX_KEPT: nat := 128
  const MAX_FALLEN: nat := 64

  datatype Pair = Pair(who: string, whom: string)

  /** A killing blow: who struck it, which mob, what it taught, and when. */
  datatype Kill = Kill(killer: nat, mob: nat, xp: int, at: int)

  /** The server's tables. drafts are the names of the sessions that choose a life;
   *  players are the sessions past that, by connection; order is the session list,
   *  newest first. The last fields are history: killing blows, respawns per mob, the
   *  returns announced, the tide's deltas, and when the cells and the hub were emptied. */
  datatype Game = Game(
    federated: bool, drafts: map<nat, string>, players: map<nat, Player>, order: seq<nat>, nextId: nat,
    mobs: seq<Mob>, caches: seq<Cache>, rows: map<string, Store.Row>, tide: int,
    forgiven: seq<Pair>, kept: seq<Pair>, fallen: seq<string>,
    wardenSlainAt: int, cellsAt: int, transitAt: int,
    kills: seq<Kill>, revived: seq<nat>, pardons: seq<Character>, deltas: seq<int>,
    cellsFreed: seq<int>, hubFreed: seq<int>)

  // ------------------------------------------------------- pairs of names

  function PairIs(who: string, whom: string): Pair -> bool {
    (p: Pair) => SameName(p.who, who) && SameName(p.whom, whom)
  }

  /** has_forgiven and has_kept. */
  predicate Has(pairs: seq<Pair>, who: string, whom: string) {
    IndexOf(PairIs(who, whom), pairs) < |pairs|
  }

  /** mark_forgiven and mark_kept: a full table marks nothing. */
  function Mark(pairs: seq<Pair>, who: string, whom: string, cap: nat): seq<Pair> {
    if Has(pairs, who, whom) || |pairs| >= cap then pairs else pairs + [Pair(who, whom)]
  }

  // ------------------------------------------------------------- lookups

  function IsCalled(players: map<nat, Player>, name: string): nat -> bool {
    (id: nat) => id in players && players[id].playing && SameName(players[id].c.name, name)
  }

  /** session_find: the newest playing session of that name. */
  function FindPlayer(g: Game, name: string): (r: Option<nat>)
    ensures r.Some? ==> r.value in g.players && g.players[r.value].playing
  {
    var i := IndexOf(IsCalled(g.players, name), g.order);
    if i < |g.order| then Some(g.order[i]) else None
  }

  /** What cmd_forgive and cmd_give ask of a target: present, here, somebody else. */
  function Neighbour(g: Game, id: nat, name: string): (r: Option<nat>)
    requires id in g.players
    ensures r.Some? ==> r.value in g.players && g.players[r.value].playing && r.value != id
  {
    match FindPlayer(g, name)
    case None => None
    case Some(other) =>
      var a, b := g.players[id].c, g.players[other].c;
      if b.room != a.room || SameName(b.name, a.name) then None else Some(other)
  }

  // ------------------------------------------------------------ one turn

  /** Writes a player's turn back to the session, the store and the tide. */
  function Settle(g: Game, id: nat, t: Turn): Game {
    g.(players := g.players[id := t.p],
       rows := if t.saved then Store.Save(g.rows, t.p.c) else g.rows,
       tide := if t.tide != 0 then Clamp(g.tide + t.tide, TIDE_FLOOR, TIDE_CEIL) else g.tide,
       deltas := if t.tide != 0 then g.deltas + [t.tide] else g.deltas,
       pardons := if t.returned then g.pardons + [t.p.c] else g.pardons)
  }

  /** hg_world_tick_respawns, with the respawns counted. */
  function Respawned(g: Game, now: int): Game {
    g.(mobs := TickRespawns(g.mobs, now), revived := Risen(g.mobs, g.revived, now))
  }

  function Risen(mobs: seq<Mob>, revived: seq<nat>, now: int): (r: seq<nat>)
    ensures |r| == |revived|
  {
    seq(|revived|, i requires 0 <= i < |revived| =>
      if i < |mobs| && Revive(mobs[i], now).alive && !mobs[i].alive then revived[i] + 1 else revived[i])
  }

  // --------------------------------------------------------------- combat

  /** player_damage. */
  function Damage(c: Character): int {
    1 + c.level + Items.WeaponDamage(c.weapon)
  }

  function Floor0(x: int): int {
    if x < 0 then 0 else x
  }

  /** Death puts the body back whole at the nexus. */
  function Reknit(p: Player): Player {
    p.(target := "", c := p.c.(hp := p.c.maxHp, room := "nexus", position := "standing"))
  }

  /** combat_round for the player against the mob at that index, or against nobody. */
  function CombatRound(g: Game, id: nat, now: int): Game
    requires id in g.players
  {
    var p := g.players[id];
    var m := MobInRoom(g.mobs, p.c.room, p.target);
    if m >= |g.mobs| then g.(players := g.players[id := p.(target := "")])
    else
      var mob := g.mobs[m].(hp := Floor0(g.mobs[m].hp - Damage(p.c)));
      if mob.hp <= 0 then Kills(g, id, m, mob, now) else Struck(g, id, m, mob)
  }

  /** The killing blow. */
  function Kills(g: Game, id: nat, m: nat, mob: Mob, now: int): Game
    requires id in g.players && m < |g.mobs|
  {
    var p := g.players[id];
    var c := p.c.(xp := p.c.xp + mob.xp);
    g.(players := g.players[id := p.(c := c, target := "")],
       mobs := g.mobs[m := mob.(alive := false, diedAt := now)],
       wardenSlainAt := if mob.id == "warden" then now else g.wardenSlainAt,
       rows := Store.Save(g.rows, c),
       kills := g.kills + [Kill(id, m, mob.xp, now)])
  }

  /** The mob lives and strikes back, perhaps to the death. */
  function Struck(g: Game, id: nat, m: nat, mob: Mob): Game
    requires id in g.players && m < |g.mobs|
  {
    var p := g.players[id];
    var hit := p.(c := p.c.(hp := p.c.hp - mob.damage));
    if hit.c.hp <= 0 then
      g.(players := g.players[id := Reknit(hit)], mobs := g.mobs[m := mob],
         fallen := Buffers.Enroll(g.fallen, p.c.name, MAX_FALLEN))
    else g.(players := g.players[id := hit], mobs := g.mobs[m := mob])
  }

  // ------------------------------------------------------- shared commands

  /** Whom cmd_forgive finds to forgive: here, marked, and not yet forgiven by this one. */
  function Subject(g: Game, id: nat, arg: string): (r: Option<nat>)
    requires id in g.players
    ensures r.Some? ==> r.value in g.players && g.players[r.value].playing && r.value != id
  {
    match Neighbour(g, id, FirstWord(Clip(arg, 33)))
    case None => None
    case Some(other) =>
      var p, q := g.players[id], g.players[other];
      if arg == "" || Has(g.forgiven, p.c.name, q.c.name) || !Marked(q.c) then None else Some(other)
  }

  /** cmd_forgive: two lives change, the subject's first. */
  function Forgive(g: Game, id: nat, arg: string): Game
    requires id in g.players
  {
    match Subject(g, id, arg)
    case None => g
    case Some(other) =>
      var h := g.(forgiven := Mark(g.forgiven, g.players[id].c.name, g.players[other].c.name, MAX_FORGIVEN));
      var met := Settle(h, other, Forgiven(h.players[other]));
      Settle(met, id, Witness(met.players[id]))
  }

  function FirstWord(s: string): string {
    if s == "" || s[0] == ' ' then "" else [s[0]] + FirstWord(s[1..])
  }

  /** cmd_give once its words are split. */
  function Hand(g: Game, id: nat, item: string, who: string): Game
    requires id in g.players
  {
    match FindInventory(g.players[id].c.inventory, item, Items.Name)
    case None => g
    case Some(thing) =>
      match Neighbour(g, id, who)
      case None => g
      case Some(other) =>
        var a, b := g.players[id], g.players[other];
        if |b.c.inventory| >= MAX_INVENTORY then g
        else Settle(Settle(g, id, Saved(a, Without(a.c, thing))), other, Saved(b, AddItem(b.c, thing)))
  }

  /** cmd_cache; amount is what parse_leading_int read, -1 when it read nothing. */
  function Leave(g: Game, id: nat, amount: int): Game
    requires id in g.players
  {
    var p := g.players[id];
    if amount < 1 || p.c.gold < amount then g
    else
      Settle(g.(caches := AddCache(g.caches, p.c.room, amount)), id,
             Saved(p, Shifted(p.c.(gold := p.c.gold - amount), 2)))
  }

  /** cmd_gather. */
  function Gather(g: Game, id: nat): Game
    requires id in g.players
  {
    var p := g.players[id];
    var (here, rest) := TakeCache(g.caches, p.c.room);
    if here <= 0 then g.(caches := rest)
    else Settle(g.(caches := rest), id, Saved(p, p.c.(gold := p.c.gold + here)))
  }

  // The same three handlers, field by field.

  lemma LeaveIs(g: Game, id: nat, amount: int)
    requires id in g.players
    ensures var p := g.players[id];
            var c := Shifted(p.c.(gold := p.c.gold - amount), 2);
            Leave(g, id, amount) ==
              if amount < 1 || p.c.gold < amount then g
              else g.(players := g.players[id := p.(c := c)], caches := AddCache(g.caches, p.c.room, amount),
                      rows := Store.Save(g.rows, c))
  {
    hide AddCache, Store.Save, Shifted;
  }

  lemma GatherIs(g: Game, id: nat)
    requires id in g.players
    ensures var p := g.players[id];
            var here := TakeCache(g.caches, p.c.room);
            var c := p.c.(gold := p.c.gold + here.0);
            Gather(g, id) ==
              if here.0 <= 0 then g.(caches := here.1)
              else g.(players := g.players[id := p.(c := c)], caches := here.1, rows := Store.Save(g.rows, c))
  {
    hide TakeCache, Store.Save;
  }

  lemma ForgiveIs(g: Game, id: nat, arg: string)
    requires id in g.players
    ensures Forgive(g, id, arg) ==
              match Subject(g, id, arg)
              case None => g
              case Some(other) =>
                var p, q := g.players[id], g.players[other];
                var t, u := Forgiven(q), Witness(p);
                g.(players := g.players[other := t.p][id := u.p],
                   forgiven := Mark(g.forgiven, p.c.name, q.c.name, MAX_FORGIVEN),
                   rows := Store.Save(Store.Save(g.rows, t.p.c), u.p.c),
                   pardons := if t.returned then g.pardons + [t.p.c] else g.pardons)
  {
    hide Store.Save, Clamp, Mark, Subject;
  }

  predicate WardenCleared(g: Game, now: int) {
    || MobInRoom(g.mobs, "holding_pit", "warden") >= |g.mobs|
    || (g.wardenSlainAt != 0 && now - g.wardenSlainAt < WARDEN_GRACE)
  }

  predicate CagesReady(at: int, now: int) {
    at == 0 || now >= at
  }

  /** cmd_free_captive. */
  function Free(g: Game, id: nat, now: int): Game
    requires id in g.players
  {
    var p := g.players[id];
    if p.c.room == "cells" then
      if !CagesReady(g.cellsAt, now) then g
      else Settle(g.(cellsAt := now + CAGE_REFILL, cellsFreed := g.cellsFreed + [now]), id, Rescue(p))
    else if p.c.room == "holding_pit" then
      if WardenCleared(g, now) then Settle(g, id, FreeFromPit(p)) else g
    else g
  }

  /** cmd_shelter. */
  function Shelter(g: Game, id: nat, now: int): Game
    requires id in g.players
  {
    var p := g.players[id];
    if p.c.room != "transit_hub" || !CagesReady(g.transitAt, now) then g
    else Settle(g.(transitAt := now + CAGE_REFILL, hubFreed := g.hubFreed + [now]), id, Rescue(p))
  }

  function NameIs(name: string): string -> bool {
    (s: string) => SameName(s, name)
  }

  /** cmd_witness. */
  function Remember(g: Game, id: nat, arg: string): Game
    requires id in g.players
  {
    var p := g.players[id];
    var i := IndexOf(NameIs(arg), g.fallen);
    if arg == "" || SameName(arg, p.c.name) || i >= |g.fallen| || Has(g.kept, p.c.name, g.fallen[i]) then g
    else Settle(g.(kept := Mark(g.kept, p.c.name, g.fallen[i], MAX_KEPT)), id, Witness(p))
  }

  /** The room's mob that attack means. */
  function Quarry(g: Game, p: Player, arg: string): Option<string> {
    var m := MobInRoom(g.mobs, p.c.room, arg);
    if arg == "" || m >= |g.mobs| then None else Some(g.mobs[m].id)
  }

  // ------------------------------------------------------------- commands

  datatype Command =
    | Attack(arg: string) | Rest | Stand | FreeCaptive | ShelterThem
    | JoinFront | DefendThem | Defy | ForgiveName(arg: string) | CacheGold(amount: int) | GatherGold
    | Give(item: string, who: string) | BuyItem(arg: string) | SellItem(arg: string) | UseItem(arg: string)
    | WieldItem(arg: string) | RemoveItem(arg: string) | StealCoin | GoHome | Walk(direction: string)
    | SeeMedic | WitnessName(arg: string) | TakeTitle(arg: string) | UseTrait(luck: nat) | Travel(answers: bool)
    | Look | Other

  /** The commands that change only the one who gives them. */
  function Own(p: Player, tide: int, now: int, cmd: Command): Turn {
    match cmd
    case Rest => Commands.Rest(p)
    case Stand => Pose(p, "standing")
    case JoinFront => Join(p)
    case DefendThem => Defend(p)
    case Defy => Defect(p)
    case BuyItem(arg) => Buy(p, arg)
    case SellItem(arg) => Sell(p, arg)
    case UseItem(arg) => Use(p, arg)
    case WieldItem(arg) => Wield(p, arg)
    case RemoveItem(arg) => Unwield(p, arg)
    case StealCoin => Steal(p)
    case GoHome => Recall(p)
    case Walk(direction) => Go(p, direction)
    case SeeMedic => Treat(p, tide, now)
    case TakeTitle(arg) => Title(p, arg)
    case UseTrait(luck) => Ability(p, luck, now)
    case Travel(answers) => if answers && p.target == "" then Saved(p, p.c) else Stay(p)
    case Look => Scene(p)
    case _ => Stay(p)
  }

  /** handle_play, past the parsing. */
  function Play(g: Game, id: nat, cmd: Command, now: int): Game
    requires id in g.players
  {
    match cmd
    case Attack(arg) => Settle(g, id, Engage(g.players[id], Quarry(g, g.players[id], arg)))
    case ForgiveName(arg) => Forgive(g, id, arg)
    case Give(item, who) => Hand(g, id, item, who)
    case CacheGold(amount) => Leave(g, id, amount)
    case GatherGold => Gather(g, id)
    case FreeCaptive => Free(g, id, now)
    case ShelterThem => Shelter(g, id, now)
    case WitnessName(arg) => Remember(g, id, arg)
    case _ => Settle(g, id, Own(g.players[id], g.tide, now, cmd))
  }

  // --------------------------------------------------------------- events

  const RACES: set<string> := {"human", "elf", "revenant", "ghoul", "chromed", "dustkin", "vatborn"}

  datatype Event =
    | Name(name: string, now: int)
    | PickRace(id: nat, race: string, now: int)
    | Answer(id: nat, sheet: Option<Commits.Sheet>, now: int)
    | Do(id: nat, cmd: Command, now: int)
    | Tick(id: nat, now: int)
    | Close(id: nat)
    | Poll(tide: int)

  /** apply_hub_sheet. */
  function Merge(c: Character, s: Commits.Sheet): Character {
    c.(level := if s.level > 0 then s.level else c.level,
       xp := s.xp,
       gold := if s.gold > 0 || s.race != "" then s.gold else c.gold,
       faction := if s.faction != "" then Clip(s.faction, 16) else c.faction,
       morality := s.morality,
       title := Clip(s.title, 48),
       race := if s.race != "" then Clip(s.race, 16) else c.race,
       ashsworn := c.ashsworn || s.ashsworn)
  }

  /** The scene shown on entering play ticks the respawns. */
  function Shown(g: Game, playing: bool, now: int): Game {
    if playing then Respawned(g, now) else g
  }

  /** finish_login: straight into play, or into the wait for the hub. */
  function Enter(g: Game, id: nat, c: Character, now: int): Game {
    var room := if IsRoom(c.room) then c.room else "nexus";
    var position := if c.position == "" then "standing" else c.position;
    var p := Player(!g.federated, c.(room := room, position := position), "", false, 0, 0, c.xp);
    Shown(g.(players := g.players[id := p], order := [id] + g.order), p.playing, now)
  }

  /** handle_name: a recorded name goes on to finish_login, a new one chooses a life. */
  function Named(g: Game, name: string, now: int): Game {
    if !Store.ValidName(name) then g
    else
      match Store.Load(g.rows, name)
      case Damaged => g
      case Found(c) => Enter(g.(nextId := g.nextId + 1), g.nextId, c, now)
      case Missing => g.(drafts := g.drafts[g.nextId := Clip(name, 33)], nextId := g.nextId + 1)
  }

  /** handle_race: the new character is saved under its name whatever is there by now. */
  function Picked(g: Game, id: nat, race: string, now: int): Game {
    if id !in g.drafts || race !in RACES || Store.Key(g.drafts[id]).None? then g
    else
      var c := NewCharacter(g.drafts[id]).(race := race);
      Enter(g.(drafts := g.drafts - {id}, rows := Store.Save(g.rows, c)), id, c, now)
  }

  /** drain_char_load_results for one waiting session. */
  function Answered(g: Game, id: nat, sheet: Option<Commits.Sheet>, now: int): Game {
    if id !in g.players || g.players[id].playing then g
    else
      var p := g.players[id];
      var c := if sheet.Some? then Merge(p.c, sheet.value) else p.c;
      Shown(g.(players := g.players[id := p.(c := c, playing := true, baseXp := c.xp)]), true, now)
  }

  /** on_tick. */
  function Ticked(g: Game, id: nat, now: int): Game
    requires id in g.players
  {
    if g.players[id].target != "" then CombatRound(g, id, now)
    else Settle(g, id, Rested(g.players[id]))
  }

  function OthersThan(id: nat): nat -> bool {
    (x: nat) => x != id
  }

  /** The connection is gone. */
  function Closed(g: Game, id: nat): Game {
    if id !in g.players then g.(drafts := g.drafts - {id})
    else
      g.(rows := if g.players[id].playing then Store.Save(g.rows, g.players[id].c) else g.rows,
         players := g.players - {id}, order := Filter(OthersThan(id), g.order))
  }

  predicate Acts(g: Game, id: nat) {
    id in g.players && g.players[id].playing
  }

  function Step(g: Game, e: Event): Game {
    match e
    case Name(name, now) => Named(g, name, now)
    case PickRace(id, race, now) => Picked(g, id, race, now)
    case Answer(id, sheet, now) => Answered(g, id, sheet, now)
    case Do(id, cmd, now) => if Acts(g, id) then Play(Respawned(g, now), id, cmd, now) else g
    case Tick(id, now) => if Acts(g, id) then Ticked(Respawned(g, now), id, now) else g
    case Close(id) => Closed(g, id)
    case Poll(tide) => if g.federated then g.(tide := tide) else g
  }

  /** Clocks stand after the epoch. */
  predicate Possible(e: Event) {
    match e
    case Do(_, _, now) => now > 0
    case Tick(_, now) => now > 0
    case _ => true
  }

  function Start(federated: bool, rows: map<string, Store.Row>): Game {
    Game(federated, map[], map[], [], 0, Seed(), [], rows, 0, [], [], [], 0, 0, 0,
         [], seq(|Seed()|, _ => 0), [], [], [], [])
  }

  ghost predicate Leads(g: Game, e: Event, h: Game) {
    Possible(e) && h == Step(g, e)
  }

  /** A run: the states passed through, each event leading to the next. */
  ghost predicate Runs(states: seq<Game>, es: seq<Event>) {
    && |states| == |es| + 1
    && forall i {:trigger es[i]} :: 0 <= i < |es| ==> Leads(states[i], es[i], states[i + 1])
  }
}
