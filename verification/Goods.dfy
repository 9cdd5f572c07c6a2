/** What is carried and cached: gold and things change hands, and none are lost or made. */
module Goods {
  import opened Caches
  import opened Characters
  import opened Commands
  import opened Game
  import opened GameLaws
  import opened GameRuns
  import opened Sequences
  import opened Text
  import opened World
  import Commits
  import Items
  import Store

  // ----------------------------------------------------------------- gold

  function Purse(order: seq<nat>, players: map<nat, Player>): int {
    if order == [] then 0
    else Purse(order[1..], players) + if order[0] in players then players[order[0]].c.gold else 0
  }

  /** All the gold of the sessions and all that lies cached. */
  function Wealth(g: Game): int {
    Purse(g.order, g.players) + Cached(g.caches)
  }

  lemma {:induction false} PurseWithout(order: seq<nat>, players: map<nat, Player>, id: nat, p: Player)
    requires id !in order
    ensures Purse(order, players[id := p]) == Purse(order, players)
  {
    if order != [] {
      PurseWithout(order[1..], players, id, p);
      assert order[0] != id;
    }
  }

  lemma {:induction false} PurseUpdate(order: seq<nat>, players: map<nat, Player>, id: nat, p: Player)
    requires Distinct(order) && id in order && id in players
    ensures Purse(order, players[id := p]) == Purse(order, players) - players[id].c.gold + p.c.gold
  {
    if order[0] == id {
      assert id !in order[1..];
      PurseWithout(order[1..], players, id, p);
    } else {
      PurseUpdate(order[1..], players, id, p);
    }
  }

  lemma SettlePurse(g: Game, id: nat, t: Turn)
    requires Roster(g.players, g.order, g.nextId) && id in g.players
    ensures Wealth(Settle(g, id, t)) == Wealth(g) - g.players[id].c.gold + t.p.c.gold
  {
    PurseUpdate(g.order, g.players, id, t.p);
  }

  lemma TablesNow(g: Game)
    requires Inv(g)
    ensures Caches.Kept(g.caches) && Roster(g.players, g.order, g.nextId)
  {
    hide Caches.Kept, Roster;
  }

  lemma LeaveConserves(g: Game, id: nat, amount: int)
    requires Inv(g) && id in g.players
    ensures Wealth(Leave(g, id, amount)) == Wealth(g)
  {
    hide Inv, Wealth, Settle, AddCache, Purse, Cached, IsRoom, Hale, Caches.Kept, Roster, Shifted;
    var p := g.players[id];
    if amount >= 1 && p.c.gold >= amount {
      TablesNow(g);
      LivesNow(g, id);
      AddKeeps(g.caches, p.c.room, amount);
      var h := g.(caches := AddCache(g.caches, p.c.room, amount));
      ShiftedKeepsGold(p.c.(gold := p.c.gold - amount), 2);
      SettlePurse(h, id, Saved(p, Shifted(p.c.(gold := p.c.gold - amount), 2)));
      WealthWith(g, h);
    }
  }

  lemma ShiftedKeepsGold(c: Character, delta: int)
    ensures Shifted(c, delta).gold == c.gold
  {
  }

  lemma WealthWith(g: Game, h: Game)
    requires h.order == g.order && h.players == g.players
    ensures Wealth(h) == Wealth(g) - Cached(g.caches) + Cached(h.caches)
  {
  }

  lemma GatherConserves(g: Game, id: nat)
    requires Inv(g) && id in g.players
    ensures Wealth(Gather(g, id)) == Wealth(g)
  {
    hide Inv, Wealth, Settle, TakeCache, Purse, Cached, Caches.Kept, Roster;
    var p := g.players[id];
    var taken := TakeCache(g.caches, p.c.room);
    TablesNow(g);
    Caches.TakeKeeps(g.caches, p.c.room);
    var h := g.(caches := taken.1);
    SettlePurse(h, id, Saved(p, p.c.(gold := p.c.gold + taken.0)));
    WealthWith(g, h);
  }

  lemma SpawnWealth(g: Game, now: int)
    ensures Wealth(Respawned(g, now)) == Wealth(g)
  {
    hide TickRespawns, Risen, Cached, Purse;
  }

  lemma CachingConserves(g: Game, id: nat, cmd: Command, now: int)
    requires Inv(g) && (cmd.CacheGold? || cmd.GatherGold?)
    ensures Wealth(Step(g, Do(id, cmd, now))) == Wealth(g)
  {
    hide Inv, Wealth, Leave, Gather, Respawned;
    if Acts(g, id) {
      RespawnedKeeps(g, now);
      SpawnMoves(g, now);
      SpawnWealth(g, now);
      match cmd
      case CacheGold(amount) => LeaveConserves(Respawned(g, now), id, amount);
      case GatherGold => GatherConserves(Respawned(g, now), id);
    }
  }

  /** At any point of any run, leaving and gathering gold loses none and makes none. */
  lemma GoldIsConserved(states: seq<Game>, es: seq<Event>, id: nat, cmd: Command, now: int)
    requires Served(states, es)
    requires cmd.CacheGold? || cmd.GatherGold?
    ensures Wealth(Step(Last(states), Do(id, cmd, now))) == Wealth(Last(states))
  {
    hide Served, Inv, Wealth, Step;
    ServedKeeps(states, es);
    CachingConserves(Last(states), id, cmd, now);
  }

  function GoldOf(g: Game, id: nat): int {
    if id in g.players then g.players[id].c.gold else 0
  }

  /** cmd_gather by whoever is there. */
  function Gathered(g: Game, id: nat): Game {
    if id in g.players then Gather(g, id) else g
  }

  lemma HoldsGold(caches: seq<Cache>, room: string)
    requires Caches.Kept(caches)
    ensures 0 <= GoldAt(caches, room)
  {
    hide Caches.Kept, TakeCache;
    Caches.TakeKeeps(caches, room);
  }

  /** What one leaves, the next finds on top of what lay there. */
  lemma LeftGoldIsFound(g: Game, giver: nat, finder: nat, amount: int)
    requires Inv(g) && giver in g.players && finder in g.players && giver != finder
    requires g.players[giver].c.room == g.players[finder].c.room
    requires 1 <= amount <= g.players[giver].c.gold
    ensures var room := g.players[giver].c.room;
            var k := Gathered(Leave(g, giver, amount), finder);
            && GoldOf(k, giver) == GoldOf(g, giver) - amount
            && GoldOf(k, finder) == GoldOf(g, finder) + GoldAt(g.caches, room) + amount
            && GoldAt(k.caches, room) == 0
            && forall other :: other != room ==> GoldAt(k.caches, other) == GoldAt(g.caches, other)
  {
    hide Inv, AddCache, TakeCache, IsRoom, Hale, Caches.Kept, Roster, Leave, Gather, Clamp;
    var room := g.players[giver].c.room;
    TablesNow(g);
    LivesNow(g, giver);
    HoldsGold(g.caches, room);
    var left := AddCache(g.caches, room, amount);
    var elsewhere := room + "x";
    assert |elsewhere| != |room|;
    AddIsFound(g.caches, room, amount, elsewhere);
    TakeEmpties(left, room, elsewhere);
    forall other | other != room ensures GoldAt(TakeCache(left, room).1, other) == GoldAt(g.caches, other) {
      AddIsFound(g.caches, room, amount, other);
      TakeEmpties(left, room, other);
    }
    LeaveIs(g, giver, amount);
    GatherIs(Leave(g, giver, amount), finder);
  }

  // ---------------------------------------------------------------- packs

  /** Everything all sessions carry. */
  function Packs(order: seq<nat>, players: map<nat, Player>): multiset<string> {
    if order == [] then multiset{}
    else Packs(order[1..], players) + if order[0] in players then multiset(players[order[0]].c.inventory) else multiset{}
  }

  lemma {:induction false} PacksWithout(order: seq<nat>, players: map<nat, Player>, id: nat, p: Player)
    requires id !in order
    ensures Packs(order, players[id := p]) == Packs(order, players)
  {
    if order != [] {
      PacksWithout(order[1..], players, id, p);
      assert order[0] != id;
    }
  }

  lemma {:induction false} PacksUpdate(order: seq<nat>, players: map<nat, Player>, id: nat, p: Player)
    requires Distinct(order) && id in order && id in players
    ensures Packs(order, players[id := p]) + multiset(players[id].c.inventory) == Packs(order, players) + multiset(p.c.inventory)
  {
    if order[0] == id {
      assert id !in order[1..];
      PacksWithout(order[1..], players, id, p);
    } else {
      PacksUpdate(order[1..], players, id, p);
      Alongside(Packs(order[1..], players), Packs(order[1..], players[id := p]), multiset(players[id].c.inventory),
                multiset(p.c.inventory), if order[0] in players then multiset(players[order[0]].c.inventory) else multiset{});
    }
  }

  lemma Alongside(r: multiset<string>, r': multiset<string>, o: multiset<string>, n: multiset<string>, x: multiset<string>)
    requires r' + o == r + n
    ensures r' + x + o == r + x + n
  {
    assert r' + x + o == r' + o + x && r + x + n == r + n + x;
  }

  /** Two exchanges that together move nothing in or out. */
  lemma Exchanged(p0: multiset<string>, p1: multiset<string>, p2: multiset<string>, a: multiset<string>, a': multiset<string>,
                  b: multiset<string>, b': multiset<string>)
    requires p1 + a == p0 + a' && p2 + b == p1 + b' && a' + b' == a + b
    ensures p2 == p0
  {
    forall x ensures p2[x] == p0[x] {
      assert (p1 + a)[x] == (p0 + a')[x] && (p2 + b)[x] == (p1 + b')[x] && (a' + b')[x] == (a + b)[x];
    }
  }

  lemma HandConserves(g: Game, id: nat, item: string, who: string)
    requires Inv(g) && id in g.players
    ensures var h := Hand(g, id, item, who); Packs(h.order, h.players) == Packs(g.order, g.players)
  {
    hide Inv, Packs, Neighbour, FindInventory, Store.Save, Clamp, WithoutFirst, IsRoom, Hale;
    var thing, n := FindInventory(g.players[id].c.inventory, item, Items.Name), Neighbour(g, id, who);
    if thing.Some? && n.Some? && |g.players[n.value].c.inventory| < MAX_INVENTORY {
      var a, b := g.players[id], g.players[n.value];
      var a', b' := a.(c := Without(a.c, thing.value)), b.(c := AddItem(b.c, thing.value));
      TablesNow(g);
      LivesNow(g, id);
      LivesNow(g, n.value);
      GiveConserves(a.c.inventory, b.c.inventory, thing.value);
      PacksUpdate(g.order, g.players, id, a');
      PacksUpdate(g.order, g.players[id := a'], n.value, b');
      assert Characters.Give(a.c.inventory, b.c.inventory, thing.value) == (a'.c.inventory, b'.c.inventory);
      var players := g.players[id := a'];
      Exchanged(Packs(g.order, g.players), Packs(g.order, players), Packs(g.order, players[n.value := b']),
                multiset(a.c.inventory), multiset(a'.c.inventory), multiset(b.c.inventory), multiset(b'.c.inventory));
    }
  }

  /** At any point of any run a gift, given or refused, neither loses nor makes a thing. */
  lemma ItemsAreConserved(states: seq<Game>, es: seq<Event>, id: nat, item: string, who: string, now: int)
    requires Served(states, es)
    ensures var g := Last(states);
            var h := Step(g, Do(id, Give(item, who), now));
            Packs(h.order, h.players) == Packs(g.order, g.players)
  {
    hide Served, Inv, Packs, Hand, Respawned;
    ServedKeeps(states, es);
    var g := Last(states);
    if Acts(g, id) {
      RespawnedKeeps(g, now);
      SpawnMoves(g, now);
      SpawnOrder(g, now);
      HandConserves(Respawned(g, now), id, item, who);
    }
  }

  lemma SpawnOrder(g: Game, now: int)
    ensures Respawned(g, now).order == g.order
  {
  }

  /** In every run every pack holds at most eight things, and every text fits its buffer. */
  lemma EverythingFits(states: seq<Game>, es: seq<Event>)
    requires Served(states, es)
    ensures forall id :: id in Last(states).players ==> Store.Fits(Last(states).players[id].c)
  {
    hide Served, Inv, Store.Fits, Hale, IsRoom;
    ServedKeeps(states, es);
    forall id | id in Last(states).players ensures Store.Fits(Last(states).players[id].c) {
      LivesNow(Last(states), id);
    }
  }
}
