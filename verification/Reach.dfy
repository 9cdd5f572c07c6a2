/** Whom a step reaches besides its own player: commands touch nobody who is not there. */
module Reach {
  import opened Characters
  import opened Commands
  import opened Game
  import opened GameLaws
  import opened GameRuns
  import opened Sequences
  import opened Text
  import opened World
  import Buffers
  import Caches
  import Commits
  import Items
  import Store

  /** Somebody else who plays in the same room. */
  predicate Nearby(g: Game, id: nat, x: nat) {
    && id in g.players && x in g.players && g.players[x].playing
    && g.players[x].c.room == g.players[id].c.room && !SameName(g.players[x].c.name, g.players[id].c.name)
  }

  predicate Answers(g: Game, x: nat, name: string) {
    x in g.players && g.players[x].playing && SameName(g.players[x].c.name, name)
  }

  /** The session is the newest of those that play under the name. */
  ghost predicate Newest(g: Game, x: nat, name: string) {
    exists j :: 0 <= j < |g.order| && g.order[j] == x && Answers(g, x, name) && forall i :: 0 <= i < j ==> !Answers(g, g.order[i], name)
  }

  lemma FindsNewest(g: Game, x: nat, name: string)
    ensures FindPlayer(g, name) == Some(x) <==> Newest(g, x, name)
  {
    var i := IndexOf(IsCalled(g.players, name), g.order);
    if Newest(g, x, name) {
      var j :| 0 <= j < |g.order| && g.order[j] == x && Answers(g, x, name)
               && forall k :: 0 <= k < j ==> !Answers(g, g.order[k], name);
      IsIndexOf(IsCalled(g.players, name), g.order, j);
    }
    if FindPlayer(g, name) == Some(x) {
      assert forall k :: 0 <= k < i ==> !IsCalled(g.players, name)(g.order[k]) && !Answers(g, g.order[k], name);
      assert Answers(g, g.order[i], name);
    }
  }

  lemma NeighbourIff(g: Game, id: nat, x: nat, name: string)
    requires id in g.players
    ensures Neighbour(g, id, name) == Some(x) <==> Newest(g, x, name) && Nearby(g, id, x)
  {
    hide Newest, FindPlayer;
    FindsNewest(g, x, name);
  }

  // ----------------------------------------------------------------- gifts

  /** What a gift takes: something carried that the words fit, the newest of the name in
   *  the room, somebody else, and a slot free. */
  ghost predicate CanGive(g: Game, id: nat, item: string, who: string, thing: string, x: nat) {
    && Newest(g, x, who) && Nearby(g, id, x)
    && FindInventory(g.players[id].c.inventory, item, Items.Name) == Some(thing)
    && |g.players[x].c.inventory| < MAX_INVENTORY
  }

  lemma HandIff(g: Game, id: nat, item: string, who: string, thing: string, x: nat)
    requires id in g.players && Store.Fits(g.players[id].c)
    ensures var h := Hand(g, id, item, who);
            CanGive(g, id, item, who, thing, x) ==>
              && var a, b := g.players[id], g.players[x];
                 var a' := a.(c := a.c.(inventory := WithoutFirst(a.c.inventory, thing)));
                 var b' := b.(c := b.c.(inventory := b.c.inventory + [thing]));
                 h == g.(players := g.players[id := a'][x := b'], rows := Store.Save(Store.Save(g.rows, a'.c), b'.c))
    ensures (forall t, y :: !CanGive(g, id, item, who, t, y)) ==> Hand(g, id, item, who) == g
  {
    hide Newest, Neighbour, FindInventory, Store.Save, Clamp;
    NeighbourIff(g, id, x, who);
    var n := Neighbour(g, id, who);
    var found := FindInventory(g.players[id].c.inventory, item, Items.Name);
    if n.Some? {
      NeighbourIff(g, id, n.value, who);
    }
    if n.Some? && found.Some? && |g.players[n.value].c.inventory| < MAX_INVENTORY {
      assert CanGive(g, id, item, who, found.value, n.value);
    }
  }

  /** At any point: a gift moves exactly the thing meant, from the giver to the one meant,
   *  and saves both; when it cannot be made, nothing of anybody's changes. */
  lemma GiftHappensIff(g: Game, id: nat, item: string, who: string, now: int, thing: string, x: nat)
    requires Inv(g) && Acts(g, id) && now > 0
    ensures var h := Step(g, Do(id, Give(item, who), now));
            && (CanGive(g, id, item, who, thing, x) ==>
                  var a, b := g.players[id], g.players[x];
                  var a' := a.(c := a.c.(inventory := WithoutFirst(a.c.inventory, thing)));
                  var b' := b.(c := b.c.(inventory := b.c.inventory + [thing]));
                  h.players == g.players[id := a'][x := b'] && h.rows == Store.Save(Store.Save(g.rows, a'.c), b'.c))
            && ((forall t, y :: !CanGive(g, id, item, who, t, y)) ==> h.players == g.players && h.rows == g.rows)
            && h == g.(players := h.players, rows := h.rows, mobs := h.mobs, revived := h.revived)
  {
    hide Inv, CanGive, Hand, Store.Save, Store.Fits, Respawned, Hale, IsRoom, FindInventory;
    SpawnOnly(g, now);
    LivesNow(g, id);
    HandIff(Respawned(g, now), id, item, who, thing, x);
    HandFrame(Respawned(g, now), id, item, who);
    forall t, y ensures CanGive(Respawned(g, now), id, item, who, t, y) <==> CanGive(g, id, item, who, t, y) {
      SameGift(g, Respawned(g, now), id, item, who, t, y);
    }
  }

  lemma HandFrame(g: Game, id: nat, item: string, who: string)
    requires id in g.players
    ensures var h := Hand(g, id, item, who); h == g.(players := h.players, rows := h.rows)
  {
    hide Neighbour, FindInventory, Store.Save, Clamp;
  }

  lemma SpawnOnly(g: Game, now: int)
    ensures Respawned(g, now) == g.(mobs := Respawned(g, now).mobs, revived := Respawned(g, now).revived)
  {
  }

  lemma SameGift(g: Game, h: Game, id: nat, item: string, who: string, thing: string, x: nat)
    requires h.players == g.players && h.order == g.order
    ensures CanGive(h, id, item, who, thing, x) <==> CanGive(g, id, item, who, thing, x)
  {
    hide FindInventory;
  }

  // ----------------------------------------------------------- forgiveness

  /** The command's first word: up to the first space. */
  lemma {:induction false} FirstWordEnds(s: string)
    ensures FirstWord(s) <= s && ' ' !in FirstWord(s)
    ensures |FirstWord(s)| < |s| ==> s[|FirstWord(s)|] == ' '
  {
    if s != [] && s[0] != ' ' {
      FirstWordEnds(s[1..]);
      assert s == [s[0]] + s[1..];
    }
  }

  predicate Forgave(g: Game, who: string, whom: string) {
    exists i :: 0 <= i < |g.forgiven| && SameName(g.forgiven[i].who, who) && SameName(g.forgiven[i].whom, whom)
  }

  lemma HasIff(pairs: seq<Pair>, who: string, whom: string)
    ensures Has(pairs, who, whom) <==> exists i :: 0 <= i < |pairs| && SameName(pairs[i].who, who) && SameName(pairs[i].whom, whom)
  {
    var i := IndexOf(PairIs(who, whom), pairs);
    forall k | 0 <= k < |pairs| ensures PairIs(who, whom)(pairs[k]) <==> SameName(pairs[k].who, who) && SameName(pairs[k].whom, whom) {
    }
    if i < |pairs| {
      assert PairIs(who, whom)(pairs[i]);
    } else {
      forall k | 0 <= k < |pairs| ensures !PairIs(who, whom)(pairs[k]) {
      }
    }
  }

  /** What forgiving takes: the newest of the name, in the room, somebody else, who bears
   *  something to forgive and was not yet forgiven by this one. */
  ghost predicate CanForgive(g: Game, id: nat, arg: string, x: nat) {
    && arg != "" && Newest(g, x, FirstWord(Clip(arg, 33))) && Nearby(g, id, x)
    && !Forgave(g, g.players[id].c.name, g.players[x].c.name)
    && var c := g.players[x].c;
       c.ashsworn || c.strayed || c.faction == "front" || c.morality <= -50
  }

  lemma SubjectIff(g: Game, id: nat, arg: string, x: nat)
    requires id in g.players
    ensures Subject(g, id, arg) == Some(x) <==> CanForgive(g, id, arg, x)
  {
    hide Newest, Neighbour, FirstWord, Clip, Has, Forgave;
    var w := FirstWord(Clip(arg, 33));
    NeighbourIff(g, id, x, w);
    if x in g.players {
      ForgaveIff(g, g.players[id].c.name, g.players[x].c.name);
    }
  }

  lemma ForgaveIff(g: Game, who: string, whom: string)
    ensures Forgave(g, who, whom) <==> Has(g.forgiven, who, whom)
  {
    hide Has;
    HasIff(g.forgiven, who, whom);
  }

  /** Being forgiven: five points of morality and, for one who strayed, bears no ash and
   *  does not stand with the Front, the way back, under a title. */
  predicate Absolved(p: Player, q: Player) {
    var back := p.c.strayed && !p.c.redeemed && !p.c.ashsworn && p.c.faction != "front";
    && q.c.morality == (if p.c.morality > 95 then 100 else p.c.morality + 5)
    && q.c.redeemed == (p.c.redeemed || back)
    && q.c.title == (if back && p.c.title == "" then "the Returned" else p.c.title)
    && q == p.(c := p.c.(morality := q.c.morality, redeemed := q.c.redeemed, title := q.c.title))
  }

  /** Forgiving: two points of morality. */
  predicate Eased(p: Player, q: Player) {
    && q.c.morality == (if p.c.morality > 98 then 100 else if p.c.morality < -102 then -100 else p.c.morality + 2)
    && q == p.(c := p.c.(morality := q.c.morality))
  }

  lemma ForgivenAbsolves(p: Player)
    ensures Absolved(p, Forgiven(p).p) && Forgiven(p).saved && Forgiven(p).tide == 0
    ensures Forgiven(p).returned <==> p.c.strayed && !p.c.redeemed && !p.c.ashsworn && p.c.faction != "front"
    ensures Eased(p, Witness(p).p)
  {
  }

  lemma ForgiveIff(g: Game, id: nat, arg: string, x: nat)
    requires id in g.players
    ensures var h := Forgive(g, id, arg);
            && (CanForgive(g, id, arg, x) ==>
                  && h.players.Keys == g.players.Keys && x != id
                  && (forall y :: y in g.players && y != id && y != x ==> h.players[y] == g.players[y])
                  && Absolved(g.players[x], h.players[x]) && Eased(g.players[id], h.players[id])
                  && h.rows == Store.Save(Store.Save(g.rows, h.players[x].c), h.players[id].c)
                  && h.pardons == (if h.players[x].c.redeemed && !g.players[x].c.redeemed
                                   then g.pardons + [h.players[x].c] else g.pardons)
                  && h.forgiven == (if |g.forgiven| < MAX_FORGIVEN
                                    then g.forgiven + [Pair(g.players[id].c.name, g.players[x].c.name)] else g.forgiven))
            && ((forall y :: !CanForgive(g, id, arg, y)) ==> h == g)
            && h == g.(players := h.players, rows := h.rows, pardons := h.pardons, forgiven := h.forgiven)
  {
    hide Forgive, Subject, CanForgive, Forgiven, Witness, Store.Save, Absolved, Eased, Has;
    ForgiveIs(g, id, arg);
    SubjectIff(g, id, arg, x);
    var r := Subject(g, id, arg);
    if r.Some? {
      SubjectIff(g, id, arg, r.value);
      ForgivenAbsolves(g.players[r.value]);
      ForgivenAbsolves(g.players[id]);
      ReturnShows(g.players[r.value]);
      CanForgiveFacts(g, id, arg, r.value);
    }
  }

  lemma ReturnShows(p: Player)
    ensures Forgiven(p).returned <==> Forgiven(p).p.c.redeemed && !p.c.redeemed
  {
  }

  lemma CanForgiveFacts(g: Game, id: nat, arg: string, x: nat)
    requires CanForgive(g, id, arg, x)
    ensures Nearby(g, id, x) && x != id && !Has(g.forgiven, g.players[id].c.name, g.players[x].c.name)
  {
    hide Newest, Forgave, FirstWord, Clip, Has;
    ForgaveIff(g, g.players[id].c.name, g.players[x].c.name);
  }

  /** At any point: forgiving reaches exactly the one meant, and when nobody can be
   *  forgiven nothing of anybody's changes. */
  lemma ForgivingHappensIff(g: Game, id: nat, arg: string, now: int, x: nat)
    requires Inv(g) && Acts(g, id) && now > 0
    ensures var h := Step(g, Do(id, ForgiveName(arg), now));
            && h.players.Keys == g.players.Keys
            && (CanForgive(g, id, arg, x) ==>
                  && x != id
                  && (forall y :: y in g.players && y != id && y != x ==> h.players[y] == g.players[y])
                  && Absolved(g.players[x], h.players[x]) && Eased(g.players[id], h.players[id])
                  && h.rows == Store.Save(Store.Save(g.rows, h.players[x].c), h.players[id].c)
                  && h.forgiven == (if |g.forgiven| < MAX_FORGIVEN
                                    then g.forgiven + [Pair(g.players[id].c.name, g.players[x].c.name)] else g.forgiven))
            && ((forall y :: !CanForgive(g, id, arg, y)) ==> h.players == g.players && h.rows == g.rows && h.forgiven == g.forgiven)
            && h == g.(players := h.players, rows := h.rows, pardons := h.pardons, forgiven := h.forgiven,
                       mobs := h.mobs, revived := h.revived)
  {
    hide Inv, CanForgive, Forgive, Store.Save, Respawned, Absolved, Eased;
    SpawnOnly(g, now);
    var r := Respawned(g, now);
    ForgiveIff(r, id, arg, x);
    forall y ensures CanForgive(r, id, arg, y) <==> CanForgive(g, id, arg, y) {
      SameSubject(g, r, id, arg, y);
    }
    if forall y :: !CanForgive(g, id, arg, y) {
      assert Forgive(r, id, arg) == r;
    } else {
      var y :| CanForgive(g, id, arg, y);
      ForgiveIff(r, id, arg, y);
    }
  }

  lemma SameSubject(g: Game, h: Game, id: nat, arg: string, x: nat)
    requires h.players == g.players && h.order == g.order && h.forgiven == g.forgiven
    ensures CanForgive(h, id, arg, x) <==> CanForgive(g, id, arg, x)
  {
    hide FirstWord, Clip;
  }

  // -------------------------------------------------------- every event

  /** Everybody but the one that acts is as before, or was given to or forgiven, in the
   *  same room. */
  ghost predicate OnlyNear(g: Game, h: Game, id: nat, cmd: Command) {
    && h.players.Keys == g.players.Keys
    && forall x :: x in g.players && x != id ==>
         h.players[x] == g.players[x] || ((cmd.Give? || cmd.ForgiveName?) && Nearby(g, id, x))
  }

  lemma SettledAlone(g: Game, id: nat, t: Turn, cmd: Command)
    requires id in g.players
    ensures OnlyNear(g, Settle(g, id, t), id, cmd)
  {
    hide Nearby, Store.Save, Clamp;
  }

  lemma SettledBeside(g: Game, m: Game, id: nat, t: Turn, cmd: Command)
    requires id in g.players && m.players == g.players
    ensures OnlyNear(g, Settle(m, id, t), id, cmd) && OnlyNear(g, m, id, cmd)
  {
    hide Nearby, Store.Save, Clamp;
  }

  lemma HandReaches(g: Game, id: nat, item: string, who: string)
    requires id in g.players && Store.Fits(g.players[id].c)
    ensures OnlyNear(g, Hand(g, id, item, who), id, Give(item, who))
  {
    hide CanGive, Hand, Store.Save, Nearby, Store.Fits;
    HandIff(g, id, item, who, "", 0);
    if thing, x :| CanGive(g, id, item, who, thing, x) {
      HandIff(g, id, item, who, thing, x);
      CanGiveFacts(g, id, item, who, thing, x);
      var h := Hand(g, id, item, who);
      assert h.players.Keys == g.players.Keys;
      forall y | y in g.players && y != id ensures h.players[y] == g.players[y] || Nearby(g, id, y) {
      }
    } else {
      assert Hand(g, id, item, who) == g;
    }
  }

  lemma ForgiveReaches(g: Game, id: nat, arg: string)
    requires id in g.players
    ensures OnlyNear(g, Forgive(g, id, arg), id, ForgiveName(arg))
  {
    hide CanForgive, Forgive, Absolved, Eased, Store.Save, Nearby, Has;
    ForgiveIff(g, id, arg, 0);
    if x :| CanForgive(g, id, arg, x) {
      ForgiveIff(g, id, arg, x);
      CanForgiveFacts(g, id, arg, x);
      var h := Forgive(g, id, arg);
      forall y | y in g.players && y != id ensures h.players[y] == g.players[y] || Nearby(g, id, y) {
      }
    } else {
      assert Forgive(g, id, arg) == g;
    }
  }

  lemma CanGiveFacts(g: Game, id: nat, item: string, who: string, thing: string, x: nat)
    requires CanGive(g, id, item, who, thing, x)
    ensures Nearby(g, id, x) && x != id && x in g.players
  {
    hide Newest, FindInventory;
  }

  lemma CoinReaches(g: Game, id: nat, amount: int, cmd: Command)
    requires id in g.players
    ensures OnlyNear(g, Leave(g, id, amount), id, cmd) && OnlyNear(g, Gather(g, id), id, cmd)
  {
    hide OnlyNear, Settle, Caches.AddCache, Caches.TakeCache, Shifted;
    var p := g.players[id];
    var taken := Caches.TakeCache(g.caches, p.c.room);
    SettledBeside(g, g, id, Stay(p), cmd);
    SettledBeside(g, g.(caches := Caches.AddCache(g.caches, p.c.room, amount)), id,
                  Saved(p, Shifted(p.c.(gold := p.c.gold - amount), 2)), cmd);
    SettledBeside(g, g.(caches := taken.1), id, Saved(p, p.c.(gold := p.c.gold + taken.0)), cmd);
  }

  lemma CagesReach(g: Game, id: nat, now: int, cmd: Command)
    requires id in g.players
    ensures OnlyNear(g, Free(g, id, now), id, cmd) && OnlyNear(g, Shelter(g, id, now), id, cmd)
  {
    hide OnlyNear, Settle, Rescue, FreeFromPit, WardenCleared, CagesReady;
    var p := g.players[id];
    SettledBeside(g, g, id, FreeFromPit(p), cmd);
    SettledBeside(g, g.(cellsAt := now + CAGE_REFILL, cellsFreed := g.cellsFreed + [now]), id, Rescue(p), cmd);
    SettledBeside(g, g.(transitAt := now + CAGE_REFILL, hubFreed := g.hubFreed + [now]), id, Rescue(p), cmd);
  }

  lemma VigilReaches(g: Game, id: nat, arg: string, cmd: Command)
    requires id in g.players
    ensures OnlyNear(g, Remember(g, id, arg), id, cmd)
  {
    hide OnlyNear, Settle, Witness, Mark, Has;
    var p := g.players[id];
    var i := IndexOf(NameIs(arg), g.fallen);
    SettledBeside(g, g, id, Stay(p), cmd);
    if i < |g.fallen| {
      SettledBeside(g, g.(kept := Mark(g.kept, p.c.name, g.fallen[i], MAX_KEPT)), id, Witness(p), cmd);
    }
  }

  lemma PlayReaches(g: Game, id: nat, cmd: Command, now: int)
    requires id in g.players && Store.Fits(g.players[id].c)
    ensures OnlyNear(g, Play(g, id, cmd, now), id, cmd)
  {
    hide OnlyNear, Settle, Own, Engage, Quarry, Forgive, Hand, Leave, Gather, Free, Shelter, Remember, Store.Fits;
    var p := g.players[id];
    match cmd
    case Attack(arg) => SettledAlone(g, id, Engage(p, Quarry(g, p, arg)), cmd);
    case ForgiveName(arg) => ForgiveReaches(g, id, arg);
    case Give(item, who) => HandReaches(g, id, item, who);
    case WitnessName(arg) => VigilReaches(g, id, arg, cmd);
    case FreeCaptive => CagesReach(g, id, now, cmd);
    case ShelterThem => CagesReach(g, id, now, cmd);
    case CacheGold(amount) => CoinReaches(g, id, amount, cmd);
    case GatherGold => CoinReaches(g, id, 0, cmd);
    case _ => SettledAlone(g, id, Own(p, g.tide, now, cmd), cmd);
  }

  /** One entry of the session table changes, if any. */
  ghost predicate OnlyOne(g: Game, h: Game, id: nat) {
    h.players.Keys == g.players.Keys && forall x :: x in g.players && x != id ==> h.players[x] == g.players[x]
  }

  lemma BlowsReach(g: Game, id: nat, m: nat, mob: Mob, now: int)
    requires id in g.players && m < |g.mobs|
    ensures OnlyOne(g, Kills(g, id, m, mob, now), id) && OnlyOne(g, Struck(g, id, m, mob), id)
  {
    hide Store.Save, Reknit, Buffers.Enroll;
  }

  lemma TickReaches(g: Game, id: nat, now: int)
    requires id in g.players
    ensures OnlyOne(g, Ticked(g, id, now), id)
  {
    hide Damage, MobInRoom, Kills, Struck, Store.Save, Rested, Clamp;
    var p := g.players[id];
    var m := MobInRoom(g.mobs, p.c.room, p.target);
    if m < |g.mobs| {
      BlowsReach(g, id, m, g.mobs[m].(hp := Floor0(g.mobs[m].hp - Damage(p.c))), now);
    }
  }

  /** Whose event it is, if it is anybody's. */
  predicate Its(e: Event, x: nat) {
    (e.Do? && e.id == x) || (e.Tick? && e.id == x) || (e.Answer? && e.id == x)
  }

  /** A gift or a word of forgiveness to somebody near. */
  predicate MeantFor(g: Game, e: Event, x: nat) {
    e.Do? && (e.cmd.Give? || e.cmd.ForgiveName?) && Nearby(g, e.id, x)
  }

  lemma ComersReachNobody(g: Game, id: nat, name: string, now: int, x: nat)
    requires Inv(g) && x in g.players
    ensures x in Named(g, name, now).players && Named(g, name, now).players[x] == g.players[x]
    ensures x in Picked(g, id, name, now).players && Picked(g, id, name, now).players[x] == g.players[x]
  {
    hide Inv, Store.Load, Store.Save, Store.ValidName, Store.Key, RACES, IsRoom, TickRespawns, Risen;
    NewIdIsNew(g);
    DraftsAreValid(g);
  }

  /** Nothing happens to a session but by its own commands, its own heartbeat and its own
   *  answer from the hub, except that somebody in its room may give to it or forgive it. */
  lemma NobodyElseIsReached(g: Game, e: Event, x: nat)
    requires Inv(g) && Possible(e) && x in g.players && x in Step(g, e).players && !Its(e, x)
    ensures Step(g, e).players[x] == g.players[x] || MeantFor(g, e, x)
  {
    hide Inv, Play, Ticked, Named, Picked, Respawned, Nearby, Store.Fits, Merge, TickRespawns, Risen, Filter,
      Store.Save, Hale, IsRoom;
    match e
    case Name(name, now) => ComersReachNobody(g, 0, name, now, x);
    case PickRace(id, race, now) => ComersReachNobody(g, id, race, now, x);
    case Do(id, cmd, now) =>
      if Acts(g, id) {
        SpawnMoves(g, now);
        LivesNow(g, id);
        PlayReaches(Respawned(g, now), id, cmd, now);
        NearStill(g, Respawned(g, now), id, x);
      }
    case Tick(id, now) =>
      if Acts(g, id) {
        SpawnMoves(g, now);
        TickReaches(Respawned(g, now), id, now);
      }
    case Answer(id, sheet, now) => AnswersReachNobody(g, id, sheet, now, x);
    case _ =>
  }

  lemma AnswersReachNobody(g: Game, id: nat, sheet: Option<Commits.Sheet>, now: int, x: nat)
    requires x in g.players && x != id
    ensures x in Answered(g, id, sheet, now).players && Answered(g, id, sheet, now).players[x] == g.players[x]
  {
    hide Merge, TickRespawns, Risen;
  }

  lemma NearStill(g: Game, h: Game, id: nat, x: nat)
    requires h.players == g.players
    ensures Nearby(h, id, x) <==> Nearby(g, id, x)
  {
  }
}
