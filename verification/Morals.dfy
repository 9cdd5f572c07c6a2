/** Morality's range over whole runs: which steps leave it, and no others do. */
module Morals {
  import opened Characters
  import opened Commands
  import opened Game
  import opened GameLaws
  import opened GameRuns
  import opened Sequences
  import opened Text
  import opened World
  import Buffers
  import Caches
  import Commits
  import Items
  import Store

  ghost predicate RangedPlayers(players: map<nat, Player>) {
    forall id :: id in players ==> InRange(players[id].c)
  }

  /** A document that reads back in range. */
  predicate RangedDoc(doc: Store.Doc) {
    MORALITY_FLOOR <= Store.NumberField(doc, Store.Morality, 0) <= MORALITY_CEIL
  }

  ghost predicate RangedRows(rows: map<string, Store.Row>) {
    forall k :: k in rows && rows[k].Record? ==> RangedDoc(rows[k].doc)
  }

  /** Every session and every record is in range. */
  ghost predicate Ranged(g: Game) {
    RangedPlayers(g.players) && RangedRows(g.rows)
  }

  /** The player does not begin a dose of dust that takes it below the floor. */
  predicate Careful(p: Player, cmd: Command) {
    cmd.UseItem? && UsesDust(p.c, cmd.arg) ==> p.c.morality >= MORALITY_FLOOR + 10
  }

  /** What keeps morality in its range: no dust below -90, and no hub sheet out of range. */
  predicate Mild(g: Game, e: Event) {
    match e
    case Do(id, cmd, now) => Acts(g, id) ==> Careful(g.players[id], cmd)
    case Answer(id, sheet, now) =>
      id in g.players && !g.players[id].playing && sheet.Some? ==> MORALITY_FLOOR <= sheet.value.morality <= MORALITY_CEIL
    case _ => true
  }

  // ------------------------------------------------------------- commands

  lemma OwnKeepsRangeIff(p: Player, tide: int, now: int, cmd: Command)
    requires InRange(p.c)
    ensures InRange(Own(p, tide, now, cmd).p.c) <==> Careful(p, cmd)
  {
    hide Lawful, Commands.Rest, Pose, Join, Defend, Defect, Buy, Sell, Use, Wield, Unwield, Steal, Recall, Go, Treat,
      Title, Ability, Scene, UsesDust;
    PosingIsLawful(p);
    match cmd
    case JoinFront => JoinIsLawful(p);
    case DefendThem => DefendIsLawful(p);
    case Defy => DefectIsLawful(p);
    case BuyItem(arg) => BuyIsLawful(p, arg);
    case SellItem(arg) => SellIsLawful(p, arg);
    case UseItem(arg) => UseBreaksTheFloorIff(p, arg);
    case WieldItem(arg) => WieldingIsLawful(p, arg);
    case RemoveItem(arg) => WieldingIsLawful(p, arg);
    case StealCoin => StealIsLawful(p);
    case GoHome => RecallIsLawful(p);
    case Walk(direction) => GoIsLawful(p, direction);
    case SeeMedic => TreatIsLawful(p, tide, now);
    case TakeTitle(arg) => NamingIsLawful(p, arg);
    case UseTrait(luck) => AbilityIsLawful(p, luck, now);
    case Look => SceneIsLawful(p);
    case _ =>
  }

  lemma SettledRangeIff(g: Game, id: nat, t: Turn)
    requires RangedPlayers(g.players) && id in g.players
    ensures RangedPlayers(Settle(g, id, t).players) <==> InRange(t.p.c)
  {
    hide InRange, Store.Save, Clamp;
    assert Settle(g, id, t).players[id] == t.p;
  }

  lemma InRangeNow(g: Game, id: nat)
    requires RangedPlayers(g.players) && id in g.players
    ensures InRange(g.players[id].c)
  {
  }

  lemma TwoSettledKeepRange(g: Game, a: nat, t: Turn, b: nat, u: Turn)
    requires RangedPlayers(g.players) && a in g.players && b in g.players && a != b && InRange(t.p.c) && InRange(u.p.c)
    ensures RangedPlayers(Settle(Settle(g, a, t), b, u).players)
  {
    hide RangedPlayers, InRange, Settle;
    SettledRangeIff(g, a, t);
    OthersStay(g, a, t, b);
    SettledRangeIff(Settle(g, a, t), b, u);
  }

  lemma ForgiveKeepsRange(g: Game, id: nat, arg: string)
    requires RangedPlayers(g.players) && id in g.players
    ensures RangedPlayers(Forgive(g, id, arg).players)
  {
    hide Lawful, RangedPlayers, InRange, Settle, Subject, Mark, Forgiven, Witness;
    var r := Subject(g, id, arg);
    if r.Some? {
      var other := r.value;
      var h := g.(forgiven := Mark(g.forgiven, g.players[id].c.name, g.players[other].c.name, MAX_FORGIVEN));
      InRangeNow(g, id);
      InRangeNow(g, other);
      ForgivenIsLawful(g.players[other]);
      NamingIsLawful(g.players[id], "");
      OthersStay(h, other, Forgiven(h.players[other]), id);
      TwoSettledKeepRange(h, other, Forgiven(h.players[other]), id, Witness(h.players[id]));
    }
  }

  lemma HandKeepsRange(g: Game, id: nat, item: string, who: string)
    requires RangedPlayers(g.players) && id in g.players
    ensures RangedPlayers(Hand(g, id, item, who).players)
  {
    hide RangedPlayers, Settle, Neighbour, FindInventory, AddItem, Without;
    var thing, n := FindInventory(g.players[id].c.inventory, item, Items.Name), Neighbour(g, id, who);
    if thing.Some? && n.Some? {
      var a, b := g.players[id], g.players[n.value];
      InRangeNow(g, id);
      InRangeNow(g, n.value);
      PacksSpareMorality(a.c, thing.value);
      PacksSpareMorality(b.c, thing.value);
      TwoSettledKeepRange(g, id, Saved(a, Without(a.c, thing.value)), n.value, Saved(b, AddItem(b.c, thing.value)));
    }
  }

  lemma RememberKeepsRange(g: Game, id: nat, arg: string)
    requires RangedPlayers(g.players) && id in g.players
    ensures RangedPlayers(Remember(g, id, arg).players)
  {
    hide Lawful, RangedPlayers, InRange, Settle, Mark, Has, Witness;
    InRangeNow(g, id);
    NamingIsLawful(g.players[id], "");
    var i := IndexOf(NameIs(arg), g.fallen);
    if i < |g.fallen| {
      SettledRangeIff(g.(kept := Mark(g.kept, g.players[id].c.name, g.fallen[i], MAX_KEPT)), id, Witness(g.players[id]));
    }
  }

  lemma PacksSpareMorality(c: Character, id: string)
    ensures AddItem(c, id).morality == c.morality == Without(c, id).morality
  {
  }

  lemma CagesKeepRange(g: Game, id: nat, now: int)
    requires RangedPlayers(g.players) && id in g.players
    ensures RangedPlayers(Free(g, id, now).players) && RangedPlayers(Shelter(g, id, now).players)
  {
    hide Lawful, RangedPlayers, InRange, Settle, Rescue, FreeFromPit, WardenCleared, CagesReady;
    InRangeNow(g, id);
    RescueIsLawful(g.players[id]);
    SettledRangeIff(g.(cellsAt := now + CAGE_REFILL, cellsFreed := g.cellsFreed + [now]), id, Rescue(g.players[id]));
    SettledRangeIff(g.(transitAt := now + CAGE_REFILL, hubFreed := g.hubFreed + [now]), id, Rescue(g.players[id]));
    SettledRangeIff(g, id, FreeFromPit(g.players[id]));
  }

  lemma CoinKeepsRange(g: Game, id: nat, amount: int)
    requires RangedPlayers(g.players) && id in g.players
    ensures RangedPlayers(Leave(g, id, amount).players) && RangedPlayers(Gather(g, id).players)
  {
    hide RangedPlayers, Settle, Caches.AddCache, Caches.TakeCache;
    InRangeNow(g, id);
    var p := g.players[id];
    var taken := Caches.TakeCache(g.caches, p.c.room);
    SettledRangeIff(g.(caches := Caches.AddCache(g.caches, p.c.room, amount)), id,
                    Saved(p, Shifted(p.c.(gold := p.c.gold - amount), 2)));
    SettledRangeIff(g.(caches := taken.1), id, Saved(p, p.c.(gold := p.c.gold + taken.0)));
  }

  lemma AttackKeepsRange(g: Game, id: nat, arg: string)
    requires RangedPlayers(g.players) && id in g.players
    ensures InRange(Engage(g.players[id], Quarry(g, g.players[id], arg)).p.c)
  {
    hide Quarry;
  }

  lemma SoberIsCareful(p: Player, cmd: Command)
    ensures !cmd.UseItem? ==> Careful(p, cmd)
  {
    hide UsesDust;
  }

  lemma ReachingKeepsRange(g: Game, id: nat, cmd: Command, now: int)
    requires RangedPlayers(g.players) && id in g.players && Reaches(cmd)
    ensures RangedPlayers(Play(g, id, cmd, now).players)
  {
    hide RangedPlayers, InRange, Forgive, Hand, Leave, Gather, Free, Shelter, Remember, Own, Settle, Engage, Quarry;
    match cmd
    case Attack(arg) =>
      AttackKeepsRange(g, id, arg);
      SettledRangeIff(g, id, Engage(g.players[id], Quarry(g, g.players[id], arg)));
    case ForgiveName(arg) => ForgiveKeepsRange(g, id, arg);
    case Give(item, who) => HandKeepsRange(g, id, item, who);
    case WitnessName(arg) => RememberKeepsRange(g, id, arg);
    case FreeCaptive => CagesKeepRange(g, id, now);
    case ShelterThem => CagesKeepRange(g, id, now);
    case CacheGold(amount) => CoinKeepsRange(g, id, amount);
    case GatherGold => CoinKeepsRange(g, id, 0);
  }

  lemma PlayKeepsRangeIff(g: Game, id: nat, cmd: Command, now: int)
    requires RangedPlayers(g.players) && id in g.players
    ensures RangedPlayers(Play(g, id, cmd, now).players) <==> Careful(g.players[id], cmd)
  {
    hide RangedPlayers, InRange, Careful, Own, Settle, Play;
    SoberIsCareful(g.players[id], cmd);
    if Reaches(cmd) {
      ReachingKeepsRange(g, id, cmd, now);
    } else {
      InRangeNow(g, id);
      OwnKeepsRangeIff(g.players[id], g.tide, now, cmd);
      SettledRangeIff(g, id, Own(g.players[id], g.tide, now, cmd));
      PlaysOwn(g, id, cmd, now);
    }
  }

  lemma ReknitSparesMorality(p: Player)
    ensures Reknit(p).c.morality == p.c.morality
  {
  }

  lemma BlowsSpareMorality(g: Game, id: nat, m: nat, mob: Mob, now: int)
    requires RangedPlayers(g.players) && id in g.players && m < |g.mobs|
    ensures RangedPlayers(Kills(g, id, m, mob, now).players) && RangedPlayers(Struck(g, id, m, mob).players)
  {
    hide RangedPlayers, Reknit, Store.Save, Buffers.Enroll;
    var p := g.players[id];
    InRangeNow(g, id);
    var hit := p.(c := p.c.(hp := p.c.hp - mob.damage));
    ReknitSparesMorality(hit);
    OneInRange(g.players, id, hit);
    OneInRange(g.players, id, Reknit(hit));
    OneInRange(g.players, id, p.(c := p.c.(xp := p.c.xp + mob.xp), target := ""));
  }

  lemma RoundKeepsRange(g: Game, id: nat, now: int)
    requires RangedPlayers(g.players) && id in g.players
    ensures RangedPlayers(CombatRound(g, id, now).players)
  {
    hide RangedPlayers, Kills, Struck, Damage, MobInRoom;
    InRangeNow(g, id);
    var p := g.players[id];
    OneInRange(g.players, id, p.(target := ""));
    var m := MobInRoom(g.mobs, p.c.room, p.target);
    if m < |g.mobs| {
      BlowsSpareMorality(g, id, m, g.mobs[m].(hp := Floor0(g.mobs[m].hp - Damage(p.c))), now);
    }
  }

  lemma OneInRange(players: map<nat, Player>, id: nat, p: Player)
    requires RangedPlayers(players) && InRange(p.c)
    ensures RangedPlayers(players[id := p])
  {
  }

  lemma TickKeepsRange(g: Game, id: nat, now: int)
    requires RangedPlayers(g.players) && id in g.players
    ensures RangedPlayers(Ticked(g, id, now).players)
  {
    hide Lawful, RangedPlayers, CombatRound, Settle, Rested;
    InRangeNow(g, id);
    RoundKeepsRange(g, id, now);
    RestedIsLawful(g.players[id]);
    SettledRangeIff(g, id, Rested(g.players[id]));
  }

  // -------------------------------------------------------------- one step

  lemma SavedIsRanged(c: Character)
    ensures RangedDoc(Store.ToDoc(c)) <==> InRange(c)
  {
    hide Store.NumberField, Store.ToDoc;
    Store.ValuesBack(c, c);
  }

  /** Rows written from sessions in range are in range. */
  lemma RowsStayRanged(was: map<string, Store.Row>, rows: map<string, Store.Row>, players: map<nat, Player>)
    requires RangedRows(was) && RangedPlayers(players) && Wrote(was, rows, players)
    ensures RangedRows(rows)
  {
    hide Store.ToDoc, RangedDoc, InRange;
    forall k | k in rows && rows[k].Record? ensures RangedDoc(rows[k].doc) {
      if !(k in was && rows[k] == was[k]) {
        var id :| id in players && players[id].playing && IsSaved(players[id].c, k, rows[k]);
        SavedIsRanged(players[id].c);
      }
    }
  }

  lemma EnteredKeepRange(g: Game, id: nat, c: Character, now: int)
    requires RangedPlayers(g.players) && InRange(c)
    ensures RangedPlayers(Enter(g, id, c, now).players)
  {
    hide TickRespawns, Risen, IsRoom;
  }

  lemma ComingKeepsRange(g: Game, id: nat, name: string, now: int)
    requires Ranged(g)
    ensures RangedPlayers(Named(g, name, now).players) && RangedPlayers(Picked(g, id, name, now).players)
  {
    hide Enter, RangedPlayers, Store.ValidName, RACES, Store.Save;
    if Store.Load(g.rows, name).Found? {
      LoadedIsRanged(g.rows, name);
      EnteredKeepRange(g.(nextId := g.nextId + 1), g.nextId, Store.Load(g.rows, name).c, now);
    }
    if id in g.drafts {
      var c := NewCharacter(g.drafts[id]).(race := name);
      EnteredKeepRange(g.(drafts := g.drafts - {id}, rows := Store.Save(g.rows, c)), id, c, now);
    }
  }

  lemma PickedRowsStayRanged(g: Game, id: nat, race: string, now: int)
    requires RangedRows(g.rows)
    ensures RangedRows(Picked(g, id, race, now).rows)
  {
    hide Store.ToDoc, RangedDoc, Store.ValidName, RACES, IsRoom, TickRespawns, Risen;
    if id in g.drafts {
      SavedIsRanged(NewCharacter(g.drafts[id]).(race := race));
    }
  }

  lemma LoadedIsRanged(rows: map<string, Store.Row>, name: string)
    requires RangedRows(rows) && Store.Load(rows, name).Found?
    ensures InRange(Store.Load(rows, name).c)
  {
    hide Store.TextField, Store.Carried, Store.FlagField, Store.NumberField;
    assert RangedDoc(rows[Store.Key(name).value].doc);
  }

  lemma AnswerKeepsRangeIff(g: Game, id: nat, sheet: Option<Commits.Sheet>, now: int)
    requires RangedPlayers(g.players)
    ensures RangedPlayers(Answered(g, id, sheet, now).players) <==> Mild(g, Answer(id, sheet, now))
  {
    hide TickRespawns, Risen;
    if id in g.players {
      assert id in Answered(g, id, sheet, now).players;
    }
  }

  lemma ClosedKeepsRange(g: Game, id: nat)
    requires Ranged(g)
    ensures Ranged(Closed(g, id))
  {
    hide Store.ToDoc, RangedDoc, InRange, Filter;
    if id in g.players {
      SavedIsRanged(g.players[id].c);
    }
  }

  lemma PlayersKeepRangeIff(g: Game, e: Event)
    requires Ranged(g)
    ensures RangedPlayers(Step(g, e).players) <==> Mild(g, e)
  {
    hide RangedPlayers, RangedRows, Named, Picked, Answered, Closed, Respawned, Play, Ticked, Careful;
    match e
    case Name(name, now) => ComingKeepsRange(g, 0, name, now);
    case PickRace(id, race, now) => ComingKeepsRange(g, id, race, now);
    case Answer(id, sheet, now) => AnswerKeepsRangeIff(g, id, sheet, now);
    case Do(id, cmd, now) =>
      SpawnMoves(g, now);
      if Acts(g, id) {
        PlayKeepsRangeIff(Respawned(g, now), id, cmd, now);
      }
    case Tick(id, now) =>
      SpawnMoves(g, now);
      if Acts(g, id) {
        TickKeepsRange(Respawned(g, now), id, now);
      }
    case Close(id) => ClosedKeepsRange(g, id);
    case _ =>
  }

  /** A step keeps every session and every record in range exactly when it is mild. */
  lemma StepKeepsRangeIff(g: Game, e: Event)
    requires Inv(g) && Ranged(g) && Possible(e)
    ensures Ranged(Step(g, e)) <==> Mild(g, e)
  {
    hide Inv, RangedPlayers, RangedRows, Mild, Closed, Named, Picked, Answered, Respawned, Play, Ticked, Wrote,
      Possible;
    PlayersKeepRangeIff(g, e);
    if e.Close? {
      ClosedKeepsRange(g, e.id);
    } else {
      StepKeeps(g, e);
      if e.PickRace? {
        PickedRowsStayRanged(g, e.id, e.race, e.now);
      } else if Mild(g, e) {
        RowsStayRanged(g.rows, Step(g, e).rows, Step(g, e).players);
      }
    }
  }

  // ------------------------------------------------------------- whole runs

  lemma LeadRangeIff(g: Game, e: Event, h: Game)
    requires Inv(g) && Ranged(g) && Leads(g, e, h)
    ensures Ranged(h) <==> Mild(g, e)
  {
    hide Inv, Ranged, Mild, Step, Possible;
    StepKeepsRangeIff(g, e);
  }

  ghost predicate AllMild(states: seq<Game>, es: seq<Event>) {
    |states| == |es| + 1 && forall i {:trigger es[i]} :: 0 <= i < |es| ==> Mild(states[i], es[i])
  }

  lemma AllMildIff(states: seq<Game>, es: seq<Event>)
    requires |states| == |es| + 1 && es != []
    ensures AllMild(states, es) <==> AllMild(Init(states), Init(es)) && Mild(Last(Init(states)), Last(es))
  {
    hide Mild;
    if AllMild(Init(states), Init(es)) && Mild(Last(Init(states)), Last(es)) {
      forall i | 0 <= i < |es| ensures Mild(states[i], es[i]) {
        assert i < |es| - 1 ==> es[i] == Init(es)[i];
      }
    }
    if AllMild(states, es) {
      assert Mild(states[|es| - 1], es[|es| - 1]);
      forall i | 0 <= i < |es| - 1 ensures Mild(Init(states)[i], Init(es)[i]) {
        assert Mild(states[i], es[i]);
      }
    }
  }

  ghost predicate AllRanged(states: seq<Game>) {
    forall g :: g in states ==> Ranged(g)
  }

  lemma AllRangedIff(states: seq<Game>)
    requires |states| > 1
    ensures AllRanged(states) <==> AllRanged(Init(states)) && Ranged(Last(states))
    ensures AllRanged(Init(states)) ==> Ranged(Last(Init(states)))
  {
    hide Ranged;
    assert forall g :: g in states <==> g in Init(states) || g == Last(states);
  }

  lemma {:induction false} RunRangeIff(states: seq<Game>, es: seq<Event>)
    requires Runs(states, es) && Inv(states[0]) && Ranged(states[0])
    ensures AllRanged(states) <==> AllMild(states, es)
    decreases |es|
  {
    hide Inv, Ranged, Mild, Leads, Runs, AllMild, AllRanged;
    SomeState(states, es);
    if es == [] {
      NoStep(states, es);
      NothingHappens(states, es);
    } else {
      LastStep(states, es);
      StateCount(states, es);
      RunRangeIff(Init(states), Init(es));
      RunKeeps(Init(states), Init(es));
      AllMildIff(states, es);
      AllRangedIff(states);
      if AllRanged(Init(states)) {
        LeadRangeIff(Last(Init(states)), Last(es), Last(states));
      }
    }
  }

  lemma NothingHappens(states: seq<Game>, es: seq<Event>)
    requires es == [] && |states| == 1 && Ranged(states[0])
    ensures AllRanged(states) && AllMild(states, es)
  {
    hide Ranged, Mild;
  }

  lemma StateCount(states: seq<Game>, es: seq<Event>)
    requires Runs(states, es)
    ensures |states| == |es| + 1
  {
    hide Leads;
  }

  /** On a store in range, every session and every record is in range at every point of a
   *  run exactly when every step of the run is mild. */
  lemma MoralityStaysInRangeIff(states: seq<Game>, es: seq<Event>)
    requires Served(states, es) && states != [] && RangedRows(states[0].rows)
    ensures (forall g :: g in states ==> RangedPlayers(g.players) && RangedRows(g.rows))
            <==> (forall i :: 0 <= i < |es| ==> i < |states| && Mild(states[i], es[i]))
  {
    hide Inv, Mild, Runs, RangedRows, Sturdy, Start;
    var federated, rows :| Sturdy(rows) && states[0] == Start(federated, rows);
    StartKeeps(federated, rows);
    StartIsEmpty(federated, rows);
    StateCount(states, es);
    RunRangeIff(states, es);
  }

  lemma StartIsEmpty(federated: bool, rows: map<string, Store.Row>)
    ensures Start(federated, rows).players == map[] && Start(federated, rows).rows == rows
  {
    hide Seed;
  }
}
