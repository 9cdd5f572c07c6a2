/** What every step of the game keeps, whoever acts and whatever the clocks say. */
module GameLaws {
  import opened Caches
  import opened Characters
  import opened Commands
  import opened Game
  import opened Sequences
  import opened Text
  import opened World
  import Buffers
  import Commits
  import Items
  import Store

  /** The session list names each session once, and all of them. */
  ghost predicate Roster(players: map<nat, Player>, order: seq<nat>, nextId: nat) {
    && Distinct(order)
    && (forall id :: id in order <==> id in players)
    && (forall id :: id in players ==> id < nextId)
  }

  /** Those who choose a life are known under good names, and do not play yet. */
  ghost predicate Drafted(drafts: map<nat, string>, players: map<nat, Player>, nextId: nat) {
    forall id :: id in drafts ==> id < nextId && id !in players && Store.ValidName(drafts[id])
  }

  /** Everybody stands somewhere, on at least one hit point and at most all of them,
   *  with a pack of at most eight things and every text within its buffer. */
  ghost predicate Living(players: map<nat, Player>) {
    forall id :: id in players ==> Hale(players[id].c) && IsRoom(players[id].c.room) && Store.Fits(players[id].c)
  }

  /** A target names a creature that belongs in the player's room. */
  ghost predicate AimsAt(p: Player, mobs: seq<Mob>) {
    p.target != "" ==>
      p.playing && exists m :: 0 <= m < |mobs| && mobs[m].room == p.c.room && SameName(mobs[m].id, p.target)
  }

  ghost predicate Aiming(players: map<nat, Player>, mobs: seq<Mob>) {
    forall id :: id in players ==> AimsAt(players[id], mobs)
  }

  /** Cages are emptied a refill apart, and stand empty for a refill. */
  ghost predicate Spaced(times: seq<int>, at: int) {
    && at == (if times == [] then 0 else Last(times) + CAGE_REFILL)
    && (forall i :: 0 <= i < |times| ==> 0 < times[i])
    && (forall i, j :: 0 <= i < j < |times| ==> times[i] + CAGE_REFILL <= times[j])
  }

  /** Every record reads back as somebody who could be living. */
  ghost predicate Sturdy(rows: map<string, Store.Row>) {
    forall k :: k in rows && rows[k].Record? ==> SturdyDoc(rows[k].doc)
  }

  ghost predicate SturdyDoc(doc: Store.Doc) {
    forall name :: Hale(Store.FromDoc(doc, name))
  }

  function KillOf(m: nat): Kill -> bool {
    (k: Kill) => k.mob == m
  }

  /** Deaths and respawns alternate; what never respawns never did. */
  ghost predicate Counted(mobs: seq<Mob>, kills: seq<Kill>, revived: seq<nat>) {
    && |revived| == |mobs|
    && (forall m :: 0 <= m < |mobs| ==> Count(KillOf(m), kills) == revived[m] + if mobs[m].alive then 0 else 1)
    && (forall m :: 0 <= m < |mobs| && mobs[m].respawnMs <= 0 ==> revived[m] == 0)
    && (forall k :: k in kills ==> k.mob < |mobs| && k.xp == mobs[k.mob].xp)
  }

  /** What a session's killing blows have taught it. */
  function Lessons(kills: seq<Kill>, id: nat): int {
    if kills == [] then 0
    else Lessons(Init(kills), id) + if Last(kills).killer == id then Last(kills).xp else 0
  }

  /** Experience is what one brought into play and what one's own kills gave. */
  ghost predicate Taught(players: map<nat, Player>, kills: seq<Kill>) {
    forall id :: id in players ==>
      if players[id].playing then players[id].c.xp == players[id].baseXp + Lessons(kills, id)
      else Lessons(kills, id) == 0
  }

  /** Nobody strikes before arriving. */
  ghost predicate Known(kills: seq<Kill>, nextId: nat) {
    forall k :: k in kills ==> k.killer < nextId
  }

  ghost predicate Untried(drafts: map<nat, string>, kills: seq<Kill>) {
    forall id :: id in drafts ==> Lessons(kills, id) == 0
  }

  /** A return is announced for the redeemed, never for the ash-sworn or the Front's. */
  ghost predicate Earned(pardons: seq<Character>) {
    forall c :: c in pardons ==> c.redeemed && c.strayed && !c.ashsworn && c.faction != "front" && c.title != ""
  }

  /** The tide as a fold: every push saturates on its own. */
  function Tide(deltas: seq<int>): (r: int)
    ensures TIDE_FLOOR <= r <= TIDE_CEIL
  {
    if deltas == [] then 0 else Clamp(Tide(Init(deltas)) + Last(deltas), TIDE_FLOOR, TIDE_CEIL)
  }

  ghost predicate Tidal(federated: bool, tide: int, deltas: seq<int>) {
    !federated ==> tide == Tide(deltas)
  }

  /** No pair of names stands in a table twice, under any spelling. */
  ghost predicate Paired(pairs: seq<Pair>, cap: nat) {
    && |pairs| <= cap
    && (forall i, j :: 0 <= i < j < |pairs| ==>
          !(SameName(pairs[i].who, pairs[j].who) && SameName(pairs[i].whom, pairs[j].whom)))
  }

  ghost predicate Inv(g: Game) {
    && Roster(g.players, g.order, g.nextId) && Living(g.players) && Sturdy(g.rows)
    && Peopled(g.mobs) && Caches.Kept(g.caches)
    && Counted(g.mobs, g.kills, g.revived) && Taught(g.players, g.kills) && Known(g.kills, g.nextId)
    && Earned(g.pardons) && Tidal(g.federated, g.tide, g.deltas)
    && Paired(g.forgiven, MAX_FORGIVEN) && Paired(g.kept, MAX_KEPT)
    && Drafted(g.drafts, g.players, g.nextId) && Untried(g.drafts, g.kills)
    && Aiming(g.players, g.mobs) && Spaced(g.cellsFreed, g.cellsAt) && Spaced(g.hubFreed, g.transitAt)
  }

  // ------------------------------------------------------- the components

  lemma SavedIsSturdy(c: Character)
    requires Hale(c)
    ensures SturdyDoc(Store.ToDoc(c))
  {
    hide Store.ToDoc;
    forall name ensures Hale(Store.FromDoc(Store.ToDoc(c), name)) {
      Store.ValuesBack(c, NewCharacter(name));
    }
  }

  lemma SaveKeeps(rows: map<string, Store.Row>, c: Character)
    requires Sturdy(rows) && Hale(c)
    ensures Sturdy(Store.Save(rows, c))
  {
    hide SturdyDoc;
    SavedIsSturdy(c);
  }

  lemma LoadIsHale(rows: map<string, Store.Row>, name: string)
    requires Sturdy(rows) && Store.Load(rows, name).Found?
    ensures Hale(Store.Load(rows, name).c) && Store.Fits(Store.Load(rows, name).c)
  {
    hide Store.FromDoc, Hale, Store.Fits;
    Store.ReadFits(rows[Store.Key(name).value].doc, name);
  }

  lemma MarkKeeps(pairs: seq<Pair>, who: string, whom: string, cap: nat)
    requires Paired(pairs, cap)
    ensures Paired(Mark(pairs, who, whom, cap), cap)
  {
    if !Has(pairs, who, whom) && |pairs| < cap {
      forall i | 0 <= i < |pairs| ensures !(SameName(pairs[i].who, who) && SameName(pairs[i].whom, whom)) {
        assert !PairIs(who, whom)(pairs[i]);
      }
    }
  }

  lemma RisenKeeps(mobs: seq<Mob>, kills: seq<Kill>, revived: seq<nat>, now: int)
    requires Counted(mobs, kills, revived)
    ensures Counted(TickRespawns(mobs, now), kills, Risen(mobs, revived, now))
  {
  }

  /** What creatures are and where they belong never changes. */
  ghost predicate SameKinds(mobs: seq<Mob>, now: seq<Mob>) {
    |now| == |mobs| && forall m :: 0 <= m < |mobs| ==> SameKind(now[m], mobs[m])
  }

  lemma AimingKeeps(players: map<nat, Player>, mobs: seq<Mob>, now: seq<Mob>)
    requires Aiming(players, mobs) && SameKinds(mobs, now)
    ensures Aiming(players, now)
  {
    forall id | id in players && players[id].target != "" ensures AimsAt(players[id], now) {
      assert AimsAt(players[id], mobs);
      var m :| 0 <= m < |mobs| && mobs[m].room == players[id].c.room && SameName(mobs[m].id, players[id].target);
      assert SameKind(now[m], mobs[m]);
    }
  }

  lemma RespawnedKeeps(g: Game, now: int)
    requires Inv(g)
    ensures Inv(Respawned(g, now))
  {
    hide Roster, Living, Sturdy, Counted, Taught, Known, Earned, Tidal, Paired, Drafted, Aiming, Spaced, Untried,
      Peopled, Caches.Kept;
    RisenKeeps(g.mobs, g.kills, g.revived, now);
    TickKeeps(g.mobs, now);
    AimingKeeps(g.players, g.mobs, TickRespawns(g.mobs, now));
  }

  /** What Inv asks of one player. */
  ghost predicate Alright(p: Player, mobs: seq<Mob>) {
    Hale(p.c) && IsRoom(p.c.room) && Store.Fits(p.c) && AimsAt(p, mobs)
  }

  /** A player replaced by another who is alright, with the same lessons. */
  lemma PlayerKeeps(g: Game, id: nat, p: Player)
    requires Roster(g.players, g.order, g.nextId) && Drafted(g.drafts, g.players, g.nextId)
    requires Living(g.players) && Taught(g.players, g.kills) && Aiming(g.players, g.mobs)
    requires id in g.players && Alright(p, g.mobs)
    requires p.playing == g.players[id].playing && p.baseXp == g.players[id].baseXp && p.c.xp == g.players[id].c.xp
    ensures Roster(g.players[id := p], g.order, g.nextId) && Drafted(g.drafts, g.players[id := p], g.nextId)
    ensures Living(g.players[id := p]) && Taught(g.players[id := p], g.kills) && Aiming(g.players[id := p], g.mobs)
  {
    hide Hale, IsRoom, Lessons, Store.Fits, AimsAt, Store.ValidName;
  }

  lemma TideKeeps(federated: bool, tide: int, deltas: seq<int>, delta: int)
    requires Tidal(federated, tide, deltas)
    ensures Tidal(federated, Clamp(tide + delta, TIDE_FLOOR, TIDE_CEIL), deltas + [delta])
  {
    assert Init(deltas + [delta]) == deltas;
  }

  lemma LawfulFacts(p: Player, t: Turn, mobs: seq<Mob>)
    requires Lawful(p, t) && Alright(p, mobs)
    ensures Alright(t.p, mobs)
    ensures t.p.playing == p.playing && t.p.baseXp == p.baseXp && t.p.c.xp == p.c.xp
    ensures t.returned ==> Earned([t.p.c])
  {
    hide IsRoom, Hale, Store.Fits;
  }

  lemma EarnedMore(pardons: seq<Character>, c: Character)
    requires Earned(pardons) && Earned([c])
    ensures Earned(pardons + [c])
  {
    assert c in [c];
  }

  lemma LivesThere(g: Game, id: nat)
    requires Living(g.players) && Aiming(g.players, g.mobs) && id in g.players
    ensures Alright(g.players[id], g.mobs)
  {
    hide Hale, IsRoom, Store.Fits, AimsAt;
  }

  /** Whatever a lawful turn changed, writing it back keeps the game whole. */
  lemma SettleKeeps(g: Game, id: nat, t: Turn)
    requires Inv(g) && id in g.players && Lawful(g.players[id], t)
    ensures Inv(Settle(g, id, t))
  {
    hide Roster, Living, Sturdy, Counted, Taught, Known, Earned, Tidal, Paired, Drafted, Aiming, Spaced, Untried,
      Peopled, Caches.Kept,
      Alright, Lawful, Hale, IsRoom, Store.Fits, Store.Save, Clamp;
    LivesThere(g, id);
    LawfulFacts(g.players[id], t, g.mobs);
    PlayerKeeps(g, id, t.p);
    AlrightIsHale(t.p, g.mobs);
    SaveKeeps(g.rows, t.p.c);
    TideKeeps(g.federated, g.tide, g.deltas, t.tide);
    if t.returned {
      EarnedMore(g.pardons, t.p.c);
    }
  }

  lemma AlrightIsHale(p: Player, mobs: seq<Mob>)
    requires Alright(p, mobs)
    ensures Hale(p.c) && IsRoom(p.c.room) && Store.Fits(p.c)
  {
    hide Hale, IsRoom, Store.Fits, AimsAt;
  }

  // ------------------------------------------------------------- commands

  lemma OwnIsLawful(p: Player, tide: int, now: int, cmd: Command)
    ensures Lawful(p, Own(p, tide, now, cmd))
  {
    hide Lawful, Commands.Rest, Pose, Join, Defend, Defect, Buy, Sell, Use, Wield, Unwield, Steal, Recall, Go, Treat,
      Title, Ability, Scene;
    PosingIsLawful(p);
    match cmd
    case JoinFront => JoinIsLawful(p);
    case DefendThem => DefendIsLawful(p);
    case Defy => DefectIsLawful(p);
    case BuyItem(arg) => BuyIsLawful(p, arg);
    case SellItem(arg) => SellIsLawful(p, arg);
    case UseItem(arg) => UseIsLawful(p, arg);
    case WieldItem(arg) => WieldingIsLawful(p, arg);
    case RemoveItem(arg) => WieldingIsLawful(p, arg);
    case StealCoin => StealIsLawful(p);
    case GoHome => RecallIsLawful(p);
    case Walk(direction) => GoIsLawful(p, direction);
    case SeeMedic => TreatIsLawful(p, tide, now);
    case TakeTitle(arg) => NamingIsLawful(p, arg);
    case UseTrait(luck) => AbilityIsLawful(p, luck, now);
    case Look => SceneIsLawful(p);
    case Travel(_) => SavingIsLawful(p);
    case _ =>
  }

  lemma SavingIsLawful(p: Player)
    ensures Lawful(p, Saved(p, p.c))
  {
    hide IsRoom;
  }

  // --------------------------------------------------- what a step may do

  /** One session across one step: its marks stay, the name stays, play is not
   *  left, a choice once made stays made, nothing happens to those who wait for the hub, and a fight that goes on
   *  goes on with the same quarry in the same room. */
  ghost predicate Continues(p: Player, q: Player) {
    && Onward(p.c, q.c) && q.c.name == p.c.name && (p.playing ==> q.playing)
    && (!p.playing && !q.playing ==> q == p) && (p.resolved ==> q.resolved) && q.c.maxHp == p.c.maxHp
    && (p.playing ==> q.c.level == p.c.level && q.baseXp == p.baseXp && p.c.xp <= q.c.xp)
    && (p.target != "" && q.target != "" ==> q.target == p.target && q.c.room == p.c.room)
  }

  /** The row is what saving that character puts under its key. */
  ghost predicate IsSaved(c: Character, k: string, row: Store.Row) {
    Store.Key(c.name) == Some(k) && row == Store.Record(Store.ToDoc(c))
  }

  /** Every row is the old one, or holds a playing session as it now is. */
  ghost predicate Wrote(was: map<string, Store.Row>, rows: map<string, Store.Row>, players: map<nat, Player>) {
    && (forall k :: k in was ==> k in rows)
    && forall k :: k in rows ==>
         (k in was && rows[k] == was[k]) || exists id :: id in players && players[id].playing && IsSaved(players[id].c, k, rows[k])
  }

  /** The same sessions, each continued, and the store holding nothing but them. */
  ghost predicate Moved(g: Game, h: Game) {
    && h.drafts == g.drafts && h.players.Keys == g.players.Keys && h.order == g.order && h.nextId == g.nextId
    && (forall id :: id in g.players ==> Continues(g.players[id], h.players[id]))
    && Wrote(g.rows, h.rows, h.players)
  }

  lemma NothingWritten(rows: map<string, Store.Row>, players: map<nat, Player>)
    ensures Wrote(rows, rows, players)
  {
    hide IsSaved;
  }

  lemma OneWritten(rows: map<string, Store.Row>, players: map<nat, Player>, id: nat)
    requires id in players && players[id].playing
    ensures Wrote(rows, Store.Save(rows, players[id].c), players)
  {
    hide Store.ToDoc;
    var c := players[id].c;
    forall k | k in Store.Save(rows, c) && !(k in rows && Store.Save(rows, c)[k] == rows[k])
      ensures exists x :: x in players && players[x].playing && IsSaved(players[x].c, k, Store.Save(rows, c)[k])
    {
      assert IsSaved(players[id].c, k, Store.Save(rows, c)[k]);
    }
  }

  lemma TwoWritten(rows: map<string, Store.Row>, players: map<nat, Player>, a: nat, b: nat)
    requires a in players && b in players && players[a].playing && players[b].playing
    ensures Wrote(rows, Store.Save(Store.Save(rows, players[a].c), players[b].c), players)
  {
    hide Store.ToDoc;
    var c, d := players[a].c, players[b].c;
    var r := Store.Save(Store.Save(rows, c), d);
    forall k | k in r && !(k in rows && r[k] == rows[k])
      ensures exists x :: x in players && players[x].playing && IsSaved(players[x].c, k, r[k])
    {
      assert IsSaved(players[b].c, k, r[k]) || IsSaved(players[a].c, k, r[k]);
    }
  }

  lemma StaysTheSame(players: map<nat, Player>)
    ensures forall id :: id in players ==> Continues(players[id], players[id])
  {
  }

  lemma LawfulContinues(p: Player, t: Turn)
    requires Lawful(p, t) && IsRoom(p.c.room) && p.playing
    ensures Continues(p, t.p) && t.p.playing
  {
    hide IsRoom;
  }

  /** One settled turn, as a step of the game. */
  lemma TurnKeeps(g: Game, id: nat, t: Turn)
    requires Inv(g) && id in g.players && g.players[id].playing && Lawful(g.players[id], t)
    ensures Inv(Settle(g, id, t)) && Moved(g, Settle(g, id, t)) && t.p.playing
  {
    hide Inv, Continues, Lawful, IsRoom, Store.Save, Clamp, Wrote, Store.Fits;
    StaysTheSame(g.players);
    TablesAreSound(g);
    LawfulContinues(g.players[id], t);
    SettleKeeps(g, id, t);
    NothingWritten(g.rows, g.players[id := t.p]);
    OneWritten(g.rows, g.players[id := t.p], id);
  }

  /** Two turns of different players, one after the other, both saved. */
  lemma TwoTurnsKeep(g: Game, a: nat, t: Turn, b: nat, u: Turn)
    requires Inv(g) && a in g.players && b in g.players && a != b && t.saved && u.saved
    requires g.players[a].playing && g.players[b].playing && Lawful(g.players[a], t) && Lawful(g.players[b], u)
    ensures Inv(Settle(Settle(g, a, t), b, u)) && Moved(g, Settle(Settle(g, a, t), b, u))
  {
    hide Inv, Continues, Lawful, Store.Save, Clamp, Wrote;
    TurnKeeps(g, a, t);
    TurnKeeps(Settle(g, a, t), b, u);
    TwoWritten(g.rows, g.players[a := t.p][b := u.p], a, b);
  }

  lemma TablesKeep(g: Game, h: Game)
    requires Inv(g)
    requires h == g.(caches := h.caches, forgiven := h.forgiven, kept := h.kept, cellsAt := h.cellsAt, transitAt := h.transitAt,
                     cellsFreed := h.cellsFreed, hubFreed := h.hubFreed)
    requires Caches.Kept(h.caches) && Paired(h.forgiven, MAX_FORGIVEN) && Paired(h.kept, MAX_KEPT)
    requires Spaced(h.cellsFreed, h.cellsAt) && Spaced(h.hubFreed, h.transitAt)
    ensures Inv(h)
  {
    hide Roster, Living, Sturdy, Counted, Taught, Known, Earned, Tidal, Paired, Drafted, Aiming, Spaced, Untried,
      Peopled, Caches.Kept;
  }

  lemma SameSessions(g: Game, h: Game)
    requires h.drafts == g.drafts && h.players == g.players && h.order == g.order && h.nextId == g.nextId
            && h.rows == g.rows
    ensures Moved(g, h)
    ensures forall k :: Moved(h, k) ==> Moved(g, k)
  {
    hide Continues, Wrote;
    StaysTheSame(g.players);
    NothingWritten(g.rows, g.players);
  }

  /** A turn that also touches the tables. */
  lemma SideTurnKeeps(g: Game, h: Game, id: nat, t: Turn)
    requires Inv(g)
    requires h == g.(caches := h.caches, forgiven := h.forgiven, kept := h.kept, cellsAt := h.cellsAt, transitAt := h.transitAt,
                     cellsFreed := h.cellsFreed, hubFreed := h.hubFreed)
    requires Caches.Kept(h.caches) && Paired(h.forgiven, MAX_FORGIVEN) && Paired(h.kept, MAX_KEPT)
    requires Spaced(h.cellsFreed, h.cellsAt) && Spaced(h.hubFreed, h.transitAt)
    requires id in g.players && g.players[id].playing && Lawful(g.players[id], t)
    ensures Inv(h) && Moved(g, h)
    ensures Inv(Settle(h, id, t)) && Moved(g, Settle(h, id, t))
  {
    hide Inv, Moved, Lawful, Settle, Paired, Spaced, Caches.Kept;
    TablesKeep(g, h);
    TurnKeeps(h, id, t);
    SameSessions(g, h);
  }

  /** The tables of a sound game are sound. */
  lemma TablesAreSound(g: Game)
    requires Inv(g)
    ensures Caches.Kept(g.caches) && Paired(g.forgiven, MAX_FORGIVEN) && Paired(g.kept, MAX_KEPT)
    ensures Spaced(g.cellsFreed, g.cellsAt) && Spaced(g.hubFreed, g.transitAt)
    ensures forall id :: id in g.players ==> IsRoom(g.players[id].c.room) && Store.Fits(g.players[id].c)
  {
    hide Caches.Kept, Paired, Spaced, IsRoom, Store.Fits, Hale;
  }

  /** An attack turns a player on a creature of the room and changes nothing else of the game. */
  lemma AttackKeeps(g: Game, id: nat, arg: string)
    requires Inv(g) && id in g.players && g.players[id].playing
    ensures var h := Settle(g, id, Engage(g.players[id], Quarry(g, g.players[id], arg))); Inv(h) && Moved(g, h)
  {
    hide Roster, Living, Sturdy, Counted, Taught, Known, Earned, Tidal, Paired, Drafted, Aiming, Spaced, Untried,
      Peopled, Caches.Kept,
      Alright, Quarry, Continues, Wrote, Clamp, Store.Save;
    var p := g.players[id];
    var q := Engage(p, Quarry(g, p, arg)).p;
    LivesThere(g, id);
    EngageIsAlright(g, p, arg);
    PlayerKeeps(g, id, q);
    OneContinues(g, g.(players := g.players[id := q]), id, q);
  }

  lemma EngageIsAlright(g: Game, p: Player, arg: string)
    requires Alright(p, g.mobs) && p.playing
    ensures Alright(Engage(p, Quarry(g, p, arg)).p, g.mobs) && Continues(p, Engage(p, Quarry(g, p, arg)).p)
    ensures var q := Engage(p, Quarry(g, p, arg)).p; q.playing == p.playing && q.baseXp == p.baseXp && q.c.xp == p.c.xp
  {
    hide IsRoom;
    var q := Engage(p, Quarry(g, p, arg)).p;
    if q.target != p.target {
      var m := MobInRoom(g.mobs, p.c.room, arg);
      assert g.mobs[m].room == q.c.room && g.mobs[m].id == q.target;
    }
  }

  lemma ForgiveKeeps(g: Game, id: nat, arg: string)
    requires Inv(g) && id in g.players && g.players[id].playing
    ensures Inv(Forgive(g, id, arg)) && Moved(g, Forgive(g, id, arg))
  {
    hide Inv, Moved, Lawful, Settle, Subject, Mark, Witness, Forgiven, Paired, Drafted, Aiming, Spaced, Untried,
      Caches.Kept;
    SameSessions(g, g);
    var r := Subject(g, id, arg);
    if r.Some? {
      var a, b := g.players[id].c.name, g.players[r.value].c.name;
      var h := g.(forgiven := Mark(g.forgiven, a, b, MAX_FORGIVEN));
      TablesAreSound(g);
      MarkKeeps(g.forgiven, a, b, MAX_FORGIVEN);
      TablesKeep(g, h);
      SameSessions(g, h);
      ForgivenIsLawful(h.players[r.value]);
      NamingIsLawful(h.players[id], "");
      ForgivingSaves(h.players[r.value]);
      ForgivingSaves(h.players[id]);
      OthersStay(h, r.value, Forgiven(h.players[r.value]), id);
      TwoTurnsKeep(h, r.value, Forgiven(h.players[r.value]), id, Witness(h.players[id]));
    }
  }

  lemma ForgivingSaves(p: Player)
    ensures Forgiven(p).saved && Witness(p).saved
  {
  }

  lemma OthersStay(g: Game, id: nat, t: Turn, other: nat)
    requires other in g.players && other != id
    ensures other in Settle(g, id, t).players && Settle(g, id, t).players[other] == g.players[other]
  {
    hide Store.Save, Clamp;
  }

  lemma GivingIsLawful(p: Player, c: Character)
    requires c == p.c.(inventory := c.inventory) && (Store.Fits(p.c) ==> Store.Fits(c))
    ensures Lawful(p, Saved(p, c))
  {
    hide IsRoom;
  }

  lemma PacksFit(a: Character, b: Character, id: string)
    ensures Store.Fits(a) ==> Store.Fits(Without(a, id))
    ensures Store.Fits(b) ==> Store.Fits(AddItem(b, id))
  {
  }

  lemma HandKeeps(g: Game, id: nat, item: string, who: string)
    requires Inv(g) && id in g.players && g.players[id].playing
    ensures Inv(Hand(g, id, item, who)) && Moved(g, Hand(g, id, item, who))
  {
    hide Continues, Lawful, Neighbour, FindInventory, Inv;
    StaysTheSame(g.players);
    var thing := FindInventory(g.players[id].c.inventory, item, Items.Name);
    var n := Neighbour(g, id, who);
    if thing.Some? && n.Some? {
      var a, b := g.players[id], g.players[n.value];
      PacksFit(a.c, b.c, thing.value);
      GivingIsLawful(a, Without(a.c, thing.value));
      GivingIsLawful(b, AddItem(b.c, thing.value));
      hide Without, AddItem;
      TwoTurnsKeep(g, id, Saved(a, Without(a.c, thing.value)), n.value, Saved(b, AddItem(b.c, thing.value)));
    }
  }

  lemma CoinIsLawful(p: Player, gold: int)
    ensures Lawful(p, Saved(p, Shifted(p.c.(gold := gold), 2))) && Lawful(p, Saved(p, p.c.(gold := gold)))
  {
    hide IsRoom;
  }

  lemma LeaveKeeps(g: Game, id: nat, amount: int)
    requires Inv(g) && id in g.players && g.players[id].playing
    ensures Inv(Leave(g, id, amount)) && Moved(g, Leave(g, id, amount))
  {
    hide Inv, Moved, Lawful, Settle, AddCache, Caches.Kept, Paired, Drafted, Aiming, Spaced, Untried, Shifted, IsRoom;
    TablesAreSound(g);
    SameSessions(g, g);
    var p := g.players[id];
    if amount >= 1 {
      AddKeeps(g.caches, p.c.room, amount);
      CoinIsLawful(p, p.c.gold - amount);
      SideTurnKeeps(g, g.(caches := AddCache(g.caches, p.c.room, amount)), id,
                    Saved(p, Shifted(p.c.(gold := p.c.gold - amount), 2)));
    }
  }

  lemma GatherKeeps(g: Game, id: nat)
    requires Inv(g) && id in g.players && g.players[id].playing
    ensures Inv(Gather(g, id)) && Moved(g, Gather(g, id))
  {
    hide Inv, Moved, Lawful, Settle, TakeCache, Caches.Kept, Paired, Drafted, Aiming, Spaced, Untried, Shifted,
      IsRoom, Cached;
    TablesAreSound(g);
    var p := g.players[id];
    var taken := TakeCache(g.caches, p.c.room);
    Caches.TakeKeeps(g.caches, p.c.room);
    CoinIsLawful(p, p.c.gold + taken.0);
    SideTurnKeeps(g, g.(caches := taken.1), id, Saved(p, p.c.(gold := p.c.gold + taken.0)));
  }

  lemma SpacedMore(times: seq<int>, at: int, now: int)
    requires Spaced(times, at) && CagesReady(at, now) && now > 0
    ensures Spaced(times + [now], now + CAGE_REFILL)
  {
  }

  lemma CellsKeep(g: Game, id: nat, now: int)
    requires Inv(g) && id in g.players && g.players[id].playing && now > 0 && CagesReady(g.cellsAt, now)
    ensures var h := Settle(g.(cellsAt := now + CAGE_REFILL, cellsFreed := g.cellsFreed + [now]), id, Rescue(g.players[id]));
            Inv(h) && Moved(g, h)
  {
    hide Inv, Moved, Lawful, Settle, Rescue, Caches.Kept, Paired, Spaced, CagesReady;
    TablesAreSound(g);
    RescueIsLawful(g.players[id]);
    SpacedMore(g.cellsFreed, g.cellsAt, now);
    SideTurnKeeps(g, g.(cellsAt := now + CAGE_REFILL, cellsFreed := g.cellsFreed + [now]), id, Rescue(g.players[id]));
  }

  lemma FreeKeeps(g: Game, id: nat, now: int)
    requires Inv(g) && id in g.players && g.players[id].playing && now > 0
    ensures Inv(Free(g, id, now)) && Moved(g, Free(g, id, now))
  {
    hide Inv, Moved, Lawful, Settle, Rescue, FreeFromPit, WardenCleared, CagesReady;
    SameSessions(g, g);
    RescueIsLawful(g.players[id]);
    if CagesReady(g.cellsAt, now) {
      CellsKeep(g, id, now);
    }
    TurnKeeps(g, id, FreeFromPit(g.players[id]));
  }

  lemma ShelterKeeps(g: Game, id: nat, now: int)
    requires Inv(g) && id in g.players && g.players[id].playing && now > 0
    ensures Inv(Shelter(g, id, now)) && Moved(g, Shelter(g, id, now))
  {
    hide Inv, Moved, Lawful, Settle, Rescue, CagesReady, Caches.Kept, Paired, Spaced;
    TablesAreSound(g);
    SameSessions(g, g);
    var p := g.players[id];
    RescueIsLawful(p);
    if CagesReady(g.transitAt, now) {
      SpacedMore(g.hubFreed, g.transitAt, now);
      SideTurnKeeps(g, g.(transitAt := now + CAGE_REFILL, hubFreed := g.hubFreed + [now]), id, Rescue(p));
    }
  }

  lemma RememberKeeps(g: Game, id: nat, arg: string)
    requires Inv(g) && id in g.players && g.players[id].playing
    ensures Inv(Remember(g, id, arg)) && Moved(g, Remember(g, id, arg))
  {
    hide Inv, Moved, Lawful, Settle, Witness, Has, Mark, Caches.Kept, Paired, Drafted, Aiming, Spaced, Untried;
    TablesAreSound(g);
    SameSessions(g, g);
    var p := g.players[id];
    var i := IndexOf(NameIs(arg), g.fallen);
    if i < |g.fallen| {
      MarkKeeps(g.kept, p.c.name, g.fallen[i], MAX_KEPT);
      NamingIsLawful(p, "");
      SideTurnKeeps(g, g.(kept := Mark(g.kept, p.c.name, g.fallen[i], MAX_KEPT)), id, Witness(p));
    }
  }

  lemma PlayKeeps(g: Game, id: nat, cmd: Command, now: int)
    requires Inv(g) && id in g.players && g.players[id].playing && now > 0
    ensures Inv(Play(g, id, cmd, now)) && Moved(g, Play(g, id, cmd, now))
  {
    hide Inv, Moved, Lawful, Forgive, Hand, Leave, Gather, Free, Shelter, Remember, Own, Settle, Engage, Quarry;
    var p := g.players[id];
    match cmd
    case Attack(arg) =>
      AttackKeeps(g, id, arg);
    case ForgiveName(arg) => ForgiveKeeps(g, id, arg);
    case Give(item, who) => HandKeeps(g, id, item, who);
    case CacheGold(amount) => LeaveKeeps(g, id, amount);
    case GatherGold => GatherKeeps(g, id);
    case FreeCaptive => FreeKeeps(g, id, now);
    case ShelterThem => ShelterKeeps(g, id, now);
    case WitnessName(arg) => RememberKeeps(g, id, arg);
    case _ =>
      OwnIsLawful(p, g.tide, now, cmd);
      TurnKeeps(g, id, Own(p, g.tide, now, cmd));
  }

  // ------------------------------------------------ what commands cannot do

  /** The creatures, whether there is a hub, and what has fallen are as they were. */
  ghost predicate Spared(g: Game, h: Game) {
    && h.mobs == g.mobs && h.revived == g.revived && h.federated == g.federated
    && h.kills == g.kills && h.fallen == g.fallen && h.wardenSlainAt == g.wardenSlainAt
  }

  lemma TurnSparesMobs(g: Game, id: nat, t: Turn)
    ensures Spared(g, Settle(g, id, t))
  {
  }

  lemma SharedSpareMobs(g: Game, id: nat, a: string, b: string)
    requires id in g.players
    ensures Spared(g, Forgive(g, id, a)) && Spared(g, Hand(g, id, a, b)) && Spared(g, Remember(g, id, a))
  {
    hide Subject, Neighbour, Mark, Has, Forgiven, Witness, AddItem, Without, Store.Save, Clamp;
  }

  lemma CagesSpareMobs(g: Game, id: nat, now: int)
    requires id in g.players
    ensures Spared(g, Free(g, id, now)) && Spared(g, Shelter(g, id, now))
  {
    hide Rescue, FreeFromPit, WardenCleared, CagesReady, Store.Save, Clamp;
  }

  lemma CoinSparesMobs(g: Game, id: nat, amount: int)
    requires id in g.players
    ensures Spared(g, Leave(g, id, amount)) && Spared(g, Gather(g, id))
  {
    hide AddCache, TakeCache, Shifted, Store.Save, Clamp;
  }

  /** Commands wound nobody; only heartbeats do. */
  lemma PlaySparesMobs(g: Game, id: nat, cmd: Command, now: int)
    requires id in g.players
    ensures Spared(g, Play(g, id, cmd, now))
  {
    hide Own, Engage, Quarry, Settle, Forgive, Hand, Remember, Free, Shelter, Leave, Gather, Spared;
    var p := g.players[id];
    match cmd
    case Attack(arg) => TurnSparesMobs(g, id, Engage(p, Quarry(g, p, arg)));
    case ForgiveName(arg) => SharedSpareMobs(g, id, arg, "");
    case Give(item, who) => SharedSpareMobs(g, id, item, who);
    case WitnessName(arg) => SharedSpareMobs(g, id, arg, "");
    case FreeCaptive => CagesSpareMobs(g, id, now);
    case ShelterThem => CagesSpareMobs(g, id, now);
    case CacheGold(amount) => CoinSparesMobs(g, id, amount);
    case GatherGold => CoinSparesMobs(g, id, 0);
    case _ => TurnSparesMobs(g, id, Own(p, g.tide, now, cmd));
  }

  /** The commands that reach beyond their player. */
  predicate Reaches(cmd: Command) {
    || cmd.ForgiveName? || cmd.Give? || cmd.WitnessName? || cmd.FreeCaptive? || cmd.ShelterThem? || cmd.CacheGold?
    || cmd.GatherGold? || cmd.Attack?
  }

  lemma PlaysOwn(g: Game, id: nat, cmd: Command, now: int)
    requires id in g.players && !Reaches(cmd)
    ensures Play(g, id, cmd, now) == Settle(g, id, Own(g.players[id], g.tide, now, cmd))
  {
    hide Own, Settle;
  }

  // --------------------------------------------------------------- combat

  lemma KillCounts(mobs: seq<Mob>, kills: seq<Kill>, revived: seq<nat>, k: Kill, dead: Mob)
    requires Counted(mobs, kills, revived) && k.mob < |mobs| && mobs[k.mob].alive
    requires SameKind(dead, mobs[k.mob]) && !dead.alive && k.xp == dead.xp
    ensures Counted(mobs[k.mob := dead], kills + [k], revived)
  {
    forall m | 0 <= m < |mobs| ensures Count(KillOf(m), kills + [k]) == Count(KillOf(m), kills) + if m == k.mob then 1 else 0 {
      CountSnoc(KillOf(m), kills, k);
    }
  }

  lemma WoundCounts(mobs: seq<Mob>, kills: seq<Kill>, revived: seq<nat>, i: nat, mob: Mob)
    requires Counted(mobs, kills, revived) && i < |mobs|
    requires SameKind(mob, mobs[i]) && mob.alive == mobs[i].alive
    ensures Counted(mobs[i := mob], kills, revived)
  {
  }

  lemma LessonLearnt(kills: seq<Kill>, k: Kill, id: nat)
    ensures Lessons(kills + [k], id) == Lessons(kills, id) + if k.killer == id then k.xp else 0
  {
    assert Init(kills + [k]) == kills;
  }

  lemma KillTeaches(players: map<nat, Player>, kills: seq<Kill>, k: Kill, p: Player)
    requires Taught(players, kills) && k.killer in players && players[k.killer].playing
    requires p.playing && p.baseXp == players[k.killer].baseXp && p.c.xp == players[k.killer].c.xp + k.xp
    ensures Taught(players[k.killer := p], kills + [k])
  {
    hide Lessons;
    forall id | id in players ensures Lessons(kills + [k], id) == Lessons(kills, id) + if k.killer == id then k.xp else 0 {
      LessonLearnt(kills, k, id);
    }
  }

  /** A living player replaced in the session table, beside one creature. */
  lemma BodyKeeps(g: Game, id: nat, p: Player, mobs: seq<Mob>)
    requires Roster(g.players, g.order, g.nextId) && Drafted(g.drafts, g.players, g.nextId)
    requires Living(g.players) && Aiming(g.players, g.mobs) && SameKinds(g.mobs, mobs)
    requires id in g.players && Alright(p, mobs)
    ensures Roster(g.players[id := p], g.order, g.nextId) && Drafted(g.drafts, g.players[id := p], g.nextId)
    ensures Living(g.players[id := p]) && Aiming(g.players[id := p], mobs)
  {
    hide Hale, IsRoom, Store.Fits, AimsAt, Store.ValidName, SameKinds;
    AimingKeeps(g.players, g.mobs, mobs);
  }

  lemma OneContinues(g: Game, h: Game, id: nat, q: Player)
    requires id in g.players && h.players == g.players[id := q] && h.order == g.order && h.nextId == g.nextId
    requires h.drafts == g.drafts && (h.rows == g.rows || (q.playing && h.rows == Store.Save(g.rows, q.c)))
    requires Continues(g.players[id], q)
    ensures Moved(g, h)
  {
    hide Continues, Wrote, Store.Save;
    StaysTheSame(g.players);
    NothingWritten(g.rows, h.players);
    if q.playing {
      OneWritten(g.rows, h.players, id);
    }
  }

  /** The mob a fighter's round is about. */
  lemma QuarryFacts(g: Game, room: string, target: string)
    requires Inv(g) && MobInRoom(g.mobs, room, target) < |g.mobs|
    ensures var mob := g.mobs[MobInRoom(g.mobs, room, target)];
            mob.alive && 0 < mob.hp <= mob.maxHp && mob.diedAt == 0 && 0 <= mob.damage && 0 <= mob.xp
  {
    hide Roster, Living, Sturdy, Counted, Taught, Known, Earned, Tidal, Paired, Drafted, Aiming, Spaced, Untried,
      Caches.Kept, Seed;
  }

  lemma OneMobSameKinds(mobs: seq<Mob>, m: nat, mob: Mob)
    requires m < |mobs| && SameKind(mob, mobs[m])
    ensures SameKinds(mobs, mobs[m := mob])
  {
  }

  /** Nobody in the drafts strikes a blow. */
  lemma UntriedStays(g: Game, k: Kill)
    requires Untried(g.drafts, g.kills) && Drafted(g.drafts, g.players, g.nextId) && k.killer in g.players
    ensures Untried(g.drafts, g.kills + [k])
  {
    hide Lessons, Store.ValidName;
    forall id | id in g.drafts ensures Lessons(g.kills + [k], id) == 0 {
      LessonLearnt(g.kills, k, id);
    }
  }

  lemma KillsKeeps(g: Game, id: nat, m: nat, mob: Mob, now: int)
    requires Inv(g) && id in g.players && g.players[id].playing && m < |g.mobs| && g.mobs[m].alive
    requires SameKind(mob, g.mobs[m]) && mob.hp == 0 && 0 < mob.maxHp && 0 <= mob.damage && 0 <= mob.xp && now > 0
    ensures Inv(Kills(g, id, m, mob, now)) && Moved(g, Kills(g, id, m, mob, now))
  {
    hide Roster, Living, Sturdy, Counted, Taught, Known, Earned, Tidal, Paired, Drafted, Aiming, Spaced, Untried,
      Peopled, Caches.Kept,
      IsRoom, Store.Save, Store.Fits, SameKinds;
    var p := g.players[id];
    var c := p.c.(xp := p.c.xp + mob.xp);
    var q := p.(c := c, target := "");
    var dead := mob.(alive := false, diedAt := now);
    var k := Kill(id, m, mob.xp, now);
    LivesThere(g, id);
    SameBody(p.c, c);
    OneMobSameKinds(g.mobs, m, dead);
    BodyKeeps(g, id, q, g.mobs[m := dead]);
    SaveKeeps(g.rows, c);
    KillCounts(g.mobs, g.kills, g.revived, k, dead);
    OneMobKeeps(g.mobs, m, dead);
    KillTeaches(g.players, g.kills, k, q);
    KnownMore(g.players, g.order, g.nextId, g.kills, k);
    UntriedStays(g, k);
    OneContinues(g, Kills(g, id, m, mob, now), id, q);
  }

  lemma SameBody(c: Character, d: Character)
    requires d == c.(xp := d.xp)
    ensures (Hale(c) ==> Hale(d)) && (Store.Fits(c) ==> Store.Fits(d))
  {
  }

  lemma KnownMore(players: map<nat, Player>, order: seq<nat>, nextId: nat, kills: seq<Kill>, k: Kill)
    requires Roster(players, order, nextId) && Known(kills, nextId) && k.killer in players
    ensures Known(kills + [k], nextId)
  {
  }

  lemma StrikeIsAlright(p: Player, mobs: seq<Mob>, damage: int)
    requires Alright(p, mobs) && p.playing && damage >= 0
    ensures var hit := p.(c := p.c.(hp := p.c.hp - damage));
            var q := if hit.c.hp <= 0 then Reknit(hit) else hit;
            Alright(q, mobs) && Continues(p, q)
  {
    NexusIsRoom();
    hide IsRoom;
  }

  lemma StruckKeeps(g: Game, id: nat, m: nat, mob: Mob)
    requires Inv(g) && id in g.players && g.players[id].playing && m < |g.mobs| && g.mobs[m].alive
    requires SameKind(mob, g.mobs[m]) && Sound(mob) && mob.hp > 0
    ensures Inv(Struck(g, id, m, mob)) && Moved(g, Struck(g, id, m, mob))
  {
    hide Roster, Living, Sturdy, Counted, Taught, Known, Earned, Tidal, Paired, Drafted, Aiming, Spaced, Untried,
      Peopled, Caches.Kept,
      IsRoom, Seed, Buffers.Enroll, Lessons, Alright, Continues, SameKinds, Store.Save;
    var p := g.players[id];
    var hit := p.(c := p.c.(hp := p.c.hp - mob.damage));
    var q := if hit.c.hp <= 0 then Reknit(hit) else hit;
    LivesThere(g, id);
    StrikeIsAlright(p, g.mobs, mob.damage);
    PlayerKeeps(g, id, q);
    WoundCounts(g.mobs, g.kills, g.revived, m, mob);
    OneMobKeeps(g.mobs, m, mob);
    OneMobSameKinds(g.mobs, m, mob);
    AimingKeeps(g.players[id := q], g.mobs, g.mobs[m := mob]);
    OneContinues(g, Struck(g, id, m, mob), id, q);
  }

  lemma GoneKeeps(g: Game, id: nat)
    requires Inv(g) && id in g.players && g.players[id].playing
    ensures var h := g.(players := g.players[id := g.players[id].(target := "")]); Inv(h) && Moved(g, h)
  {
    hide Roster, Living, Sturdy, Counted, Taught, Known, Earned, Tidal, Paired, Drafted, Aiming, Spaced, Untried,
      Peopled, Caches.Kept,
      IsRoom, Hale, Store.Fits, Store.Save;
    var q := g.players[id].(target := "");
    LivesThere(g, id);
    PlayerKeeps(g, id, q);
    OneContinues(g, g.(players := g.players[id := q]), id, q);
  }

  lemma CombatKeeps(g: Game, id: nat, now: int)
    requires Inv(g) && id in g.players && g.players[id].playing && now > 0
    ensures Inv(CombatRound(g, id, now)) && Moved(g, CombatRound(g, id, now))
  {
    hide Inv, Moved, Kills, Struck, Damage;
    GoneKeeps(g, id);
    var p := g.players[id];
    var m := MobInRoom(g.mobs, p.c.room, p.target);
    if m < |g.mobs| {
      QuarryFacts(g, p.c.room, p.target);
      LevelFacts(g, id);
      var mob := g.mobs[m].(hp := Floor0(g.mobs[m].hp - Damage(p.c)));
      if mob.hp <= 0 {
        KillsKeeps(g, id, m, mob, now);
      } else {
        StruckKeeps(g, id, m, mob);
      }
    }
  }

  /** Everybody strikes for at least two. */
  lemma LevelFacts(g: Game, id: nat)
    requires Inv(g) && id in g.players
    ensures Damage(g.players[id].c) >= 2
  {
    hide Roster, Sturdy, Counted, Taught, Known, Earned, Tidal, Paired, Drafted, Aiming, Spaced, Untried, Peopled,
      Caches.Kept, IsRoom;
  }

  // --------------------------------------------------- coming and going

  /** What a step may do to the sessions: those that play or wait continue, the others
   *  chose a life before or are new. */
  ghost predicate Follows(g: Game, h: Game) {
    && g.nextId <= h.nextId
    && (forall id :: id in h.players ==>
          if id in g.players then Continues(g.players[id], h.players[id]) else id in g.drafts || g.nextId <= id)
    && (forall id :: id in h.drafts ==> id in g.drafts || g.nextId <= id)
  }

  lemma MovedFollows(g: Game, h: Game)
    requires Moved(g, h)
    ensures Follows(g, h)
  {
    hide Continues, Wrote;
    assert forall id :: id in h.players ==> id in h.players.Keys;
  }

  lemma StillFollows(g: Game)
    ensures Follows(g, g)
  {
    hide Continues;
    StaysTheSame(g.players);
  }

  lemma NoLessons(kills: seq<Kill>, id: nat)
    requires forall k :: k in kills ==> k.killer != id
    ensures Lessons(kills, id) == 0
  {
    if kills != [] {
      assert Last(kills) in kills;
      NoLessons(Init(kills), id);
    }
  }

  /** An id nobody has had, with its place in the tables. */
  ghost predicate Vacant(g: Game, id: nat) {
    id < g.nextId && id !in g.players && id !in g.drafts && Lessons(g.kills, id) == 0
  }

  /** Counting up makes a vacancy. */
  lemma NextIsVacant(g: Game)
    requires Inv(g)
    ensures Inv(g.(nextId := g.nextId + 1)) && Vacant(g.(nextId := g.nextId + 1), g.nextId)
  {
    hide Living, Sturdy, Counted, Taught, Earned, Tidal, Paired, Aiming, Spaced, Peopled, Caches.Kept, Untried,
      Lessons, Store.ValidName;
    NoLessons(g.kills, g.nextId);
  }

  /** So does leaving the drafts. */
  lemma DraftIsVacant(g: Game, id: nat)
    requires Inv(g) && id in g.drafts
    ensures Inv(g.(drafts := g.drafts - {id})) && Vacant(g.(drafts := g.drafts - {id}), id)
  {
    hide Roster, Living, Sturdy, Counted, Taught, Earned, Known, Tidal, Paired, Aiming, Spaced, Peopled, Caches.Kept,
      Lessons, Store.ValidName;
  }

  lemma ArrivalListed(players: map<nat, Player>, order: seq<nat>, nextId: nat, id: nat, p: Player)
    requires Roster(players, order, nextId) && id < nextId && id !in players
    ensures Roster(players[id := p], [id] + order, nextId)
  {
    var o := [id] + order;
    assert forall i :: 0 <= i < |order| ==> o[i + 1] == order[i] && order[i] in order;
  }

  lemma ArrivalKeeps(g: Game, id: nat, p: Player)
    requires Inv(g) && Vacant(g, id) && Alright(p, g.mobs) && p.baseXp == p.c.xp
    ensures Inv(g.(players := g.players[id := p], order := [id] + g.order))
  {
    hide Roster, Sturdy, Counted, Known, Earned, Tidal, Paired, Spaced, Untried, Peopled, Caches.Kept, Lessons, Hale,
      IsRoom, Store.Fits,
      AimsAt, Store.ValidName;
    ArrivalListed(g.players, g.order, g.nextId, id, p);
  }

  lemma EntersAlright(c: Character, playing: bool, mobs: seq<Mob>)
    requires Hale(c) && Store.Fits(c)
    ensures var room := if IsRoom(c.room) then c.room else "nexus";
            var position := if c.position == "" then "standing" else c.position;
            Alright(Player(playing, c.(room := room, position := position), "", false, 0, 0, c.xp), mobs)
  {
    NexusIsRoom();
    hide IsRoom;
  }

  lemma ShownKeeps(g: Game, playing: bool, now: int)
    requires Inv(g)
    ensures Inv(Shown(g, playing, now)) && Shown(g, playing, now).players == g.players
            && Shown(g, playing, now).drafts == g.drafts
    ensures Shown(g, playing, now).nextId == g.nextId && Shown(g, playing, now).rows == g.rows
  {
    hide Inv, TickRespawns, Risen;
    RespawnedKeeps(g, now);
  }

  lemma EnterKeeps(g: Game, id: nat, c: Character, now: int)
    requires Inv(g) && Vacant(g, id) && Hale(c) && Store.Fits(c)
    ensures Inv(Enter(g, id, c, now))
    ensures var h := Enter(g, id, c, now);
            && h.nextId == g.nextId && h.drafts == g.drafts && h.rows == g.rows
            && h.players.Keys == g.players.Keys + {id} && (forall x :: x in g.players ==> h.players[x] == g.players[x])
            && h.players[id].c == c.(room := h.players[id].c.room, position := h.players[id].c.position)
            && h.players[id].c.room == (if IsRoom(c.room) then c.room else "nexus")
            && h.players[id].c.position == (if c.position == "" then "standing" else c.position)
  {
    hide Inv, Alright, Shown, IsRoom, Hale, Store.Fits;
    var room := if IsRoom(c.room) then c.room else "nexus";
    var position := if c.position == "" then "standing" else c.position;
    var p := Player(!g.federated, c.(room := room, position := position), "", false, 0, 0, c.xp);
    EntersAlright(c, !g.federated, g.mobs);
    ArrivalKeeps(g, id, p);
    ShownKeeps(g.(players := g.players[id := p], order := [id] + g.order), p.playing, now);
  }

  /** The sessions of g, and one that arrives. */
  lemma NewestFollows(g: Game, h: Game, id: nat)
    requires g.nextId <= h.nextId && (id in g.drafts || g.nextId <= id) && id !in g.players
    requires h.players.Keys == g.players.Keys + {id} && (forall x :: x in g.players ==> h.players[x] == g.players[x])
    requires forall x :: x in h.drafts ==> x in g.drafts || g.nextId <= x
    ensures Follows(g, h)
  {
    hide Continues;
    StaysTheSame(g.players);
    assert forall x :: x in h.players ==> x in h.players.Keys;
  }

  lemma NamedKeeps(g: Game, name: string, now: int)
    requires Inv(g)
    ensures Inv(Named(g, name, now)) && Follows(g, Named(g, name, now)) && Named(g, name, now).rows == g.rows
  {
    hide Inv, Enter, Store.Load, Sturdy, Hale, Follows, Vacant, Store.FromDoc, Store.Fits, Store.ValidName;
    StillFollows(g);
    var h := g.(nextId := g.nextId + 1);
    NextIsVacant(g);
    if Store.ValidName(name) && Store.Load(g.rows, name).Found? {
      RowsAreSturdy(g);
      LoadIsHale(g.rows, name);
      EnterKeeps(h, g.nextId, Store.Load(g.rows, name).c, now);
      NewIdIsNew(g);
      NewestFollows(g, Named(g, name, now), g.nextId);
    } else if Store.ValidName(name) && Store.Load(g.rows, name).Missing? {
      DraftKeeps(h, g.nextId, name);
      DraftFollows(g, Named(g, name, now));
    }
  }

  lemma RowsAreSturdy(g: Game)
    requires Inv(g)
    ensures Sturdy(g.rows)
  {
    hide Sturdy;
  }

  lemma NewIdIsNew(g: Game)
    requires Inv(g)
    ensures g.nextId !in g.players && g.nextId !in g.drafts
  {
    hide Living, Sturdy, Counted, Taught, Known, Earned, Tidal, Paired, Aiming, Spaced, Peopled, Caches.Kept, Untried;
  }

  lemma DraftKeeps(g: Game, id: nat, name: string)
    requires Inv(g) && Vacant(g, id) && Store.ValidName(name)
    ensures Inv(g.(drafts := g.drafts[id := Clip(name, 33)]))
  {
    hide Roster, Living, Sturdy, Counted, Taught, Known, Earned, Tidal, Paired, Aiming, Spaced, Peopled, Caches.Kept,
      Lessons, Store.NameChar;
  }

  lemma DraftFollows(g: Game, h: Game)
    requires h.players == g.players && g.nextId <= h.nextId
    requires forall x :: x in h.drafts ==> x in g.drafts || g.nextId <= x
    ensures Follows(g, h)
  {
    hide Continues;
    StaysTheSame(g.players);
  }

  lemma RowsKeep(g: Game, c: Character)
    requires Inv(g) && Hale(c)
    ensures Inv(g.(rows := Store.Save(g.rows, c)))
  {
    hide Roster, Living, Sturdy, Counted, Taught, Known, Earned, Tidal, Paired, Drafted, Aiming, Spaced, Untried,
      Peopled, Caches.Kept,
      Hale, Store.Save;
    SaveKeeps(g.rows, c);
  }

  lemma NewcomerIsHale(name: string, race: string)
    requires Store.ValidName(name) && race in RACES
    ensures var c := NewCharacter(name).(race := race);
            Hale(c) && Store.Fits(c) && c.name == name && c.room == "nexus" && c.position == "standing" && Store.Key(name).Some?
  {
  }

  lemma PickedKeeps(g: Game, id: nat, race: string, now: int)
    requires Inv(g)
    ensures Inv(Picked(g, id, race, now)) && Follows(g, Picked(g, id, race, now))
  {
    hide Inv, Enter, Hale, Follows, Store.Save, Vacant, Store.ValidName, RACES, NewCharacter, IsRoom, Store.Fits;
    StillFollows(g);
    if id in g.drafts && race in RACES {
      var c := NewCharacter(g.drafts[id]).(race := race);
      DraftsAreValid(g);
      NewcomerIsHale(g.drafts[id], race);
      DraftIsVacant(g, id);
      NexusIsRoom();
      var h := g.(drafts := g.drafts - {id});
      RowsKeep(h, c);
      var m := g.(drafts := g.drafts - {id}, rows := Store.Save(g.rows, c));
      VacantStill(h, m, id);
      EnterKeeps(m, id, c, now);
      NewestFollows(g, Enter(m, id, c, now), id);
    }
  }

  lemma DraftsAreValid(g: Game)
    requires Inv(g)
    ensures forall id :: id in g.drafts ==> Store.ValidName(g.drafts[id]) && id !in g.players
  {
    hide Roster, Living, Sturdy, Counted, Taught, Known, Earned, Tidal, Paired, Aiming, Spaced, Peopled, Caches.Kept,
      Untried, Store.ValidName;
  }

  lemma VacantStill(g: Game, h: Game, id: nat)
    requires Vacant(g, id) && h == g.(rows := h.rows)
    ensures Vacant(h, id)
  {
  }

  lemma MergeIsHale(c: Character, sheet: Commits.Sheet)
    requires Hale(c)
    ensures Hale(Merge(c, sheet)) && Merge(c, sheet).room == c.room && Merge(c, sheet).name == c.name
    ensures Merge(c, sheet).maxHp == c.maxHp
    ensures Onward(c, Merge(c, sheet)) && (Store.Fits(c) ==> Store.Fits(Merge(c, sheet)))
  {
  }

  lemma AnswerIsAlright(p: Player, mobs: seq<Mob>, sheet: Option<Commits.Sheet>)
    requires Alright(p, mobs) && !p.playing
    ensures var c := if sheet.Some? then Merge(p.c, sheet.value) else p.c;
            var q := p.(c := c, playing := true, baseXp := c.xp);
            Alright(q, mobs) && Continues(p, q)
  {
    hide IsRoom, Hale, Store.Fits, Merge;
    if sheet.Some? {
      AlrightIsHale(p, mobs);
      MergeIsHale(p.c, sheet.value);
    }
  }

  lemma EntryKeeps(g: Game, id: nat, p: Player)
    requires Inv(g) && id in g.players && !g.players[id].playing && p.playing && p.baseXp == p.c.xp
    requires Alright(p, g.mobs)
    ensures Inv(g.(players := g.players[id := p]))
  {
    hide Sturdy, Counted, Known, Earned, Tidal, Paired, Spaced, Untried, Peopled, Caches.Kept, Hale, IsRoom, Lessons,
      Store.Fits, AimsAt,
      Store.ValidName;
  }

  lemma AnsweredKeeps(g: Game, id: nat, sheet: Option<Commits.Sheet>, now: int)
    requires Inv(g)
    ensures Inv(Answered(g, id, sheet, now)) && Follows(g, Answered(g, id, sheet, now))
            && Answered(g, id, sheet, now).rows == g.rows
  {
    hide Inv, Merge, Follows, Shown, Alright, Continues, Moved;
    StillFollows(g);
    if id in g.players && !g.players[id].playing {
      var p := g.players[id];
      var c := if sheet.Some? then Merge(p.c, sheet.value) else p.c;
      var q := p.(c := c, playing := true, baseXp := c.xp);
      EverybodyIsAlright(g, id);
      AnswerIsAlright(p, g.mobs, sheet);
      EntryKeeps(g, id, q);
      var h := g.(players := g.players[id := q]);
      OneContinues(g, h, id, q);
      MovedFollows(g, h);
      ShownKeeps(h, true, now);
      FollowsOn(g, h, Answered(g, id, sheet, now));
    }
  }

  lemma EverybodyIsAlright(g: Game, id: nat)
    requires Inv(g) && id in g.players
    ensures Alright(g.players[id], g.mobs)
  {
    hide Alright;
    LivesThere(g, id);
  }

  lemma FollowsOn(g: Game, h: Game, k: Game)
    requires Follows(g, h) && k.players == h.players && k.nextId == h.nextId && k.drafts == h.drafts
    ensures Follows(g, k)
  {
    hide Continues;
  }

  lemma SameFollows(g: Game, h: Game, k: Game)
    requires h.players == g.players && h.nextId == g.nextId && h.drafts == g.drafts && Follows(h, k)
    ensures Follows(g, k)
  {
    hide Continues;
  }

  lemma DepartureListed(players: map<nat, Player>, order: seq<nat>, nextId: nat, id: nat)
    requires Roster(players, order, nextId)
    ensures Roster(players - {id}, Filter(OthersThan(id), order), nextId)
  {
    FilterDistinct(OthersThan(id), order);
  }

  lemma {:induction false} FilterDistinct<T>(keep: T -> bool, s: seq<T>)
    requires Distinct(s)
    ensures Distinct(Filter(keep, s))
    ensures forall x :: x in Filter(keep, s) <==> x in s && keep(x)
  {
    if s != [] {
      assert s == Init(s) + [Last(s)];
      FilterSnoc(keep, Init(s), Last(s));
      FilterDistinct(keep, Init(s));
    }
  }

  lemma ClosedKeeps(g: Game, id: nat)
    requires Inv(g)
    ensures Inv(Closed(g, id)) && Follows(g, Closed(g, id))
  {
    hide Roster, Sturdy, Counted, Known, Earned, Tidal, Paired, Spaced, Peopled, Caches.Kept, Continues, IsRoom, Hale,
      Store.Save, Filter, OthersThan, Store.Fits, AimsAt, Lessons, Store.ValidName;
    StaysTheSame(g.players);
    if id in g.players {
      DepartureListed(g.players, g.order, g.nextId, id);
      SaveKeeps(g.rows, g.players[id].c);
    }
  }

  lemma TickedKeeps(g: Game, id: nat, now: int)
    requires Inv(g) && id in g.players && g.players[id].playing && now > 0
    ensures Inv(Ticked(g, id, now)) && Moved(g, Ticked(g, id, now))
  {
    hide Inv, Moved, CombatRound, Settle, Rested, Lawful;
    RestedIsLawful(g.players[id]);
    if g.players[id].target != "" {
      CombatKeeps(g, id, now);
    } else {
      TurnKeeps(g, id, Rested(g.players[id]));
    }
  }

  // ------------------------------------------------------ the main lemmas

  /** Every step of every session keeps the game whole and every session's marks, and
   *  except in coming and going the store gets nothing but playing sessions as they are. */
  lemma StepKeeps(g: Game, e: Event)
    requires Inv(g) && Possible(e)
    ensures Inv(Step(g, e)) && Follows(g, Step(g, e))
    ensures !e.Close? && !e.PickRace? ==> Wrote(g.rows, Step(g, e).rows, Step(g, e).players)
  {
    hide Inv, Moved, Follows, Respawned, Play, Ticked, Named, Picked, Answered, Closed, Wrote;
    StillFollows(g);
    NothingWritten(g.rows, Step(g, e).players);
    match e
    case Name(name, now) => NamedKeeps(g, name, now);
    case PickRace(id, race, now) => PickedKeeps(g, id, race, now);
    case Answer(id, sheet, now) => AnsweredKeeps(g, id, sheet, now);
    case Do(id, cmd, now) =>
      if Acts(g, id) {
        RespawnedKeeps(g, now);
        SpawnMoves(g, now);
        PlayKeeps(Respawned(g, now), id, cmd, now);
        MovedOn(g, Respawned(g, now), Play(Respawned(g, now), id, cmd, now));
      }
    case Tick(id, now) =>
      if Acts(g, id) {
        RespawnedKeeps(g, now);
        SpawnMoves(g, now);
        TickedKeeps(Respawned(g, now), id, now);
        MovedOn(g, Respawned(g, now), Ticked(Respawned(g, now), id, now));
      }
    case Close(id) => ClosedKeeps(g, id);
    case Poll(tide) => PollKeeps(g, tide);
  }

  lemma MovedOn(g: Game, h: Game, k: Game)
    requires h.players == g.players && h.nextId == g.nextId && h.drafts == g.drafts && h.rows == g.rows && Moved(h, k)
    ensures Follows(g, k) && Wrote(g.rows, k.rows, k.players)
  {
    hide Continues, Wrote, Follows;
    MovedFollows(h, k);
    SameFollows(g, h, k);
  }

  lemma SpawnMoves(g: Game, now: int)
    ensures Respawned(g, now).players == g.players && Respawned(g, now).nextId == g.nextId
    ensures Respawned(g, now).drafts == g.drafts && Respawned(g, now).rows == g.rows
  {
  }

  lemma PollKeeps(g: Game, tide: int)
    requires Inv(g)
    ensures Inv(Step(g, Poll(tide))) && Follows(g, Step(g, Poll(tide))) && Step(g, Poll(tide)).rows == g.rows
  {
    hide Roster, Living, Sturdy, Counted, Taught, Known, Earned, Paired, Drafted, Aiming, Spaced, Untried, Peopled,
      Caches.Kept, Follows;
    StillFollows(g);
    FollowsOn(g, g, g.(tide := tide));
  }

  /** The server starts whole on any sound store, an empty one among them. */
  lemma StartKeeps(federated: bool, rows: map<string, Store.Row>)
    requires Sturdy(rows)
    ensures Inv(Start(federated, rows))
  {
    SeedIsPeopled();
    hide Sturdy;
    NothingCounts();
  }

  lemma NothingCounts()
    ensures Counted(Seed(), [], seq(|Seed()|, _ => 0))
  {
    SeedIsPeopled();
    assert forall m :: 0 <= m < |Seed()| ==> Seed()[m].alive && Seed()[m].hp > 0;
  }
}
