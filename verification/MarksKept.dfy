/** Marks over logins and logouts: what the store and the sessions of one name know of
 *  a character's ash, straying and return, and when they lose it. */
module MarksKept {
  import opened Characters
  import opened Commands
  import opened Game
  import opened GameLaws
  import opened GameRuns
  import opened Sequences
  import opened Text
  import opened World
  import Caches
  import Commits
  import Store

  datatype Brand = Brand(ash: bool, strayed: bool, redeemed: bool)

  function Borne(c: Character): Brand {
    Brand(c.ashsworn, c.strayed, c.redeemed)
  }

  /** Every mark of a is one of b. */
  predicate AtMost(a: Brand, b: Brand) {
    (a.ash ==> b.ash) && (a.strayed ==> b.strayed) && (a.redeemed ==> b.redeemed)
  }

  function InDoc(doc: Store.Doc): Brand {
    Brand(Store.FlagField(doc, Store.Ashsworn), Store.FlagField(doc, Store.Strayed), Store.FlagField(doc, Store.Redeemed))
  }

  /** The marks a row records; no row records none. */
  function Recorded(rows: map<string, Store.Row>, k: string): Brand {
    if k in rows && rows[k].Record? then InDoc(rows[k].doc) else Brand(false, false, false)
  }

  /** A document stands under its character's own name, letter case aside. */
  ghost predicate FiledDoc(k: string, doc: Store.Doc) {
    forall name :: Store.ValidName(name) && Fold(name) == k ==> Fold(Store.FromDoc(doc, name).name) == k
  }

  ghost predicate Filed(rows: map<string, Store.Row>) {
    forall k :: k in rows && rows[k].Record? ==> FiledDoc(k, rows[k].doc)
  }

  /** No two of those present, or choosing a life, share a name. */
  ghost predicate Single(players: map<nat, Player>, drafts: map<nat, string>) {
    && (forall a, b :: a in players && b in players && a != b ==> Fold(players[a].c.name) != Fold(players[b].c.name))
    && (forall a, b :: a in players && b in drafts ==> Fold(players[a].c.name) != Fold(drafts[b]))
    && (forall a, b :: a in drafts && b in drafts && a != b ==> Fold(drafts[a]) != Fold(drafts[b]))
  }

  /** The player knows every mark its row records; one that still waits knows no other. */
  predicate Knows(p: Player, rows: map<string, Store.Row>) {
    && p.c.name != ""
    && AtMost(Recorded(rows, Fold(p.c.name)), Borne(p.c))
    && (!p.playing ==> AtMost(Borne(p.c), Recorded(rows, Fold(p.c.name))))
  }

  ghost predicate Loyal(players: map<nat, Player>, rows: map<string, Store.Row>) {
    forall id :: id in players ==> Knows(players[id], rows)
  }

  ghost predicate Unwritten(drafts: map<nat, string>, rows: map<string, Store.Row>) {
    forall id :: id in drafts ==> Fold(drafts[id]) !in rows
  }

  ghost predicate Steady(g: Game) {
    Single(g.players, g.drafts) && Loyal(g.players, g.rows) && Unwritten(g.drafts, g.rows) && Filed(g.rows)
  }

  /** A name is typed that nobody present, or choosing a life, goes by. */
  ghost predicate Unshared(g: Game, e: Event) {
    e.Name? ==>
      && (forall id :: id in g.players ==> Fold(g.players[id].c.name) != Fold(e.name))
      && (forall id :: id in g.drafts ==> Fold(g.drafts[id]) != Fold(e.name))
  }

  /** No row loses a mark. */
  ghost predicate Kept(was: map<string, Store.Row>, rows: map<string, Store.Row>) {
    forall k :: AtMost(Recorded(was, k), Recorded(rows, k))
  }

  // ---------------------------------------------------------------- saving

  lemma SavedMarks(c: Character)
    ensures InDoc(Store.ToDoc(c)) == Borne(c)
  {
    hide Store.FlagField, Store.NumberField, Store.ToDoc;
    Store.ValuesBack(c, c);
  }

  lemma SavedIsFiled(c: Character, k: string)
    requires Store.Fits(c) && Fold(c.name) == k
    ensures FiledDoc(k, Store.ToDoc(c))
  {
    hide Store.TextField, Store.ToDoc, Store.Carried, Store.NumberField, Store.FlagField, Store.ValidName;
    forall name ensures Store.FromDoc(Store.ToDoc(c), name).name == c.name {
      Store.TextsBack(c, NewCharacter(name));
    }
  }

  /** What loading gives knows exactly the row it came from. */
  lemma LoadedMarks(doc: Store.Doc, name: string)
    ensures Borne(Store.FromDoc(doc, name)) == InDoc(doc)
  {
    hide Store.TextField, Store.Carried, Store.NumberField, Store.FlagField;
  }

  // ----------------------------------------------------- those who stay

  /** A row written during a step is that of a session of its name. */
  lemma WrittenBy(g: Game, h: Game, k: string) returns (x: nat)
    requires Wrote(g.rows, h.rows, h.players) && k in h.rows && !(k in g.rows && h.rows[k] == g.rows[k])
    ensures x in h.players && h.players[x].playing && Fold(h.players[x].c.name) == k
            && h.rows[k] == Store.Record(Store.ToDoc(h.players[x].c))
    ensures Recorded(h.rows, k) == Borne(h.players[x].c)
  {
    hide Store.ToDoc, Borne, InDoc;
    var id :| id in h.players && h.players[id].playing && IsSaved(h.players[id].c, k, h.rows[k]);
    SavedMarks(h.players[id].c);
    x := id;
  }

  lemma ContinuesMarks(p: Player, q: Player)
    requires Continues(p, q)
    ensures AtMost(Borne(p.c), Borne(q.c)) && q.c.name == p.c.name
    ensures !q.playing ==> q == p
  {
  }

  /** A step in which nobody comes or goes. */
  lemma StayersKeep(g: Game, h: Game)
    requires Steady(g) && Wrote(g.rows, h.rows, h.players) && h.drafts == g.drafts && h.players.Keys == g.players.Keys
    requires forall id :: id in g.players ==> Continues(g.players[id], h.players[id])
    requires forall id :: id in h.players ==> Store.Fits(h.players[id].c)
    ensures Steady(h) && Kept(g.rows, h.rows)
  {
    hide Store.ToDoc, InDoc, Continues, Store.Fits, FiledDoc, Wrote, Borne, AtMost, Recorded;
    forall id | id in h.players ensures id in g.players && h.players[id].c.name == g.players[id].c.name {
      ContinuesMarks(g.players[id], h.players[id]);
    }
    forall k ensures AtMost(Recorded(g.rows, k), Recorded(h.rows, k)) {
      RowKeeps(g, h, k);
    }
    forall id | id in h.players ensures Knows(h.players[id], h.rows) {
      SessionKeeps(g, h, id);
    }
    forall k | k in h.rows && h.rows[k].Record? ensures FiledDoc(k, h.rows[k].doc) {
      if !(k in g.rows && h.rows[k] == g.rows[k]) {
        var x := WrittenBy(g, h, k);
        SavedIsFiled(h.players[x].c, k);
      }
    }
    forall id | id in h.drafts ensures Fold(h.drafts[id]) !in h.rows {
      if Fold(h.drafts[id]) in h.rows {
        var x := WrittenBy(g, h, Fold(h.drafts[id]));
      }
    }
  }

  lemma RowKeeps(g: Game, h: Game, k: string)
    requires Loyal(g.players, g.rows) && Wrote(g.rows, h.rows, h.players) && h.players.Keys == g.players.Keys
    requires forall id :: id in g.players ==> Continues(g.players[id], h.players[id])
    ensures AtMost(Recorded(g.rows, k), Recorded(h.rows, k))
  {
    hide Store.ToDoc, InDoc, Continues, Wrote, Borne;
    if k in h.rows && !(k in g.rows && h.rows[k] == g.rows[k]) {
      var x := WrittenBy(g, h, k);
      assert x in h.players.Keys;
      ContinuesMarks(g.players[x], h.players[x]);
    } else {
      NoRowLost(g, h, k);
    }
  }

  lemma NoRowLost(g: Game, h: Game, k: string)
    requires Wrote(g.rows, h.rows, h.players)
    ensures k in g.rows ==> k in h.rows
  {
    hide IsSaved;
  }

  lemma SessionKeeps(g: Game, h: Game, id: nat)
    requires Single(g.players, g.drafts) && Loyal(g.players, g.rows)
    requires Wrote(g.rows, h.rows, h.players) && h.players.Keys == g.players.Keys && id in h.players
    requires forall x :: x in g.players ==> Continues(g.players[x], h.players[x])
    ensures Knows(h.players[id], h.rows)
  {
    hide Store.ToDoc, InDoc, Continues, Wrote, Borne;
    assert id in h.players.Keys;
    var k := Fold(h.players[id].c.name);
    ContinuesMarks(g.players[id], h.players[id]);
    NoRowLost(g, h, k);
    if k in h.rows && !(k in g.rows && h.rows[k] == g.rows[k]) {
      var x := WrittenBy(g, h, k);
      assert x in h.players.Keys;
      ContinuesMarks(g.players[x], h.players[x]);
    }
  }

  // ---------------------------------------------- those who come and go

  lemma EnterShape(g: Game, id: nat, c: Character, now: int)
    ensures var h := Enter(g, id, c, now);
            && h.rows == g.rows && h.drafts == g.drafts && h.players.Keys == g.players.Keys + {id}
            && (forall x :: x in g.players && x != id ==> h.players[x] == g.players[x])
            && h.players[id].c.name == c.name && Borne(h.players[id].c) == Borne(c)
  {
    hide TickRespawns, Risen, IsRoom;
  }

  lemma ArrivalKeepsSteady(g: Game, h: Game, id: nat)
    requires Steady(g) && id !in g.players && h.rows == g.rows && h.drafts == g.drafts
            && h.players.Keys == g.players.Keys + {id}
    requires forall x :: x in g.players ==> h.players[x] == g.players[x]
    requires forall x :: x in g.players ==> Fold(g.players[x].c.name) != Fold(h.players[id].c.name)
    requires forall x :: x in g.drafts ==> Fold(g.drafts[x]) != Fold(h.players[id].c.name)
    requires Knows(h.players[id], h.rows)
    ensures Steady(h)
  {
    hide Knows, Filed;
    assert forall x :: x in h.players ==> x in h.players.Keys;
  }

  lemma NamedKeepsSteady(g: Game, name: string, now: int)
    requires Inv(g) && Steady(g) && Unshared(g, Name(name, now))
    ensures Steady(Named(g, name, now)) && Named(g, name, now).rows == g.rows
  {
    hide Inv, Steady, Enter, Store.ValidName, Store.FromDoc, Store.Load, InDoc, Clip, Unshared;
    NewIdIsNew(g);
    if Store.ValidName(name) {
      ValidHasKey(name);
      match Store.Load(g.rows, name)
      case Damaged =>
      case Found(c) => FoundKeepsSteady(g, name, c, now);
      case Missing => DraftKeepsSteady(g, name, now);
    }
  }

  lemma ValidHasKey(name: string)
    requires Store.ValidName(name)
    ensures Store.Key(name) == Some(Fold(name)) && Fold(name) != "" && Clip(name, 33) == name
  {
  }

  lemma FoundKeepsSteady(g: Game, name: string, c: Character, now: int)
    requires Steady(g) && Unshared(g, Name(name, now)) && g.nextId !in g.players && Store.ValidName(name)
    requires Store.Load(g.rows, name) == Store.Found(c)
    ensures Steady(Enter(g.(nextId := g.nextId + 1), g.nextId, c, now))
    ensures Enter(g.(nextId := g.nextId + 1), g.nextId, c, now).rows == g.rows
  {
    hide Steady, Enter, Store.ValidName, Store.FromDoc, InDoc, Borne, Single, Loyal, Unwritten, FiledDoc;
    ValidHasKey(name);
    var k, id := Fold(name), g.nextId;
    var g', h := g.(nextId := g.nextId + 1), Enter(g.(nextId := g.nextId + 1), g.nextId, c, now);
    EnterShape(g', id, c, now);
    LoadedMarks(g.rows[k].doc, name);
    NameIsOwn(g, name, c);
    SteadyElsewhere(g, g');
    ArrivalKeepsSteady(g', h, id);
  }

  lemma NameIsOwn(g: Game, name: string, c: Character)
    requires Steady(g) && Store.ValidName(name) && Store.Load(g.rows, name) == Store.Found(c)
    ensures Fold(c.name) == Fold(name)
  {
    hide Store.FromDoc, Store.ValidName, Single, Loyal, Unwritten;
    ValidHasKey(name);
    assert FiledDoc(Fold(name), g.rows[Fold(name)].doc);
  }

  lemma SteadyElsewhere(g: Game, h: Game)
    requires Steady(g) && h.players == g.players && h.drafts == g.drafts && h.rows == g.rows
    ensures Steady(h)
  {
  }

  lemma DraftKeepsSteady(g: Game, name: string, now: int)
    requires Steady(g) && Unshared(g, Name(name, now)) && Store.ValidName(name) && Store.Load(g.rows, name).Missing?
    requires g.nextId !in g.drafts
    ensures Steady(g.(drafts := g.drafts[g.nextId := Clip(name, 33)], nextId := g.nextId + 1))
  {
    hide Store.ValidName, Filed, Loyal, Clip;
    ValidHasKey(name);
  }

  lemma NewcomerMarks(name: string, race: string)
    requires Store.ValidName(name)
    ensures var c := NewCharacter(name).(race := race);
            Borne(c) == Brand(false, false, false) && c.name == name && Store.Fits(c.(race := "")) && Store.Key(name) == Some(Fold(name))
  {
  }

  lemma RaceFits(c: Character, race: string)
    requires race in RACES && Store.Fits(c.(race := ""))
    ensures Store.Fits(c.(race := race))
  {
  }

  /** A life is chosen and saved, under a name nobody has written. */
  lemma PickedKeepsSteady(g: Game, id: nat, race: string, now: int)
    requires Inv(g) && Steady(g)
    ensures Steady(Picked(g, id, race, now)) && Kept(g.rows, Picked(g, id, race, now).rows)
  {
    hide Inv, Steady, Enter, Store.ValidName, NewCharacter, RACES, Store.Save, Store.ToDoc, Store.Fits, Borne, Kept;
    SameRowsKept(g.rows);
    DraftsAreValid(g);
    if id in g.drafts && race in RACES {
      var c := NewCharacter(g.drafts[id]).(race := race);
      NewcomerMarks(g.drafts[id], race);
      RaceFits(NewCharacter(g.drafts[id]), race);
      var m := g.(drafts := g.drafts - {id}, rows := Store.Save(g.rows, c));
      DraftLeaves(g, m, id, c);
      EnterShape(m, id, c, now);
      var h := Enter(m, id, c, now);
      SavedIsRecorded(g.rows, c);
      NewcomerKnows(h.players[id], h.rows, c);
      DraftsApart(g, id);
      ArrivalKeepsSteady(m, h, id);
    }
  }

  lemma SameRowsKept(rows: map<string, Store.Row>)
    ensures Kept(rows, rows)
  {
    hide InDoc;
  }

  lemma SavedIsRecorded(rows: map<string, Store.Row>, c: Character)
    requires Store.Key(c.name) == Some(Fold(c.name))
    ensures Recorded(Store.Save(rows, c), Fold(c.name)) == Borne(c)
    ensures forall k :: k != Fold(c.name) ==> Recorded(Store.Save(rows, c), k) == Recorded(rows, k)
  {
    hide Store.ToDoc, InDoc, Borne;
    SavedMarks(c);
  }

  lemma NewcomerKnows(p: Player, rows: map<string, Store.Row>, c: Character)
    requires p.c.name == c.name && c.name != "" && Borne(p.c) == Borne(c) && Recorded(rows, Fold(c.name)) == Borne(c)
    ensures Knows(p, rows)
  {
    hide Recorded, Borne;
  }

  lemma DraftsApart(g: Game, id: nat)
    requires Steady(g) && id in g.drafts
    ensures forall x :: x in g.players ==> Fold(g.players[x].c.name) != Fold(g.drafts[id])
    ensures forall x :: x in g.drafts - {id} ==> Fold(g.drafts[x]) != Fold(g.drafts[id])
  {
    hide Loyal, Filed, Unwritten;
  }

  /** The row of a name of nobody else's is written. */
  lemma DraftLeaves(g: Game, m: Game, id: nat, c: Character)
    requires Steady(g) && id in g.drafts && c.name == g.drafts[id] && Store.Fits(c)
    requires Store.Key(c.name) == Some(Fold(c.name)) && Borne(c) == Brand(false, false, false)
    requires m == g.(drafts := g.drafts - {id}, rows := Store.Save(g.rows, c))
    ensures Steady(m) && Kept(g.rows, m.rows)
  {
    hide InDoc, Borne, FiledDoc, Store.ToDoc, Store.Fits;
    SavedIsRecorded(g.rows, c);
    SavedIsFiled(c, Fold(c.name));
    forall x | x in m.players ensures Knows(m.players[x], m.rows) {
      assert Knows(g.players[x], g.rows);
    }
  }

  lemma ClosedKeepsSteady(g: Game, id: nat)
    requires Inv(g) && Steady(g)
    ensures Steady(Closed(g, id)) && Kept(g.rows, Closed(g, id).rows)
    ensures id in g.players ==> AtMost(Borne(g.players[id].c), Recorded(Closed(g, id).rows, Fold(g.players[id].c.name)))
  {
    hide Inv, Borne, Filed, Filter, Store.Save, Single, Loyal, Unwritten, Kept, Knows, Store.Fits, Recorded;
    SameRowsKept(g.rows);
    var h := Closed(g, id);
    FewerStaySingle(g.players, g.drafts, g.players - {id}, g.drafts);
    FewerStaySingle(g.players, g.drafts, g.players, g.drafts - {id});
    FewerUnwritten(g.drafts, g.rows, id);
    if id in g.players {
      LivesNow(g, id);
      FewerLoyal(g.players, g.rows, id);
      if g.players[id].playing {
        FarewellKeeps(g, id);
      }
    }
  }

  lemma FewerStaySingle(players: map<nat, Player>, drafts: map<nat, string>, p: map<nat, Player>, d: map<nat, string>)
    requires Single(players, drafts)
    requires forall x :: x in p ==> x in players && p[x] == players[x]
    requires forall x :: x in d ==> x in drafts && d[x] == drafts[x]
    ensures Single(p, d)
  {
  }

  lemma FewerUnwritten(drafts: map<nat, string>, rows: map<string, Store.Row>, id: nat)
    requires Unwritten(drafts, rows)
    ensures Unwritten(drafts - {id}, rows)
  {
  }

  lemma FewerLoyal(players: map<nat, Player>, rows: map<string, Store.Row>, id: nat)
    requires Loyal(players, rows) && id in players
    ensures Loyal(players - {id}, rows) && Knows(players[id], rows) && players[id].c.name != ""
    ensures !players[id].playing ==> AtMost(Borne(players[id].c), Recorded(rows, Fold(players[id].c.name)))
  {
    hide Recorded, Borne;
  }

  /** Who leaves is saved, and no one else's row is touched. */
  lemma FarewellKeeps(g: Game, id: nat)
    requires Steady(g) && id in g.players && Store.Fits(g.players[id].c)
    ensures var c := g.players[id].c;
            var rows := Store.Save(g.rows, c);
            && Loyal(g.players - {id}, rows) && Unwritten(g.drafts, rows) && Filed(rows) && Kept(g.rows, rows)
            && AtMost(Borne(c), Recorded(rows, Fold(c.name)))
  {
    hide InDoc, Borne, FiledDoc, Store.ToDoc, Store.Fits, Recorded, Store.Save;
    var c := g.players[id].c;
    assert Knows(g.players[id], g.rows);
    FitsHasFold(c);
    SavedIsRecorded(g.rows, c);
    SaveKeepsFiled(g.rows, c);
    SaveTouchesOne(g.rows, c);
    forall x | x in g.players && x != id ensures Knows(g.players[x], Store.Save(g.rows, c)) {
      assert Knows(g.players[x], g.rows);
    }
  }

  lemma FitsHasFold(c: Character)
    requires Store.Fits(c) && c.name != ""
    ensures Store.Key(c.name) == Some(Fold(c.name))
  {
  }

  lemma SaveKeepsFiled(rows: map<string, Store.Row>, c: Character)
    requires Filed(rows) && Store.Fits(c)
    ensures Filed(Store.Save(rows, c))
  {
    hide FiledDoc, Store.ToDoc, Store.Fits;
    SavedIsFiled(c, Fold(c.name));
  }

  lemma SaveTouchesOne(rows: map<string, Store.Row>, c: Character)
    ensures forall k :: k in Store.Save(rows, c) ==> k in rows || k == Fold(c.name)
  {
    hide Store.ToDoc;
  }

  // ------------------------------------------------------------- one step

  /** Events by which nobody comes or goes. */
  predicate Stays(e: Event) {
    e.Answer? || e.Do? || e.Tick? || e.Poll?
  }

  lemma StaysShape(g: Game, e: Event)
    requires Inv(g) && Possible(e) && Stays(e)
    ensures var h := Step(g, e);
            && h.drafts == g.drafts && h.players.Keys == g.players.Keys
            && (forall id :: id in g.players ==> Continues(g.players[id], h.players[id]))
  {
    hide Inv, Respawned, Play, Ticked, Answered, Continues, Wrote;
    StaysTheSame(g.players);
    match e
    case Do(id, cmd, now) =>
      if Acts(g, id) {
        RespawnedKeeps(g, now);
        SpawnMoves(g, now);
        PlayKeeps(Respawned(g, now), id, cmd, now);
      }
    case Tick(id, now) =>
      if Acts(g, id) {
        RespawnedKeeps(g, now);
        SpawnMoves(g, now);
        TickedKeeps(Respawned(g, now), id, now);
      }
    case Answer(id, sheet, now) => AnsweredShape(g, id, sheet, now);
    case _ =>
  }

  lemma AnsweredShape(g: Game, id: nat, sheet: Option<Commits.Sheet>, now: int)
    requires Inv(g)
    ensures var h := Answered(g, id, sheet, now);
            && h.drafts == g.drafts && h.players.Keys == g.players.Keys
            && (forall x :: x in g.players ==> Continues(g.players[x], h.players[x]))
  {
    hide Inv, Continues, Merge, TickRespawns, Risen, Hale, IsRoom, Alright;
    StaysTheSame(g.players);
    if id in g.players && !g.players[id].playing {
      EverybodyIsAlright(g, id);
      AnswerIsAlright(g.players[id], g.mobs, sheet);
    }
  }

  lemma EverybodyFits(g: Game)
    requires Inv(g)
    ensures forall id :: id in g.players ==> Store.Fits(g.players[id].c)
  {
    hide Inv, Store.Fits, Hale, IsRoom;
    forall id | id in g.players ensures Store.Fits(g.players[id].c) {
      LivesNow(g, id);
    }
  }

  /** As long as no name is typed a second time, every step leaves the store and the
   *  sessions agreed on every mark, and no row loses one. */
  lemma StepKeepsSteady(g: Game, e: Event)
    requires Inv(g) && Steady(g) && Possible(e) && Unshared(g, e)
    ensures Steady(Step(g, e)) && Kept(g.rows, Step(g, e).rows)
  {
    hide Inv, Steady, Kept, Continues, Wrote, Named, Picked, Closed, Unshared, Possible, Store.Fits;
    SameRowsKept(g.rows);
    match e
    case Name(name, now) => NamedKeepsSteady(g, name, now);
    case PickRace(id, race, now) => PickedKeepsSteady(g, id, race, now);
    case Close(id) => ClosedKeepsSteady(g, id);
    case _ =>
      hide Step;
      StaysShape(g, e);
      StepKeeps(g, e);
      EverybodyFits(Step(g, e));
      StayersKeep(g, Step(g, e));
  }

  // ------------------------------------------------------------ whole runs

  /** Along the run no name is typed that is in use. */
  ghost predicate NamesOnce(states: seq<Game>, es: seq<Event>) {
    |states| == |es| + 1 && forall i {:trigger es[i]} :: 0 <= i < |es| ==> Unshared(states[i], es[i])
  }

  lemma NamesOnceBefore(states: seq<Game>, es: seq<Event>)
    requires NamesOnce(states, es) && es != []
    ensures NamesOnce(Init(states), Init(es)) && Unshared(Last(Init(states)), Last(es))
  {
    hide Unshared;
    assert forall i {:trigger Init(es)[i]} :: 0 <= i < |es| - 1 ==> Init(es)[i] == es[i];
  }

  lemma KeptOn(a: map<string, Store.Row>, b: map<string, Store.Row>, c: map<string, Store.Row>)
    requires Kept(a, b) && Kept(b, c)
    ensures Kept(a, c)
  {
    hide Recorded;
    forall k ensures AtMost(Recorded(a, k), Recorded(c, k)) {
      assert AtMost(Recorded(a, k), Recorded(b, k)) && AtMost(Recorded(b, k), Recorded(c, k));
    }
  }

  lemma LeadKeepsSteady(g: Game, e: Event, h: Game)
    requires Inv(g) && Steady(g) && Leads(g, e, h) && Unshared(g, e)
    ensures Inv(h) && Steady(h) && Kept(g.rows, h.rows)
  {
    hide Inv, Steady, Kept, Step, Unshared, Possible;
    StepKeeps(g, e);
    StepKeepsSteady(g, e);
  }

  lemma {:induction false} RunKeepsSteady(states: seq<Game>, es: seq<Event>)
    requires Runs(states, es) && Inv(states[0]) && Steady(states[0]) && NamesOnce(states, es)
    ensures Inv(Last(states)) && Steady(Last(states)) && Kept(states[0].rows, Last(states).rows)
    decreases |es|
  {
    hide Inv, Steady, Kept, Leads, Runs, NamesOnce, Unshared;
    SomeState(states, es);
    if es == [] {
      NoStep(states, es);
      SameRowsKept(states[0].rows);
    } else {
      LastStep(states, es);
      NamesOnceBefore(states, es);
      RunKeepsSteady(Init(states), Init(es));
      LeadKeepsSteady(Last(Init(states)), Last(es), Last(states));
      KeptOn(states[0].rows, Last(Init(states)).rows, Last(states).rows);
    }
  }

  /** The marks a session had: it bears them, or its row records them once it has left. */
  predicate Remains(b: Brand, g: Game, id: nat, k: string) {
    if id in g.players then Fold(g.players[id].c.name) == k && AtMost(b, Borne(g.players[id].c))
    else AtMost(b, Recorded(g.rows, k))
  }

  /** Sessions leave by closing, and no other way. */
  lemma LeavesByClosing(g: Game, e: Event, id: nat)
    requires Inv(g) && Possible(e) && id in g.players && id !in Step(g, e).players
    ensures e == Close(id)
  {
    hide Inv, Respawned, Play, Ticked, Answered, Enter, Store.Load, Store.Save, RACES, Filter, Store.ValidName,
      Possible;
    match e
    case Name(name, now) => EnterShape(g.(nextId := g.nextId + 1), g.nextId, NewestOf(g, name), now);
    case PickRace(i, race, now) =>
      if i in g.drafts {
        var c := NewCharacter(g.drafts[i]).(race := race);
        EnterShape(g.(drafts := g.drafts - {i}, rows := Store.Save(g.rows, c)), i, c, now);
      }
    case Close(i) =>
    case _ => StaysShape(g, e);
  }

  function NewestOf(g: Game, name: string): Character {
    match Store.Load(g.rows, name) case Found(c) => c case _ => NewCharacter(name)
  }

  lemma RemainsStep(b: Brand, g: Game, e: Event, h: Game, id: nat, k: string)
    requires Inv(g) && Steady(g) && Leads(g, e, h) && Unshared(g, e) && Arrived(g, id) && Remains(b, g, id, k)
    ensures Remains(b, h, id, k)
  {
    hide Inv, Steady, Step, Borne, Recorded, Continues, Unshared, Closed, AtMost;
    StepKeeps(g, e);
    StepKeepsSteady(g, e);
    if id in g.players {
      if id in h.players {
        ContinuesMarks(g.players[id], h.players[id]);
        AtMostOn(b, Borne(g.players[id].c), Borne(h.players[id].c));
      } else {
        LeavesByClosing(g, e, id);
        ClosedKeepsSteady(g, id);
        ClosingCloses(g, id);
        AtMostOn(b, Borne(g.players[id].c), Recorded(h.rows, k));
      }
    } else {
      AtMostOn(b, Recorded(g.rows, k), Recorded(h.rows, k));
    }
  }

  lemma ClosingCloses(g: Game, id: nat)
    ensures Step(g, Close(id)) == Closed(g, id)
  {
    hide Closed;
  }

  lemma AtMostOn(a: Brand, b: Brand, c: Brand)
    requires AtMost(a, b) && AtMost(b, c)
    ensures AtMost(a, c)
  {
  }

  lemma {:induction false} MarksRemain(states: seq<Game>, es: seq<Event>, id: nat)
    requires Runs(states, es) && Inv(states[0]) && Steady(states[0]) && NamesOnce(states, es) && id in states[0].players
    ensures Remains(Borne(states[0].players[id].c), Last(states), id, Fold(states[0].players[id].c.name))
    decreases |es|
  {
    hide Inv, Steady, Leads, Runs, NamesOnce, Unshared, Borne, Recorded, Arrived, Kept;
    SomeState(states, es);
    if es == [] {
      NoStep(states, es);
    } else {
      LastStep(states, es);
      NamesOnceBefore(states, es);
      MarksRemain(Init(states), Init(es), id);
      RunKeepsSteady(Init(states), Init(es));
      ArrivedStays(Init(states), Init(es), id);
      RemainsStep(Borne(states[0].players[id].c), Last(Init(states)), Last(es), Last(states), id, Fold(states[0].players[id].c.name));
    }
  }

  lemma StartIsSteady(federated: bool, rows: map<string, Store.Row>)
    requires Filed(rows)
    ensures Steady(Start(federated, rows))
  {
    hide Filed, Seed;
  }

  /** A run of a server whose rows stand under their own names, with no name in use twice. */
  ghost predicate ServedOnce(states: seq<Game>, es: seq<Event>) {
    Served(states, es) && NamesOnce(states, es) && states != [] && Filed(states[0].rows)
  }

  lemma ServedOnceKeeps(states: seq<Game>, es: seq<Event>)
    requires ServedOnce(states, es)
    ensures states != [] && Inv(Last(states)) && Steady(Last(states))
  {
    hide Inv, Runs, NamesOnce, Filed, Sturdy, Start, Steady;
    var federated, rows :| Sturdy(rows) && states[0] == Start(federated, rows);
    StartRows(federated, rows);
    StartKeeps(federated, rows);
    StartIsSteady(federated, rows);
    RunKeepsSteady(states, es);
  }

  lemma StartRows(federated: bool, rows: map<string, Store.Row>)
    ensures Start(federated, rows).rows == rows
  {
    hide Seed;
  }

  /** Marks outlast sessions. However people come, go and come again, wait for the hub
   *  or choose a life, as long as nobody types a name in use: no row ever loses a mark,
   *  every session bears what its row records, and whoever comes back under a name, in
   *  whatever spelling, bears every mark anybody bore under it before. */
  lemma MarksOutlast(past: seq<Game>, olds: seq<Event>, states: seq<Game>, es: seq<Event>)
    requires ServedOnce(past, olds) && Runs(states, es) && NamesOnce(states, es) && states[0] == Last(past)
    ensures states != [] && forall k :: AtMost(Recorded(states[0].rows, k), Recorded(Last(states).rows, k))
    ensures forall id :: id in Last(states).players ==>
              AtMost(Recorded(Last(states).rows, Fold(Last(states).players[id].c.name)), Borne(Last(states).players[id].c))
    ensures forall id, later :: id in states[0].players && later in Last(states).players
              && SameName(states[0].players[id].c.name, Last(states).players[later].c.name)
              ==> AtMost(Borne(states[0].players[id].c), Borne(Last(states).players[later].c))
  {
    hide Inv, Steady, Runs, NamesOnce, ServedOnce, Borne, Recorded, AtMost;
    ServedOnceKeeps(past, olds);
    SomeState(states, es);
    RunKeepsSteady(states, es);
    var g, h := states[0], Last(states);
    forall id | id in h.players ensures AtMost(Recorded(h.rows, Fold(h.players[id].c.name)), Borne(h.players[id].c)) {
      SteadyKnows(h, id);
    }
    forall id, later | id in g.players && later in h.players && SameName(g.players[id].c.name, h.players[later].c.name)
      ensures AtMost(Borne(g.players[id].c), Borne(h.players[later].c))
    {
      MarksRemain(states, es, id);
      SteadyKnows(h, later);
      if id in h.players {
        OneOfAName(h, id, later);
      } else {
        AtMostOn(Borne(g.players[id].c), Recorded(h.rows, Fold(g.players[id].c.name)), Borne(h.players[later].c));
      }
    }
  }

  lemma SteadyKnows(g: Game, id: nat)
    requires Steady(g) && id in g.players
    ensures AtMost(Recorded(g.rows, Fold(g.players[id].c.name)), Borne(g.players[id].c))
  {
    hide Single, Filed, Unwritten, Recorded, Borne, AtMost;
    assert Knows(g.players[id], g.rows);
  }

  lemma OneOfAName(g: Game, a: nat, b: nat)
    requires Steady(g) && a in g.players && b in g.players && Fold(g.players[a].c.name) == Fold(g.players[b].c.name)
    ensures a == b
  {
    hide Loyal, Filed, Unwritten;
  }
}
