/** How marks are lost after all: exactly when, in which runs, and in what company. */
module MarksLost {
  import opened Characters
  import opened Commands
  import opened Game
  import opened GameLaws
  import opened GameRuns
  import opened MarksKept
  import opened Sequences
  import opened Text
  import opened World
  import Caches
  import Commits
  import Store

  // --------------------------------------------------- when a mark is lost

  /** A save takes a mark off its row exactly when the saved character lacks one that
   *  the row records. */
  lemma SavingClearsIff(rows: map<string, Store.Row>, c: Character)
    requires Store.Key(c.name).Some?
    ensures Kept(rows, Store.Save(rows, c)) <==> AtMost(Recorded(rows, Fold(c.name)), Borne(c))
  {
    hide Store.ToDoc, InDoc, Borne, AtMost, Store.Save, Recorded;
    SavedIsRecorded(rows, c);
    forall k | k != Fold(c.name) ensures AtMost(Recorded(rows, k), Recorded(Store.Save(rows, c), k)) {
      AtMostSelf(Recorded(rows, k));
    }
  }

  lemma AtMostSelf(a: Brand)
    ensures AtMost(a, a)
  {
  }

  /** The session lacks a mark its row records. */
  predicate Behind(g: Game, id: nat) {
    id in g.players && g.players[id].c.name != "" && !AtMost(Recorded(g.rows, Fold(g.players[id].c.name)), Borne(g.players[id].c))
  }

  /** A life being chosen whose row already records a mark. */
  predicate Taken(g: Game, id: nat) {
    id in g.drafts && Recorded(g.rows, Fold(g.drafts[id])) != Brand(false, false, false)
  }

  /** Closing a connection costs its row a mark exactly when it plays and is behind. */
  lemma ClosingClearsIff(g: Game, id: nat)
    requires Inv(g) && id in g.players
    ensures !Kept(g.rows, Closed(g, id).rows) <==> g.players[id].playing && Behind(g, id)
  {
    hide Inv, Kept, Store.Save, Recorded, Borne, AtMost, Filter, Store.Fits;
    LivesNow(g, id);
    SameRowsKept(g.rows);
    var c := g.players[id].c;
    if c.name != "" {
      FitsHasFold(c);
      SavingClearsIff(g.rows, c);
    } else {
      NamelessIsUnsaved(g.rows, c);
    }
  }

  lemma NamelessIsUnsaved(rows: map<string, Store.Row>, c: Character)
    requires c.name == ""
    ensures Store.Save(rows, c) == rows
  {
  }

  /** Choosing a life costs its row a mark exactly when the row has one by then. */
  lemma PickingClearsIff(g: Game, id: nat, race: string, now: int)
    requires Inv(g) && id in g.drafts && race in RACES
    ensures !Kept(g.rows, Picked(g, id, race, now).rows) <==> Taken(g, id)
  {
    hide Inv, Kept, Store.Save, Enter, Recorded, Store.ValidName, RACES, NewCharacter, Store.Fits;
    DraftsAreValid(g);
    var c := NewCharacter(g.drafts[id]).(race := race);
    NewcomerMarks(g.drafts[id], race);
    EnterShape(g.(drafts := g.drafts - {id}, rows := Store.Save(g.rows, c)), id, c, now);
    SavingClearsIff(g.rows, c);
  }

  /** No step at all takes a mark off a row while nobody is behind and no life is being
   *  chosen under a marked name. */
  lemma LossNeedsABehind(g: Game, e: Event)
    requires Inv(g) && Possible(e) && !Kept(g.rows, Step(g, e).rows)
    ensures (exists id :: Behind(g, id)) || (e.PickRace? && Taken(g, e.id))
  {
    hide Inv, Kept, Continues, Wrote, Named, Picked, Closed, Possible, Store.Fits, Behind, Taken, RACES;
    SameRowsKept(g.rows);
    match e
    case Name(name, now) => NamedKeeps(g, name, now);
    case PickRace(id, race, now) =>
      if id in g.drafts && race in RACES {
        PickingClearsIff(g, id, race, now);
      } else {
        PickingNothing(g, id, race, now);
      }
    case Close(id) =>
      if id in g.players {
        ClosingClearsIff(g, id);
      } else {
        ClosingNobody(g, id);
      }
    case _ =>
      hide Step;
      StaysShape(g, e);
      StepKeeps(g, e);
      EverybodyFits(Step(g, e));
      WriterIsBehind(g, Step(g, e));
  }

  lemma PickingNothing(g: Game, id: nat, race: string, now: int)
    requires id !in g.drafts || race !in RACES
    ensures Picked(g, id, race, now) == g
  {
  }

  lemma ClosingNobody(g: Game, id: nat)
    requires id !in g.players
    ensures Closed(g, id).rows == g.rows
  {
  }

  lemma WriterIsBehind(g: Game, h: Game)
    requires Wrote(g.rows, h.rows, h.players) && h.players.Keys == g.players.Keys && !Kept(g.rows, h.rows)
    requires forall id :: id in g.players ==> Continues(g.players[id], h.players[id])
    requires forall id :: id in h.players ==> Store.Fits(h.players[id].c)
    ensures exists id :: Behind(g, id)
  {
    hide Wrote, Continues, Recorded, Borne, Store.Fits, AtMost, Store.ToDoc;
    var k :| !AtMost(Recorded(g.rows, k), Recorded(h.rows, k));
    NoRowLost(g, h, k);
    AtMostSelf(Recorded(g.rows, k));
    SameRowSameMarks(g.rows, h.rows, k);
    var x := WrittenBy(g, h, k);
    WrittenIsNamed(g, h, k);
    assert x in h.players.Keys;
    ContinuesMarks(g.players[x], h.players[x]);
    if AtMost(Recorded(g.rows, k), Borne(g.players[x].c)) {
      AtMostOn(Recorded(g.rows, k), Borne(g.players[x].c), Borne(h.players[x].c));
    }
    assert Behind(g, x);
  }

  lemma SameRowSameMarks(was: map<string, Store.Row>, rows: map<string, Store.Row>, k: string)
    requires k in was ==> k in rows
    ensures (k in was && rows[k] == was[k]) || k !in rows ==> Recorded(rows, k) == Recorded(was, k)
  {
    hide InDoc;
  }

  lemma WrittenIsNamed(g: Game, h: Game, k: string)
    requires Wrote(g.rows, h.rows, h.players) && k in h.rows && !(k in g.rows && h.rows[k] == g.rows[k])
    ensures k != ""
  {
    hide Store.ToDoc;
  }

  /** And that never comes about before a name in use is typed again. */
  lemma BehindNeedsCompany(states: seq<Game>, es: seq<Event>, id: nat)
    requires Served(states, es) && states != [] && Filed(states[0].rows)
    requires Behind(Last(states), id) || Taken(Last(states), id)
    ensures !NamesOnce(states, es)
  {
    hide Served, Inv, NamesOnce, Single, Filed;
    if NamesOnce(states, es) {
      ServedOnceKeeps(states, es);
    }
  }

  // ------------------------------------------------------ the two failures

  lemma TypingNew(g: Game, name: string, now: int)
    requires Store.ValidName(name) && Fold(name) !in g.rows
    ensures Step(g, Name(name, now)) == g.(drafts := g.drafts[g.nextId := name], nextId := g.nextId + 1)
  {
    hide Store.ValidName;
    ValidHasKey(name);
  }

  /** The character of somebody newly arrived. */
  function Newcomer(name: string, race: string): Character {
    NewCharacter(name).(race := race)
  }

  lemma Choosing(g: Game, id: nat, race: string, now: int)
    requires id in g.drafts && Store.ValidName(g.drafts[id]) && race in RACES && !g.federated
    ensures var c := Newcomer(g.drafts[id], race);
            var h := Step(g, PickRace(id, race, now));
            && h.players == g.players[id := Player(true, c, "", false, 0, 0, 0)] && h.drafts == g.drafts - {id}
            && h.rows == Store.Save(g.rows, c) && h.nextId == g.nextId && h.federated == g.federated
  {
    hide Store.ValidName, RACES, Store.Save, TickRespawns, Risen, IsRoom;
    ValidHasKey(g.drafts[id]);
    NexusIsRoom();
  }

  lemma ComingBack(g: Game, name: string, c: Character, now: int)
    requires Store.ValidName(name) && !g.federated && Store.Load(g.rows, name) == Store.Found(c)
    requires c.room == "nexus" && c.position != ""
    ensures var h := Step(g, Name(name, now));
            && h.players == g.players[g.nextId := Player(true, c, "", false, 0, 0, c.xp)] && h.drafts == g.drafts
            && h.rows == g.rows && h.nextId == g.nextId + 1 && h.federated == g.federated
  {
    hide Store.ValidName, Store.Load, TickRespawns, Risen, IsRoom;
    NexusIsRoom();
  }

  lemma NorthOfNexus()
    ensures World.Move(World.Find("nexus"), "north").Some?
            && World.Move(World.Find("nexus"), "north").value.id == "market"
  {
  }

  lemma WalkingToMarket(g: Game, id: nat, now: int)
    requires Acts(g, id) && g.players[id].c.room == "nexus" && g.players[id].target == ""
    ensures var p := g.players[id];
            var c := p.c.(room := "market", position := "standing");
            var h := Step(g, Do(id, Walk("north"), now));
            && h.players == g.players[id := p.(c := c)] && h.rows == Store.Save(g.rows, c)
            && h.drafts == g.drafts && h.nextId == g.nextId && h.federated == g.federated
  {
    hide TickRespawns, Risen, Store.Save, World.Move, World.Find, Clamp;
    NorthOfNexus();
  }

  /** A hunted recruit at the market. */
  lemma TakingTheCoin(g: Game, id: nat, now: int)
    requires Acts(g, id) && g.players[id].c.room == "market" && !g.players[id].resolved
            && RaceIsHunted(g.players[id].c.race)
    ensures var t := Join(g.players[id]);
            var h := Step(g, Do(id, JoinFront, now));
            && h.players == g.players[id := t.p] && h.rows == Store.Save(g.rows, t.p.c)
            && h.drafts == g.drafts && h.nextId == g.nextId && h.federated == g.federated
            && t.p.c.ashsworn && t.p.c.name == g.players[id].c.name && t.p.playing
  {
    hide TickRespawns, Risen, Store.Save;
  }

  lemma FreshReads(name: string, race: string, rows: map<string, Store.Row>)
    requires Store.ValidName(name) && race in RACES
    ensures var c := Newcomer(name, race);
            Store.Load(Store.Save(rows, c), name) == Store.Found(c) && c.name == name && c.room == "nexus" && c.position == "standing"
  {
    hide Store.ValidName, Store.ToDoc, Store.FromDoc;
    var c := Newcomer(name, race);
    ValidHasKey(name);
    NewcomerMarks(name, race);
    RaceFits(NewCharacter(name), race);
    Store.RoundTrip(c, name);
  }

  /** An elf just arrived walks to the market and takes the oath: branded, and on record so. */
  lemma ElfTakesTheOath(g: Game, id: nat)
    requires Acts(g, id) && g.players[id] == Player(true, Newcomer("asha", "elf"), "", false, 0, 0, 0)
    ensures var h := Step(Step(g, Do(id, Walk("north"), 1)), Do(id, JoinFront, 1));
            && Acts(h, id) && h.players == g.players[id := h.players[id]] && h.drafts == g.drafts
            && h.nextId == g.nextId
            && h.federated == g.federated && h.players[id].c.name == "asha" && h.players[id].c.ashsworn
            && Recorded(h.rows, Fold("asha")).ash
  {
    hide Step, Join, Store.Save, InDoc, Recorded;
    WalkingToMarket(g, id, 1);
    var m := Step(g, Do(id, Walk("north"), 1));
    TakingTheCoin(m, id, 1);
    SavedIsRecorded(m.rows, Join(m.players[id]).p.c);
  }

  lemma AshaIsAName()
    ensures Store.ValidName("asha") && "elf" in RACES && Fold("asha") != ""
  {
  }

  /** Two sessions of one name. The first is branded; the second, which entered before
   *  that, is closed last, and its older self wins. */
  lemma TwinForgets() returns (states: seq<Game>, es: seq<Event>)
    ensures Served(states, es) && |states| == 7 && |es| == 6 && Filed(states[0].rows)
    ensures es[5] == Close(1) && Recorded(states[5].rows, Fold("asha")).ash
            && !Recorded(states[6].rows, Fold("asha")).ash
  {
    hide Step, InDoc, Recorded, Store.Save, Store.ValidName, Store.Load, Start, RACES, Newcomer, Sturdy;
    var g := Start(false, map[]);
    es := [Name("asha", 1), PickRace(0, "elf", 1), Name("asha", 1), Do(0, Walk("north"), 1), Do(0, JoinFront, 1), Close(1)];
    states := EveryListRuns(g, es);
    AshaIsAName();
    EmptyStart();
    assert Leads(states[0], es[0], states[1]) && Leads(states[1], es[1], states[2]) && Leads(states[2], es[2], states[3]);
    assert Leads(states[3], es[3], states[4]) && Leads(states[4], es[4], states[5]) && Leads(states[5], es[5], states[6]);
    TypingNew(states[0], "asha", 1);
    Choosing(states[1], 0, "elf", 1);
    var c := Newcomer("asha", "elf");
    FreshReads("asha", "elf", states[1].rows);
    NewcomerIsPlain();
    ComingBack(states[2], "asha", c, 1);
    ElfTakesTheOath(states[3], 0);
    assert states[5].players[1] == states[3].players[1];
    ClosingSaves(states[5], 1);
    SavedIsRecorded(states[5].rows, c);
  }

  lemma NewcomerIsPlain()
    ensures var c := Newcomer("asha", "elf");
            !c.ashsworn && c.xp == 0 && c.name == "asha" && Store.Key(c.name) == Some(Fold(c.name))
  {
  }

  lemma EmptyStart()
    ensures var g := Start(false, map[]);
            && Sturdy(map[]) && g.players == map[] && g.drafts == map[] && g.nextId == 0 && !g.federated
            && g.rows == map[]
  {
    hide Seed;
  }

  lemma ClosingSaves(g: Game, id: nat)
    requires Acts(g, id)
    ensures Step(g, Close(id)).rows == Store.Save(g.rows, g.players[id].c)
    ensures Step(g, Close(id)).players == g.players - {id} && Step(g, Close(id)).drafts == g.drafts
    ensures Step(g, Close(id)).federated == g.federated
  {
    hide Store.Save, Filter;
  }

  /** Two connections choose a life under one unused name. The first plays, is branded and
   *  leaves; then the second picks its race, and a blank life is written over the record. */
  lemma LateChoiceForgets() returns (states: seq<Game>, es: seq<Event>)
    ensures Served(states, es) && |states| == 8 && |es| == 7 && Filed(states[0].rows)
    ensures es[6] == PickRace(1, "elf", 1) && states[6].players == map[]
    ensures Recorded(states[6].rows, Fold("asha")).ash && !Recorded(states[7].rows, Fold("asha")).ash
  {
    hide Step, InDoc, Recorded, Store.Save, Store.ValidName, Start, RACES, Newcomer, Sturdy;
    var g := Start(false, map[]);
    es := [Name("asha", 1), Name("asha", 1), PickRace(0, "elf", 1), Do(0, Walk("north"), 1), Do(0, JoinFront, 1), Close(0),
           PickRace(1, "elf", 1)];
    states := EveryListRuns(g, es);
    AshaIsAName();
    EmptyStart();
    assert Leads(states[0], es[0], states[1]) && Leads(states[1], es[1], states[2]) && Leads(states[2], es[2], states[3]);
    assert Leads(states[3], es[3], states[4]) && Leads(states[4], es[4], states[5]) && Leads(states[5], es[5], states[6]);
    assert Leads(states[6], es[6], states[7]);
    TypingNew(states[0], "asha", 1);
    TypingNew(states[1], "asha", 1);
    Choosing(states[2], 0, "elf", 1);
    NewcomerIsPlain();
    ElfTakesTheOath(states[3], 0);
    ClosingSaves(states[5], 0);
    SavedIsRecorded(states[5].rows, states[5].players[0].c);
    Choosing(states[6], 1, "elf", 1);
    SavedIsRecorded(states[6].rows, Newcomer("asha", "elf"));
  }

  // --------------------------------------- what company always makes possible

  lemma Preceded(g: Game, e: Event, states: seq<Game>, es: seq<Event>)
    requires Runs(states, es) && Leads(g, e, states[0])
    ensures Runs([g] + states, [e] + es) && Last([g] + states) == Last(states)
  {
    hide Leads;
    forall i {:trigger ([e] + es)[i]} | 0 <= i < |es| + 1 ensures Leads(([g] + states)[i], ([e] + es)[i], ([g] + states)[i + 1]) {
      if i > 0 {
        assert Leads(states[i - 1], es[i - 1], states[i]) && ([e] + es)[i] == es[i - 1];
      }
    }
  }

  lemma Followed(states: seq<Game>, es: seq<Event>, e: Event, h: Game)
    requires Runs(states, es) && states != [] && Leads(Last(states), e, h)
    ensures Runs(states + [h], es + [e]) && Init(states + [h]) == states
  {
    hide Leads;
    forall i {:trigger (es + [e])[i]} | 0 <= i < |es| + 1 ensures Leads((states + [h])[i], (es + [e])[i], (states + [h])[i + 1]) {
      if i < |es| {
        assert Leads(states[i], es[i], states[i + 1]) && (es + [e])[i] == es[i];
      }
    }
  }

  /** A thief is at the market, and its row records just what it bears. */
  predicate OnTheMake(g: Game, id: nat, k: string) {
    && Acts(g, id) && g.players[id].c.room == "market" && Store.Key(g.players[id].c.name) == Some(k)
    && Recorded(g.rows, k) == Borne(g.players[id].c)
  }

  lemma OneTheft(g: Game, id: nat, k: string)
    requires OnTheMake(g, id, k)
    ensures var h := Step(g, Do(id, StealCoin, 1));
            && OnTheMake(h, id, k) && h.players == g.players[id := h.players[id]]
            && var m, n := g.players[id].c.morality, h.players[id].c.morality;
               (n < m || n == MORALITY_FLOOR) && (n <= STRAY_FLOOR ==> h.players[id].c.strayed)
  {
    hide TickRespawns, Risen, Store.Save, InDoc, Recorded, Store.Key;
    var t := Steal(g.players[id]);
    KeyIsFold(t.p.c.name, k);
    SavedIsRecorded(g.rows, t.p.c);
  }

  lemma KeyIsFold(name: string, k: string)
    requires Store.Key(name) == Some(k)
    ensures k == Fold(name)
  {
  }

  lemma {:induction false} ThievesStray(g: Game, id: nat, k: string) returns (states: seq<Game>, es: seq<Event>)
    requires OnTheMake(g, id, k)
    ensures Runs(states, es) && states != [] && states[0] == g && Recorded(Last(states).rows, k).strayed
    ensures id in Last(states).players && Last(states).players == g.players[id := Last(states).players[id]]
    decreases if g.players[id].c.strayed then -1 else g.players[id].c.morality - MORALITY_FLOOR
  {
    hide Step, Recorded, Store.Key;
    if g.players[id].c.strayed {
      states, es := [g], [];
    } else {
      OneTheft(g, id, k);
      var h := Step(g, Do(id, StealCoin, 1));
      if h.players[id].c.strayed {
        states, es := [g, h], [Do(id, StealCoin, 1)];
      } else {
        var rest, more := ThievesStray(h, id, k);
        Preceded(g, Do(id, StealCoin, 1), rest, more);
        states, es := [g] + rest, [Do(id, StealCoin, 1)] + more;
      }
    }
  }

  lemma ToMarket(g: Game, id: nat, k: string)
    requires Acts(g, id) && Store.Key(g.players[id].c.name) == Some(k)
    ensures var h := Step(Step(g, Do(id, GoHome, 1)), Do(id, Walk("north"), 1));
            OnTheMake(h, id, k) && h.players == g.players[id := h.players[id]]
  {
    hide Step, Store.Key, Recorded;
    GoingHome(g, id, 1);
    var m := Step(g, Do(id, GoHome, 1));
    WalkingToMarket(m, id, 1);
    KeyIsFold(g.players[id].c.name, k);
    SavedIsRecorded(m.rows, m.players[id].c.(room := "market", position := "standing"));
  }

  lemma GoingHome(g: Game, id: nat, now: int)
    requires Acts(g, id)
    ensures var h := Step(g, Do(id, GoHome, now));
            Acts(h, id) && h.players == g.players[id := Recall(g.players[id]).p]
  {
    hide TickRespawns, Risen, Store.Save, Clamp;
  }

  /** Whenever two sessions play under one name and one of them has not strayed, there is
   *  a way for the game to go on that records straying in their row and then loses it. */
  lemma TwinsCanForget(g: Game, a: nat, b: nat) returns (states: seq<Game>, es: seq<Event>)
    requires Inv(g) && Acts(g, a) && Acts(g, b) && a != b && !g.players[b].c.strayed
    requires SameName(g.players[a].c.name, g.players[b].c.name) && g.players[a].c.name != ""
    ensures Runs(states, es) && |states| > 1 && states[0] == g && es != [] && Last(es) == Close(b)
    ensures var k := Fold(g.players[b].c.name);
            Recorded(Last(Init(states)).rows, k).strayed && !Recorded(Last(states).rows, k).strayed
  {
    hide Inv, Step, Recorded, Store.Key, OnTheMake, Store.Fits, Store.Save;
    LivesNow(g, a);
    LivesNow(g, b);
    FitsHasFold(g.players[a].c);
    Store.SameLength(g.players[a].c.name, g.players[b].c.name);
    FitsHasFold(g.players[b].c);
    var k := Fold(g.players[b].c.name);
    var m := Step(g, Do(a, GoHome, 1));
    ToMarket(g, a, k);
    var h := Step(m, Do(a, Walk("north"), 1));
    var rest, more := ThievesStray(h, a, k);
    Preceded(m, Do(a, Walk("north"), 1), rest, more);
    Preceded(g, Do(a, GoHome, 1), [m] + rest, [Do(a, Walk("north"), 1)] + more);
    states, es := [g] + ([m] + rest), [Do(a, GoHome, 1)] + ([Do(a, Walk("north"), 1)] + more);
    ClosingSaves(Last(states), b);
    SavedIsRecorded(Last(states).rows, g.players[b].c);
    Followed(states, es, Close(b), Step(Last(states), Close(b)));
    states, es := states + [Step(Last(states), Close(b))], es + [Close(b)];
  }
}
