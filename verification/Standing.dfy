/** The game and the federation together: what the hub holds of a character once the
 *  server is down is what the store holds of it. */
module Standing {
  import opened Characters
  import opened Commands
  import opened Game
  import opened GameLaws
  import opened GameRuns
  import opened MarksKept
  import opened Sequences
  import opened Text
  import Commits
  import Federation
  import FederationRuns
  import Relay
  import Store

  type Call = Commits.Commit<Commits.Sheet>

  /** What commit_hub is asked for at an event: the sheet of a player whose connection
   *  closes, and within a command sheets of the acting player, whatever they say. */
  ghost predicate CommitsAt(g: Game, e: Event, calls: seq<Call>) {
    match e
    case Close(id) => calls == if Acts(g, id) then [Commits.Commit(g.players[id].c.name, Fill(g.players[id].c))] else []
    case Do(id, _, _) => forall c :: c in calls ==> Acts(g, id) && c.name == g.players[id].c.name
    case _ => calls == []
  }

  function Flat(batches: seq<seq<Call>>): seq<Call> {
    if batches == [] then [] else Flat(Init(batches)) + Last(batches)
  }

  /** One batch of commits an event. */
  ghost predicate Batched(states: seq<Game>, es: seq<Event>, batches: seq<seq<Call>>) {
    && |states| == |es| + 1 == |batches| + 1
    && forall i {:trigger batches[i]} :: 0 <= i < |es| ==> CommitsAt(states[i], es[i], batches[i])
  }

  /** Nobody plays under the name. */
  predicate Away(g: Game, k: string) {
    forall id :: id in g.players && g.players[id].playing ==> Fold(g.players[id].c.name) != k
  }

  /** The standing a row records. */
  function SheetIn(doc: Store.Doc): Commits.Sheet {
    Fill(Store.FromDoc(doc, ""))
  }

  /** What was last committed under a name is what its row records, while nobody plays under it. */
  ghost predicate Agrees(g: Game, calls: seq<Call>, k: string) {
    var last := Commits.LastWrite(calls);
    Away(g, k) && k in last ==> k in g.rows && g.rows[k].Record? && SheetIn(g.rows[k].doc) == last[k]
  }

  lemma SavedSheet(c: Character)
    requires Store.Fits(c)
    ensures SheetIn(Store.ToDoc(c)) == Fill(c)
  {
    hide Store.ToDoc, Store.FromDoc, Store.Fits;
    Store.RoundTrip(c, "");
  }

  lemma {:induction false} OtherWrites(a: seq<Call>, b: seq<Call>, k: string)
    requires forall c :: c in b ==> Fold(c.name) != k
    ensures k in Commits.LastWrite(a + b) <==> k in Commits.LastWrite(a)
    ensures k in Commits.LastWrite(a) ==> Commits.LastWrite(a + b)[k] == Commits.LastWrite(a)[k]
  {
    if b == [] {
      assert a + b == a;
    } else {
      assert Init(a + b) == a + Init(b) && Last(b) in b;
      OtherWrites(a, Init(b), k);
    }
  }

  lemma LastWriteIs(a: seq<Call>, c: Call)
    ensures Commits.LastWrite(a + [c]) == Commits.LastWrite(a)[Fold(c.name) := c.sheet]
  {
    assert Init(a + [c]) == a;
  }

  // -------------------------------------------------------------- one step

  /** Who stays and plays still plays; rows of names nobody plays under are not touched. */
  lemma StayersAgree(g: Game, e: Event, calls: seq<Call>, now: seq<Call>, k: string)
    requires Inv(g) && Possible(e) && Stays(e) && CommitsAt(g, e, now) && Agrees(g, calls, k)
    ensures Agrees(Step(g, e), calls + now, k)
  {
    hide Inv, Step, Possible, Continues, Wrote, Fill, Store.FromDoc, Store.ToDoc, Commits.LastWrite;
    var h := Step(g, e);
    if Away(h, k) {
      StaysShape(g, e);
      StepKeeps(g, e);
      forall id | id in g.players && g.players[id].playing ensures Fold(g.players[id].c.name) != k {
        PlaysOn(g.players[id], h.players[id]);
      }
      NoRowLost(g, h, k);
      if k in h.rows && !(k in g.rows && h.rows[k] == g.rows[k]) {
        var x := WrittenBy(g, h, k);
      }
      OtherWrites(calls, now, k);
    }
  }

  lemma PlaysOn(p: Player, q: Player)
    requires Continues(p, q)
    ensures q.c.name == p.c.name && (p.playing ==> q.playing)
  {
  }

  lemma ClosingAgrees(g: Game, id: nat, calls: seq<Call>, now: seq<Call>, k: string)
    requires Inv(g) && Steady(g) && CommitsAt(g, Close(id), now) && Agrees(g, calls, k)
    ensures Agrees(Closed(g, id), calls + now, k)
  {
    hide Inv, Steady, Fill, Store.FromDoc, Store.ToDoc, Commits.LastWrite, Store.Fits, Filter;
    if Acts(g, id) {
      var c := g.players[id].c;
      LivesNow(g, id);
      NamedWhoPlays(g, id);
      FitsHasFold(c);
      SavedSheet(c);
      LastWriteIs(calls, now[0]);
      assert now == [now[0]];
      if k != Fold(c.name) && Away(Closed(g, id), k) {
        assert forall x :: x in g.players && x != id ==> x in Closed(g, id).players;
      }
    } else {
      assert calls + now == calls;
      StillAway(g, id, k);
    }
  }

  lemma StillAway(g: Game, id: nat, k: string)
    requires !Acts(g, id)
    ensures Closed(g, id).rows == g.rows && (Away(Closed(g, id), k) ==> Away(g, k))
  {
    hide Filter, Store.Save;
    forall x | x in g.players && g.players[x].playing ensures x in Closed(g, id).players {
      assert x != id;
    }
  }

  lemma NamedWhoPlays(g: Game, id: nat)
    requires Steady(g) && id in g.players
    ensures g.players[id].c.name != ""
  {
    hide Single, Filed, Unwritten, Recorded, Borne, AtMost;
    assert Knows(g.players[id], g.rows);
  }

  lemma NamingAgrees(g: Game, name: string, now: int, calls: seq<Call>, k: string)
    requires Inv(g) && Agrees(g, calls, k)
    ensures Agrees(Named(g, name, now), calls, k)
  {
    hide Inv, Enter, Fill, Store.FromDoc, Commits.LastWrite, Store.ValidName, Store.Load;
    NamedKeeps(g, name, now);
    NewIdIsNew(g);
    if Store.ValidName(name) && Store.Load(g.rows, name).Found? {
      EnterShape(g.(nextId := g.nextId + 1), g.nextId, Store.Load(g.rows, name).c, now);
    }
    assert forall x :: x in g.players ==> x in Named(g, name, now).players && Named(g, name, now).players[x] == g.players[x];
  }

  lemma PickingAgrees(g: Game, id: nat, race: string, now: int, calls: seq<Call>, k: string)
    requires Inv(g) && Steady(g) && Agrees(g, calls, k)
    ensures Agrees(Picked(g, id, race, now), calls, k)
  {
    hide Inv, Enter, Fill, Store.FromDoc, Store.ToDoc, Commits.LastWrite, Store.ValidName, RACES, NewCharacter,
      Loyal, Filed;
    DraftsAreValid(g);
    if id in g.drafts && race in RACES {
      var c := NewCharacter(g.drafts[id]).(race := race);
      NewcomerMarks(g.drafts[id], race);
      EnterShape(g.(drafts := g.drafts - {id}, rows := Store.Save(g.rows, c)), id, c, now);
      var h := Picked(g, id, race, now);
      assert forall x :: x in g.players ==> x in h.players && h.players[x] == g.players[x];
      if Away(h, k) && k == Fold(g.drafts[id]) {
        assert k !in g.rows;
      }
    }
  }

  lemma StepAgrees(g: Game, e: Event, h: Game, calls: seq<Call>, now: seq<Call>, k: string)
    requires Inv(g) && Steady(g) && Leads(g, e, h) && CommitsAt(g, e, now) && Agrees(g, calls, k)
    ensures Agrees(h, calls + now, k)
  {
    hide Inv, Steady, Agrees, Possible, Named, Picked, Answered, Closed, Play, Ticked, Respawned;
    assert now == [] ==> calls + now == calls;
    match e
    case Name(name, at) => NamingAgrees(g, name, at, calls, k);
    case PickRace(id, race, at) => PickingAgrees(g, id, race, at, calls, k);
    case Close(id) => ClosingAgrees(g, id, calls, now, k);
    case _ => StayersAgree(g, e, calls, now, k);
  }

  // ------------------------------------------------------------ whole runs

  lemma CommitsBefore(states: seq<Game>, es: seq<Event>, batches: seq<seq<Call>>)
    requires Batched(states, es, batches) && es != []
    ensures batches != [] && Batched(Init(states), Init(es), Init(batches))
    ensures CommitsAt(Last(Init(states)), Last(es), Last(batches))
  {
    hide CommitsAt;
    forall i | 0 <= i < |es| - 1 ensures CommitsAt(Init(states)[i], Init(es)[i], Init(batches)[i]) {
      assert CommitsAt(states[i], es[i], batches[i]);
    }
    assert CommitsAt(states[|es| - 1], es[|es| - 1], batches[|es| - 1]);
  }

  lemma {:induction false} RunAgrees(states: seq<Game>, es: seq<Event>, batches: seq<seq<Call>>, k: string)
    requires Runs(states, es) && Inv(states[0]) && Steady(states[0]) && NamesOnce(states, es)
            && Batched(states, es, batches)
    ensures Agrees(Last(states), Flat(batches), k)
    decreases |es|
  {
    hide Inv, Steady, Leads, Runs, NamesOnce, Unshared, Agrees, CommitsAt, Batched;
    SomeState(states, es);
    if es == [] {
      NoStep(states, es);
      NothingCommitted(states, es, batches, k);
    } else {
      LastStep(states, es);
      NamesOnceBefore(states, es);
      CommitsBefore(states, es, batches);
      RunAgrees(Init(states), Init(es), Init(batches), k);
      RunKeepsSteady(Init(states), Init(es));
      StepAgrees(Last(Init(states)), Last(es), Last(states), Flat(Init(batches)), Last(batches), k);
    }
  }

  lemma NothingCommitted(states: seq<Game>, es: seq<Event>, batches: seq<seq<Call>>, k: string)
    requires Batched(states, es, batches) && es == []
    ensures Agrees(Last(states), Flat(batches), k)
  {
    hide CommitsAt, SheetIn, Away;
  }

  lemma ServedAgrees(states: seq<Game>, es: seq<Event>, batches: seq<seq<Call>>, k: string)
    requires ServedOnce(states, es) && Batched(states, es, batches)
    ensures Agrees(Last(states), Flat(batches), k)
  {
    hide Inv, Runs, NamesOnce, Filed, Sturdy, Start, Steady, Agrees, Batched;
    var federated, rows :| Sturdy(rows) && states[0] == Start(federated, rows);
    StartRows(federated, rows);
    StartKeeps(federated, rows);
    StartIsSteady(federated, rows);
    RunAgrees(states, es, batches, k);
  }

  /** A run of the game and a run of the federation that got exactly the game's commits.
   *  Once the worker has ended, whatever interleaving led there, the standing the hub was
   *  last given under a name nobody plays under any more is the standing in the store,
   *  unless a full buffer pushed that name's sheet out; names that never committed are
   *  not among those the hub was given. */
  lemma HubAgreesWithStore(games: seq<Game>, es: seq<Event>, batches: seq<seq<Call>>,
                           systems: seq<Federation.System>, acts: seq<Federation.Event>, log: seq<Relay.Cast>, cursor: int, k: string)
    requires ServedOnce(games, es) && Batched(games, es, batches)
    requires FederationRuns.Served(systems, acts, log, cursor) && |systems| == |acts| + 1 && Last(systems).pc.Exited?
    requires FederationRuns.Calls(systems, acts) == Flat(batches)
    requires Away(Last(games), k) && k !in Last(systems).commits.lost
    ensures var given, called := Commits.LastWrite(Last(systems).commits.sent), Commits.LastWrite(Flat(batches));
            && (k in given <==> k in called)
            && (k in given ==>
                  k in Last(games).rows && Last(games).rows[k].Record? && SheetIn(Last(games).rows[k].doc) == given[k])
  {
    hide ServedOnce, Batched, Away, SheetIn, FederationRuns.Served, Commits.LastWrite, FederationRuns.Calls;
    ServedAgrees(games, es, batches, k);
    FederationRuns.GracefulShutdown(systems, acts, log, cursor);
    var l := Last(systems).commits;
    var given, called := Commits.LastWrite(l.sent), Commits.LastWrite(Flat(batches));
    assert k in given - l.lost <==> k in given;
    assert k in called - l.lost <==> k in called;
    assert k in given ==> (given - l.lost)[k] == given[k];
    assert k in called ==> (called - l.lost)[k] == called[k];
  }
}
