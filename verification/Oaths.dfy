/** The recruiters' question is answered once a session, one way or the other. */
module Oaths {
  import opened Characters
  import opened Commands
  import opened Game
  import opened GameLaws
  import opened GameRuns
  import opened Sequences
  import opened Text
  import opened World
  import Caches
  import Commits
  import Store

  /** Morality after a shift, held between its bounds. */
  function Swayed(morality: int, shift: int): int {
    var sum := morality + shift;
    if sum > 100 then 100 else if sum < -100 then -100 else sum
  }

  /** The moral arc between a character that has just changed and the one left behind: who
   *  sinks to twenty below has strayed; who has strayed before, rises to five and does not
   *  stand with the Front has come back, and is announced unless bearing ash. */
  predicate Arced(c: Character, d: Character, announced: bool) {
    var strays := !c.strayed && c.morality <= -20;
    var comesBack := c.strayed && !c.redeemed && c.morality >= 5 && c.faction != "front";
    && d.strayed == (c.strayed || strays) && d.redeemed == (c.redeemed || comesBack)
    && (announced <==> comesBack && !c.ashsworn)
    && d.title == (if announced && c.title == "" then "the Returned" else c.title)
    && d == c.(strayed := d.strayed, redeemed := d.redeemed, title := d.title)
  }

  lemma ArcIsArced(t: Turn)
    requires !t.returned
    ensures Arced(t.p.c, MoralArc(t).p.c, MoralArc(t).returned)
    ensures MoralArc(t).p == t.p.(c := MoralArc(t).p.c) && MoralArc(t).tide == t.tide && (t.saved ==> MoralArc(t).saved)
  {
  }

  /** What the Front's oath makes of a character: the Front's, and for the hunted branded,
   *  at forty points; for others at the recruiter's price. */
  function Bound(c: Character, price: int): Character {
    var hunted := c.race in {"elf", "revenant", "dustkin", "vatborn"};
    c.(faction := "front", ashsworn := c.ashsworn || hunted, morality := Swayed(c.morality, if hunted then -40 else -price))
  }

  /** And what standing with the refugees makes: an ally, ten points, and a charm if there
   *  is none yet and a slot for it. */
  function Stood(c: Character): Character {
    c.(faction := "ally", morality := Swayed(c.morality, 10),
       inventory := if "charm" in c.inventory || |c.inventory| >= 8 then c.inventory else c.inventory + ["charm"])
  }

  lemma SwornIsBound(c: Character, price: int)
    ensures Sworn(c, price) == Bound(c, price)
  {
  }

  predicate Asks(e: Event, id: nat) {
    e.Do? && e.id == id && (e.cmd.JoinFront? || e.cmd.DefendThem?)
  }

  /** The recruiters' question is put where they stand, and open until answered. */
  predicate Open(p: Player) {
    (p.c.room == "market" || p.c.room == "checkpoint") && !p.resolved
  }

  lemma JoinAnswers(p: Player)
    requires p.c.room != "dais"
    ensures !Open(p) ==> Join(p) == Stay(p)
    ensures Open(p) ==>
              && Arced(Bound(p.c, 15), Join(p).p.c, Join(p).returned) && Join(p).saved && Join(p).tide == -10
              && Join(p).p == p.(resolved := true, c := Join(p).p.c)
  {
    hide Sworn, MoralArc, Arced, Bound;
    if Open(p) {
      SwornIsBound(p.c, 15);
      ArcIsArced(Turn(p.(c := Sworn(p.c, 15), resolved := true), true, -10, false));
    }
  }

  lemma DefendAnswers(p: Player)
    ensures !Open(p) ==> Defend(p) == Stay(p)
    ensures Open(p) ==>
              && Arced(Stood(p.c), Defend(p).p.c, Defend(p).returned) && Defend(p).saved && Defend(p).tide == 10
              && Defend(p).p == p.(resolved := true, c := Defend(p).p.c)
  {
    hide MoralArc, Arced, AddOnce, Shifted;
    if Open(p) {
      var c := AddOnce(Shifted(p.c.(faction := "ally"), 10), "charm");
      StandIs(p.c);
      ArcIsArced(Turn(p.(c := c, resolved := true), true, 10, false));
    }
  }

  lemma StandIs(c: Character)
    ensures AddOnce(Shifted(c.(faction := "ally"), 10), "charm") == Stood(c)
  {
  }

  /** A question answered, or left as it was, in the whole game. */
  ghost predicate Told(g: Game, id: nat, joins: bool, h: Game)
    requires id in g.players && id in h.players
  {
    var p, q := g.players[id], h.players[id];
    var push := if joins then -10 else 10;
    && h == g.(mobs := h.mobs, revived := h.revived, players := g.players[id := q], rows := h.rows, tide := h.tide,
               deltas := h.deltas, pardons := h.pardons)
    && if !Open(p) then
         q == p && h.rows == g.rows && h.tide == g.tide && h.deltas == g.deltas && h.pardons == g.pardons
       else
         && q.resolved && q == p.(resolved := true, c := q.c)
         && Arced(if joins then Bound(p.c, 15) else Stood(p.c), q.c, |h.pardons| > |g.pardons|)
         && (h.pardons == if |h.pardons| > |g.pardons| then g.pardons + [q.c] else g.pardons)
         && h.deltas == g.deltas + [push] && h.rows == Store.Save(g.rows, q.c)
         && h.tide == if g.tide + push > 100 then 100 else if g.tide + push < -100 then -100 else g.tide + push
  }

  lemma SettledAnswers(g: Game, id: nat, t: Turn, joins: bool)
    requires id in g.players
    requires var p := g.players[id];
             if !Open(p) then t == Stay(p)
             else
               && t.p == p.(resolved := true, c := t.p.c) && t.saved && t.tide == (if joins then -10 else 10)
               && Arced(if joins then Bound(p.c, 15) else Stood(p.c), t.p.c, t.returned)
    ensures id in Settle(g, id, t).players && Told(g, id, joins, Settle(g, id, t))
  {
    hide Arced, Store.Save, Bound, Stood;
  }

  /** Every join and defend away from the dais is so answered. */
  lemma AskingAnswers(g: Game, id: nat, joins: bool, now: int)
    requires Acts(g, id) && g.players[id].c.room != "dais"
    ensures var h := Step(g, Do(id, if joins then JoinFront else DefendThem, now));
            id in h.players && Told(g, id, joins, h)
  {
    hide Told, Settle, Join, Defend, Arced, Bound, Stood, Respawned;
    SpawnSparesPlayers(g, now);
    var r := Respawned(g, now);
    JoinAnswers(g.players[id]);
    DefendAnswers(g.players[id]);
    var t := if joins then Join(g.players[id]) else Defend(g.players[id]);
    SettledAnswers(r, id, t, joins);
    AnsweredFrom(g, r, id, joins, Settle(r, id, t));
  }

  lemma SpawnSparesPlayers(g: Game, now: int)
    ensures Respawned(g, now) == g.(mobs := Respawned(g, now).mobs, revived := Respawned(g, now).revived)
  {
  }

  lemma AnsweredFrom(g: Game, r: Game, id: nat, joins: bool, h: Game)
    requires r == g.(mobs := r.mobs, revived := r.revived) && id in g.players && id in h.players
            && Told(r, id, joins, h)
    ensures Told(g, id, joins, h)
  {
    hide Arced, Store.Save, Bound, Stood;
  }

  // ------------------------------------------------------------ whole runs

  /** A recruiter's question that changed the one who answered it. */
  ghost predicate Honoured(g: Game, e: Event, h: Game, id: nat) {
    && Asks(e, id) && Acts(g, id) && g.players[id].c.room != "dais"
    && id in h.players && h.players[id] != g.players[id]
  }

  /** What an event pushed the tide by. */
  function Push(g: Game, h: Game): int {
    if |g.deltas| <= |h.deltas| then Sum(h.deltas[|g.deltas|..]) else 0
  }

  ghost function Honours(states: seq<Game>, es: seq<Event>, id: nat): nat
    requires |es| < |states|
  {
    if es == [] then 0
    else Honours(states, Init(es), id) + if Honoured(states[|es| - 1], Last(es), states[|es|], id) then 1 else 0
  }

  /** What a session's answers to the recruiters pushed the tide by. */
  ghost function Pushes(states: seq<Game>, es: seq<Event>, id: nat): int
    requires |es| < |states|
  {
    if es == [] then 0
    else
      var g := states[|es| - 1];
      Pushes(states, Init(es), id)
      + if Asks(Last(es), id) && Acts(g, id) && g.players[id].c.room != "dais" then Push(g, states[|es|]) else 0
  }

  lemma AnswerFacts(g: Game, id: nat, joins: bool, h: Game)
    requires id in g.players && id in h.players && Told(g, id, joins, h)
    ensures h.players[id] != g.players[id] <==> Open(g.players[id])
    ensures Open(g.players[id]) ==> h.players[id].resolved && Push(g, h) == if joins then -10 else 10
    ensures !Open(g.players[id]) ==> Push(g, h) == 0
  {
    hide Arced, Store.Save, Bound, Stood;
    if Open(g.players[id]) {
      var push := if joins then -10 else 10;
      assert h.deltas[|g.deltas|..] == [push];
      assert Init([push]) == [] && Last([push]) == push && Sum([push]) == push;
    } else {
      assert h.deltas[|g.deltas|..] == [];
    }
  }

  lemma StepAnswers(g: Game, e: Event, h: Game, id: nat)
    requires Leads(g, e, h) && Asks(e, id) && Acts(g, id) && g.players[id].c.room != "dais" && id in h.players
    ensures Honoured(g, e, h, id) <==> !g.players[id].resolved && Open(g.players[id])
    ensures Honoured(g, e, h, id) ==> h.players[id].resolved && (Push(g, h) == if e.cmd.JoinFront? then -10 else 10)
    ensures !Honoured(g, e, h, id) ==> Push(g, h) == 0
  {
    hide Step, Told, Possible, Push;
    AskingAnswers(g, id, e.cmd.JoinFront?, e.now);
    assert e == Do(id, if e.cmd.JoinFront? then JoinFront else DefendThem, e.now);
    AnswerFacts(g, id, e.cmd.JoinFront?, h);
  }

  lemma SumsOfInit(states: seq<Game>, es: seq<Event>, id: nat)
    requires |states| == |es| + 1 && es != []
    ensures Honours(Init(states), Init(es), id) == Honours(states, Init(es), id)
    ensures Pushes(Init(states), Init(es), id) == Pushes(states, Init(es), id)
  {
    SumsAgree(Init(states), states, Init(es), id);
  }

  lemma {:induction false} SumsAgree(a: seq<Game>, b: seq<Game>, es: seq<Event>, id: nat)
    requires |es| < |a| && |es| < |b| && forall i :: 0 <= i <= |es| ==> a[i] == b[i]
    ensures Honours(a, es, id) == Honours(b, es, id) && Pushes(a, es, id) == Pushes(b, es, id)
  {
    hide Honoured, Push;
    if es != [] {
      SumsAgree(a, b, Init(es), id);
    }
  }

  /** In one session at most one of all joins and defends away from the dais is honoured;
   *  nothing after it is, nor anything at all once the question was answered; and so the
   *  session's answers push the tide by ten one way, or the other, or not at all. */
  lemma {:induction false} OneOathASession(states: seq<Game>, es: seq<Event>, id: nat)
    requires Runs(states, es) && Inv(states[0]) && |states| == |es| + 1
    requires id in states[0].players && id in Last(states).players
    ensures Honours(states, es, id) <= 1
    ensures Honours(states, es, id) == 1 ==> Last(states).players[id].resolved
    ensures states[0].players[id].resolved ==> Honours(states, es, id) == 0 && Last(states).players[id].resolved
    ensures if Honours(states, es, id) == 0 then Pushes(states, es, id) == 0
            else Pushes(states, es, id) == -10 || Pushes(states, es, id) == 10
    decreases |es|
  {
    hide Inv, Leads, Runs, Honoured, Push, Continues;
    if es == [] {
      NoStep(states, es);
    } else {
      WasThere(states, es, id);
      var g, h := Last(Init(states)), Last(states);
      OneOathASession(Init(states), Init(es), id);
      SumsOfInit(states, es, id);
      LastStep(states, es);
      AnswersStay(g.players[id], h.players[id]);
      if Asks(Last(es), id) && Acts(g, id) && g.players[id].c.room != "dais" {
        StepAnswers(g, Last(es), h, id);
      } else {
        NotHonoured(g, Last(es), h, id);
      }
    }
  }

  lemma AnswersStay(p: Player, q: Player)
    requires Continues(p, q)
    ensures p.resolved ==> q.resolved
  {
  }

  lemma NotHonoured(g: Game, e: Event, h: Game, id: nat)
    requires !(Asks(e, id) && Acts(g, id) && g.players[id].c.room != "dais")
    ensures !Honoured(g, e, h, id)
  {
  }
}
