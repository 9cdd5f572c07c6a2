/** Progress of the federation worker: every pass ends, puts to the hub whatever waited,
 *  and when it polls brings in the casts. */
module Passes {
  import opened Federation
  import opened FederationRuns
  import opened Outboxes
  import opened Sequences
  import opened Text
  import Commits
  import Logins
  import Relay

  lemma FinalStep(states: seq<System>, es: seq<Event>)
    requires Runs(states, es) && es != []
    ensures |states| == |es| + 1 > 1 && Runs(Init(states), Init(es)) && Init(states)[0] == states[0]
    ensures Leads(Last(Init(states)), Last(es), Last(states))
  {
    hide Leads;
    assert forall i {:trigger Init(es)[i]} :: 0 <= i < |es| - 1 ==> Init(es)[i] == es[i];
    assert Leads(states[|es| - 1], es[|es| - 1], states[|es|]);
  }

  lemma {:induction false} RunStaysWhole(states: seq<System>, es: seq<Event>)
    requires Runs(states, es) && |states| == |es| + 1 && states[0].Inv()
    ensures Last(states).Inv()
    decreases |es|
  {
    hide System.Inv, Runs, Leads, Recorded, NewsAt;
    if es != [] {
      FinalStep(states, es);
      RunStaysWhole(Init(states), Init(es));
      Next(Last(Init(states)), Last(es), Last(states));
    }
  }

  // --------------------------------------------------- a pass ends

  /** The most steps a procedure can take: what it copies out fits its buffers. */
  function Cost(c: Call): nat {
    match c
    case DoLoads => 34
    case DoWrites => 71
    case DoCommits => 130
    case DoPing => 2
    case DoCasts => 3
    case DoCheck => 0
    case _ => 1
  }

  function CostAll(calls: seq<Call>): nat {
    if calls == [] then 0 else Cost(calls[0]) + CostAll(calls[1..])
  }

  function TideTrip(t: TideLane): nat {
    if t.flight != 0 then 2 else 1
  }

  /** Steps left in the procedure that runs. */
  function Here(s: System): nat {
    match s.pc
    case LoadsTake => 34
    case LoadsSend => 2 * |s.logins.asks.flight| + |s.logins.answer| + 1
    case WritesTake => 71
    case FallensSend => |s.fallens.flight| + |s.voices.flight| + TideTrip(s.tide) + |s.prune.flight| + 3
    case VoicesSend => |s.voices.flight| + TideTrip(s.tide) + |s.prune.flight| + 2
    case TideSend => TideTrip(s.tide) + |s.prune.flight| + 1
    case PruneSend => |s.prune.flight| + 1
    case CommitsTake => 130
    case CommitsSend => |s.commits.flight| + 1
    case PingHub => 2
    case CursorRead => 3
    case CastsFetch => 2
    case Check | Exited => 0
    case _ => 1
  }

  /** Worker steps before the next check, at most. */
  function Left(s: System): nat {
    Here(s) + CostAll(s.rest)
  }

  lemma EntryCosts(s: System, c: Call)
    requires s.pc == Entry(c)
    ensures Here(s) == Cost(c)
  {
  }

  lemma ReturnCosts(s: System, t: System)
    requires (t.pc, t.rest) == Return(s.rest)
    ensures Left(t) <= CostAll(s.rest)
  {
    if s.rest != [] {
      EntryCosts(t, s.rest[0]);
    }
  }

  lemma PassCosts(poll: bool, register: bool)
    ensures CostAll(Round(poll, register)) <= 679
  {
    var a: seq<Call> := [DoLoads, DoWrites, DoCommits];
    var b: seq<Call> := if poll then [DoPing, DoCasts, DoWrites, DoCommits, DoOthers, DoLoads, DoWrites, DoCommits] else [];
    var c: seq<Call> := if register then [DoRegister] else [];
    var d: seq<Call> := [DoWait, DoCheck];
    CostsAdd(a, b);
    CostsAdd(a + b, c);
    CostsAdd(a + b + c, d);
    CostThree(DoLoads, DoWrites, DoCommits);
    CostTwo(DoWait, DoCheck);
    if poll {
      CostThree(DoPing, DoCasts, DoWrites);
      CostThree(DoCommits, DoOthers, DoLoads);
      CostTwo(DoWrites, DoCommits);
      CostsAdd([DoPing, DoCasts, DoWrites], [DoCommits, DoOthers, DoLoads]);
      CostsAdd([DoPing, DoCasts, DoWrites] + [DoCommits, DoOthers, DoLoads], [DoWrites, DoCommits]);
      assert b == [DoPing, DoCasts, DoWrites] + [DoCommits, DoOthers, DoLoads] + [DoWrites, DoCommits];
    }
    assert CostAll(c) <= 1;
  }

  lemma CostTwo(x: Call, y: Call)
    ensures CostAll([x, y]) == Cost(x) + Cost(y)
  {
    assert [x, y][1..] == [y] && [y][1..] == [];
    assert CostAll([y]) == Cost(y);
  }

  lemma CostThree(x: Call, y: Call, z: Call)
    ensures CostAll([x, y, z]) == Cost(x) + Cost(y) + Cost(z)
  {
    assert [x, y, z][1..] == [y, z];
    CostTwo(y, z);
  }

  lemma {:induction false} CostsAdd(a: seq<Call>, b: seq<Call>)
    ensures CostAll(a + b) == CostAll(a) + CostAll(b)
  {
    if a == [] {
      assert a + b == b;
    } else {
      assert (a + b)[1..] == a[1..] + b;
      CostsAdd(a[1..], b);
    }
  }

  lemma Moving(s: System, r: Reply)
    requires s.Sized() && s.Control() && |s.prune.latch| <= 1 && !s.pc.Exited? && !s.pc.Check?
    ensures Left(s.Work(r)) < Left(s)
  {
    hide CostAll, Commits.Coalesce, PushDropOldest;
    var t := s.Work(r);
    if (t.pc, t.rest) == Return(s.rest) {
      ReturnCosts(s, t);
    }
  }

  lemma StepLeft(s: System, e: Event, t: System)
    requires s.Inv() && Leads(s, e, t) && !s.pc.Check?
    ensures Left(t) + (if e.Work? then 1 else 0) <= Left(s)
  {
    hide CostAll, Commits.Lane.Inv, Outbox.Inv, TideLane.Inv, Logins.Lane.Inv, Relay.Lane.Inv, Commits.Coalesce,
      PushDropOldest,
      OnCourse, System.Draining, Left;
    if e.Work? {
      Moving(s, e.reply);
    } else {
      OthersLeave(s, e);
    }
  }

  lemma OthersLeave(s: System, e: Event)
    requires s.Sized() && s.Control() && Enabled(s, e) && !e.Work?
    ensures Left(Apply(s, e)) == Left(s) && Apply(s, e).pc == s.pc && Apply(s, e).rest == s.rest
  {
    hide CostAll, Commits.Coalesce, PushDropOldest, Logins.FindWaiting;
  }

  lemma CheckLeaves(s: System, r: Reply)
    requires s.Sized() && s.Control() && s.pc.Check? && OnCourse(s.pc, s.rest)
    ensures Left(s.Work(r)) <= 679
  {
    hide CostAll, Round;
    PassCosts(r.poll, r.register);
    var calls := if s.stop then FINAL else Round(r.poll, r.register);
    FinalCosts();
    ReturnCosts(s.(rest := calls), s.Work(r));
  }

  lemma FinalCosts()
    ensures CostAll(FINAL) <= 679
  {
    CostThree(DoLoads, DoWrites, DoCommits);
  }

  /** The worker is never longer than so many of its own steps away from its check, or
   *  from its end: whatever the hub answers, and whatever the event loop does meanwhile. */
  lemma {:induction false} PassEnds(states: seq<System>, es: seq<Event>)
    requires Runs(states, es) && |states| == |es| + 1 && states[0].Inv()
    requires forall i :: 0 <= i < |es| ==> !states[i].pc.Check?
    ensures Count(IsWork, es) + Left(Last(states)) <= Left(states[0])
    decreases |es|
  {
    hide System.Inv, Runs, Leads, Left;
    if es != [] {
      FinalStep(states, es);
      assert forall i :: 0 <= i < |es| - 1 ==> Init(states)[i] == states[i];
      RunStaysWhole(Init(states), Init(es));
      PassEnds(Init(states), Init(es));
      assert Last(Init(states)) == states[|es| - 1];
      StepLeft(Last(Init(states)), Last(es), Last(states));
      assert es == Init(es) + [Last(es)];
      CountSnoc(IsWork, Init(es), Last(es));
    }
  }

  /** From any check the worker is back there, or at its end, within 680 of its own steps. */
  lemma EveryPassEnds(states: seq<System>, es: seq<Event>)
    requires Runs(states, es) && |states| == |es| + 1 && states[0].Inv() && states[0].pc.Check?
    requires es != [] && es[0].Work? && Count(IsWork, es) >= 680
    ensures exists i :: 0 < i <= |es| && (states[i].pc.Check? || states[i].pc.Exited?)
  {
    hide System.Inv, Runs, Leads, Left;
    FirstStep(states, es);
    CountHead(IsWork, es);
    Next(states[0], es[0], states[1]);
    CheckLeavesFew(states[0], es[0], states[1]);
    if forall i :: 0 < i <= |es| ==> !states[i].pc.Check? && !states[i].pc.Exited? {
      assert forall i :: 0 <= i < |es| - 1 ==> states[1..][i] == states[i + 1];
      PassEnds(states[1..], es[1..]);
      SomethingLeft(Last(states));
    }
  }

  lemma CheckLeavesFew(s: System, e: Event, t: System)
    requires s.Inv() && s.pc.Check? && Leads(s, e, t) && e.Work?
    ensures Left(t) <= 679
  {
    hide System.Lanes, System.Draining, Left;
    CheckLeaves(s, e.reply);
  }

  lemma SomethingLeft(s: System)
    requires !s.pc.Check? && !s.pc.Exited?
    ensures Left(s) > 0
  {
  }

  // ------------------------------------------- what waited is put to the hub

  predicate Due(s: System, c: Call) {
    s.pc == Entry(c) || c in s.rest
  }

  /** Everything the writes held at t has left the shared buffers by s, and what of it is
   *  not in flight is with the hub. */
  predicate WritesFrom(t: System, s: System) {
    && s.fallens.sent + s.fallens.flight == t.fallens.Trail()
    && s.voices.sent + s.voices.flight == t.voices.Trail()
    && s.tide.flight + Sum(s.tide.passed) == Sum(t.tide.given)
    && s.prune.served + s.prune.flight == t.prune.Trail()
  }

  predicate CommitsFrom(t: System, s: System) {
    s.commits.sent + s.commits.flight == t.commits.Trail()
  }

  predicate LoadsFrom(t: System, s: System) {
    s.logins.asks.sent + s.logins.asks.flight == t.logins.asks.Trail()
  }

  lemma SendsHead<T>(sent: seq<T>, flight: seq<T>)
    requires flight != []
    ensures (sent + [flight[0]]) + flight[1..] == sent + flight
  {
  }

  lemma BoxShips<T>(take: bool, send: bool, o: Outbox<T>)
    requires take ==> o.flight == []
    ensures var p := OutboxAfter(take, send, o);
            p.sent + p.flight == if take then o.Trail() else o.sent + o.flight
  {
    if take {
      assert o.sent + [] + o.queue == o.sent + o.queue;
    } else if send && o.flight != [] {
      SendsHead(o.sent, o.flight);
    }
  }

  lemma TideShips(pc: Pc, t: TideLane)
    requires t.Inv() && (pc == WritesTake ==> t.flight == 0)
    ensures var u := TideAfter(pc, t);
            u.flight + Sum(u.passed) == if pc == WritesTake then Sum(t.given) else t.flight + Sum(t.passed)
  {
    SumSnoc(t.passed, t.flight);
  }

  lemma PruneShips(pc: Pc, p: PruneLane)
    requires pc == WritesTake ==> p.flight == []
    ensures var q := PruneAfter(pc, p);
            q.served + q.flight == if pc == WritesTake then p.Trail() else p.served + p.flight
  {
    if pc == WritesTake {
      assert p.served + [] + p.latch == p.served + p.latch;
    } else if p.flight != [] {
      SendsHead(p.served, p.flight);
    }
  }

  lemma WorkWrites(t: System, s: System, r: Reply)
    requires s.Inv() && !s.pc.Exited?
    ensures s.pc == WritesTake ==> WritesFrom(s, s.Work(r))
    ensures s.pc != WritesTake && WritesFrom(t, s) ==> WritesFrom(t, s.Work(r))
  {
    hide Commits.Lane.Inv, Outbox.Inv, Logins.Lane.Inv, Relay.Lane.Inv, OnCourse, System.Draining, PcAfter,
      LoginsAfter, CommitsAfter,
      RelayAfter, PruneLane.Inv, TideLane.Inv, OutboxAfter, TideAfter, PruneAfter;
    BoxShips(s.pc == WritesTake, s.pc == FallensSend, s.fallens);
    BoxShips(s.pc == WritesTake, s.pc == VoicesSend, s.voices);
    TideShips(s.pc, s.tide);
    PruneShips(s.pc, s.prune);
  }

  lemma WorkCommits(t: System, s: System, r: Reply)
    requires s.Inv() && !s.pc.Exited?
    ensures s.pc == CommitsTake ==> CommitsFrom(s, s.Work(r))
    ensures s.pc != CommitsTake && CommitsFrom(t, s) ==> CommitsFrom(t, s.Work(r))
  {
    hide System.Lanes, OnCourse, System.Draining, PcAfter, LoginsAfter, OutboxAfter, TideAfter, PruneAfter, RelayAfter;
    if s.commits.flight != [] {
      SendsHead(s.commits.sent, s.commits.flight);
    }
    assert s.commits.sent + [] + s.commits.pending == s.commits.sent + s.commits.pending;
  }

  lemma WorkLoads(t: System, s: System, r: Reply)
    requires s.Inv() && !s.pc.Exited?
    ensures s.pc == LoadsTake ==> LoadsFrom(s, s.Work(r))
    ensures s.pc != LoadsTake && LoadsFrom(t, s) ==> LoadsFrom(t, s.Work(r))
  {
    hide System.Lanes, OnCourse, System.Draining, PcAfter, CommitsAfter, OutboxAfter, TideAfter, PruneAfter, RelayAfter;
    var l := s.logins.asks;
    if l.flight != [] {
      SendsHead(l.sent, l.flight);
    }
    assert l.sent + [] + l.pending == l.sent + l.pending;
  }

  lemma OthersShip(t: System, s: System, e: Event)
    requires s.Sized() && s.Control() && Enabled(s, e) && !e.Work?
    ensures WritesFrom(t, s) ==> WritesFrom(t, Apply(s, e))
    ensures CommitsFrom(t, s) ==> CommitsFrom(t, Apply(s, e))
    ensures LoadsFrom(t, s) ==> LoadsFrom(t, Apply(s, e))
  {
    hide Commits.Coalesce, PushDropOldest, Logins.FindWaiting;
  }

  lemma StillDue(s: System, r: Reply, c: Call)
    requires s.Sized() && s.Control() && !s.pc.Exited? && Due(s, c) && s.pc != Entry(c) && !s.pc.Check?
    ensures Due(s.Work(r), c)
  {
    if s.rest != [] {
      assert s.rest == [s.rest[0]] + s.rest[1..];
    }
  }

  /** Shipped, by the lane of that procedure. */
  predicate From(c: Call, t: System, s: System) {
    match c
    case DoWrites => WritesFrom(t, s)
    case DoCommits => CommitsFrom(t, s)
    case DoLoads => LoadsFrom(t, s)
    case _ => false
  }

  predicate Flush(c: Call) {
    c == DoWrites || c == DoCommits || c == DoLoads
  }

  lemma StepShips(t: System, s: System, e: Event, u: System, c: Call)
    requires s.Inv() && Leads(s, e, u) && Flush(c)
    ensures e.Work? && s.pc == Entry(c) ==> From(c, s, u)
    ensures !(e.Work? && s.pc == Entry(c)) && From(c, t, s) ==> From(c, t, u)
    ensures !(e.Work? && s.pc == Entry(c)) && !s.pc.Check? && Due(s, c) ==> Due(u, c)
  {
    hide WritesFrom, CommitsFrom, LoadsFrom, System.Lanes, System.Draining, System.Work, Due;
    if e.Work? {
      assert u == s.Work(e.reply);
      WorkWrites(t, s, e.reply);
      WorkCommits(t, s, e.reply);
      WorkLoads(t, s, e.reply);
      if Due(s, c) && s.pc != Entry(c) && !s.pc.Check? {
        StillDue(s, e.reply, c);
      }
    } else {
      OthersShip(t, s, e);
      OthersLeave(s, e);
      DueAlike(s, u, c);
    }
  }

  lemma DueAlike(s: System, u: System, c: Call)
    requires u.pc == s.pc && u.rest == s.rest
    ensures Due(s, c) <==> Due(u, c)
  {
  }

  /** What is due is shipped before the next check. */
  lemma {:induction false} DueIsShipped(states: seq<System>, es: seq<Event>, c: Call)
    requires Runs(states, es) && |states| == |es| + 1 && states[0].Inv() && Flush(c) && Due(states[0], c)
    ensures Due(Last(states), c) || exists i :: 0 <= i < |states| && From(c, states[i], Last(states))
    decreases |es|
  {
    hide System.Inv, Runs, Leads, From, Due, Flush;
    if es != [] {
      FinalStep(states, es);
      var s, u := Last(Init(states)), Last(states);
      RunStaysWhole(Init(states), Init(es));
      DueIsShipped(Init(states), Init(es), c);
      NotDueAtCheck(s, c);
      if exists i :: 0 <= i < |Init(states)| && From(c, Init(states)[i], s) {
        var i :| 0 <= i < |Init(states)| && From(c, Init(states)[i], s);
        StepShips(Init(states)[i], s, Last(es), u, c);
        assert states[i] == Init(states)[i] && states[|es| - 1] == s;
      } else {
        StepShips(s, s, Last(es), u, c);
        assert states[|es| - 1] == s;
      }
    }
  }

  lemma NotDueAtCheck(s: System, c: Call)
    requires s.Inv() && Flush(c)
    ensures s.pc.Check? ==> !Due(s, c)
  {
    hide System.Lanes, System.Draining;
  }

  /** Both ends of a flush: at some moment on the way all the fallen, gridcasts, tide and
   *  prune held then were put to the hub; at some moment all the commits; at some moment
   *  all the loads. */
  ghost predicate Flushed(states: seq<System>, end: System) {
    && (exists i :: 0 <= i < |states|
          && end.fallens.sent == states[i].fallens.Trail() && end.voices.sent == states[i].voices.Trail()
          && Sum(end.tide.passed) == Sum(states[i].tide.given) && end.prune.served == states[i].prune.Trail())
    && (exists i :: 0 <= i < |states| && end.commits.sent == states[i].commits.Trail())
    && (exists i :: 0 <= i < |states| && end.logins.asks.sent == states[i].logins.asks.Trail())
  }

  lemma Landed(t: System, s: System)
    requires s.Control() && s.pc.Check?
    ensures WritesFrom(t, s) ==>
              && s.fallens.sent == t.fallens.Trail() && s.voices.sent == t.voices.Trail()
              && Sum(s.tide.passed) == Sum(t.tide.given) && s.prune.served == t.prune.Trail()
    ensures CommitsFrom(t, s) ==> s.commits.sent == t.commits.Trail()
    ensures LoadsFrom(t, s) ==> s.logins.asks.sent == t.logins.asks.Trail()
  {
    assert s.fallens.sent + [] == s.fallens.sent && s.voices.sent + [] == s.voices.sent && s.prune.served + [] == s.prune.served;
    assert s.commits.sent + [] == s.commits.sent && s.logins.asks.sent + [] == s.logins.asks.sent;
  }

  /** From wherever a flush is due to the next check everything is put to the hub. */
  lemma FlushedByCheck(states: seq<System>, es: seq<Event>)
    requires Runs(states, es) && |states| == |es| + 1 && states[0].Inv() && Last(states).pc.Check?
    requires Due(states[0], DoWrites) && Due(states[0], DoCommits) && Due(states[0], DoLoads)
    ensures Flushed(states, Last(states))
  {
    hide System.Inv, Runs, Due, WritesFrom, CommitsFrom, LoadsFrom;
    RunStaysWhole(states, es);
    InControl(Last(states));
    DueIsShipped(states, es, DoWrites);
    DueIsShipped(states, es, DoCommits);
    DueIsShipped(states, es, DoLoads);
    NotDueAtCheck(Last(states), DoWrites);
    NotDueAtCheck(Last(states), DoCommits);
    NotDueAtCheck(Last(states), DoLoads);
    var i :| 0 <= i < |states| && From(DoWrites, states[i], Last(states));
    var j :| 0 <= j < |states| && From(DoCommits, states[j], Last(states));
    var k :| 0 <= k < |states| && From(DoLoads, states[k], Last(states));
    Landed(states[i], Last(states));
    Landed(states[j], Last(states));
    Landed(states[k], Last(states));
  }

  lemma InControl(s: System)
    requires s.Inv()
    ensures s.Control() && s.Sized()
  {
    hide System.Lanes, System.Draining, OnCourse, System.Control, System.Sized;
  }

  lemma DueAfterCheck(s: System, e: Event, t: System)
    requires s.Inv() && s.pc.Check? && !s.stop && Leads(s, e, t) && e.Work?
    ensures Due(t, DoWrites) && Due(t, DoCommits) && Due(t, DoLoads)
  {
    hide System.Lanes, System.Draining, OnCourse, LoginsAfter, CommitsAfter, OutboxAfter, TideAfter, PruneAfter,
      RelayAfter;
    var calls := Round(e.reply.poll, e.reply.register);
    assert calls[0] == DoLoads && calls[1..][0] == DoWrites && calls[1..][1] == DoCommits;
  }

  lemma DueAtHub(s: System)
    requires s.Inv() && AtHub(s.pc)
    ensures Due(s, DoWrites) && Due(s, DoCommits) && Due(s, DoLoads)
  {
    hide System.Lanes, System.Draining;
  }

  /** Every pass, from check to check: whatever waits when it begins has been put to the
   *  hub by its end, whatever the event loop does meanwhile. */
  lemma PassPutsEverything(states: seq<System>, es: seq<Event>)
    requires Runs(states, es) && |states| == |es| + 1 && states[0].Inv() && states[0].pc.Check? && !states[0].stop
    requires es != [] && es[0].Work? && Last(states).pc.Check?
    ensures Flushed(states[1..], Last(states))
  {
    hide System.Inv, Runs, Leads, Due, Flushed;
    FirstStep(states, es);
    Next(states[0], es[0], states[1]);
    DueAfterCheck(states[0], es[0], states[1]);
    FlushedByCheck(states[1..], es[1..]);
  }

  /** And in a pass that polls, so has whatever came to wait while the worker spoke to the
   *  hub about its casts, its health and its caches. */
  lemma PollPutsTheRest(states: seq<System>, es: seq<Event>)
    requires Runs(states, es) && |states| == |es| + 1 && states[0].Inv() && AtHub(states[0].pc)
            && Last(states).pc.Check?
    ensures Flushed(states, Last(states))
  {
    hide System.Inv, Runs, Due, Flushed;
    DueAtHub(states[0]);
    FlushedByCheck(states, es);
  }

  /** Due before the other reads of the poll. */
  predicate DueFirst(s: System, c: Call) {
    (s.pc == Entry(c) && DoOthers in s.rest) || Sooner(s.rest, c)
  }

  lemma SoonerStill(rest: seq<Call>, c: Call)
    requires Sooner(rest, c) && c != DoOthers
    ensures rest != [] && ((rest[0] == c && DoOthers in rest[1..]) || Sooner(rest[1..], c))
  {
    var k :| 0 <= k < |rest| && rest[k] == c && DoOthers in rest[k..] && forall i :: 0 <= i < k ==> rest[i] != DoOthers;
    if k == 0 {
      assert rest[0..] == [c] + rest[1..];
    } else {
      assert rest[1..][k - 1] == c && rest[1..][k - 1..] == rest[k..];
      assert forall i :: 0 <= i < k - 1 ==> rest[1..][i] == rest[i + 1];
    }
  }

  lemma StillDueFirst(s: System, r: Reply, c: Call)
    requires s.Sized() && s.Control() && !s.pc.Exited? && DueFirst(s, c) && s.pc != Entry(c) && !s.pc.Check? && Flush(c)
    ensures DueFirst(s.Work(r), c)
  {
    hide LoginsAfter, CommitsAfter, OutboxAfter, TideAfter, PruneAfter, RelayAfter, Sooner;
    SoonerStill(s.rest, c);
  }

  lemma StepDueFirst(s: System, e: Event, u: System, c: Call)
    requires s.Inv() && Leads(s, e, u) && Flush(c) && DueFirst(s, c) && !(e.Work? && s.pc == Entry(c)) && !s.pc.Check?
    ensures DueFirst(u, c)
  {
    hide System.Lanes, System.Draining, System.Work, DueFirst, OnCourse;
    if e.Work? {
      StillDueFirst(s, e.reply, c);
    } else {
      OthersLeave(s, e);
      DueFirstAlike(s, u, c);
    }
  }

  lemma DueFirstAlike(s: System, u: System, c: Call)
    requires u.pc == s.pc && u.rest == s.rest
    ensures DueFirst(s, c) <==> DueFirst(u, c)
  {
  }

  lemma FirstNotAtCheck(s: System, c: Call)
    requires s.Inv() && s.pc.Check? && c != DoCheck
    ensures !DueFirst(s, c)
  {
    hide System.Lanes, System.Draining;
  }

  lemma {:induction false} FirstIsShipped(states: seq<System>, es: seq<Event>, c: Call)
    requires Runs(states, es) && |states| == |es| + 1 && states[0].Inv() && Flush(c) && DueFirst(states[0], c)
    ensures DueFirst(Last(states), c) || exists i :: 0 <= i < |states| && From(c, states[i], Last(states))
    decreases |es|
  {
    hide System.Inv, Runs, Leads, From, Due, DueFirst, Flush;
    if es != [] {
      FinalStep(states, es);
      var s, u := Last(Init(states)), Last(states);
      RunStaysWhole(Init(states), Init(es));
      FirstIsShipped(Init(states), Init(es), c);
      assert states[|es| - 1] == s;
      FlushIsNoCheck(c);
      if DueFirst(s, c) {
        if s.pc.Check? {
          FirstNotAtCheck(s, c);
        }
        StepShips(s, s, Last(es), u, c);
        if !(Last(es).Work? && s.pc == Entry(c)) {
          StepDueFirst(s, Last(es), u, c);
        }
      } else {
        var i :| 0 <= i < |Init(states)| && From(c, Init(states)[i], s);
        assert states[i] == Init(states)[i];
        StepShips(states[i], s, Last(es), u, c);
      }
    }
  }

  lemma FlushIsNoCheck(c: Call)
    requires Flush(c)
    ensures c != DoCheck
  {
  }

  lemma FirstAtCasts(s: System)
    requires s.Inv() && AtCasts(s.pc)
    ensures DueFirst(s, DoWrites) && DueFirst(s, DoCommits)
  {
    hide System.Lanes, System.Draining;
  }

  lemma NotFirstAtReads(s: System, c: Call)
    requires s.Inv() && s.pc.OtherReads? && Flush(c)
    ensures !DueFirst(s, c)
  {
    hide System.Lanes, System.Draining;
  }

  lemma LandedAtReads(t: System, s: System)
    requires s.Control() && s.pc.OtherReads?
    ensures WritesFrom(t, s) ==>
              && s.fallens.sent == t.fallens.Trail() && s.voices.sent == t.voices.Trail()
              && Sum(s.tide.passed) == Sum(t.tide.given) && s.prune.served == t.prune.Trail()
    ensures CommitsFrom(t, s) ==> s.commits.sent == t.commits.Trail()
  {
    assert s.fallens.sent + [] == s.fallens.sent && s.voices.sent + [] == s.voices.sent && s.prune.served + [] == s.prune.served;
    assert s.commits.sent + [] == s.commits.sent;
  }

  /** Between the casts of a poll and its other reads, what has come to wait in the writes
   *  and the commits is put to the hub as well. */
  lemma CastsThenFlush(states: seq<System>, es: seq<Event>)
    requires Runs(states, es) && |states| == |es| + 1 && states[0].Inv() && AtCasts(states[0].pc)
            && Last(states).pc.OtherReads?
    ensures exists i :: 0 <= i < |states|
              && Last(states).fallens.sent == states[i].fallens.Trail()
              && Last(states).voices.sent == states[i].voices.Trail()
              && Sum(Last(states).tide.passed) == Sum(states[i].tide.given)
              && Last(states).prune.served == states[i].prune.Trail()
    ensures exists i :: 0 <= i < |states| && Last(states).commits.sent == states[i].commits.Trail()
  {
    hide System.Inv, Runs, DueFirst, WritesFrom, CommitsFrom;
    FirstAtCasts(states[0]);
    RunStaysWhole(states, es);
    FirstIsShipped(states, es, DoWrites);
    FirstIsShipped(states, es, DoCommits);
    NotFirstAtReads(Last(states), DoWrites);
    NotFirstAtReads(Last(states), DoCommits);
    var i :| 0 <= i < |states| && From(DoWrites, states[i], Last(states));
    var j :| 0 <= j < |states| && From(DoCommits, states[j], Last(states));
    InControl(Last(states));
    LandedAtReads(states[i], Last(states));
    LandedAtReads(states[j], Last(states));
  }

  // -------------------------------------------- in terms of what was pending

  /** A step loses nothing of an outbox but what it counts as dropped. */
  ghost predicate Grows<T>(o: Outbox<T>, p: Outbox<T>) {
    o.dropped <= p.dropped && (p.dropped == o.dropped ==> o.Trail() <= p.Trail())
  }

  lemma PushGrows<T>(o: Outbox<T>, x: T, cap: nat)
    requires 0 < cap && |o.queue| <= cap
    ensures Grows(o, o.Push(x, cap))
  {
    if |o.queue| < cap {
      assert o.Push(x, cap).Trail() == o.Trail() + [x];
    }
  }

  lemma BoxGrows<T>(take: bool, send: bool, o: Outbox<T>)
    requires take ==> o.flight == []
    ensures Grows(o, OutboxAfter(take, send, o))
  {
    if take {
      assert o.sent + [] + o.queue == o.sent + o.queue + [];
    } else if send && o.flight != [] {
      SendsHead(o.sent, o.flight);
    }
  }

  lemma StepGrows(s: System, e: Event, t: System)
    requires s.Inv() && Leads(s, e, t)
    ensures Grows(s.fallens, t.fallens) && Grows(s.voices, t.voices)
  {
    hide System.Lanes, System.Draining, OnCourse, PcAfter, LoginsAfter, CommitsAfter, TideAfter, PruneAfter,
      RelayAfter, OutboxAfter,
      Grows, Commits.Coalesce, PushDropOldest, Logins.FindWaiting;
    match e
    case Work(r) =>
      BoxGrows(s.pc == WritesTake, s.pc == FallensSend, s.fallens);
      BoxGrows(s.pc == WritesTake, s.pc == VoicesSend, s.voices);
    case Fall(f) =>
      PushGrows(s.fallens, f, MAX_PENDING_FALLEN);
      BoxGrows(false, false, s.voices);
      SameGrows(s.voices);
    case Speak(v) =>
      PushGrows(s.voices, v, MAX_PENDING_CASTS);
      SameGrows(s.fallens);
      SameGrows(s.voices);
    case _ =>
      SameGrows(s.fallens);
      SameGrows(s.voices);
  }

  lemma SameGrows<T>(o: Outbox<T>)
    ensures Grows(o, o)
  {
  }

  /** Histories only grow, and outboxes lose only what they count. */
  ghost predicate Later(s: System, t: System) {
    && Grows(s.fallens, t.fallens) && Grows(s.voices, t.voices)
    && s.commits.called <= t.commits.called && s.logins.asks.called <= t.logins.asks.called
    && s.tide.given <= t.tide.given && s.prune.asked <= t.prune.asked
  }

  lemma StepLater(s: System, e: Event, t: System)
    requires s.Inv() && Leads(s, e, t)
    ensures Later(s, t)
  {
    hide System.Inv, Leads, Grows, NewsAt;
    StepGrows(s, e, t);
    Next(s, e, t);
  }

  lemma LaterOn(s: System, t: System, u: System)
    requires Later(s, t) && Later(t, u)
    ensures Later(s, u)
  {
  }

  lemma {:induction false} RunLater(states: seq<System>, es: seq<Event>, i: nat, j: nat)
    requires Runs(states, es) && |states| == |es| + 1 && states[0].Inv() && i <= j < |states|
    ensures Later(states[i], states[j]) && states[i].Inv() && states[j].Inv()
    decreases |es|
  {
    hide System.Inv, Runs, Leads, Later;
    if j < |es| {
      FinalStep(states, es);
      RunLater(Init(states), Init(es), i, j);
    } else {
      RunStaysWhole(states, es);
      if i == j {
        LaterSelf(states[i]);
      } else {
        FinalStep(states, es);
        RunLater(Init(states), Init(es), i, |es| - 1);
        StepLater(states[|es| - 1], Last(es), states[j]);
        LaterOn(states[i], states[|es| - 1], states[j]);
      }
    }
  }

  lemma LaterSelf(s: System)
    ensures Later(s, s)
  {
  }

  /** What a flush means for what waited when it began. */
  ghost predicate Delivered(states: seq<System>, start: System, end: System) {
    && (end.fallens.dropped == start.fallens.dropped ==> start.fallens.Trail() <= end.fallens.sent)
    && (end.voices.dropped == start.voices.dropped ==> start.voices.Trail() <= end.voices.sent)
    && (exists n :: |start.tide.given| <= n <= |end.tide.given| && Sum(end.tide.passed) == Sum(end.tide.given[..n]))
    && (exists n :: |start.prune.asked| <= n <= |end.prune.asked|
          && (end.prune.asked[..n] == [] || (end.prune.served != [] && Last(end.prune.served) == Last(end.prune.asked[..n]))))
    && (exists i :: 0 <= i < |states| && Newest(states[i].commits, start.commits, end.commits))
    && (exists i :: 0 <= i < |states| && Newest(states[i].logins.asks, start.logins.asks, end.logins.asks))
  }

  /** At some moment since the start, the hub has the newest sheet of every name then
   *  called for and not evicted. */
  ghost predicate Newest<S>(mid: Commits.Lane<S>, start: Commits.Lane<S>, end: Commits.Lane<S>) {
    && start.called <= mid.called <= end.called
    && Commits.LastWrite(end.sent) - mid.lost == Commits.LastWrite(mid.called) - mid.lost
  }

  lemma FlushDelivers(states: seq<System>, es: seq<Event>)
    requires Runs(states, es) && |states| == |es| + 1 && states[0].Inv() && Flushed(states, Last(states))
    ensures Delivered(states, states[0], Last(states))
  {
    hide System.Inv, Runs, Commits.LastWrite, Subseq;
    var start, end := states[0], Last(states);
    var i :| 0 <= i < |states|
             && end.fallens.sent == states[i].fallens.Trail() && end.voices.sent == states[i].voices.Trail()
             && Sum(end.tide.passed) == Sum(states[i].tide.given) && end.prune.served == states[i].prune.Trail();
    var j :| 0 <= j < |states| && end.commits.sent == states[j].commits.Trail();
    var k :| 0 <= k < |states| && end.logins.asks.sent == states[k].logins.asks.Trail();
    WritesDelivered(states, es, i);
    CommitsDelivered(states, es, j);
    LoadsDelivered(states, es, k);
  }

  lemma WritesDelivered(states: seq<System>, es: seq<Event>, i: nat)
    requires Runs(states, es) && |states| == |es| + 1 && states[0].Inv() && i < |states|
    requires var end := Last(states);
             && end.fallens.sent == states[i].fallens.Trail() && end.voices.sent == states[i].voices.Trail()
             && Sum(end.tide.passed) == Sum(states[i].tide.given) && end.prune.served == states[i].prune.Trail()
    ensures var start, end := states[0], Last(states);
            && (end.fallens.dropped == start.fallens.dropped ==> start.fallens.Trail() <= end.fallens.sent)
            && (end.voices.dropped == start.voices.dropped ==> start.voices.Trail() <= end.voices.sent)
            && (exists n :: |start.tide.given| <= n <= |end.tide.given| && Sum(end.tide.passed) == Sum(end.tide.given[..n]))
            && (exists n :: |start.prune.asked| <= n <= |end.prune.asked|
                  && (end.prune.asked[..n] == [] || (end.prune.served != [] && Last(end.prune.served) == Last(end.prune.asked[..n]))))
  {
    hide System.Inv, Runs, Subseq;
    var start, end := states[0], Last(states);
    RunLater(states, es, 0, i);
    RunLater(states, es, i, |es|);
    var n, m := |states[i].tide.given|, |states[i].prune.asked|;
    assert end.tide.given[..n] == states[i].tide.given;
    PruneNow(states[i]);
    assert end.prune.asked[..m] == states[i].prune.asked;
  }

  lemma PruneNow(s: System)
    requires s.Inv()
    ensures s.prune.asked != [] ==> s.prune.Trail() != [] && Last(s.prune.Trail()) == Last(s.prune.asked)
  {
    hide Commits.Lane.Inv, Outbox.Inv, Logins.Lane.Inv, Relay.Lane.Inv, TideLane.Inv, OnCourse, System.Draining,
      System.Control, Subseq;
  }

  lemma LanesNow(s: System)
    requires s.Inv()
    ensures s.commits.Inv(Commits.MAX_PENDING_COMMITS) && s.logins.asks.Inv(Logins.MAX_PENDING_LOADS)
    ensures s.relay.Inv(Relay.MAX_CASTS)
  {
    hide Commits.Lane.Inv, Outbox.Inv, Relay.Lane.Inv, TideLane.Inv, PruneLane.Inv, OnCourse, System.Draining,
      System.Control,
      Logins.Lane.Covered, Logins.Lane.Chronicle;
  }

  lemma CommitsDelivered(states: seq<System>, es: seq<Event>, j: nat)
    requires Runs(states, es) && |states| == |es| + 1 && states[0].Inv() && j < |states|
    requires Last(states).commits.sent == states[j].commits.Trail()
    ensures Newest(states[j].commits, states[0].commits, Last(states).commits)
  {
    hide System.Inv, Runs, Commits.LastWrite, Commits.Lane.Inv, Logins.Lane.Inv, Relay.Lane.Inv, Grows;
    RunLater(states, es, 0, j);
    RunLater(states, es, j, |es|);
    LanesNow(states[j]);
    Commits.RefinesLastWrite(states[j].commits, Commits.MAX_PENDING_COMMITS);
  }

  lemma LoadsDelivered(states: seq<System>, es: seq<Event>, k: nat)
    requires Runs(states, es) && |states| == |es| + 1 && states[0].Inv() && k < |states|
    requires Last(states).logins.asks.sent == states[k].logins.asks.Trail()
    ensures Newest(states[k].logins.asks, states[0].logins.asks, Last(states).logins.asks)
  {
    hide System.Inv, Runs, Commits.LastWrite, Commits.Lane.Inv, Logins.Lane.Inv, Relay.Lane.Inv, Grows;
    RunLater(states, es, 0, k);
    RunLater(states, es, k, |es|);
    LanesNow(states[k]);
    Commits.RefinesLastWrite(states[k].logins.asks, Logins.MAX_PENDING_LOADS);
  }

  /** So by the end of every pass the hub has every fallen and gridcast that waited when it
   *  began, unless a full buffer dropped some; all tide given by then and perhaps more; a
   *  prune asked for by then or a later one; and the newest sheet and load of every name
   *  that was not evicted. */
  lemma PassDelivers(states: seq<System>, es: seq<Event>)
    requires Runs(states, es) && |states| == |es| + 1 && states[0].Inv() && states[0].pc.Check? && !states[0].stop
    requires es != [] && es[0].Work? && Last(states).pc.Check?
    ensures Delivered(states[1..], states[1], Last(states)) && Later(states[0], states[1])
  {
    hide System.Inv, Runs, Leads, Flushed, Delivered, Later;
    PassPutsEverything(states, es);
    FirstStep(states, es);
    Next(states[0], es[0], states[1]);
    StepLater(states[0], es[0], states[1]);
    FlushDelivers(states[1..], es[1..]);
  }

  // ---------------------------------------------------- nothing is skipped

  lemma StepDue(s: System, e: Event, t: System, c: Call)
    requires s.Inv() && Leads(s, e, t) && !s.pc.Check? && Due(s, c) && s.pc != Entry(c)
    ensures Due(t, c)
  {
    hide System.Lanes, System.Draining, System.Work, Due;
    if e.Work? {
      StillDue(s, e.reply, c);
    } else {
      OthersLeave(s, e);
      DueAlike(s, t, c);
    }
  }

  /** A procedure that is due is entered before the next check. */
  lemma {:induction false} DueIsEntered(states: seq<System>, es: seq<Event>, c: Call)
    requires Runs(states, es) && |states| == |es| + 1 && states[0].Inv() && Due(states[0], c)
    requires forall i :: 0 <= i < |es| ==> !states[i].pc.Check?
    ensures Due(Last(states), c) || exists i :: 0 <= i < |states| && states[i].pc == Entry(c)
    decreases |es|
  {
    hide System.Inv, Runs, Leads, Due;
    if es != [] {
      FinalStep(states, es);
      assert forall i :: 0 <= i < |es| - 1 ==> Init(states)[i] == states[i];
      DueIsEntered(Init(states), Init(es), c);
      RunStaysWhole(Init(states), Init(es));
      var s := states[|es| - 1];
      assert Last(Init(states)) == s;
      if Due(s, c) && s.pc != Entry(c) {
        StepDue(s, Last(es), Last(states), c);
      } else if !Due(s, c) {
        var i :| 0 <= i < |Init(states)| && Init(states)[i].pc == Entry(c);
        assert states[i].pc == Entry(c);
      }
    }
  }

  /** What a pass has to do, by what its clocks say. */
  predicate InPass(c: Call, poll: bool, register: bool) {
    || c == DoLoads || c == DoWrites || c == DoCommits || c == DoWait
    || (poll && (c == DoPing || c == DoCasts || c == DoOthers)) || (register && c == DoRegister)
  }

  lemma PassHolds(c: Call, poll: bool, register: bool)
    requires InPass(c, poll, register)
    ensures c in Round(poll, register)
  {
    var calls := Round(poll, register);
    var n := |calls|;
    assert calls[0] == DoLoads && calls[1] == DoWrites && calls[2] == DoCommits && calls[n - 2] == DoWait;
    if register {
      assert calls[n - 3] == DoRegister;
    }
    if poll {
      assert calls[3] == DoPing && calls[4] == DoCasts && calls[7] == DoOthers;
    }
  }

  lemma PassBegins(s: System, e: Event, t: System, c: Call)
    requires s.Inv() && s.pc.Check? && !s.stop && Leads(s, e, t) && e.Work? && InPass(c, e.reply.poll, e.reply.register)
    ensures Due(t, c)
  {
    hide System.Lanes, System.Draining, OnCourse, LoginsAfter, CommitsAfter, OutboxAfter, TideAfter, PruneAfter,
      RelayAfter, Round;
    PassHolds(c, e.reply.poll, e.reply.register);
    var calls := Round(e.reply.poll, e.reply.register);
    assert calls == [calls[0]] + calls[1..];
  }

  /** Every pass does all it has to: the three flushes and the wait, with a poll the ping,
   *  the casts and the other reads, and the registration when that is due. */
  lemma PassDoesAll(states: seq<System>, es: seq<Event>, c: Call)
    requires Runs(states, es) && |states| == |es| + 1 && states[0].Inv() && states[0].pc.Check? && !states[0].stop
    requires es != [] && es[0].Work? && InPass(c, es[0].reply.poll, es[0].reply.register) && Last(states).pc.Check?
    requires forall i :: 0 < i < |es| ==> !states[i].pc.Check?
    ensures exists i :: 0 < i < |es| && states[i].pc == Entry(c)
  {
    hide System.Inv, Runs, Leads, Due;
    FirstStep(states, es);
    Next(states[0], es[0], states[1]);
    PassBegins(states[0], es[0], states[1], c);
    var rest, more := states[1..], es[1..];
    assert forall i :: 0 <= i < |more| ==> rest[i] == states[i + 1];
    DueIsEntered(rest, more, c);
    RunStaysWhole(rest, more);
    NothingDueAtCheck(Last(rest), c);
    assert rest[|more|] == Last(rest);
    var i :| 0 <= i < |rest| && rest[i].pc == Entry(c);
    assert states[i + 1] == rest[i];
  }

  lemma NothingDueAtCheck(s: System, c: Call)
    requires s.Inv() && s.pc.Check? && c != DoCheck
    ensures !Due(s, c) && Entry(c) != Check
  {
    hide System.Lanes, System.Draining;
  }

  // ---------------------------------------------- nothing is lost in quiet times

  /** As long as its buffer never fills, no commit is ever given up. */
  lemma {:induction false} NothingLost(states: seq<System>, es: seq<Event>, log: seq<Relay.Cast>, cursor: int)
    requires FederationRuns.Served(states, es, log, cursor) && |states| == |es| + 1
    requires forall s :: s in states ==> |s.commits.pending| < 128 && |s.logins.asks.pending| < 16
    ensures Last(states).commits.lost == {} && Last(states).logins.asks.lost == {}
    decreases |es|
  {
    hide Leads, System.Inv, Start;
    StartLoses(log, cursor);
    if es != [] {
      hide Runs;
      FinalStep(states, es);
      assert forall s :: s in Init(states) ==> s in states;
      NothingLost(Init(states), Init(es), log, cursor);
      var s := Last(Init(states));
      assert s in states;
      RunStaysWhole(Init(states), Init(es));
      StepLoses(s, Last(es), Last(states));
    } else {
      assert Last(states) == states[0];
    }
  }

  lemma StartLoses(log: seq<Relay.Cast>, cursor: int)
    requires Relay.Ascending(log)
    ensures Start(log, cursor).commits.lost == {} && Start(log, cursor).logins.asks.lost == {}
            && Start(log, cursor).Inv()
  {
    hide System.Inv;
    StartInv(log, cursor);
  }

  lemma StepLoses(s: System, e: Event, t: System)
    requires s.Inv() && Leads(s, e, t) && |s.commits.pending| < 128 && |s.logins.asks.pending| < 16
    requires s.commits.lost == {} && s.logins.asks.lost == {}
    ensures t.commits.lost == {} && t.logins.asks.lost == {}
  {
    hide System.Lanes, System.Draining, OnCourse, PcAfter, OutboxAfter, TideAfter, PruneAfter, RelayAfter,
      Commits.Coalesce,
      PushDropOldest, Logins.FindWaiting;
  }

  // ------------------------------------------------- the handshake gets there

  lemma StepTakesLoads(s: System, e: Event, t: System)
    requires s.Inv() && Leads(s, e, t) && !e.Join?
    ensures e.Work? && s.pc == LoadsTake ==> t.logins.asks.pending == []
    ensures s.logins.asks.pending == [] ==> t.logins.asks.pending == []
  {
    hide System.Lanes, System.Draining, OnCourse, PcAfter, CommitsAfter, OutboxAfter, TideAfter, PruneAfter, RelayAfter,
      Commits.Coalesce, PushDropOldest, Logins.FindWaiting;
  }

  lemma {:induction false} LoadsAreTaken(states: seq<System>, es: seq<Event>)
    requires Runs(states, es) && |states| == |es| + 1 && states[0].Inv() && Due(states[0], DoLoads)
    requires forall e :: e in es ==> !e.Join?
    ensures Due(Last(states), DoLoads) || Last(states).logins.asks.pending == []
    decreases |es|
  {
    hide System.Inv, Runs, Leads, Due;
    if es != [] {
      FinalStep(states, es);
      assert Last(es) in es && forall e :: e in Init(es) ==> e in es;
      LoadsAreTaken(Init(states), Init(es));
      RunStaysWhole(Init(states), Init(es));
      var s := Last(Init(states));
      StepTakesLoads(s, Last(es), Last(states));
      if Due(s, DoLoads) && !(Last(es).Work? && s.pc == LoadsTake) {
        NotDueAtCheck(s, DoLoads);
        StepShips(s, s, Last(es), Last(states), DoLoads);
      }
    }
  }

  /** After a pass in which nobody logged in, no load waits or is under way. */
  lemma PassAnswersLoads(states: seq<System>, es: seq<Event>)
    requires Runs(states, es) && |states| == |es| + 1 && states[0].Inv() && states[0].pc.Check? && !states[0].stop
    requires es != [] && es[0].Work? && Last(states).pc.Check? && forall e :: e in es ==> !e.Join?
    ensures Last(states).logins.asks.pending == Last(states).logins.asks.flight == []
            && Last(states).logins.answer == []
  {
    hide System.Inv, Runs, Leads, Due;
    FirstStep(states, es);
    Next(states[0], es[0], states[1]);
    DueAfterCheck(states[0], es[0], states[1]);
    assert forall e :: e in es[1..] ==> e in es;
    LoadsAreTaken(states[1..], es[1..]);
    RunStaysWhole(states, es);
    NotDueAtCheck(Last(states), DoLoads);
    CheckIsClear(Last(states));
  }

  lemma CheckIsClear(s: System)
    requires s.Inv() && s.pc.Check?
    ensures s.logins.asks.flight == [] && s.logins.answer == []
  {
    hide System.Lanes, System.Draining, OnCourse;
  }

  lemma OneStep(s: System, e: Event, t: System)
    requires Leads(s, e, t)
    ensures Runs([s, t], [e])
  {
    hide Leads;
  }

  lemma Joined(a: seq<System>, ea: seq<Event>, b: seq<System>, eb: seq<Event>)
    requires Runs(a, ea) && |a| == |ea| + 1 && Runs(b, eb) && |b| == |eb| + 1 && Last(a) == b[0]
    ensures Runs(a + b[1..], ea + eb) && Last(a + b[1..]) == Last(b)
  {
    hide Leads;
    var c, ec := a + b[1..], ea + eb;
    forall i {:trigger ec[i]} | 0 <= i < |ec| ensures Leads(c[i], ec[i], c[i + 1]) {
      if i < |ea| {
        assert ec[i] == ea[i] && c[i] == a[i] && c[i + 1] == a[i + 1];
      } else {
        assert ec[i] == eb[i - |ea|] && c[i] == b[i - |ea|] && c[i + 1] == b[i - |ea| + 1];
      }
    }
  }

  lemma MatchLeads(s: System) returns (t: System)
    requires s.Inv() && !s.stop && s.logins.drained != []
    ensures Leads(s, Match, t) && t.Inv()
    ensures t.logins == s.logins.Match() && !t.stop && t.logins.asks == s.logins.asks
            && t.logins.answer == s.logins.answer
    ensures t.logins.results == s.logins.results && |t.logins.drained| < |s.logins.drained|
    ensures t.logins.spoiled == s.logins.spoiled
  {
    hide System.Lanes, System.Draining, OnCourse, Logins.FindWaiting;
    t := Apply(s, Match);
    EventKeeps(s, Match);
  }

  /** Collected answers are worked off. */
  lemma {:induction false} MatchesDrain(s: System) returns (states: seq<System>, es: seq<Event>)
    requires s.Inv() && !s.stop
    ensures Runs(states, es) && |states| == |es| + 1 && states[0] == s && Last(states).Inv()
    ensures forall e :: e in es ==> e.Match?
    ensures var t := Last(states).logins;
            t.drained == [] && t.asks == s.logins.asks && t.answer == s.logins.answer && t.results == s.logins.results
            && t.spoiled == s.logins.spoiled
    decreases |s.logins.drained|
  {
    hide System.Inv, Leads;
    if s.logins.drained == [] {
      states, es := [s], [];
    } else {
      var t := MatchLeads(s);
      var rest, more := MatchesDrain(t);
      OneStep(s, Match, t);
      Joined([s, t], [Match], rest, more);
      states, es := [s, t] + rest[1..], [Match] + more;
    }
  }

  lemma CollectLeads(s: System) returns (t: System)
    requires s.Inv() && s.Idle()
    ensures Leads(s, Collect, t) && t.Inv()
    ensures !t.stop && t.logins.asks == s.logins.asks && t.logins.answer == s.logins.answer && t.logins.results == []
    ensures t.logins.spoiled == s.logins.spoiled
  {
    hide System.Lanes, System.Draining, OnCourse;
    t := Apply(s, Collect);
    EventKeeps(s, Collect);
  }

  /** So from there the event loop needs only to collect the answers and match them, and
   *  every session whose name was not spoiled plays. */
  lemma HandshakeGetsThere(s: System) returns (states: seq<System>, es: seq<Event>)
    requires s.Inv() && s.Idle() && s.logins.asks.pending == s.logins.asks.flight == [] && s.logins.answer == []
    ensures Runs(states, es) && |states| == |es| + 1 && states[0] == s && forall e :: e in es ==> e.Collect? || e.Match?
    ensures Last(states).logins.Quiet() && Last(states).logins.spoiled == s.logins.spoiled
    ensures forall c :: c in Last(states).logins.conns && Fold(c.name) !in s.logins.spoiled ==> c.phase.Playing?
  {
    hide System.Inv, Leads;
    var t := CollectLeads(s);
    var rest, more := MatchesDrain(t);
    OneStep(s, Collect, t);
    Joined([s, t], [Collect], rest, more);
    states, es := [s, t] + rest[1..], [Collect] + more;
    RankIsZero(Last(states).logins);
    QuietMeansPlaying(Last(states));
  }

  lemma RankIsZero(l: Logins.Lane)
    requires l.asks.pending == l.asks.flight == [] && l.answer == [] && l.results == [] && l.drained == []
    ensures Rank(l) == 0
  {
  }
}
