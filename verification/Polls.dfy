/** What a poll brings: the hub's casts, once and in order, and its health. */
module Polls {
  import opened Federation
  import opened FederationRuns
  import opened Outboxes
  import opened Passes
  import opened Sequences
  import opened Text
  import Commits
  import Logins
  import Relay

  // ------------------------------------------------------------ casts come in

  /** Everything shown to the players or about to be. */
  function Shown(s: System): seq<Relay.Cast> {
    s.relay.delivered + s.relay.buffer
  }

  /** What a fetch at that state brings in: nothing when the call failed. */
  function Fetched(s: System, e: Event): seq<Relay.Cast> {
    var waiting := Relay.After(s.relay.log, s.relay.cursor);
    if e.Work? && e.reply.ok && e.reply.count <= 20 && e.reply.count <= |waiting| then waiting[..e.reply.count] else []
  }

  function Lesser(a: nat, b: nat): nat {
    if a < b then a else b
  }

  /** The buffers' room is all that can hold a fetched batch back: that much of its front
   *  is taken in, and the cursor stands behind it. */
  predicate TakenIn(start: System, batch: seq<Relay.Cast>, room: nat, s: System) {
    var n := Lesser(|batch|, room);
    && Shown(s) == Shown(start) + batch[..n]
    && s.relay.cursor == if n == 0 then start.relay.cursor else batch[n - 1].id
  }

  /** Calls that fetch. */
  function Casts(rest: seq<Call>): nat {
    multiset(rest)[DoCasts]
  }

  datatype Stage = Before | Read | Got(batch: seq<Relay.Cast>) | Done(batch: seq<Relay.Cast>, room: nat)

  predicate AtPlace(stage: Stage, pc: Pc, rest: seq<Call>) {
    match stage
    case Before => Casts(rest) == (if pc == CursorRead then 0 else 1) && pc != CastsFetch && pc != CastsFile
    case Read => pc == CastsFetch && Casts(rest) == 0
    case Got(_) => pc == CastsFile && Casts(rest) == 0
    case Done(_, _) => Casts(rest) == 0 && pc != CursorRead && pc != CastsFetch && pc != CastsFile
  }

  predicate AtRelay(start: System, stage: Stage, s: System) {
    match stage
    case Done(batch, room) => TakenIn(start, batch, room, s)
    case _ =>
      && Shown(s) == Shown(start) && s.relay.cursor == start.relay.cursor
      && (stage.Read? ==> s.relay.incoming == []) && (stage.Got? ==> s.relay.incoming == stage.batch)
  }

  /** How far the one fetch of a pass has come. */
  predicate At(start: System, stage: Stage, s: System) {
    AtPlace(stage, s.pc, s.rest) && AtRelay(start, stage, s)
  }

  /** The stage after a step. */
  function Onward(stage: Stage, s: System, e: Event): Stage {
    if !e.Work? then stage
    else if stage.Before? && s.pc == CursorRead then Read
    else if stage.Read? then Got(Fetched(s, e))
    else if stage.Got? then Done(stage.batch, if |s.relay.buffer| <= 64 then 64 - |s.relay.buffer| else 0)
    else stage
  }

  lemma ReturnCasts(rest: seq<Call>)
    requires Casts(rest) <= 1
    ensures var n := Return(rest);
            && Casts(n.1) + (if n.0 == CursorRead then 1 else 0) == Casts(rest)
            && n.0 != CastsFetch && n.0 != CastsFile && (Casts(rest) == 0 ==> n.0 != CursorRead)
  {
    if rest != [] {
      assert rest == [rest[0]] + rest[1..];
    }
  }

  lemma PlaceOnward(stage: Stage, pc: Pc, rest: seq<Call>, stop: bool, busy: bool, s: System, r: Reply)
    requires !pc.Check? && !pc.Exited? && AtPlace(stage, pc, rest) && s.pc == pc
    requires busy ==> pc != CursorRead && pc != CastsFetch && pc != CastsFile
    ensures var n := PcAfter(pc, rest, stop, busy, r); AtPlace(Onward(stage, s, Work(r)), n.0, n.1)
  {
    hide Casts, Fetched;
    ReturnCasts(rest);
  }

  lemma RelayOnward(start: System, stage: Stage, s: System, t: System, r: Reply)
    requires s.relay.Inv(64) && AtPlace(stage, s.pc, s.rest) && AtRelay(start, stage, s)
            && |s.relay.buffer| <= Relay.MAX_CASTS
    requires t.relay == RelayAfter(s.pc, s.relay, r) && (s.pc == CastsFetch ==> s.relay.since == s.relay.cursor)
    ensures AtRelay(start, Onward(stage, s, Work(r)), t)
  {
    hide Relay.After, Relay.Lane.Inv, Casts, Relay.Advance;
    if stage.Got? {
      FileTakesIn(start, s.relay, stage.batch, s, t);
    }
  }

  lemma WorkOnward(start: System, stage: Stage, s: System, r: Reply)
    requires s.Inv() && !s.pc.Check? && !s.pc.Exited? && At(start, stage, s)
    ensures At(start, Onward(stage, s, Work(r)), s.Work(r))
  {
    hide Commits.Lane.Inv, Outbox.Inv, Logins.Lane.Inv, TideLane.Inv, PruneLane.Inv, Relay.Lane.Inv, OnCourse,
      System.Draining,
      LoginsAfter, CommitsAfter, OutboxAfter, TideAfter, PruneAfter, RelayAfter, PcAfter, AtPlace, AtRelay, Onward;
    PlaceOnward(stage, s.pc, s.rest, s.stop, s.Busy(), s, r);
    RelayOnward(start, stage, s, s.Work(r), r);
  }

  lemma AdvancesBehind(log: seq<Relay.Cast>, cursor: int, batch: seq<Relay.Cast>, n: nat)
    requires Relay.Ascending(log) && batch <= Relay.After(log, cursor) && n <= |batch|
    ensures Relay.Advance(cursor, batch[..n]) == if n == 0 then cursor else batch[n - 1].id
  {
    hide Relay.After, Relay.Advance;
    var waiting := Relay.After(log, cursor);
    Relay.AfterBounds(log, cursor);
    assert forall i :: 0 <= i < n ==> batch[..n][i] == waiting[i];
    Relay.AdvanceAscending(cursor, batch[..n]);
  }

  lemma FileTakesIn(start: System, l: Relay.Lane, batch: seq<Relay.Cast>, s: System, t: System)
    requires l.Inv(64) && s.relay == l && l.incoming == batch && t.relay == l.File(64)
    requires Shown(s) == Shown(start) && l.cursor == start.relay.cursor
    ensures TakenIn(start, batch, 64 - |l.buffer|, t)
  {
    hide Relay.After, Relay.Between, Relay.Advance, Relay.Ascending;
    var n := Lesser(|batch|, 64 - |l.buffer|);
    AdvancesBehind(l.log, l.cursor, batch, n);
    assert l.delivered + (l.buffer + batch[..n]) == l.delivered + l.buffer + batch[..n];
  }

  lemma OthersOnward(start: System, stage: Stage, s: System, e: Event)
    requires s.Sized() && s.Control() && Enabled(s, e) && !e.Work? && At(start, stage, s)
    ensures At(start, stage, Apply(s, e))
  {
    hide Commits.Coalesce, PushDropOldest, Logins.FindWaiting, Casts;
    OthersShow(s, e);
  }

  lemma OthersShow(s: System, e: Event)
    requires s.Sized() && s.Control() && Enabled(s, e) && !e.Work?
    ensures var t := Apply(s, e);
            && Shown(t) == Shown(s) && t.relay.cursor == s.relay.cursor && t.relay.incoming == s.relay.incoming
            && t.pc == s.pc && t.rest == s.rest
  {
    hide Commits.Coalesce, PushDropOldest, Logins.FindWaiting;
    assert s.relay.delivered + s.relay.buffer + [] == s.relay.delivered + s.relay.buffer;
  }

  lemma StepOnward(start: System, stage: Stage, s: System, e: Event, t: System)
    requires s.Inv() && !s.pc.Check? && Leads(s, e, t) && At(start, stage, s)
    ensures At(start, Onward(stage, s, e), t)
  {
    hide At, System.Inv, System.Sized, System.Control, System.Work, Onward;
    if e.Work? {
      WorkOnward(start, stage, s, e.reply);
      assert e == Work(e.reply);
    } else {
      OthersOnward(start, stage, s, e);
      OthersStand(stage, s, e);
    }
  }

  lemma OthersStand(stage: Stage, s: System, e: Event)
    requires !e.Work?
    ensures Onward(stage, s, e) == stage
  {
  }

  /** The stage of a run, read off its states. */
  function Reached(states: seq<System>, es: seq<Event>): Stage
    requires |es| < |states|
  {
    if es == [] then Before else Onward(Reached(states, Init(es)), states[|es| - 1], Last(es))
  }

  lemma {:induction false} ReachedBefore(a: seq<System>, b: seq<System>, es: seq<Event>)
    requires |es| < |a| && |es| < |b| && forall i :: 0 <= i < |es| ==> a[i] == b[i]
    ensures Reached(a, es) == Reached(b, es)
  {
    hide Onward;
    if es != [] {
      ReachedBefore(a, b, Init(es));
    }
  }

  lemma {:induction false} RunOnward(start: System, states: seq<System>, es: seq<Event>)
    requires Runs(states, es) && |states| == |es| + 1 && states[0].Inv() && At(start, Before, states[0])
    requires forall i :: 0 <= i < |es| ==> !states[i].pc.Check?
    ensures At(start, Reached(states, es), Last(states))
    decreases |es|
  {
    hide System.Inv, Runs, Leads, At, Onward;
    if es != [] {
      FinalStep(states, es);
      assert forall i :: 0 <= i < |es| - 1 ==> Init(states)[i] == states[i];
      RunStaysWhole(Init(states), Init(es));
      RunOnward(start, Init(states), Init(es));
      ReachedBefore(Init(states), states, Init(es));
      assert Last(Init(states)) == states[|es| - 1];
      StepOnward(start, Reached(states, Init(es)), states[|es| - 1], Last(es), Last(states));
    }
  }

  /** Where the stages came from: the batch from a fetch of the run, the room from its filing. */
  ghost predicate Traced(states: seq<System>, es: seq<Event>, batch: seq<Relay.Cast>, room: nat)
    requires |es| < |states|
  {
    exists f, j :: 0 <= f < j < |es| && states[f].pc == CastsFetch && states[j].pc == CastsFile && es[f].Work? && es[j].Work?
                   && batch == Fetched(states[f], es[f]) && |states[j].relay.buffer| <= 64
                   && room == 64 - |states[j].relay.buffer|
  }

  ghost predicate GotFrom(states: seq<System>, es: seq<Event>, batch: seq<Relay.Cast>)
    requires |es| < |states|
  {
    exists f :: 0 <= f < |es| && states[f].pc == CastsFetch && es[f].Work? && batch == Fetched(states[f], es[f])
  }

  ghost predicate Sourced(states: seq<System>, es: seq<Event>, stage: Stage)
    requires |es| < |states|
  {
    match stage
    case Got(batch) => GotFrom(states, es, batch)
    case Done(batch, room) => Traced(states, es, batch, room)
    case _ => true
  }

  lemma SourcedLonger(a: seq<System>, ea: seq<Event>, b: seq<System>, eb: seq<Event>, stage: Stage)
    requires |ea| < |a| && |eb| < |b| && |ea| <= |eb| && Sourced(a, ea, stage)
    requires forall i :: 0 <= i < |ea| ==> a[i] == b[i] && ea[i] == eb[i]
    ensures Sourced(b, eb, stage)
  {
    hide Fetched;
    match stage
    case Got(batch) =>
      var f :| 0 <= f < |ea| && a[f].pc == CastsFetch && ea[f].Work? && batch == Fetched(a[f], ea[f]);
      assert b[f] == a[f] && eb[f] == ea[f];
    case Done(batch, room) =>
      var f, j :| 0 <= f < j < |ea| && a[f].pc == CastsFetch && a[j].pc == CastsFile && ea[f].Work? && ea[j].Work?
                  && batch == Fetched(a[f], ea[f]) && |a[j].relay.buffer| <= 64 && room == 64 - |a[j].relay.buffer|;
      assert b[f] == a[f] && eb[f] == ea[f] && b[j] == a[j] && eb[j] == ea[j];
    case _ =>
  }

  lemma SourcedStep(states: seq<System>, es: seq<Event>, stage: Stage)
    requires 0 < |es| < |states| && Sourced(states, Init(es), stage) && |states[|es| - 1].relay.buffer| <= 64
    requires stage.Read? ==> states[|es| - 1].pc == CastsFetch
    requires stage.Got? ==> states[|es| - 1].pc == CastsFile
    ensures Sourced(states, es, Onward(stage, states[|es| - 1], Last(es)))
  {
    hide Fetched;
    var n := |es| - 1;
    assert es[n] == Last(es);
    if Last(es).Work? && stage.Got? {
      var f :| 0 <= f < n && states[f].pc == CastsFetch && Init(es)[f].Work? && stage.batch == Fetched(states[f], Init(es)[f]);
      assert es[f] == Init(es)[f];
    } else if Last(es).Work? && stage.Read? {
    } else {
      SourcedLonger(states, Init(es), states, es, stage);
    }
  }

  lemma {:induction false} StagesTraced(start: System, states: seq<System>, es: seq<Event>)
    requires Runs(states, es) && |states| == |es| + 1 && states[0].Inv() && At(start, Before, states[0])
    requires forall i :: 0 <= i < |es| ==> !states[i].pc.Check?
    ensures Sourced(states, es, Reached(states, es))
    decreases |es|
  {
    hide System.Inv, Runs, Leads, At, Fetched, Sourced, Onward;
    if es != [] {
      FinalStep(states, es);
      assert forall i :: 0 <= i < |es| - 1 ==> Init(states)[i] == states[i];
      StagesTraced(start, Init(states), Init(es));
      ReachedBefore(Init(states), states, Init(es));
      RunStaysWhole(Init(states), Init(es));
      RunOnward(start, Init(states), Init(es));
      var stage := Reached(states, Init(es));
      assert Last(Init(states)) == states[|es| - 1];
      StagePlace(start, stage, states[|es| - 1]);
      SourcedLonger(Init(states), Init(es), states, Init(es), stage);
      SourcedStep(states, es, stage);
    } else {
      NothingSourced(states);
    }
  }

  lemma NothingSourced(states: seq<System>)
    requires states != []
    ensures Sourced(states, [], Before)
  {
  }

  lemma StagePlace(start: System, stage: Stage, s: System)
    requires s.Inv() && At(start, stage, s)
    ensures stage.Read? ==> s.pc == CastsFetch
    ensures stage.Got? ==> s.pc == CastsFile
    ensures |s.relay.buffer| <= 64
  {
    hide System.Lanes, System.Draining, System.Control, OnCourse, Shown, Casts;
  }

  lemma PollFetchesOnce(register: bool)
    ensures Casts(Round(true, register)) == 1 && Round(true, register) != [] && Round(true, register)[0] == DoLoads
  {
  }

  lemma PollBegins(s: System, r: Reply)
    requires s.Sized() && s.Control() && !s.pc.Exited? && s.pc.Check? && !s.stop && r.poll
    ensures At(s, Before, s.Work(r))
  {
    hide LoginsAfter, CommitsAfter, OutboxAfter, TideAfter, PruneAfter, Round, Casts;
    PollFetchesOnce(r.register);
    ReturnCasts(Round(r.poll, r.register));
  }

  /** A pass that polls fetches once. Of what the hub's log holds beyond the cursor it
   *  brings in as many casts as the hub gave, as far as the buffer had room when they were
   *  filed; the cursor then stands behind the last of them; and none when the call failed. */
  lemma PollBringsCasts(states: seq<System>, es: seq<Event>)
    requires Runs(states, es) && |states| == |es| + 1 && states[0].Inv() && states[0].pc.Check? && !states[0].stop
    requires es != [] && es[0].Work? && es[0].reply.poll && Last(states).pc.Check?
    requires forall i :: 0 < i < |es| ==> !states[i].pc.Check?
    ensures exists f, j :: 0 < f < j < |es| && es[f].Work? && es[j].Work?
              && states[f].pc == CastsFetch && states[j].pc == CastsFile && |states[j].relay.buffer| <= 64
              && states[f].relay.cursor == states[0].relay.cursor
              && TakenIn(states[0], Fetched(states[f], es[f]), 64 - |states[j].relay.buffer|, Last(states))
  {
    hide System.Inv, Runs, Leads, At, Onward, Fetched, TakenIn, Reached, Traced;
    FirstStep(states, es);
    Next(states[0], es[0], states[1]);
    Polled(states[0], es[0], states[1]);
    var rest, more := states[1..], es[1..];
    assert forall i :: 0 <= i < |more| ==> rest[i] == states[i + 1];
    RunOnward(states[0], rest, more);
    StagesTraced(states[0], rest, more);
    RunStaysWhole(rest, more);
    DoneAtCheck(states[0], Reached(rest, more), Last(rest));
    var batch, room := Reached(rest, more).batch, Reached(rest, more).room;
    var f, j := Sources(states, es, batch, room);
    CursorStands(states[0], rest, more, f - 1);
    assert rest[f - 1] == states[f];
  }

  lemma Sources(states: seq<System>, es: seq<Event>, batch: seq<Relay.Cast>, room: nat) returns (f: nat, j: nat)
    requires |states| == |es| + 1 && es != [] && Traced(states[1..], es[1..], batch, room)
    ensures 0 < f < j < |es| && es[f].Work? && es[j].Work? && states[f].pc == CastsFetch && states[j].pc == CastsFile
    ensures |states[j].relay.buffer| <= 64 && batch == Fetched(states[f], es[f])
            && room == 64 - |states[j].relay.buffer|
  {
    hide Fetched;
    var rest, more := states[1..], es[1..];
    var p, q :| 0 <= p < q < |more| && rest[p].pc == CastsFetch && rest[q].pc == CastsFile && more[p].Work? && more[q].Work?
                && batch == Fetched(rest[p], more[p]) && |rest[q].relay.buffer| <= 64
                && room == 64 - |rest[q].relay.buffer|;
    f, j := p + 1, q + 1;
    assert states[f] == rest[p] && es[f] == more[p] && states[j] == rest[q] && es[j] == more[q];
  }

  lemma Polled(s: System, e: Event, t: System)
    requires s.Inv() && s.pc.Check? && !s.stop && Leads(s, e, t) && e.Work? && e.reply.poll
    ensures At(s, Before, t)
  {
    hide System.Lanes, System.Draining, OnCourse, System.Sized, System.Control, At, System.Work;
    PollBegins(s, e.reply);
  }

  lemma DoneAtCheck(start: System, stage: Stage, s: System)
    requires s.Inv() && s.pc.Check? && At(start, stage, s)
    ensures stage.Done? && TakenIn(start, stage.batch, stage.room, s)
  {
    hide System.Lanes, System.Draining, System.Control, TakenIn;
  }

  /** Until the filing the cursor stays. */
  lemma CursorStands(start: System, states: seq<System>, es: seq<Event>, f: nat)
    requires Runs(states, es) && |states| == |es| + 1 && states[0].Inv() && At(start, Before, states[0])
    requires forall i :: 0 <= i < |es| ==> !states[i].pc.Check?
    requires f < |es| && states[f].pc == CastsFetch
    ensures states[f].relay.cursor == start.relay.cursor
  {
    hide System.Inv, Leads, At, Onward;
    var some, few := states[..f + 1], es[..f];
    assert Runs(some, few) by {
      assert forall i {:trigger few[i]} :: 0 <= i < f ==> few[i] == es[i] && some[i] == states[i] && some[i + 1] == states[i + 1];
    }
    assert forall i :: 0 <= i < |few| ==> some[i] == states[i];
    RunOnward(start, some, few);
    FetchPlace(start, Reached(some, few), states[f]);
  }

  lemma FetchPlace(start: System, stage: Stage, s: System)
    requires At(start, stage, s) && s.pc == CastsFetch
    ensures s.relay.cursor == start.relay.cursor
  {
    hide Shown, Casts, TakenIn;
  }

  /** What was brought in is shown to the players by the next drain, all of it, in order. */
  lemma DrainShows(s: System)
    requires s.Inv() && Enabled(s, ShowCasts)
    ensures s.Sized() && s.Control() && Apply(s, ShowCasts).relay.delivered == Shown(s)
            && Apply(s, ShowCasts).relay.buffer == []
  {
    hide System.Lanes, System.Draining, OnCourse;
  }

  // ------------------------------------------------------- the hub's health

  /** The answer to the last ping. */
  function Pinged(states: seq<System>, es: seq<Event>): bool
    requires |es| < |states|
  {
    if es == [] then true
    else if Last(es).Work? && states[|es| - 1].pc.PingHub? then Last(es).reply.ok
    else Pinged(states, Init(es))
  }

  /** The last answer to a ping that was filed; none counts as good. */
  function Health(states: seq<System>, es: seq<Event>): bool
    requires |es| < |states|
  {
    if es == [] then true
    else if Last(es).Work? && states[|es| - 1].pc.HealthPut? then Pinged(states, Init(es))
    else Health(states, Init(es))
  }

  lemma {:induction false} HealthBefore(a: seq<System>, b: seq<System>, es: seq<Event>)
    requires |es| < |a| && |es| < |b| && forall i :: 0 <= i < |es| ==> a[i] == b[i]
    ensures Pinged(a, es) == Pinged(b, es) && Health(a, es) == Health(b, es)
  {
    if es != [] {
      HealthBefore(a, b, Init(es));
    }
  }

  lemma WorkOnHealth(s: System, r: Reply)
    requires s.Sized() && s.Control() && !s.pc.Exited?
    ensures var t := s.Work(r);
            && (t.pc.HealthPut? ==> (s.pc.PingHub? && t.pc.ok == r.ok))
            && (s.pc.PingHub? ==> t.pc == HealthPut(r.ok))
            && t.unreachable == if s.pc.HealthPut? then !s.pc.ok else s.unreachable
  {
    hide LoginsAfter, CommitsAfter, OutboxAfter, TideAfter, PruneAfter, RelayAfter;
  }

  lemma OthersOnHealth(s: System, e: Event)
    requires s.Sized() && s.Control() && Enabled(s, e) && !e.Work?
    ensures Apply(s, e).unreachable == s.unreachable && Apply(s, e).pc == s.pc
  {
    hide Commits.Coalesce, PushDropOldest, Logins.FindWaiting;
  }

  /** In every run of a fresh worker gridcasts are refused exactly while the last ping
   *  whose answer was filed failed. */
  lemma {:induction false} RefusedIff(states: seq<System>, es: seq<Event>, log: seq<Relay.Cast>, cursor: int)
    requires FederationRuns.Served(states, es, log, cursor) && |states| == |es| + 1
    ensures Last(states).unreachable <==> !Health(states, es)
    ensures Last(states).pc.HealthPut? ==> Last(states).pc.ok == Pinged(states, es)
    decreases |es|
  {
    hide Leads, System.Inv, System.Work, Start;
    StartIsFresh(log, cursor);
    if es != [] {
      hide Runs;
      FinalStep(states, es);
      RefusedIff(Init(states), Init(es), log, cursor);
      assert forall i :: 0 <= i < |es| - 1 ==> Init(states)[i] == states[i];
      HealthBefore(Init(states), states, Init(es));
      assert Last(Init(states)) == states[|es| - 1];
      OnHealth(states[|es| - 1], Last(es), Last(states));
    }
  }

  lemma StartIsFresh(log: seq<Relay.Cast>, cursor: int)
    ensures !Start(log, cursor).unreachable && Start(log, cursor).pc.Check?
  {
  }

  lemma OnHealth(s: System, e: Event, t: System)
    requires Leads(s, e, t)
    ensures !e.Work? ==> t.unreachable == s.unreachable && t.pc == s.pc
    ensures e.Work? ==>
              && (t.pc.HealthPut? ==> (s.pc.PingHub? && t.pc.ok == e.reply.ok)) && (s.pc.PingHub? ==> t.pc.HealthPut?)
              && t.unreachable == if s.pc.HealthPut? then !s.pc.ok else s.unreachable
  {
    hide System.Sized, System.Control, System.Work;
    if e.Work? {
      WorkOnHealth(s, e.reply);
      assert e == Work(e.reply);
    } else {
      OthersOnHealth(s, e);
    }
  }
}
