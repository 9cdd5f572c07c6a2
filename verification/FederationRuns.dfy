/** What holds of every run of the federation protocol. */
module FederationRuns {
  import opened Outboxes
  import opened Sequences
  import opened Text
  import opened Federation
  import Commits
  import Relay
  import Logins

  // ---- What a run gave to each lane, read off its states and events

  /** The commit an event makes: the session's name and the sheet. */
  function CallsAt(s: System, e: Event): seq<Commits.Commit<Sheet>> {
    match e
    case Commit(i, sheet) => CallOf(s.logins.conns, i, sheet)
    case Close(i, sheet) => CallOf(s.logins.conns, i, sheet)
    case _ => []
  }

  function CallOf(conns: seq<Logins.Conn>, i: nat, sheet: Sheet): seq<Commits.Commit<Sheet>> {
    if i < |conns| && conns[i].phase.Playing? then [Commits.Commit(conns[i].name, sheet)] else []
  }

  /** A gridcast the event loop accepts: any but those refused while the hub is known to be down. */
  function SpokenAt(s: System, e: Event): seq<Voice> {
    if e.Speak? && !s.unreachable then [e.voice] else []
  }

  /** What an event does to the standing of a connection. */
  function MilestonesAt(s: System, e: Event): seq<Logins.Milestone> {
    match e
    case Join(id, _, _) => [Logins.Joined(id)]
    case Match => EntryOf(s.logins)
    case Commit(i, _) => CommitOf(s.logins.conns, i)
    case Close(i, _) => CommitOf(s.logins.conns, i)
    case _ => []
  }

  function CommitOf(conns: seq<Logins.Conn>, i: nat): seq<Logins.Milestone> {
    if i < |conns| && conns[i].phase.Playing? then [Logins.Committed(conns[i].id)] else []
  }

  /** The waiting session that the next collected answer is for. */
  function EntryOf(l: Logins.Lane): seq<Logins.Milestone> {
    if l.drained == [] then []
    else
      var i := Logins.FindWaiting(l.conns, l.drained[0].name);
      if i < |l.conns| then [Logins.Entered(l.conns[i].id)] else []
  }

  function Calls(states: seq<System>, es: seq<Event>): seq<Commits.Commit<Sheet>>
    requires |es| <= |states|
  {
    if es == [] then [] else CallsAt(states[0], es[0]) + Calls(states[1..], es[1..])
  }

  function Spoken(states: seq<System>, es: seq<Event>): seq<Voice>
    requires |es| <= |states|
  {
    if es == [] then [] else SpokenAt(states[0], es[0]) + Spoken(states[1..], es[1..])
  }

  function Milestones(states: seq<System>, es: seq<Event>): seq<Logins.Milestone>
    requires |es| <= |states|
  {
    if es == [] then [] else MilestonesAt(states[0], es[0]) + Milestones(states[1..], es[1..])
  }

  function Loads(es: seq<Event>): seq<Logins.Load> {
    if es == [] then []
    else (if es[0].Join? then [Commits.Commit(es[0].name, es[0].resumed)] else []) + Loads(es[1..])
  }

  function Shifts(es: seq<Event>): seq<int> {
    if es == [] then [] else (if es[0].Shift? then [es[0].delta] else []) + Shifts(es[1..])
  }

  function Falls(es: seq<Event>): seq<Fallen> {
    if es == [] then [] else (if es[0].Fall? then [es[0].fallen] else []) + Falls(es[1..])
  }

  function Asks(es: seq<Event>): seq<string> {
    if es == [] then [] else (if es[0].AskPrune? then [es[0].admin] else []) + Asks(es[1..])
  }

  function Posts(es: seq<Event>): seq<Relay.Cast> {
    if es == [] then [] else (if es[0].Post? then [es[0].cast] else []) + Posts(es[1..])
  }

  /** Everything one step may add to the histories. */
  datatype News = News(shifts: seq<int>, falls: seq<Fallen>, asks: seq<string>, posts: seq<Relay.Cast>,
                       loads: seq<Logins.Load>, calls: seq<Commits.Commit<Sheet>>, spoken: seq<Voice>,
                       milestones: seq<Logins.Milestone>)

  function NewsAt(s: System, e: Event): News {
    News(if e.Shift? then [e.delta] else [], if e.Fall? then [e.fallen] else [],
         if e.AskPrune? then [e.admin] else [], if e.Post? then [e.cast] else [],
         if e.Join? then [Commits.Commit(e.name, e.resumed)] else [],
         CallsAt(s, e), SpokenAt(s, e), MilestonesAt(s, e))
  }

  function NewsOf(states: seq<System>, es: seq<Event>): News
    requires |es| <= |states|
  {
    News(Shifts(es), Falls(es), Asks(es), Posts(es), Loads(es), Calls(states, es), Spoken(states, es), Milestones(states, es))
  }

  /** The histories kept in the state grew by exactly that. */
  ghost predicate Recorded(s: System, s': System, n: News) {
    && s'.tide.given == s.tide.given + n.shifts
    && s'.fallens.accepted == s.fallens.accepted + n.falls
    && s'.prune.asked == s.prune.asked + n.asks
    && s'.relay.log == s.relay.log + n.posts
    && s'.relay.start == s.relay.start
    && s'.logins.asks.called == s.logins.asks.called + n.loads
    && s'.commits.called == s.commits.called + n.calls
    && s'.voices.accepted == s.voices.accepted + n.spoken
    && s'.logins.log == s.logins.log + n.milestones
  }

  lemma WorkRecords(s: System, r: Reply)
    requires s.Sized() && s.Control() && !s.pc.Exited?
    ensures Recorded(s, s.Work(r), NewsAt(s, Work(r))) && Apply(s, Work(r)) == s.Work(r)
  {
    hide Outboxes.PushDropOldest, PcAfter;
  }

  lemma JoinRecords(s: System, e: Event)
    requires s.Sized() && s.Control() && Enabled(s, e) && e.Join?
    ensures Recorded(s, Apply(s, e), NewsAt(s, e))
  {
    hide PushDropOldest, Commits.Coalesce, System.Work;
  }

  lemma MatchRecords(s: System, e: Event)
    requires s.Sized() && s.Control() && Enabled(s, e) && e.Match?
    ensures Recorded(s, Apply(s, e), NewsAt(s, e))
  {
    hide System.Work;
  }

  lemma CommitRecords(s: System, e: Event)
    requires s.Sized() && s.Control() && Enabled(s, e) && e.Commit?
    ensures Recorded(s, Apply(s, e), NewsAt(s, e))
  {
    hide PushDropOldest, Commits.Coalesce, System.Work;
  }

  lemma CloseRecords(s: System, e: Event)
    requires s.Sized() && s.Control() && Enabled(s, e) && e.Close?
    ensures Recorded(s, Apply(s, e), NewsAt(s, e))
  {
    hide PushDropOldest, Commits.Coalesce, System.Work;
    var l := s.logins.conns;
    if l[e.i].phase.Playing? {
      assert Apply(s, e).commits.called == s.commits.called + CallsAt(s, e);
    }
  }

  lemma OthersRecord(s: System, e: Event)
    requires s.Sized() && s.Control() && Enabled(s, e) && !e.Work? && !e.Join? && !e.Commit? && !e.Close? && !e.Match?
    ensures Recorded(s, Apply(s, e), NewsAt(s, e))
  {
    hide PushDropOldest, Commits.Coalesce, Logins.FindWaiting, System.Work;
  }

  lemma StepRecords(s: System, e: Event)
    requires s.Sized() && s.Control() && Enabled(s, e)
    ensures Recorded(s, Apply(s, e), NewsAt(s, e))
  {
    hide Recorded, NewsAt, Apply;
    if e.Work? {
      assert e == Work(e.reply);
      WorkRecords(s, e.reply);
    } else if e.Join? {
      JoinRecords(s, e);
    } else if e.Match? {
      MatchRecords(s, e);
    } else if e.Commit? {
      CommitRecords(s, e);
    } else if e.Close? {
      CloseRecords(s, e);
    } else {
      OthersRecord(s, e);
    }
  }

  /** A run is its first event and the run that follows. */
  lemma FirstStep(states: seq<System>, es: seq<Event>)
    requires Runs(states, es) && es != []
    ensures |states| > 1 && Leads(states[0], es[0], states[1]) && Runs(states[1..], es[1..])
    ensures Last(states[1..]) == Last(states) && states[1..][0] == states[1]
  {
    hide Leads;
    assert forall i {:trigger es[1..][i]} :: 0 <= i < |es| - 1 ==> es[1..][i] == es[i + 1];
  }

  lemma SizesOf(states: seq<System>, es: seq<Event>)
    requires Runs(states, es)
    ensures |states| == |es| + 1
  {
  }

  lemma {:induction false} RunRecords(states: seq<System>, es: seq<Event>)
    requires Runs(states, es) && states[0].Inv()
    ensures Last(states).Inv() && Recorded(states[0], Last(states), NewsOf(states, es))
    decreases |es|
  {
    hide System.Inv, Runs, Leads, Recorded, NewsAt;
    SizesOf(states, es);
    if es != [] {
      FirstStep(states, es);
      Next(states[0], es[0], states[1]);
      RunRecords(states[1..], es[1..]);
      StepsJoin(states, es);
    } else {
      NothingRecorded(states[0]);
    }
  }

  lemma NothingRecorded(s: System)
    ensures Recorded(s, s, News([], [], [], [], [], [], [], []))
  {
  }

  /** One step, seen from inside a run. */
  lemma Next(s: System, e: Event, m: System)
    requires s.Inv() && Leads(s, e, m)
    ensures m.Inv() && Recorded(s, m, NewsAt(s, e))
  {
    EventKeeps(s, e);
    StepRecords(s, e);
  }

  lemma Chain<T>(a: seq<T>, b: seq<T>, c: seq<T>)
    ensures a + b + c == a + (b + c)
  {
  }

  lemma StepsJoin(states: seq<System>, es: seq<Event>)
    requires es != [] && |states| == |es| + 1
    requires Recorded(states[0], states[1], NewsAt(states[0], es[0]))
    requires Recorded(states[1], Last(states), NewsOf(states[1..], es[1..]))
    ensures Recorded(states[0], Last(states), NewsOf(states, es))
  {
    var s, n, m := states[0], NewsAt(states[0], es[0]), NewsOf(states[1..], es[1..]);
    hide CallsAt, SpokenAt, MilestonesAt;
    Chain(s.tide.given, n.shifts, m.shifts);
    Chain(s.fallens.accepted, n.falls, m.falls);
    Chain(s.prune.asked, n.asks, m.asks);
    Chain(s.relay.log, n.posts, m.posts);
    Chain(s.logins.asks.called, n.loads, m.loads);
    Chain(s.commits.called, n.calls, m.calls);
    Chain(s.voices.accepted, n.spoken, m.spoken);
    Chain(s.logins.log, n.milestones, m.milestones);
  }

  // ---- The theorems

  /** The run of a worker started on some hub log and cursor. */
  ghost predicate Served(states: seq<System>, es: seq<Event>, log: seq<Relay.Cast>, cursor: int) {
    Relay.Ascending(log) && Runs(states, es) && states[0] == Start(log, cursor)
  }

  /** In every run the invariant holds and every history is that of the run. */
  lemma RunFacts(states: seq<System>, es: seq<Event>, log: seq<Relay.Cast>, cursor: int)
    requires Served(states, es, log, cursor)
    ensures |states| == |es| + 1
    ensures var s := Last(states);
            && s.Inv()
            && s.tide.given == Shifts(es) && s.fallens.accepted == Falls(es) && s.prune.asked == Asks(es)
            && s.relay.log == log + Posts(es) && s.relay.start == cursor
            && s.logins.asks.called == Loads(es) && s.commits.called == Calls(states, es)
            && s.voices.accepted == Spoken(states, es) && s.logins.log == Milestones(states, es)
  {
    hide System.Inv, Runs;
    StartInv(log, cursor);
    SizesOf(states, es);
    RunRecords(states, es);
    var s0, n := states[0], NewsOf(states, es);
    assert s0.tide.given + n.shifts == n.shifts && s0.fallens.accepted + n.falls == n.falls;
    assert s0.prune.asked + n.asks == n.asks && s0.logins.asks.called + n.loads == n.loads;
    assert s0.commits.called + n.calls == n.calls && s0.voices.accepted + n.spoken == n.spoken;
    assert s0.logins.log + n.milestones == n.milestones;
  }

  /** Casts reach the players exactly once and in order, in every interleaving:
   *  shown ++ buffered is the hub's log from the first cursor to the present one. */
  lemma CastRelay(states: seq<System>, es: seq<Event>, log: seq<Relay.Cast>, cursor: int)
    requires Served(states, es, log, cursor)
    ensures |states| == |es| + 1
    ensures var l := Last(states).relay;
            && l.delivered + l.buffer == Relay.Between(log + Posts(es), cursor, l.cursor)
            && Relay.Ascending(l.delivered)
            && forall c :: c in l.incoming ==> c !in l.delivered && c !in l.buffer
  {
    hide Served;
    RunFacts(states, es, log, cursor);
    Relay.ExactlyOnce(Last(states).relay, Relay.MAX_CASTS);
  }

  /** No shift of the tide is lost or counted twice. */
  lemma TideConserved(states: seq<System>, es: seq<Event>, log: seq<Relay.Cast>, cursor: int)
    requires Served(states, es, log, cursor)
    ensures |states| == |es| + 1
    ensures var t := Last(states).tide; Sum(Shifts(es)) == t.delta + t.flight + Sum(t.passed)
  {
    hide Served;
    RunFacts(states, es, log, cursor);
  }

  /** The fallen reach the hub in order and at most once, all of them as long as
   *  no more than the buffer holds are queued between two takes. */
  lemma FallenDelivery(states: seq<System>, es: seq<Event>, log: seq<Relay.Cast>, cursor: int)
    requires Served(states, es, log, cursor)
    ensures |states| == |es| + 1
    ensures var o := Last(states).fallens;
            Subseq(o.sent, Falls(es)) && (o.widest <= MAX_PENDING_FALLEN <==> o.sent + o.flight + o.queue == Falls(es))
  {
    hide Served;
    RunFacts(states, es, log, cursor);
    Delivery(Last(states).fallens, MAX_PENDING_FALLEN);
  }

  /** So do the gridcasts the event loop accepted. */
  lemma VoiceDelivery(states: seq<System>, es: seq<Event>, log: seq<Relay.Cast>, cursor: int)
    requires Served(states, es, log, cursor)
    ensures |states| == |es| + 1
    ensures var o := Last(states).voices;
            && Subseq(o.sent, Spoken(states, es))
            && (o.widest <= MAX_PENDING_CASTS <==> o.sent + o.flight + o.queue == Spoken(states, es))
  {
    hide Served;
    RunFacts(states, es, log, cursor);
    Delivery(Last(states).voices, MAX_PENDING_CASTS);
  }

  /** A coalescing lane against the requests of the run: what was handed over for a
   *  key is what was asked for it, in order and with gaps only; the newest request of
   *  a key is handed over, on its way or waiting unless it was evicted. */
  ghost predicate Coalesces<S>(l: Commits.Lane<S>, asked: seq<Commits.Commit<S>>, k: string) {
    && Commits.DistinctNames(l.pending)
    && Subseq(Commits.Sheets(l.sent, k), Commits.Sheets(asked, k))
    && (k !in l.lost && k in Commits.LastWrite(asked) ==>
          k in Commits.LastWrite(l.Trail()) && Commits.LastWrite(l.Trail())[k] == Commits.LastWrite(asked)[k])
  }

  lemma LaneCoalesces<S>(l: Commits.Lane<S>, cap: nat, k: string)
    requires l.Inv(cap)
    ensures Coalesces(l, l.called, k)
  {
    hide Commits.LastWrite, Commits.Sheets;
    Commits.SentInCallOrder(l, cap, k);
    Commits.RefinesLastWrite(l, cap);
    var trail, called := Commits.LastWrite(l.Trail()), Commits.LastWrite(l.called);
    if k !in l.lost && k in called {
      assert k in called - l.lost;
      assert k in trail - l.lost && (trail - l.lost)[k] == (called - l.lost)[k];
    }
  }

  /** The commits of the run, by name. */
  lemma CommitsCoalesce(states: seq<System>, es: seq<Event>, log: seq<Relay.Cast>, cursor: int, k: string)
    requires Served(states, es, log, cursor)
    ensures |states| == |es| + 1 && Coalesces(Last(states).commits, Calls(states, es), k)
  {
    hide Served, Coalesces;
    RunFacts(states, es, log, cursor);
    LaneCoalesces(Last(states).commits, Commits.MAX_PENDING_COMMITS, k);
  }

  /** The logins of the run: each name's newest load was put to the hub, is on its way
   *  or waits unless it was evicted; a waiting session whose name was not spoiled has its
   *  load pending, in flight or answered, so that it plays once nothing is left on its
   *  way; and whoever commits had joined and then entered play, exactly once, before. */
  lemma LoginsGoThrough(states: seq<System>, es: seq<Event>, log: seq<Relay.Cast>, cursor: int, k: string)
    requires Served(states, es, log, cursor)
    ensures |states| == |es| + 1 && Coalesces(Last(states).logins.asks, Loads(es), k)
    ensures forall c :: c in Last(states).logins.conns && Fold(c.name) !in Last(states).logins.spoiled ==>
              c.phase.Playing? || Last(states).logins.Entries(Fold(c.name)) > 0
    ensures Last(states).logins.Quiet() ==>
              forall c :: c in Last(states).logins.conns && Fold(c.name) !in Last(states).logins.spoiled ==> c.phase.Playing?
    ensures var m := Milestones(states, es);
            forall j :: 0 <= j < |m| && m[j].Committed? ==>
              exists e :: 0 <= e < j && m[e] == Logins.Entered(m[j].id) && Logins.Joined(m[j].id) in m[..e]
                          && forall i :: 0 <= i < |m| && m[i] == m[e] ==> i == e
  {
    hide Served, Coalesces;
    RunFacts(states, es, log, cursor);
    var l := Last(states).logins;
    LaneCoalesces(l.asks, Logins.MAX_PENDING_LOADS, k);
    forall c | c in l.conns && c.phase.WaitHub? && Fold(c.name) !in l.spoiled
      ensures l.Entries(Fold(c.name)) > 0 && !l.Quiet()
    {
      Logins.NobodyStranded(l, Logins.MAX_PENDING_LOADS, c);
    }
    forall j | 0 <= j < |l.log| && l.log[j].Committed?
      ensures exists e :: 0 <= e < j && l.log[e] == Logins.Entered(l.log[j].id) && Logins.Joined(l.log[j].id) in l.log[..e] && forall i :: 0 <= i < |l.log| && l.log[i] == l.log[e] ==> i == e
    {
      Logins.EntersOnceBeforeCommit(l, Logins.MAX_PENDING_LOADS, j);
    }
  }

  /** When the worker thread has ended, after whatever run and wherever it was
   *  when stop was set, nothing queued is left behind: every commit, load, fallen,
   *  cast, tide shift and the prune request of the run have been put to the hub. */
  lemma GracefulShutdown(states: seq<System>, es: seq<Event>, log: seq<Relay.Cast>, cursor: int)
    requires Served(states, es, log, cursor) && |states| == |es| + 1 && Last(states).pc.Exited?
    ensures Last(states).stop
    ensures var l := Last(states).commits;
            Commits.LastWrite(l.sent) - l.lost == Commits.LastWrite(Calls(states, es)) - l.lost
    ensures var l := Last(states).logins.asks;
            Commits.LastWrite(l.sent) - l.lost == Commits.LastWrite(Loads(es)) - l.lost
    ensures Last(states).logins.asks.pending == [] && Last(states).logins.asks.flight == []
            && Last(states).logins.answer == []
    ensures Last(states).fallens.widest <= MAX_PENDING_FALLEN ==> Last(states).fallens.sent == Falls(es)
    ensures Last(states).voices.widest <= MAX_PENDING_CASTS ==> Last(states).voices.sent == Spoken(states, es)
    ensures Sum(Last(states).tide.passed) == Sum(Shifts(es))
    ensures Asks(es) != [] ==> Last(states).prune.served != [] && Last(Last(states).prune.served) == Last(Asks(es))
  {
    hide Served, Commits.LastWrite, System.Inv, Commits.Lane.Inv, Outbox.Inv, Subseq;
    var s := Last(states);
    RunFacts(states, es, log, cursor);
    ExitedMeansEmpty(s);
    LanesOf(s);
    Settled(s.commits, Commits.MAX_PENDING_COMMITS);
    Settled(s.logins.asks, Logins.MAX_PENDING_LOADS);
    Delivery(s.fallens, MAX_PENDING_FALLEN);
    Delivery(s.voices, MAX_PENDING_CASTS);
    assert s.fallens.sent + [] + [] == s.fallens.sent && s.voices.sent + [] + [] == s.voices.sent;
    assert s.prune.Trail() == s.prune.served;
  }

  /** What each lane keeps, of a sound system. */
  lemma LanesOf(s: System)
    requires s.Inv()
    ensures s.commits.Inv(Commits.MAX_PENDING_COMMITS) && s.logins.asks.Inv(Logins.MAX_PENDING_LOADS)
    ensures s.fallens.Inv(MAX_PENDING_FALLEN) && s.voices.Inv(MAX_PENDING_CASTS)
    ensures Sum(s.tide.given) == s.tide.delta + s.tide.flight + Sum(s.tide.passed)
    ensures s.prune.asked != [] ==> s.prune.Trail() != [] && Last(s.prune.Trail()) == Last(s.prune.asked)
  {
    hide Commits.Lane.Inv, Outbox.Inv, Relay.Lane.Inv, OnCourse, System.Draining, System.Control, Subseq,
      Logins.Lane.Covered, Logins.Lane.Chronicle;
  }

  lemma Settled<S>(l: Commits.Lane<S>, cap: nat)
    requires l.Inv(cap) && l.pending == l.flight == []
    ensures Commits.LastWrite(l.sent) - l.lost == Commits.LastWrite(l.called) - l.lost
  {
    Commits.RefinesLastWrite(l, cap);
    assert l.Trail() == l.sent;
  }

  lemma ExitedMeansEmpty(s: System)
    requires s.Inv() && s.pc.Exited?
    ensures s.stop && s.logins.asks.pending == s.logins.asks.flight == [] && s.logins.answer == []
    ensures s.commits.pending == s.commits.flight == []
    ensures s.fallens.queue == s.fallens.flight == [] && s.voices.queue == s.voices.flight == []
    ensures s.tide.delta == s.tide.flight == 0 && s.prune.latch == s.prune.flight == []
  {
    hide System.Lanes;
  }

  // ---- Shutdown takes boundedly many steps

  function Weight(pc: Pc): nat {
    match pc
    case Check => 20
    case WritesTake => 5
    case FallensSend => 4
    case VoicesSend | CursorRead => 3
    case TideSend | LoadsTake | CommitsTake | PingHub | CastsFetch => 2
    case Exited => 0
    case _ => 1
  }

  function Ahead(rest: seq<Call>): nat {
    if rest == [] then 0 else Weight(Entry(rest[0])) + Ahead(rest[1..])
  }

  function LoginFuel(l: Logins.Lane): nat {
    2 * (|l.asks.pending| + |l.asks.flight|) + |l.answer|
  }

  function CommitFuel(l: Commits.Lane<Sheet>): nat {
    |l.pending| + |l.flight|
  }

  function BoxFuel<T>(o: Outbox<T>): nat {
    |o.queue| + |o.flight|
  }

  function TideFuel(t: TideLane): nat {
    (if t.delta != 0 then 1 else 0) + (if t.flight != 0 then 1 else 0)
  }

  function PruneFuel(p: PruneLane): nat {
    |p.latch| + |p.flight|
  }

  /** Worker steps left once stop is set: places to pass and entries to send. */
  function Fuel(s: System): nat {
    Weight(s.pc) + Ahead(s.rest) + LoginFuel(s.logins) + CommitFuel(s.commits)
    + BoxFuel(s.fallens) + BoxFuel(s.voices) + TideFuel(s.tide) + PruneFuel(s.prune)
  }

  lemma FinalFlushWeighs()
    ensures Ahead(FINAL) == 9
  {
    assert FINAL[1..] == [DoWrites, DoCommits] && FINAL[1..][1..] == [DoCommits] && FINAL[1..][1..][1..] == [];
  }

  /** A place that is done with is passed for good; a busy one stays. */
  lemma PlaceBurns(pc: Pc, rest: seq<Call>, busy: bool, r: Reply)
    requires !pc.Exited?
    requires busy ==> pc in {LoadsSend, FallensSend, VoicesSend, TideSend, PruneSend, CommitsSend}
    ensures var n := PcAfter(pc, rest, true, busy, r);
            Weight(n.0) + Ahead(n.1) + (if busy then 0 else 1) <= Weight(pc) + Ahead(rest)
  {
    FinalFlushWeighs();
    hide FINAL;
    if pc.Check? {
      ReturnWeighs(FINAL);
    } else {
      ReturnWeighs(rest);
    }
  }

  lemma ReturnWeighs(rest: seq<Call>)
    ensures Weight(Return(rest).0) + Ahead(Return(rest).1) == Ahead(rest)
  {
  }

  lemma LoginsBurn(pc: Pc, l: Logins.Lane, r: Reply)
    requires l.asks.flight != [] || l.answer != [] ==> pc == LoadsSend
    requires |l.results| <= Logins.MAX_PENDING_LOADS && |l.answer| <= 1
    ensures var busy := pc == LoadsSend && (l.answer != [] || l.asks.flight != []);
            LoginFuel(LoginsAfter(pc, l, r)) + (if busy then 1 else 0) <= LoginFuel(l)
  {
    hide PushDropOldest;
  }

  lemma CommitsBurn(pc: Pc, l: Commits.Lane<Sheet>)
    requires l.flight != [] ==> pc == CommitsSend
    ensures CommitFuel(CommitsAfter(pc, l)) + (if pc == CommitsSend && l.flight != [] then 1 else 0) <= CommitFuel(l)
  {
  }

  lemma BoxBurns<T>(take: bool, send: bool, o: Outbox<T>)
    requires take ==> o.flight == [] && !send
    ensures BoxFuel(OutboxAfter(take, send, o)) + (if send && o.flight != [] then 1 else 0) <= BoxFuel(o)
  {
  }

  lemma TideBurns(pc: Pc, t: TideLane)
    requires pc == WritesTake ==> t.flight == 0
    ensures TideFuel(TideAfter(pc, t)) + (if pc == TideSend && t.flight != 0 then 1 else 0) <= TideFuel(t)
  {
  }

  lemma PruneBurns(pc: Pc, p: PruneLane)
    requires pc == WritesTake ==> p.flight == []
    ensures PruneFuel(PruneAfter(pc, p)) + (if pc == PruneSend && p.flight != [] then 1 else 0) <= PruneFuel(p)
  {
  }

  lemma WorkBurnsFuel(s: System, r: Reply)
    requires s.Sized() && s.Control() && s.stop && !s.pc.Exited?
    ensures Fuel(s.Work(r)) < Fuel(s)
  {
    hide Weight, Ahead, LoginFuel, CommitFuel, BoxFuel, TideFuel, PruneFuel, PcAfter,
      LoginsAfter, CommitsAfter, OutboxAfter, TideAfter, PruneAfter, RelayAfter;
    PlaceBurns(s.pc, s.rest, s.Busy(), r);
    LoginsBurn(s.pc, s.logins, r);
    CommitsBurn(s.pc, s.commits);
    BoxBurns(s.pc == WritesTake, s.pc == FallensSend, s.fallens);
    BoxBurns(s.pc == WritesTake, s.pc == VoicesSend, s.voices);
    TideBurns(s.pc, s.tide);
    PruneBurns(s.pc, s.prune);
  }

  /** After stop only the worker's own steps use up fuel, and the stop is final. */
  lemma StepBurns(s: System, e: Event, m: System)
    requires s.Inv() && s.stop && Leads(s, e, m)
    ensures m.Inv() && m.stop && Fuel(m) + (if e.Work? then 1 else 0) <= Fuel(s)
  {
    hide System.Inv;
    Next(s, e, m);
    if e.Work? {
      WorkBurnsFuel(s, e.reply);
    }
  }

  predicate IsWork(e: Event) {
    e.Work?
  }

  /** After stop the worker takes at most Fuel(s) further steps, whatever the hub
   *  answers and whatever other worlds cast meanwhile; then the join returns. */
  lemma {:induction false} ShutdownHalts(states: seq<System>, es: seq<Event>)
    requires Runs(states, es) && states[0].Inv() && states[0].stop
    ensures Count(IsWork, es) + Fuel(Last(states)) <= Fuel(states[0])
    decreases |es|
  {
    hide System.Inv, Runs, Leads, Fuel;
    SizesOf(states, es);
    if es != [] {
      FirstStep(states, es);
      StepBurns(states[0], es[0], states[1]);
      ShutdownHalts(states[1..], es[1..]);
      CountHead(IsWork, es);
    }
  }

  // ---- Logins take boundedly many steps

  /** What the handshake still has to do: every request is taken, called, filed,
   *  collected and matched. */
  function Rank(l: Logins.Lane): nat {
    4 * |l.asks.pending| + 4 * |l.asks.flight| + 3 * |l.answer| + 2 * |l.results| + |l.drained|
  }

  /** A step that moves the handshake on: a hub call, its filing, or a match. */
  predicate Moves(s: System, e: Event) {
    || (e.Work? && s.pc == LoadsSend && (s.logins.answer != [] || s.logins.asks.flight != []))
    || e.Match?
  }

  lemma WorkRanks(pc: Pc, l: Logins.Lane, r: Reply)
    requires l.asks.flight != [] || l.answer != [] ==> pc == LoadsSend
    requires |l.results| <= Logins.MAX_PENDING_LOADS && |l.answer| <= 1
    ensures var busy := pc == LoadsSend && (l.answer != [] || l.asks.flight != []);
            Rank(LoginsAfter(pc, l, r)) + (if busy then 1 else 0) <= Rank(l)
  {
  }

  lemma MatchRanks(l: Logins.Lane)
    requires l.drained != []
    ensures Rank(l.Match()) < Rank(l)
  {
    hide Logins.FindWaiting;
  }

  lemma RankFalls(s: System, e: Event, m: System)
    requires Leads(s, e, m) && !e.Join?
    ensures Rank(m.logins) + (if Moves(s, e) then 1 else 0) <= Rank(s.logins)
  {
    match e
    case Work(r) =>
      hide Rank, PcAfter, CommitsAfter, OutboxAfter, TideAfter, PruneAfter, RelayAfter, LoginsAfter;
      WorkRanks(s.pc, s.logins, r);
    case Match =>
      hide Rank;
      MatchRanks(s.logins);
    case _ => hide Commits.Coalesce, PushDropOldest;
  }

  function Moved(states: seq<System>, es: seq<Event>): nat
    requires |es| <= |states|
  {
    if es == [] then 0 else (if Moves(states[0], es[0]) then 1 else 0) + Moved(states[1..], es[1..])
  }

  /** Once nobody joins any more the handshake moves on at most Rank times; when it has
   *  nothing left to do, every session whose name was not spoiled plays. */
  lemma {:induction false} HandshakeEnds(states: seq<System>, es: seq<Event>)
    requires Runs(states, es) && states[0].Inv() && (forall e :: e in es ==> !e.Join?)
    ensures |states| == |es| + 1 && Moved(states, es) + Rank(Last(states).logins) <= Rank(states[0].logins)
    ensures Rank(Last(states).logins) == 0 ==>
              forall c :: c in Last(states).logins.conns && Fold(c.name) !in Last(states).logins.spoiled ==> c.phase.Playing?
    decreases |es|
  {
    hide System.Inv, Runs, Leads, Rank, Moves;
    SizesOf(states, es);
    if es != [] {
      FirstStep(states, es);
      Next(states[0], es[0], states[1]);
      assert es[0] in es && forall e :: e in es[1..] ==> e in es;
      RankFalls(states[0], es[0], states[1]);
      HandshakeEnds(states[1..], es[1..]);
    } else if Rank(states[0].logins) == 0 {
      QuietMeansPlaying(states[0]);
    }
  }

  lemma QuietMeansPlaying(s: System)
    requires s.Inv() && Rank(s.logins) == 0
    ensures forall c :: c in s.logins.conns && Fold(c.name) !in s.logins.spoiled ==> c.phase.Playing?
  {
    forall c | c in s.logins.conns && c.phase.WaitHub? && Fold(c.name) !in s.logins.spoiled ensures false {
      Logins.NobodyStranded(s.logins, Logins.MAX_PENDING_LOADS, c);
    }
  }
}
