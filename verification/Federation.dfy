/** The federation protocol: the event loop and the background worker share a
 *  set of buffers under one mutex. Every critical section and every call to the
 *  hub is one step; steps of the two threads and of the hub interleave freely. */
module Federation {
  import opened Sequences
  import opened Outboxes
  import Commits
  import Relay
  import Logins

  type Sheet = Commits.Sheet

  datatype Fallen = Fallen(world: string, name: string, room: string, at: int)

  datatype Voice = Voice(world: string, sender: string, text: string)

  const MAX_PENDING_FALLEN: nat := 32
  const MAX_PENDING_CASTS: nat := 32

  /** The tide delta: shared, taken and not passed yet, passed to the hub, and
   *  every shift the event loop ever gave. */
  datatype TideLane = TideLane(delta: int, flight: int, passed: seq<int>, given: seq<int>)
  {
    ghost predicate Inv() {
      && Sum(given) == delta + flight + Sum(passed)
      && 0 !in passed
    }

    function Give(d: int): TideLane {
      this.(delta := delta + d, given := given + [d])
    }

    function Take(): TideLane
      requires flight == 0
    {
      this.(delta := 0, flight := delta)
    }

    function Pass(): TideLane
      requires flight != 0
    {
      this.(flight := 0, passed := passed + [flight])
    }
  }

  /** The prune latch holds at most one request, under its latest admin. */
  datatype PruneLane = PruneLane(latch: seq<string>, flight: seq<string>, served: seq<string>, asked: seq<string>)
  {
    function Trail(): seq<string> { served + flight + latch }

    ghost predicate Inv() {
      && |latch| <= 1 && |flight| <= 1
      && Subseq(Trail(), asked)
      && (asked != [] ==> Trail() != [] && Last(Trail()) == Last(asked))
    }

    function Ask(admin: string): PruneLane {
      this.(latch := [admin], asked := asked + [admin])
    }

    function Take(): PruneLane
      requires flight == []
    {
      this.(latch := [], flight := latch)
    }

    function Serve(): PruneLane
      requires flight != []
    {
      this.(flight := flight[1..], served := served + [flight[0]])
    }
  }

  /** The worker's procedures, and the points between its atomic steps. */
  datatype Call = DoLoads | DoWrites | DoCommits | DoPing | DoCasts | DoOthers | DoRegister | DoWait | DoCheck

  datatype Pc =
    | Check
    | LoadsTake | LoadsSend
    | WritesTake | FallensSend | VoicesSend | TideSend | PruneSend
    | CommitsTake | CommitsSend
    | PingHub | HealthPut(ok: bool)
    | CursorRead | CastsFetch | CastsFile
    | OtherReads | RegisterWorld | WaitWake
    | Exited

  function Entry(c: Call): Pc {
    match c
    case DoLoads => LoadsTake
    case DoWrites => WritesTake
    case DoCommits => CommitsTake
    case DoPing => PingHub
    case DoCasts => CursorRead
    case DoOthers => OtherReads
    case DoRegister => RegisterWorld
    case DoWait => WaitWake
    case DoCheck => Check
  }

  /** One pass of the worker's loop; poll and register follow its clocks. */
  function Round(poll: bool, register: bool): seq<Call> {
    [DoLoads, DoWrites, DoCommits]
    + (if poll then [DoPing, DoCasts, DoWrites, DoCommits, DoOthers, DoLoads, DoWrites, DoCommits] else [])
    + (if register then [DoRegister] else [])
    + [DoWait, DoCheck]
  }

  /** What the worker does after it has seen stop. */
  const FINAL: seq<Call> := [DoLoads, DoWrites, DoCommits]

  /** What the worker learns from outside in one step: the outcome of a hub call
   *  and its clocks. */
  datatype Reply = Reply(ok: bool, found: bool, sheet: Sheet, count: nat, poll: bool, register: bool)

  /** Where the worker goes from one point; busy says that the batch being sent
   *  there is not finished. */
  function PcAfter(pc: Pc, rest: seq<Call>, stop: bool, busy: bool, r: Reply): (n: (Pc, seq<Call>))
    requires !pc.Exited?
  {
    match pc
    case Check => Return(if stop then FINAL else Round(r.poll, r.register))
    case LoadsTake => (LoadsSend, rest)
    case LoadsSend => if busy then (pc, rest) else Return(rest)
    case WritesTake => (FallensSend, rest)
    case FallensSend => (if busy then pc else VoicesSend, rest)
    case VoicesSend => (if busy then pc else TideSend, rest)
    case TideSend => (if busy then pc else PruneSend, rest)
    case PruneSend => if busy then (pc, rest) else Return(rest)
    case CommitsTake => (CommitsSend, rest)
    case CommitsSend => if busy then (pc, rest) else Return(rest)
    case PingHub => (HealthPut(r.ok), rest)
    case HealthPut(_) => Return(rest)
    case CursorRead => (CastsFetch, rest)
    case CastsFetch => (CastsFile, rest)
    case _ => Return(rest)
  }

  /** Return from a procedure to the next call; with none left the thread ends. */
  function Return(rest: seq<Call>): (Pc, seq<Call>) {
    if rest == [] then (Exited, []) else (Entry(rest[0]), rest[1..])
  }

  /** What the step at pc does to each lane. */
  function LoginsAfter(pc: Pc, l: Logins.Lane, r: Reply): Logins.Lane
    requires l.asks.flight != [] ==> pc == LoadsSend
    requires |l.results| <= Logins.MAX_PENDING_LOADS && |l.answer| <= 1
  {
    match pc
    case LoadsTake => l.Take()
    case LoadsSend =>
      if l.answer != [] then l.Put(Logins.MAX_PENDING_LOADS)
      else if l.asks.flight != [] then l.CallHub(r.ok, r.found, r.sheet)
      else l
    case _ => l
  }

  function CommitsAfter(pc: Pc, l: Commits.Lane<Sheet>): Commits.Lane<Sheet>
    requires l.flight != [] ==> pc == CommitsSend
  {
    match pc
    case CommitsTake => l.Take()
    case CommitsSend => if l.flight != [] then l.SendHead() else l
    case _ => l
  }

  function OutboxAfter<T>(take: bool, send: bool, o: Outbox<T>): Outbox<T>
    requires take ==> o.flight == []
  {
    if take then o.Take() else if send && o.flight != [] then o.SendHead() else o
  }

  function TideAfter(pc: Pc, t: TideLane): TideLane
    requires pc == WritesTake ==> t.flight == 0
  {
    match pc
    case WritesTake => t.Take()
    case TideSend => if t.flight != 0 then t.Pass() else t
    case _ => t
  }

  function PruneAfter(pc: Pc, p: PruneLane): PruneLane
    requires pc == WritesTake ==> p.flight == []
  {
    match pc
    case WritesTake => p.Take()
    case PruneSend => if p.flight != [] then p.Serve() else p
    case _ => p
  }

  /** A failed castsSince leaves nothing to file. */
  function RelayAfter(pc: Pc, l: Relay.Lane, r: Reply): Relay.Lane
    requires |l.buffer| <= Relay.MAX_CASTS
  {
    match pc
    case CursorRead => l.ReadCursor()
    case CastsFetch =>
      if r.ok && r.count <= Relay.FETCH_LIMIT && r.count <= |Relay.After(l.log, l.since)| then l.Fetch(r.count)
      else l
    case CastsFile => l.File(Relay.MAX_CASTS)
    case _ => l
  }

  datatype System = System(
    commits: Commits.Lane<Sheet>, fallens: Outbox<Fallen>, voices: Outbox<Voice>,
    tide: TideLane, prune: PruneLane, logins: Logins.Lane, relay: Relay.Lane,
    unreachable: bool, stop: bool, pc: Pc, rest: seq<Call>)
  {
    /** The batch that the current point sends is not finished. */
    predicate Busy() {
      match pc
      case LoadsSend => logins.answer != [] || logins.asks.flight != []
      case FallensSend => fallens.flight != []
      case VoicesSend => voices.flight != []
      case TideSend => tide.flight != 0
      case PruneSend => prune.flight != []
      case CommitsSend => commits.flight != []
      case _ => false
    }

    /** A batch is in flight only while the procedure that sends it runs. */
    predicate Control() {
      && (logins.asks.flight != [] || logins.answer != [] ==> pc == LoadsSend)
      && (commits.flight != [] ==> pc == CommitsSend)
      && (fallens.flight != [] ==> pc == FallensSend)
      && (voices.flight != [] ==> pc == FallensSend || pc == VoicesSend)
      && (tide.flight != 0 ==> pc == FallensSend || pc == VoicesSend || pc == TideSend)
      && (prune.flight != [] ==> pc == FallensSend || pc == VoicesSend || pc == TideSend || pc == PruneSend)
      && (pc == CastsFetch ==> relay.since == relay.cursor)
      && (pc.Exited? ==> rest == [])
    }

    /** Every shared buffer fits its array. */
    predicate Sized() {
      && |logins.asks.pending| <= Logins.MAX_PENDING_LOADS
      && |logins.results| <= Logins.MAX_PENDING_LOADS && |logins.answer| <= 1
      && |commits.pending| <= Commits.MAX_PENDING_COMMITS
      && |fallens.queue| <= MAX_PENDING_FALLEN && |voices.queue| <= MAX_PENDING_CASTS
      && |relay.buffer| <= Relay.MAX_CASTS
    }

    /** One atomic step of the worker thread. */
    function Work(r: Reply): System
      requires Control() && Sized() && !pc.Exited?
    {
      var (pc', rest') := PcAfter(pc, rest, stop, Busy(), r);
      System(CommitsAfter(pc, commits),
             OutboxAfter(pc == WritesTake, pc == FallensSend, fallens),
             OutboxAfter(pc == WritesTake, pc == VoicesSend, voices),
             TideAfter(pc, tide), PruneAfter(pc, prune), LoginsAfter(pc, logins, r), RelayAfter(pc, relay, r),
             if pc.HealthPut? then !pc.ok else unreachable, stop, pc', rest')
    }

    /** The event loop is free to take its next event. */
    predicate Idle() {
      !stop && logins.drained == []
    }

    /** Once out of its loop the worker has seen stop, and each buffer it has
     *  already taken for the last time stays empty. */
    predicate Draining() {
      Drained(pc, rest, stop, logins.asks.pending == [], commits.pending == [],
              fallens.queue == [] && voices.queue == [] && tide.delta == 0 && prune.latch == [])
    }

    ghost predicate Lanes() {
      && commits.Inv(Commits.MAX_PENDING_COMMITS)
      && fallens.Inv(MAX_PENDING_FALLEN)
      && voices.Inv(MAX_PENDING_CASTS)
      && tide.Inv()
      && prune.Inv()
      && logins.Inv(Logins.MAX_PENDING_LOADS)
      && relay.Inv(Relay.MAX_CASTS)
    }

    ghost predicate Inv() {
      Lanes() && Sized() && Control() && Draining() && OnCourse(pc, rest)
    }
  }

  /** The points at which the worker talks to the hub about its health, casts and caches. */
  predicate AtHub(pc: Pc) {
    pc.PingHub? || pc.HealthPut? || pc.CursorRead? || pc.CastsFetch? || pc.CastsFile? || pc.OtherReads?
  }

  /** A pass ends at its check, and whatever was asked of the hub in it is followed by
   *  another flush of everything. */
  predicate OnCourse(pc: Pc, rest: seq<Call>) {
    && (pc.Check? ==> rest == [])
    && (forall i :: 0 <= i < |rest| && rest[i] == DoCheck ==> i == |rest| - 1)
    && (AtHub(pc) ==> Flushes(rest))
    && (forall i :: 0 <= i < |rest| && (rest[i] == DoPing || rest[i] == DoCasts || rest[i] == DoOthers) ==> Flushes(rest[i + 1..]))
    && (AtCasts(pc) ==> FlushesFirst(rest))
    && (forall i :: 0 <= i < |rest| && (rest[i] == DoPing || rest[i] == DoCasts) ==> FlushesFirst(rest[i + 1..]))
    && (pc.OtherReads? ==> DoOthers !in rest)
    && (forall i :: 0 <= i < |rest| && rest[i] == DoOthers ==> DoOthers !in rest[i + 1..])
  }

  /** The ping and the casts. */
  predicate AtCasts(pc: Pc) {
    AtHub(pc) && !pc.OtherReads?
  }

  /** The writes and the commits come before the other reads. */
  predicate FlushesFirst(calls: seq<Call>) {
    Sooner(calls, DoWrites) && Sooner(calls, DoCommits)
  }

  predicate Sooner(calls: seq<Call>, c: Call) {
    exists k :: 0 <= k < |calls| && calls[k] == c && DoOthers in calls[k..] && forall i :: 0 <= i < k ==> calls[i] != DoOthers
  }

  predicate Flushes(calls: seq<Call>) {
    DoLoads in calls && DoWrites in calls && DoCommits in calls
  }

  predicate Looping(pc: Pc, rest: seq<Call>) {
    pc == Check || DoCheck in rest
  }

  predicate Drained(pc: Pc, rest: seq<Call>, stop: bool, noLoads: bool, noCommits: bool, noWrites: bool) {
    !Looping(pc, rest) ==>
      && stop
      && (pc == LoadsTake || DoLoads in rest || noLoads)
      && (pc == CommitsTake || DoCommits in rest || noCommits)
      && (pc == WritesTake || DoWrites in rest || noWrites)
  }

  /** Everything that can happen, in one step each. */
  datatype Event =
    | Work(reply: Reply)                                  // the worker thread
    | Post(cast: Relay.Cast)                              // some world casts at the hub
    | Join(id: nat, name: string, resumed: bool)          // the rest: the event loop
    | Commit(i: nat, sheet: Sheet)
    | Close(i: nat, sheet: Sheet)
    | Collect                                             // copy out the load answers
    | Match                                               // handle one of them
    | Fall(fallen: Fallen)
    | Speak(voice: Voice)
    | Shift(delta: int)
    | AskPrune(admin: string)
    | ShowCasts
    | Stop

  /** The event loop is one thread: while it works through collected answers it
   *  does nothing else, and after Stop it only waits for the worker to end. */
  ghost predicate Enabled(s: System, e: Event) {
    match e
    case Work(_) => !s.pc.Exited?
    case Post(c) => Relay.Ascending(s.relay.log + [c])
    case Match => !s.stop && s.logins.drained != []
    case Join(id, _, _) => s.Idle() && Logins.Joined(id) !in s.logins.log
    case Commit(i, _) => s.Idle() && i < |s.logins.conns| && s.logins.conns[i].phase.Playing?
    case Close(i, _) => s.Idle() && i < |s.logins.conns|
    case _ => s.Idle()
  }

  function Apply(s: System, e: Event): System
    requires s.Sized() && s.Control() && Enabled(s, e)
  {
    match e
    case Work(r) => s.Work(r)
    case Post(c) => s.(relay := s.relay.Post(c))
    case Join(id, name, resumed) => s.(logins := s.logins.Join(id, name, resumed, Logins.MAX_PENDING_LOADS))
    case Commit(i, sheet) =>
      s.(logins := s.logins.Commit(i),
         commits := s.commits.Call(Commits.Commit(s.logins.conns[i].name, sheet), Commits.MAX_PENDING_COMMITS))
    case Close(i, sheet) =>
      var t := s.(logins := s.logins.Close(i));
      if s.logins.conns[i].phase.Playing? then
        t.(commits := s.commits.Call(Commits.Commit(s.logins.conns[i].name, sheet), Commits.MAX_PENDING_COMMITS))
      else t
    case Collect => s.(logins := s.logins.Drain())
    case Match => s.(logins := s.logins.Match())
    case Fall(f) => s.(fallens := s.fallens.Push(f, MAX_PENDING_FALLEN))
    case Speak(v) => if s.unreachable then s else s.(voices := s.voices.Push(v, MAX_PENDING_CASTS))
    case Shift(d) => s.(tide := s.tide.Give(d))
    case AskPrune(admin) => s.(prune := s.prune.Ask(admin))
    case ShowCasts => s.(relay := s.relay.Drain())
    case Stop => s.(stop := true)
  }

  /** The worker as federation_worker_start leaves it. */
  function Start(log: seq<Relay.Cast>, cursor: int): System {
    System(Commits.NoCalls(), Empty(), Empty(), TideLane(0, 0, [], []), PruneLane([], [], [], []),
           Logins.EMPTY_LANE, Relay.Lane(log, cursor, cursor, [], cursor, [], []), false, false, Check, [])
  }

  lemma StartInv(log: seq<Relay.Cast>, cursor: int)
    requires Relay.Ascending(log)
    ensures Start(log, cursor).Inv()
  {
    Relay.BetweenEmpty(log, cursor, cursor);
    assert Commits.NoCalls<Sheet>().Trail() == [] && Commits.NoCalls<bool>().Trail() == [];
  }

  ghost predicate Leads(s: System, e: Event, t: System) {
    s.Sized() && s.Control() && Enabled(s, e) && t == Apply(s, e)
  }

  /** A run: the states it passes through, each event possible and leading to the next. */
  ghost predicate Runs(states: seq<System>, es: seq<Event>) {
    && |states| == |es| + 1
    && forall i {:trigger es[i]} :: 0 <= i < |es| ==> Leads(states[i], es[i], states[i + 1])
  }

  // ---- Each lane under each of its steps

  lemma GiveKeeps(t: TideLane, d: int)
    requires t.Inv()
    ensures t.Give(d).Inv()
  {
    SumSnoc(t.given, d);
  }

  lemma PassKeeps(t: TideLane)
    requires t.Inv() && t.flight != 0
    ensures t.Pass().Inv()
  {
    SumSnoc(t.passed, t.flight);
  }

  lemma AskKeeps(p: PruneLane, admin: string)
    requires p.Inv()
    ensures p.Ask(admin).Inv()
  {
    var kept := p.served + p.flight;
    if p.latch != [] {
      assert Init(p.Trail()) == kept;
      SubseqInit(p.Trail(), p.asked);
    } else {
      assert p.Trail() == kept;
    }
    SubseqGrow(kept, p.asked, admin);
    assert p.Ask(admin).Trail() == kept + [admin];
  }

  // ---- The whole system under each step

  /** The worker moves through its procedures as they are written, and the
   *  buffers it empties stay empty once it has left its loop. */
  lemma DrainedKeeps(pc: Pc, rest: seq<Call>, stop: bool, busy: bool, r: Reply,
                     noLoads: bool, noCommits: bool, noWrites: bool)
    requires !pc.Exited? && Drained(pc, rest, stop, noLoads, noCommits, noWrites)
    ensures var n := PcAfter(pc, rest, stop, busy, r);
            Drained(n.0, n.1, stop, noLoads || pc == LoadsTake, noCommits || pc == CommitsTake,
                    noWrites || pc == WritesTake)
  {
    var calls := if pc.Check? then (if stop then FINAL else Round(r.poll, r.register)) else rest;
    if calls != [] {
      assert calls == [calls[0]] + calls[1..];
    }
    if pc.Check? && !stop {
      assert calls[|calls| - 1] == DoCheck;
    }
  }

  lemma PassEndsInCheck(poll: bool, register: bool)
    ensures forall i :: 0 <= i < |Round(poll, register)| && Round(poll, register)[i] == DoCheck ==> i == |Round(poll, register)| - 1
  {
  }

  /** Where a pass speaks to the hub. */
  lemma PassSpeaks(poll: bool, register: bool, i: nat)
    requires i < |Round(poll, register)|
    requires var c := Round(poll, register)[i]; c == DoPing || c == DoCasts || c == DoOthers
    ensures poll && |Round(poll, register)| > 10 && (i == 3 || i == 4 || i == 7)
    ensures Round(poll, register)[i] != DoOthers ==> i != 7
  {
  }

  lemma PassCalls(register: bool)
    ensures var calls := Round(true, register);
            |calls| > 10 && calls[4] == DoCasts && calls[5] == DoWrites && calls[6] == DoCommits && calls[7] == DoOthers
            && calls[8] == DoLoads && calls[9] == DoWrites && calls[10] == DoCommits
  {
  }

  lemma PassFlushes(poll: bool, register: bool, i: nat)
    requires i < |Round(poll, register)|
    requires var c := Round(poll, register)[i]; c == DoPing || c == DoCasts || c == DoOthers
    ensures Flushes(Round(poll, register)[i + 1..])
    ensures Round(poll, register)[i] != DoOthers ==> FlushesFirst(Round(poll, register)[i + 1..])
  {
    hide Round;
    PassSpeaks(poll, register, i);
    PassCalls(register);
    var after := Round(poll, register)[i + 1..];
    assert after[7 - i] == DoLoads && after[8 - i] == DoWrites && after[9 - i] == DoCommits;
    if i != 7 {
      assert after[4 - i] == DoWrites && after[5 - i] == DoCommits && after[6 - i] == DoOthers;
      assert i == 3 ==> after[0] == DoCasts;
      assert after[4 - i..][2] == DoOthers && after[5 - i..][1] == DoOthers;
    }
  }

  lemma PassIsOnCourse(poll: bool, register: bool)
    ensures var calls := Round(poll, register);
            && (forall i :: 0 <= i < |calls| && calls[i] == DoCheck ==> i == |calls| - 1)
            && (forall i :: 0 <= i < |calls| && (calls[i] == DoPing || calls[i] == DoCasts || calls[i] == DoOthers)
                  ==> Flushes(calls[i + 1..]))
            && (forall i :: 0 <= i < |calls| && (calls[i] == DoPing || calls[i] == DoCasts) ==> FlushesFirst(calls[i + 1..]))
            && (forall i :: 0 <= i < |calls| && calls[i] == DoOthers ==> DoOthers !in calls[i + 1..])
  {
    hide Round, Flushes, FlushesFirst;
    PassEndsInCheck(poll, register);
    var calls := Round(poll, register);
    forall i | 0 <= i < |calls| && (calls[i] == DoPing || calls[i] == DoCasts || calls[i] == DoOthers)
      ensures Flushes(calls[i + 1..]) && (calls[i] != DoOthers ==> FlushesFirst(calls[i + 1..]))
    {
      PassFlushes(poll, register, i);
    }
    forall i | 0 <= i < |calls| && calls[i] == DoOthers ensures DoOthers !in calls[i + 1..] {
      PassSpeaks(poll, register, i);
      var after := calls[i + 1..];
      if DoOthers in after {
        var k :| 0 <= k < |after| && after[k] == DoOthers;
        assert calls[i + 1 + k] == DoOthers;
        PassSpeaks(poll, register, i + 1 + k);
        PassReadsOnce(register);
      }
    }
  }

  lemma PassReadsOnce(register: bool)
    ensures var calls := Round(true, register); |calls| > 10 && calls[3] != DoOthers && calls[4] != DoOthers
  {
  }

  lemma ReturnIsOnCourse(rest: seq<Call>)
    requires forall i :: 0 <= i < |rest| && rest[i] == DoCheck ==> i == |rest| - 1
    requires forall i :: 0 <= i < |rest| && (rest[i] == DoPing || rest[i] == DoCasts || rest[i] == DoOthers) ==> Flushes(rest[i + 1..])
    requires forall i :: 0 <= i < |rest| && (rest[i] == DoPing || rest[i] == DoCasts) ==> FlushesFirst(rest[i + 1..])
    requires forall i :: 0 <= i < |rest| && rest[i] == DoOthers ==> DoOthers !in rest[i + 1..]
    ensures OnCourse(Return(rest).0, Return(rest).1)
  {
    hide Flushes, FlushesFirst;
    if rest != [] {
      var after := rest[1..];
      forall i | 0 <= i < |after| && (after[i] == DoPing || after[i] == DoCasts || after[i] == DoOthers)
        ensures Flushes(after[i + 1..])
      {
        assert after[i + 1..] == rest[i + 2..];
      }
      forall i | 0 <= i < |after| && (after[i] == DoPing || after[i] == DoCasts) ensures FlushesFirst(after[i + 1..]) {
        assert after[i + 1..] == rest[i + 2..];
      }
      forall i | 0 <= i < |after| && after[i] == DoOthers ensures DoOthers !in after[i + 1..] {
        assert after[i + 1..] == rest[i + 2..];
      }
    }
  }

  lemma CourseKeeps(pc: Pc, rest: seq<Call>, stop: bool, busy: bool, r: Reply)
    requires !pc.Exited? && OnCourse(pc, rest)
    ensures var n := PcAfter(pc, rest, stop, busy, r); OnCourse(n.0, n.1)
  {
    hide Flushes, FlushesFirst, Round;
    PassIsOnCourse(r.poll, r.register);
    if pc.Check? {
      ReturnIsOnCourse(if stop then FINAL else Round(r.poll, r.register));
    } else {
      ReturnIsOnCourse(rest);
    }
  }

  lemma LanesFit(s: System)
    requires s.Lanes()
    ensures s.Sized()
  {
  }

  lemma ControlKeeps(s: System, r: Reply)
    requires s.Control() && s.Sized() && !s.pc.Exited?
    ensures s.Work(r).Control()
  {
  }

  lemma LoginsKeep(pc: Pc, l: Logins.Lane, r: Reply)
    requires l.Inv(Logins.MAX_PENDING_LOADS) && (l.asks.flight != [] || l.answer != [] ==> pc == LoadsSend)
    ensures LoginsAfter(pc, l, r).Inv(Logins.MAX_PENDING_LOADS)
  {
    var cap := Logins.MAX_PENDING_LOADS;
    match pc
    case LoadsTake => Logins.TakeKeeps(l, cap);
    case LoadsSend =>
      if l.answer != [] {
        Logins.PutKeeps(l, cap);
      } else if l.asks.flight != [] {
        Logins.CallKeeps(l, r.ok, r.found, r.sheet, cap);
      }
    case _ =>
  }

  lemma CommitsKeep(pc: Pc, l: Commits.Lane<Sheet>)
    requires l.Inv(Commits.MAX_PENDING_COMMITS) && (l.flight != [] ==> pc == CommitsSend)
    ensures CommitsAfter(pc, l).Inv(Commits.MAX_PENDING_COMMITS)
  {
    match pc
    case CommitsTake => Commits.TakeKeeps(l, Commits.MAX_PENDING_COMMITS);
    case CommitsSend => if l.flight != [] { Commits.SendKeeps(l, Commits.MAX_PENDING_COMMITS); }
    case _ =>
  }

  lemma OutboxKeeps<T>(take: bool, send: bool, o: Outbox<T>, cap: nat)
    requires o.Inv(cap) && (take ==> o.flight == [])
    ensures OutboxAfter(take, send, o).Inv(cap)
  {
    if take {
      TakeKeeps(o, cap);
    } else if send && o.flight != [] {
      SendKeeps(o, cap);
    }
  }

  lemma RelayKeeps(pc: Pc, l: Relay.Lane, r: Reply)
    requires l.Inv(Relay.MAX_CASTS) && (pc == CastsFetch ==> l.since == l.cursor)
    ensures RelayAfter(pc, l, r).Inv(Relay.MAX_CASTS)
  {
    match pc
    case CursorRead => Relay.ReadKeeps(l, Relay.MAX_CASTS);
    case CastsFetch =>
      if r.ok && r.count <= Relay.FETCH_LIMIT && r.count <= |Relay.After(l.log, l.since)| {
        Relay.FetchKeeps(l, r.count, Relay.MAX_CASTS);
      }
    case CastsFile => Relay.FileKeeps(l, Relay.MAX_CASTS);
    case _ =>
  }

  lemma TideKeeps(pc: Pc, t: TideLane)
    requires t.Inv() && (pc == WritesTake ==> t.flight == 0)
    ensures TideAfter(pc, t).Inv()
  {
    if pc == TideSend && t.flight != 0 { PassKeeps(t); }
  }

  lemma PruneKeeps(pc: Pc, p: PruneLane)
    requires p.Inv() && (pc == WritesTake ==> p.flight == [])
    ensures PruneAfter(pc, p).Inv()
  {
    if pc == WritesTake {
      assert p.Take().Trail() == p.Trail();
    } else if pc == PruneSend && p.flight != [] {
      assert p.Serve().Trail() == p.Trail();
    }
  }

  lemma WorkLanesKeep(s: System, r: Reply)
    requires s.Inv() && !s.pc.Exited?
    ensures s.Work(r).Lanes()
  {
    hide Commits.Lane.Inv, Logins.Lane.Inv, Relay.Lane.Inv, Outbox.Inv, TideLane.Inv, PruneLane.Inv;
    CommitsKeep(s.pc, s.commits);
    OutboxKeeps(s.pc == WritesTake, s.pc == FallensSend, s.fallens, MAX_PENDING_FALLEN);
    OutboxKeeps(s.pc == WritesTake, s.pc == VoicesSend, s.voices, MAX_PENDING_CASTS);
    TideKeeps(s.pc, s.tide);
    PruneKeeps(s.pc, s.prune);
    LoginsKeep(s.pc, s.logins, r);
    RelayKeeps(s.pc, s.relay, r);
  }

  lemma WorkKeeps(s: System, r: Reply)
    requires s.Inv() && !s.pc.Exited?
    ensures s.Work(r).Inv()
  {
    hide Commits.Lane.Inv, Outbox.Inv, TideLane.Inv, PruneLane.Inv;
    WorkLanesKeep(s, r);
    LanesFit(s.Work(r));
    ControlKeeps(s, r);
    CourseKeeps(s.pc, s.rest, s.stop, s.Busy(), r);
    DrainedKeeps(s.pc, s.rest, s.stop, s.Busy(), r, s.logins.asks.pending == [], s.commits.pending == [],
                 s.fallens.queue == [] && s.voices.queue == [] && s.tide.delta == 0 && s.prune.latch == []);
  }

  lemma EventLanesKeep(s: System, e: Event)
    requires s.Inv() && Enabled(s, e) && !e.Work?
    ensures Apply(s, e).Lanes()
  {
    hide Outbox.Inv, TideLane.Inv, PruneLane.Inv, Relay.Lane.Inv, Commits.Lane.Inv, Logins.Lane.Inv;
    var cap, many := Logins.MAX_PENDING_LOADS, Commits.MAX_PENDING_COMMITS;
    match e
    case Post(c) => PostKeeps(s, c);
    case Join(id, name, resumed) => Logins.JoinKeeps(s.logins, id, name, resumed, cap);
    case Commit(i, sheet) =>
      Logins.CommitKeeps(s.logins, i, cap);
      Commits.CallKeeps(s.commits, Commits.Commit(s.logins.conns[i].name, sheet), many);
    case Close(i, sheet) =>
      Logins.CloseKeeps(s.logins, i, cap);
      Commits.CallKeeps(s.commits, Commits.Commit(s.logins.conns[i].name, sheet), many);
    case Collect => Logins.DrainKeeps(s.logins, cap);
    case Match => Logins.MatchKeeps(s.logins, cap);
    case Fall(f) => PushKeeps(s.fallens, f, MAX_PENDING_FALLEN);
    case Speak(v) => PushKeeps(s.voices, v, MAX_PENDING_CASTS);
    case Shift(d) => GiveKeeps(s.tide, d);
    case AskPrune(admin) => AskKeeps(s.prune, admin);
    case ShowCasts => Relay.DrainKeeps(s.relay, Relay.MAX_CASTS);
    case Stop =>
  }

  lemma PostKeeps(s: System, c: Relay.Cast)
    requires s.relay.Inv(Relay.MAX_CASTS) && Relay.Ascending(s.relay.log + [c])
    ensures s.relay.Post(c).Inv(Relay.MAX_CASTS)
  {
    Relay.PostKeeps(s.relay, c, Relay.MAX_CASTS);
  }

  lemma EventControlKeeps(s: System, e: Event)
    requires s.Sized() && s.Control() && s.Draining() && Enabled(s, e) && !e.Work?
    ensures Apply(s, e).Control() && Apply(s, e).Draining()
  {
  }

  /** The protocol's invariant survives every step of every thread. */
  lemma EventKeeps(s: System, e: Event)
    requires s.Inv() && Enabled(s, e)
    ensures Apply(s, e).Inv()
  {
    if e.Work? {
      WorkKeeps(s, e.reply);
    } else {
      EventLanesKeep(s, e);
      EventControlKeeps(s, e);
      LanesFit(Apply(s, e));
    }
  }
}
