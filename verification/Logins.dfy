/** The login handshake: a session waits for its hub record while the load
 *  passes through the worker's queues and back. */
module Logins {
  import opened Sequences
  import opened Text
  import opened Outboxes
  import Commits

  type Sheet = Commits.Sheet

  datatype Phase = WaitHub | Playing

  /** A registered session; earlier phases of a connection are not registered. */
  datatype Conn = Conn(id: nat, phase: Phase, name: string)

  /** A request for a hub record; its sheet says whether the player resumed. */
  type Load = Commits.Commit<bool>

  datatype Answer = Answer(name: string, ok: bool, found: bool, sheet: Sheet, resumed: bool)

  /** What happened to connections, in order. */
  datatype Milestone = Joined(id: nat) | Entered(id: nat) | Committed(id: nat)

  const MAX_PENDING_LOADS: nat := 16


  function AnswerIs(k: string): Answer -> bool {
    (a: Answer) => Fold(a.name) == k
  }

  function WaitsAs(k: string): Conn -> bool {
    (c: Conn) => c.phase.WaitHub? && Fold(c.name) == k
  }

  /** The first session in list order that waits under the name. */
  function FindWaiting(conns: seq<Conn>, name: string): nat {
    IndexOf(WaitsAs(Fold(name)), conns)
  }

  ghost predicate Ordered(log: seq<Milestone>) {
    && (forall i, j :: 0 <= i < j < |log| && log[i] == log[j] ==> log[i].Committed?)
    && (forall j :: 0 <= j < |log| ==> Preceded(log[..j], log[j]))
  }

  /** A session enters after it joined, and commits after it entered. */
  predicate Preceded(before: seq<Milestone>, m: Milestone) {
    match m
    case Joined(_) => true
    case Entered(id) => Joined(id) in before
    case Committed(id) => Entered(id) in before
  }

  ghost predicate Listed(conns: seq<Conn>, log: seq<Milestone>) {
    && (forall i, j :: 0 <= i < j < |conns| ==> conns[i].id != conns[j].id)
    && (forall c :: c in conns ==> Joined(c.id) in log && (c.phase.Playing? <==> Entered(c.id) in log))
  }

  /** conns    the session list, newest first
   *  asks     the shared load queue, the loads the worker has copied out, those put
   *           to the hub, and all that were asked for; results the shared answer queue
   *  answer   the answer the worker is about to file
   *  drained  answers the event loop has copied out
   *  log      what happened, in order
   *  spoiled  keys for which an entry was pushed out of a full queue, or whose
   *           load was merged with that of another session still waiting */
  datatype Lane = Lane(conns: seq<Conn>, asks: Commits.Lane<bool>, answer: seq<Answer>,
                       results: seq<Answer>, drained: seq<Answer>,
                       log: seq<Milestone>, spoiled: set<string>)
  {
    /** Sessions waiting for the key. */
    function Waits(k: string): nat { Count(WaitsAs(k), conns) }

    /** Loads and answers of the key on their way. */
    function Entries(k: string): nat {
      Count(Commits.CommitIs<bool>(k), asks.pending) + Count(Commits.CommitIs<bool>(k), asks.flight)
      + Count(AnswerIs(k), answer) + Count(AnswerIs(k), results) + Count(AnswerIs(k), drained)
    }

    ghost predicate Quiet() {
      asks.pending == asks.flight == [] && answer == results == drained == []
    }

    ghost predicate Sized(cap: nat) {
      |asks.pending| <= cap && |results| <= cap && |answer| <= 1
    }

    /** No more sessions wait for a key than entries of it are on their way. */
    ghost predicate Covered() {
      forall k :: k !in spoiled ==> Waits(k) <= Entries(k)
    }

    /** Milestones come once each and in order, and agree with the list. */
    ghost predicate Chronicle() {
      Ordered(log) && Listed(conns, log)
    }

    ghost predicate Inv(cap: nat) {
      Sized(cap) && asks.Inv(cap) && Covered() && Chronicle()
    }

    /** finish_login with the worker running. */
    function Join(id: nat, name: string, resumed: bool, cap: nat): Lane
      requires 0 < cap && |asks.pending| <= cap
    {
      var hit := Commits.Find(asks.pending, name) < |asks.pending|;
      var merged := if hit && Waits(Fold(name)) > 0 then {Fold(name)} else {};
      var evicted := if !hit && |asks.pending| >= cap then {Fold(asks.pending[0].name)} else {};
      this.(conns := [Conn(id, WaitHub, name)] + conns,
            asks := asks.Call(Commits.Commit(name, resumed), cap),
            log := log + [Joined(id)],
            spoiled := spoiled + merged + evicted)
    }

    /** The connection closes; a playing session commits first. */
    function Close(i: nat): Lane
      requires i < |conns|
    {
      this.(conns := conns[..i] + conns[i + 1..],
            log := if conns[i].phase.Playing? then log + [Committed(conns[i].id)] else log)
    }

    /** A playing session's command commits its sheet. */
    function Commit(i: nat): Lane
      requires i < |conns| && conns[i].phase.Playing?
    {
      this.(log := log + [Committed(conns[i].id)])
    }

    function Take(): Lane
      requires asks.flight == []
    {
      this.(asks := asks.Take())
    }

    /** The worker's RPC for the first load of its batch. */
    function CallHub(ok: bool, found: bool, sheet: Sheet): Lane
      requires asks.flight != [] && answer == []
    {
      this.(asks := asks.SendHead(), answer := [Answer(asks.flight[0].name, ok, found, sheet, asks.flight[0].sheet)])
    }

    /** The answer enters the result queue. */
    function Put(cap: nat): Lane
      requires 0 < cap && |results| <= cap && |answer| == 1
    {
      this.(results := PushDropOldest(results, answer[0], cap), answer := [],
            spoiled := if |results| >= cap then spoiled + {Fold(results[0].name)} else spoiled)
    }

    function Drain(): Lane
      requires drained == []
    {
      this.(results := [], drained := results)
    }

    /** The event loop matches one answer; a session enters whatever the answer says. */
    function Match(): Lane
      requires drained != []
    {
      var i := FindWaiting(conns, drained[0].name);
      var rest := this.(drained := drained[1..]);
      if i == |conns| then rest
      else rest.(conns := conns[i := conns[i].(phase := Playing)], log := log + [Entered(conns[i].id)])
    }
  }

  const EMPTY_LANE := Lane([], Commits.NoCalls(), [], [], [], [], {})

  /** Appending to a full or open buffer, counted by key. */
  lemma PushCount<T>(p: T -> bool, q: seq<T>, x: T, cap: nat)
    requires 0 < cap && |q| <= cap
    ensures Count(p, PushDropOldest(q, x, cap)) ==
            Count(p, q) + (if p(x) then 1 else 0) - (if |q| == cap && p(q[0]) then 1 else 0)
  {
    if |q| == cap {
      CountHead(p, q);
      CountSnoc(p, q[1..], x);
    } else {
      CountSnoc(p, q, x);
    }
  }

  /** A queued load keeps its slot when its name is waiting, else it is appended. */
  lemma QueueLoadCount(loads: seq<Load>, load: Load, cap: nat, k: string)
    requires 0 < cap && |loads| <= cap
    ensures var n, n' := Count(Commits.CommitIs<bool>(k), loads), Count(Commits.CommitIs<bool>(k), Commits.Coalesce(loads, load, cap));
            var own := if k == Fold(load.name) then 1 else 0;
            if Commits.Find(loads, load.name) < |loads| then n' == n && (own == 1 ==> n > 0)
            else n' == n + own - (if |loads| == cap && Fold(loads[0].name) == k then 1 else 0)
  {
    var i := Commits.Find(loads, load.name);
    if i < |loads| {
      CountUpdate(Commits.CommitIs<bool>(k), loads, i, loads[i].(sheet := load.sheet));
      CountZero(Commits.CommitIs<bool>(k), loads);
    } else {
      PushCount(Commits.CommitIs<bool>(k), loads, load, cap);
    }
  }

  lemma JoinCounts(l: Lane, id: nat, name: string, resumed: bool, cap: nat, k: string)
    requires 0 < cap && l.Sized(cap)
    ensures var l' := l.Join(id, name, resumed, cap);
            var own := if k == Fold(name) then 1 else 0;
            && l'.Waits(k) == l.Waits(k) + own
            && (if Commits.Find(l.asks.pending, name) < |l.asks.pending| then
                  l'.Entries(k) == l.Entries(k) && (own == 1 ==> l.Entries(k) > 0)
                else
                  l'.Entries(k) == l.Entries(k) + own
                                   - if |l.asks.pending| == cap && k == Fold(l.asks.pending[0].name) then 1 else 0)
  {
    var c := Conn(id, WaitHub, name);
    CountConcat(WaitsAs(k), [c], l.conns);
    assert Count(WaitsAs(k), [c]) == if k == Fold(name) then 1 else 0 by {
      assert Init([c]) == [];
    }
    QueueLoadCount(l.asks.pending, Commits.Commit(name, resumed), cap, k);
  }

  lemma JoinKeeps(l: Lane, id: nat, name: string, resumed: bool, cap: nat)
    requires 0 < cap && l.Inv(cap) && Joined(id) !in l.log
    ensures l.Join(id, name, resumed, cap).Inv(cap)
  {
    var l' := l.Join(id, name, resumed, cap);
    forall k | k !in l'.spoiled ensures l'.Waits(k) <= l'.Entries(k) {
      JoinCounts(l, id, name, resumed, cap, k);
    }
    JoinChronicle(l, id, name, resumed, cap);
    Commits.CallKeeps(l.asks, Commits.Commit(name, resumed), cap);
  }

  lemma LogGrows(log: seq<Milestone>, m: Milestone)
    requires Ordered(log) && Preceded(log, m) && (m in log ==> m.Committed?)
    ensures Ordered(log + [m])
  {
    var l := log + [m];
    forall j | 0 <= j < |l| ensures Preceded(l[..j], l[j]) {
      assert l[..j] == if j < |log| then log[..j] else log;
    }
  }

  lemma JoinChronicle(l: Lane, id: nat, name: string, resumed: bool, cap: nat)
    requires 0 < cap && |l.asks.pending| <= cap && l.Chronicle() && Joined(id) !in l.log
    ensures l.Join(id, name, resumed, cap).Chronicle()
  {
    forall j | 0 <= j < |l.log| ensures l.log[j] != Entered(id) {
      assert Preceded(l.log[..j], l.log[j]);
    }
    LogGrows(l.log, Joined(id));
  }

  lemma CloseKeeps(l: Lane, i: nat, cap: nat)
    requires l.Inv(cap) && i < |l.conns|
    ensures l.Close(i).Inv(cap)
  {
    forall k | k !in l.spoiled ensures l.Close(i).Waits(k) <= l.Close(i).Entries(k) {
      CountRemove(WaitsAs(k), l.conns, i);
      assert l.Waits(k) <= l.Entries(k);
    }
    CloseChronicle(l, i);
  }

  lemma CommitChronicle(conns: seq<Conn>, log: seq<Milestone>, i: nat)
    requires Ordered(log) && Listed(conns, log) && i < |conns| && conns[i].phase.Playing?
    ensures Ordered(log + [Committed(conns[i].id)]) && Listed(conns, log + [Committed(conns[i].id)])
  {
    assert conns[i] in conns;
    LogGrows(log, Committed(conns[i].id));
  }

  lemma CloseChronicle(l: Lane, i: nat)
    requires l.Chronicle() && i < |l.conns|
    ensures l.Close(i).Chronicle()
  {
    if l.conns[i].phase.Playing? {
      CommitChronicle(l.conns, l.log, i);
    }
    ShorterListed(l.conns, l.Close(i).log, i);
  }

  lemma ShorterListed(conns: seq<Conn>, log: seq<Milestone>, i: nat)
    requires Listed(conns, log) && i < |conns|
    ensures Listed(conns[..i] + conns[i + 1..], log)
  {
  }

  lemma CommitKeeps(l: Lane, i: nat, cap: nat)
    requires l.Inv(cap) && i < |l.conns| && l.conns[i].phase.Playing?
    ensures l.Commit(i).Inv(cap)
  {
    forall k | k !in l.spoiled ensures l.Commit(i).Waits(k) <= l.Commit(i).Entries(k) {
      assert l.Waits(k) <= l.Entries(k);
    }
    CommitChronicle(l.conns, l.log, i);
  }

  /** Steps that only move an entry along the pipe keep every count. */
  lemma Moved(l: Lane, l': Lane, cap: nat)
    requires l.Inv(cap) && l'.Sized(cap) && l'.asks.Inv(cap)
    requires l'.conns == l.conns && l'.log == l.log && l'.spoiled == l.spoiled
    requires forall k :: l'.Entries(k) == l.Entries(k)
    ensures l'.Inv(cap)
  {
    forall k | k !in l'.spoiled ensures l'.Waits(k) <= l'.Entries(k) {
      assert l.Waits(k) <= l.Entries(k);
    }
  }

  lemma TakeKeeps(l: Lane, cap: nat)
    requires l.Inv(cap) && l.asks.flight == []
    ensures l.Take().Inv(cap)
  {
    Commits.TakeKeeps(l.asks, cap);
    Moved(l, l.Take(), cap);
  }

  lemma CallKeeps(l: Lane, ok: bool, found: bool, sheet: Sheet, cap: nat)
    requires l.Inv(cap) && l.asks.flight != [] && l.answer == []
    ensures l.CallHub(ok, found, sheet).Inv(cap)
  {
    var l' := l.CallHub(ok, found, sheet);
    Commits.SendKeeps(l.asks, cap);
    forall k ensures l'.Entries(k) == l.Entries(k) {
      CountHead(Commits.CommitIs<bool>(k), l.asks.flight);
      CountHead(AnswerIs(k), l'.answer);
      assert l'.answer[1..] == [];
    }
    Moved(l, l', cap);
  }

  lemma PutCounts(l: Lane, cap: nat, k: string)
    requires 0 < cap && l.Sized(cap) && |l.answer| == 1
    ensures l.Put(cap).Entries(k) == l.Entries(k)
                                     - if |l.results| == cap && k == Fold(l.results[0].name) then 1 else 0
  {
    PushCount(AnswerIs(k), l.results, l.answer[0], cap);
    CountHead(AnswerIs(k), l.answer);
    assert l.answer[1..] == [];
  }

  lemma PutKeeps(l: Lane, cap: nat)
    requires 0 < cap && l.Inv(cap) && |l.answer| == 1
    ensures l.Put(cap).Inv(cap)
  {
    var l' := l.Put(cap);
    forall k | k !in l'.spoiled ensures l'.Waits(k) <= l'.Entries(k) {
      assert l.Waits(k) <= l.Entries(k);
      PutCounts(l, cap, k);
    }
  }

  lemma DrainKeeps(l: Lane, cap: nat)
    requires l.Inv(cap) && l.drained == []
    ensures l.Drain().Inv(cap)
  {
    Moved(l, l.Drain(), cap);
  }

  lemma MatchCounts(l: Lane, k: string)
    requires l.drained != []
    ensures var own := if k == Fold(l.drained[0].name) then 1 else 0;
            && l.Match().Entries(k) == l.Entries(k) - own
            && (if FindWaiting(l.conns, l.drained[0].name) < |l.conns| then l.Match().Waits(k) == l.Waits(k) - own
                else l.Match().Waits(k) == l.Waits(k) && (own == 1 ==> l.Waits(k) == 0))
  {
    CountHead(AnswerIs(k), l.drained);
    var i := FindWaiting(l.conns, l.drained[0].name);
    if i < |l.conns| {
      CountUpdate(WaitsAs(k), l.conns, i, l.conns[i].(phase := Playing));
    } else {
      CountZero(WaitsAs(k), l.conns);
    }
  }

  lemma MatchKeeps(l: Lane, cap: nat)
    requires l.Inv(cap) && l.drained != []
    ensures l.Match().Inv(cap)
  {
    forall k | k !in l.Match().spoiled ensures l.Match().Waits(k) <= l.Match().Entries(k) {
      MatchCounts(l, k);
      assert l.Waits(k) <= l.Entries(k);
    }
    MatchChronicle(l);
  }

  lemma MatchChronicle(l: Lane)
    requires l.Chronicle() && l.drained != []
    ensures l.Match().Chronicle()
  {
    var i := FindWaiting(l.conns, l.drained[0].name);
    if i < |l.conns| {
      assert l.conns[i] in l.conns;
      LogGrows(l.log, Entered(l.conns[i].id));
    }
  }

  /** Nobody is stranded: a session waiting under an unspoiled name has a load or
   *  an answer on its way, so once the queues are empty nobody waits, whether or
   *  not the hub calls succeeded. */
  lemma NobodyStranded(l: Lane, cap: nat, c: Conn)
    requires l.Inv(cap) && c in l.conns && c.phase.WaitHub? && Fold(c.name) !in l.spoiled
    ensures l.Entries(Fold(c.name)) > 0 && !l.Quiet()
  {
    var k := Fold(c.name);
    var i :| 0 <= i < |l.conns| && l.conns[i] == c;
    CountZero(WaitsAs(k), l.conns);
    assert l.Waits(k) <= l.Entries(k);
  }

  /** A session enters once, after it joined and before it commits anything. */
  lemma EntersOnceBeforeCommit(l: Lane, cap: nat, j: nat)
    requires l.Inv(cap) && j < |l.log| && l.log[j].Committed?
    ensures exists e :: (0 <= e < j && l.log[e] == Entered(l.log[j].id)
                         && Joined(l.log[j].id) in l.log[..e]
                         && forall i :: 0 <= i < |l.log| && l.log[i] == Entered(l.log[j].id) ==> i == e)
  {
    var m := Entered(l.log[j].id);
    assert Preceded(l.log[..j], l.log[j]);
    var e :| 0 <= e < j && l.log[..j][e] == m;
    assert l.log[e] == m && Preceded(l.log[..e], l.log[e]);
    assert forall i :: 0 <= i < |l.log| && l.log[i] == m ==> i == e;
  }

  /** When a join can leave one session too many waiting: exactly when its load
   *  is merged into one already queued and every entry of its name is spoken for. */
  lemma JoinStrandsIff(l: Lane, id: nat, name: string, resumed: bool, cap: nat)
    requires 0 < cap && l.Sized(cap) && l.Waits(Fold(name)) <= l.Entries(Fold(name))
    ensures var k := Fold(name);
            l.Join(id, name, resumed, cap).Waits(k) > l.Join(id, name, resumed, cap).Entries(k)
            <==> Commits.Find(l.asks.pending, name) < |l.asks.pending| && l.Waits(k) == l.Entries(k)
  {
    JoinCounts(l, id, name, resumed, cap, Fold(name));
    assert Commits.Find(l.asks.pending, name) == |l.asks.pending| > 0 ==> !SameName(l.asks.pending[0].name, name);
  }

  /** A name nobody is waiting under never spoils itself by joining. */
  lemma FreshNameIsSafe(l: Lane, id: nat, name: string, resumed: bool, cap: nat)
    requires 0 < cap && l.Sized(cap) && l.Waits(Fold(name)) == 0 && Fold(name) !in l.spoiled
    ensures Fold(name) !in l.Join(id, name, resumed, cap).spoiled
  {
  }

  /** Two sessions of one name: the loads merge, one answer comes, one session
   *  plays and the other waits with nothing on its way. */
  lemma TwinsStrand(sheet: Sheet)
    ensures var l := EMPTY_LANE.Join(0, "ash", false, 16).Join(1, "ash", true, 16)
                     .Take().CallHub(true, false, sheet).Put(16).Drain().Match();
            l.Quiet() && l.conns == [Conn(1, Playing, "ash"), Conn(0, WaitHub, "ash")]
  {
    var b := EMPTY_LANE.Join(0, "ash", false, 16).Join(1, "ash", true, 16);
    assert b.asks.pending == [Commits.Commit("ash", true)];
    assert b.conns == [Conn(1, WaitHub, "ash"), Conn(0, WaitHub, "ash")];
    var e := b.Take().CallHub(true, false, sheet).Put(16).Drain();
    assert e.drained == [Answer("ash", true, false, sheet, true)];
    assert FindWaiting(e.conns, "ash") == 0;
  }

  /** An answer lets in the first session of the list that waits under its name, and
   *  changes nothing about any other; without one it is thrown away. */
  lemma MatchEnters(l: Lane, i: nat)
    requires l.drained != []
    ensures l.Match().drained == l.drained[1..]
    ensures i < |l.conns| && l.conns[i].phase.WaitHub? && SameName(l.conns[i].name, l.drained[0].name)
            && (forall j :: 0 <= j < i ==> !(l.conns[j].phase.WaitHub? && SameName(l.conns[j].name, l.drained[0].name))) ==>
              && l.Match().conns == l.conns[i := l.conns[i].(phase := Playing)]
              && l.Match().log == l.log + [Entered(l.conns[i].id)]
    ensures (forall j :: 0 <= j < |l.conns| ==> !(l.conns[j].phase.WaitHub? && SameName(l.conns[j].name, l.drained[0].name))) ==>
              l.Match().conns == l.conns && l.Match().log == l.log
    ensures l.Match() == l.(drained := l.drained[1..], conns := l.Match().conns, log := l.Match().log)
  {
    var p := WaitsAs(Fold(l.drained[0].name));
    forall j | 0 <= j < |l.conns|
      ensures p(l.conns[j]) <==> l.conns[j].phase.WaitHub? && SameName(l.conns[j].name, l.drained[0].name)
    {
    }
    if i < |l.conns| && p(l.conns[i]) && forall j :: 0 <= j < i ==> !p(l.conns[j]) {
      IsIndexOf(p, l.conns, i);
    }
  }

  /** A load put to the hub is answered under its own name with just what the hub said, and
   *  the answer goes to the end of the queue. */
  lemma LoadIsAnswered(l: Lane, ok: bool, found: bool, sheet: Sheet, cap: nat)
    requires 0 < cap && l.Sized(cap) && l.asks.flight != [] && l.answer == []
    ensures var m := l.CallHub(ok, found, sheet).Put(cap);
            && m.results != []
            && Last(m.results) == Answer(l.asks.flight[0].name, ok, found, sheet, l.asks.flight[0].sheet)
            && Init(m.results) == (if |l.results| < cap then l.results else l.results[1..])
            && m.asks.sent == l.asks.sent + [l.asks.flight[0]] && m.asks.flight == l.asks.flight[1..] && m.answer == []
  {
  }

  /** A name is spoiled by nothing but these: its own login merged into a load while
   *  another session waits, its load the oldest in a full queue, its answer the oldest in
   *  a full queue. */
  lemma SpoiledOnlyBy(l: Lane, id: nat, name: string, resumed: bool, cap: nat, k: string)
    requires 0 < cap && l.Sized(cap)
    ensures k in l.Join(id, name, resumed, cap).spoiled && k !in l.spoiled ==>
              || (k == Fold(name) && l.Waits(k) > 0 && exists p :: p in l.asks.pending && SameName(p.name, name))
              || (|l.asks.pending| == cap && k == Fold(l.asks.pending[0].name))
    ensures |l.answer| == 1 && k in l.Put(cap).spoiled && k !in l.spoiled ==>
              |l.results| == cap && k == Fold(l.results[0].name)
  {
    var i := Commits.Find(l.asks.pending, name);
    if i < |l.asks.pending| {
      assert l.asks.pending[i] in l.asks.pending;
    }
  }
}
