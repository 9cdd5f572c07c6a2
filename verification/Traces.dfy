/** The ring of traces: repeated entries are counted, old ones fall out, ambient
 *  ones can be pruned. */
module Traces {
  import opened Sequences
  import opened Text
  import opened Outboxes
  import opened Buffers

  const MAX_TRACES: nat := 64
  const MAX_KINDS: nat := 32
  const WORLD_SIZE: nat := 48
  const NODE_SIZE: nat := 32
  const KIND_SIZE: nat := 16
  const TEXT_SIZE: nat := 160

  /** What a caller records. */
  datatype Entry = Entry(world: string, node: string, kind: string, text: string)

  datatype Trace = Trace(world: string, node: string, kind: string, text: string, count: int)

  /** Every kind the server ever records, the seeded ones first. */
  const KINDS: seq<string> := [
    "passage", "ghost", "recall", "death", "slain",
    "rescue", "redemption", "penance", "oath", "defense", "grace", "aid", "vigil", "quest", "mark"]

  predicate Known(kind: string) {
    kind in KINDS
  }

  /** The comparison record_trace makes, against the stored, clipped fields. */
  function SameAs(e: Entry): Trace -> bool {
    (t: Trace) => t.world == e.world && t.node == e.node && t.text == e.text
  }

  function Stored(e: Entry): Trace {
    Trace(Clip(e.world, WORLD_SIZE), Clip(e.node, NODE_SIZE), Clip(e.kind, KIND_SIZE), Clip(e.text, TEXT_SIZE), 1)
  }

  /** Nothing of the identity of an entry is lost when it is stored. */
  predicate Fits(e: Entry) {
    |e.world| < WORLD_SIZE && |e.node| < NODE_SIZE && |e.text| < TEXT_SIZE
  }

  predicate Short(t: Trace) {
    |t.world| < WORLD_SIZE && |t.node| < NODE_SIZE && |t.text| < TEXT_SIZE
  }

  predicate SameKey(a: Trace, b: Trace) {
    a.world == b.world && a.node == b.node && a.text == b.text
  }

  ghost predicate DistinctKeys(ring: seq<Trace>) {
    forall i, j :: 0 <= i < j < |ring| ==> !SameKey(ring[i], ring[j])
  }

  /** record_trace. */
  function Record(ring: seq<Trace>, e: Entry): (r: seq<Trace>)
    requires |ring| <= MAX_TRACES
    ensures |r| <= MAX_TRACES
  {
    var i := IndexOf(SameAs(e), ring);
    if i < |ring| then ring[i := ring[i].(count := ring[i].count + 1)]
    else PushDropOldest(ring, Stored(e), MAX_TRACES)
  }

  /** Recording an entry twice leaves the ring without duplicates exactly when
   *  the entry fits its buffers: one that does not never matches what was stored. */
  lemma RepeatMergesIff(ring: seq<Trace>, e: Entry)
    requires |ring| <= MAX_TRACES && DistinctKeys(ring) && forall t :: t in ring ==> Short(t)
    ensures DistinctKeys(Record(Record(ring, e), e)) <==> Fits(e)
  {
    var once := Record(ring, e);
    var twice := Record(once, e);
    if Fits(e) {
      RecordKeepsDistinct(ring, e);
      RecordKeepsDistinct(once, e);
    } else {
      NeverMatches(ring, e);
      assert forall t :: t in once ==> Short(t);
      NeverMatches(once, e);
      assert SameKey(twice[|twice| - 2], twice[|twice| - 1]);
    }
  }

  lemma NeverMatches(ring: seq<Trace>, e: Entry)
    requires !Fits(e) && forall t :: t in ring ==> Short(t)
    ensures IndexOf(SameAs(e), ring) == |ring|
  {
    var i := IndexOf(SameAs(e), ring);
    assert i < |ring| ==> Short(ring[i]);
  }

  lemma RecordKeepsDistinct(ring: seq<Trace>, e: Entry)
    requires |ring| <= MAX_TRACES && DistinctKeys(ring) && Fits(e)
    ensures DistinctKeys(Record(ring, e))
  {
  }

  function Repeats(world: string, node: string, text: string): Entry -> bool {
    (e: Entry) => e.world == world && e.node == node && e.text == text
  }

  /** How often the entry of t occurs in a history. */
  function Occurrences(t: Trace, history: seq<Entry>): nat {
    Count(Repeats(t.world, t.node, t.text), history)
  }

  /** t was inserted by the b-th recording and counts the recordings since. */
  ghost predicate Counts(t: Trace, b: nat, history: seq<Entry>) {
    b < |history| && t.count == Occurrences(t, history[b..]) && Short(t)
  }

  ghost predicate Rising(born: seq<nat>) {
    forall i, j :: 0 <= i < j < |born| ==> born[i] < born[j]
  }

  /** The ring with its history: born[i] is the recording that last inserted
   *  the i-th entry. */
  datatype Ledger = Ledger(ring: seq<Trace>, born: seq<nat>, history: seq<Entry>)
  {
    ghost predicate Inv() {
      && |ring| == |born| <= MAX_TRACES
      && DistinctKeys(ring)
      && Rising(born)
      && (forall i :: 0 <= i < |ring| ==> Counts(ring[i], born[i], history))
      && (forall i :: 0 <= i < |ring| ==> Known(ring[i].kind))
    }

    function Note(e: Entry): Ledger
      requires |ring| == |born| <= MAX_TRACES
    {
      Ledger(Record(ring, e),
             if IndexOf(SameAs(e), ring) < |ring| then born else PushDropOldest(born, |history|, MAX_TRACES),
             history + [e])
    }

    function Prune(): Ledger
      requires |ring| == |born|
    {
      this.(ring := Filter(LASTING, ring), born := KeptBorn(ring, born))
    }
  }

  lemma CountsGrow(t: Trace, b: nat, history: seq<Entry>, e: Entry)
    requires Counts(t, b, history)
    ensures SameAs(e)(t) ==> Counts(t.(count := t.count + 1), b, history + [e])
    ensures !SameAs(e)(t) ==> Counts(t, b, history + [e])
  {
    assert (history + [e])[b..] == history[b..] + [e];
    CountSnoc(Repeats(t.world, t.node, t.text), history[b..], e);
  }

  lemma CountsStart(history: seq<Entry>, e: Entry)
    requires Fits(e)
    ensures Counts(Stored(e), |history|, history + [e])
  {
    var p := Repeats(e.world, e.node, e.text);
    assert (history + [e])[|history|..] == [] + [e];
    CountSnoc(p, [], e);
  }

  lemma KindsAreShort(k: string)
    requires Known(k)
    ensures |k| < KIND_SIZE
  {
  }

  lemma NoteHit(l: Ledger, e: Entry)
    requires l.Inv() && IndexOf(SameAs(e), l.ring) < |l.ring|
    ensures l.Note(e).Inv()
  {
    hide Counts, Known;
    var at := IndexOf(SameAs(e), l.ring);
    var n := l.Note(e);
    forall i | 0 <= i < |l.ring| && i != at ensures !SameAs(e)(l.ring[i]) {
      assert i < at || !SameKey(l.ring[at], l.ring[i]);
    }
    forall i | 0 <= i < |l.ring| ensures Counts(n.ring[i], n.born[i], n.history) {
      CountsGrow(l.ring[i], l.born[i], l.history, e);
    }
  }

  lemma NoteMissCounts(l: Ledger, e: Entry, i: nat)
    requires l.Inv() && Fits(e) && IndexOf(SameAs(e), l.ring) == |l.ring| && i < |l.Note(e).ring|
    ensures Counts(l.Note(e).ring[i], l.Note(e).born[i], l.history + [e])
  {
    hide Known;
    var n := l.Note(e);
    if i == |n.ring| - 1 {
      CountsStart(l.history, e);
    } else {
      var j := if |l.ring| == MAX_TRACES then i + 1 else i;
      assert n.ring[i] == l.ring[j] && n.born[i] == l.born[j];
      CountsGrow(l.ring[j], l.born[j], l.history, e);
    }
  }

  lemma NoteMissRest(l: Ledger, e: Entry)
    requires l.Inv() && Known(e.kind) && IndexOf(SameAs(e), l.ring) == |l.ring|
    ensures Rising(l.Note(e).born)
    ensures forall i :: 0 <= i < |l.Note(e).ring| ==> Known(l.Note(e).ring[i].kind)
  {
    KindsAreShort(e.kind);
    hide Known;
    assert forall i :: 0 <= i < |l.born| ==> Counts(l.ring[i], l.born[i], l.history);
  }

  lemma NoteMiss(l: Ledger, e: Entry)
    requires l.Inv() && Fits(e) && Known(e.kind) && IndexOf(SameAs(e), l.ring) == |l.ring|
    ensures l.Note(e).Inv()
  {
    hide Known, Counts, Rising, DistinctKeys;
    RecordKeepsDistinct(l.ring, e);
    NoteMissRest(l, e);
    forall i | 0 <= i < |l.Note(e).ring| ensures Counts(l.Note(e).ring[i], l.Note(e).born[i], l.history + [e]) {
      NoteMissCounts(l, e, i);
    }
  }

  /** Traces stay pairwise distinct and each count is the number of recordings of
   *  its entry since that entry was last inserted. */
  lemma NoteKeeps(l: Ledger, e: Entry)
    requires l.Inv() && Fits(e) && Known(e.kind)
    ensures l.Note(e).Inv()
  {
    if IndexOf(SameAs(e), l.ring) < |l.ring| {
      NoteHit(l, e);
    } else {
      NoteMiss(l, e);
    }
  }

  /** The ambient kinds a prune forgets. */
  const LASTING: Trace -> bool := (t: Trace) => t.kind != "ghost" && t.kind != "passage" && t.kind != "recall"

  function KeptBorn(ring: seq<Trace>, born: seq<nat>): (r: seq<nat>)
    requires |ring| == |born|
    ensures |r| == |Filter(LASTING, ring)|
  {
    if ring == [] then []
    else KeptBorn(Init(ring), Init(born)) + if LASTING(Last(ring)) then [Last(born)] else []
  }

  /** Where the i-th kept entry was. */
  function KeptIndex(ring: seq<Trace>, i: nat): (j: nat)
    requires i < |Filter(LASTING, ring)|
    ensures j < |ring|
  {
    if i < |Filter(LASTING, Init(ring))| then KeptIndex(Init(ring), i) else |ring| - 1
  }

  /** Every kept entry comes with its own birth, in the order of the ring. */
  lemma {:induction false} KeptFrom(ring: seq<Trace>, born: seq<nat>, i: nat)
    requires |ring| == |born| && i < |Filter(LASTING, ring)|
    ensures ring[KeptIndex(ring, i)] == Filter(LASTING, ring)[i]
    ensures born[KeptIndex(ring, i)] == KeptBorn(ring, born)[i]
    ensures forall k :: 0 <= k < i ==> KeptIndex(ring, k) < KeptIndex(ring, i)
  {
    if i < |Filter(LASTING, Init(ring))| {
      KeptFrom(Init(ring), Init(born), i);
    }
  }

  lemma PruneKeeps(l: Ledger)
    requires l.Inv()
    ensures l.Prune().Inv()
  {
    hide Counts, Known;
    var n := l.Prune();
    forall i | 0 <= i < |n.ring| ensures Counts(n.ring[i], n.born[i], l.history) && Known(n.ring[i].kind) {
      KeptFrom(l.ring, l.born, i);
      assert l.ring[KeptIndex(l.ring, i)] == n.ring[i];
    }
    forall i, j | 0 <= i < j < |n.ring| ensures !SameKey(n.ring[i], n.ring[j]) && n.born[i] < n.born[j] {
      KeptFrom(l.ring, l.born, i);
      KeptFrom(l.ring, l.born, j);
    }
  }

  /** What happens to the ring in a standalone world. */
  datatype Act = Records(e: Entry) | Prunes

  function After(acts: seq<Act>): (l: Ledger)
    ensures |l.ring| == |l.born| <= MAX_TRACES
  {
    if acts == [] then Ledger([], [], [])
    else
      var l := After(Init(acts));
      if Last(acts).Records? then l.Note(Last(acts).e) else KeptFits(l)
  }

  function KeptFits(l: Ledger): (r: Ledger)
    requires |l.ring| == |l.born| <= MAX_TRACES
    ensures |r.ring| == |r.born| <= MAX_TRACES && r == l.Prune()
  {
    FilterShrinks(LASTING, l.ring);
    l.Prune()
  }

  lemma {:induction false} FilterShrinks<T>(keep: T -> bool, s: seq<T>)
    ensures |Filter(keep, s)| <= |s|
  {
    if s != [] {
      FilterShrinks(keep, Init(s));
      assert s == Init(s) + [Last(s)];
      FilterSnoc(keep, Init(s), Last(s));
    }
  }

  /** After any sequence of recordings and prunes: at most 64 traces, no two of one
   *  identity, each counting the recordings since it was last inserted. */
  lemma {:induction false} RingIsALedger(acts: seq<Act>)
    requires forall a :: a in acts && a.Records? ==> Fits(a.e) && Known(a.e.kind)
    ensures After(acts).Inv()
  {
    hide Known, Ledger.Note, Ledger.Prune, Ledger.Inv;
    if acts == [] {
      EmptyLedger();
    } else {
      RingIsALedger(Init(acts));
      assert Last(acts) in acts;
      if Last(acts).Records? {
        NoteKeeps(After(Init(acts)), Last(acts).e);
      } else {
        PruneKeeps(After(Init(acts)));
      }
    }
  }

  lemma EmptyLedger()
    ensures Ledger([], [], []).Inv()
  {
  }

  /** A prune forgets the passing traces, ghosts, passages and recalls, and nothing else;
   *  what it keeps stays in order. */
  lemma {:induction false} PruneForgets(ring: seq<Trace>, t: Trace)
    ensures t in Filter(LASTING, ring) <==> t in ring && t.kind != "ghost" && t.kind != "passage" && t.kind != "recall"
    ensures Subseq(Filter(LASTING, ring), ring)
  {
    if ring != [] {
      PruneForgets(Init(ring), t);
      assert ring == Init(ring) + [Last(ring)];
      if LASTING(Last(ring)) {
        SubseqGrow(Filter(LASTING, Init(ring)), Init(ring), Last(ring));
      }
    }
  }

  /** Pruning twice is pruning once. */
  lemma {:induction false} PruneIdempotent(ring: seq<Trace>)
    ensures Filter(LASTING, Filter(LASTING, ring)) == Filter(LASTING, ring)
  {
    if ring != [] {
      PruneIdempotent(Init(ring));
      if LASTING(Last(ring)) {
        FilterSnoc(LASTING, Filter(LASTING, Init(ring)), Last(ring));
      }
    }
  }

  function KindsOf(ring: seq<Trace>): (r: seq<string>)
    ensures |r| == |ring|
  {
    seq(|ring|, i requires 0 <= i < |ring| => ring[i].kind)
  }

  function IsKind(k: string): string -> bool {
    (x: string) => x == k
  }

  class TraceRing {
    const traces: Buffer<Trace>

    ghost predicate Valid()
      reads this, traces
    {
      traces.Valid() && traces.slots.Length == MAX_TRACES
    }

    constructor ()
      ensures Valid() && traces.Contents() == []
    {
      traces := new Buffer(MAX_TRACES);
    }

    method RecordTrace(e: Entry)
      requires Valid()
      modifies traces`count, traces.slots
      ensures Valid()
      ensures traces.Contents() == Record(old(traces.Contents()), e)
    {
      ghost var was := traces.Contents();
      for i := 0 to traces.count
        invariant traces.count == old(traces.count) && traces.slots[..] == old(traces.slots[..])
        invariant forall j :: 0 <= j < i ==> !SameAs(e)(was[j])
      {
        var t := traces.slots[i];
        if t.world == e.world && t.node == e.node && t.text == e.text {
          IsIndexOf(SameAs(e), was, i);
          traces.slots[i] := t.(count := t.count + 1);
          return;
        }
      }
      traces.Push(Stored(e));
    }

    /** The standalone part of cmd_gridprune: an in-place stable filter. */
    method Prune() returns (before: nat, removed: nat)
      requires Valid()
      modifies traces`count, traces.slots
      ensures Valid()
      ensures traces.Contents() == Filter(LASTING, old(traces.Contents()))
      ensures before == |old(traces.Contents())| && removed == before - |traces.Contents()|
    {
      before := traces.count;
      ghost var was := traces.slots[..];
      ghost var kept: seq<Trace> := [];
      var write := 0;
      for i := 0 to traces.count
        invariant traces.count == before && |kept| == write <= i
        invariant traces.slots[..write] == kept && kept == Filter(LASTING, was[..i])
        invariant forall k {:trigger traces.slots[k]} :: i <= k < before ==> traces.slots[k] == was[k]
      {
        var t := traces.slots[i];
        assert was[..i + 1] == was[..i] + [t];
        FilterSnoc(LASTING, was[..i], t);
        if t.kind == "ghost" || t.kind == "passage" || t.kind == "recall" {
          continue;
        }
        if write != i {
          traces.slots[write] := t;
        }
        write := write + 1;
        kept := kept + [t];
        assert traces.slots[..write] == kept;
      }
      traces.count := write;
      removed := before - write;
    }

    /** The kind histogram of cmd_gridstats and cmd_gridprune, in 32 slots: no
     *  trace is left out as long as there are no more kinds than slots. */
    method Histogram() returns (seen: array<string>, counts: array<int>, n: nat)
      requires Valid()
      ensures fresh(seen) && fresh(counts) && n <= seen.Length == counts.Length == MAX_KINDS
      ensures Tally(seen[..n], counts[..n], KindsOf(traces.Contents()), KindsOf(traces.Contents()))
    {
      hide Tally;
      seen := new string[MAX_KINDS](_ => "");
      counts := new int[MAX_KINDS](_ => 0);
      n := 0;
      ghost var kinds := KindsOf(traces.Contents());
      TallyNone(kinds);
      assert seen[..0] == [] && counts[..0] == [] && kinds[..0] == [];
      for i := 0 to traces.count
        invariant n <= MAX_KINDS
        invariant Tally(seen[..n], counts[..n], kinds[..i], kinds)
      {
        var kind := traces.slots[i].kind;
        assert kind == kinds[i] && kinds[..i + 1] == kinds[..i] + [kind];
        n := CountKind(seen, counts, n, kind, kinds[..i], kinds);
      }
      assert kinds[..traces.count] == kinds;
    }
  }

  /** One trace of the histogram loop. */
  method CountKind(seen: array<string>, counts: array<int>, n: nat, kind: string,
                   ghost done: seq<string>, ghost all: seq<string>) returns (m: nat)
    requires n <= seen.Length == counts.Length == MAX_KINDS
    requires Tally(seen[..n], counts[..n], done, all) && kind in all
    modifies seen, counts
    ensures m <= MAX_KINDS && Tally(seen[..m], counts[..m], done + [kind], all)
  {
    ghost var s, c := seen[..n], counts[..n];
    var j := FindKind(seen, n, kind);
    if j < n {
      TallyHit(s, c, done, all, j);
      counts[j] := counts[j] + 1;
      m := n;
      assert counts[..n] == c[j := c[j] + 1] && seen[..n] == s;
    } else if n < MAX_KINDS {
      TallyNew(s, c, done, all, kind);
      seen[n] := kind;
      counts[n] := 1;
      m := n + 1;
      assert seen[..m] == s + [kind] && counts[..m] == c + [1];
    } else {
      TallyFull(s, c, done, all, kind);
      m := n;
    }
  }

  method FindKind(seen: array<string>, n: nat, kind: string) returns (j: nat)
    requires n <= seen.Length
    ensures j <= n && (j < n ==> seen[..n][j] == kind) && (j == n ==> kind !in seen[..n])
  {
    j := 0;
    while j < n && seen[j] != kind
      invariant j <= n && kind !in seen[..j]
    {
      j := j + 1;
    }
  }

  /** Unless there are more kinds than slots, seen lists the kinds met so far and
   *  counts says how often. */
  ghost predicate Tally(seen: seq<string>, counts: seq<int>, done: seq<string>, all: seq<string>) {
    && |seen| == |counts| <= MAX_KINDS
    && Distinct(seen)
    && (forall k :: k in seen ==> k in all)
    && (|Elements(all)| <= MAX_KINDS ==>
        && Sum(counts) == |done|
        && (forall k :: k in done ==> k in seen)
        && (forall j :: 0 <= j < |seen| ==> counts[j] == Count(IsKind(seen[j]), done)))
  }

  lemma TallyNone(all: seq<string>)
    ensures Tally([], [], [], all)
  {
  }

  lemma {:induction false} SumBump(s: seq<int>, i: nat)
    requires i < |s|
    ensures Sum(s[i := s[i] + 1]) == Sum(s) + 1
  {
    if i < |s| - 1 {
      SumBump(Init(s), i);
      assert Init(s[i := s[i] + 1]) == Init(s)[i := s[i] + 1];
    } else {
      assert Init(s[i := s[i] + 1]) == Init(s);
    }
  }

  lemma TallyHit(seen: seq<string>, counts: seq<int>, done: seq<string>, all: seq<string>, j: nat)
    requires Tally(seen, counts, done, all) && j < |seen|
    ensures Tally(seen, counts[j := counts[j] + 1], done + [seen[j]], all)
  {
    SumBump(counts, j);
    forall i | 0 <= i < |seen|
      ensures Count(IsKind(seen[i]), done + [seen[j]]) == Count(IsKind(seen[i]), done) + if i == j then 1 else 0
    {
      CountSnoc(IsKind(seen[i]), done, seen[j]);
    }
  }

  lemma TallyNew(seen: seq<string>, counts: seq<int>, done: seq<string>, all: seq<string>, kind: string)
    requires Tally(seen, counts, done, all) && |seen| < MAX_KINDS && kind !in seen && kind in all
    ensures Tally(seen + [kind], counts + [1], done + [kind], all)
  {
    SumSnoc(counts, 1);
    CountSnoc(IsKind(kind), done, kind);
    CountZero(IsKind(kind), done);
    forall i | 0 <= i < |seen|
      ensures Count(IsKind(seen[i]), done + [kind]) == Count(IsKind(seen[i]), done)
    {
      CountSnoc(IsKind(seen[i]), done, kind);
    }
  }

  lemma TallyFull(seen: seq<string>, counts: seq<int>, done: seq<string>, all: seq<string>, kind: string)
    requires Tally(seen, counts, done, all) && |seen| == MAX_KINDS && kind !in seen && kind in all
    ensures Tally(seen, counts, done + [kind], all)
  {
    var s := seen + [kind];
    DistinctCount(s);
    SetBound(Elements(s), Elements(all));
  }

  /** With only the kinds the server records there is always room, so the
   *  histogram's counts add up to the number of traces. */
  lemma HistogramAddsUp(l: Ledger, seen: seq<string>, counts: seq<int>)
    requires l.Inv() && Tally(seen, counts, KindsOf(l.ring), KindsOf(l.ring))
    ensures |Elements(KindsOf(l.ring))| <= |KINDS| < MAX_KINDS
    ensures Sum(counts) == |l.ring|
    ensures forall j :: 0 <= j < |seen| ==> counts[j] == Count(IsKind(seen[j]), KindsOf(l.ring))
  {
    forall k | k in Elements(KindsOf(l.ring)) ensures k in Elements(KINDS) {
      assert k in KindsOf(l.ring);
      var i :| 0 <= i < |l.ring| && KindsOf(l.ring)[i] == k;
      assert Known(l.ring[i].kind);
    }
    SetBound(Elements(KindsOf(l.ring)), Elements(KINDS));
    ElementsBound(KINDS);
  }
}
