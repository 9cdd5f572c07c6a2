/** The coalescing commit queue between the event loop and the federation worker. */
module Commits {
  import opened Sequences
  import opened Text
  import opened Outboxes

  /** The identity record the hub keeps for a character. */
  datatype Sheet = Sheet(level: int, xp: int, gold: int, morality: int,
                         faction: string, title: string, race: string, ashsworn: bool)

  /** What is asked of the hub for one name. Commits carry a sheet; the loads of the
   *  login handshake coalesce the same way and carry whether the player resumed. */
  datatype Commit<S> = Commit(name: string, sheet: S)

  const MAX_PENDING_COMMITS: nat := 128

  function CommitIs<S>(k: string): Commit<S> -> bool {
    (c: Commit<S>) => Fold(c.name) == k
  }

  /** The first index whose entry carries the name, or the length. */
  function Find<S>(pending: seq<Commit<S>>, name: string): nat {
    IndexOf(CommitIs(Fold(name)), pending)
  }

  /** commit_hub's update of the shared buffer: a name already waiting keeps its
   *  slot and spelling and takes the newer sheet. */
  function Coalesce<S>(pending: seq<Commit<S>>, c: Commit<S>, cap: nat): (r: seq<Commit<S>>)
    requires 0 < cap && |pending| <= cap
    ensures |r| <= cap
  {
    var i := Find(pending, c.name);
    if i < |pending| then pending[i := pending[i].(sheet := c.sheet)]
    else PushDropOldest(pending, c, cap)
  }

  ghost predicate DistinctNames<S>(pending: seq<Commit<S>>) {
    forall i, j :: 0 <= i < j < |pending| ==> !SameName(pending[i].name, pending[j].name)
  }

  /** The sheets a history holds for one key, in order. */
  function Sheets<S>(s: seq<Commit<S>>, k: string): seq<S> {
    if s == [] then []
    else Sheets(Init(s), k) + if Fold(Last(s).name) == k then [Last(s).sheet] else []
  }

  /** The last-write-wins reading of a history. */
  function LastWrite<S>(s: seq<Commit<S>>): map<string, S> {
    if s == [] then map[] else LastWrite(Init(s))[Fold(Last(s).name) := Last(s).sheet]
  }

  /** The sheets kept for a key are some of those called, in call order. */
  ghost predicate Ordered<S>(kept: seq<Commit<S>>, called: seq<Commit<S>>, k: string) {
    Subseq(Sheets(kept, k), Sheets(called, k))
  }

  /** The newest sheet kept for a key is the newest one called. */
  ghost predicate Current<S>(kept: seq<Commit<S>>, called: seq<Commit<S>>, k: string) {
    Sheets(called, k) != [] ==>
      Sheets(kept, k) != [] && Last(Sheets(kept, k)) == Last(Sheets(called, k))
  }

  /** pending is shared; flight, sent and called are as in an outbox. lost holds
   *  the keys whose newest sheet was pushed out of a full buffer. */
  datatype Lane<S> = Lane(pending: seq<Commit<S>>, flight: seq<Commit<S>>, sent: seq<Commit<S>>,
                          called: seq<Commit<S>>, lost: set<string>)
  {
    function Trail(): seq<Commit<S>> {
      sent + flight + pending
    }

    ghost predicate InvFor(k: string) {
      && Ordered(Trail(), called, k)
      && (k !in lost ==> Current(Trail(), called, k))
    }

    ghost predicate Inv(cap: nat) {
      && |pending| <= cap
      && DistinctNames(pending)
      && forall k :: InvFor(k)
    }

    function Call(c: Commit<S>, cap: nat): Lane<S>
      requires 0 < cap && |pending| <= cap
    {
      var full := Find(pending, c.name) == |pending| >= cap;
      Lane(Coalesce(pending, c, cap), flight, sent, called + [c],
           (if full then lost + {Fold(pending[0].name)} else lost) - {Fold(c.name)})
    }

    function Take(): Lane<S>
      requires flight == []
    {
      this.(pending := [], flight := pending)
    }

    function SendHead(): Lane<S>
      requires flight != []
    {
      this.(flight := flight[1..], sent := sent + [flight[0]])
    }
  }

  function NoCalls<S>(): Lane<S> {
    Lane([], [], [], [], {})
  }

  lemma {:induction false} SheetsConcat<S>(a: seq<Commit<S>>, b: seq<Commit<S>>, k: string)
    ensures Sheets(a + b, k) == Sheets(a, k) + Sheets(b, k)
  {
    if b == [] {
      assert a + b == a;
    } else {
      assert Init(a + b) == a + Init(b);
      SheetsConcat(a, Init(b), k);
    }
  }

  lemma {:induction false} SheetsNone<S>(s: seq<Commit<S>>, k: string)
    requires forall i :: 0 <= i < |s| ==> Fold(s[i].name) != k
    ensures Sheets(s, k) == []
  {
    if s != [] { SheetsNone(Init(s), k); }
  }

  lemma SheetsSnoc<S>(s: seq<Commit<S>>, c: Commit<S>, k: string)
    ensures Fold(c.name) == k ==> Sheets(s + [c], k) == Sheets(s, k) + [c.sheet]
    ensures Fold(c.name) != k ==> Sheets(s + [c], k) == Sheets(s, k)
  {
    assert Init(s + [c]) == s;
  }

  lemma Append<S>(kept: seq<Commit<S>>, called: seq<Commit<S>>, c: Commit<S>, k: string)
    requires Ordered(kept, called, k)
    ensures Ordered(kept + [c], called + [c], k)
    ensures Fold(c.name) == k || Current(kept, called, k) ==> Current(kept + [c], called + [c], k)
  {
    SheetsSnoc(kept, c, k);
    SheetsSnoc(called, c, k);
    SubseqGrow(Sheets(kept, k), Sheets(called, k), c.sheet);
  }

  lemma SheetsMiddle<S>(a: seq<Commit<S>>, x: Commit<S>, b: seq<Commit<S>>, k: string)
    ensures Sheets(a + [x] + b, k) == Sheets(a, k) + (if Fold(x.name) == k then [x.sheet] else []) + Sheets(b, k)
  {
    SheetsConcat(a + [x], b, k);
    SheetsSnoc(a, x, k);
  }

  /** Whatever is selected may be followed by the newest instead of its own last. */
  lemma SubseqNewest<S>(s: seq<S>, x: S, y: S, c: seq<S>)
    requires Subseq(s + [x], c)
    ensures Subseq(s + [y], c + [y])
  {
    assert Init(s + [x]) == s;
    SubseqInit(s + [x], c);
    SubseqGrow(s, c, y);
  }

  /** The middle entry of a trail, the only one of its key from there on, is overwritten. */
  lemma Overwrite<S>(a: seq<Commit<S>>, slot: Commit<S>, b: seq<Commit<S>>, called: seq<Commit<S>>, c: Commit<S>, k: string)
    requires Ordered(a + [slot] + b, called, k) && SameName(slot.name, c.name)
    requires Fold(slot.name) == k ==> Sheets(b, k) == []
    ensures Ordered(a + [slot.(sheet := c.sheet)] + b, called + [c], k)
    ensures Fold(c.name) == k || Current(a + [slot] + b, called, k) ==>
              Current(a + [slot.(sheet := c.sheet)] + b, called + [c], k)
  {
    hide Sheets, Subseq;
    SheetsMiddle(a, slot, b, k);
    SheetsMiddle(a, slot.(sheet := c.sheet), b, k);
    SheetsSnoc(called, c, k);
    if k == Fold(c.name) {
      assert Sheets(a, k) + [slot.sheet] + [] == Sheets(a, k) + [slot.sheet];
      assert Sheets(a, k) + [c.sheet] + [] == Sheets(a, k) + [c.sheet];
      SubseqNewest(Sheets(a, k), slot.sheet, c.sheet, Sheets(called, k));
    }
  }

  lemma Split<S>(before: seq<Commit<S>>, pending: seq<Commit<S>>, i: nat, x: Commit<S>)
    requires i < |pending|
    ensures before + pending == before + pending[..i] + [pending[i]] + pending[i + 1..]
    ensures before + pending[i := x] == before + pending[..i] + [x] + pending[i + 1..]
  {
  }

  lemma CallHit<S>(l: Lane<S>, c: Commit<S>, cap: nat, k: string)
    requires 0 < cap && |l.pending| <= cap && DistinctNames(l.pending) && l.InvFor(k)
    requires Find(l.pending, c.name) < |l.pending|
    ensures l.Call(c, cap).InvFor(k)
  {
    var i := Find(l.pending, c.name);
    var slot := l.pending[i];
    Split(l.sent + l.flight, l.pending, i, slot.(sheet := c.sheet));
    if Fold(slot.name) == k { SheetsNone(l.pending[i + 1..], k); }
    Overwrite(l.sent + l.flight + l.pending[..i], slot, l.pending[i + 1..], l.called, c, k);
  }

  /** Evicting the only waiting entry of a key costs that key its newest sheet. */
  lemma Evict<S>(a: seq<Commit<S>>, x: Commit<S>, b: seq<Commit<S>>, called: seq<Commit<S>>, k: string)
    requires Ordered(a + [x] + b, called, k)
    requires Fold(x.name) == k ==> Sheets(b, k) == []
    ensures Ordered(a + b, called, k)
    ensures Fold(x.name) != k && Current(a + [x] + b, called, k) ==> Current(a + b, called, k)
  {
    hide Sheets, Subseq;
    SheetsMiddle(a, x, b, k);
    SheetsConcat(a, b, k);
    var s := Sheets(a, k);
    if k == Fold(x.name) {
      assert s + [x.sheet] + [] == s + [x.sheet] && s + [] == s && Init(s + [x.sheet]) == s;
      SubseqInit(s + [x.sheet], Sheets(called, k));
    } else {
      assert s + [] == s;
    }
  }

  lemma CallRoom<S>(l: Lane<S>, c: Commit<S>, cap: nat, k: string)
    requires |l.pending| < cap && l.InvFor(k)
    requires Find(l.pending, c.name) == |l.pending|
    ensures l.Call(c, cap).InvFor(k)
  {
    var l' := l.Call(c, cap);
    assert l'.Trail() == l.Trail() + [c];
    Append(l.Trail(), l.called, c, k);
  }

  lemma CallFullTrail<S>(l: Lane<S>, c: Commit<S>, cap: nat)
    requires 0 < cap == |l.pending| && Find(l.pending, c.name) == |l.pending|
    ensures l.Trail() == l.sent + l.flight + [l.pending[0]] + l.pending[1..]
    ensures l.Call(c, cap).Trail() == l.sent + l.flight + l.pending[1..] + [c]
    ensures l.Call(c, cap).called == l.called + [c]
    ensures l.Call(c, cap).lost == l.lost + {Fold(l.pending[0].name)} - {Fold(c.name)}
  {
  }

  lemma CallFull<S>(l: Lane<S>, c: Commit<S>, cap: nat, k: string)
    requires 0 < cap == |l.pending| && DistinctNames(l.pending) && l.InvFor(k)
    requires Find(l.pending, c.name) == |l.pending|
    ensures l.Call(c, cap).InvFor(k)
  {
    CallFullTrail(l, c, cap);
    var rest := l.pending[1..];
    if Fold(l.pending[0].name) == k { SheetsNone(rest, k); }
    Evict(l.sent + l.flight, l.pending[0], rest, l.called, k);
    Append(l.sent + l.flight + rest, l.called, c, k);
  }

  lemma CallKeepsNames<S>(pending: seq<Commit<S>>, c: Commit<S>, cap: nat)
    requires 0 < cap && |pending| <= cap && DistinctNames(pending)
    ensures DistinctNames(Coalesce(pending, c, cap))
  {
  }

  lemma CallKeeps<S>(l: Lane<S>, c: Commit<S>, cap: nat)
    requires 0 < cap && l.Inv(cap)
    ensures l.Call(c, cap).Inv(cap)
  {
    CallKeepsNames(l.pending, c, cap);
    forall k ensures l.Call(c, cap).InvFor(k) {
      assert l.InvFor(k);
      if Find(l.pending, c.name) < |l.pending| {
        CallHit(l, c, cap, k);
      } else if |l.pending| < cap {
        CallRoom(l, c, cap, k);
      } else {
        CallFull(l, c, cap, k);
      }
    }
  }

  lemma TakeKeeps<S>(l: Lane<S>, cap: nat)
    requires l.Inv(cap) && l.flight == []
    ensures l.Take().Inv(cap)
    ensures l.Take().Trail() == l.Trail()
  {
    assert l.sent + [] + l.pending == l.sent + l.pending + [];
    forall k ensures l.Take().InvFor(k) { assert l.InvFor(k); }
  }

  lemma SendKeeps<S>(l: Lane<S>, cap: nat)
    requires l.Inv(cap) && l.flight != []
    ensures l.SendHead().Inv(cap)
    ensures l.SendHead().Trail() == l.Trail()
  {
    assert l.sent + l.flight == (l.sent + [l.flight[0]]) + l.flight[1..];
    forall k ensures l.SendHead().InvFor(k) { assert l.InvFor(k); }
  }

  lemma {:induction false} LastWriteIsLastSheet<S>(s: seq<Commit<S>>, k: string)
    ensures k in LastWrite(s) <==> Sheets(s, k) != []
    ensures k in LastWrite(s) ==> LastWrite(s)[k] == Last(Sheets(s, k))
  {
    if s != [] { LastWriteIsLastSheet(Init(s), k); }
  }

  /** What the hub was handed for a name is a subsequence of what was called. */
  lemma SentInCallOrder<S>(l: Lane<S>, cap: nat, k: string)
    requires l.Inv(cap)
    ensures Subseq(Sheets(l.sent, k), Sheets(l.called, k))
  {
    assert l.InvFor(k);
    SheetsConcat(l.sent, l.flight + l.pending, k);
    assert l.Trail() == l.sent + (l.flight + l.pending);
    DropTail(Sheets(l.sent, k), Sheets(l.flight + l.pending, k), Sheets(l.called, k));
  }

  /** Coalescing refines a last-write-wins map: whatever was sent, is being sent
   *  or waits reads as the calls do, for every key not evicted. */
  lemma RefinesLastWrite<S>(l: Lane<S>, cap: nat)
    requires l.Inv(cap)
    ensures LastWrite(l.Trail()).Keys <= LastWrite(l.called).Keys
    ensures LastWrite(l.Trail()) - l.lost == LastWrite(l.called) - l.lost
  {
    var trail, called := LastWrite(l.Trail()), LastWrite(l.called);
    forall k
      ensures k in trail ==> k in called
      ensures k !in l.lost ==> (k in trail <==> k in called)
      ensures k !in l.lost && k in called ==> k in trail && trail[k] == called[k]
    {
      assert l.InvFor(k);
      LastWriteIsLastSheet(l.Trail(), k);
      LastWriteIsLastSheet(l.called, k);
    }
    assert (trail - l.lost).Keys == (called - l.lost).Keys;
  }

  /** A name's sheet is given up only to a full buffer, and then the one that waited
   *  longest; calling a name brings it back. */
  lemma LostOnlyWhenFull<S>(l: Lane<S>, c: Commit<S>, cap: nat)
    requires 0 < cap && |l.pending| <= cap && DistinctNames(l.pending)
    ensures |l.pending| < cap || (exists p :: p in l.pending && SameName(p.name, c.name)) ==>
              l.Call(c, cap).lost == l.lost - {Fold(c.name)}
    ensures |l.pending| == cap && (forall p :: p in l.pending ==> !SameName(p.name, c.name)) ==>
              l.Call(c, cap).lost == l.lost + {Fold(l.pending[0].name)} - {Fold(c.name)}
  {
    var i := Find(l.pending, c.name);
    if i < |l.pending| {
      assert l.pending[i] in l.pending;
    }
  }

  /** A call keeps every waiting name where it is; a name that waits keeps its spelling and
   *  takes the new sheet, a new one goes to the end. */
  lemma CoalesceKeepsPlaces<S>(pending: seq<Commit<S>>, c: Commit<S>, cap: nat)
    requires 0 < cap && |pending| <= cap && DistinctNames(pending)
    ensures var r := Coalesce(pending, c, cap);
            if exists p :: p in pending && SameName(p.name, c.name) then
              && |r| == |pending|
              && forall i :: 0 <= i < |r| ==>
                   r[i] == if SameName(pending[i].name, c.name) then Commit(pending[i].name, c.sheet) else pending[i]
            else if |pending| < cap then r == pending + [c]
            else r == pending[1..] + [c]
  {
    var i := Find(pending, c.name);
    if i < |pending| {
      assert pending[i] in pending;
    }
  }
}
