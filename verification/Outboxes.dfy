/** The drop-oldest outboxes of the federation worker (fallen, gridcasts). */
module Outboxes {
  import opened Sequences

  /** Append to a buffer of cap slots; a full buffer loses its oldest entry. */
  function PushDropOldest<T>(q: seq<T>, x: T, cap: nat): (r: seq<T>)
    requires 0 < cap && |q| <= cap
    ensures |r| <= cap
  {
    if |q| >= cap then q[1..] + [x] else q + [x]
  }

  /** One outbox with its history.
   *  queue    the shared buffer, under the worker's mutex
   *  flight   the batch the worker copied out and has not sent yet
   *  sent     every entry handed to the hub, in order
   *  accepted every entry ever queued, in order
   *  mark     how much of accepted there was at the last take
   *  dropped  entries lost to a full buffer
   *  widest   the largest number of entries accepted between two takes */
  datatype Outbox<T> = Outbox(queue: seq<T>, flight: seq<T>, sent: seq<T>,
                              accepted: seq<T>, mark: nat, dropped: nat, widest: nat)
  {
    function Trail(): seq<T> {
      sent + flight + queue
    }

    function Interval(): int {
      |accepted| - mark
    }

    /** The buffer holds the newest entries of the interval, at most cap of them. */
    ghost predicate Newest(cap: nat) {
      mark <= |accepted| && queue == LastN(accepted[mark..], cap)
    }

    /** Entries are lost exactly to intervals wider than the buffer. */
    ghost predicate Accounted(cap: nat) {
      && |sent| + |flight| + |queue| + dropped == |accepted|
      && Interval() <= widest
      && (dropped == 0 <==> widest <= cap)
    }

    ghost predicate Inv(cap: nat) {
      Newest(cap) && Accounted(cap) && Subseq(Trail(), accepted)
    }

    function Push(x: T, cap: nat): Outbox<T>
      requires 0 < cap && |queue| <= cap
    {
      var interval := |accepted| + 1 - mark;
      Outbox(PushDropOldest(queue, x, cap), flight, sent, accepted + [x], mark,
             if |queue| >= cap then dropped + 1 else dropped,
             if interval > widest then interval else widest)
    }

    function Take(): Outbox<T>
      requires flight == []
    {
      this.(queue := [], flight := queue, mark := |accepted|)
    }

    function SendHead(): Outbox<T>
      requires flight != []
    {
      this.(flight := flight[1..], sent := sent + [flight[0]])
    }
  }

  function Empty<T>(): Outbox<T> {
    Outbox([], [], [], [], 0, 0, 0)
  }

  /** Dropping the oldest entry of the tail of a selection leaves a selection. */
  lemma PushSubseq<T>(before: seq<T>, q: seq<T>, x: T, cap: nat, accepted: seq<T>)
    requires 0 < cap && |q| <= cap && Subseq(before + q, accepted)
    ensures Subseq(before + PushDropOldest(q, x, cap), accepted + [x])
  {
    SubseqGrow(before + q, accepted, x);
    var t := before + q + [x];
    if |q| >= cap {
      assert t[..|before|] + t[|before| + 1..] == before + (q[1..] + [x]);
      SubseqDrop(t, |before|, accepted + [x]);
    } else {
      assert t == before + (q + [x]);
    }
  }

  lemma PushNewest<T>(h: seq<T>, mark: nat, x: T, cap: nat)
    requires 0 < cap && mark <= |h|
    ensures PushDropOldest(LastN(h[mark..], cap), x, cap) == LastN((h + [x])[mark..], cap)
  {
    assert (h + [x])[mark..] == h[mark..] + [x];
  }

  lemma PushKeeps<T>(o: Outbox<T>, x: T, cap: nat)
    requires 0 < cap && o.Inv(cap)
    ensures o.Push(x, cap).Inv(cap)
  {
    PushSubseq(o.sent + o.flight, o.queue, x, cap, o.accepted);
    PushNewest(o.accepted, o.mark, x, cap);
  }

  lemma TakeKeeps<T>(o: Outbox<T>, cap: nat)
    requires o.Inv(cap) && o.flight == []
    ensures o.Take().Inv(cap)
    ensures o.Take().Trail() == o.Trail()
  {
    assert o.Take().Trail() == o.Trail();
    assert o.accepted[|o.accepted|..] == [];
  }

  lemma SendKeeps<T>(o: Outbox<T>, cap: nat)
    requires o.Inv(cap) && o.flight != []
    ensures o.SendHead().Inv(cap)
    ensures o.SendHead().Trail() == o.Trail()
  {
    assert o.SendHead().Trail() == o.Trail();
  }

  /** What the hub has been handed is an in-order, duplicate-free selection of
   *  what was accepted. It is a prefix of it, and nothing is missing but what
   *  still waits, exactly when no interval between two takes overflowed. */
  lemma Delivery<T>(o: Outbox<T>, cap: nat)
    requires o.Inv(cap)
    ensures Subseq(o.sent, o.accepted)
    ensures o.widest <= cap <==> o.sent + o.flight + o.queue == o.accepted
  {
    assert o.sent + (o.flight + o.queue) == o.Trail();
    DropTail(o.sent, o.flight + o.queue, o.accepted);
    SubseqLength(o.Trail(), o.accepted);
  }

  lemma {:induction false} DropTail<T>(a: seq<T>, t: seq<T>, b: seq<T>)
    requires Subseq(a + t, b)
    ensures Subseq(a, b)
  {
    if t == [] {
      assert a + t == a;
    } else {
      SubseqInit(a + t, b);
      assert Init(a + t) == a + Init(t);
      DropTail(a, Init(t), b);
    }
  }
}
