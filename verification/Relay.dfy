/** The relay of gridcasts from the hub's log to the players of this world. */
module Relay {
  import opened Sequences

  datatype Cast = Cast(id: int, world: string, sender: string, text: string)

  const MAX_CASTS: nat := 64
  const FETCH_LIMIT: nat := 20

  /** The hub numbers its casts upwards. */
  ghost predicate Ascending(log: seq<Cast>) {
    forall i, j :: 0 <= i < j < |log| ==> log[i].id < log[j].id
  }

  /** The casts of the log with lo < id <= hi. */
  function Between(log: seq<Cast>, lo: int, hi: int): seq<Cast> {
    if log == [] then []
    else Between(Init(log), lo, hi) + if lo < Last(log).id <= hi then [Last(log)] else []
  }

  /** The casts of the log with an id above lo. */
  function After(log: seq<Cast>, lo: int): seq<Cast> {
    if log == [] then []
    else After(Init(log), lo) + if lo < Last(log).id then [Last(log)] else []
  }

  /** The critical section that files a fetched batch: entries are copied until
   *  the buffer is full, and the cursor follows the last one copied. */
  function Filed(buffer: seq<Cast>, incoming: seq<Cast>, cap: nat): (n: nat)
    requires |buffer| <= cap
    ensures n <= |incoming| && |buffer| + n <= cap
    ensures n == |incoming| || |buffer| + n == cap
  {
    if |incoming| <= cap - |buffer| then |incoming| else cap - |buffer|
  }

  function Advance(cursor: int, filed: seq<Cast>): int
  {
    if filed == [] then cursor
    else if Last(filed).id > Advance(cursor, Init(filed)) then Last(filed).id
    else Advance(cursor, Init(filed))
  }

  /** log       the hub's casts, in order
   *  start     the cursor the worker started from
   *  cursor    cast_cursor
   *  buffer    the shared casts[64]
   *  since     the cursor the worker last read
   *  incoming  the batch it has fetched and not filed yet
   *  delivered every cast shown to the players, in order */
  datatype Lane = Lane(log: seq<Cast>, start: int, cursor: int, buffer: seq<Cast>,
                       since: int, incoming: seq<Cast>, delivered: seq<Cast>)
  {
    ghost predicate Inv(cap: nat) {
      && Ascending(log)
      && |buffer| <= cap
      && start <= cursor
      && (cursor == start || exists i :: 0 <= i < |log| && log[i].id == cursor)
      && incoming <= After(log, cursor)
      && delivered + buffer == Between(log, start, cursor)
    }

    /** Some world casts; the hub gives it a new, higher number. */
    function Post(c: Cast): Lane {
      this.(log := log + [c])
    }

    function ReadCursor(): Lane {
      this.(since := cursor, incoming := [])
    }

    /** A successful castsSince(since, 20): the first n casts after since. */
    function Fetch(n: nat): Lane
      requires n <= FETCH_LIMIT && n <= |After(log, since)|
    {
      this.(incoming := After(log, since)[..n])
    }

    function File(cap: nat): Lane
      requires |buffer| <= cap
    {
      var filed := incoming[..Filed(buffer, incoming, cap)];
      this.(buffer := buffer + filed, cursor := Advance(cursor, filed), incoming := [])
    }

    /** The event loop empties the buffer and shows every cast in it. */
    function Drain(): Lane {
      this.(buffer := [], delivered := delivered + buffer)
    }
  }

  lemma {:induction false} AfterBounds(log: seq<Cast>, lo: int)
    requires Ascending(log)
    ensures Ascending(After(log, lo))
    ensures forall i :: 0 <= i < |After(log, lo)| ==> After(log, lo)[i].id > lo && After(log, lo)[i] in log
  {
    if log != [] { AfterBounds(Init(log), lo); }
  }

  lemma {:induction false} BetweenEmpty(log: seq<Cast>, lo: int, hi: int)
    requires hi <= lo
    ensures Between(log, lo, hi) == []
  {
    if log != [] { BetweenEmpty(Init(log), lo, hi); }
  }

  /** Below every id nothing is left out. */
  lemma {:induction false} BetweenTop(log: seq<Cast>, lo: int, hi: int)
    requires forall i :: 0 <= i < |log| ==> log[i].id <= hi
    ensures Between(log, lo, hi) == After(log, lo)
  {
    if log != [] { BetweenTop(Init(log), lo, hi); }
  }

  lemma {:induction false} BetweenJoin(log: seq<Cast>, lo: int, mid: int, hi: int)
    requires Ascending(log) && lo <= mid <= hi
    ensures Between(log, lo, hi) == Between(log, lo, mid) + Between(log, mid, hi)
  {
    if log != [] {
      BetweenJoin(Init(log), lo, mid, hi);
      if Last(log).id <= mid {
        BetweenAbove(Init(log), mid, hi, Last(log).id);
      }
    }
  }

  lemma {:induction false} BetweenAbove(log: seq<Cast>, lo: int, hi: int, top: int)
    requires forall i :: 0 <= i < |log| ==> log[i].id < top
    requires top <= lo
    ensures Between(log, lo, hi) == []
  {
    if log != [] { BetweenAbove(Init(log), lo, hi, top); }
  }

  /** The first n casts after lo are those up to the n-th one's id. */
  lemma {:induction false} PrefixBetween(log: seq<Cast>, lo: int, n: nat)
    requires Ascending(log) && 0 < n <= |After(log, lo)|
    ensures Between(log, lo, After(log, lo)[n - 1].id) == After(log, lo)[..n]
  {
    var all := After(log, lo);
    var hi := all[n - 1].id;
    if lo < Last(log).id && n == |all| {
      BetweenTop(log, lo, hi);
    } else {
      AfterBounds(Init(log), lo);
      assert n <= |After(Init(log), lo)|;
      PrefixBetween(Init(log), lo, n);
      assert After(Init(log), lo)[n - 1] in Init(log);
    }
  }

  lemma {:induction false} AdvanceAscending(cursor: int, filed: seq<Cast>)
    requires Ascending(filed) && forall i :: 0 <= i < |filed| ==> filed[i].id > cursor
    ensures Advance(cursor, filed) == if filed == [] then cursor else Last(filed).id
  {
    if filed != [] {
      AdvanceAscending(cursor, Init(filed));
    }
  }

  lemma PostKeeps(l: Lane, c: Cast, cap: nat)
    requires l.Inv(cap) && Ascending(l.log + [c])
    ensures l.Post(c).Inv(cap)
  {
    assert Init(l.log + [c]) == l.log;
    if l.cursor != l.start {
      var i :| 0 <= i < |l.log| && l.log[i].id == l.cursor;
      assert (l.log + [c])[i].id < (l.log + [c])[|l.log|].id;
      assert l.Post(c).log[i].id == l.cursor;
    } else {
      BetweenEmpty(l.log, l.start, l.cursor);
      BetweenEmpty(l.log + [c], l.start, l.cursor);
    }
  }

  lemma ReadKeeps(l: Lane, cap: nat)
    requires l.Inv(cap)
    ensures l.ReadCursor().Inv(cap)
  {
  }

  lemma FetchKeeps(l: Lane, n: nat, cap: nat)
    requires l.Inv(cap) && l.since == l.cursor && n <= FETCH_LIMIT && n <= |After(l.log, l.since)|
    ensures l.Fetch(n).Inv(cap)
  {
  }

  /** Filing the first n casts after the cursor extends the window by just those. */
  lemma Extend(log: seq<Cast>, start: int, cursor: int, n: nat)
    requires Ascending(log) && start <= cursor && 0 < n <= |After(log, cursor)|
    ensures var all := After(log, cursor);
            && all[n - 1].id > cursor
            && (exists i :: 0 <= i < |log| && log[i].id == all[n - 1].id)
            && Between(log, start, all[n - 1].id) == Between(log, start, cursor) + all[..n]
            && Advance(cursor, all[..n]) == all[n - 1].id
  {
    var all := After(log, cursor);
    AfterBounds(log, cursor);
    PrefixBetween(log, cursor, n);
    BetweenJoin(log, start, cursor, all[n - 1].id);
    AdvanceAscending(cursor, all[..n]);
    assert all[n - 1] in log;
  }

  lemma FileKeeps(l: Lane, cap: nat)
    requires l.Inv(cap)
    ensures l.File(cap).Inv(cap)
  {
    var n := Filed(l.buffer, l.incoming, cap);
    var seen := Between(l.log, l.start, l.cursor);
    if n > 0 {
      var all := After(l.log, l.cursor);
      var filed := l.incoming[..n];
      assert filed == all[..n];
      Extend(l.log, l.start, l.cursor, n);
      assert l.delivered + (l.buffer + filed) == seen + filed;
    } else {
      assert l.buffer + l.incoming[..n] == l.buffer;
    }
  }

  lemma DrainKeeps(l: Lane, cap: nat)
    requires l.Inv(cap)
    ensures l.Drain().Inv(cap)
  {
    assert l.delivered + l.buffer + [] == l.delivered + l.buffer;
  }

  /** Exactly once and in order: what the players have seen is the hub's log
   *  from the start up to some point, and with the buffer empty up to the
   *  cursor; no cast at or below the cursor can come again. */
  lemma ExactlyOnce(l: Lane, cap: nat)
    requires l.Inv(cap)
    ensures l.delivered <= Between(l.log, l.start, l.cursor)
    ensures l.buffer == [] ==> l.delivered == Between(l.log, l.start, l.cursor)
    ensures Ascending(l.delivered)
    ensures forall c :: c in l.incoming ==> c.id > l.cursor && c !in l.delivered && c !in l.buffer
  {
    BetweenBounds(l.log, l.start, l.cursor);
    AfterBounds(l.log, l.cursor);
    var seen := Between(l.log, l.start, l.cursor);
    assert l.delivered == seen[..|l.delivered|];
    forall c | c in l.incoming ensures c.id > l.cursor && c !in seen {
      assert c in After(l.log, l.cursor);
    }
  }

  lemma {:induction false} BetweenBounds(log: seq<Cast>, lo: int, hi: int)
    requires Ascending(log)
    ensures Ascending(Between(log, lo, hi))
    ensures forall i :: 0 <= i < |Between(log, lo, hi)| ==>
      lo < Between(log, lo, hi)[i].id <= hi && Between(log, lo, hi)[i] in log
  {
    if log != [] { BetweenBounds(Init(log), lo, hi); }
  }
}
