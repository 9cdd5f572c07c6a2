/** The shared state of the federation worker and its critical sections. Each
 *  method is what the source does between taking and releasing the mutex. */
module Worker {
  import opened Sequences
  import opened Text
  import opened Outboxes
  import opened Buffers
  import Commits
  import Logins
  import Relay
  import Federation

  class FederationWorker {
    const commits: Buffer<Commits.Commit<Federation.Sheet>>
    const loads: Buffer<Logins.Load>
    const results: Buffer<Logins.Answer>
    const fallens: Buffer<Federation.Fallen>
    const voices: Buffer<Federation.Voice>
    const casts: Buffer<Relay.Cast>
    var castCursor: int
    var tideDelta: int
    ghost var tideGiven: seq<int>   // every delta ever queued
    ghost var tideTaken: seq<int>   // every batch the worker took
    var hubOk: bool
    var healthReady: bool

    ghost predicate Valid()
      reads this, commits, loads, results, fallens, voices, casts
    {
      && commits.Valid() && commits.slots.Length == Commits.MAX_PENDING_COMMITS
      && loads.Valid() && loads.slots.Length == Logins.MAX_PENDING_LOADS
      && results.Valid() && results.slots.Length == Logins.MAX_PENDING_LOADS
      && fallens.Valid() && fallens.slots.Length == Federation.MAX_PENDING_FALLEN
      && voices.Valid() && voices.slots.Length == Federation.MAX_PENDING_CASTS
      && casts.Valid() && casts.slots.Length == Relay.MAX_CASTS
    }

    constructor (cursor: int)
      ensures Valid()
      ensures commits.Contents() == [] && loads.Contents() == [] && results.Contents() == []
      ensures fallens.Contents() == [] && voices.Contents() == [] && casts.Contents() == []
      ensures castCursor == cursor && TideKept() && tideGiven == [] && !healthReady
    {
      commits := new Buffer(Commits.MAX_PENDING_COMMITS);
      loads := new Buffer(Logins.MAX_PENDING_LOADS);
      results := new Buffer(Logins.MAX_PENDING_LOADS);
      fallens := new Buffer(Federation.MAX_PENDING_FALLEN);
      voices := new Buffer(Federation.MAX_PENDING_CASTS);
      casts := new Buffer(Relay.MAX_CASTS);
      castCursor := cursor;
      tideDelta, tideGiven, tideTaken := 0, [], [];
      hubOk := false;
      healthReady := false;
    }

    /** commit_hub: overwrite the waiting sheet of the name, else queue it. */
    method CommitHub(c: Commits.Commit<Federation.Sheet>)
      requires Valid()
      modifies commits`count, commits.slots
      ensures Valid()
      ensures commits.Contents() == Commits.Coalesce(old(commits.Contents()), c, Commits.MAX_PENDING_COMMITS)
    {
      ghost var was := commits.Contents();
      for i := 0 to commits.count
        invariant commits.count == old(commits.count) && commits.slots[..] == old(commits.slots[..])
        invariant forall j :: 0 <= j < i ==> !SameName(was[j].name, c.name)
      {
        if SameName(commits.slots[i].name, c.name) {
          IsIndexOf(Commits.CommitIs(Fold(c.name)), was, i);
          commits.slots[i] := commits.slots[i].(sheet := c.sheet);
          return;
        }
      }
      commits.Push(c);
    }

    /** take_pending_commits. */
    method TakePendingCommits(cap: nat) returns (batch: seq<Commits.Commit<Federation.Sheet>>)
      requires Valid()
      modifies commits`count, commits.slots
      ensures Valid()
      ensures batch == FirstN(old(commits.Contents()), cap)
      ensures batch + commits.Contents() == old(commits.Contents())
    {
      batch := commits.Take(cap);
    }

    /** queue_char_load: refresh the waiting load of the name, else queue it. */
    method QueueCharLoad(load: Logins.Load)
      requires Valid()
      modifies loads`count, loads.slots
      ensures Valid()
      ensures loads.Contents() == Commits.Coalesce(old(loads.Contents()), load, Logins.MAX_PENDING_LOADS)
    {
      ghost var was := loads.Contents();
      for i := 0 to loads.count
        invariant loads.count == old(loads.count) && loads.slots[..] == old(loads.slots[..])
        invariant forall j :: 0 <= j < i ==> !SameName(was[j].name, load.name)
      {
        if SameName(loads.slots[i].name, load.name) {
          IsIndexOf(Commits.CommitIs(Fold(load.name)), was, i);
          loads.slots[i] := loads.slots[i].(sheet := load.sheet);
          return;
        }
      }
      loads.Push(load);
    }

    /** The tail of flush_pending_loads: file one answer for the event loop. */
    method PutLoadResult(answer: Logins.Answer)
      requires Valid()
      modifies results`count, results.slots
      ensures Valid()
      ensures results.Contents() == PushDropOldest(old(results.Contents()), answer, Logins.MAX_PENDING_LOADS)
    {
      results.Push(answer);
    }

    /** queue_fallen_remote. */
    method QueueFallen(fallen: Federation.Fallen)
      requires Valid()
      modifies fallens`count, fallens.slots
      ensures Valid()
      ensures fallens.Contents() == PushDropOldest(old(fallens.Contents()), fallen, Federation.MAX_PENDING_FALLEN)
    {
      fallens.Push(fallen);
    }

    /** queue_gridcast_remote: refused once the hub is known to be unreachable. */
    method QueueGridcast(voice: Federation.Voice) returns (accepted: bool)
      requires Valid()
      modifies voices`count, voices.slots
      ensures Valid()
      ensures accepted == !(healthReady && !hubOk)
      ensures voices.Contents() ==
              if accepted then PushDropOldest(old(voices.Contents()), voice, Federation.MAX_PENDING_CASTS)
              else old(voices.Contents())
    {
      if healthReady && !hubOk {
        return false;
      }
      voices.Push(voice);
      return true;
    }

    /** What was queued and not taken yet is the pending delta. */
    ghost predicate TideKept()
      reads this
    {
      Sum(tideGiven) == Sum(tideTaken) + tideDelta
    }

    /** queue_tide_shift, the part under the mutex. */
    method QueueTideShift(delta: int)
      requires TideKept()
      modifies this`tideDelta, this`tideGiven
      ensures TideKept() && tideGiven == old(tideGiven) + [delta]
    {
      SumSnoc(tideGiven, delta);
      tideDelta := tideDelta + delta;
      tideGiven := tideGiven + [delta];
    }

    /** The tide part of flush_pending_writes' critical section: with this batch the
     *  worker has taken exactly the sum of all that was ever queued. */
    method TakeTide() returns (delta: int)
      requires TideKept()
      modifies this`tideDelta, this`tideTaken
      ensures TideKept() && tideTaken == old(tideTaken) + [delta] && Sum(tideTaken) == Sum(tideGiven)
    {
      SumSnoc(tideTaken, tideDelta);
      delta := tideDelta;
      tideDelta := 0;
      tideTaken := tideTaken + [delta];
    }

    /** federation_refresh_caches: file a fetched batch until the buffer is full. */
    method FileCasts(incoming: seq<Relay.Cast>)
      requires Valid()
      modifies this`castCursor, casts`count, casts.slots
      ensures Valid()
      ensures var n := Relay.Filed(old(casts.Contents()), incoming, Relay.MAX_CASTS);
              && casts.Contents() == old(casts.Contents()) + incoming[..n]
              && castCursor == Relay.Advance(old(castCursor), incoming[..n])
    {
      ghost var was := casts.Contents();
      for i := 0 to |incoming|
        invariant Valid()
        invariant casts.Contents() == was + incoming[..i]
        invariant castCursor == Relay.Advance(old(castCursor), incoming[..i])
      {
        if casts.count >= casts.slots.Length {
          return;
        }
        casts.slots[casts.count] := incoming[i];
        casts.count := casts.count + 1;
        assert Init(incoming[..i + 1]) == incoming[..i];
        if incoming[i].id > castCursor {
          castCursor := incoming[i].id;
        }
      }
      assert incoming[..|incoming|] == incoming;
    }

    /** The drain of poll_gridcasts: everything buffered leaves in order. */
    method DrainCasts() returns (batch: seq<Relay.Cast>)
      requires Valid()
      modifies casts`count, casts.slots
      ensures Valid()
      ensures batch == old(casts.Contents()) && casts.Contents() == []
    {
      batch := casts.slots[..casts.count];
      casts.count := 0;
    }
  }
}
