/** Rescues: drawing refugee names, the world's roll, and each player's own list. */
module Rescue {
  import opened Sequences
  import opened Text
  import opened Buffers

  const MAX_RESCUED: nat := 64
  const MAX_SAVED_SOULS: nat := 24
  const MAX_SAVED_PLAYERS: nat := 32
  const POOL: nat := 16
  const NAMES_KEPT: nat := 8

  /** One soul pulled out of the cages. */
  datatype Freed = Freed(name: string, savedBy: string)

  const NAME_SIZE: nat := 32

  const REFUGEES: seq<string> := [
    "Sera", "Tomas", "old Wick", "Bex", "Halden", "the Marsh twins", "Ona", "Pavel",
    "little Resh", "Caro", "Dunne", "Yusa", "the smith's boy", "Mira", "Teo", "Nell"]

  /** No two refugees share a name, and every name fits its buffer. */
  lemma RefugeesDiffer()
    ensures |REFUGEES| == POOL && Distinct(REFUGEES) && forall i :: 0 <= i < |REFUGEES| ==> |REFUGEES[i]| < NAME_SIZE
  {
  }

  /** pick_refugee_names: a shuffle driven by arbitrary random numbers, cut to n; the
   *  names it copies out are different refugees'. */
  method PickRefugees(n: nat, random: seq<nat>) returns (names: seq<string>)
    requires |random| == POOL + 1
    ensures |names| == if n < POOL then n else POOL
    ensures Distinct(names) && forall name :: name in names ==> name in REFUGEES
  {
    hide REFUGEES;
    var indices := new nat[POOL](i => i);
    var i := POOL;
    while i > 1
      invariant 1 <= i <= POOL
      invariant Shuffled(indices[..])
    {
      var j := random[i] % i;
      SwapKeeps(indices[..], i - 1, j);
      ghost var was := indices[..];
      indices[i - 1], indices[j] := indices[j], indices[i - 1];
      assert indices[..] == was[i - 1 := was[j]][j := was[i - 1]];
      i := i - 1;
    }
    RefugeesDiffer();
    names := [];
    for k := 0 to if n < POOL then n else POOL
      invariant |names| == k && forall m :: 0 <= m < k ==> names[m] == REFUGEES[indices[m]]
    {
      names := names + [Clip(REFUGEES[indices[k]], NAME_SIZE)];
    }
  }

  /** The positions of the table, each once, in some order. */
  ghost predicate Shuffled(s: seq<nat>) {
    |s| == POOL && Distinct(s) && forall i :: 0 <= i < |s| ==> s[i] < POOL
  }

  lemma SwapKeeps(s: seq<nat>, a: nat, b: nat)
    requires a < |s| && b < |s| && Shuffled(s)
    ensures Shuffled(s[a := s[b]][b := s[a]])
  {
  }

  /** The names one player is remembered for, newest first. */
  datatype Shelf = Shelf(player: string, names: seq<string>)

  /** The souls a player freed, in order. */
  function FreedBy(history: seq<Freed>, player: string): seq<string> {
    if history == [] then []
    else FreedBy(Init(history), player) + if SameName(Last(history).savedBy, player) then [Last(history).name] else []
  }

  /** A batch of names pulled out by one player, as entries of the roll. */
  function Batch(names: seq<string>, savedBy: string): seq<Freed> {
    if names == [] then [] else Batch(Init(names), savedBy) + [Freed(Last(names), savedBy)]
  }

  /** The first row kept for a player, or the number of rows. */
  function Slot(shelves: seq<Shelf>, player: string): (s: nat)
    ensures s <= |shelves|
    ensures s < |shelves| ==> SameName(shelves[s].player, player)
    ensures forall i :: 0 <= i < s ==> !SameName(shelves[i].player, player)
  {
    IndexOf((shelf: Shelf) => SameName(shelf.player, player), shelves)
  }

  /** remember_saved's lookup: a new player takes a row while there is one. */
  function Found(shelves: seq<Shelf>, player: string): seq<Shelf> {
    if Slot(shelves, player) < |shelves| || |shelves| >= MAX_SAVED_PLAYERS then shelves
    else shelves + [Shelf(player, [])]
  }

  /** One name onto the front of one row. */
  function Shelve(shelves: seq<Shelf>, s: nat, name: string): (r: seq<Shelf>)
    requires s < |shelves|
    ensures |r| == |shelves|
  {
    shelves[s := Shelf(shelves[s].player, Enroll(shelves[s].names, name, MAX_SAVED_SOULS))]
  }

  function ShelveAll(shelves: seq<Shelf>, s: nat, names: seq<string>): (r: seq<Shelf>)
    requires s < |shelves|
    ensures |r| == |shelves|
  {
    if names == [] then shelves else Shelve(ShelveAll(shelves, s, Init(names)), s, Last(names))
  }

  /** remember_saved: nothing is remembered for a player who found the table full. */
  function Remember(shelves: seq<Shelf>, player: string, names: seq<string>): seq<Shelf> {
    var found := Found(shelves, player);
    var s := Slot(found, player);
    if s < |found| then ShelveAll(found, s, names) else found
  }

  /** Rows belong to different players, each row is the recent end of what its
   *  player freed, and only a full table leaves anybody out. */
  ghost predicate Recent(shelves: seq<Shelf>, saved: seq<Freed>) {
    && |shelves| <= MAX_SAVED_PLAYERS
    && (forall i, j :: 0 <= i < j < |shelves| ==> !SameName(shelves[i].player, shelves[j].player))
    && (forall i :: 0 <= i < |shelves| ==>
          shelves[i].names == FirstN(Reverse(FreedBy(saved, shelves[i].player)), MAX_SAVED_SOULS))
    && (|shelves| < MAX_SAVED_PLAYERS ==> forall f :: f in saved ==> Slot(shelves, f.savedBy) < |shelves|)
  }

  lemma FreedBySnoc(history: seq<Freed>, f: Freed, player: string)
    ensures FreedBy(history + [f], player) ==
            FreedBy(history, player) + if SameName(f.savedBy, player) then [f.name] else []
  {
    assert Init(history + [f]) == history;
  }

  lemma {:induction false} FreedByNone(history: seq<Freed>, player: string)
    requires forall f :: f in history ==> !SameName(f.savedBy, player)
    ensures FreedBy(history, player) == []
  {
    if history != [] {
      assert Last(history) in history;
      FreedByNone(Init(history), player);
    }
  }

  lemma StillTracked(shelves: seq<Shelf>, last: Shelf, player: string)
    ensures Slot(shelves, player) < |shelves| || SameName(last.player, player)
            ==> Slot(shelves + [last], player) <= |shelves|
    ensures Slot(shelves + [last], player) == |shelves| + 1
            ==> Slot(shelves, player) == |shelves| && !SameName(last.player, player)
  {
    assert (shelves + [last])[|shelves|] == last;
    var s := Slot(shelves, player);
    assert s < |shelves| ==> (shelves + [last])[s] == shelves[s];
  }

  lemma NothingFreed(shelves: seq<Shelf>, saved: seq<Freed>, player: string)
    requires forall f :: f in saved ==> Slot(shelves, f.savedBy) < |shelves|
    requires Slot(shelves, player) == |shelves|
    ensures FirstN(Reverse(FreedBy(saved, player)), MAX_SAVED_SOULS) == []
  {
    forall f | f in saved ensures !SameName(f.savedBy, player) {
      assert SameName(shelves[Slot(shelves, f.savedBy)].player, f.savedBy);
    }
    FreedByNone(saved, player);
  }

  lemma FoundKeeps(shelves: seq<Shelf>, saved: seq<Freed>, player: string)
    requires Recent(shelves, saved)
    ensures Recent(Found(shelves, player), saved)
    ensures Slot(Found(shelves, player), player) == |Found(shelves, player)| ==>
              Found(shelves, player) == shelves && |shelves| == MAX_SAVED_PLAYERS
  {
    hide FreedBy, FirstN, Reverse;
    if Slot(shelves, player) == |shelves| < MAX_SAVED_PLAYERS {
      NothingFreed(shelves, saved, player);
      forall f | f in saved ensures Slot(Found(shelves, player), f.savedBy) < |shelves| + 1 {
        StillTracked(shelves, Shelf(player, []), f.savedBy);
      }
      StillTracked(shelves, Shelf(player, []), player);
    }
  }

  /** A name the table has no row for changes nothing it promises. */
  lemma SkipKeeps(shelves: seq<Shelf>, saved: seq<Freed>, f: Freed)
    requires Recent(shelves, saved)
    requires |shelves| == MAX_SAVED_PLAYERS && Slot(shelves, f.savedBy) == |shelves|
    ensures Recent(shelves, saved + [f])
  {
    forall i | 0 <= i < |shelves| ensures FreedBy(saved + [f], shelves[i].player) == FreedBy(saved, shelves[i].player) {
      FreedBySnoc(saved, f, shelves[i].player);
    }
  }

  lemma ShelveKeeps(shelves: seq<Shelf>, saved: seq<Freed>, s: nat, f: Freed)
    requires Recent(shelves, saved)
    requires s < |shelves| && SameName(shelves[s].player, f.savedBy)
    ensures Recent(Shelve(shelves, s, f.name), saved + [f])
  {
    var t := Shelve(shelves, s, f.name);
    forall i | 0 <= i < |t|
      ensures t[i].names == FirstN(Reverse(FreedBy(saved + [f], t[i].player)), MAX_SAVED_SOULS)
    {
      FreedBySnoc(saved, f, shelves[i].player);
      if i == s {
        RollIsRecentHistory(FreedBy(saved, shelves[s].player), f.name, MAX_SAVED_SOULS);
      } else {
        assert !SameName(shelves[i].player, shelves[s].player) by {
          assert i < s ==> !SameName(shelves[i].player, shelves[s].player);
          assert s < i ==> !SameName(shelves[s].player, shelves[i].player);
        }
        assert !SameName(f.savedBy, shelves[i].player);
        assert FreedBy(saved, shelves[i].player) + [] == FreedBy(saved, shelves[i].player);
        assert t[i] == shelves[i];
      }
    }
    forall g | g in saved + [f] && |shelves| < MAX_SAVED_PLAYERS ensures Slot(t, g.savedBy) < |t| {
      var i := if g == f then s else Slot(shelves, g.savedBy);
      assert SameName(t[i].player, g.savedBy);
    }
  }

  lemma {:induction false} ShelveAllKeeps(shelves: seq<Shelf>, saved: seq<Freed>, s: nat, names: seq<string>, player: string)
    requires Recent(shelves, saved)
    requires s < |shelves| && SameName(shelves[s].player, player)
    ensures Recent(ShelveAll(shelves, s, names), saved + Batch(names, player))
    ensures ShelveAll(shelves, s, names)[s].player == shelves[s].player
  {
    if names == [] {
      assert saved + [] == saved;
    } else {
      ShelveAllKeeps(shelves, saved, s, Init(names), player);
      var f := Freed(Last(names), player);
      ShelveKeeps(ShelveAll(shelves, s, Init(names)), saved + Batch(Init(names), player), s, f);
      assert saved + Batch(Init(names), player) + [f] == saved + (Batch(Init(names), player) + [f]);
    }
  }

  lemma {:induction false} SkipAllKeeps(shelves: seq<Shelf>, saved: seq<Freed>, names: seq<string>, player: string)
    requires Recent(shelves, saved)
    requires |shelves| == MAX_SAVED_PLAYERS && Slot(shelves, player) == |shelves|
    ensures Recent(shelves, saved + Batch(names, player))
  {
    if names == [] {
      assert saved + [] == saved;
    } else {
      SkipAllKeeps(shelves, saved, Init(names), player);
      var f := Freed(Last(names), player);
      SkipKeeps(shelves, saved + Batch(Init(names), player), f);
      assert saved + Batch(Init(names), player) + [f] == saved + (Batch(Init(names), player) + [f]);
    }
  }

  /** Whatever batch a player frees, the table goes on holding the recent end of
   *  what each of its players freed. */
  lemma RememberKeeps(shelves: seq<Shelf>, saved: seq<Freed>, player: string, names: seq<string>)
    requires Recent(shelves, saved)
    ensures Recent(Remember(shelves, player, names), saved + Batch(names, player))
  {
    FoundKeeps(shelves, saved, player);
    var found := Found(shelves, player);
    var s := Slot(found, player);
    if s < |found| {
      ShelveAllKeeps(found, saved, s, names, player);
    } else {
      SkipAllKeeps(found, saved, names, player);
    }
  }

  /** One call of emit_rescued. */
  datatype Emission = Emission(names: seq<string>, savedBy: string)

  /** Everything a run of emissions put on the roll. */
  function Made(run: seq<Emission>): seq<Freed> {
    if run == [] then [] else Made(Init(run)) + Batch(Last(run).names, Last(run).savedBy)
  }

  /** What it offered to the players' own rows: eight names a call at most. */
  function Offered(run: seq<Emission>): seq<Freed> {
    if run == [] then [] else Offered(Init(run)) + Batch(FirstN(Last(run).names, NAMES_KEPT), Last(run).savedBy)
  }

  function EnrollAll(roll: seq<Freed>, batch: seq<Freed>): seq<Freed> {
    if batch == [] then roll else Enroll(EnrollAll(roll, Init(batch)), Last(batch), MAX_RESCUED)
  }

  function Roll(run: seq<Emission>): seq<Freed> {
    if run == [] then [] else EnrollAll(Roll(Init(run)), Batch(Last(run).names, Last(run).savedBy))
  }

  function Shelves(run: seq<Emission>): seq<Shelf> {
    if run == [] then []
    else Remember(Shelves(Init(run)), Last(run).savedBy, FirstN(Last(run).names, NAMES_KEPT))
  }

  lemma {:induction false} EnrollAllIsRecent(history: seq<Freed>, batch: seq<Freed>)
    ensures EnrollAll(FirstN(Reverse(history), MAX_RESCUED), batch) == FirstN(Reverse(history + batch), MAX_RESCUED)
  {
    hide Enroll, FirstN, Reverse;
    if batch == [] {
      assert history + [] == history;
    } else {
      EnrollAllIsRecent(history, Init(batch));
      RollIsRecentHistory(history + Init(batch), Last(batch), MAX_RESCUED);
      assert history + batch == history + Init(batch) + [Last(batch)];
    }
  }

  /** After any run the roll is the newest 64 entries ever made, and the table
   *  holds the newest 24 names of each player it has a row for. */
  lemma {:induction false} RollsAreRecent(run: seq<Emission>)
    ensures Roll(run) == FirstN(Reverse(Made(run)), MAX_RESCUED)
    ensures Recent(Shelves(run), Offered(run))
  {
    if run != [] {
      hide EnrollAll, Batch, Remember, Recent;
      RollsAreRecent(Init(run));
      EnrollAllIsRecent(Made(Init(run)), Batch(Last(run).names, Last(run).savedBy));
      RememberKeeps(Shelves(Init(run)), Offered(Init(run)), Last(run).savedBy, FirstN(Last(run).names, NAMES_KEPT));
    }
  }

  /** The tables of the server: rescued[64], and saved[32] with 24 names each. */
  class Rolls {
    const roll: Buffer<Freed>
    const players: array<string>
    const counts: array<nat>
    const names: array2<string>
    var playerCount: nat

    ghost predicate Valid()
      reads this, roll, counts
    {
      roll.Valid() && roll.slots.Length == MAX_RESCUED && Shaped()
    }

    ghost predicate Shaped()
      reads this, counts
    {
      && players.Length == counts.Length == MAX_SAVED_PLAYERS
      && names.Length0 == MAX_SAVED_PLAYERS && names.Length1 == MAX_SAVED_SOULS
      && playerCount <= MAX_SAVED_PLAYERS
      && (forall i :: 0 <= i < playerCount ==> counts[i] <= MAX_SAVED_SOULS)
    }

    /** The list kept for the i-th tracked player, newest first. */
    ghost function Row(i: nat): (r: seq<string>)
      reads counts, names
      requires i < counts.Length && i < names.Length0 && counts[i] <= names.Length1
      ensures |r| == counts[i] && forall j :: 0 <= j < |r| ==> r[j] == names[i, j]
    {
      var n := counts[i];
      seq(n, j requires 0 <= j < n && i < names.Length0 && j < names.Length1 reads names => names[i, j])
    }

    ghost function View(): (v: seq<Shelf>)
      reads this, counts, names, players
      requires Shaped()
      ensures |v| == playerCount
      ensures forall i :: 0 <= i < |v| ==> v[i] == Shelf(players[i], Row(i))
    {
      seq(playerCount, i requires 0 <= i < playerCount && Shaped() reads this, counts, names, players =>
        Shelf(players[i], Row(i)))
    }

    constructor ()
      ensures Valid() && roll.Contents() == [] && View() == []
    {
      roll := new Buffer(MAX_RESCUED);
      players := new string[MAX_SAVED_PLAYERS](_ => "");
      counts := new nat[MAX_SAVED_PLAYERS](_ => 0);
      names := new string[MAX_SAVED_PLAYERS, MAX_SAVED_SOULS]((_, _) => "");
      playerCount := 0;
    }

    /** A zeroed row for a new player. */
    method AddPlayer(player: string)
      requires Shaped() && playerCount < MAX_SAVED_PLAYERS
      modifies this`playerCount, players, counts
      ensures Shaped() && View() == old(View()) + [Shelf(player, [])]
    {
      ghost var n := playerCount;
      players[playerCount] := player;
      counts[playerCount] := 0;
      playerCount := playerCount + 1;
      assert forall i :: 0 <= i < n ==> Row(i) == old(Row(i)) && players[i] == old(players[i]);
      assert Row(n) == [];
    }

    /** remember_saved's lookup. */
    method FindOrTrack(player: string) returns (s: nat)
      requires Shaped()
      modifies this`playerCount, players, counts
      ensures Shaped() && View() == Found(old(View()), player)
      ensures s == Slot(View(), player)
    {
      s := 0;
      ghost var shelves := View();
      while s < playerCount
        invariant s <= playerCount
        invariant forall i :: 0 <= i < s ==> !SameName(shelves[i].player, player)
      {
        if SameName(players[s], player) {
          FirstSlot(shelves, player, s);
          return;
        }
        s := s + 1;
      }
      NoSlot(shelves, player);
      if playerCount < MAX_SAVED_PLAYERS {
        AddPlayer(player);
        FirstSlot(View(), player, s);
      }
    }

    /** The insert of remember_saved for one name: its row moves up, the last name out when full. */
    method InsertName(s: nat, name: string)
      requires Shaped() && s < playerCount
      modifies counts, names
      ensures Shaped()
      ensures Row(s) == Enroll(old(Row(s)), name, MAX_SAVED_SOULS)
      ensures forall i :: 0 <= i < playerCount && i != s ==> counts[i] == old(counts[i])
      ensures forall i, j :: 0 <= i < playerCount && i != s && 0 <= j < MAX_SAVED_SOULS ==> names[i, j] == old(names[i, j])
    {
      ghost var row := Row(s);
      if counts[s] >= MAX_SAVED_SOULS {
        counts[s] := MAX_SAVED_SOULS - 1;
      }
      var n := counts[s];
      if n > 0 {
        MoveUp(s, n);
      }
      names[s, 0] := name;
      counts[s] := n + 1;
      Inserted(row, name, Row(s));
    }

    /** memmove of the first n names one place up. */
    method MoveUp(s: nat, n: nat)
      requires Shaped() && s < playerCount && n < MAX_SAVED_SOULS
      modifies names
      ensures forall j {:trigger names[s, j]} :: 1 <= j <= n ==> names[s, j] == old(names[s, j - 1])
      ensures forall i, j :: 0 <= i < playerCount && i != s && 0 <= j < MAX_SAVED_SOULS ==> names[i, j] == old(names[i, j])
    {
      forall j | 1 <= j <= n { names[s, j] := names[s, j - 1]; }
    }

    method PushName(s: nat, name: string)
      requires Shaped() && s < playerCount
      modifies counts, names
      ensures Shaped() && View() == Shelve(old(View()), s, name)
    {
      InsertName(s, name);
      forall i | 0 <= i < playerCount && i != s ensures Row(i) == old(Row(i)) {
      }
    }

    /** remember_saved. */
    method RememberSaved(player: string, freed: seq<string>)
      requires Shaped()
      modifies this`playerCount, players, counts, names
      ensures Shaped() && View() == Remember(old(View()), player, freed)
    {
      var s := FindOrTrack(player);
      ghost var found := View();
      if s >= playerCount {
        return;
      }
      hide Found, Slot, Shelve, ShelveAll;
      for i := 0 to |freed|
        invariant Shaped() && s < playerCount && View() == ShelveAll(found, s, freed[..i])
      {
        PushName(s, freed[i]);
        ShelveStep(found, s, freed, i);
      }
      assert freed[..|freed|] == freed;
    }

    /** emit_rescued: the whole batch onto the roll, its first eight names onto the player's own row. */
    method EmitRescued(freed: seq<string>, savedBy: string)
      requires Valid()
      modifies this`playerCount, roll`count, roll.slots, players, counts, names
      ensures Valid()
      ensures roll.Contents() == EnrollAll(old(roll.Contents()), Batch(freed, savedBy))
      ensures View() == Remember(old(View()), savedBy, FirstN(freed, NAMES_KEPT))
    {
      RollBatch(freed, savedBy);
      RememberSaved(savedBy, FirstN(freed, NAMES_KEPT));
    }

    /** The record_rescued calls of emit_rescued. */
    method RollBatch(freed: seq<string>, savedBy: string)
      requires Valid()
      modifies roll`count, roll.slots
      ensures Valid() && roll.Contents() == EnrollAll(old(roll.Contents()), Batch(freed, savedBy))
    {
      ghost var before := roll.Contents();
      for i := 0 to |freed|
        invariant Valid() && roll.Contents() == EnrollAll(before, Batch(freed[..i], savedBy))
      {
        hide EnrollAll, Batch, Enroll;
        roll.PushFront(Freed(freed[i], savedBy));
        EnrollStep(before, freed, i, savedBy);
      }
      assert freed[..|freed|] == freed;
    }
  }

  lemma FirstSlot(shelves: seq<Shelf>, player: string, s: nat)
    requires s < |shelves| && SameName(shelves[s].player, player)
    requires forall i :: 0 <= i < s ==> !SameName(shelves[i].player, player)
    ensures Slot(shelves, player) == s
  {
  }

  lemma Inserted(row: seq<string>, name: string, r: seq<string>)
    requires |row| <= MAX_SAVED_SOULS
    requires |r| == if |row| < MAX_SAVED_SOULS then |row| + 1 else MAX_SAVED_SOULS
    requires r[0] == name
    requires forall j {:trigger r[j]} :: 1 <= j < |r| ==> r[j] == row[j - 1]
    ensures r == Enroll(row, name, MAX_SAVED_SOULS)
  {
  }

  lemma NoSlot(shelves: seq<Shelf>, player: string)
    requires forall i :: 0 <= i < |shelves| ==> !SameName(shelves[i].player, player)
    ensures Slot(shelves, player) == |shelves|
  {
  }

  lemma ShelveStep(shelves: seq<Shelf>, s: nat, names: seq<string>, i: nat)
    requires s < |shelves| && i < |names|
    ensures ShelveAll(shelves, s, names[..i + 1]) == Shelve(ShelveAll(shelves, s, names[..i]), s, names[i])
  {
    hide Shelve;
    assert Init(names[..i + 1]) == names[..i];
  }

  lemma EnrollStep(roll: seq<Freed>, names: seq<string>, i: nat, savedBy: string)
    requires i < |names|
    ensures EnrollAll(roll, Batch(names[..i + 1], savedBy)) ==
            Enroll(EnrollAll(roll, Batch(names[..i], savedBy)), Freed(names[i], savedBy), MAX_RESCUED)
  {
    hide Enroll;
    assert Init(names[..i + 1]) == names[..i];
    var b := Batch(names[..i], savedBy);
    assert Init(b + [Freed(names[i], savedBy)]) == b;
  }
}
