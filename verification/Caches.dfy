/** The gold left in rooms for whoever comes next. */
module Caches {
  import opened Sequences
  import World

  const MAX_CACHE_ROOMS: nat := 32

  datatype Cache = Cache(room: string, gold: int)

  function CacheAt(room: string): Cache -> bool {
    (c: Cache) => c.room == room
  }

  /** add_cache: a new room finds no place in a full table, and its gold is gone. */
  function AddCache(caches: seq<Cache>, room: string, amount: int): seq<Cache> {
    var i := IndexOf(CacheAt(room), caches);
    if i < |caches| then caches[i := Cache(room, caches[i].gold + amount)]
    else if |caches| >= MAX_CACHE_ROOMS then caches
    else caches + [Cache(room, amount)]
  }

  /** take_cache: the room's gold, and the table without it. */
  function TakeCache(caches: seq<Cache>, room: string): (int, seq<Cache>) {
    var i := IndexOf(CacheAt(room), caches);
    if i < |caches| then (caches[i].gold, caches[i := Cache(room, 0)]) else (0, caches)
  }

  function Golds(caches: seq<Cache>): seq<int> {
    seq(|caches|, i requires 0 <= i < |caches| => caches[i].gold)
  }

  function Cached(caches: seq<Cache>): int {
    Sum(Golds(caches))
  }

  function Places(caches: seq<Cache>): seq<string> {
    seq(|caches|, i requires 0 <= i < |caches| => caches[i].room)
  }

  /** Rooms of the table, each cached in once, and never owing anything. */
  ghost predicate Kept(caches: seq<Cache>) {
    && Distinct(Places(caches))
    && (forall i :: 0 <= i < |caches| ==> World.IsRoom(caches[i].room) && 0 <= caches[i].gold)
  }

  /** A kept table always has a place for one more room. */
  lemma NeverFull(caches: seq<Cache>)
    requires Kept(caches)
    ensures |caches| <= 24
  {
    forall p | p in Places(caches) ensures World.IsRoom(p) {
      var i :| 0 <= i < |caches| && Places(caches)[i] == p;
    }
    World.AtMostTwentyFour(Places(caches));
  }

  lemma {:induction false} SumUpdate(s: seq<int>, i: nat, x: int)
    requires i < |s|
    ensures Sum(s[i := x]) == Sum(s) - s[i] + x
  {
    if i < |s| - 1 {
      assert Init(s[i := x]) == Init(s)[i := x];
      SumUpdate(Init(s), i, x);
    } else {
      assert Init(s[i := x]) == Init(s);
    }
  }

  lemma CachedUpdate(caches: seq<Cache>, i: nat, gold: int)
    requires i < |caches|
    ensures Cached(caches[i := Cache(caches[i].room, gold)]) == Cached(caches) - caches[i].gold + gold
  {
    assert Golds(caches[i := Cache(caches[i].room, gold)]) == Golds(caches)[i := gold];
    SumUpdate(Golds(caches), i, gold);
  }

  lemma CachedAppend(caches: seq<Cache>, c: Cache)
    ensures Cached(caches + [c]) == Cached(caches) + c.gold
    ensures Places(caches + [c]) == Places(caches) + [c.room]
  {
    assert Golds(caches + [c]) == Golds(caches) + [c.gold];
    SumSnoc(Golds(caches), c.gold);
  }

  lemma NotAmong(caches: seq<Cache>, room: string)
    requires IndexOf(CacheAt(room), caches) == |caches|
    ensures room !in Places(caches)
  {
    forall j | 0 <= j < |caches| ensures Places(caches)[j] != room {
      assert !CacheAt(room)(caches[j]);
    }
  }

  /** In a room of the table nothing put down is lost: the drop of add_cache does not happen. */
  lemma AddKeeps(caches: seq<Cache>, room: string, amount: int)
    requires Kept(caches) && World.IsRoom(room) && 0 <= amount
    ensures Kept(AddCache(caches, room, amount))
    ensures Cached(AddCache(caches, room, amount)) == Cached(caches) + amount
  {
    hide World.IsRoom;
    NeverFull(caches);
    var i := IndexOf(CacheAt(room), caches);
    var r := AddCache(caches, room, amount);
    if i < |caches| {
      assert Places(r) == Places(caches);
      CachedUpdate(caches, i, caches[i].gold + amount);
    } else {
      hide Cached, Places;
      NotAmong(caches, room);
      CachedAppend(caches, Cache(room, amount));
    }
  }

  lemma TakeKeeps(caches: seq<Cache>, room: string)
    requires Kept(caches)
    ensures Kept(TakeCache(caches, room).1)
    ensures Cached(TakeCache(caches, room).1) == Cached(caches) - TakeCache(caches, room).0
    ensures 0 <= TakeCache(caches, room).0
  {
    hide World.IsRoom;
    var i := IndexOf(CacheAt(room), caches);
    var r := TakeCache(caches, room);
    if i < |caches| {
      assert Places(r.1) == Places(caches);
      CachedUpdate(caches, i, 0);
    }
  }

  /** cache_gold. */
  function GoldAt(caches: seq<Cache>, room: string): int {
    TakeCache(caches, room).0
  }

  /** Gold put down in a room is found there, and nowhere else. */
  lemma AddIsFound(caches: seq<Cache>, room: string, amount: int, other: string)
    requires Kept(caches) && World.IsRoom(room) && other != room
    ensures GoldAt(AddCache(caches, room, amount), room) == GoldAt(caches, room) + amount
    ensures GoldAt(AddCache(caches, room, amount), other) == GoldAt(caches, other)
  {
    hide World.IsRoom;
    NeverFull(caches);
    var r := AddCache(caches, room, amount);
    var i := IndexOf(CacheAt(room), caches);
    SamePlace(caches, r, other);
    if i < |caches| {
      IsIndexOf(CacheAt(room), r, i);
    } else {
      forall j | 0 <= j < |caches| ensures !CacheAt(room)(r[j]) {
        assert r[j] == caches[j];
      }
      IsIndexOf(CacheAt(room), r, |caches|);
    }
  }

  /** Gathering empties the room and no other. */
  lemma TakeEmpties(caches: seq<Cache>, room: string, other: string)
    requires other != room
    ensures GoldAt(TakeCache(caches, room).1, room) == 0
    ensures GoldAt(TakeCache(caches, room).1, other) == GoldAt(caches, other)
  {
    var i := IndexOf(CacheAt(room), caches);
    var r := TakeCache(caches, room).1;
    if i < |caches| {
      IsIndexOf(CacheAt(room), r, i);
      SamePlace(caches, r, other);
    }
  }

  /** A table that differs only at one room reads the same at another. */
  lemma SamePlace(caches: seq<Cache>, r: seq<Cache>, other: string)
    requires |caches| <= |r|
    requires forall j :: 0 <= j < |caches| ==> r[j] == caches[j] || (r[j].room == caches[j].room && r[j].room != other)
    requires forall j :: |caches| <= j < |r| ==> r[j].room != other
    ensures GoldAt(r, other) == GoldAt(caches, other)
  {
    var i := IndexOf(CacheAt(other), caches);
    forall j | 0 <= j < i ensures !CacheAt(other)(r[j]) {
      assert !CacheAt(other)(caches[j]);
    }
    if i < |caches| {
      IsIndexOf(CacheAt(other), r, i);
    } else {
      NoneIs(CacheAt(other), r);
    }
  }

  /** What add_cache loses is exactly a new room's gold at a full table. */
  lemma AddLosesIff(caches: seq<Cache>, room: string, amount: int)
    requires amount != 0
    ensures Cached(AddCache(caches, room, amount)) == Cached(caches) + amount
            <==> room in Places(caches) || |caches| < MAX_CACHE_ROOMS
  {
    var i := IndexOf(CacheAt(room), caches);
    if i < |caches| {
      assert Places(caches)[i] == room;
      CachedUpdate(caches, i, caches[i].gold + amount);
    } else {
      NotAmong(caches, room);
      CachedAppend(caches, Cache(room, amount));
    }
  }

  /** caches[32] with its count. */
  class CacheTable {
    const slots: array<Cache>
    var count: nat

    ghost predicate Valid()
      reads this
    {
      slots.Length == MAX_CACHE_ROOMS && count <= MAX_CACHE_ROOMS
    }

    ghost function Table(): seq<Cache>
      reads this, slots
      requires Valid()
    {
      slots[..count]
    }

    constructor ()
      ensures Valid() && fresh(slots) && Table() == []
    {
      slots := new Cache[MAX_CACHE_ROOMS](_ => Cache("", 0));
      count := 0;
    }

    /** The scan both operations start with. */
    method Scan(room: string) returns (i: nat)
      requires Valid()
      ensures i == IndexOf(CacheAt(room), Table())
    {
      i := 0;
      while i < count
        invariant i <= count
        invariant forall j :: 0 <= j < i ==> !CacheAt(room)(slots[j])
      {
        if slots[i].room == room {
          IsIndexOf(CacheAt(room), Table(), i);
          return;
        }
        i := i + 1;
      }
      NoneIs(CacheAt(room), Table());
    }

    method Add(room: string, amount: int)
      requires Valid()
      modifies this`count, slots
      ensures Valid() && Table() == AddCache(old(Table()), room, amount)
    {
      var i := Scan(room);
      if i < count {
        slots[i] := slots[i].(gold := slots[i].gold + amount);
        return;
      }
      if count >= MAX_CACHE_ROOMS {
        return;
      }
      slots[count] := Cache(room, amount);
      count := count + 1;
    }

    method Take(room: string) returns (gold: int)
      requires Valid()
      modifies slots
      ensures Valid() && (gold, Table()) == TakeCache(old(Table()), room)
    {
      var i := Scan(room);
      if i < count {
        gold := slots[i].gold;
        slots[i] := slots[i].(gold := 0);
        return;
      }
      return 0;
    }
  }
}
