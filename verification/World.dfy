/** The room table and the living things in it. */
module World {
  import opened Characters
  import opened Sequences
  import opened Text

  datatype Exit = Exit(direction: string, destination: string)
  datatype Room = Room(id: string, outdoors: bool, exits: seq<Exit>)

  function Rooms(): seq<Room> {
    [
      Room("nexus", false, [Exit("north", "market"), Exit("east", "workshop"), Exit("down", "tunnels"), Exit("west", "tavern")]),
      Room("tavern", false, [Exit("east", "nexus")]),
      Room("market", false, [Exit("south", "nexus"), Exit("north", "holding_pit")]),
      Room("holding_pit", false, [Exit("south", "market")]),
      Room("workshop", false, [Exit("west", "nexus"), Exit("up", "roof")]),
      Room("roof", true, [Exit("down", "workshop"), Exit("north", "dunes"), Exit("west", "coil-yard")]),
      Room("tunnels", false, [Exit("up", "nexus"), Exit("down", "sump")]),
      Room("sump", false, [Exit("up", "tunnels"), Exit("down", "floodgate")]),
      Room("floodgate", false, [Exit("up", "sump"), Exit("north", "coldrow")]),
      Room("coldrow", false, [Exit("south", "floodgate")]),
      Room("dunes", true, [Exit("south", "roof"), Exit("east", "scorch_road"), Exit("north", "checkpoint")]),
      Room("scorch_road", true, [Exit("west", "dunes"), Exit("east", "waystation"), Exit("south", "transit_hub")]),
      Room("waystation", true, [Exit("west", "scorch_road")]),
      Room("transit_hub", false, [Exit("north", "scorch_road")]),
      Room("checkpoint", true, [Exit("south", "dunes"), Exit("north", "gate")]),
      Room("gate", false, [Exit("south", "checkpoint"), Exit("north", "muster")]),
      Room("muster", false, [Exit("south", "gate"), Exit("west", "cells"), Exit("north", "warroom")]),
      Room("cells", false, [Exit("east", "muster")]),
      Room("warroom", false, [Exit("south", "muster"), Exit("up", "dais")]),
      Room("dais", false, [Exit("down", "warroom")]),
      Room("coil-yard", false, [Exit("east", "roof"), Exit("north", "bias-road")]),
      Room("bias-road", true, [Exit("south", "coil-yard"), Exit("north", "bias-checkpoint"), Exit("west", "remanence-bay")]),
      Room("bias-checkpoint", true, [Exit("south", "bias-road")]),
      Room("remanence-bay", false, [Exit("east", "bias-road")])
    ]
  }

  /** hg_world_room. */
  function Find(id: string): (r: Option<Room>)
    ensures r.Some? ==> r.value.id == id
  {
    FindIn(Rooms(), id)
  }

  function FindIn(rooms: seq<Room>, id: string): (r: Option<Room>)
    ensures r.Some? ==> r.value.id == id
  {
    if rooms == [] then None
    else if rooms[0].id == id then Some(rooms[0])
    else FindIn(rooms[1..], id)
  }

  predicate IsRoom(id: string) {
    Find(id).Some?
  }

  /** The search finds a room of the table, unless none has the id. */
  lemma {:induction false} FindsInTable(rooms: seq<Room>, id: string)
    ensures FindIn(rooms, id).Some? ==> FindIn(rooms, id).value in rooms
    ensures FindIn(rooms, id).None? <==> forall room :: room in rooms ==> room.id != id
  {
    if rooms != [] && rooms[0].id != id {
      FindsInTable(rooms[1..], id);
      assert rooms == [rooms[0]] + rooms[1..];
    }
  }

  /** The destination behind the first exit in that direction. */
  function ExitTo(exits: seq<Exit>, direction: string): Option<string> {
    if exits == [] then None
    else if exits[0].direction == direction then Some(exits[0].destination)
    else ExitTo(exits[1..], direction)
  }

  /** hg_world_move. */
  function Move(from: Option<Room>, direction: string): (r: Option<Room>)
    ensures r.Some? ==> IsRoom(r.value.id)
  {
    match from
    case None => None
    case Some(room) =>
      match ExitTo(room.exits, direction)
      case None => None
      case Some(id) => Find(id)
  }

  /** The search through the table. */
  method LookUp(id: string) returns (r: Option<Room>)
    ensures r == Find(id)
  {
    hide Rooms;
    var rooms := Rooms();
    for i := 0 to |rooms|
      invariant FindIn(rooms, id) == FindIn(rooms[i..], id)
    {
      if rooms[i].id == id {
        return Some(rooms[i]);
      }
    }
    return None;
  }

  /** The search through a room's exits. */
  method Walk(from: Option<Room>, direction: string) returns (r: Option<Room>)
    ensures r == Move(from, direction)
  {
    hide Rooms, Find;
    if from.None? {
      return None;
    }
    var exits := from.value.exits;
    for i := 0 to |exits|
      invariant ExitTo(exits, direction) == ExitTo(exits[i..], direction)
    {
      if exits[i].direction == direction {
        r := LookUp(exits[i].destination);
        return;
      }
    }
    return None;
  }

  function RoomIds(rooms: seq<Room>): (ids: seq<string>)
    ensures |ids| == |rooms|
    ensures forall i :: 0 <= i < |rooms| ==> ids[i] == rooms[i].id
  {
    seq(|rooms|, i requires 0 <= i < |rooms| => rooms[i].id)
  }

  lemma NexusIsRoom()
    ensures IsRoom("nexus")
  {
    assert Rooms()[0].id == "nexus";
    FindsInTable(Rooms(), "nexus");
  }

  /** The longest name of the table has fifteen letters. */
  lemma TableIsShort(i: nat)
    requires i < |Rooms()|
    ensures |Rooms()[i].id| <= 15
  {
  }

  /** Every room's name fits a character's room field. */
  lemma RoomsAreShort(id: string)
    requires IsRoom(id)
    ensures |id| < 32
  {
    hide Rooms;
    FindsInTable(Rooms(), id);
    var i :| 0 <= i < |Rooms()| && Rooms()[i] == Find(id).value;
    TableIsShort(i);
  }

  /** Places kept under distinct table rooms never outnumber the table. */
  lemma AtMostTwentyFour(places: seq<string>)
    requires Distinct(places) && forall p :: p in places ==> IsRoom(p)
    ensures |places| <= 24
  {
    var ids := RoomIds(Rooms());
    forall p | p in places ensures p in ids {
      FindsInTable(Rooms(), p);
      var i :| 0 <= i < |Rooms()| && Rooms()[i] == Find(p).value;
      assert ids[i] == p;
    }
    Pigeonhole(places, ids);
  }

  /** One seeded creature; alive, its wounds and its death are what changes. */
  datatype Mob = Mob(id: string, room: string, maxHp: int, damage: int, xp: int, respawnMs: int,
                     hp: int, alive: bool, diedAt: int)

  function Seeded(id: string, room: string, maxHp: int, damage: int, xp: int, respawnMs: int): Mob {
    Mob(id, room, maxHp, damage, xp, respawnMs, maxHp, true, 0)
  }

  /** hg_world_init. */
  function Seed(): seq<Mob> {
    [
      Seeded("rat", "tunnels", 12, 4, 8, 20000),
      Seeded("raider", "scorch_road", 22, 6, 20, 40000),
      Seeded("warden", "holding_pit", 18, 5, 40, 60000),
      Seeded("leech", "coldrow", 18, 5, 16, 30000),
      Seeded("trooper", "muster", 30, 6, 28, 60000),
      Seeded("ashmonger", "dais", 80, 12, 200, 0)
    ]
  }

  const ASHMONGER: nat := 5

  function MobIs(room: string, id: string): Mob -> bool {
    (m: Mob) => m.alive && m.room == room && SameName(m.id, id)
  }

  /** hg_world_mob_in_room: an index, or the number of mobs. */
  function MobInRoom(mobs: seq<Mob>, room: string, id: string): (i: nat)
    ensures i <= |mobs|
    ensures i < |mobs| ==> mobs[i].alive && mobs[i].room == room && SameName(mobs[i].id, id)
    ensures forall j :: 0 <= j < i ==> !(mobs[j].alive && mobs[j].room == room && SameName(mobs[j].id, id))
  {
    IndexOf(MobIs(room, id), mobs)
  }

  /** One mob at a respawn tick. */
  function Revive(m: Mob, now: int): Mob {
    if m.alive || m.respawnMs <= 0 || m.diedAt == 0 then m
    else if (now - m.diedAt) * 1000 >= m.respawnMs then m.(hp := m.maxHp, alive := true, diedAt := 0)
    else m
  }

  /** hg_world_tick_respawns. */
  function TickRespawns(mobs: seq<Mob>, now: int): (r: seq<Mob>)
    ensures |r| == |mobs| && forall i :: 0 <= i < |mobs| ==> r[i] == Revive(mobs[i], now)
  {
    seq(|mobs|, i requires 0 <= i < |mobs| => Revive(mobs[i], now))
  }

  /** The part of a mob that hg_world_init fixes for good. */
  predicate SameKind(m: Mob, n: Mob) {
    m.id == n.id && m.room == n.room && m.maxHp == n.maxHp && m.damage == n.damage && m.xp == n.xp && m.respawnMs == n.respawnMs
  }

  /** Alive, wounded short of death, and without a time of death are one thing. */
  predicate Sound(m: Mob) {
    && 0 <= m.hp <= m.maxHp && 0 < m.maxHp && 0 <= m.damage && 0 <= m.xp
    && (m.alive <==> m.hp > 0) && (m.alive <==> m.diedAt == 0) && 0 <= m.diedAt
  }

  /** The mobs of a running server: the seeded ones, in whatever condition. */
  ghost predicate Peopled(mobs: seq<Mob>) {
    && |mobs| == |Seed()|
    && (forall i :: 0 <= i < |mobs| ==> SameKind(mobs[i], Seed()[i]) && Sound(mobs[i]))
    && (forall i, j :: 0 <= i < j < |mobs| ==> mobs[i].room != mobs[j].room)
  }

  lemma SeedIsPeopled()
    ensures Peopled(Seed()) && |Seed()| == 6
    ensures Seed()[ASHMONGER].respawnMs == 0
    ensures forall m :: 0 <= m < 6 ==> Seed()[m].alive && Seed()[m].hp == Seed()[m].maxHp
  {
  }

  /** Which creature lives where, what it can take, what its blow takes, and what killing it teaches. */
  lemma BestiaryIs(m: nat)
    requires m < |Seed()|
    ensures var n := Seed()[m];
            (n.id, n.room, n.maxHp, n.damage, n.xp) in {
              ("rat", "tunnels", 12, 4, 8), ("raider", "scorch_road", 22, 6, 20), ("warden", "holding_pit", 18, 5, 40),
              ("leech", "coldrow", 18, 5, 16), ("trooper", "muster", 30, 6, 28), ("ashmonger", "dais", 80, 12, 200)}
  {
  }

  lemma TickKeeps(mobs: seq<Mob>, now: int)
    requires Peopled(mobs)
    ensures Peopled(TickRespawns(mobs, now))
  {
    hide Seed;
  }

  /** A second tick in the same second changes nothing. */
  lemma TickIsIdempotent(mobs: seq<Mob>, now: int)
    ensures TickRespawns(TickRespawns(mobs, now), now) == TickRespawns(mobs, now)
  {
    var r := TickRespawns(mobs, now);
    forall i | 0 <= i < |r| ensures Revive(r[i], now) == r[i] {
    }
  }

  /** One mob hit or put back leaves a peopled world. */
  lemma OneMobKeeps(mobs: seq<Mob>, i: nat, m: Mob)
    requires Peopled(mobs) && i < |mobs| && SameKind(m, mobs[i]) && Sound(m)
    ensures Peopled(mobs[i := m])
  {
    hide Seed;
  }

  /** Rooms hold one mob each, so a name means the same mob for as long as it lives. */
  lemma TargetIs(mobs: seq<Mob>, i: nat, id: string)
    requires Peopled(mobs) && i < |mobs| && mobs[i].alive && SameName(mobs[i].id, id)
    ensures MobInRoom(mobs, mobs[i].room, id) == i
  {
    hide Seed;
  }

  const MAX_LIVE_MOBS: nat := 16

  lemma MobIndexIs(mobs: seq<Mob>, room: string, id: string, i: nat)
    requires i <= |mobs|
    requires i < |mobs| ==> MobIs(room, id)(mobs[i])
    requires forall j :: 0 <= j < i ==> !MobIs(room, id)(mobs[j])
    ensures MobInRoom(mobs, room, id) == i
  {
  }

  /** hg_world_state. */
  class WorldState {
    const mobs: array<Mob>
    var mobCount: nat

    ghost predicate Valid()
      reads this
    {
      mobs.Length == MAX_LIVE_MOBS && mobCount <= MAX_LIVE_MOBS
    }

    ghost function Live(): seq<Mob>
      reads this, mobs
      requires Valid()
    {
      mobs[..mobCount]
    }

    constructor ()
      ensures Valid() && fresh(mobs) && Live() == Seed()
    {
      mobs := new Mob[MAX_LIVE_MOBS](_ => Seeded("", "", 0, 0, 0, 0));
      mobCount := 0;
      new;
      hide Seeded;
      SeedMob("rat", "tunnels", 12, 4, 8, 20000);
      SeedMob("raider", "scorch_road", 22, 6, 20, 40000);
      SeedMob("warden", "holding_pit", 18, 5, 40, 60000);
      SeedMob("leech", "coldrow", 18, 5, 16, 30000);
      SeedMob("trooper", "muster", 30, 6, 28, 60000);
      SeedMob("ashmonger", "dais", 80, 12, 200, 0);
    }

    method SeedMob(id: string, room: string, maxHp: int, damage: int, xp: int, respawnMs: int)
      requires Valid()
      modifies this`mobCount, mobs
      ensures Valid()
      ensures mobCount == if old(mobCount) >= MAX_LIVE_MOBS then old(mobCount) else old(mobCount) + 1
      ensures forall i :: 0 <= i < old(mobCount) ==> mobs[i] == old(mobs[i])
      ensures old(mobCount) < MAX_LIVE_MOBS ==>
                mobs[old(mobCount)] == Seeded(id, room, maxHp, damage, xp, respawnMs)
    {
      if mobCount >= MAX_LIVE_MOBS {
        return;
      }
      mobs[mobCount] := Seeded(id, room, maxHp, damage, xp, respawnMs);
      mobCount := mobCount + 1;
    }

    method Tick(now: int)
      requires Valid()
      modifies mobs
      ensures Valid() && Live() == TickRespawns(old(Live()), now)
    {
      for i := 0 to mobCount
        invariant forall k :: 0 <= k < mobCount ==> mobs[k] == if k < i then Revive(old(mobs[k]), now) else old(mobs[k])
      {
        if mobs[i].alive || mobs[i].respawnMs <= 0 || mobs[i].diedAt == 0 {
          continue;
        }
        if (now - mobs[i].diedAt) * 1000 >= mobs[i].respawnMs {
          mobs[i] := mobs[i].(hp := mobs[i].maxHp, alive := true, diedAt := 0);
        }
      }
    }

    method FindMob(room: string, id: string) returns (i: nat)
      requires Valid()
      ensures i == MobInRoom(Live(), room, id)
    {
      i := 0;
      while i < mobCount
        invariant i <= mobCount
        invariant forall j :: 0 <= j < i ==> !MobIs(room, id)(mobs[j])
      {
        if mobs[i].alive && mobs[i].room == room && SameName(mobs[i].id, id) {
          break;
        }
        i := i + 1;
      }
      MobIndexIs(Live(), room, id, i);
    }
  }
}
