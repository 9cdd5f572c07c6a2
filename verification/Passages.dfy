/** The map: passages lead back the way they came, and every room can be walked to. */
module Passages {
  import opened Characters
  import opened Sequences
  import opened World

  const ROOM_COUNT: nat := 24

  /** Each room's place in the table. */
  function Place(id: string): nat {
    if id == "nexus" then 0 else if id == "tavern" then 1 else if id == "market" then 2
    else if id == "holding_pit" then 3 else if id == "workshop" then 4 else if id == "roof" then 5
    else if id == "tunnels" then 6 else if id == "sump" then 7 else if id == "floodgate" then 8
    else if id == "coldrow" then 9 else if id == "dunes" then 10 else if id == "scorch_road" then 11
    else if id == "waystation" then 12 else if id == "transit_hub" then 13 else if id == "checkpoint" then 14
    else if id == "gate" then 15 else if id == "muster" then 16 else if id == "cells" then 17
    else if id == "warroom" then 18 else if id == "dais" then 19 else if id == "coil-yard" then 20
    else if id == "bias-road" then 21 else if id == "bias-checkpoint" then 22 else if id == "remanence-bay" then 23
    else ROOM_COUNT
  }

  function Opposite(direction: string): string {
    if direction == "north" then "south" else if direction == "south" then "north"
    else if direction == "east" then "west" else if direction == "west" then "east"
    else if direction == "up" then "down" else if direction == "down" then "up"
    else ""
  }

  lemma TableLength()
    ensures |Rooms()| == ROOM_COUNT
  {
  }

  lemma PlacesAgree0(i: nat)
    requires 0 <= i < 12 && |Rooms()| == 24
    ensures Place(Rooms()[i].id) == i
  {
  }

  lemma PlacesAgree1(i: nat)
    requires 12 <= i < 24 && |Rooms()| == 24
    ensures Place(Rooms()[i].id) == i
  {
  }

  lemma PlacesAgree(i: nat)
    requires i < |Rooms()|
    ensures |Rooms()| == ROOM_COUNT && Place(Rooms()[i].id) == i
  {
    TableLength();
    if i < 12 {
      PlacesAgree0(i);
    } else {
      PlacesAgree1(i);
    }
  }

  /** No two rooms share a name, so the search finds each of them. */
  lemma FindsEach(i: nat)
    requires i < |Rooms()|
    ensures Find(Rooms()[i].id) == Some(Rooms()[i])
  {
    hide Rooms, Place;
    FindsFrom(Rooms(), i, 0);
    assert Rooms()[0..] == Rooms();
  }

  lemma FindsFrom(rooms: seq<Room>, i: nat, k: nat)
    requires rooms == Rooms() && k <= i < |rooms|
    ensures FindIn(rooms[k..], rooms[i].id) == Some(rooms[i])
    decreases i - k
  {
    hide Rooms, Place;
    if k < i {
      PlacesAgree(k);
      PlacesAgree(i);
      assert rooms[k..][1..] == rooms[k + 1..];
      FindsFrom(rooms, i, k + 1);
    }
  }

  /** Where each room's exits lead, by their places in the table. */
  const ENDS: seq<seq<nat>> := [
      [2, 4, 6, 1], [0], [0, 3], [2], [0, 5], [4, 10, 20], [0, 7], [6, 8],
      [7, 9], [8], [5, 11, 14], [10, 12, 13], [11], [11], [10, 15], [14, 16],
      [15, 17, 18], [16], [16, 19], [18], [5, 21], [20, 22, 23], [21], [21]]

  /** The exit is the room's only one that way, and the room it leads to has one back. */
  predicate Reversible(i: nat, e: nat) {
    && i < |Rooms()| && e < |Rooms()[i].exits| && i < |ENDS| && e < |ENDS[i]| && ENDS[i][e] < |Rooms()|
    && var exit, there := Rooms()[i].exits[e], Rooms()[ENDS[i][e]];
       && ExitTo(Rooms()[i].exits, exit.direction) == Some(exit.destination) && there.id == exit.destination
       && Opposite(exit.direction) != "" && ExitTo(there.exits, Opposite(exit.direction)) == Some(Rooms()[i].id)
  }

  lemma ExitsPair0(i: nat, e: nat)
    requires 0 <= i < 1 && |Rooms()| == 24 && e < |Rooms()[i].exits|
    ensures Reversible(i, e)
  {
  }

  lemma ExitsPair1(i: nat, e: nat)
    requires 1 <= i < 4 && |Rooms()| == 24 && e < |Rooms()[i].exits|
    ensures Reversible(i, e)
  {
  }

  lemma ExitsPair2(i: nat, e: nat)
    requires 4 <= i < 6 && |Rooms()| == 24 && e < |Rooms()[i].exits|
    ensures Reversible(i, e)
  {
  }

  lemma ExitsPair3(i: nat, e: nat)
    requires 6 <= i < 8 && |Rooms()| == 24 && e < |Rooms()[i].exits|
    ensures Reversible(i, e)
  {
  }

  lemma ExitsPair4(i: nat, e: nat)
    requires 8 <= i < 11 && |Rooms()| == 24 && e < |Rooms()[i].exits|
    ensures Reversible(i, e)
  {
  }

  lemma ExitsPair5(i: nat, e: nat)
    requires 11 <= i < 14 && |Rooms()| == 24 && e < |Rooms()[i].exits|
    ensures Reversible(i, e)
  {
  }

  lemma ExitsPair6(i: nat, e: nat)
    requires 14 <= i < 18 && |Rooms()| == 24 && e < |Rooms()[i].exits|
    ensures Reversible(i, e)
  {
  }

  lemma ExitsPair7(i: nat, e: nat)
    requires 18 <= i < 24 && |Rooms()| == 24 && e < |Rooms()[i].exits|
    ensures Reversible(i, e)
  {
  }

  lemma ExitsPair(i: nat, e: nat)
    requires i < |Rooms()| && e < |Rooms()[i].exits|
    ensures Reversible(i, e)
  {
    hide Rooms, Reversible;
    TableLength();
    if i < 1 {
      ExitsPair0(i, e);
    } else if i < 4 {
      ExitsPair1(i, e);
    } else if i < 6 {
      ExitsPair2(i, e);
    } else if i < 8 {
      ExitsPair3(i, e);
    } else if i < 11 {
      ExitsPair4(i, e);
    } else if i < 14 {
      ExitsPair5(i, e);
    } else if i < 18 {
      ExitsPair6(i, e);
    } else {
      ExitsPair7(i, e);
    }
  }

  lemma {:induction false} SomeExit(exits: seq<Exit>, direction: string) returns (e: nat)
    requires ExitTo(exits, direction).Some?
    ensures e < |exits| && exits[e] == Exit(direction, ExitTo(exits, direction).value)
  {
    if exits[0].direction == direction {
      e := 0;
    } else {
      var f := SomeExit(exits[1..], direction);
      e := f + 1;
    }
  }

  /** Wherever one can go, one can come back the opposite way. */
  lemma PassagesLeadBack(id: string, direction: string)
    requires Move(Find(id), direction).Some?
    ensures var there := Move(Find(id), direction).value;
            Move(Some(there), Opposite(direction)) == Find(id)
  {
    hide Rooms, Place, Opposite, FindIn, ExitTo, ENDS;
    FindsInTable(Rooms(), id);
    var i :| 0 <= i < |Rooms()| && Rooms()[i] == Find(id).value;
    var e := SomeExit(Rooms()[i].exits, direction);
    ExitsPair(i, e);
    FindsEach(i);
    FindsEach(ENDS[i][e]);
  }

  /** Every passage of the table leads to a room of the table. */
  lemma ExitsLeadSomewhere(i: nat, e: nat)
    requires i < |Rooms()| && e < |Rooms()[i].exits|
    ensures Move(Some(Rooms()[i]), Rooms()[i].exits[e].direction).Some?
  {
    hide Rooms, Place, Opposite, FindIn, ExitTo, ENDS;
    ExitsPair(i, e);
    FindsEach(ENDS[i][e]);
  }

  /** The room reached from a room by going those ways, one after the other. */
  function Walked(from: Option<Room>, path: seq<string>): Option<Room> {
    if path == [] then from else Move(Walked(from, Init(path)), Last(path))
  }

  /** The room before each on the way from the nexus. */
  const BEFORE: seq<nat> := [0, 0, 0, 2, 0, 4, 0, 6, 7, 8, 5, 10, 11, 11, 10, 14, 15, 16, 16, 18, 5, 20, 21, 21]

  /** An exit leads there from the room before. */
  lemma WayLeads(i: nat) returns (e: nat)
    requires 0 < i < 24
    ensures |BEFORE| == |ENDS| == 24 && BEFORE[i] < i && e < |ENDS[BEFORE[i]]| && ENDS[BEFORE[i]][e] == i
  {
    e := if i == 1 then 3 else if i == 2 then 0 else if i in {6, 13, 14, 18, 20, 23} then 2 else 1;
  }

  /** All twenty-four rooms can be walked to from the nexus. */
  lemma {:induction false} EveryRoomIsReached(i: nat) returns (path: seq<string>)
    requires i < |Rooms()|
    ensures Walked(Find("nexus"), path) == Some(Rooms()[i])
  {
    hide Rooms, FindIn, ExitTo, Opposite, ENDS, BEFORE;
    TableLength();
    FindsEach(i);
    if i == 0 {
      path := [];
      NexusIsFirst();
    } else {
      var e := WayLeads(i);
      var there := BEFORE[i];
      ExitsAre(there, e);
      ExitsPair(there, e);
      var before := EveryRoomIsReached(there);
      path := before + [Rooms()[there].exits[e].direction];
      assert Init(path) == before;
    }
  }

  lemma ExitsAre(i: nat, e: nat)
    requires i < |ENDS| && e < |ENDS[i]| && |Rooms()| == 24
    ensures i < |Rooms()| && e < |Rooms()[i].exits|
  {
  }

  lemma NexusIsFirst()
    ensures |Rooms()| > 0 && Rooms()[0].id == "nexus"
  {
  }

  /** The rooms under the open sky, where the dustkin find coin. */
  lemma UnderTheSky(i: nat)
    requires i < |Rooms()|
    ensures Rooms()[i].outdoors <==> i in {5, 10, 11, 12, 14, 21, 22}
    ensures Rooms()[i].outdoors <==>
              Rooms()[i].id in {"roof", "dunes", "scorch_road", "waystation", "checkpoint", "bias-road", "bias-checkpoint"}
  {
    hide Rooms, Place;
    SkyByPlace(i);
    PlacesAgree(i);
    if Rooms()[i].id in {"roof", "dunes", "scorch_road", "waystation", "checkpoint", "bias-road", "bias-checkpoint"} {
      SkyPlaces();
    } else if Rooms()[i].outdoors {
      SkyNames(i);
    }
  }

  lemma SkyByPlace(i: nat)
    requires i < |Rooms()|
    ensures Rooms()[i].outdoors <==> i in {5, 10, 11, 12, 14, 21, 22}
  {
  }

  lemma SkyPlaces()
    ensures Place("roof") == 5 && Place("dunes") == 10 && Place("scorch_road") == 11 && Place("waystation") == 12
            && Place("checkpoint") == 14 && Place("bias-road") == 21 && Place("bias-checkpoint") == 22
  {
  }

  lemma SkyNames(i: nat)
    requires i < |Rooms()| && i in {5, 10, 11, 12, 14, 21, 22}
    ensures Rooms()[i].id in {"roof", "dunes", "scorch_road", "waystation", "checkpoint", "bias-road", "bias-checkpoint"}
  {
  }
}
