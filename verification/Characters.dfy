/** Characters, items, and the eight-slot pack. */
module Characters {
  import opened Sequences
  import opened Text

  datatype Option<+T> = None | Some(value: T)

  const MAX_INVENTORY: nat := 8
  const ITEM_SIZE: nat := 16

  datatype Character = Character(
    name: string, race: string, room: string, faction: string, position: string, title: string,
    inventory: seq<string>, weapon: string,
    hp: int, maxHp: int, level: int, xp: int, gold: int, morality: int, addiction: int,
    ashsworn: bool, strayed: bool, redeemed: bool)

  /** hg_character_new. */
  function NewCharacter(name: string): Character {
    Character(Clip(name, 33), "", "nexus", "none", "standing", "", ["shiv"], "",
              30, 30, 1, 0, 20, 0, 0, false, false, false)
  }

  predicate FoldedAt(haystack: string, needle: string, i: nat) {
    i + |needle| <= |haystack| && SameName(haystack[i..i + |needle|], needle)
  }

  /** contains_ci: the needle occurs in the haystack, letter case aside. */
  predicate ContainsFolded(haystack: string, needle: string) {
    needle != "" && exists i :: 0 <= i <= |haystack| && FoldedAt(haystack, needle, i)
  }

  function IdMatches(arg: string): string -> bool {
    (id: string) => SameName(id, arg)
  }

  /** display is hg_item_name: the name an id is shown under. */
  function NameMatches(arg: string, display: string -> string): string -> bool {
    (id: string) => ContainsFolded(display(id), arg)
  }

  /** find_inventory: an id spelled out wins over a part of a displayed name. */
  function FindInventory(inventory: seq<string>, arg: string, display: string -> string): (found: Option<string>)
    ensures found.Some? ==> found.value in inventory
    ensures found.Some? <==> arg != "" && exists id :: id in inventory && (SameName(id, arg) || ContainsFolded(display(id), arg))
    ensures found.Some? && (exists id :: id in inventory && SameName(id, arg)) ==> SameName(found.value, arg)
  {
    var i, j := IndexOf(IdMatches(arg), inventory), IndexOf(NameMatches(arg, display), inventory);
    if arg == "" then None
    else if i < |inventory| then Some(inventory[i])
    else if j < |inventory| then Some(inventory[j])
    else None
  }

  /** s without the first occurrence of x. */
  function WithoutFirst<T(==)>(s: seq<T>, x: T): (r: seq<T>)
    ensures |r| == if x in s then |s| - 1 else |s|
    ensures forall y :: y in r ==> y in s
  {
    if s == [] then []
    else if s[0] == x then s[1..]
    else [s[0]] + WithoutFirst(s[1..], x)
  }

  lemma {:induction false} WithoutFirstAt<T>(s: seq<T>, x: T, i: nat)
    requires i < |s| && s[i] == x && x !in s[..i]
    ensures WithoutFirst(s, x) == s[..i] + s[i + 1..]
  {
    if i > 0 {
      assert s[0] != x by { assert s[0] == s[..i][0]; }
      assert s[1..][..i - 1] == s[..i][1..];
      WithoutFirstAt(s[1..], x, i - 1);
      assert [s[0]] + s[..i][1..] == s[..i];
    }
  }

  /** Removing takes exactly one copy and keeps the order of the rest. */
  lemma WithoutFirstKeeps<T>(s: seq<T>, x: T)
    ensures x in s ==> multiset(WithoutFirst(s, x)) + multiset{x} == multiset(s)
    ensures x !in s ==> WithoutFirst(s, x) == s
    ensures Subseq(WithoutFirst(s, x), s)
  {
    if x in s {
      var i := FirstAt(s, x);
      WithoutFirstAt(s, x, i);
      DropOne(s, i);
      SplitCount(s, i);
    } else {
      WithoutNone(s, x);
      SubseqRefl(s);
    }
  }

  lemma SplitCount<T>(s: seq<T>, i: nat)
    requires i < |s|
    ensures multiset(s[..i] + s[i + 1..]) + multiset{s[i]} == multiset(s)
  {
    assert s == s[..i] + [s[i]] + s[i + 1..];
  }

  lemma {:induction false} WithoutNone<T>(s: seq<T>, x: T)
    requires x !in s
    ensures WithoutFirst(s, x) == s
  {
    if s != [] {
      WithoutNone(s[1..], x);
    }
  }

  lemma {:induction false} FirstAt<T>(s: seq<T>, x: T) returns (i: nat)
    requires x in s
    ensures i < |s| && s[i] == x && x !in s[..i]
  {
    if s[0] == x {
      i := 0;
    } else {
      var j := FirstAt(s[1..], x);
      i := j + 1;
      assert s[..i] == [s[0]] + s[1..][..j];
    }
  }

  /** cmd_give's effect on two packs: refused when the receiver's is full. */
  function Give(giver: seq<string>, receiver: seq<string>, id: string): (seq<string>, seq<string>) {
    if |receiver| >= MAX_INVENTORY then (giver, receiver)
    else (WithoutFirst(giver, id), receiver + [id])
  }

  /** Giving what one carries moves exactly one item and loses none. */
  lemma GiveConserves(giver: seq<string>, receiver: seq<string>, id: string)
    requires id in giver && |giver| <= MAX_INVENTORY && |receiver| <= MAX_INVENTORY
    ensures var g := Give(giver, receiver, id);
            && multiset(g.0) + multiset(g.1) == multiset(giver) + multiset(receiver)
            && Subseq(g.0, giver) && receiver <= g.1
            && |g.0| <= MAX_INVENTORY && |g.1| <= MAX_INVENTORY
  {
    SubseqRefl(giver);
    WithoutFirstKeeps(giver, id);
  }

  /** The inventory array of a character with its count. */
  class Pack {
    const slots: array<string>
    var count: nat

    ghost predicate Valid()
      reads this, slots
    {
      && slots.Length == MAX_INVENTORY && count <= MAX_INVENTORY
      && (forall i :: 0 <= i < count ==> |slots[i]| < ITEM_SIZE)
      && (forall i :: count <= i < MAX_INVENTORY ==> slots[i] == "")
    }

    ghost function Items(): seq<string>
      reads this, slots
      requires count <= slots.Length
    {
      slots[..count]
    }

    /** The pack of a new character. */
    constructor ()
      ensures Valid() && fresh(slots) && Items() == ["shiv"]
    {
      slots := new string[MAX_INVENTORY](_ => "");
      count := 1;
      new;
      slots[0] := "shiv";
    }

    method HasItem(id: string) returns (has: bool)
      requires Valid()
      ensures has <==> id in Items()
    {
      for i := 0 to count
        invariant id !in slots[..i]
      {
        if slots[i] == id { return true; }
      }
      return false;
    }

    method AddItem(id: string) returns (ok: bool)
      requires Valid()
      modifies this`count, slots
      ensures Valid()
      ensures ok == (|old(Items())| < MAX_INVENTORY)
      ensures Items() == if ok then old(Items()) + [Clip(id, ITEM_SIZE)] else old(Items())
    {
      if count >= MAX_INVENTORY {
        return false;
      }
      slots[count] := Clip(id, ITEM_SIZE);
      count := count + 1;
      return true;
    }

    /** Shifts the rest down one by one and clears the slot that falls free. */
    method RemoveItem(id: string) returns (ok: bool)
      requires Valid()
      modifies this`count, slots
      ensures Valid()
      ensures ok == (id in old(Items()))
      ensures Items() == WithoutFirst(old(Items()), id)
    {
      ghost var was := Items();
      for i := 0 to count
        invariant count == old(count) && slots[..] == old(slots[..])
        invariant id !in was[..i]
      {
        if slots[i] == id {
          CloseGap(i);
          WithoutFirstAt(was, id, i);
          return true;
        }
      }
      assert was[..count] == was;
      WithoutNone(was, id);
      return false;
    }

    method CloseGap(i: nat)
      requires Valid() && i < count
      modifies this`count, slots
      ensures Valid() && Items() == old(Items()[..i] + Items()[i + 1..])
    {
      ghost var was := Items();
      ShiftDown(i);
      count := count - 1;
      slots[count] := "";
      GapClosed(was, i, Items());
    }

    /** Every carried item behind the i-th moves one slot down. */
    method ShiftDown(i: nat)
      requires slots.Length == MAX_INVENTORY && i < count <= MAX_INVENTORY
      modifies slots
      ensures forall k {:trigger slots[k]} :: 0 <= k < MAX_INVENTORY ==>
                slots[k] == if i <= k < count - 1 then old(slots[k + 1]) else old(slots[k])
    {
      var j := i + 1;
      while j < count
        invariant i + 1 <= j <= count
        invariant forall k {:trigger slots[k]} :: 0 <= k < MAX_INVENTORY ==>
                    slots[k] == if i <= k < j - 1 then old(slots[k + 1]) else old(slots[k])
      {
        slots[j - 1] := slots[j];
        j := j + 1;
      }
    }
  }

  lemma GapClosed(was: seq<string>, i: nat, s: seq<string>)
    requires i < |was| && |s| == |was| - 1
    requires forall k {:trigger s[k]} :: 0 <= k < |s| ==> s[k] == if k < i then was[k] else was[k + 1]
    ensures s == was[..i] + was[i + 1..]
  {
  }

  class Carrier {
    var name: string
    var room: string
    const pack: Pack

    constructor (name: string, room: string)
      ensures pack.Valid() && fresh(pack) && fresh(pack.slots)
    {
      this.name := name;
      this.room := room;
      pack := new Pack();
    }
  }

  ghost function PackOf(c: Carrier?): set<Pack> {
    if c == null then {} else {c.pack}
  }

  ghost function SlotsOf(c: Carrier?): set<array<string>> {
    if c == null then {} else {c.pack.slots}
  }

  /** The move at the end of cmd_give: into the receiver's pack if it has room, then out
   *  of the giver's; all that both carried they still carry between them. */
  method Transfer(session: Carrier, target: Carrier, id: string) returns (moved: bool)
    requires session.pack.Valid() && target.pack.Valid()
    requires session.pack != target.pack && session.pack.slots != target.pack.slots
    requires id in session.pack.Items()
    modifies session.pack`count, session.pack.slots, target.pack`count, target.pack.slots
    ensures session.pack.Valid() && target.pack.Valid()
    ensures moved == (|old(target.pack.Items())| < MAX_INVENTORY)
    ensures (session.pack.Items(), target.pack.Items()) ==
            Give(old(session.pack.Items()), old(target.pack.Items()), id)
    ensures multiset(session.pack.Items()) + multiset(target.pack.Items()) ==
            multiset(old(session.pack.Items())) + multiset(old(target.pack.Items()))
  {
    GiveConserves(session.pack.Items(), target.pack.Items(), id);
    var added := target.pack.AddItem(id);
    if !added {
      return false;
    }
    var removed := session.pack.RemoveItem(id);
    assert removed;
    return true;
  }

  /** cmd_give once its argument is split; target is what session_find returned.
   *  Two carriers that are different objects have different packs. */
  method CmdGive(session: Carrier, target: Carrier?, arg: string, display: string -> string)
    returns (given: Option<string>)
    requires session.pack.Valid() && (target != null ==> target.pack.Valid())
    requires target != null && target != session ==>
               session.pack != target.pack && session.pack.slots != target.pack.slots
    modifies session.pack`count, session.pack.slots, PackOf(target), SlotsOf(target)
    ensures session.pack.Valid() && (target != null ==> target.pack.Valid())
    ensures given.Some? ==>
              && target != null && target != session
              && FindInventory(old(session.pack.Items()), arg, display) == given
              && session.pack.Items() == WithoutFirst(old(session.pack.Items()), given.value)
              && target.pack.Items() == old(target.pack.Items()) + [given.value]
    ensures target != null && target != session ==>
              multiset(session.pack.Items()) + multiset(target.pack.Items()) ==
              multiset(old(session.pack.Items())) + multiset(old(target.pack.Items()))
    ensures given.None? ==> session.pack.Items() == old(session.pack.Items())
                            && (target != null ==> target.pack.Items() == old(target.pack.Items()))
    ensures given.Some? <==>
              && FindInventory(old(session.pack.Items()), arg, display).Some?
              && target != null && target.room == session.room && !SameName(target.name, session.name)
              && |old(target.pack.Items())| < MAX_INVENTORY
  {
    var item := FindInventory(session.pack.slots[..session.pack.count], arg, display);
    if item.None? {
      return None;
    }
    if target == null || target.room != session.room || SameName(target.name, session.name) {
      return None;
    }
    var moved := Transfer(session, target, item.value);
    return if moved then item else None;
  }
}
