/** What one player's command does to that player: moral choices, trade, rest. */
module Commands {
  import opened Characters
  import opened Sequences
  import opened Text
  import Items
  import Store
  import World

  const MORALITY_FLOOR := -100
  const MORALITY_CEIL := 100
  const STRAY_FLOOR := -20
  const REDEEM_CEIL := 5
  const DUST_COST := 10

  /** The part of a session the commands work on. baseXp is history: the
   *  experience the player had on entering play. */
  datatype Player = Player(playing: bool, c: Character, target: string, resolved: bool,
                           traitReadyAt: int, treatReadyAt: int, baseXp: int)

  /** What a command leaves behind: the player, whether the store got the result,
   *  the push given to the tide, and whether a return was announced. */
  datatype Turn = Turn(p: Player, saved: bool, tide: int, returned: bool)

  function Stay(p: Player): Turn {
    Turn(p, false, 0, false)
  }

  /** The character as it now stands, unsaved. */
  function As(p: Player, c: Character): Turn {
    Turn(p.(c := c), false, 0, false)
  }

  function Saved(p: Player, c: Character): Turn {
    Turn(p.(c := c), true, 0, false)
  }

  function Clamp(x: int, floor: int, ceil: int): (r: int)
    requires floor <= ceil
    ensures floor <= r <= ceil
  {
    if x > ceil then ceil else if x < floor then floor else x
  }

  /** shift_morality. */
  function Shifted(c: Character, delta: int): Character {
    c.(morality := Clamp(c.morality + delta, MORALITY_FLOOR, MORALITY_CEIL))
  }

  /** resolve_return. */
  function ResolveReturn(t: Turn): Turn {
    var c := t.p.c;
    t.(p := t.p.(c := c.(redeemed := true, title := if c.title == "" then "the Returned" else c.title)),
       saved := true, returned := true)
  }

  /** moral_arc: at most one of straying and coming back. */
  function MoralArc(t: Turn): Turn {
    var c := t.p.c;
    if !c.strayed && c.morality <= STRAY_FLOOR then
      t.(p := t.p.(c := c.(strayed := true)), saved := true)
    else if c.strayed && !c.redeemed && c.morality >= REDEEM_CEIL && c.faction != "front" then
      if c.ashsworn then t.(p := t.p.(c := c.(redeemed := true)), saved := true)
      else ResolveReturn(t)
    else t
  }

  predicate RaceIsHunted(race: string) {
    race == "elf" || race == "revenant" || race == "dustkin" || race == "vatborn"
  }

  /** The Front's coin: the hunted are marked for good. */
  function Sworn(c: Character, cost: int): Character {
    if RaceIsHunted(c.race) then Shifted(c.(faction := "front", ashsworn := true), -40)
    else Shifted(c.(faction := "front"), -cost)
  }

  /** dais_pledge. */
  function Pledge(p: Player): Turn {
    if p.c.faction != "none" then Stay(p)
    else MoralArc(Turn(p.(c := Sworn(p.c, 25)), true, -10, false))
  }

  /** dais_defect. */
  function Defect(p: Player): Turn {
    if p.c.room != "dais" || p.c.faction != "front" then Stay(p)
    else
      var t := Turn(p.(c := Shifted(p.c.(faction := "ally"), 30)), true, 10, false);
      if t.p.c.strayed && !t.p.c.redeemed && !t.p.c.ashsworn && t.p.c.morality >= REDEEM_CEIL then ResolveReturn(t)
      else MoralArc(t)
  }

  predicate AtRecruiter(room: string) {
    room == "market" || room == "checkpoint"
  }

  /** cmd_join. */
  function Join(p: Player): Turn {
    if p.c.room == "dais" then Pledge(p)
    else if !AtRecruiter(p.c.room) || p.resolved then Stay(p)
    else MoralArc(Turn(p.(c := Sworn(p.c, 15), resolved := true), true, -10, false))
  }

  function AddItem(c: Character, id: string): Character {
    if |c.inventory| >= MAX_INVENTORY then c else c.(inventory := c.inventory + [Clip(id, ITEM_SIZE)])
  }

  function AddOnce(c: Character, id: string): Character {
    if id in c.inventory then c else AddItem(c, id)
  }

  function Without(c: Character, id: string): Character {
    c.(inventory := WithoutFirst(c.inventory, id))
  }

  /** cmd_defend. */
  function Defend(p: Player): Turn {
    if !AtRecruiter(p.c.room) || p.resolved then Stay(p)
    else
      var c := AddOnce(Shifted(p.c.(faction := "ally"), 10), "charm");
      MoralArc(Turn(p.(c := c, resolved := true), true, 10, false))
  }

  /** What cmd_forgive looks for in its subject. */
  predicate Marked(c: Character) {
    c.ashsworn || c.strayed || c.faction == "front" || c.morality <= -50
  }

  /** The subject of cmd_forgive: heard, and returned when only grace was missing. */
  function Forgiven(p: Player): Turn {
    var m := p.c.morality + 5;
    var c := p.c.(morality := if m > MORALITY_CEIL then MORALITY_CEIL else m);
    if !c.ashsworn && c.strayed && !c.redeemed && c.faction != "front" then ResolveReturn(Saved(p, c))
    else Saved(p, c)
  }

  function Heal(c: Character, amount: int): Character {
    c.(hp := if c.hp + amount > c.maxHp then c.maxHp else c.hp + amount)
  }

  /** cmd_treat. */
  function Treat(p: Player, tide: int, now: int): Turn {
    if p.c.room != "waystation" || p.target != "" then Stay(p)
    else if p.c.faction == "front" || p.c.ashsworn then Stay(p)
    else if tide <= -40 || p.c.hp >= p.c.maxHp || p.treatReadyAt > now then Stay(p)
    else Saved(p.(treatReadyAt := now + 45), if tide >= 40 then p.c.(hp := p.c.maxHp) else Heal(p.c, 12))
  }

  /** The hit points a race's trait gives back; none for the other races. */
  function TraitMends(race: string): nat {
    if race == "ghoul" then 25 else if race == "revenant" then 15 else if race == "vatborn" then 12 else 0
  }

  predicate Outdoors(id: string) {
    var room := World.Find(id);
    room.Some? && room.value.outdoors
  }

  /** cmd_ability; luck is what the random draw adds. */
  function Ability(p: Player, luck: nat, now: int): Turn {
    if p.traitReadyAt > now then Stay(p)
    else if p.c.race == "human" then
      Saved(p.(traitReadyAt := now + 180), p.c.(gold := p.c.gold + 15 + luck % 16))
    else if TraitMends(p.c.race) > 0 then As(p.(traitReadyAt := now + 120), Heal(p.c, TraitMends(p.c.race)))
    else if p.c.race == "dustkin" && Outdoors(p.c.room) then
      Saved(p.(traitReadyAt := now + 90), p.c.(gold := p.c.gold + 5 + luck % 11))
    else Stay(p)
  }

  /** tinker_price: the first ware the words fit. */
  function Ware(stock: seq<(string, int)>, arg: string): Option<(string, int)> {
    if stock == [] || arg == "" then None
    else if SameName(stock[0].0, arg) || ContainsFolded(Items.Name(stock[0].0), arg) then Some(stock[0])
    else Ware(stock[1..], arg)
  }

  /** The dealer: dust is paid for even when the pack has no room for it. */
  function BuyDust(p: Player, arg: string): Turn {
    if !ContainsFolded(arg, "dust") || p.c.gold < DUST_COST then Stay(p)
    else Saved(p, AddItem(p.c.(gold := p.c.gold - DUST_COST), "dust"))
  }

  function BuyWare(p: Player, ware: Option<(string, int)>): Turn {
    if ware.None? || p.c.gold < ware.value.1 || |p.c.inventory| >= MAX_INVENTORY then Stay(p)
    else Saved(p, AddItem(p.c, ware.value.0).(gold := p.c.gold - ware.value.1))
  }

  /** cmd_buy. */
  function Buy(p: Player, arg: string): Turn {
    if p.c.room == "tavern" then BuyDust(p, arg)
    else if p.c.room == "workshop" then BuyWare(p, Ware(Items.STOCK, arg))
    else Stay(p)
  }

  /** What the vendor drone pays; friends of the free folk get a fifth more. */
  function Resale(id: string, faction: string): int {
    if faction == "ally" then Items.Value(id) * 12 / 10 else Items.Value(id)
  }

  /** cmd_sell_item. */
  function Sell(p: Player, arg: string): Turn {
    if p.c.room != "market" || p.c.faction == "front" then Stay(p)
    else
      match FindInventory(p.c.inventory, arg, Items.Name)
      case None => Stay(p)
      case Some(id) =>
        if Items.Value(id) == 0 then Stay(p)
        else Saved(p, Without(p.c, id).(gold := p.c.gold + Resale(id, p.c.faction)))
  }

  predicate UsesDust(c: Character, arg: string) {
    FindInventory(c.inventory, arg, Items.Name) == Some("dust")
  }

  /** cmd_use: only dust does anything, and it asks no floor. */
  function Use(p: Player, arg: string): Turn {
    if !UsesDust(p.c, arg) then Stay(p)
    else
      var c := Without(p.c, "dust");
      Saved(p, c.(hp := c.maxHp, morality := c.morality - 10, addiction := c.addiction + 1))
  }

  function Wield(p: Player, arg: string): Turn {
    if arg !in p.c.inventory || !Items.IsWeapon(arg) then Stay(p)
    else Saved(p, p.c.(weapon := Clip(arg, 16)))
  }

  /** remove: only by the exact id in hand. */
  function Unwield(p: Player, arg: string): Turn {
    if arg == "" || p.c.weapon != arg then Stay(p) else Saved(p, p.c.(weapon := ""))
  }

  function Steal(p: Player): Turn {
    if p.c.room != "market" then Stay(p)
    else
      var c := Shifted(p.c, -8);
      MoralArc(Saved(p, c.(gold := c.gold + 12)))
  }

  function Pose(p: Player, position: string): Turn {
    As(p, p.c.(position := position))
  }

  /** rest and sleep. */
  function Rest(p: Player): Turn {
    if p.target != "" then Stay(p) else Pose(p, "resting")
  }

  function Recall(p: Player): Turn {
    As(p.(target := ""), p.c.(room := "nexus", position := "standing"))
  }

  /** A verb that is a direction. */
  function Go(p: Player, direction: string): Turn {
    match World.Move(World.Find(p.c.room), direction)
    case None => Stay(p)
    case Some(room) =>
      if p.target != "" then Stay(p)
      else Saved(p, p.c.(room := room.id, position := "standing"))
  }

  /** send_scene's repair, which look shares. */
  function Scene(p: Player): Turn {
    if World.IsRoom(p.c.room) then Stay(p) else As(p, p.c.(room := "nexus"))
  }

  /** attack, once the room was searched for the mob. */
  function Engage(p: Player, mob: Option<string>): Turn {
    if p.target != "" || mob.None? then Stay(p)
    else As(p.(target := mob.value), p.c.(position := "standing"))
  }

  /** free_cells and cmd_shelter, where the cages are ready. */
  function Rescue(p: Player): Turn {
    MoralArc(Saved(p, Shifted(p.c, 15)))
  }

  /** free_holding_pit, with the warden out of the way. */
  function FreeFromPit(p: Player): Turn {
    if "antidote" in p.c.inventory then Stay(p)
    else MoralArc(Saved(p, Shifted(AddItem(p.c, "antidote"), 12)))
  }

  function Witness(p: Player): Turn {
    Saved(p, Shifted(p.c, 2))
  }

  function Title(p: Player, arg: string): Turn {
    Saved(p, p.c.(title := Clip(arg, 48)))
  }

  /** on_tick without a fight. */
  function Rested(p: Player): Turn {
    if p.c.position == "resting" && p.c.hp < p.c.maxHp then As(p, Heal(p.c, 2)) else Stay(p)
  }

  // ------------------------------------------------------------------ laws

  predicate Hale(c: Character) {
    1 <= c.hp <= c.maxHp && 1 <= c.level && (c.redeemed ==> c.strayed)
  }

  /** The marks of a life are never lifted, and the return comes to one who
   *  strayed and does not stand with the Front. */
  predicate Onward(c: Character, d: Character) {
    && (c.ashsworn ==> d.ashsworn) && (c.strayed ==> d.strayed) && (c.redeemed ==> d.redeemed)
    && (d.redeemed && !c.redeemed ==> d.strayed && d.faction != "front")
  }

  /** What no command does: it neither wounds nor teaches, reopens no choice, moves nobody out of the
   *  world, overflows no buffer, lifts no mark, announces a return only for one it just
   *  redeemed and who bears no ash, starts no fight, and lets nobody walk out of one but
   *  by ending it. */
  predicate Lawful(p: Player, t: Turn) {
    var c, d := p.c, t.p.c;
    && t.p.playing == p.playing && t.p.baseXp == p.baseXp
    && d.name == c.name && d.xp == c.xp && d.level == c.level
    && (Hale(c) ==> Hale(d) && c.hp <= d.hp) && d.maxHp == c.maxHp && (p.resolved ==> t.p.resolved)
    && (Store.Fits(c) ==> Store.Fits(d))
    && (World.IsRoom(c.room) ==> World.IsRoom(d.room))
    && Onward(c, d)
    && (d.ashsworn && !c.ashsworn ==> RaceIsHunted(c.race) && d.faction == "front")
    && (t.returned ==> !c.redeemed && d.redeemed && d.strayed && !d.ashsworn && d.faction != "front" && d.title != "")
    && (t.p.target == "" || (t.p.target == p.target && (World.IsRoom(c.room) ==> d.room == c.room)))
  }

  predicate InRange(c: Character) {
    MORALITY_FLOOR <= c.morality <= MORALITY_CEIL
  }

  /** A lawful turn that goes on through the moral arc stays lawful. */
  lemma MoralArcIsLawful(p: Player, t: Turn)
    requires Lawful(p, t) && !t.returned
    ensures Lawful(p, MoralArc(t))
    ensures InRange(t.p.c) ==> InRange(MoralArc(t).p.c)
  {
    hide World.IsRoom;
  }

  /** The shortcut dais_defect takes is what the moral arc would have done. */
  lemma DefectIsAnArc(p: Player)
    requires p.c.room == "dais" && p.c.faction == "front"
    ensures Defect(p) == MoralArc(Turn(p.(c := Shifted(p.c.(faction := "ally"), 30)), true, 10, false))
  {
  }

  lemma PledgeIsLawful(p: Player)
    ensures Lawful(p, Pledge(p)) && (InRange(p.c) ==> InRange(Pledge(p).p.c))
  {
    hide World.IsRoom, MoralArc;
    MoralArcIsLawful(p, Turn(p.(c := Sworn(p.c, 25)), true, -10, false));
  }

  lemma JoinIsLawful(p: Player)
    ensures Lawful(p, Join(p)) && (InRange(p.c) ==> InRange(Join(p).p.c))
  {
    hide World.IsRoom, MoralArc, Pledge;
    PledgeIsLawful(p);
    if AtRecruiter(p.c.room) && p.c.room != "dais" {
      MoralArcIsLawful(p, Turn(p.(c := Sworn(p.c, 15), resolved := true), true, -10, false));
    }
  }

  lemma DefectStays(p: Player)
    requires p.c.room != "dais" || p.c.faction != "front"
    ensures Defect(p) == Stay(p)
  {
  }

  lemma DefectIsLawful(p: Player)
    ensures Lawful(p, Defect(p)) && (InRange(p.c) ==> InRange(Defect(p).p.c))
  {
    hide World.IsRoom, MoralArc, Defect;
    if p.c.room == "dais" && p.c.faction == "front" {
      DefectIsAnArc(p);
      MoralArcIsLawful(p, Turn(p.(c := Shifted(p.c.(faction := "ally"), 30)), true, 10, false));
    } else {
      DefectStays(p);
    }
  }

  lemma DefendIsLawful(p: Player)
    ensures Lawful(p, Defend(p)) && (InRange(p.c) ==> InRange(Defend(p).p.c))
  {
    hide World.IsRoom, MoralArc;
    var c := AddOnce(Shifted(p.c.(faction := "ally"), 10), "charm");
    MoralArcIsLawful(p, Turn(p.(c := c, resolved := true), true, 10, false));
  }

  lemma ForgivenIsLawful(p: Player)
    ensures Lawful(p, Forgiven(p)) && (InRange(p.c) ==> InRange(Forgiven(p).p.c))
  {
    hide World.IsRoom;
  }

  lemma BuyDustIsLawful(p: Player, arg: string)
    ensures Lawful(p, BuyDust(p, arg)) && (InRange(p.c) ==> InRange(BuyDust(p, arg).p.c))
  {
    hide World.IsRoom, ContainsFolded, Clip;
  }

  lemma BuyWareIsLawful(p: Player, ware: Option<(string, int)>)
    ensures Lawful(p, BuyWare(p, ware)) && (InRange(p.c) ==> InRange(BuyWare(p, ware).p.c))
  {
    hide World.IsRoom, Clip;
  }

  lemma BuyIsLawful(p: Player, arg: string)
    ensures Lawful(p, Buy(p, arg)) && (InRange(p.c) ==> InRange(Buy(p, arg).p.c))
  {
    hide World.IsRoom, BuyDust, BuyWare, Ware, Items.STOCK;
    BuyDustIsLawful(p, arg);
    BuyWareIsLawful(p, Ware(Items.STOCK, arg));
  }

  lemma SellIsLawful(p: Player, arg: string)
    ensures Lawful(p, Sell(p, arg)) && (InRange(p.c) ==> InRange(Sell(p, arg).p.c))
  {
    hide World.IsRoom, FindInventory, Items.Value, WithoutFirst, Resale;
  }

  /** Using dust keeps the floor under morality exactly when there was room for its price. */
  lemma UseBreaksTheFloorIff(p: Player, arg: string)
    requires InRange(p.c)
    ensures InRange(Use(p, arg).p.c) <==> !UsesDust(p.c, arg) || p.c.morality >= MORALITY_FLOOR + 10
  {
    hide FindInventory;
  }

  lemma UseIsLawful(p: Player, arg: string)
    ensures Lawful(p, Use(p, arg))
  {
    hide World.IsRoom, FindInventory;
  }

  lemma WieldingIsLawful(p: Player, arg: string)
    ensures Lawful(p, Wield(p, arg)) && Lawful(p, Unwield(p, arg))
    ensures InRange(p.c) ==> InRange(Wield(p, arg).p.c) && InRange(Unwield(p, arg).p.c)
  {
    hide World.IsRoom, Items.IsWeapon, Clip;
  }

  lemma NamingIsLawful(p: Player, arg: string)
    ensures Lawful(p, Title(p, arg)) && Lawful(p, Witness(p))
    ensures InRange(p.c) ==> InRange(Title(p, arg).p.c) && InRange(Witness(p).p.c)
  {
    hide World.IsRoom, Clip;
  }

  lemma StealIsLawful(p: Player)
    ensures Lawful(p, Steal(p)) && (InRange(p.c) ==> InRange(Steal(p).p.c))
  {
    hide World.IsRoom, MoralArc;
    var c := Shifted(p.c, -8);
    MoralArcIsLawful(p, Saved(p, c.(gold := c.gold + 12)));
  }

  lemma RescueIsLawful(p: Player)
    ensures Lawful(p, Rescue(p)) && Lawful(p, FreeFromPit(p))
    ensures InRange(p.c) ==> InRange(Rescue(p).p.c) && InRange(FreeFromPit(p).p.c)
  {
    hide World.IsRoom, MoralArc;
    MoralArcIsLawful(p, Saved(p, Shifted(p.c, 15)));
    MoralArcIsLawful(p, Saved(p, Shifted(AddItem(p.c, "antidote"), 12)));
  }

  lemma GoIsLawful(p: Player, direction: string)
    ensures Lawful(p, Go(p, direction)) && (InRange(p.c) ==> InRange(Go(p, direction).p.c))
  {
    hide World.IsRoom, World.Move, World.Find;
    var room := World.Move(World.Find(p.c.room), direction);
    if room.Some? {
      World.RoomsAreShort(room.value.id);
    }
  }

  lemma RecallIsLawful(p: Player)
    ensures Lawful(p, Recall(p)) && (InRange(p.c) ==> InRange(Recall(p).p.c))
  {
    World.NexusIsRoom();
    hide World.IsRoom;
  }

  lemma SceneIsLawful(p: Player)
    ensures Lawful(p, Scene(p)) && (InRange(p.c) ==> InRange(Scene(p).p.c))
  {
    World.NexusIsRoom();
    hide World.IsRoom;
  }

  lemma TreatIsLawful(p: Player, tide: int, now: int)
    ensures Lawful(p, Treat(p, tide, now)) && (InRange(p.c) ==> InRange(Treat(p, tide, now).p.c))
  {
    hide World.IsRoom;
  }

  /** Coin or mending, whenever the trait is ready again. */
  lemma TraitIsLawful(p: Player, at: int, gold: int, amount: nat)
    ensures var q := p.(traitReadyAt := at);
            && Lawful(p, Saved(q, p.c.(gold := gold))) && Lawful(p, As(q, Heal(p.c, amount)))
            && Heal(p.c, amount).morality == p.c.morality
  {
    hide World.IsRoom;
  }

  lemma AbilityIsLawful(p: Player, luck: nat, now: int)
    ensures Lawful(p, Ability(p, luck, now)) && (InRange(p.c) ==> InRange(Ability(p, luck, now).p.c))
  {
    hide Lawful, Heal, TraitMends, Outdoors;
    PosingIsLawful(p);
    TraitIsLawful(p, now + 180, p.c.gold + 15 + luck % 16, 0);
    TraitIsLawful(p, now + 120, 0, TraitMends(p.c.race));
    TraitIsLawful(p, now + 90, p.c.gold + 5 + luck % 11, 0);
  }

  lemma RestedIsLawful(p: Player)
    ensures Lawful(p, Rested(p)) && (InRange(p.c) ==> InRange(Rested(p).p.c))
  {
    hide World.IsRoom;
  }

  lemma PosingIsLawful(p: Player)
    ensures Lawful(p, Stay(p)) && Lawful(p, Pose(p, "standing")) && Lawful(p, Rest(p))
    ensures InRange(p.c) ==> InRange(Pose(p, "standing").p.c) && InRange(Rest(p).p.c)
  {
    hide World.IsRoom;
  }

  // ------------------------------------------------------------ there and back

  /** The arc is done in one go: asking again changes nothing and announces nothing. */
  lemma ArcSettles(t: Turn)
    ensures MoralArc(Stay(MoralArc(t).p)) == Stay(MoralArc(t).p)
  {
  }

  function Clamped(morality: int, delta: int): int {
    Clamp(morality + delta, MORALITY_FLOOR, MORALITY_CEIL)
  }

  /** Kneeling and rising again at the dais: the tide is where it was and the Front is
   *  left, but the hunted keep the brand, pay forty where others pay twenty-five before
   *  either gets thirty back, and whoever sank to the floor on the way has strayed. */
  lemma PledgeThenDefect(p: Player)
    requires p.c.room == "dais" && p.c.faction == "none"
    ensures var kneeling := Pledge(p);
            var rising := Defect(kneeling.p);
            var c := rising.p.c;
            var low := Clamped(p.c.morality, if RaceIsHunted(p.c.race) then -40 else -25);
            && kneeling.tide + rising.tide == 0 && kneeling.saved && rising.saved && c.faction == "ally"
            && c.ashsworn == (p.c.ashsworn || RaceIsHunted(p.c.race))
            && c.morality == Clamped(low, 30)
            && c.strayed == (p.c.strayed || low <= STRAY_FLOOR || c.morality <= STRAY_FLOOR)
            && (rising.returned <==>
                  (p.c.strayed || low <= STRAY_FLOOR) && !p.c.redeemed && !c.ashsworn && c.morality >= REDEEM_CEIL)
  {
    hide RaceIsHunted, Pledge, Defect, MoralArc;
    var q := Pledge(p).p;
    PledgeIs(p);
    DefectIsAnArc(q);
    ArcIs(Turn(q.(c := Shifted(q.c.(faction := "ally"), 30)), true, 10, false));
  }

  lemma PledgeIs(p: Player)
    requires p.c.faction == "none"
    ensures var t := Pledge(p);
            var hunted := RaceIsHunted(p.c.race);
            var m := Clamped(p.c.morality, if hunted then -40 else -25);
            && t.saved && t.tide == -10 && !t.returned
            && t.p.c == p.c.(faction := "front", ashsworn := p.c.ashsworn || hunted, morality := m,
                             strayed := p.c.strayed || m <= STRAY_FLOOR)
  {
  }

  lemma ArcIs(t: Turn)
    requires t.p.c.faction != "front"
    ensures var c, d := t.p.c, MoralArc(t).p.c;
            && MoralArc(t).tide == t.tide && (t.saved ==> MoralArc(t).saved)
            && d.faction == c.faction && d.ashsworn == c.ashsworn && d.morality == c.morality
            && d.strayed == (c.strayed || c.morality <= STRAY_FLOOR)
            && (MoralArc(t).returned <==> t.returned || (c.strayed && !c.redeemed && !c.ashsworn && c.morality >= REDEEM_CEIL))
  {
  }

  // ------------------------------------------------------ offers and refusals

  /** Whether send_actions lists join for a player standing in that room: the table's
   *  offers until one was taken, and the dais for those without a side. */
  predicate OffersJoin(p: Player) {
    || ((p.c.room == "market" || p.c.room == "bias-checkpoint") && !p.resolved)
    || (p.c.room == "dais" && p.c.faction == "none")
  }

  predicate OffersDefend(p: Player) {
    (p.c.room == "market" || p.c.room == "bias-checkpoint") && !p.resolved
  }

  /** The oath is taken where it is offered, except in the bias checkpoint, and besides
   *  in the checkpoint, where it is not offered. */
  lemma JoinIsHonouredIff(p: Player)
    ensures Join(p).saved <==> (OffersJoin(p) && p.c.room != "bias-checkpoint") || (p.c.room == "checkpoint" && !p.resolved)
    ensures !Join(p).saved ==> Join(p) == Stay(p)
  {
    hide Sworn;
  }

  /** So is the stand. */
  lemma DefendIsHonouredIff(p: Player)
    ensures Defend(p).saved <==> (OffersDefend(p) && p.c.room != "bias-checkpoint") || (p.c.room == "checkpoint" && !p.resolved)
    ensures !Defend(p).saved ==> Defend(p) == Stay(p)
  {
    hide AddOnce;
  }

  /** Who pays the dealer gets dust exactly when the pack has a slot free. */
  lemma DustIsReceivedIff(p: Player, arg: string)
    requires p.c.room == "tavern" && ContainsFolded(arg, "dust") && p.c.gold >= DUST_COST
    ensures Buy(p, arg).saved && Buy(p, arg).p.c.gold == p.c.gold - DUST_COST
    ensures Buy(p, arg).p.c.inventory == p.c.inventory + ["dust"] <==> |p.c.inventory| < MAX_INVENTORY
    ensures Buy(p, arg).p.c.inventory == p.c.inventory <==> |p.c.inventory| >= MAX_INVENTORY
  {
    hide ContainsFolded;
    assert |p.c.inventory + ["dust"]| == |p.c.inventory| + 1;
  }

  // ------------------------------------------------------------ no arbitrage

  lemma {:induction false} WareIsStocked(stock: seq<(string, int)>, arg: string)
    ensures Ware(stock, arg).Some? ==> Ware(stock, arg).value in stock
  {
    if stock != [] {
      WareIsStocked(stock[1..], arg);
    }
  }

  /** Nothing on sale fetches its price at the market, whoever sells it. */
  lemma ResaleLoses(ware: (string, int), faction: string)
    requires ware in Items.STOCK || ware == ("dust", DUST_COST)
    ensures Resale(ware.0, faction) < ware.1 && 0 < ware.1 && |ware.0| < ITEM_SIZE
  {
  }

  /** Bought here and sold there, every ware leaves its trader poorer. */
  lemma BuyThenSellLoses(p: Player, arg: string, q: Player, word: string)
    requires var c := Buy(p, arg).p.c;
             && c.inventory != p.c.inventory
             && q.c == c.(room := q.c.room, faction := q.c.faction)
             && FindInventory(c.inventory, word, Items.Name) == Some(Last(c.inventory))
    ensures Sell(q, word).p.c.gold < p.c.gold
  {
    hide FindInventory, Ware, ContainsFolded, Items.Value, Items.STOCK, WithoutFirst, Resale;
    WareIsStocked(Items.STOCK, arg);
    var w := Ware(Items.STOCK, arg);
    if p.c.room == "tavern" {
      ResaleLoses(("dust", DUST_COST), q.c.faction);
    } else if w.Some? {
      ResaleLoses(w.value, q.c.faction);
    }
  }
}
