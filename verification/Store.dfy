/** The character store: one row per lower-cased name, each a JSON document. */
module Store {
  import opened Sequences
  import opened Text
  import opened Characters

  datatype Json = Str(s: string) | Num(n: int) | Bool(b: bool) | List(items: seq<Json>) | Null

  /** The keys of a character document. */
  datatype Field =
    | Name | Race | Room | Faction | Position | Title | Weapon
    | Hp | MaxHp | Level | Xp | Gold | Morality | Addiction
    | Ashsworn | Strayed | Redeemed | Inventory

  type Doc = map<Field, Json>

  /** What a row's text is: a document, or text that does not parse. */
  datatype Row = Record(doc: Doc) | Garbage

  const KEY_SIZE: nat := 64

  /** The struct's own bounds: every text fits its buffer, the pack its slots. */
  predicate Fits(c: Character) {
    && |c.name| < 33 && |c.race| < 16 && |c.room| < 32 && |c.faction| < 16 && |c.position| < 16
    && |c.title| < 48 && |c.weapon| < 16
    && |c.inventory| <= MAX_INVENTORY && forall id :: id in c.inventory ==> |id| < ITEM_SIZE
  }

  function StrItems(ids: seq<string>): seq<Json> {
    seq(|ids|, i requires 0 <= i < |ids| => Str(ids[i]))
  }

  const ALL_FIELDS: set<Field> := {Name, Race, Room, Faction, Position, Title, Weapon, Hp, MaxHp, Level, Xp, Gold,
                                   Morality, Addiction, Ashsworn, Strayed, Redeemed, Inventory}

  function ValueOf(c: Character, f: Field): Json {
    match f
    case Name => Str(c.name)
    case Race => Str(c.race)
    case Room => Str(c.room)
    case Faction => Str(c.faction)
    case Position => Str(c.position)
    case Title => Str(c.title)
    case Weapon => Str(c.weapon)
    case Hp => Num(c.hp)
    case MaxHp => Num(c.maxHp)
    case Level => Num(c.level)
    case Xp => Num(c.xp)
    case Gold => Num(c.gold)
    case Morality => Num(c.morality)
    case Addiction => Num(c.addiction)
    case Ashsworn => Bool(c.ashsworn)
    case Strayed => Bool(c.strayed)
    case Redeemed => Bool(c.redeemed)
    case Inventory => List(StrItems(c.inventory))
  }

  /** character_to_json writes every field. */
  function ToDoc(c: Character): Doc {
    map f | f in ALL_FIELDS :: ValueOf(c, f)
  }

  /** copy_json_string: anything but a string leaves the default. */
  function TextField(doc: Doc, f: Field, size: nat, default: string): string
    requires size > 0
  {
    if f in doc && doc[f].Str? then Clip(doc[f].s, size) else default
  }

  function NumberField(doc: Doc, f: Field, default: int): int {
    if f in doc && doc[f].Num? then doc[f].n else default
  }

  /** json_flag: a bool, or a number other than zero. */
  function FlagField(doc: Doc, f: Field): bool {
    f in doc && match doc[f] case Bool(b) => b case Num(n) => n != 0 case _ => false
  }

  /** The loop over the inventory array, after n entries: strings are kept while
   *  there is room. */
  function Packed(items: seq<Json>, n: nat): (r: seq<string>)
    requires n <= |items|
    ensures |r| <= MAX_INVENTORY
  {
    if n == 0 then []
    else
      var r := Packed(items, n - 1);
      if items[n - 1].Str? && |r| < MAX_INVENTORY then r + [Clip(items[n - 1].s, ITEM_SIZE)] else r
  }

  function Carried(doc: Doc): (r: seq<string>)
    ensures 0 < |r| <= MAX_INVENTORY
  {
    var r := if Inventory in doc && doc[Inventory].List? then Packed(doc[Inventory].items, |doc[Inventory].items|) else [];
    if r == [] then ["shiv"] else r
  }

  /** character_from_json on a document; name seeds the defaults. */
  function FromDoc(doc: Doc, name: string): Character {
    var n := NewCharacter(name);
    var position := TextField(doc, Position, 16, n.position);
    Character(
      TextField(doc, Name, 33, n.name), TextField(doc, Race, 16, n.race), TextField(doc, Room, 32, n.room),
      TextField(doc, Faction, 16, n.faction), if position == "" then "standing" else position,
      TextField(doc, Title, 48, n.title), Carried(doc), TextField(doc, Weapon, 16, n.weapon),
      NumberField(doc, Hp, n.hp), NumberField(doc, MaxHp, n.maxHp), NumberField(doc, Level, n.level),
      NumberField(doc, Xp, 0), NumberField(doc, Gold, 0), NumberField(doc, Morality, 0), NumberField(doc, Addiction, 0),
      FlagField(doc, Ashsworn), FlagField(doc, Strayed), FlagField(doc, Redeemed))
  }

  predicate NameChar(c: char) {
    'a' <= c <= 'z' || 'A' <= c <= 'Z' || '0' <= c <= '9' || c == '_' || c == '-'
  }

  /** hg_store_valid_name. */
  predicate ValidName(name: string) {
    2 <= |name| <= 32 && forall i :: 0 <= i < |name| ==> NameChar(name[i])
  }

  lemma {:induction false} PackedFits(items: seq<Json>, n: nat)
    requires n <= |items|
    ensures forall id :: id in Packed(items, n) ==> |id| < ITEM_SIZE
  {
    if n > 0 {
      PackedFits(items, n - 1);
    }
  }

  /** Whatever a document says, what is read from it fits the struct. */
  lemma ReadFits(doc: Doc, name: string)
    ensures Fits(FromDoc(doc, name))
  {
    if Inventory in doc && doc[Inventory].List? {
      PackedFits(doc[Inventory].items, |doc[Inventory].items|);
    }
    hide Packed;
  }

  /** A document that says nothing reads as somebody new, but without the purse, and
   *  without having chosen a life. */
  lemma EmptyReads(name: string)
    requires |name| < 33
    ensures FromDoc(map[], name) ==
            Character(name, "", "nexus", "none", "standing", "", ["shiv"], "", 30, 30, 1, 0, 0, 0, 0, false, false, false)
  {
  }

  /** What a field says is read as far as it is of its kind: text cut to its buffer, a
   *  number, a flag that may be a number; else it is as if it were not there. */
  lemma FieldsRead(doc: Doc, f: Field, size: nat, text: string, number: int)
    requires size > 0
    ensures TextField(doc, f, size, text) == (if f in doc && doc[f].Str? then Clip(doc[f].s, size) else text)
    ensures NumberField(doc, f, number) == (if f in doc && doc[f].Num? then doc[f].n else number)
    ensures FlagField(doc, f) <==> f in doc && (doc[f] == Bool(true) || (doc[f].Num? && doc[f].n != 0))
  {
  }

  /** What a save and a load make of a character. */
  function Settled(c: Character): Character {
    c.(inventory := if c.inventory == [] then ["shiv"] else c.inventory,
       position := if c.position == "" then "standing" else c.position)
  }

  lemma {:induction false} PackedBack(ids: seq<string>, n: nat)
    requires n <= |ids| <= MAX_INVENTORY
    requires forall id :: id in ids ==> |id| < ITEM_SIZE
    ensures Packed(StrItems(ids), n) == ids[..n]
  {
    if n > 0 {
      PackedBack(ids, n - 1);
      assert ids[n - 1] in ids;
      assert ids[..n] == ids[..n - 1] + [ids[n - 1]];
    }
  }

  lemma TextBack(c: Character, f: Field, size: nat, default: string)
    requires ValueOf(c, f).Str? && |ValueOf(c, f).s| < size
    ensures TextField(ToDoc(c), f, size, default) == ValueOf(c, f).s
  {
    assert f in ALL_FIELDS;
  }

  lemma NumberBack(c: Character, f: Field, default: int)
    requires ValueOf(c, f).Num?
    ensures NumberField(ToDoc(c), f, default) == ValueOf(c, f).n
  {
    assert f in ALL_FIELDS;
  }

  lemma FlagBack(c: Character, f: Field)
    requires ValueOf(c, f).Bool?
    ensures FlagField(ToDoc(c), f) == ValueOf(c, f).b
  {
    assert f in ALL_FIELDS;
  }

  lemma PackBack(c: Character)
    requires Fits(c)
    ensures Carried(ToDoc(c)) == Settled(c).inventory
  {
    PackedBack(c.inventory, |c.inventory|);
    assert Inventory in ALL_FIELDS;
  }

  lemma TextsBack(c: Character, n: Character)
    requires Fits(c)
    ensures var d := ToDoc(c);
            && TextField(d, Name, 33, n.name) == c.name && TextField(d, Race, 16, n.race) == c.race
            && TextField(d, Room, 32, n.room) == c.room && TextField(d, Faction, 16, n.faction) == c.faction
            && TextField(d, Position, 16, n.position) == c.position && TextField(d, Title, 48, n.title) == c.title
            && TextField(d, Weapon, 16, n.weapon) == c.weapon
  {
    hide TextField, ToDoc;
    TextBack(c, Name, 33, n.name);
    TextBack(c, Race, 16, n.race);
    TextBack(c, Room, 32, n.room);
    TextBack(c, Faction, 16, n.faction);
    TextBack(c, Position, 16, n.position);
    TextBack(c, Title, 48, n.title);
    TextBack(c, Weapon, 16, n.weapon);
  }

  lemma ValuesBack(c: Character, n: Character)
    ensures var d := ToDoc(c);
            && NumberField(d, Hp, n.hp) == c.hp && NumberField(d, MaxHp, n.maxHp) == c.maxHp
            && NumberField(d, Level, n.level) == c.level && NumberField(d, Xp, 0) == c.xp
            && NumberField(d, Gold, 0) == c.gold && NumberField(d, Morality, 0) == c.morality
            && NumberField(d, Addiction, 0) == c.addiction && FlagField(d, Ashsworn) == c.ashsworn
            && FlagField(d, Strayed) == c.strayed && FlagField(d, Redeemed) == c.redeemed
  {
    hide NumberField, FlagField, ToDoc;
    NumberBack(c, Hp, n.hp);
    NumberBack(c, MaxHp, n.maxHp);
    NumberBack(c, Level, n.level);
    NumberBack(c, Xp, 0);
    NumberBack(c, Gold, 0);
    NumberBack(c, Morality, 0);
    NumberBack(c, Addiction, 0);
    FlagBack(c, Ashsworn);
    FlagBack(c, Strayed);
    FlagBack(c, Redeemed);
  }

  /** The round trip through the document. */
  lemma RoundTrip(c: Character, name: string)
    requires Fits(c)
    ensures FromDoc(ToDoc(c), name) == Settled(c)
  {
    hide TextField, NumberField, FlagField, ToDoc, Carried, NewCharacter;
    TextsBack(c, NewCharacter(name));
    ValuesBack(c, NewCharacter(name));
    PackBack(c);
  }

  /** It is the identity exactly on characters that carry and pose something,
   *  and doing it twice is doing it once. */
  lemma RoundTripExactly(c: Character, name: string)
    requires Fits(c)
    ensures FromDoc(ToDoc(c), name) == c <==> c.inventory != [] && c.position != ""
    ensures Fits(FromDoc(ToDoc(c), name))
    ensures FromDoc(ToDoc(FromDoc(ToDoc(c), name)), name) == FromDoc(ToDoc(c), name)
  {
    RoundTrip(c, name);
    var s := Settled(c);
    assert forall id :: id in s.inventory ==> |id| < ITEM_SIZE;
    RoundTrip(s, name);
  }

  /** name_key. */
  function Key(name: string): Option<string> {
    if name == "" || |name| >= KEY_SIZE then None else Some(Fold(name))
  }

  /** A key is the name in lower case; none for no name, nor for one of sixty-four letters or more. */
  lemma KeyIff(name: string)
    ensures Key(name).Some? <==> 0 < |name| < 64
    ensures Key(name).Some? ==> |Key(name).value| == |name| && forall i :: 0 <= i < |name| ==> Key(name).value[i] == Lower(name[i])
  {
  }

  datatype Loaded = Found(c: Character) | Missing | Damaged

  /** hg_store_load. */
  function Load(rows: map<string, Row>, name: string): Loaded {
    match Key(name)
    case None => Damaged
    case Some(k) =>
      if k !in rows then Missing
      else match rows[k]
        case Record(doc) => Found(FromDoc(doc, name))
        case Garbage => Damaged
  }

  /** hg_store_save. */
  function Save(rows: map<string, Row>, c: Character): map<string, Row> {
    match Key(c.name)
    case None => rows
    case Some(k) => rows[k := Record(ToDoc(c))]
  }

  /** import_record: insert or ignore, under the file's stem as it is spelled. */
  function Import(rows: map<string, Row>, stem: string, row: Row): map<string, Row> {
    if row.Garbage? || stem in rows then rows else rows[stem := row]
  }

  function SaveAll(rows: map<string, Row>, cs: seq<Character>): map<string, Row> {
    if cs == [] then rows else Save(SaveAll(rows, Init(cs)), Last(cs))
  }

  /** The last character of a history saved under the name, letter case aside. */
  function LastSaved(cs: seq<Character>, name: string): Option<Character> {
    if cs == [] then None
    else if SameName(Last(cs).name, name) then Some(Last(cs))
    else LastSaved(Init(cs), name)
  }

  lemma SameLength(a: string, b: string)
    requires SameName(a, b)
    ensures |a| == |b|
  {
    assert |Fold(a)| == |a| && |Fold(b)| == |b|;
  }

  /** The store refines a map keyed by names without letter case: after any
   *  history of saves a load returns the last save under any spelling of the
   *  name, settled, and names never saved are as they were. */
  lemma {:induction false} StoreIsCaseBlindMap(rows: map<string, Row>, cs: seq<Character>, name: string)
    requires forall c :: c in cs ==> Fits(c) && c.name != ""
    ensures Load(SaveAll(rows, cs), name) ==
            match LastSaved(cs, name) case Some(c) => Found(Settled(c)) case None => Load(rows, name)
  {
    hide ToDoc, FromDoc, Settled, Fits;
    if cs != [] {
      var c := Last(cs);
      assert c in cs;
      FitsHasKey(c);
      StoreIsCaseBlindMap(rows, Init(cs), name);
      if SameName(c.name, name) {
        SameLength(c.name, name);
        RoundTrip(c, name);
      }
    }
  }

  lemma FitsHasKey(c: Character)
    requires Fits(c) && c.name != ""
    ensures Key(c.name) == Some(Fold(c.name))
  {
  }

  /** A legacy record: the stem of its file, and the text in it. */
  datatype Legacy = Legacy(stem: string, row: Row)

  /** A stem that fits a key, over text that parses. */
  predicate Importable(file: Legacy) {
    0 < |file.stem| < KEY_SIZE && file.row.Record?
  }

  /** migrate_legacy_json over the files as the directory lists them. */
  function ImportAll(rows: map<string, Row>, files: seq<Legacy>): map<string, Row> {
    if files == [] then rows
    else if !Importable(Last(files)) then ImportAll(rows, Init(files))
    else Import(ImportAll(rows, Init(files)), Last(files).stem, Last(files).row)
  }

  /** The first importable file of that stem. */
  function FirstOf(files: seq<Legacy>, stem: string): Option<Row> {
    if files == [] then None
    else if FirstOf(Init(files), stem).Some? then FirstOf(Init(files), stem)
    else if Last(files).stem == stem && Importable(Last(files)) then Some(Last(files).row)
    else None
  }

  /** An import replaces no row: a key holds what it held, or else its first importable file. */
  lemma {:induction false} ImportOnlyAdds(rows: map<string, Row>, files: seq<Legacy>, k: string)
    ensures var r := ImportAll(rows, files);
            && (k in rows ==> k in r && r[k] == rows[k])
            && (k !in rows ==> if k in r then FirstOf(files, k) == Some(r[k]) else FirstOf(files, k).None?)
  {
    if files != [] {
      ImportOnlyAdds(rows, Init(files), k);
    }
  }

  /** So importing the same files again, at every later start of the server, changes
   *  nothing as long as no row was deleted, whatever the rows hold by then. */
  lemma {:induction false} ImportAgain(rows: map<string, Row>, files: seq<Legacy>, later: map<string, Row>)
    requires forall k :: k in ImportAll(rows, files) ==> k in later
    ensures ImportAll(later, files) == later
  {
    if files != [] {
      ImportAgainBefore(rows, files, later);
      ImportAgain(rows, Init(files), later);
    }
  }

  lemma ImportAgainBefore(rows: map<string, Row>, files: seq<Legacy>, later: map<string, Row>)
    requires files != [] && forall k :: k in ImportAll(rows, files) ==> k in later
    ensures forall k :: k in ImportAll(rows, Init(files)) ==> k in later
    ensures Importable(Last(files)) ==> Last(files).stem in later
  {
  }

  /** A newly imported document is found under a spelling of its stem exactly
   *  when the stem is already in lower case. */
  lemma ImportReachable(rows: map<string, Row>, stem: string, doc: Doc)
    requires 0 < |stem| < KEY_SIZE && stem !in rows && Fold(stem) !in rows
    ensures Load(Import(rows, stem, Record(doc)), stem) == Found(FromDoc(doc, stem)) <==> Fold(stem) == stem
  {
  }

  class CharacterStore {
    var rows: map<string, Row>

    constructor ()
      ensures rows == map[]
    {
      rows := map[];
    }

    /** name_key, character by character. */
    method NameKey(name: string) returns (key: Option<string>)
      ensures key == Key(name)
    {
      if |name| == 0 || |name| >= KEY_SIZE {
        return None;
      }
      var out := "";
      for i := 0 to |name|
        invariant |out| == i && forall j :: 0 <= j < i ==> out[j] == Lower(name[j])
      {
        out := out + [Lower(name[i])];
      }
      assert out == Fold(name);
      return Some(out);
    }

    method SaveCharacter(c: Character) returns (ok: bool)
      modifies this
      ensures ok == Key(c.name).Some?
      ensures rows == Save(old(rows), c)
    {
      var key := NameKey(c.name);
      if key.None? {
        return false;
      }
      rows := rows[key.value := Record(ToDoc(c))];
      return true;
    }

    method LoadCharacter(name: string) returns (loaded: Loaded)
      ensures loaded == Load(rows, name)
    {
      var key := NameKey(name);
      if key.None? {
        return Damaged;
      }
      if key.value !in rows {
        return Missing;
      }
      if rows[key.value].Garbage? {
        return Damaged;
      }
      var doc := rows[key.value].doc;
      var pack := ReadInventory(doc);
      var c := FromDoc(doc, name).(inventory := pack);
      return Found(c);
    }

    /** The inventory part of character_from_json. */
    method ReadInventory(doc: Doc) returns (pack: seq<string>)
      ensures pack == Carried(doc)
    {
      pack := [];
      if Inventory in doc && doc[Inventory].List? {
        var items := doc[Inventory].items;
        for i := 0 to |items|
          invariant pack == Packed(items, i)
        {
          if items[i].Str? && |pack| < MAX_INVENTORY {
            pack := pack + [Clip(items[i].s, ITEM_SIZE)];
          }
        }
      }
      if |pack| == 0 {
        pack := ["shiv"];
      }
    }
  }
}
