/**
 * Item definitions: the slot an equippable item goes to, and the parser of
 * an item's stat-modifier string. The format is a ':'-separated list of
 * (kind, payload) fields; a payload is a '/'-separated list of `Stat;amount`
 * entries. Kind "add" gives integer amounts, any other kind real factors.
 */
module ItemDb {
  import opened Common

  datatype ItemType = Useable | Key | Accessory | Weapon | Armor | NoType

  datatype UseRestriction = NoRestriction | Hero | Samurai | Mage

  /** The equipment slots of an actor, as `EquipSlot` declares them in Actor.cs. */
  datatype EquipSlot = WeaponSlot | ArmorSlot | Accessory1 | Accessory2

  /** What a `StatModifier` holds: additive amounts and multiplicative factors per statistic. */
  datatype StatModifier = StatModifier(add: map<Stat, int>, multiply: map<Stat, real>)

  /** An item definition, as far as equipping and use restrictions read it. */
  datatype ItemInfo = ItemInfo(id: string, itemType: ItemType, useRestriction: seq<UseRestriction>, modifier: StatModifier)

  // ---------------------------------------------------------------------
  // Equipment slots
  // ---------------------------------------------------------------------

  /** The kind of item a slot is meant to hold. */
  function SlotKind(slot: EquipSlot): ItemType
  {
    match slot
    case WeaponSlot => Weapon
    case ArmorSlot => Armor
    case Accessory1 => Accessory
    case Accessory2 => Accessory
  }

  /**
   * `ItemInfo.GetEquipSlot` as written: armour is sent to the weapon slot.
   * The fall-through value `EquipSlot.None` is not a member of the enumeration
   * the slots are declared in; it is modelled as `None`.
   */
  function GetEquipSlotAsWritten(t: ItemType): (r: Option<EquipSlot>)
    ensures r.Some? <==> t in {Weapon, Armor, Accessory}
  {
    if t == Weapon then Some(WeaponSlot)
    else if t == Armor then Some(WeaponSlot)
    else if t == Accessory then Some(Accessory1)
    else None
  }

  /** As written, equipping armour lands in a slot meant for weapons. */
  lemma ArmorGoesToWeaponSlot()
    ensures GetEquipSlotAsWritten(Armor) == Some(WeaponSlot)
    ensures SlotKind(GetEquipSlotAsWritten(Armor).value) != Armor
  {
  }

  /**
   * `ItemInfo.GetEquipSlot` as intended: every equippable item goes to a slot
   * meant for its kind (accessories to the first accessory slot), and only
   * equippable items get a slot.
   */
  function GetEquipSlot(t: ItemType): (r: Option<EquipSlot>)
    ensures r.Some? <==> t in {Weapon, Armor, Accessory}
    ensures r.Some? ==> SlotKind(r.value) == t && r.value != Accessory2
  {
    if t == Weapon then Some(WeaponSlot)
    else if t == Armor then Some(ArmorSlot)
    else if t == Accessory then Some(Accessory1)
    else None
  }

  /** The two versions differ on armour only. */
  lemma GetEquipSlotDiffersOnArmorOnly(t: ItemType)
    ensures GetEquipSlot(t) != GetEquipSlotAsWritten(t) <==> t == Armor
  {
  }

  // ---------------------------------------------------------------------
  // String splitting (C#'s `string.Split(char)`)
  // ---------------------------------------------------------------------

  /**
   * `s.Split(c)`: the maximal pieces between separators, empty pieces kept;
   * the empty string gives one empty piece.
   */
  function Split(s: string, c: char): (parts: seq<string>)
    ensures |parts| >= 1
    ensures forall i :: 0 <= i < |parts| ==> c !in parts[i]
  {
    if s == [] then [[]]
    else if s[0] == c then [[]] + Split(s[1..], c)
    else
      var rest := Split(s[1..], c);
      [[s[0]] + rest[0]] + rest[1..]
  }

  /** `string.Join(c, parts)`. */
  function Join(parts: seq<string>, c: char): string
  {
    if parts == [] then []
    else if |parts| == 1 then parts[0]
    else parts[0] + [c] + Join(parts[1..], c)
  }

  /** Joining the pieces back with the separator gives the original string. */
  lemma {:induction false} JoinSplit(s: string, c: char)
    ensures Join(Split(s, c), c) == s
  {
    if s == [] {
    } else if s[0] == c {
      JoinSplit(s[1..], c);
      assert s == [c] + s[1..];
    } else {
      var rest := Split(s[1..], c);
      JoinSplit(s[1..], c);
      if |rest| == 1 {
        assert s == [s[0]] + s[1..];
      } else {
        assert Join(rest, c) == rest[0] + [c] + Join(rest[1..], c);
        assert s == [s[0]] + s[1..];
      }
    }
  }

  /** A piece without the separator splits to itself. */
  lemma {:induction false} SplitPlain(a: string, c: char)
    requires c !in a
    ensures Split(a, c) == [a]
  {
    if a != [] {
      SplitPlain(a[1..], c);
      assert [a[0]] + a[1..] == a;
    }
  }

  /** A separator-free piece followed by a separator splits off as the first piece. */
  lemma {:induction false} SplitFirst(a: string, b: string, c: char)
    requires c !in a
    ensures Split(a + [c] + b, c) == [a] + Split(b, c)
  {
    if a == [] {
      assert a + [c] + b == [c] + b;
    } else {
      SplitFirst(a[1..], b, c);
      assert (a + [c] + b)[1..] == a[1..] + [c] + b;
      assert [a[0]] + a[1..] == a;
    }
  }

  /** Splitting joined separator-free pieces gives the pieces back. */
  lemma {:induction false} SplitJoin(parts: seq<string>, c: char)
    requires parts != []
    requires forall i :: 0 <= i < |parts| ==> c !in parts[i]
    ensures Split(Join(parts, c), c) == parts
  {
    if |parts| == 1 {
      SplitPlain(parts[0], c);
    } else {
      SplitJoin(parts[1..], c);
      SplitFirst(parts[0], Join(parts[1..], c), c);
      assert [parts[0]] + parts[1..] == parts;
    }
  }

  // ---------------------------------------------------------------------
  // Parsing statistic names and integers
  // ---------------------------------------------------------------------

  function LowerChar(ch: char): char
  {
    if 'A' <= ch <= 'Z' then (ch as int + 32) as char else ch
  }

  /** ASCII case folding. */
  function Lower(s: string): (r: string)
    ensures |r| == |s|
  {
    seq(|s|, i requires 0 <= i < |s| => LowerChar(s[i]))
  }

  /** Each statistic's name, case-folded. */
  function LowerName(st: Stat): string
  {
    match st
    case HP => "hp"
    case MaxHP => "maxhp"
    case MP => "mp"
    case MaxMP => "maxmp"
    case Speed => "speed"
    case Attack => "attack"
    case Defense => "defense"
    case Magic => "magic"
    case Resist => "resist"
    case Counter => "counter"
  }

  lemma LowerNameIsLower(st: Stat)
    ensures Lower(StatName(st)) == LowerName(st)
  {
    var name := StatName(st);
    assert forall i :: 0 <= i < |name| ==> Lower(name)[i] == LowerName(st)[i];
  }

  /** Every statistic's name, case-folded, is its `LowerName`. */
  lemma LowerNamesAreLower()
    ensures forall st :: Lower(StatName(st)) == LowerName(st)
  {
    forall st {
      LowerNameIsLower(st);
    }
  }

  /** The statistic whose case-folded name is `l`, if any. */
  function ParseStatLower(l: string): (r: Option<Stat>)
    ensures r.Some? ==> l == LowerName(r.value)
    ensures r.None? ==> forall st :: l != LowerName(st)
  {
    if l == "hp" then Some(HP)
    else if l == "maxhp" then Some(MaxHP)
    else if l == "mp" then Some(MP)
    else if l == "maxmp" then Some(MaxMP)
    else if l == "speed" then Some(Speed)
    else if l == "attack" then Some(Attack)
    else if l == "defense" then Some(Defense)
    else if l == "magic" then Some(Magic)
    else if l == "resist" then Some(Resist)
    else if l == "counter" then Some(Counter)
    else None
  }

  /**
   * `Enum.TryParse<Stat>(s, true, out stat)` on names: the statistic whose
   * name equals `s` ignoring case, if any.
   */
  function ParseStat(s: string): (r: Option<Stat>)
    ensures r.Some? ==> Lower(s) == Lower(StatName(r.value))
    ensures r.None? ==> forall st :: Lower(s) != Lower(StatName(st))
  {
    LowerNamesAreLower();
    ParseStatLower(Lower(s))
  }

  /** A statistic's own name parses back to it. */
  lemma ParseStatName(st: Stat)
    ensures ParseStat(StatName(st)) == Some(st)
  {
    LowerNameIsLower(st);
  }

  const Int32Min: int := -0x8000_0000
  const Int32Max: int := 0x7FFF_FFFF

  predicate IsDigit(ch: char)
  {
    '0' <= ch <= '9'
  }

  predicate AllDigits(s: string)
  {
    forall i :: 0 <= i < |s| ==> IsDigit(s[i])
  }

  /** The value of a decimal digit string, most significant digit first. */
  function DigitsValue(s: string): (v: nat)
    requires AllDigits(s)
  {
    if s == [] then 0
    else DigitsValue(s[..|s| - 1]) * 10 + (s[|s| - 1] as int - '0' as int)
  }

  /** The decimal spelling of a natural number, without leading zeros. */
  function Digits(n: nat): (s: string)
    ensures s != [] && AllDigits(s)
  {
    if n < 10 then [('0' as int + n) as char]
    else Digits(n / 10) + [('0' as int + n % 10) as char]
  }

  /** `int.ToString()`. */
  function IntToString(n: int): string
  {
    if n < 0 then "-" + Digits(-n) else Digits(n)
  }

  /**
   * `int.TryParse`: an optional sign and at least one digit, whose value is
   * a 32-bit integer.
   */
  function ParseInt(s: string): (r: Option<int>)
    ensures r.Some? ==> Int32Min <= r.value <= Int32Max
  {
    var negative := s != [] && s[0] == '-';
    var digits := if s != [] && (s[0] == '-' || s[0] == '+') then s[1..] else s;
    if digits == [] || !AllDigits(digits) then None
    else
      var v: int := if negative then -(DigitsValue(digits) as int) else DigitsValue(digits);
      if Int32Min <= v <= Int32Max then Some(v) else None
  }

  lemma {:induction false} DigitsRoundTrip(n: nat)
    ensures DigitsValue(Digits(n)) == n
  {
    if n >= 10 {
      DigitsRoundTrip(n / 10);
      var s := Digits(n);
      assert s[..|s| - 1] == Digits(n / 10);
    }
  }

  /** Every 32-bit integer, written out, parses back to itself. */
  lemma ParseIntRoundTrip(n: int)
    requires Int32Min <= n <= Int32Max
    ensures ParseInt(IntToString(n)) == Some(n)
  {
    if n < 0 {
      var d := Digits(-n);
      DigitsRoundTrip(-n);
      assert ("-" + d)[0] == '-' && ("-" + d)[1..] == d;
    } else {
      var d := Digits(n);
      DigitsRoundTrip(n);
      assert IsDigit(d[0]);
    }
  }

  /** Text other than an optional sign followed by digits never parses. */
  lemma ParseIntRejects(s: string)
    requires s == [] || (s[0] != '-' && s[0] != '+' && !IsDigit(s[0]))
    ensures ParseInt(s) == None
  {
  }

  // ---------------------------------------------------------------------
  // Modifier entries and payloads
  // ---------------------------------------------------------------------

  /**
   * One `Stat;amount` entry: exactly two ';'-separated parts, a statistic name
   * and an amount that `parse` accepts; anything else is skipped.
   */
  function ParseEntry<V>(entry: string, parse: string -> Option<V>): Option<(Stat, V)>
  {
    var parts := Split(entry, ';');
    if |parts| != 2 then None
    else match ParseStat(parts[0])
      case None => None
      case Some(st) =>
        match parse(parts[1])
        case None => None
        case Some(v) => Some((st, v))
  }

  /** `Dictionary.Add`: a key already present throws. */
  function Insert<V>(m: map<Stat, V>, st: Stat, v: V): Result<map<Stat, V>>
  {
    if st in m then Err(DuplicateKey) else Ok(m[st := v])
  }

  /** The entries of a payload, front to back, each well-formed one added to `m`. */
  function Entries<V>(m: map<Stat, V>, entries: seq<string>, parse: string -> Option<V>): Result<map<Stat, V>>
    decreases |entries|
  {
    if entries == [] then Ok(m)
    else match ParseEntry(entries[0], parse)
      case None => Entries(m, entries[1..], parse)
      case Some(e) =>
        match Insert(m, e.0, e.1)
        case Err(f) => Err(f)
        case Ok(m') => Entries(m', entries[1..], parse)
  }

  /** `SetUpAddModifier` / `SetUpMultiplyModifier` on a payload: an empty one adds nothing. */
  function Payload<V>(m: map<Stat, V>, data: string, parse: string -> Option<V>): Result<map<Stat, V>>
  {
    if data == [] then Ok(m) else Entries(m, Split(data, '/'), parse)
  }

  /** The well-formed entries of a list, in order. */
  function WellFormed<V>(entries: seq<string>, parse: string -> Option<V>): seq<(Stat, V)>
  {
    if entries == [] then []
    else match ParseEntry(entries[0], parse)
      case None => WellFormed(entries[1..], parse)
      case Some(e) => [e] + WellFormed(entries[1..], parse)
  }

  /** Adding pairs one by one, each with `Dictionary.Add`. */
  function InsertAll<V>(m: map<Stat, V>, pairs: seq<(Stat, V)>): Result<map<Stat, V>>
    decreases |pairs|
  {
    if pairs == [] then Ok(m)
    else match Insert(m, pairs[0].0, pairs[0].1)
      case Err(f) => Err(f)
      case Ok(m') => InsertAll(m', pairs[1..])
  }

  /** Processing the entries is adding their well-formed ones: malformed entries are skipped and the rest still read. */
  lemma {:induction false} EntriesAreWellFormedInserts<V>(m: map<Stat, V>, entries: seq<string>, parse: string -> Option<V>)
    ensures Entries(m, entries, parse) == InsertAll(m, WellFormed(entries, parse))
    decreases |entries|
  {
    if entries != [] {
      match ParseEntry(entries[0], parse)
      case None =>
        EntriesAreWellFormedInserts(m, entries[1..], parse);
      case Some(e) =>
        var w := WellFormed(entries, parse);
        assert w[0] == e && w[1..] == WellFormed(entries[1..], parse);
        if e.0 !in m {
          EntriesAreWellFormedInserts(m[e.0 := e.1], entries[1..], parse);
        }
    }
  }

  /** The keys of a list of pairs are pairwise distinct and absent from `m`. */
  predicate FreshKeys<V>(m: map<Stat, V>, pairs: seq<(Stat, V)>)
  {
    (forall i :: 0 <= i < |pairs| ==> pairs[i].0 !in m) &&
    (forall i, j :: 0 <= i < j < |pairs| ==> pairs[i].0 != pairs[j].0)
  }

  /**
   * Adding pairs succeeds exactly when no key repeats; then the result keeps
   * `m`, holds each pair, and holds nothing else.
   */
  lemma {:induction false} InsertAllMeaning<V>(m: map<Stat, V>, pairs: seq<(Stat, V)>)
    ensures InsertAll(m, pairs).Ok? <==> FreshKeys(m, pairs)
    ensures InsertAll(m, pairs).Ok? ==>
      var r := InsertAll(m, pairs).value;
      (forall k :: k in m ==> k in r && r[k] == m[k]) &&
      (forall i :: 0 <= i < |pairs| ==> pairs[i].0 in r && r[pairs[i].0] == pairs[i].1) &&
      (forall k :: k in r ==> k in m || exists i :: 0 <= i < |pairs| && pairs[i].0 == k)
    decreases |pairs|
  {
    if pairs != [] {
      var p := pairs[0];
      var rest := pairs[1..];
      if p.0 in m {
        assert !FreshKeys(m, pairs);
      } else {
        var m' := m[p.0 := p.1];
        InsertAllMeaning(m', rest);
        if FreshKeys(m, pairs) {
          assert FreshKeys(m', rest) by {
            forall i | 0 <= i < |rest| ensures rest[i].0 !in m' {
              assert rest[i] == pairs[i + 1];
            }
            forall i, j | 0 <= i < j < |rest| ensures rest[i].0 != rest[j].0 {
              assert rest[i] == pairs[i + 1] && rest[j] == pairs[j + 1];
            }
          }
        }
        if FreshKeys(m', rest) {
          assert FreshKeys(m, pairs) by {
            forall i | 0 <= i < |pairs| ensures pairs[i].0 !in m {
              if i > 0 { assert pairs[i] == rest[i - 1]; }
            }
            forall i, j | 0 <= i < j < |pairs| ensures pairs[i].0 != pairs[j].0 {
              if i > 0 { assert pairs[i] == rest[i - 1]; }
              assert pairs[j] == rest[j - 1];
            }
          }
          var r := InsertAll(m', rest).value;
          forall i | 0 <= i < |pairs| ensures pairs[i].0 in r && r[pairs[i].0] == pairs[i].1 {
            if i > 0 { assert pairs[i] == rest[i - 1]; }
          }
          forall k | k in r ensures k in m || exists i :: 0 <= i < |pairs| && pairs[i].0 == k {
            if k !in m' {
              var i :| 0 <= i < |rest| && rest[i].0 == k;
              assert pairs[i + 1] == rest[i];
            } else if k == p.0 {
              assert pairs[0].0 == k;
            }
          }
        }
      }
    }
  }

  /** The text of one entry: the statistic's name, ';', the amount. */
  function EntryText(p: (Stat, int)): string
  {
    StatName(p.0) + ";" + IntToString(p.1)
  }

  /** The written entries of a list of pairs, one each, in order. */
  function Texts(pairs: seq<(Stat, int)>): (texts: seq<string>)
    ensures |texts| == |pairs|
    ensures forall i :: 0 <= i < |pairs| ==> texts[i] == EntryText(pairs[i])
  {
    if pairs == [] then [] else [EntryText(pairs[0])] + Texts(pairs[1..])
  }

  /** A list of additive pairs written as a payload. */
  function Format(pairs: seq<(Stat, int)>): string
  {
    Join(Texts(pairs), '/')
  }

  lemma StatNamePlain(st: Stat)
    ensures ';' !in StatName(st) && '/' !in StatName(st)
  {
  }

  lemma IntToStringPlain(n: int)
    ensures ';' !in IntToString(n) && '/' !in IntToString(n)
  {
    var d := Digits(if n < 0 then -n else n);
    assert forall i :: 0 <= i < |d| ==> IsDigit(d[i]);
  }

  /** One written entry parses back to its pair. */
  lemma EntryRoundTrip(p: (Stat, int))
    requires Int32Min <= p.1 <= Int32Max
    ensures ParseEntry(EntryText(p), ParseInt) == Some(p)
  {
    StatNamePlain(p.0);
    IntToStringPlain(p.1);
    SplitFirst(StatName(p.0), IntToString(p.1), ';');
    SplitPlain(IntToString(p.1), ';');
    assert StatName(p.0) + ";" + IntToString(p.1) == StatName(p.0) + [';'] + IntToString(p.1);
    ParseStatName(p.0);
    ParseIntRoundTrip(p.1);
  }

  /**
   * Round trip of the additive format: the well-formed entries of a written
   * payload are exactly the pairs written, in order, so reading it adds
   * exactly those pairs.
   */
  lemma FormatRoundTrip(m: map<Stat, int>, pairs: seq<(Stat, int)>)
    requires pairs != []
    requires forall i :: 0 <= i < |pairs| ==> Int32Min <= pairs[i].1 <= Int32Max
    ensures WellFormed(Split(Format(pairs), '/'), ParseInt) == pairs
    ensures Payload(m, Format(pairs), ParseInt) == InsertAll(m, pairs)
  {
    var texts := Texts(pairs);
    forall i | 0 <= i < |texts| ensures '/' !in texts[i] {
      StatNamePlain(pairs[i].0);
      IntToStringPlain(pairs[i].1);
    }
    SplitJoin(texts, '/');
    WellFormedTexts(pairs);
    assert Format(pairs) != [] by {
      JoinNonEmpty(texts, '/');
    }
    EntriesAreWellFormedInserts(m, texts, ParseInt);
  }

  lemma {:induction false} WellFormedTexts(pairs: seq<(Stat, int)>)
    requires forall i :: 0 <= i < |pairs| ==> Int32Min <= pairs[i].1 <= Int32Max
    ensures WellFormed(Texts(pairs), ParseInt) == pairs
  {
    if pairs != [] {
      var texts := Texts(pairs);
      assert texts[0] == EntryText(pairs[0]) && texts[1..] == Texts(pairs[1..]);
      EntryRoundTrip(pairs[0]);
      WellFormedTexts(pairs[1..]);
      assert [pairs[0]] + pairs[1..] == pairs;
    }
  }

  lemma JoinNonEmpty(texts: seq<string>, c: char)
    requires texts != [] && texts[0] != []
    ensures Join(texts, c) != []
  {
  }

  // ---------------------------------------------------------------------
  // The whole modifier string
  // ---------------------------------------------------------------------

  /** One (kind, payload) field pair: "add" selects the integer parser, any other kind the real one. */
  function Field(mods: StatModifier, kind: string, payload: string, parseFloat: string -> Option<real>): Result<StatModifier>
  {
    if kind == "add" then
      match Payload(mods.add, payload, ParseInt)
      case Err(f) => Err(f)
      case Ok(a) => Ok(mods.(add := a))
    else
      match Payload(mods.multiply, payload, parseFloat)
      case Err(f) => Err(f)
      case Ok(x) => Ok(mods.(multiply := x))
  }

  /** The fields, read two at a time; a kind without a payload reads past the end. */
  function Fields(mods: StatModifier, fields: seq<string>, parseFloat: string -> Option<real>): Result<StatModifier>
    decreases |fields|
  {
    if fields == [] then Ok(mods)
    else if |fields| == 1 then Err(IndexOutOfRange)
    else match Field(mods, fields[0], fields[1], parseFloat)
      case Err(f) => Err(f)
      case Ok(m') => Fields(m', fields[2..], parseFloat)
  }

  lemma FieldsStep(mods: StatModifier, fields: seq<string>, parseFloat: string -> Option<real>)
    requires |fields| >= 2
    ensures Fields(mods, fields, parseFloat) ==
      match Field(mods, fields[0], fields[1], parseFloat)
      case Err(f) => Err(f)
      case Ok(m') => Fields(m', fields[2..], parseFloat)
  {
  }

  lemma FieldAdd(mods: StatModifier, payload: string, parseFloat: string -> Option<real>)
    ensures Field(mods, "add", payload, parseFloat) ==
      var r := Payload(mods.add, payload, ParseInt);
      if r.Ok? then Ok(mods.(add := r.value)) else Err(r.fault)
  {
  }

  lemma FieldMultiply(mods: StatModifier, kind: string, payload: string, parseFloat: string -> Option<real>)
    requires kind != "add"
    ensures Field(mods, kind, payload, parseFloat) ==
      var r := Payload(mods.multiply, payload, parseFloat);
      if r.Ok? then Ok(mods.(multiply := r.value)) else Err(r.fault)
  {
  }

  /** The `ItemStats` constructor's parse of `data`, starting from the modifiers `mods`. */
  function Loaded(mods: StatModifier, data: string, parseFloat: string -> Option<real>): Result<StatModifier>
  {
    if data == [] then Ok(mods) else Fields(mods, Split(data, ':'), parseFloat)
  }

  const NoModifiers: StatModifier := StatModifier(map[], map[])

  /** An empty string yields no modifiers. */
  lemma LoadedEmpty(parseFloat: string -> Option<real>)
    ensures Loaded(NoModifiers, "", parseFloat) == Ok(NoModifiers)
  {
  }

  /** An odd number of fields always fails, however the earlier pairs read. */
  lemma {:induction false} OddFieldsFail(mods: StatModifier, fields: seq<string>, parseFloat: string -> Option<real>)
    requires |fields| % 2 == 1
    ensures Fields(mods, fields, parseFloat).Err?
    decreases |fields|
  {
    if |fields| > 1 {
      match Field(mods, fields[0], fields[1], parseFloat)
      case Err(_) =>
      case Ok(m') => OddFieldsFail(m', fields[2..], parseFloat);
    }
  }

  /** Reading a string without ':' always fails: its single field has no payload. */
  lemma LoadedWithoutColonFails(mods: StatModifier, data: string, parseFloat: string -> Option<real>)
    requires data != [] && ':' !in data
    ensures Loaded(mods, data, parseFloat) == Err(IndexOutOfRange)
  {
    SplitPlain(data, ':');
  }

  /** An "add" field changes only the additive amounts, any other kind only the factors. */
  lemma FieldFrame(mods: StatModifier, kind: string, payload: string, parseFloat: string -> Option<real>)
    ensures Field(mods, kind, payload, parseFloat).Ok? && kind == "add" ==>
      Field(mods, kind, payload, parseFloat).value.multiply == mods.multiply
    ensures Field(mods, kind, payload, parseFloat).Ok? && kind != "add" ==>
      Field(mods, kind, payload, parseFloat).value.add == mods.add
  {
  }

  /** An item's `ItemStats`: the `Modifier` whose two dictionaries the parser fills. */
  class ItemStats {
    var add: map<Stat, int>
    var multiply: map<Stat, real>

    function Modifier(): StatModifier
      reads this
    {
      StatModifier(add, multiply)
    }

    constructor ()
      ensures Modifier() == NoModifiers
    {
      add := map[];
      multiply := map[];
    }

    /**
     * `SetUpAddModifier`: each well-formed entry of the payload is added to
     * the additive amounts; a repeated statistic throws.
     */
    method SetUpAddModifier(data: string) returns (fault: Option<Fault>)
      modifies this
      ensures multiply == old(multiply)
      ensures Payload(old(add), data, ParseInt) == if fault.None? then Ok(add) else Err(fault.value)
    {
      fault := None;
      if data == [] {
        return;
      }
      var entries := Split(data, '/');
      var j := 0;
      while j < |entries|
        invariant 0 <= j <= |entries| && multiply == old(multiply)
        invariant Entries(old(add), entries, ParseInt) == Entries(add, entries[j..], ParseInt)
      {
        assert entries[j..][1..] == entries[j + 1..];
        var e := ParseEntry(entries[j], ParseInt);
        if e.Some? {
          if e.value.0 in add {
            return Some(DuplicateKey);
          }
          add := add[e.value.0 := e.value.1];
        }
        j := j + 1;
      }
    }

    /**
     * `SetUpMultiplyModifier`: as `SetUpAddModifier`, with the factors read by
     * `parseFloat` and added to the multiplicative dictionary.
     */
    method SetUpMultiplyModifier(data: string, parseFloat: string -> Option<real>) returns (fault: Option<Fault>)
      modifies this
      ensures add == old(add)
      ensures Payload(old(multiply), data, parseFloat) == if fault.None? then Ok(multiply) else Err(fault.value)
    {
      fault := None;
      if data == [] {
        return;
      }
      var entries := Split(data, '/');
      var j := 0;
      while j < |entries|
        invariant 0 <= j <= |entries| && add == old(add)
        invariant Entries(old(multiply), entries, parseFloat) == Entries(multiply, entries[j..], parseFloat)
      {
        assert entries[j..][1..] == entries[j + 1..];
        var e := ParseEntry(entries[j], parseFloat);
        if e.Some? {
          if e.value.0 in multiply {
            return Some(DuplicateKey);
          }
          multiply := multiply[e.value.0 := e.value.1];
        }
        j := j + 1;
      }
    }

    /**
     * The body of the `ItemStats(data)` constructor: the ':'-separated fields
     * are read in pairs, the index stepping past each payload.
     */
    method Parse(data: string, parseFloat: string -> Option<real>) returns (fault: Option<Fault>)
      modifies this
      ensures Loaded(old(Modifier()), data, parseFloat) == if fault.None? then Ok(Modifier()) else Err(fault.value)
    {
      fault := None;
      if data == [] {
        return;
      }
      var types := Split(data, ':');
      ghost var spec := Loaded(old(Modifier()), data, parseFloat);
      assert spec == Fields(Modifier(), types, parseFloat);
      var i := 0;
      while i < |types|
        invariant 0 <= i <= |types| && fault.None?
        invariant spec == Fields(Modifier(), types[i..], parseFloat)
      {
        var kind := types[i];
        ghost var fields := types[i..];
        i := i + 1;
        if i >= |types| {
          assert fields == [kind];
          assert spec == Err(IndexOutOfRange);
          return Some(IndexOutOfRange);
        }
        ghost var before := Modifier();
        FieldsStep(before, fields, parseFloat);
        assert fields[0] == kind && fields[1] == types[i] && fields[2..] == types[i + 1..];
        if kind == "add" {
          fault := SetUpAddModifier(types[i]);
          FieldAdd(before, types[i], parseFloat);
        } else {
          fault := SetUpMultiplyModifier(types[i], parseFloat);
          FieldMultiply(before, kind, types[i], parseFloat);
        }
        if fault.Some? {
          assert spec == Err(fault.value);
          return;
        }
        assert spec == Fields(Modifier(), types[i + 1..], parseFloat);
        i := i + 1;
      }
      assert types[i..] == [];
      assert spec == Ok(Modifier());
    }
  }
}
