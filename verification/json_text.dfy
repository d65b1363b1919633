/**
  JSON texts by the grammar of RFC 8259, with any space between their parts, any escapes, and members in any order;
  their numbers are integers.  The parser reads each of them to its end and gives the value it means: of members with
  the same key the last, as in a map.
 */
module JsonText {
  import opened Basics
  import opened Json
  import opened NumberText

  // ---------------------------------------------------------------------------
  // Texts
  // ---------------------------------------------------------------------------

  const WHITE: string := " \t\n\r"

  /** The letters of the short escapes (section 7 of RFC 8259), and the codes of what they stand for. */
  const LETTERS: string := "\"\\/bfnrt"
  const CODES: seq<int> := [0x22, 0x5C, 0x2F, 0x08, 0x0C, 0x0A, 0x0D, 0x09]

  /** A character of a string: as it is, by a short escape, or by its code in hexadecimal. */
  datatype Unit = Raw(c: char) | Short(k: nat) | Code(hex: string)

  /** An element with the space around it. */
  datatype Item = Item(before: string, value: Syntax, after: string)

  /** A member with the space around its key and its value. */
  datatype Pair = Pair(before: string, key: seq<Unit>, colon: string, between: string, value: Syntax, after: string)

  datatype Syntax =
    | Nothing
    | Truth(flag: bool)
    | Number(negative: bool, digits: string, magnitude: nat)
    | Text(units: seq<Unit>)
    | List(space: string, items: seq<Item>)
    | Record(space: string, pairs: seq<Pair>)

  ghost predicate Blank(s: string) {
    forall i | 0 <= i < |s| :: s[i] in WHITE
  }

  predicate LegalUnit(u: Unit) {
    match u
    case Raw(c) => c >= ' ' && c != QUOTE && c != BACKSLASH
    case Short(k) => k < 8
    case Code(hex) => |hex| == 4 && forall i | 0 <= i < 4 :: hex[i] in LOWER_HEX || hex[i] in UPPER_HEX
  }

  predicate LegalUnits(us: seq<Unit>) {
    forall i | 0 <= i < |us| :: LegalUnit(us[i])
  }

  function Signed(negative: bool, n: nat): int {
    if negative then 0 - n else n
  }

  ghost predicate Legal(t: Syntax) {
    match t
    case Number(negative, digits, n) =>
      digits != "" && DecimalText(digits, n) && LONG_MIN <= Signed(negative, n) <= LONG_MAX
    case Text(us) => LegalUnits(us)
    case List(space, items) => Blank(space) && forall i | 0 <= i < |items| ::
        Blank(items[i].before) && Legal(items[i].value) && Blank(items[i].after)
    case Record(space, ps) => Blank(space) && forall i | 0 <= i < |ps| ::
        && Blank(ps[i].before) && LegalUnits(ps[i].key) && Blank(ps[i].colon) && Blank(ps[i].between)
        && Legal(ps[i].value) && Blank(ps[i].after)
    case _ => true
  }

  function UnitText(u: Unit): string {
    match u
    case Raw(c) => [c]
    case Short(k) => [BACKSLASH, if k < 8 then LETTERS[k] else 'u']
    case Code(hex) => [BACKSLASH, 'u'] + hex
  }

  /** The units and the quote that ends them. */
  function UnitsText(us: seq<Unit>): string {
    if us == [] then [QUOTE] else UnitText(us[0]) + UnitsText(us[1..])
  }

  function Write(t: Syntax): string
    decreases t, 1
  {
    match t
    case Nothing => "null"
    case Truth(b) => if b then "true" else "false"
    case Number(negative, digits, _) => (if negative then "-" else "") + digits
    case Text(us) => [QUOTE] + UnitsText(us)
    case List(space, items) => "[" + if items == [] then space + "]" else ItemsText(t, 0)
    case Record(space, pairs) => "{" + if pairs == [] then space + "}" else PairsText(t, 0)
  }

  /** The elements from number n on, and the bracket that ends them. */
  function ItemsText(t: Syntax, n: nat): string
    requires t.List? && n < |t.items|
    decreases t, 0, |t.items| - n
  {
    t.items[n].before + (Write(t.items[n].value) + (t.items[n].after +
      if n + 1 == |t.items| then "]" else "," + ItemsText(t, n + 1)))
  }

  function KeyText(p: Pair): string {
    p.before + ([QUOTE] + (UnitsText(p.key) + (p.colon + ":")))
  }

  /** The members from number n on, and the brace that ends them. */
  function PairsText(t: Syntax, n: nat): string
    requires t.Record? && n < |t.pairs|
    decreases t, 0, |t.pairs| - n
  {
    KeyText(t.pairs[n]) + (t.pairs[n].between + (Write(t.pairs[n].value) + (t.pairs[n].after +
      if n + 1 == |t.pairs| then "}" else "," + PairsText(t, n + 1))))
  }

  // ---------------------------------------------------------------------------
  // Meanings
  // ---------------------------------------------------------------------------

  /** Values as they are meant: an object is a map. */
  datatype Value =
    | NullValue
    | ObjectValue(members: map<string, Value>)
    | ArrayValue(elements: seq<Value>)
    | StringValue(text: string)
    | IntegerValue(number: int)
    | BooleanValue(flag: bool)

  /** The parser leaves codes in hexadecimal as they are written. */
  function UnitMeaning(u: Unit): string {
    match u
    case Raw(c) => [c]
    case Short(k) => if k < 8 then [CODES[k] as char] else ""
    case Code(hex) => [BACKSLASH, 'u'] + hex
  }

  function UnitsMeaning(us: seq<Unit>): string {
    if us == [] then "" else UnitMeaning(us[0]) + UnitsMeaning(us[1..])
  }

  function Meaning(t: Syntax): Value
    decreases t, 1
  {
    match t
    case Nothing => NullValue
    case Truth(b) => BooleanValue(b)
    case Number(negative, _, n) => IntegerValue(Signed(negative, n))
    case Text(us) => StringValue(UnitsMeaning(us))
    case List(_, items) => ArrayValue(FirstItems(t, |items|))
    case Record(_, pairs) => ObjectValue(FirstPairs(t, |pairs|))
  }

  /** The first n elements. */
  function FirstItems(t: Syntax, n: nat): seq<Value>
    requires t.List? && n <= |t.items|
    decreases t, 0, n
  {
    if n == 0 then [] else FirstItems(t, n - 1) + [Meaning(t.items[n - 1].value)]
  }

  /** The first n members; a key that comes again has its later value. */
  function FirstPairs(t: Syntax, n: nat): map<string, Value>
    requires t.Record? && n <= |t.pairs|
    decreases t, 0, n
  {
    if n == 0 then map[]
    else FirstPairs(t, n - 1)[Escape(UnitsMeaning(t.pairs[n - 1].key)) := Meaning(t.pairs[n - 1].value)]
  }

  /** j, with its members in order, means v; keys are kept as they are escaped. */
  ghost predicate Means(j: JSON, v: Value) {
    match j
    case Null => v == NullValue
    case Object(ms) => v.ObjectValue? && MembersMean(ms, v.members)
    case Array(es) =>
      v.ArrayValue? && |es| == |v.elements| && forall i | 0 <= i < |es| :: Means(es[i], v.elements[i])
    case String(s) => v == StringValue(s)
    case Integral(n) => v == IntegerValue(n)
    case Boolean(b) => v == BooleanValue(b)
  }

  ghost predicate MembersMean(ms: seq<Member>, m: map<string, Value>) {
    && Sorted(ms)
    && (forall k :: k in m <==> Lookup(ms, k).Some?)
    && forall i | 0 <= i < |ms| :: ms[i].key in m && Means(ms[i].value, m[ms[i].key])
  }

  lemma {:induction false} LookupAt(ms: seq<Member>, i: nat)
    requires Sorted(ms) && i < |ms|
    ensures Lookup(ms, ms[i].key) == Some(ms[i].value)
  {
    if i > 0 {
      LookupAt(ms[1..], i - 1);
      LessIsStrict(ms[0].key, ms[i].key);
      hide Less;
    }
  }

  lemma {:induction false} PlaceOf(ms: seq<Member>, k: string) returns (i: nat)
    requires Lookup(ms, k).Some?
    ensures i < |ms| && ms[i].key == k && Some(ms[i].value) == Lookup(ms, k)
  {
    if ms[0].key == k {
      i := 0;
    } else {
      i := PlaceOf(ms[1..], k);
      i := i + 1;
    }
  }

  /** Assigning to a member keeps the meaning. */
  lemma InsertMeans(ms: seq<Member>, m: map<string, Value>, key: string, j: JSON, v: Value)
    requires MembersMean(ms, m) && Means(j, v)
    ensures MembersMean(Insert(ms, key, j), m[key := v])
  {
    var r, m' := Insert(ms, key, j), m[key := v];
    hide Less, Insert, Means, Lookup, Sorted;
    InsertKeepsOrder(ms, key, j);
    forall k
      ensures k in m' <==> Lookup(r, k).Some?
    {
      InsertIsUpdate(ms, key, j, k);
    }
    forall i | 0 <= i < |r|
      ensures r[i].key in m' && Means(r[i].value, m'[r[i].key])
    {
      LookupAt(r, i);
      InsertIsUpdate(ms, key, j, r[i].key);
      if r[i].key != key {
        var l := PlaceOf(ms, r[i].key);
      }
    }
  }

  /** What a value means decides what it is. */
  lemma {:induction false} MeaningDecides(j: JSON, l: JSON, v: Value)
    requires Means(j, v) && Means(l, v)
    ensures j == l
    decreases j
  {
    if j.Array? {
      forall i | 0 <= i < |j.elements|
        ensures j.elements[i] == l.elements[i]
      {
        MeaningDecides(j.elements[i], l.elements[i], v.elements[i]);
      }
    } else if j.Object? {
      hide Sorted;
      forall k
        ensures Lookup(j.members, k) == Lookup(l.members, k)
      {
        if k in v.members {
          var a := PlaceOf(j.members, k);
          var b := PlaceOf(l.members, k);
          MeaningDecides(j.members[a].value, l.members[b].value, v.members[k]);
        }
      }
      LookupDecides(j.members, l.members);
    }
  }

  // ---------------------------------------------------------------------------
  // Strings and numbers
  // ---------------------------------------------------------------------------

  lemma ShortEscapes(k: nat)
    requires k < 8
    ensures Unescape(LETTERS[k]) == CODES[k] as char && LETTERS[k] != 'u'
  {
  }

  /** A character that has a short escape is printed by it, but for the slash, and any other as it is. */
  lemma PrintedEscapes(c: char)
    ensures forall k: nat | k < 8 && k != 2 && c as int == CODES[k] :: EscapeChar(c) == [BACKSLASH, LETTERS[k]]
    ensures (forall k: nat | k < 8 && k != 2 :: c as int != CODES[k]) ==> EscapeChar(c) == [c]
  {
    assert CODES[0] == 0x22 && CODES[1] == 0x5C && CODES[3] == 8 && CODES[4] == 0x0C;
    assert CODES[5] == 0x0A && CODES[6] == 0x0D && CODES[7] == 0x09;
  }

  lemma HexChar(c: char)
    requires c in LOWER_HEX || c in UPPER_HEX
    ensures IsHex(c)
  {
  }

  lemma FourHex(str: string, i: nat)
    requires i + 4 <= |str| && forall k | i <= k < i + 4 :: IsHex(str[k])
    ensures HexRun(str, i, 0) == 4
  {
    hide IsHex;
    assert HexRun(str, i, 4) == 4;
    assert HexRun(str, i, 3) == 4;
    assert HexRun(str, i, 2) == 4;
    assert HexRun(str, i, 1) == 4;
  }

  lemma UnitRead(str: string, i: nat, u: Unit, val: string)
    requires LegalUnit(u) && Stands(str, i, UnitText(u))
    ensures StringFrom(str, i, val) == StringFrom(str, i + |UnitText(u)|, val + UnitMeaning(u))
  {
    StandsAt(str, i, UnitText(u), 0);
    match u
    case Raw(c) =>
    case Short(k) =>
      StandsAt(str, i, UnitText(u), 1);
      ShortEscapes(k);
      hide LETTERS, CODES, Unescape;
    case Code(hex) =>
      StandsAt(str, i, UnitText(u), 1);
      StandsSplit(str, i, [BACKSLASH, 'u'], hex);
      forall k | i + 2 <= k < i + 2 + 4
        ensures IsHex(str[k])
      {
        HexChar(hex[k - i - 2]);
        StandsAt(str, i + 2, hex, k - i - 2);
      }
      hide IsHex, LegalUnit;
      FourHex(str, i + 2);
      assert str[i + 2..i + 6] == hex;
      assert val + [BACKSLASH, 'u'] + hex == val + ([BACKSLASH, 'u'] + hex);
  }

  lemma UnitsParts(us: seq<Unit>)
    ensures us == [] ==> UnitsText(us) == [QUOTE] && UnitsMeaning(us) == ""
    ensures us != [] ==>
              && UnitsText(us) == UnitText(us[0]) + UnitsText(us[1..])
              && UnitsMeaning(us) == UnitMeaning(us[0]) + UnitsMeaning(us[1..])
    ensures LegalUnits(us) && us != [] ==> LegalUnit(us[0]) && LegalUnits(us[1..])
  {
    hide UnitText, UnitMeaning, LegalUnit;
  }

  lemma {:induction false} UnitsRead(str: string, i: nat, us: seq<Unit>, val: string)
    requires LegalUnits(us) && Stands(str, i, UnitsText(us))
    ensures StringFrom(str, i, val) == Done(String(val + UnitsMeaning(us)), i + |UnitsText(us)|)
    decreases |us|
  {
    hide *;
    UnitsParts(us);
    if us == [] {
      StringEnd(str, i, val);
      assert val + "" == val;
    } else {
      StandsSplit(str, i, UnitText(us[0]), UnitsText(us[1..]));
      UnitRead(str, i, us[0], val);
      UnitsRead(str, i + |UnitText(us[0])|, us[1..], val + UnitMeaning(us[0]));
      assert val + UnitMeaning(us[0]) + UnitsMeaning(us[1..]) == val + UnitsMeaning(us);
    }
  }

  lemma DigitIs(c: char, d: nat)
    requires d < 10 && c == DIGITS[d]
    ensures IsDigit(c) && c as int - '0' as int == d
  {
  }

  lemma {:induction false} DigitsRead(s: string, n: nat)
    requires DecimalText(s, n)
    ensures (forall i | 0 <= i < |s| :: IsDigit(s[i])) && DigitsValue(s) == n
    decreases |s|
  {
    if s != "" {
      DigitsRead(s[..|s| - 1], n / 10);
      DigitIs(s[|s| - 1], n % 10);
      hide IsDigit, DIGITS;
      assert s == s[..|s| - 1] + [s[|s| - 1]];
    }
  }

  lemma SignedChars(negative: bool, digits: string)
    requires forall i | 0 <= i < |digits| :: IsDigit(digits[i])
    ensures var s := (if negative then "-" else "") + digits;
      '.' !in s && forall k | 0 <= k < |s| :: IsDigit(s[k]) || s[k] == '-'
  {
  }

  lemma NumberStands(str: string, i: nat, s: string, n: int)
    requires Stands(str, i, s) && i + |s| < |str| && IsDelimiter(str[i + |s|])
    requires NumberEnd(str, i) == i + |s| && Stol(s) == Json.Number(n) && '.' !in s
    ensures ParseNumber(str, i) == Done(Integral(n), i + |s|)
  {
    hide NumberEnd, Stol;
  }

  lemma NumberRead(str: string, i: nat, negative: bool, digits: string, n: nat)
    requires digits != "" && DecimalText(digits, n) && LONG_MIN <= Signed(negative, n) <= LONG_MAX
    requires var s := (if negative then "-" else "") + digits;
      Stands(str, i, s) && i + |s| < |str| && IsDelimiter(str[i + |s|])
    ensures ParseNumber(str, i) == Done(Integral(Signed(negative, n)), i + (if negative then 1 else 0) + |digits|)
  {
    var s := (if negative then "-" else "") + digits;
    assert Signed(negative, n) == if negative then 0 - n else n;
    hide *;
    DigitsRead(digits, n);
    AllDigits(digits);
    SignedChars(negative, digits);
    StolSigned(digits, negative);
    NumberRun(str, i, s);
    NumberStands(str, i, s, Signed(negative, n));
  }

  // ---------------------------------------------------------------------------
  // The parser on a text
  // ---------------------------------------------------------------------------

  lemma BlankIsSpace(s: string)
    requires Blank(s)
    ensures forall i | 0 <= i < |s| :: IsSpace(s[i])
  {
  }

  lemma BlankStands(str: string, i: nat, s: string)
    requires Blank(s) && Stands(str, i, s)
    ensures i + |s| <= |str| && forall k | i <= k < i + |s| :: IsSpace(str[k])
  {
    BlankIsSpace(s);
    hide IsSpace, Blank;
    forall k | i <= k < i + |s|
      ensures IsSpace(str[k])
    {
      StandsAt(str, i, s, k - i);
    }
  }

  lemma SkipBlank(str: string, i: nat, s: string)
    requires Blank(s) && Stands(str, i, s)
    ensures SkipSpace(str, i) == SkipSpace(str, i + |s|) && ParseNext(str, i) == ParseNext(str, i + |s|)
  {
    hide IsSpace, Blank, SkipSpace, ParseNext;
    BlankStands(str, i, s);
    SkipRun(str, i, |s|);
    SpaceBefore(str, i, |s|);
  }

  /** Space and then a character that is none. */
  lemma SkipTo(str: string, i: nat, s: string, rest: string)
    requires Blank(s) && Stands(str, i, s + rest) && rest != "" && !IsSpace(rest[0])
    ensures SkipSpace(str, i) == i + |s| < |str| && str[i + |s|] == rest[0] && Stands(str, i + |s|, rest)
    ensures ParseNext(str, i) == ParseNext(str, i + |s|)
  {
    StandsSplit(str, i, s, rest);
    SkipBlank(str, i, s);
    StandsAt(str, i + |s|, rest, 0);
    hide ParseNext, Blank, IsSpace;
    assert SkipSpace(str, i + |s|) == i + |s|;
  }

  /** A value of the kind a text writes. */
  function Kind(t: Syntax): JSON {
    match t
    case Nothing => Null
    case Truth(b) => Boolean(b)
    case Number(_, _, _) => Integral(0)
    case Text(_) => String("")
    case List(_, _) => Array([])
    case Record(_, _) => Object([])
  }

  lemma WriteStarts(t: Syntax)
    requires Legal(t)
    ensures Write(t) != "" && StartsValue(Kind(t), Write(t)[0]) && !IsSpace(Write(t)[0])
    ensures Write(t)[0] != ']' && Write(t)[0] != '}'
  {
    if t.Number? {
      DigitsRead(t.digits, t.magnitude);
      hide DecimalText;
    }
    hide ItemsText, PairsText, UnitsText;
  }

  lemma KindIs(t: Syntax)
    ensures Kind(t).Null? == t.Nothing? && Kind(t).Boolean? == t.Truth? && Kind(t).Integral? == t.Number?
    ensures Kind(t).String? == t.Text? && Kind(t).Array? == t.List? && Kind(t).Object? == t.Record?
  {
  }

  /** At the beginning of a text the parser goes to that kind of value. */
  lemma DispatchText(t: Syntax, str: string, i: nat)
    requires Legal(t) && Stands(str, i, Write(t))
    ensures i < |str|
    ensures ParseNext(str, i) ==
      match Kind(t)
      case Null => ParseNull(str, i)
      case Object(_) => ParseObject(str, i)
      case Array(_) => ParseArray(str, i)
      case String(_) => StringFrom(str, i + 1, "")
      case Integral(_) => ParseNumber(str, i)
      case Boolean(_) => ParseBool(str, i)
    ensures t.List? ==> ParseNext(str, i) == ParseArray(str, i)
    ensures t.Record? ==> ParseNext(str, i) == ParseObject(str, i)
  {
    hide *;
    WriteStarts(t);
    KindIs(t);
    StandsAt(str, i, Write(t), 0);
    Dispatch(str, i, Kind(t));
  }

  lemma NumberTextRead(t: Syntax, str: string, i: nat)
    requires t.Number? && Legal(t) && Stands(str, i, Write(t))
    requires i + |Write(t)| < |str| && IsDelimiter(str[i + |Write(t)|])
    ensures ParseNumber(str, i) == Done(Integral(Signed(t.negative, t.magnitude)), i + |Write(t)|)
    ensures Means(Integral(Signed(t.negative, t.magnitude)), Meaning(t))
  {
    hide ParseNumber, DecimalText, IsDelimiter;
    NumberRead(str, i, t.negative, t.digits, t.magnitude);
  }

  lemma StringTextRead(t: Syntax, str: string, i: nat)
    requires t.Text? && Legal(t) && Stands(str, i, Write(t))
    ensures StringFrom(str, i + 1, "") == Done(String(UnitsMeaning(t.units)), i + |Write(t)|)
    ensures Means(String(UnitsMeaning(t.units)), Meaning(t))
  {
    hide StringFrom, LegalUnits, UnitsText, UnitsMeaning, Stands;
    StandsSplit(str, i, [QUOTE], UnitsText(t.units));
    UnitsRead(str, i + 1, t.units, "");
    assert "" + UnitsMeaning(t.units) == UnitsMeaning(t.units);
  }

  lemma WordTextRead(t: Syntax, str: string, i: nat)
    requires (t.Nothing? || t.Truth?) && Stands(str, i, Write(t)) && i < |str|
    ensures t.Nothing? ==> ParseNull(str, i) == Done(Kind(t), i + |Write(t)|)
    ensures t.Truth? ==> ParseBool(str, i) == Done(Kind(t), i + |Write(t)|)
    ensures Means(Kind(t), Meaning(t))
  {
    StandsAt(str, i, Write(t), 0);
    if Stands(str, i, "true") {
      StandsAt(str, i, "true", 0);
    }
    hide Stands;
  }

  /** Values without parts. */
  lemma SimpleRead(t: Syntax, str: string, i: nat) returns (j: JSON)
    requires Legal(t) && Stands(str, i, Write(t)) && !t.List? && !t.Record?
    requires t.Number? ==> i + |Write(t)| < |str| && IsDelimiter(str[i + |Write(t)|])
    ensures ParseNext(str, i) == Done(j, i + |Write(t)|) && Means(j, Meaning(t))
  {
    hide *;
    DispatchText(t, str, i);
    KindIs(t);
    if t.Number? {
      NumberTextRead(t, str, i);
      j := Integral(Signed(t.negative, t.magnitude));
    } else if t.Text? {
      StringTextRead(t, str, i);
      j := String(UnitsMeaning(t.units));
    } else {
      WordTextRead(t, str, i);
      j := Kind(t);
    }
  }

  /** The parser reads every text to its end and gives what it means, whatever follows; a number must be followed by a
      delimiter. */
  lemma {:induction false} TextRead(t: Syntax, str: string, i: nat) returns (j: JSON)
    requires Legal(t) && Stands(str, i, Write(t))
    requires t.Number? ==> i + |Write(t)| < |str| && IsDelimiter(str[i + |Write(t)|])
    ensures ParseNext(str, i) == Done(j, i + |Write(t)|) && Means(j, Meaning(t))
    decreases t, 1
  {
    hide *;
    if t.List? {
      DispatchText(t, str, i);
      j := ListRead(t, str, i);
    } else if t.Record? {
      DispatchText(t, str, i);
      j := RecordRead(t, str, i);
    } else {
      j := SimpleRead(t, str, i);
    }
  }

  lemma MeansList(t: Syntax)
    requires t.List?
    ensures Meaning(t) == ArrayValue(FirstItems(t, |t.items|)) && Means(Array([]), ArrayValue(FirstItems(t, 0)))
    ensures Write(t) == if t.items == [] then "[" + (t.space + "]") else "[" + ItemsText(t, 0)
    ensures Legal(t) ==> Blank(t.space)
  {
    assert t.items == [] ==> "[" + t.space + "]" == "[" + (t.space + "]");
  }

  lemma LegalItem(t: Syntax, n: nat)
    requires t.List? && Legal(t) && n < |t.items|
    ensures Blank(t.items[n].before) && Legal(t.items[n].value) && Blank(t.items[n].after)
  {
  }

  lemma ArrayRead(str: string, i: nat)
    requires i < |str|
    ensures var k := SkipSpace(str, i + 1);
      ParseArray(str, i) == if k < |str| && str[k] == ']' then Done(Array([]), k + 1) else ElementsFrom(str, k, [])
  {
    hide SkipSpace, ElementsFrom;
  }

  lemma {:induction false} ListRead(t: Syntax, str: string, i: nat) returns (j: JSON)
    requires t.List? && Legal(t) && Stands(str, i, Write(t))
    ensures i < |str| && ParseArray(str, i) == Done(j, i + |Write(t)|) && Means(j, Meaning(t))
    decreases t, 0, |t.items| + 1
  {
    hide *;
    MeansList(t);
    BracketIsNoSpace();
    if t.items == [] {
      StandsSplit(str, i, "[", t.space + "]");
      StandsWithin(str, i + 1, t.space + "]");
      SkipTo(str, i + 1, t.space, "]");
      ArrayRead(str, i);
      j := Array([]);
    } else {
      StandsSplit(str, i, "[", ItemsText(t, 0));
      StandsWithin(str, i + 1, ItemsText(t, 0));
      var before, rest := t.items[0].before, ItemRest(t, 0);
      ItemParts(t, 0);
      LegalItem(t, 0);
      ItemStarts(t, 0);
      SkipTo(str, i + 1, before, rest);
      ArrayRead(str, i);
      StandsSplit(str, i + 1, before, rest);
      BlankStands(str, i + 1, before);
      SpaceBeforeElements(str, i + 1, |before|, []);
      j := ItemsRead(t, 0, str, i + 1, []);
    }
  }

  lemma BracketIsNoSpace()
    ensures !IsSpace(']') && !IsSpace('}') && !IsSpace(',') && !IsSpace(':') && !IsSpace(QUOTE)
  {
  }

  /** An element, the space behind it, and what follows. */
  function ItemRest(t: Syntax, n: nat): string
    requires t.List? && n < |t.items|
  {
    Write(t.items[n].value) + (t.items[n].after + ItemTail(t, n))
  }

  function ItemTail(t: Syntax, n: nat): string
    requires t.List? && n < |t.items|
  {
    if n + 1 == |t.items| then "]" else "," + ItemsText(t, n + 1)
  }

  lemma ItemParts(t: Syntax, n: nat)
    requires t.List? && n < |t.items|
    ensures ItemsText(t, n) == t.items[n].before + ItemRest(t, n)
    ensures ItemRest(t, n) == Write(t.items[n].value) + (t.items[n].after + ItemTail(t, n))
    ensures ItemTail(t, n) == if n + 1 == |t.items| then "]" else "," + ItemsText(t, n + 1)
  {
  }

  lemma ItemStarts(t: Syntax, n: nat)
    requires t.List? && Legal(t) && n < |t.items|
    ensures ItemRest(t, n) != "" && !IsSpace(ItemRest(t, n)[0]) && ItemRest(t, n)[0] != ']'
  {
    WriteStarts(t.items[n].value);
    hide Write, IsSpace;
  }

  /** One round of the loop of parse_array: an element read up to end, and space behind it. */
  lemma ElementRound(str: string, i: nat, es: seq<JSON>, e: JSON, end: nat)
    requires i <= |str| && ParseNext(str, i) == Done(e, end) && end <= |str|
    ensures var k := SkipSpace(str, end);
      && (k < |str| && str[k] == ',' ==> ElementsFrom(str, i, es) == ElementsFrom(str, k + 1, es + [e]))
      && (k < |str| && str[k] == ']' ==> ElementsFrom(str, i, es) == Done(Array(es + [e]), k + 1))
  {
    hide ParseNext, SkipSpace;
  }

  lemma OneItemMore(t: Syntax, n: nat, es: seq<JSON>, e: JSON)
    requires t.List? && n < |t.items| && Means(Array(es), ArrayValue(FirstItems(t, n)))
    requires Means(e, Meaning(t.items[n].value))
    ensures Means(Array(es + [e]), ArrayValue(FirstItems(t, n + 1)))
  {
    assert FirstItems(t, n + 1) == FirstItems(t, n) + [Meaning(t.items[n].value)];
    hide Meaning, FirstItems;
  }

  /** A text and the space behind it are followed by a character that ends a number. */
  lemma TailDelimits(str: string, end: nat, after: string, tail: string)
    requires Blank(after) && Stands(str, end, after + tail) && tail != "" && tail[0] in [',', ']', '}']
    ensures end < |str| && IsDelimiter(str[end])
    ensures var k := SkipSpace(str, end); k == end + |after| < |str| && str[k] == tail[0] && Stands(str, k, tail)
  {
    BracketIsNoSpace();
    SkipTo(str, end, after, tail);
    StandsAt(str, end, after + tail, 0);
    if after != "" {
      BlankIsSpace(after);
    }
    hide Blank, SkipSpace, IsSpace;
  }

  /** Space, a text w, space again, and then a character that ends it. */
  lemma PartsStand(str: string, i: nat, before: string, w: string, after: string, tail: string)
    requires Blank(before) && Blank(after) && Stands(str, i, before + (w + (after + tail)))
    requires w != "" && !IsSpace(w[0]) && tail != "" && tail[0] in [',', ']', '}']
    ensures i <= |str| && ParseNext(str, i) == ParseNext(str, i + |before|) && Stands(str, i + |before|, w)
    ensures var end := i + |before| + |w|;
      && end < |str| && IsDelimiter(str[end]) && SkipSpace(str, end) == end + |after| < |str|
      && str[end + |after|] == tail[0] && Stands(str, end + |after|, tail)
  {
    hide *;
    var rest := w + (after + tail);
    assert rest[0] == w[0];
    StandsWithin(str, i, before + rest);
    SkipTo(str, i, before, rest);
    StandsSplit(str, i + |before|, w, after + tail);
    TailDelimits(str, i + |before| + |w|, after, tail);
  }

  /** Where an element stands and what follows it. */
  lemma ItemLayout(t: Syntax, n: nat, str: string, i: nat, at: nat, end: nat)
    requires t.List? && Legal(t) && n < |t.items| && Stands(str, i, ItemsText(t, n))
    requires at == i + |t.items[n].before| && end == at + |Write(t.items[n].value)|
    ensures i <= |str| && ParseNext(str, i) == ParseNext(str, at) && Stands(str, at, Write(t.items[n].value))
    ensures end < |str| && IsDelimiter(str[end])
    ensures var k := SkipSpace(str, end);
      && k == end + |t.items[n].after| < |str| && str[k] == (if n + 1 == |t.items| then ']' else ',')
      && (n + 1 < |t.items| ==> Stands(str, k + 1, ItemsText(t, n + 1)))
    ensures |ItemsText(t, n)| == end + |t.items[n].after| + 1 - i + if n + 1 == |t.items|
          then 0 else |ItemsText(t, n + 1)|
  {
    hide *;
    var item, tail := t.items[n], ItemTail(t, n);
    ItemParts(t, n);
    LegalItem(t, n);
    WriteStarts(item.value);
    PartsStand(str, i, item.before, Write(item.value), item.after, tail);
    if n + 1 < |t.items| {
      StandsSplit(str, end + |item.after|, ",", ItemsText(t, n + 1));
    }
  }

  lemma {:induction false} ItemsRead(t: Syntax, n: nat, str: string, i: nat, es: seq<JSON>) returns (j: JSON)
    requires t.List? && Legal(t) && n < |t.items| && Stands(str, i, ItemsText(t, n))
    requires Means(Array(es), ArrayValue(FirstItems(t, n)))
    ensures i <= |str| && ElementsFrom(str, i, es) == Done(j, i + |ItemsText(t, n)|)
    ensures Means(j, ArrayValue(FirstItems(t, |t.items|)))
    decreases t, 0, |t.items| - n
  {
    hide *;
    var item := t.items[n];
    var at := i + |item.before|;
    var end := at + |Write(item.value)|;
    ItemLayout(t, n, str, i, at, end);
    LegalItem(t, n);
    var e := TextRead(item.value, str, at);
    ElementRound(str, i, es, e, end);
    OneItemMore(t, n, es, e);
    if n + 1 == |t.items| {
      j := Array(es + [e]);
    } else {
      j := ItemsRead(t, n + 1, str, end + |item.after| + 1, es + [e]);
    }
  }

  // ---------------------------------------------------------------------------
  // Objects
  // ---------------------------------------------------------------------------

  lemma MeansRecord(t: Syntax)
    requires t.Record?
    ensures Meaning(t) == ObjectValue(FirstPairs(t, |t.pairs|)) && MembersMean([], FirstPairs(t, 0))
    ensures Write(t) == if t.pairs == [] then "{" + (t.space + "}") else "{" + PairsText(t, 0)
    ensures Legal(t) ==> Blank(t.space)
  {
    assert t.pairs == [] ==> "{" + t.space + "}" == "{" + (t.space + "}");
  }

  lemma ObjectMeans(ms: seq<Member>, m: map<string, Value>)
    ensures Means(Object(ms), ObjectValue(m)) <==> MembersMean(ms, m)
  {
  }

  lemma LegalPair(t: Syntax, n: nat)
    requires t.Record? && Legal(t) && n < |t.pairs|
    ensures var p := t.pairs[n];
      && Blank(p.before) && LegalUnits(p.key) && Blank(p.colon) && Blank(p.between) && Legal(p.value) && Blank(p.after)
  {
  }

  function PairTail(t: Syntax, n: nat): string
    requires t.Record? && n < |t.pairs|
  {
    if n + 1 == |t.pairs| then "}" else "," + PairsText(t, n + 1)
  }

  /** A member from its colon's other side on. */
  function PairValue(t: Syntax, n: nat): string
    requires t.Record? && n < |t.pairs|
  {
    Write(t.pairs[n].value) + (t.pairs[n].after + PairTail(t, n))
  }

  /** A member from its key's quote on. */
  function PairKey(t: Syntax, n: nat): string
    requires t.Record? && n < |t.pairs|
  {
    [QUOTE] + (UnitsText(t.pairs[n].key) + (t.pairs[n].colon + (":" + (t.pairs[n].between + PairValue(t, n)))))
  }

  lemma PairParts(t: Syntax, n: nat)
    requires t.Record? && n < |t.pairs|
    ensures var p := t.pairs[n];
      && PairsText(t, n) == p.before + PairKey(t, n)
      && PairKey(t, n) == [QUOTE] + (UnitsText(p.key) + (p.colon + (":" + (p.between + PairValue(t, n)))))
      && PairValue(t, n) == Write(p.value) + (p.after + PairTail(t, n))
    ensures PairTail(t, n) == if n + 1 == |t.pairs| then "}" else "," + PairsText(t, n + 1)
  {
    var p := t.pairs[n];
    hide Write, UnitsText;
    assert PairsText(t, n) == KeyText(p) + (p.between + PairValue(t, n));
    hide *;
    KeyAndValue(p, PairValue(t, n));
    PairKeyIs(t, n);
  }

  lemma PairKeyIs(t: Syntax, n: nat)
    requires t.Record? && n < |t.pairs|
    ensures var p := t.pairs[n];
      && PairKey(t, n) == [QUOTE] + (UnitsText(p.key) + (p.colon + (":" + (p.between + PairValue(t, n)))))
      && PairValue(t, n) == Write(p.value) + (p.after + PairTail(t, n))
    ensures PairTail(t, n) == if n + 1 == |t.pairs| then "}" else "," + PairsText(t, n + 1)
  {
    hide Write, UnitsText, PairsText;
  }

  lemma KeyAndValue(p: Pair, value: string)
    ensures KeyText(p) + (p.between + value) ==
            p.before + ([QUOTE] + (UnitsText(p.key) + (p.colon + (":" + (p.between + value)))))
  {
    hide UnitsText;
  }

  lemma ValueStarts(t: Syntax, n: nat)
    requires t.Record? && Legal(t) && n < |t.pairs|
    ensures PairValue(t, n) != "" && !IsSpace(PairValue(t, n)[0])
  {
    WriteStarts(t.pairs[n].value);
    hide Write, IsSpace;
  }

  lemma {:induction false} RecordRead(t: Syntax, str: string, i: nat) returns (j: JSON)
    requires t.Record? && Legal(t) && Stands(str, i, Write(t))
    ensures i < |str| && ParseObject(str, i) == Done(j, i + |Write(t)|) && Means(j, Meaning(t))
    decreases t, 0, |t.pairs| + 1
  {
    hide *;
    MeansRecord(t);
    BracketIsNoSpace();
    QuoteIsNoSpace();
    if t.pairs == [] {
      StandsSplit(str, i, "{", t.space + "}");
      StandsWithin(str, i + 1, t.space + "}");
      SkipTo(str, i + 1, t.space, "}");
      ObjectRead(str, i);
      j := Object([]);
      ObjectMeans([], FirstPairs(t, 0));
    } else {
      StandsSplit(str, i, "{", PairsText(t, 0));
      StandsWithin(str, i + 1, PairsText(t, 0));
      PairParts(t, 0);
      LegalPair(t, 0);
      SkipTo(str, i + 1, t.pairs[0].before, PairKey(t, 0));
      ObjectRead(str, i);
      StandsSplit(str, i + 1, t.pairs[0].before, PairKey(t, 0));
      BlankStands(str, i + 1, t.pairs[0].before);
      SpaceBeforeMembers(str, i + 1, |t.pairs[0].before|, []);
      j := PairsRead(t, 0, str, i + 1, []);
    }
  }

  /** Where the parts of a member stand: the key's quote at q, its end at c, the colon, the value, and its end. */
  lemma PairLayout(t: Syntax, n: nat, str: string, i: nat, q: nat, c: nat, colon: nat, at: nat, end: nat)
    requires t.Record? && Legal(t) && n < |t.pairs| && Stands(str, i, PairsText(t, n))
    requires var p := t.pairs[n];
      && q == i + |p.before| && c == q + 1 + |UnitsText(p.key)| && colon == c + |p.colon|
      && at == colon + 1 + |p.between| && end == at + |Write(p.value)|
    ensures var p := t.pairs[n];
      && q < |str| && str[q] == QUOTE && ParseNext(str, i) == ParseNext(str, q) && Stands(str, q + 1, UnitsText(p.key))
      && i <= |str| && c <= |str| && SkipSpace(str, c) == colon < |str| && str[colon] == ':'
      && SkipSpace(str, colon + 1) == at && Stands(str, at, Write(p.value))
      && Stands(str, end, p.after + PairTail(t, n))
  {
    hide *;
    var p := t.pairs[n];
    PairParts(t, n);
    LegalPair(t, n);
    ValueStarts(t, n);
    KeyStands(str, i, p.before, UnitsText(p.key), p.colon + (":" + (p.between + PairValue(t, n))));
    ColonStands(str, c, p.colon, p.between, PairValue(t, n));
    StandsSplit(str, at, Write(p.value), p.after + PairTail(t, n));
  }

  lemma KeyStands(str: string, i: nat, before: string, key: string, rest: string)
    requires Blank(before) && Stands(str, i, before + ([QUOTE] + (key + rest)))
    ensures var q := i + |before|;
      && i <= |str| && q < |str| && str[q] == QUOTE && ParseNext(str, i) == ParseNext(str, q)
      && Stands(str, q + 1, key) && Stands(str, q + 1 + |key|, rest)
  {
    hide *;
    BracketIsNoSpace();
    StandsWithin(str, i, before + ([QUOTE] + (key + rest)));
    SkipTo(str, i, before, [QUOTE] + (key + rest));
    StandsSplit(str, i + |before|, [QUOTE], key + rest);
    StandsSplit(str, i + |before| + 1, key, rest);
  }

  lemma ColonStands(str: string, c: nat, before: string, after: string, value: string)
    requires Blank(before) && Blank(after) && Stands(str, c, before + (":" + (after + value)))
    requires value != "" && !IsSpace(value[0])
    ensures var colon := c + |before|;
      && c <= |str| && SkipSpace(str, c) == colon < |str| && str[colon] == ':'
      && SkipSpace(str, colon + 1) == colon + 1 + |after| && Stands(str, colon + 1 + |after|, value)
  {
    hide *;
    BracketIsNoSpace();
    StandsWithin(str, c, before + (":" + (after + value)));
    SkipTo(str, c, before, ":" + (after + value));
    StandsSplit(str, c + |before|, ":", after + value);
    SkipTo(str, c + |before| + 1, after, value);
  }

  lemma PairKeyRead(p: Pair, str: string, q: nat)
    requires LegalUnits(p.key) && q < |str| && str[q] == QUOTE && Stands(str, q + 1, UnitsText(p.key))
    ensures ParseNext(str, q) == Done(String(UnitsMeaning(p.key)), q + 1 + |UnitsText(p.key)|)
  {
    hide *;
    DispatchQuote(str, q);
    UnitsRead(str, q + 1, p.key, "");
    assert "" + UnitsMeaning(p.key) == UnitsMeaning(p.key);
  }

  /** A member of a text is read: its key, then its value. */
  lemma {:induction false} PairRead(t: Syntax, n: nat, str: string, i: nat) returns (m: Member, colon: nat)
    requires t.Record? && Legal(t) && n < |t.pairs| && Stands(str, i, PairsText(t, n))
    ensures var p := t.pairs[n];
      var end := i + |KeyText(p)| + |p.between| + |Write(p.value)|;
      && MemberRead(str, i, m, colon, end) && Stands(str, end, p.after + PairTail(t, n))
      && m.key == Escape(UnitsMeaning(p.key)) && Means(m.value, Meaning(p.value))
    decreases t, 0, 0
  {
    hide *;
    var p := t.pairs[n];
    var q := i + |p.before|;
    var c := q + 1 + |UnitsText(p.key)|;
    colon := c + |p.colon|;
    var at := colon + 1 + |p.between|;
    var end := at + |Write(p.value)|;
    PairLayout(t, n, str, i, q, c, colon, at, end);
    LegalPair(t, n);
    PairDelimits(t, n, str, end);
    var j := TextRead(p.value, str, at);
    m := Member(Escape(UnitsMeaning(p.key)), j);
    KeyLength(p);
    PairKeyRead(p, str, q);
    TextKey(UnitsMeaning(p.key));
    ReadPair(str, i, c, colon, at, m, String(UnitsMeaning(p.key)), end);
  }

  lemma PairDelimits(t: Syntax, n: nat, str: string, end: nat)
    requires t.Record? && Legal(t) && n < |t.pairs| && Stands(str, end, t.pairs[n].after + PairTail(t, n))
    ensures end < |str| && IsDelimiter(str[end])
    ensures var k := SkipSpace(str, end);
      && k == end + |t.pairs[n].after| < |str| && Stands(str, k, PairTail(t, n))
      && str[k] == if n + 1 == |t.pairs| then '}' else ','
  {
    LegalPair(t, n);
    hide Legal, PairsText;
    TailDelimits(str, end, t.pairs[n].after, PairTail(t, n));
  }

  lemma KeyLength(p: Pair)
    ensures |KeyText(p)| == |p.before| + 1 + |UnitsText(p.key)| + |p.colon| + 1
  {
  }

  lemma TextKey(s: string)
    ensures ToString(String(s)) == Escape(s)
  {
  }

  lemma ReadPair(str: string, i: nat, c: nat, colon: nat, at: nat, m: Member, key: JSON, end: nat)
    requires i <= |str| && c <= |str| && colon < |str|
    requires ParseNext(str, i) == Done(key, c) && ToString(key) == m.key
    requires SkipSpace(str, c) == colon && str[colon] == ':' && SkipSpace(str, colon + 1) == at
    requires ParseNext(str, at) == Done(m.value, end)
    ensures MemberRead(str, i, m, colon, end)
  {
    hide ParseNext, SkipSpace, ToString;
  }

  lemma OnePairMore(t: Syntax, n: nat, ms: seq<Member>, m: Member)
    requires t.Record? && n < |t.pairs| && MembersMean(ms, FirstPairs(t, n))
    requires m.key == Escape(UnitsMeaning(t.pairs[n].key)) && Means(m.value, Meaning(t.pairs[n].value))
    ensures MembersMean(Insert(ms, m.key, m.value), FirstPairs(t, n + 1))
  {
    InsertMeans(ms, FirstPairs(t, n), m.key, m.value, Meaning(t.pairs[n].value));
    hide MembersMean, Means, Insert, Meaning, Escape, UnitsMeaning;
  }

  lemma {:induction false} PairsRead(t: Syntax, n: nat, str: string, i: nat, ms: seq<Member>) returns (j: JSON)
    requires t.Record? && Legal(t) && n < |t.pairs| && Stands(str, i, PairsText(t, n))
    requires MembersMean(ms, FirstPairs(t, n))
    ensures i <= |str| && MembersFrom(str, i, ms) == Done(j, i + |PairsText(t, n)|)
    ensures Means(j, ObjectValue(FirstPairs(t, |t.pairs|)))
    decreases t, 0, |t.pairs| - n
  {
    hide *;
    var p := t.pairs[n];
    StandsWithin(str, i, PairsText(t, n));
    var m, colon := PairRead(t, n, str, i);
    var end := i + |KeyText(p)| + |p.between| + |Write(p.value)|;
    PairDelimits(t, n, str, end);
    PairParts(t, n);
    KeyLength(p);
    MembersStep(str, i, ms, m, colon, end);
    OnePairMore(t, n, ms, m);
    var ms' := Insert(ms, m.key, m.value);
    if n + 1 == |t.pairs| {
      j := Object(ms');
      ObjectMeans(ms', FirstPairs(t, n + 1));
    } else {
      StandsSplit(str, end + |p.after|, ",", PairsText(t, n + 1));
      j := PairsRead(t, n + 1, str, end + |p.after| + 1, ms');
    }
  }

  /** Each key of a text's object is found with the value of its last member. */
  lemma {:induction false} LastWins(t: Syntax, n: nat, l: nat)
    requires t.Record? && l < n <= |t.pairs|
    requires forall k | l < k < n :: Escape(UnitsMeaning(t.pairs[k].key)) != Escape(UnitsMeaning(t.pairs[l].key))
    ensures var key := Escape(UnitsMeaning(t.pairs[l].key));
      key in FirstPairs(t, n) && FirstPairs(t, n)[key] == Meaning(t.pairs[l].value)
    decreases n
  {
    hide Escape, UnitsMeaning, Meaning;
    if l < n - 1 {
      LastWins(t, n - 1, l);
    }
  }
}
