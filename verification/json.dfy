/**
  The JSON printer and parser.  A parser reads at an offset of its text; reading at the very end
  yields '\0', as operator[] of std::string does.

  Abort stands for what the model does not follow: a read further past the end, an exception of std::stol, and
  numbers with a fraction or exponent.
 */
module Json {
  import opened Basics

  /** Object members are kept in the order of their keys, as std::map keeps them. */
  datatype Member = Member(key: string, value: JSON)

  datatype JSON =
    | Null
    | Object(members: seq<Member>)
    | Array(elements: seq<JSON>)
    | String(text: string)
    | Integral(number: int)
    | Boolean(flag: bool)

  datatype Outcome = Done(value: JSON, at: nat) | Abort

  const LONG_MIN: int := -0x8000_0000_0000_0000
  const LONG_MAX: int := 0x7FFF_FFFF_FFFF_FFFF

  // ---------------------------------------------------------------------------
  // Printing
  // ---------------------------------------------------------------------------

  const BACKSPACE: char := 8 as char
  const FORM_FEED: char := 12 as char
  const VERTICAL_TAB: char := 11 as char
  const QUOTE: char := '"'
  const BACKSLASH: char := '\\'

  function EscapeChar(c: char): string {
    if c == QUOTE then [BACKSLASH, QUOTE]
    else if c == BACKSLASH then [BACKSLASH, BACKSLASH]
    else if c == BACKSPACE then [BACKSLASH, 'b']
    else if c == FORM_FEED then [BACKSLASH, 'f']
    else if c == '\n' then [BACKSLASH, 'n']
    else if c == '\r' then [BACKSLASH, 'r']
    else if c == '\t' then [BACKSLASH, 't']
    else [c]
  }

  /** json_escape. */
  function Escape(s: string): string {
    if s == "" then "" else EscapeChar(s[0]) + Escape(s[1..])
  }

  /** ToString: the escaped text of a string, and nothing for other values. */
  function ToString(j: JSON): string {
    if j.String? then Escape(j.text) else ""
  }

  function Digit(d: nat): char
    requires d < 10
  {
    ('0' as int + d) as char
  }

  function Digits(n: nat): (s: string)
    ensures s != ""
  {
    if n < 10 then [Digit(n)] else Digits(n / 10) + [Digit(n % 10)]
  }

  /** std::to_string of a long. */
  function Decimal(n: int): string {
    if n < 0 then "-" + Digits(-n) else Digits(n)
  }

  function Spaces(n: nat): (s: string)
    ensures |s| == n && forall i | 0 <= i < n :: s[i] == ' '
  {
    seq(n, _ => ' ')
  }

  /** dump with the default tab of two spaces. */
  function Dump(j: JSON, depth: nat): string
    decreases j, 1
  {
    match j
    case Null => "null"
    case Object(_) => "{\n" + DumpMembers(j, 0, depth) + "\n" + Spaces(if depth == 0 then 0 else 2 * depth - 2) + "}"
    case Array(_) => "[" + DumpElements(j, 0, depth) + "]"
    case String(s) => "\"" + Escape(s) + "\""
    case Integral(n) => Decimal(n)
    case Boolean(b) => if b then "true" else "false"
  }

  /** One member's line, given its value's text. */
  function MemberText(key: string, value: string, depth: nat): string {
    Spaces(2 * depth) + "\"" + key + "\" : " + value
  }

  /** The members from number i on, with commas between them. */
  function DumpMembers(j: JSON, i: nat, depth: nat): string
    requires j.Object? && i <= |j.members|
    decreases j, 0, |j.members| - i
  {
    if i == |j.members| then ""
    else
      MemberText(j.members[i].key, Dump(j.members[i].value, depth + 1), depth) +
      (if i + 1 == |j.members| then "" else ",\n" + DumpMembers(j, i + 1, depth))
  }

  /** The elements from number i on, with commas between them. */
  function DumpElements(j: JSON, i: nat, depth: nat): string
    requires j.Array? && i <= |j.elements|
    decreases j, 0, |j.elements| - i
  {
    if i == |j.elements| then ""
    else Dump(j.elements[i], depth + 1) + (if i + 1 == |j.elements| then "" else ", " + DumpElements(j, i + 1, depth))
  }

  // ---------------------------------------------------------------------------
  // Parsing
  // ---------------------------------------------------------------------------

  /** str[i]; reading at the end yields the terminator. */
  function At(str: string, i: nat): char
    requires i <= |str|
  {
    if i < |str| then str[i] else 0 as char
  }

  /** isspace in the C locale. */
  predicate IsSpace(c: char) {
    c == ' ' || c == '\t' || c == '\n' || c == VERTICAL_TAB || c == FORM_FEED || c == '\r'
  }

  /** consume_ws. */
  function SkipSpace(str: string, i: nat): (j: nat)
    requires i <= |str|
    ensures i <= j <= |str| && !IsSpace(At(str, j))
    decreases |str| - i
  {
    if i < |str| && IsSpace(str[i]) then SkipSpace(str, i + 1) else i
  }

  predicate IsDigit(c: char) {
    '0' <= c <= '9'
  }

  predicate IsHex(c: char) {
    IsDigit(c) || 'a' <= c <= 'f' || 'A' <= c <= 'F'
  }

  /** What the escape of letter e stands for; an unknown escape stands for its backslash. */
  function Unescape(e: char): char {
    if e == QUOTE then QUOTE
    else if e == BACKSLASH then BACKSLASH
    else if e == '/' then '/'
    else if e == 'b' then BACKSPACE
    else if e == 'f' then FORM_FEED
    else if e == 'n' then '\n'
    else if e == 'r' then '\r'
    else if e == 't' then '\t'
    else BACKSLASH
  }

  /** The number of hexadecimal digits, up to four, from i on. */
  function HexRun(str: string, i: nat, n: nat): (r: nat)
    requires n <= 4
    ensures n <= r <= 4 && (r > n ==> i + r <= |str| + 1)
    decreases 4 - n
  {
    if n < 4 && i + n <= |str| && IsHex(At(str, i + n)) then HexRun(str, i, n + 1) else n
  }

  /** parse_string from the character at i on, with val read so far. */
  function StringFrom(str: string, i: nat, val: string): (r: Outcome)
    ensures r.Done? ==> i < r.at <= |str| && r.value.String?
    decreases |str| + 1 - i
  {
    if i > |str| then Abort
    else
      var c := At(str, i);
      if c == QUOTE && i < |str| then Done(String(val), i + 1)
      else if c == BACKSLASH && i < |str| then
        if At(str, i + 1) != 'u' then StringFrom(str, i + 2, val + [Unescape(At(str, i + 1))])
        else
          var n := HexRun(str, i + 2, 0);
          if n == 4 then
            if i + 6 <= |str| then StringFrom(str, i + 6, val + [BACKSLASH, 'u'] + str[i + 2..i + 6]) else Abort
          else if i + 2 + n <= |str| then Done(String(""), i + 1)
          else Abort
      else StringFrom(str, i + 1, val + [c])
  }

  /** The end of the characters that parse_number takes for a number. */
  function NumberEnd(str: string, i: nat): (j: nat)
    requires i <= |str|
    ensures i <= j <= |str|
    decreases |str| - i
  {
    if i < |str| && (IsDigit(str[i]) || str[i] == '-' || str[i] == '.') then NumberEnd(str, i + 1) else i
  }

  predicate IsDelimiter(c: char) {
    IsSpace(c) || c == ',' || c == ']' || c == '}'
  }

  function DigitRun(s: string): (n: nat)
    ensures n <= |s| && forall i | 0 <= i < n :: IsDigit(s[i])
    ensures n < |s| ==> !IsDigit(s[n])
  {
    if s == "" || !IsDigit(s[0]) then 0 else 1 + DigitRun(s[1..])
  }

  function DigitsValue(s: string): nat
    requires forall i | 0 <= i < |s| :: IsDigit(s[i])
  {
    if s == "" then 0
    else
      assert IsDigit(s[|s| - 1]);
      10 * DigitsValue(s[..|s| - 1]) + (s[|s| - 1] as int - '0' as int)
  }

  datatype Number = Number(value: int) | NoNumber

  /** std::stol: an optional sign and the digits after it; exceptions for no digits and for what does not fit a long. */
  function Stol(s: string): Number {
    var negative := s != "" && s[0] == '-';
    var rest := if negative then s[1..] else s;
    var n := DigitRun(rest);
    var v: int := DigitsValue(rest[..n]);
    var w: int := if negative then 0 - v else v;
    if n == 0 || w < LONG_MIN || w > LONG_MAX then NoNumber else Number(w)
  }

  /** parse_number. */
  function ParseNumber(str: string, i: nat): (r: Outcome)
    requires i <= |str|
    ensures r.Done? ==> i <= r.at <= |str| + 1
  {
    var j := NumberEnd(str, i);
    var c := At(str, j);
    if c == 'E' || c == 'e' then Abort
    else if !IsDelimiter(c) then Done(Null, j + 1)
    else if '.' in str[i..j] then Abort
    else
      var n := Stol(str[i..j]);
      if n.NoNumber? then Abort else Done(Integral(n.value), j)
  }

  /** Whether text stands at offset i, as comparing it with substr does. */
  predicate Stands(str: string, i: nat, text: string) {
    i + |text| <= |str| && str[i..i + |text|] == text
  }

  /** parse_bool. */
  function ParseBool(str: string, i: nat): Outcome {
    if Stands(str, i, "true") then Done(Boolean(true), i + 4)
    else if Stands(str, i, "false") then Done(Boolean(false), i + 5)
    else Done(Null, i)
  }

  /** parse_null. */
  function ParseNull(str: string, i: nat): Outcome {
    if Stands(str, i, "null") then Done(Null, i + 4) else Done(Null, i)
  }

  /** Dictionary order on keys. */
  predicate Less(a: string, b: string) {
    b != "" && (a == "" || a[0] < b[0] || (a[0] == b[0] && Less(a[1..], b[1..])))
  }

  /** Assignment to a member of an object: it replaces a member or goes to its place in order. */
  function Insert(ms: seq<Member>, key: string, value: JSON): seq<Member> {
    if ms == [] then [Member(key, value)]
    else if key == ms[0].key then [Member(key, value)] + ms[1..]
    else if Less(key, ms[0].key) then [Member(key, value)] + ms
    else [ms[0]] + Insert(ms[1..], key, value)
  }

  /** parse_next. */
  function ParseNext(str: string, i: nat): (r: Outcome)
    ensures r.Done? ==> i <= r.at <= |str| + 1
    decreases |str| + 1 - i, 1
  {
    if i > |str| then Abort
    else
      var j := SkipSpace(str, i);
      var c := At(str, j);
      if j == |str| then Done(Null, j)
      else if c == '[' then ParseArray(str, j)
      else if c == '{' then ParseObject(str, j)
      else if c == QUOTE then StringFrom(str, j + 1, "")
      else if c == 't' || c == 'f' then ParseBool(str, j)
      else if c == 'n' then ParseNull(str, j)
      else if IsDigit(c) || c == '-' then ParseNumber(str, j)
      else Done(Null, j)
  }

  /** parse_array, from its bracket. */
  function ParseArray(str: string, i: nat): (r: Outcome)
    requires i < |str|
    ensures r.Done? ==> i <= r.at <= |str|
    decreases |str| + 1 - i, 0
  {
    var j := SkipSpace(str, i + 1);
    if At(str, j) == ']' && j < |str| then Done(Array([]), j + 1)
    else ElementsFrom(str, j, [])
  }

  /** The loop of parse_array, with the elements read so far. */
  function ElementsFrom(str: string, i: nat, es: seq<JSON>): (r: Outcome)
    requires i <= |str|
    ensures r.Done? ==> i <= r.at <= |str|
    decreases |str| + 1 - i, 2
  {
    var e := ParseNext(str, i);
    if e.Abort? || e.at > |str| then Abort
    else
      var j := SkipSpace(str, e.at);
      if j == |str| then Done(Array([]), j)
      else if str[j] == ',' then ElementsFrom(str, j + 1, es + [e.value])
      else if str[j] == ']' then Done(Array(es + [e.value]), j + 1)
      else Done(Array([]), j)
  }

  /** parse_object, from its brace. */
  function ParseObject(str: string, i: nat): (r: Outcome)
    requires i < |str|
    ensures r.Done? ==> i <= r.at <= |str|
    decreases |str| + 1 - i, 0
  {
    var j := SkipSpace(str, i + 1);
    if At(str, j) == '}' && j < |str| then Done(Object([]), j + 1)
    else MembersFrom(str, j, [])
  }

  /** The loop of parse_object, with the members read so far. */
  function MembersFrom(str: string, i: nat, ms: seq<Member>): (r: Outcome)
    requires i <= |str|
    ensures r.Done? ==> i <= r.at <= |str|
    decreases |str| + 1 - i, 2
  {
    var k := ParseNext(str, i);
    if k.Abort? || k.at > |str| then Abort
    else
      var j := SkipSpace(str, k.at);
      if j == |str| || str[j] != ':' then Done(Object(ms), j)
      else
        var v := ParseNext(str, SkipSpace(str, j + 1));
        if v.Abort? || v.at > |str| then Abort
        else
          var ms' := Insert(ms, ToString(k.value), v.value);
          var m := SkipSpace(str, v.at);
          if m == |str| then Done(Object(ms'), m)
          else if str[m] == ',' then MembersFrom(str, m + 1, ms')
          else if str[m] == '}' then Done(Object(ms'), m + 1)
          else Done(Object(ms'), m)
  }

  // ---------------------------------------------------------------------------
  // Strings
  // ---------------------------------------------------------------------------

  lemma EscapeIsUndone(c: char)
    ensures 1 <= |EscapeChar(c)| <= 2
    ensures |EscapeChar(c)| == 1 ==> EscapeChar(c) == [c] && c != QUOTE && c != BACKSLASH
    ensures |EscapeChar(c)| == 2 ==>
              EscapeChar(c)[0] == BACKSLASH && EscapeChar(c)[1] != 'u' && Unescape(EscapeChar(c)[1]) == c
  {
  }

  lemma StandsSplit(str: string, i: nat, a: string, b: string)
    requires Stands(str, i, a + b)
    ensures Stands(str, i, a) && Stands(str, i + |a|, b)
  {
    var n := |a| + |b|;
    assert str[i..i + n] == a + b;
    assert str[i..i + |a|] == str[i..i + n][..|a|] == a;
    assert str[i + |a|..i + n] == str[i..i + n][|a|..] == b;
  }

  /** Reading one escaped character. */
  lemma StringStep(str: string, i: nat, c: char, val: string)
    requires Stands(str, i, EscapeChar(c))
    ensures StringFrom(str, i, val) == StringFrom(str, i + |EscapeChar(c)|, val + [c])
  {
    EscapeIsUndone(c);
    var e := EscapeChar(c);
    assert str[i] == str[i..i + |e|][0] == e[0];
    if |e| == 2 {
      assert str[i + 1] == str[i..i + |e|][1] == e[1];
    }
    hide EscapeChar, Unescape;
  }

  lemma StringEnd(str: string, i: nat, val: string)
    requires Stands(str, i, [QUOTE])
    ensures StringFrom(str, i, val) == Done(String(val), i + 1)
  {
    assert str[i] == str[i..i + 1][0] == QUOTE;
  }

  lemma EscapeParts(s: string)
    ensures s == "" ==> Escape(s) + [QUOTE] == [QUOTE] && |Escape(s)| == 0
    ensures s != "" ==> Escape(s) == EscapeChar(s[0]) + Escape(s[1..])
    ensures s != "" ==> Escape(s) + [QUOTE] == EscapeChar(s[0]) + (Escape(s[1..]) + [QUOTE])
  {
  }

  /** Reading an escaped text up to its closing quote gives the text back. */
  lemma {:induction false} StringRoundTrip(str: string, i: nat, s: string, val: string)
    requires Stands(str, i, Escape(s) + [QUOTE])
    ensures StringFrom(str, i, val) == Done(String(val + s), i + |Escape(s)| + 1)
    decreases |s|
  {
    hide *;
    EscapeParts(s);
    if s == "" {
      StringEnd(str, i, val);
      assert val + s == val;
    } else {
      StandsSplit(str, i, EscapeChar(s[0]), Escape(s[1..]) + [QUOTE]);
      StringStep(str, i, s[0], val);
      StringRoundTrip(str, i + |EscapeChar(s[0])|, s[1..], val + [s[0]]);
      assert val + [s[0]] + s[1..] == val + s;
    }
  }

  // ---------------------------------------------------------------------------
  // Numbers
  // ---------------------------------------------------------------------------

  lemma {:induction false} DigitsRoundTrip(n: nat)
    ensures forall i | 0 <= i < |Digits(n)| :: IsDigit(Digits(n)[i])
    ensures DigitsValue(Digits(n)) == n
  {
    if n < 10 {
      assert Digits(n)[..0] == "";
    } else {
      DigitsRoundTrip(n / 10);
      var s := Digits(n);
      assert s[..|s| - 1] == Digits(n / 10);
      assert s[|s| - 1] == Digit(n % 10);
    }
  }

  lemma {:induction false} AllDigits(s: string)
    requires forall i | 0 <= i < |s| :: IsDigit(s[i])
    ensures DigitRun(s) == |s|
  {
    if s != "" {
      AllDigits(s[1..]);
    }
  }

  /** std::stol undoes std::to_string on every long. */
  lemma StolOfDecimal(n: int)
    requires LONG_MIN <= n <= LONG_MAX
    ensures Stol(Decimal(n)) == Number(n)
  {
    hide *;
    var m: nat := if n < 0 then 0 - n else n;
    DecimalIs(n, m);
    DigitsRoundTrip(m);
    AllDigits(Digits(m));
    StolSigned(Digits(m), n < 0);
  }

  lemma DecimalIs(n: int, m: nat)
    requires m == if n < 0 then 0 - n else n
    ensures Decimal(n) == (if n < 0 then "-" else "") + Digits(m)
  {
    assert "" + Digits(m) == Digits(m);
  }

  lemma StolSigned(d: string, negative: bool)
    requires d != "" && DigitRun(d) == |d| && forall i | 0 <= i < |d| :: IsDigit(d[i])
    requires var v: int := DigitsValue(d); LONG_MIN <= (if negative then 0 - v else v) <= LONG_MAX
    ensures Stol((if negative then "-" else "") + d) == Number(if negative then 0 - DigitsValue(d) else DigitsValue(d))
  {
    hide DigitRun, DigitsValue;
    assert d[..|d|] == d;
    assert ("-" + d)[1..] == d;
    assert "" + d == d;
    assert IsDigit(d[0]);
  }

  lemma {:induction false} NumberRun(str: string, i: nat, s: string)
    requires Stands(str, i, s) && i + |s| < |str| && IsDelimiter(str[i + |s|])
    requires forall k | 0 <= k < |s| :: IsDigit(s[k]) || s[k] == '-'
    ensures NumberEnd(str, i) == i + |s|
    decreases |s|
  {
    if s != "" {
      assert str[i] == s[0];
      assert Stands(str, i + 1, s[1..]);
      NumberRun(str, i + 1, s[1..]);
    }
  }

  lemma DecimalChars(n: int)
    ensures Decimal(n) != "" && (IsDigit(Decimal(n)[0]) || Decimal(n)[0] == '-')
    ensures forall k | 0 <= k < |Decimal(n)| :: IsDigit(Decimal(n)[k]) || Decimal(n)[k] == '-'
  {
    var m: nat := if n < 0 then 0 - n else n;
    DigitsRoundTrip(m);
    hide Digits, DigitsValue;
  }

  /** A printed number followed by a delimiter is read back, the delimiter left. */
  lemma NumberRoundTrip(str: string, i: nat, n: int)
    requires LONG_MIN <= n <= LONG_MAX
    requires Stands(str, i, Decimal(n)) && i + |Decimal(n)| < |str| && IsDelimiter(str[i + |Decimal(n)|])
    ensures ParseNumber(str, i) == Done(Integral(n), i + |Decimal(n)|)
  {
    hide Decimal, NumberEnd, Stol;
    DecimalChars(n);
    var s := Decimal(n);
    NumberRun(str, i, s);
    StolOfDecimal(n);
    assert '.' !in s;
  }

  // ---------------------------------------------------------------------------
  // Keys
  // ---------------------------------------------------------------------------

  lemma LessIsStrict(a: string, b: string)
    ensures Less(a, b) ==> a != b && !Less(b, a)
  {
    if a != "" && b != "" && a[0] == b[0] {
      LessIsStrict(a[1..], b[1..]);
    }
  }

  ghost predicate Sorted(ms: seq<Member>) {
    forall a, b | 0 <= a < b < |ms| :: Less(ms[a].key, ms[b].key)
  }

  /** Assigning members in the order of their keys appends them. */
  lemma {:induction false} InsertLast(ms: seq<Member>, m: Member)
    requires Sorted(ms + [m])
    ensures Insert(ms, m.key, m.value) == ms + [m]
    decreases |ms|
  {
    if ms != [] {
      var all := ms + [m];
      assert Less(all[0].key, all[|ms|].key);
      LessIsStrict(ms[0].key, m.key);
      assert all[1..] == ms[1..] + [m];
      assert Sorted(ms[1..] + [m]) by {
        hide Less;
        forall a, b | 0 <= a < b < |all[1..]|
          ensures Less(all[1..][a].key, all[1..][b].key)
        {
          assert all[1..][a] == all[a + 1] && all[1..][b] == all[b + 1];
        }
      }
      InsertLast(ms[1..], m);
    }
  }

  /** The form in which the parser stores keys. */
  ghost predicate KeyForm(k: string) {
    exists s: string :: Escape(s) == k
  }

  /** The values the round trip is about: keys as the parser stores them, integers that fit a long. */
  ghost predicate Printable(j: JSON) {
    match j
    case Object(ms) => Sorted(ms) && forall i | 0 <= i < |ms| :: KeyForm(ms[i].key) && Printable(ms[i].value)
    case Array(es) => forall i | 0 <= i < |es| :: Printable(es[i])
    case Integral(n) => LONG_MIN <= n <= LONG_MAX
    case _ => true
  }

  // ---------------------------------------------------------------------------
  // Space
  // ---------------------------------------------------------------------------

  lemma {:induction false} SkipRun(str: string, i: nat, n: nat)
    requires i + n <= |str| && forall k | i <= k < i + n :: IsSpace(str[k])
    ensures SkipSpace(str, i) == SkipSpace(str, i + n)
    decreases n
  {
    if n > 0 {
      SkipRun(str, i + 1, n - 1);
    }
  }

  /** Space before a value makes no difference to what is read. */
  lemma SpaceBefore(str: string, i: nat, n: nat)
    requires i + n <= |str| && forall k | i <= k < i + n :: IsSpace(str[k])
    ensures ParseNext(str, i) == ParseNext(str, i + n)
  {
    SkipRun(str, i, n);
    hide SkipSpace, IsSpace, ParseArray, ParseObject, StringFrom, ParseBool, ParseNull, ParseNumber;
  }

  lemma SpaceBeforeElements(str: string, i: nat, n: nat, es: seq<JSON>)
    requires i + n <= |str| && forall k | i <= k < i + n :: IsSpace(str[k])
    ensures ElementsFrom(str, i, es) == ElementsFrom(str, i + n, es)
  {
    SpaceBefore(str, i, n);
    hide SkipSpace, IsSpace, ParseNext;
  }

  lemma SpaceBeforeMembers(str: string, i: nat, n: nat, ms: seq<Member>)
    requires i + n <= |str| && forall k | i <= k < i + n :: IsSpace(str[k])
    ensures MembersFrom(str, i, ms) == MembersFrom(str, i + n, ms)
  {
    SpaceBefore(str, i, n);
    hide SkipSpace, IsSpace, ParseNext, Insert, ToString;
  }

  /** The first character of a printed value, by which the parser tells what it is. */
  predicate StartsValue(j: JSON, c: char) {
    match j
    case Null => c == 'n'
    case Object(_) => c == '{'
    case Array(_) => c == '['
    case String(_) => c == QUOTE
    case Integral(_) => IsDigit(c) || c == '-'
    case Boolean(b) => c == if b then 't' else 'f'
  }

  lemma DumpStarts(j: JSON, depth: nat)
    ensures Dump(j, depth) != "" && StartsValue(j, Dump(j, depth)[0]) && !IsSpace(Dump(j, depth)[0])
  {
    if j.Integral? {
      DecimalChars(j.number);
    }
    hide Decimal, DumpMembers, DumpElements, Escape;
  }

  /** At a value's first character the parser goes straight to that kind of value. */
  lemma Dispatch(str: string, i: nat, j: JSON)
    requires i < |str| && StartsValue(j, str[i])
    ensures ParseNext(str, i) ==
      match j
      case Null => ParseNull(str, i)
      case Object(_) => ParseObject(str, i)
      case Array(_) => ParseArray(str, i)
      case String(_) => StringFrom(str, i + 1, "")
      case Integral(_) => ParseNumber(str, i)
      case Boolean(_) => ParseBool(str, i)
  {
    assert SkipSpace(str, i) == i;
    hide SkipSpace, StringFrom, ParseNumber, ParseBool, ParseNull, ParseObject, ParseArray;
  }

  lemma StandsAt(str: string, i: nat, text: string, k: nat)
    requires Stands(str, i, text) && k < |text|
    ensures i + k < |str| && str[i + k] == text[k]
  {
    assert str[i..i + |text|][k] == text[k];
  }

  // ---------------------------------------------------------------------------
  // The round trip
  // ---------------------------------------------------------------------------

  /** The parser looks at the first character of the printed text. */
  lemma DispatchDumped(j: JSON, depth: nat, str: string, i: nat)
    requires Stands(str, i, Dump(j, depth))
    ensures i < |str| && StartsValue(j, str[i])
    ensures j.Array? ==> ParseNext(str, i) == ParseArray(str, i)
    ensures j.Object? ==> ParseNext(str, i) == ParseObject(str, i)
  {
    hide Dump, ParseNext, SkipSpace, ParseArray, ParseObject;
    DumpStarts(j, depth);
    StandsAt(str, i, Dump(j, depth), 0);
    Dispatch(str, i, j);
  }

  lemma StringValue(s: string, depth: nat, str: string, i: nat)
    requires Stands(str, i, Dump(String(s), depth))
    ensures StringFrom(str, i + 1, "") == Done(String(s), i + |Dump(String(s), depth)|)
  {
    assert Dump(String(s), depth) == [QUOTE] + (Escape(s) + [QUOTE]);
    hide Dump, StringFrom, Escape;
    StandsSplit(str, i, [QUOTE], Escape(s) + [QUOTE]);
    StringRoundTrip(str, i + 1, s, "");
    assert "" + s == s;
  }

  lemma WordValue(j: JSON, depth: nat, str: string, i: nat)
    requires (j.Null? || j.Boolean?) && Stands(str, i, Dump(j, depth)) && i < |str| && StartsValue(j, str[i])
    ensures (if j.Null? then ParseNull(str, i) else ParseBool(str, i)) == Done(j, i + |Dump(j, depth)|)
  {
  }

  lemma IntegralText(n: int, depth: nat)
    requires Printable(Integral(n))
    ensures Dump(Integral(n), depth) == Decimal(n) && LONG_MIN <= n <= LONG_MAX
  {
  }

  lemma SimpleRoundTrip(j: JSON, depth: nat, str: string, i: nat)
    requires Printable(j) && Stands(str, i, Dump(j, depth)) && !j.Array? && !j.Object?
    requires j.Integral? ==> i + |Dump(j, depth)| < |str| && IsDelimiter(str[i + |Dump(j, depth)|])
    ensures ParseNext(str, i) == Done(j, i + |Dump(j, depth)|)
  {
    hide *;
    DispatchDumped(j, depth, str, i);
    Dispatch(str, i, j);
    match j
    case Integral(n) =>
      IntegralText(n, depth);
      NumberRoundTrip(str, i, n);
    case String(s) => StringValue(s, depth, str, i);
    case _ => WordValue(j, depth, str, i);
  }

  /** A value printed at i is read back from i, up to where it ends; after a number a delimiter is needed. */
  lemma {:induction false} RoundTrip(j: JSON, depth: nat, str: string, i: nat)
    requires Printable(j) && Stands(str, i, Dump(j, depth))
    requires j.Integral? ==> i + |Dump(j, depth)| < |str| && IsDelimiter(str[i + |Dump(j, depth)|])
    ensures ParseNext(str, i) == Done(j, i + |Dump(j, depth)|)
    decreases j, 1
  {
    hide *;
    if j.Array? {
      DispatchDumped(j, depth, str, i);
      ArrayRoundTrip(j, depth, str, i);
    } else if j.Object? {
      DispatchDumped(j, depth, str, i);
      ObjectRoundTrip(j, depth, str, i);
    } else {
      SimpleRoundTrip(j, depth, str, i);
    }
  }

  lemma {:induction false} ArrayRoundTrip(j: JSON, depth: nat, str: string, i: nat)
    requires j.Array? && Printable(j) && Stands(str, i, Dump(j, depth))
    ensures i < |str| && ParseArray(str, i) == Done(j, i + |Dump(j, depth)|)
    decreases j, 0, |j.elements| + 1
  {
    var body := DumpElements(j, 0, depth);
    assert Dump(j, depth) == "[" + (body + "]");
    StandsSplit(str, i, "[", body + "]");
    if j.elements == [] {
      assert body + "]" == "]";
      StandsAt(str, i + 1, "]", 0);
      assert SkipSpace(str, i + 1) == i + 1;
    } else {
      hide SkipSpace, DumpElements, Dump;
      ElementsStart(j, depth, str, i + 1);
      assert j.elements[..0] == [];
      ElementsRoundTrip(j, 0, depth, str, i + 1);
    }
  }

  /** The first element's text starts right behind the bracket, and not with a bracket that closes. */
  lemma ElementsStart(j: JSON, depth: nat, str: string, i: nat)
    requires j.Array? && j.elements != [] && Stands(str, i, DumpElements(j, 0, depth) + "]")
    ensures i < |str| && SkipSpace(str, i) == i && At(str, i) != ']'
  {
    var e := j.elements[0];
    DumpStarts(e, depth + 1);
    assert DumpElements(j, 0, depth)[0] == Dump(e, depth + 1)[0];
    StandsAt(str, i, DumpElements(j, 0, depth) + "]", 0);
    hide Dump, DumpElements;
  }

  /** The text behind an element: the closing bracket, or a comma and the other elements. */
  function AfterElement(j: JSON, n: nat, depth: nat): string
    requires j.Array? && n < |j.elements|
  {
    if n + 1 == |j.elements| then "]" else ", " + (DumpElements(j, n + 1, depth) + "]")
  }

  lemma ElementsParts(j: JSON, n: nat, depth: nat)
    requires j.Array? && n < |j.elements|
    ensures DumpElements(j, n, depth) + "]" == Dump(j.elements[n], depth + 1) + AfterElement(j, n, depth)
  {
    var d := Dump(j.elements[n], depth + 1);
    if n + 1 == |j.elements| {
      assert d + "" == d;
    } else {
      var rest := DumpElements(j, n + 1, depth);
      assert (d + (", " + rest)) + "]" == d + (", " + (rest + "]"));
    }
  }

  /** One step of the array loop, for an element that is read up to end. */
  lemma ElementsStep(str: string, i: nat, es: seq<JSON>, e: JSON, end: nat)
    requires i <= |str| && ParseNext(str, i) == Done(e, end) && end < |str| && (str[end] == ',' || str[end] == ']')
    ensures ElementsFrom(str, i, es) == if str[end] == ']'
          then Done(Array(es + [e]), end + 1) else ElementsFrom(str, end + 1, es + [e])
  {
    assert SkipSpace(str, end) == end;
    hide ParseNext, SkipSpace;
  }

  lemma AfterElementStands(j: JSON, n: nat, depth: nat, str: string, end: nat)
    requires j.Array? && n < |j.elements| && Stands(str, end, AfterElement(j, n, depth))
    ensures end < |str| && IsDelimiter(str[end]) && str[end] == (if n + 1 == |j.elements| then ']' else ',')
    ensures n + 1 < |j.elements| ==>
              end + 1 < |str| && IsSpace(str[end + 1]) && Stands(str, end + 2, DumpElements(j, n + 1, depth) + "]")
    ensures |AfterElement(j, n, depth)| == if n + 1 == |j.elements| then 1 else 3 + |DumpElements(j, n + 1, depth)|
  {
    StandsAt(str, end, AfterElement(j, n, depth), 0);
    if n + 1 < |j.elements| {
      StandsAt(str, end, AfterElement(j, n, depth), 1);
      StandsSplit(str, end, ", ", DumpElements(j, n + 1, depth) + "]");
    }
    hide DumpElements;
  }

  /** After element n the array is complete, or the loop goes on with the next element. */
  lemma ElementDone(j: JSON, n: nat, depth: nat, str: string, i: nat, end: nat)
    requires j.Array? && n < |j.elements| && i <= |str|
    requires ParseNext(str, i) == Done(j.elements[n], end) && Stands(str, end, AfterElement(j, n, depth))
    ensures n + 1 == |j.elements| ==> ElementsFrom(str, i, j.elements[..n]) == Done(j, end + 1)
    ensures n + 1 < |j.elements| ==>
              && end + 2 <= |str| && ElementsFrom(str, i, j.elements[..n]) ==
                   ElementsFrom(str, end + 2, j.elements[..n + 1])
              && Stands(str, end + 2, DumpElements(j, n + 1, depth) + "]")
  {
    hide *;
    AfterElementStands(j, n, depth, str, end);
    ElementsStep(str, i, j.elements[..n], j.elements[n], end);
    assert j.elements[..n] + [j.elements[n]] == j.elements[..n + 1];
    if n + 1 == |j.elements| {
      assert j.elements[..n + 1] == j.elements && j == Array(j.elements);
    } else {
      SpaceBeforeElements(str, end + 1, 1, j.elements[..n + 1]);
    }
  }

  lemma ElementsLength(j: JSON, n: nat, depth: nat)
    requires j.Array? && n < |j.elements|
    ensures |DumpElements(j, n, depth)| ==
            |Dump(j.elements[n], depth + 1)| + if n + 1 == |j.elements| then 0 else 2 + |DumpElements(j, n + 1, depth)|
  {
    hide Dump;
  }

  lemma PrintableElement(j: JSON, n: nat)
    requires j.Array? && Printable(j) && n < |j.elements|
    ensures Printable(j.elements[n])
  {
  }

  lemma {:induction false} ElementsRoundTrip(j: JSON, n: nat, depth: nat, str: string, i: nat)
    requires j.Array? && n < |j.elements| && Printable(j)
    requires Stands(str, i, DumpElements(j, n, depth) + "]")
    ensures i <= |str| && ElementsFrom(str, i, j.elements[..n]) == Done(j, i + |DumpElements(j, n, depth)| + 1)
    decreases j, 0, |j.elements| - n
  {
    hide *;
    var d := Dump(j.elements[n], depth + 1);
    PrintableElement(j, n);
    ElementsParts(j, n, depth);
    ElementsLength(j, n, depth);
    StandsSplit(str, i, d, AfterElement(j, n, depth));
    StandsWithin(str, i, d);
    AfterElementStands(j, n, depth, str, i + |d|);
    RoundTrip(j.elements[n], depth + 1, str, i);
    ElementDone(j, n, depth, str, i, i + |d|);
    if n + 1 < |j.elements| {
      ElementsRoundTrip(j, n + 1, depth, str, i + |d| + 2);
    }
  }

  lemma StandsWithin(str: string, i: nat, text: string)
    requires Stands(str, i, text)
    ensures i + |text| <= |str|
  {
  }

  /** The end of an object: a new line, the brace's indentation, the brace. */
  function Closing(depth: nat): string {
    "\n" + (Spaces(if depth == 0 then 0 else 2 * depth - 2) + "}")
  }

  /** From a closing's first character the parser skips to its brace. */
  lemma SkipClosing(str: string, i: nat, depth: nat)
    requires Stands(str, i, Closing(depth))
    ensures var k := i + |Closing(depth)| - 1; SkipSpace(str, i) == k && k < |str| && str[k] == '}'
  {
    var n := |Closing(depth)| - 1;
    forall k | i <= k < i + n
      ensures IsSpace(str[k])
    {
      StandsAt(str, i, Closing(depth), k - i);
    }
    StandsAt(str, i, Closing(depth), n);
    SkipRun(str, i, n);
    assert SkipSpace(str, i + n) == i + n;
  }

  lemma ObjectParts(j: JSON, depth: nat)
    requires j.Object?
    ensures Dump(j, depth) == "{" + ("\n" + (DumpMembers(j, 0, depth) + Closing(depth)))
  {
    var a, sp := DumpMembers(j, 0, depth), Spaces(if depth == 0 then 0 else 2 * depth - 2);
    assert "{\n" + a + "\n" + sp + "}" == "{" + ("\n" + (a + ("\n" + (sp + "}"))));
  }

  lemma {:induction false} ObjectRoundTrip(j: JSON, depth: nat, str: string, i: nat)
    requires j.Object? && Printable(j) && Stands(str, i, Dump(j, depth))
    ensures i < |str| && ParseObject(str, i) == Done(j, i + |Dump(j, depth)|)
    decreases j, 0, |j.members| + 1
  {
    hide *;
    ObjectLayout(j, depth, str, i);
    if j.members == [] {
      EmptyObject(j, depth, str, i);
    } else {
      ObjectOpens(j, depth, str, i);
      MembersRoundTrip(j, 0, depth, str, i + 2);
    }
  }

  lemma EmptyObject(j: JSON, depth: nat, str: string, i: nat)
    requires j.Object? && j.members == [] && i + 2 <= |str| && SkipSpace(str, i + 1) == SkipSpace(str, i + 2)
    requires Stands(str, i + 2, DumpMembers(j, 0, depth) + Closing(depth))
    requires |Dump(j, depth)| == 2 + |DumpMembers(j, 0, depth)| + |Closing(depth)|
    ensures ParseObject(str, i) == Done(j, i + |Dump(j, depth)|)
  {
    hide *;
    NoMembers(j, depth);
    assert DumpMembers(j, 0, depth) + Closing(depth) == Closing(depth) && j == Object([]);
    SkipClosing(str, i + 2, depth);
    ObjectRead(str, i);
  }

  /** With members, parse_object enters its loop before the first of them. */
  lemma ObjectOpens(j: JSON, depth: nat, str: string, i: nat)
    requires j.Object? && j.members != [] && i + 2 <= |str| && SkipSpace(str, i + 1) == SkipSpace(str, i + 2)
    requires Stands(str, i + 2, DumpMembers(j, 0, depth) + Closing(depth))
    ensures ParseObject(str, i) == MembersFrom(str, i + 2, j.members[..0])
  {
    hide *;
    MembersStart(j, depth, str, i + 2);
    QuoteIsNoSpace();
    SpaceBeforeMembers(str, i + 2, SkipSpace(str, i + 2) - (i + 2), []);
    assert j.members[..0] == [];
    ObjectRead(str, i);
  }

  /** Where the parts of a printed object stand. */
  lemma ObjectLayout(j: JSON, depth: nat, str: string, i: nat)
    requires j.Object? && Stands(str, i, Dump(j, depth))
    ensures i + 2 <= |str| && SkipSpace(str, i + 1) == SkipSpace(str, i + 2)
    ensures Stands(str, i + 2, DumpMembers(j, 0, depth) + Closing(depth))
    ensures |Dump(j, depth)| == 2 + |DumpMembers(j, 0, depth)| + |Closing(depth)|
  {
    var body := DumpMembers(j, 0, depth) + Closing(depth);
    ObjectParts(j, depth);
    hide Dump, DumpMembers, Closing, SkipSpace;
    StandsSplit(str, i, "{", "\n" + body);
    StandsSplit(str, i + 1, "\n", body);
    StandsAt(str, i + 1, "\n", 0);
    SkipRun(str, i + 1, 1);
  }

  /** What parse_object does behind its brace. */
  lemma ObjectRead(str: string, i: nat)
    requires i < |str|
    ensures var k := SkipSpace(str, i + 1);
      ParseObject(str, i) == if k < |str| && str[k] == '}' then Done(Object([]), k + 1) else MembersFrom(str, k, [])
  {
    hide SkipSpace, MembersFrom;
  }

  lemma NoMembers(j: JSON, depth: nat)
    requires j.Object? && j.members == []
    ensures DumpMembers(j, 0, depth) == ""
  {
  }

  /** The text of a member, taken apart. */
  lemma MemberParts(key: string, value: string, depth: nat)
    ensures MemberText(key, value, depth) == Spaces(2 * depth) + ([QUOTE] + ((key + [QUOTE]) + (" : " + value)))
  {
    var sp := Spaces(2 * depth);
    assert sp + "\"" + key + "\" : " + value == sp + ([QUOTE] + ((key + [QUOTE]) + (" : " + value)));
  }

  /** The first member's key comes behind nothing but space. */
  lemma MembersStart(j: JSON, depth: nat, str: string, i: nat)
    requires j.Object? && j.members != [] && Stands(str, i, DumpMembers(j, 0, depth) + Closing(depth))
    ensures var k := SkipSpace(str, i); k < |str| && str[k] == QUOTE && forall a | i <= a < k :: IsSpace(str[a])
  {
    MembersParts(j, 0, depth);
    var m := j.members[0];
    var text := MemberText(m.key, Dump(m.value, depth + 1), depth);
    StandsSplit(str, i, text, AfterMember(j, 0, depth));
    MemberParts(m.key, Dump(m.value, depth + 1), depth);
    hide Dump, DumpMembers, Closing;
    LeadingSpaces(str, i, 2 * depth, [QUOTE] + ((m.key + [QUOTE]) + (" : " + Dump(m.value, depth + 1))));
  }

  lemma LeadingSpaces(str: string, i: nat, n: nat, rest: string)
    requires Stands(str, i, Spaces(n) + rest) && rest != "" && !IsSpace(rest[0])
    ensures i + n < |str| && str[i + n] == rest[0] && SkipSpace(str, i) == i + n
    ensures forall a | i <= a < i + n :: IsSpace(str[a])
    ensures Stands(str, i + n, rest)
  {
    StandsSplit(str, i, Spaces(n), rest);
    StandsAt(str, i + n, rest, 0);
    forall a | i <= a < i + n
      ensures IsSpace(str[a])
    {
      StandsAt(str, i, Spaces(n), a - i);
    }
    SkipRun(str, i, n);
    assert SkipSpace(str, i + n) == i + n;
  }

  /** The text behind a member: the closing, or a comma and the other members. */
  function AfterMember(j: JSON, n: nat, depth: nat): string
    requires j.Object? && n < |j.members|
  {
    if n + 1 == |j.members| then Closing(depth) else ",\n" + (DumpMembers(j, n + 1, depth) + Closing(depth))
  }

  lemma MembersParts(j: JSON, n: nat, depth: nat)
    requires j.Object? && n < |j.members|
    ensures DumpMembers(j, n, depth) + Closing(depth) ==
            MemberText(j.members[n].key, Dump(j.members[n].value, depth + 1), depth) + AfterMember(j, n, depth)
  {
    var d := MemberText(j.members[n].key, Dump(j.members[n].value, depth + 1), depth);
    hide MemberText, Dump, Closing;
    if n + 1 == |j.members| {
      assert d + "" == d;
    } else {
      var rest := DumpMembers(j, n + 1, depth);
      assert (d + (",\n" + rest)) + Closing(depth) == d + (",\n" + (rest + Closing(depth)));
    }
  }

  /** Where the parts of a printed member stand. */
  lemma MemberLayout(str: string, i: nat, key: string, d: string, after: string, depth: nat)
    requires Stands(str, i, MemberText(key, d, depth) + after)
    ensures var q := i + 2 * depth;
      && q < |str| && str[q] == QUOTE && (forall a | i <= a < q :: IsSpace(str[a]))
      && Stands(str, q + 1, key + [QUOTE])
      && Stands(str, q + |key| + 2, " : ")
      && Stands(str, q + |key| + 5, d)
      && q + |key| + 5 + |d| == i + |MemberText(key, d, depth)|
      && Stands(str, q + |key| + 5 + |d|, after)
  {
    var tail := " : " + d;
    var q := i + 2 * depth;
    hide Stands, MemberText, IsSpace;
    StandsSplit(str, i, MemberText(key, d, depth), after);
    MemberParts(key, d, depth);
    QuoteIsNoSpace();
    LeadingSpaces(str, i, 2 * depth, [QUOTE] + ((key + [QUOTE]) + tail));
    StandsSplit(str, q, [QUOTE], (key + [QUOTE]) + tail);
    StandsSplit(str, q + 1, key + [QUOTE], tail);
    StandsSplit(str, q + |key| + 2, " : ", d);
    assert |MemberText(key, d, depth)| == 2 * depth + |key| + 5 + |d|;
  }

  lemma QuoteIsNoSpace()
    ensures !IsSpace(QUOTE) && QUOTE != '}'
  {
  }

  lemma AfterMemberStands(j: JSON, n: nat, depth: nat, str: string, end: nat)
    requires j.Object? && n < |j.members| && Stands(str, end, AfterMember(j, n, depth))
    ensures end < |str| && IsDelimiter(str[end])
    ensures n + 1 == |j.members| ==> AfterMember(j, n, depth) == Closing(depth)
    ensures n + 1 < |j.members| ==>
              && str[end] == ',' && end + 1 < |str| && IsSpace(str[end + 1])
              && Stands(str, end + 2, DumpMembers(j, n + 1, depth) + Closing(depth))
              && |AfterMember(j, n, depth)| == 2 + |DumpMembers(j, n + 1, depth)| + |Closing(depth)|
  {
    StandsAt(str, end, AfterMember(j, n, depth), 0);
    if n + 1 < |j.members| {
      StandsAt(str, end, AfterMember(j, n, depth), 1);
      StandsSplit(str, end, ",\n", DumpMembers(j, n + 1, depth) + Closing(depth));
    }
    hide DumpMembers;
  }

  /** The key of a printed member is read, and its value stands behind the colon. */
  lemma MemberKey(str: string, i: nat, m: Member, after: string, depth: nat, c: nat)
    requires KeyForm(m.key) && Stands(str, i, MemberText(m.key, Dump(m.value, depth + 1), depth) + after)
    requires c == i + 2 * depth + |m.key| + 2
    ensures KeyReadAt(str, i, m.key, c) && i <= |str|
    ensures Stands(str, c + 3, Dump(m.value, depth + 1)) && Stands(str, c + 3 + |Dump(m.value, depth + 1)|, after)
    ensures c + 3 + |Dump(m.value, depth + 1)| == i + |MemberText(m.key, Dump(m.value, depth + 1), depth)|
  {
    hide *;
    var d := Dump(m.value, depth + 1);
    MemberLayout(str, i, m.key, d, after, depth);
    StandsWithin(str, i, MemberText(m.key, d, depth) + after);
    KeyRead(str, i, i + 2 * depth, m.key);
    ColonRead(str, c, m.value, depth);
    KeyReadIs(str, i, m.key, c);
  }

  /** From i the key is read up to c, where the colon between its two spaces follows. */
  ghost predicate KeyReadAt(str: string, i: nat, key: string, c: nat) {
    var k := ParseNext(str, i);
    && k.Done? && k.at == c && ToString(k.value) == key
    && c + 3 <= |str| && SkipSpace(str, c) == c + 1 && str[c + 1] == ':' && SkipSpace(str, c + 2) == c + 3
  }

  lemma KeyReadIs(str: string, i: nat, key: string, c: nat)
    requires var k := ParseNext(str, i); k.Done? && k.at == c && ToString(k.value) == key
    requires c + 3 <= |str| && SkipSpace(str, c) == c + 1 && str[c + 1] == ':' && SkipSpace(str, c + 2) == c + 3
    ensures KeyReadAt(str, i, key, c)
  {
    hide ParseNext, SkipSpace, ToString;
  }

  /** One printed member is read back: its key, then its value, up to what follows it. */
  lemma {:induction false} MemberRoundTrip(j: JSON, n: nat, depth: nat, str: string, i: nat) returns (colon: nat)
    requires j.Object? && n < |j.members| && Printable(j)
    requires Stands(str, i, MemberText(j.members[n].key, Dump(j.members[n].value, depth + 1), depth)
          + AfterMember(j, n, depth))
    ensures var m := j.members[n];
      var end := i + |MemberText(m.key, Dump(m.value, depth + 1), depth)|;
      MemberRead(str, i, m, colon, end) && Stands(str, end, AfterMember(j, n, depth))
    decreases j, 0, 0
  {
    hide *;
    var m := j.members[n];
    var c := i + 2 * depth + |m.key| + 2;
    var end := c + 3 + |Dump(m.value, depth + 1)|;
    PrintableMembers(j, n);
    MemberKey(str, i, m, AfterMember(j, n, depth), depth, c);
    AfterMemberStands(j, n, depth, str, end);
    RoundTrip(m.value, depth + 1, str, c + 3);
    ReadMember(str, i, m, c, end);
    colon := c + 1;
  }

  lemma ReadMember(str: string, i: nat, m: Member, c: nat, end: nat)
    requires i <= |str| && KeyReadAt(str, i, m.key, c) && ParseNext(str, c + 3) == Done(m.value, end)
    ensures MemberRead(str, i, m, c + 1, end)
  {
    hide ParseNext, SkipSpace, ToString;
  }

  /** From i the member is read, with its colon at colon and its value up to end. */
  ghost predicate MemberRead(str: string, i: nat, m: Member, colon: nat, end: nat) {
    var k := ParseNext(str, i);
    && i <= |str| && k.Done? && k.at <= |str| && ToString(k.value) == m.key
    && colon == SkipSpace(str, k.at) && colon < |str| && str[colon] == ':'
    && ParseNext(str, SkipSpace(str, colon + 1)) == Done(m.value, end)
  }

  lemma KeyText(key: string) returns (s: string)
    requires KeyForm(key)
    ensures Escape(s) == key == ToString(String(s))
  {
    s :| Escape(s) == key;
  }

  lemma DispatchQuote(str: string, q: nat)
    requires q < |str| && str[q] == QUOTE
    ensures ParseNext(str, q) == StringFrom(str, q + 1, "")
  {
    Dispatch(str, q, String(""));
  }

  lemma KeyRead(str: string, i: nat, q: nat, key: string)
    requires i <= q < |str| && (forall a | i <= a < q :: IsSpace(str[a])) && str[q] == QUOTE
    requires KeyForm(key) && Stands(str, q + 1, key + [QUOTE])
    ensures var k := ParseNext(str, i); k.Done? && k.at == q + 1 + |key| + 1 && ToString(k.value) == key
  {
    hide *;
    var s := KeyText(key);
    SpaceBefore(str, i, q - i);
    DispatchQuote(str, q);
    StringRoundTrip(str, q + 1, s, "");
    assert "" + s == s;
  }

  lemma ColonRead(str: string, c: nat, value: JSON, depth: nat)
    requires Stands(str, c, " : ") && Stands(str, c + 3, Dump(value, depth + 1))
    ensures SkipSpace(str, c) == c + 1 && str[c + 1] == ':' && SkipSpace(str, c + 2) == c + 3
  {
    StandsAt(str, c, " : ", 0);
    StandsAt(str, c, " : ", 1);
    StandsAt(str, c, " : ", 2);
    DumpStarts(value, depth + 1);
    StandsAt(str, c + 3, Dump(value, depth + 1), 0);
    hide Dump;
    SkipRun(str, c, 1);
    SkipRun(str, c + 2, 1);
    assert SkipSpace(str, c + 3) == c + 3;
  }

  lemma SortedPrefix(ms: seq<Member>, n: nat)
    requires Sorted(ms) && n < |ms|
    ensures Insert(ms[..n], ms[n].key, ms[n].value) == ms[..n + 1]
  {
    assert ms[..n] + [ms[n]] == ms[..n + 1];
    hide Less, Insert;
    assert ms[n] == Member(ms[n].key, ms[n].value);
    InsertLast(ms[..n], ms[n]);
  }

  /** One step of the object loop, for a member that is read up to end. */
  lemma MembersStep(str: string, i: nat, ms: seq<Member>, m: Member, colon: nat, end: nat)
    requires MemberRead(str, i, m, colon, end) && end <= |str|
    ensures var next := SkipSpace(str, end);
      var ms' := Insert(ms, m.key, m.value);
      && (next < |str| && str[next] == ',' ==> MembersFrom(str, i, ms) == MembersFrom(str, next + 1, ms'))
      && (next < |str| && str[next] == '}' ==> MembersFrom(str, i, ms) == Done(Object(ms'), next + 1))
  {
    hide ParseNext, SkipSpace, Insert, ToString;
  }

  lemma NoSpaceToSkip(str: string, i: nat)
    requires i < |str| && str[i] == ','
    ensures SkipSpace(str, i) == i
  {
  }

  /** After member n the object is complete, or the loop goes on with the next member. */
  lemma MemberDone(j: JSON, n: nat, depth: nat, str: string, i: nat, colon: nat, end: nat)
    requires j.Object? && n < |j.members| && Sorted(j.members)
    requires MemberRead(str, i, j.members[n], colon, end) && Stands(str, end, AfterMember(j, n, depth))
    ensures i <= |str|
    ensures n + 1 == |j.members| ==> MembersFrom(str, i, j.members[..n]) == Done(j, end + |Closing(depth)|)
    ensures n + 1 < |j.members| ==>
              && end + 2 <= |str| && MembersFrom(str, i, j.members[..n]) ==
                   MembersFrom(str, end + 2, j.members[..n + 1])
              && Stands(str, end + 2, DumpMembers(j, n + 1, depth) + Closing(depth))
  {
    hide *;
    var m := j.members[n];
    MemberReadAt(str, i, m, colon, end);
    AfterMemberStands(j, n, depth, str, end);
    SortedPrefix(j.members, n);
    MembersStep(str, i, j.members[..n], m, colon, end);
    if n + 1 == |j.members| {
      assert j.members[..n + 1] == j.members;
      assert j == Object(j.members);
      SkipClosing(str, end, depth);
    } else {
      NoSpaceToSkip(str, end);
      SpaceBeforeMembers(str, end + 1, 1, j.members[..n + 1]);
    }
  }

  lemma MembersLength(j: JSON, n: nat, depth: nat)
    requires j.Object? && n < |j.members|
    ensures var text := MemberText(j.members[n].key, Dump(j.members[n].value, depth + 1), depth);
      |DumpMembers(j, n, depth)| == |text| + if n + 1 == |j.members| then 0 else 2 + |DumpMembers(j, n + 1, depth)|
  {
    hide MemberText, Dump;
  }

  lemma {:induction false} MembersRoundTrip(j: JSON, n: nat, depth: nat, str: string, i: nat)
    requires j.Object? && n < |j.members| && Printable(j)
    requires Stands(str, i, DumpMembers(j, n, depth) + Closing(depth))
    ensures i <= |str| && MembersFrom(str, i, j.members[..n]) ==
          Done(j, i + |DumpMembers(j, n, depth)| + |Closing(depth)|)
    decreases j, 0, |j.members| - n
  {
    hide *;
    var end := i + |MemberText(j.members[n].key, Dump(j.members[n].value, depth + 1), depth)|;
    PrintableMembers(j, n);
    MembersParts(j, n, depth);
    MembersLength(j, n, depth);
    var colon := MemberRoundTrip(j, n, depth, str, i);
    MemberDone(j, n, depth, str, i, colon, end);
    if n + 1 < |j.members| {
      MembersRoundTrip(j, n + 1, depth, str, end + 2);
    }
  }

  lemma PrintableMembers(j: JSON, n: nat)
    requires j.Object? && Printable(j) && n < |j.members|
    ensures Sorted(j.members) && KeyForm(j.members[n].key) && Printable(j.members[n].value)
  {
  }

  lemma MemberReadAt(str: string, i: nat, m: Member, colon: nat, end: nat)
    requires MemberRead(str, i, m, colon, end)
    ensures i <= |str|
  {
  }

  /** Parsing a printed value gives the value back and consumes exactly the printed text, for every value but a bare
      number. */
  lemma ParseUndoesDump(j: JSON)
    requires Printable(j) && !j.Integral?
    ensures ParseNext(Dump(j, 1), 0) == Done(j, |Dump(j, 1)|)
  {
    RoundTrip(j, 1, Dump(j, 1), 0);
  }

  // ---------------------------------------------------------------------------
  // Everything the parser returns can be printed and parsed back
  // ---------------------------------------------------------------------------

  lemma LessTotal(a: string, b: string)
    ensures a == b || Less(a, b) || Less(b, a)
  {
    if a != "" && b != "" && a[0] == b[0] {
      LessTotal(a[1..], b[1..]);
      assert a == [a[0]] + a[1..] && b == [b[0]] + b[1..];
    }
  }

  lemma LessTransitive(a: string, b: string, c: string)
    requires Less(a, b) && Less(b, c)
    ensures Less(a, c)
  {
    if a != "" && a[0] == b[0] && b[0] == c[0] {
      LessTransitive(a[1..], b[1..], c[1..]);
    }
  }

  /** Insert adds one member, and otherwise only drops one it replaces. */
  lemma {:induction false} InsertMembers(ms: seq<Member>, key: string, value: JSON)
    ensures forall m | m in Insert(ms, key, value) :: m == Member(key, value) || m in ms
    decreases |ms|
  {
    hide Less;
    if ms != [] {
      InsertMembers(ms[1..], key, value);
    }
  }

  lemma {:induction false} InsertKeepsOrder(ms: seq<Member>, key: string, value: JSON)
    requires Sorted(ms)
    ensures Sorted(Insert(ms, key, value))
    decreases |ms|
  {
    hide Less;
    if ms == [] {
    } else if key == ms[0].key {
    } else if Less(key, ms[0].key) {
      forall b | 0 <= b < |ms|
        ensures Less(key, ms[b].key)
      {
        if b > 0 {
          LessTransitive(key, ms[0].key, ms[b].key);
        }
      }
    } else {
      LessTotal(key, ms[0].key);
      InsertKeepsOrder(ms[1..], key, value);
      InsertMembers(ms[1..], key, value);
      var rest := Insert(ms[1..], key, value);
      forall b | 0 <= b < |rest|
        ensures Less(ms[0].key, rest[b].key)
      {
        assert rest[b] in rest;
      }
    }
  }

  /** What an object has under a key. */
  function Lookup(ms: seq<Member>, key: string): Option<JSON> {
    if ms == [] then None else if ms[0].key == key then Some(ms[0].value) else Lookup(ms[1..], key)
  }

  lemma {:induction false} SmallerIsAbsent(ms: seq<Member>, key: string)
    requires forall i | 0 <= i < |ms| :: Less(key, ms[i].key)
    ensures Lookup(ms, key) == None
  {
    if ms != [] {
      LessIsStrict(key, ms[0].key);
      hide Less;
      SmallerIsAbsent(ms[1..], key);
    }
  }

  /** Assignment to a member is assignment in a map: the member has the new value, and every other key what it had. */
  lemma {:induction false} InsertIsUpdate(ms: seq<Member>, key: string, value: JSON, k: string)
    requires Sorted(ms)
    ensures Lookup(Insert(ms, key, value), k) == if k == key then Some(value) else Lookup(ms, k)
    decreases |ms|
  {
    hide Less;
    if ms != [] && key != ms[0].key && !Less(key, ms[0].key) {
      InsertIsUpdate(ms[1..], key, value, k);
    } else {
      assert ([Member(key, value)] + ms)[1..] == ms;
      assert ms != [] ==> ([Member(key, value)] + ms[1..])[1..] == ms[1..];
    }
  }

  /** Objects in order that have the same under every key are the same. */
  lemma {:induction false} LookupDecides(ms: seq<Member>, ns: seq<Member>)
    requires Sorted(ms) && Sorted(ns) && forall k :: Lookup(ms, k) == Lookup(ns, k)
    ensures ms == ns
    decreases |ms|
  {
    var first := if ms != [] then ms[0].key else if ns != [] then ns[0].key else "";
    assert Lookup(ms, first) == Lookup(ns, first);
    if ms != [] && ns != [] {
      FirstKey(ms, ns);
      FirstKey(ns, ms);
      LessIsStrict(ms[0].key, ns[0].key);
      hide Less;
      assert Lookup(ms, ms[0].key) == Lookup(ns, ms[0].key);
      forall k
        ensures Lookup(ms[1..], k) == Lookup(ns[1..], k)
      {
        assert Lookup(ms, k) == Lookup(ns, k);
        if k == ms[0].key {
          SmallerIsAbsent(ms[1..], k);
          SmallerIsAbsent(ns[1..], k);
        }
      }
      LookupDecides(ms[1..], ns[1..]);
    }
  }

  lemma FirstKey(ms: seq<Member>, ns: seq<Member>)
    requires Sorted(ms) && Sorted(ns) && ms != [] && ns != [] && forall k :: Lookup(ms, k) == Lookup(ns, k)
    ensures !Less(ms[0].key, ns[0].key) && (ms[0].key == ns[0].key || Less(ns[0].key, ms[0].key))
  {
    LessTotal(ms[0].key, ns[0].key);
    assert Lookup(ms, ms[0].key) == Lookup(ns, ms[0].key);
    if Less(ms[0].key, ns[0].key) {
      forall i | 0 <= i < |ns|
        ensures Less(ms[0].key, ns[i].key)
      {
        if i > 0 {
          LessTransitive(ms[0].key, ns[0].key, ns[i].key);
        }
      }
      SmallerIsAbsent(ns, ms[0].key);
    }
  }

  lemma InsertPrintable(ms: seq<Member>, key: string, value: JSON)
    requires Printable(Object(ms)) && KeyForm(key) && Printable(value)
    ensures Printable(Object(Insert(ms, key, value)))
  {
    InsertKeepsOrder(ms, key, value);
    InsertMembers(ms, key, value);
    hide Sorted, KeyForm, Insert;
    var ms' := Insert(ms, key, value);
    forall i | 0 <= i < |ms'|
      ensures KeyForm(ms'[i].key) && Printable(ms'[i].value)
    {
      assert ms'[i] in ms';
    }
  }

  lemma ToStringIsKey(j: JSON)
    ensures KeyForm(ToString(j))
  {
    assert Escape("") == "";
  }

  lemma ScalarsPrintable(str: string, i: nat)
    ensures i <= |str| && ParseNumber(str, i).Done? ==> Printable(ParseNumber(str, i).value)
    ensures ParseBool(str, i).Done? ==> Printable(ParseBool(str, i).value)
    ensures ParseNull(str, i).Done? ==> Printable(ParseNull(str, i).value)
    ensures StringFrom(str, i, "").Done? ==> Printable(StringFrom(str, i, "").value)
  {
    hide NumberEnd, StringFrom;
  }

  lemma {:induction false} ParsedIsPrintable(str: string, i: nat)
    ensures ParseNext(str, i).Done? ==> Printable(ParseNext(str, i).value)
    decreases |str| + 1 - i, 1
  {
    if i <= |str| {
      var j := SkipSpace(str, i);
      ScalarsPrintable(str, j);
      ScalarsPrintable(str, j + 1);
      hide SkipSpace, ParseArray, ParseObject, ParseNumber, ParseBool, ParseNull, StringFrom, Printable;
      NullPrintable();
      if j < |str| && str[j] == '[' {
        ArrayIsPrintable(str, j);
      } else if j < |str| && str[j] == '{' {
        ObjectIsPrintable(str, j);
      }
    }
  }

  lemma NullPrintable()
    ensures Printable(Null) && Printable(Array([])) && Printable(Object([]))
  {
  }

  lemma {:induction false} ArrayIsPrintable(str: string, i: nat)
    requires i < |str|
    ensures ParseArray(str, i).Done? ==> Printable(ParseArray(str, i).value)
    decreases |str| + 1 - i, 0
  {
    NullPrintable();
    ElementsArePrintable(str, SkipSpace(str, i + 1), []);
  }

  lemma {:induction false} ObjectIsPrintable(str: string, i: nat)
    requires i < |str|
    ensures ParseObject(str, i).Done? ==> Printable(ParseObject(str, i).value)
    decreases |str| + 1 - i, 0
  {
    NullPrintable();
    MembersArePrintable(str, SkipSpace(str, i + 1), []);
  }

  lemma {:induction false} ElementsArePrintable(str: string, i: nat, es: seq<JSON>)
    requires i <= |str| && Printable(Array(es))
    ensures ElementsFrom(str, i, es).Done? ==> Printable(ElementsFrom(str, i, es).value)
    decreases |str| + 1 - i, 2
  {
    var e := ParseNext(str, i);
    ParsedIsPrintable(str, i);
    NullPrintable();
    if e.Done? && e.at <= |str| {
      assert Printable(Array(es + [e.value]));
      var j := SkipSpace(str, e.at);
      hide SkipSpace, ParseNext, Printable;
      if j < |str| && str[j] == ',' {
        ElementsArePrintable(str, j + 1, es + [e.value]);
      }
    }
  }

  lemma {:induction false} MembersArePrintable(str: string, i: nat, ms: seq<Member>)
    requires i <= |str| && Printable(Object(ms))
    ensures MembersFrom(str, i, ms).Done? ==> Printable(MembersFrom(str, i, ms).value)
    decreases |str| + 1 - i, 2
  {
    hide SkipSpace, ParseNext, Printable, Insert, ToString;
    var k := ParseNext(str, i);
    ParsedIsPrintable(str, i);
    if k.Done? && k.at <= |str| {
      var j := SkipSpace(str, k.at);
      if j < |str| && str[j] == ':' {
        var v := ParseNext(str, SkipSpace(str, j + 1));
        ParsedIsPrintable(str, SkipSpace(str, j + 1));
        if v.Done? && v.at <= |str| {
          ToStringIsKey(k.value);
          InsertPrintable(ms, ToString(k.value), v.value);
          var m := SkipSpace(str, v.at);
          if m < |str| && str[m] == ',' {
            MembersArePrintable(str, m + 1, Insert(ms, ToString(k.value), v.value));
          }
        }
      }
    }
  }

  /** Whatever text a value was parsed from, printing it and parsing again changes nothing. */
  lemma ReparseIsStable(str: string, i: nat)
    requires ParseNext(str, i).Done? && !ParseNext(str, i).value.Integral?
    ensures var j := ParseNext(str, i).value; ParseNext(Dump(j, 1), 0) == Done(j, |Dump(j, 1)|)
  {
    ParsedIsPrintable(str, i);
    hide ParseNext, Printable, Dump;
    ParseUndoesDump(ParseNext(str, i).value);
  }

  /** A bare number at the end of the text is refused, for parse_number wants a delimiter behind it: it reads as
      null. */
  lemma BareNumberIsLost(n: int)
    requires LONG_MIN <= n <= LONG_MAX
    ensures ParseNext(Decimal(n), 0) == Done(Null, |Decimal(n)| + 1)
  {
    var s := Decimal(n);
    DecimalChars(n);
    hide Decimal;
    Dispatch(s, 0, Integral(n));
    NumberToEnd(s, 0);
  }

  lemma {:induction false} NumberToEnd(s: string, i: nat)
    requires i <= |s| && forall k | 0 <= k < |s| :: IsDigit(s[k]) || s[k] == '-'
    ensures NumberEnd(s, i) == |s|
    decreases |s| - i
  {
    if i < |s| {
      NumberToEnd(s, i + 1);
    }
  }

  /** A value survives printing and parsing if and only if it is printable and not a bare number. */
  lemma RoundTripExactly(j: JSON)
    ensures ParseNext(Dump(j, 1), 0) == Done(j, |Dump(j, 1)|) <==> Printable(j) && !j.Integral?
  {
    hide *;
    ParsedIsPrintable(Dump(j, 1), 0);
    if Printable(j) {
      if j.Integral? {
        IntegralText(j.number, 1);
        BareNumberIsLost(j.number);
      } else {
        ParseUndoesDump(j);
      }
    }
  }
}
