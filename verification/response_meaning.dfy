/** What the parser's notions of characters, names, numbers and connections amount to, told without the parser. */
module ResponseMeaning {
  import opened Basics
  import opened HttpResponse
  import opened NumberText
  import opened ResponseText

  // ---------------------------------------------------------------------------
  // Numbers
  // ---------------------------------------------------------------------------

  lemma DecimalDigit(c: char, d: nat)
    requires d < 10
    ensures c == DIGITS[d] <==> IsDigit(c) && DigitOf(c) == d
  {
  }

  lemma LowerHexDigit(d: nat)
    requires d < 16
    ensures LOWER_HEX[d] == if d < 10 then ('0' as int + d) as char else ('a' as int + d - 10) as char
  {
  }

  lemma UpperHexDigit(d: nat)
    requires d < 16
    ensures UPPER_HEX[d] == if d < 10 then ('0' as int + d) as char else ('A' as int + d - 10) as char
  {
  }

  lemma HexDigitIs(c: char, d: nat)
    requires d < 16
    ensures c == LOWER_HEX[d] || c == UPPER_HEX[d] <==> HexDigit(c) == Some(d)
  {
    LowerHexDigit(d);
    UpperHexDigit(d);
    hide *;
    CodeOf(c, d);
  }

  lemma CodeOf(c: char, d: nat)
    requires d < 16
    ensures HexDigit(c) == Some(d) <==>
            if d < 10 then c as int == '0' as int + d
            else c as int == 'a' as int + d - 10 || c as int == 'A' as int + d - 10
  {
  }

  lemma HexDigitBound(c: char)
    ensures HexDigit(c).Some? ==> HexDigit(c).value < 16
  {
  }

  predicate AllHex(s: string) {
    forall i | 0 <= i < |s| :: HexDigit(s[i]).Some?
  }

  lemma {:induction false} DecimalOneMore(v: nat, s: string, c: char)
    requires (forall i | 0 <= i < |s| :: IsDigit(s[i])) && IsDigit(c)
    ensures Decimal(v, s + [c]) == 10 * Decimal(v, s) + DigitOf(c)
    decreases |s|
  {
    if s == "" {
      assert (s + [c])[1..] == "";
    } else {
      assert (s + [c])[1..] == s[1..] + [c];
      DecimalOneMore(10 * v + DigitOf(s[0]), s[1..], c);
    }
  }

  lemma {:induction false} HexOneMore(v: nat, s: string, c: char)
    requires AllHex(s) && HexDigit(c).Some?
    ensures Hex(v, s + [c]) == 16 * Hex(v, s) + HexDigit(c).value
    decreases |s|
  {
    if s == "" {
      assert (s + [c])[1..] == "";
    } else {
      assert (s + [c])[1..] == s[1..] + [c];
      HexOneMore(16 * v + HexDigit(s[0]).value, s[1..], c);
    }
  }

  lemma DigitAndRest(b: nat, n: nat, rest: nat, d: nat)
    requires 0 < b && d < b
    ensures n == b * rest + d <==> n / b == rest && n % b == d
  {
    if n == b * rest + d {
      ModUnique(n, b, rest, d);
      assert n / b * b == rest * b;
    }
  }

  /** The parser's decimal numbers are exactly what is written. */
  lemma {:induction false} DecimalExactly(s: string, n: nat)
    ensures DecimalText(s, n) <==> (forall i | 0 <= i < |s| :: IsDigit(s[i])) && Decimal(0, s) == n
    decreases |s|
  {
    if s != "" {
      var front, c := s[..|s| - 1], s[|s| - 1];
      assert s == front + [c];
      DecimalExactly(front, n / 10);
      DecimalDigit(c, n % 10);
      hide Decimal;
      if (forall i | 0 <= i < |front| :: IsDigit(front[i])) && IsDigit(c) {
        DecimalOneMore(0, front, c);
        DigitAndRest(10, n, Decimal(0, front), DigitOf(c));
      }
      assert (forall i | 0 <= i < |s| :: IsDigit(s[i])) <==>
             (forall i | 0 <= i < |front| :: IsDigit(front[i])) && IsDigit(c);
    }
  }

  /** And so are its hexadecimal ones. */
  lemma {:induction false} HexExactly(s: string, n: nat)
    ensures HexText(s, n) <==> AllHex(s) && Hex(0, s) == n
    decreases |s|
  {
    if s != "" {
      var front, c := s[..|s| - 1], s[|s| - 1];
      assert s == front + [c];
      HexExactly(front, n / 16);
      HexDigitIs(c, n % 16);
      HexDigitBound(c);
      hide Hex, HexDigit;
      if AllHex(front) && HexDigit(c).Some? {
        HexOneMore(0, front, c);
        DigitAndRest(16, n, Hex(0, front), HexDigit(c).value);
      }
      assert AllHex(s) <==> AllHex(front) && HexDigit(c).Some?;
    }
  }

  // ---------------------------------------------------------------------------
  // Characters and names
  // ---------------------------------------------------------------------------

  const SMALL: string := "abcdefghijklmnopqrstuvwxyz"
  const CAPITAL: string := "ABCDEFGHIJKLMNOPQRSTUVWXYZ"
  const MARKS: string := "!#$%&'*+-.^_`|~"

  /** The characters of a token (section 3.2.6 of RFC 7230), and those that are no controls. */
  lemma CharacterClasses(c: char)
    ensures IsToken(c) <==> c in DIGITS || c in SMALL || c in CAPITAL || c in MARKS
    ensures IsControl(c) <==> !(' ' <= c <= '~' || 128 <= c as int)
    ensures IsAlnum(c) <==> c in DIGITS || c in SMALL || c in CAPITAL
  {
    TokenIs(c);
    RowAt();
    InRow(c, DIGITS, '0');
    InRow(c, SMALL, 'a');
    InRow(c, CAPITAL, 'A');
    hide IsToken, Row;
  }

  lemma TokenIs(c: char)
    ensures IsToken(c) <==> '0' <= c <= '9' || 'a' <= c <= 'z' || 'A' <= c <= 'Z' || c in MARKS
  {
    MarkIs(c);
    SpecialIs(c);
    hide MARKS, IsSpecial;
  }

  lemma MarkIs(c: char)
    ensures c in MARKS <==>
            (c == '!' || '#' <= c <= '\'' || c == '*' || c == '+' || c == '-' || c == '.' || '^' <= c <= '`' || c == '|'
             || c == '~')
  {
  }

  lemma SpecialIs(c: char)
    ensures IsSpecial(c) <==>
            (c == '(' || c == ')' || c == '<' || c == '>' || c == '@' || c == ',' || c == ';' || c == ':' || c == '\\'
             || c == '\"' || c == '/' || c == '[' || c == ']' || c == '?' || c == '=' || c == '{' || c == '}'
             || c == ' ' || c == '\t')
  {
  }

  /** The characters from first on, one after the other. */
  ghost predicate Row(s: string, first: char) {
    forall k | 0 <= k < |s| :: s[k] as int == first as int + k
  }

  lemma RowAt()
    ensures |DIGITS| == 10 && |SMALL| == |CAPITAL| == 26
    ensures Row(DIGITS, '0') && Row(SMALL, 'a') && Row(CAPITAL, 'A')
  {
  }

  lemma InRow(c: char, s: string, first: char)
    requires s != "" && Row(s, first)
    ensures c in s <==> first as int <= c as int < first as int + |s|
  {
    if first as int <= c as int < first as int + |s| {
      assert s[c as int - first as int] == c;
    }
  }

  lemma SmallAt(k: nat)
    requires k < 26
    ensures SMALL[k] as int == 'a' as int + k && CAPITAL[k] as int == 'A' as int + k
  {
    RowAt();
  }

  /** The same character, or the small and the capital of a letter. */
  ghost predicate Alike(c: char, d: char) {
    c == d || exists k: nat :: Letter(c, d, k)
  }

  ghost predicate Letter(c: char, d: char, k: nat) {
    k < 26 && ((c == SMALL[k] && d == CAPITAL[k]) || (c == CAPITAL[k] && d == SMALL[k]))
  }

  lemma LowerIsAlike(c: char, d: char)
    ensures LowerChar(c) == LowerChar(d) <==> Alike(c, d)
  {
    hide SMALL, CAPITAL;
    if LowerChar(c) == LowerChar(d) && c != d {
      var k: nat := LowerChar(c) as int - 'a' as int;
      SmallAt(k);
      assert Letter(c, d, k);
    }
    if k: nat :| Letter(c, d, k) {
      SmallAt(k);
    }
  }

  /** Names are compared letter by letter, whatever the case of each. */
  lemma SameName(a: string, b: string)
    ensures SameNoCase(a, b) <==> |a| == |b| && forall i | 0 <= i < |a| :: Alike(a[i], b[i])
  {
    forall i | 0 <= i < |a| && i < |b|
      ensures LowerChar(a[i]) == LowerChar(b[i]) <==> Alike(a[i], b[i])
    {
      LowerIsAlike(a[i], b[i]);
    }
    hide LowerChar, Alike;
    if SameNoCase(a, b) {
      assert |Lower(a)| == |Lower(b)|;
      forall i | 0 <= i < |a|
        ensures Alike(a[i], b[i])
      {
        assert Lower(a)[i] == Lower(b)[i];
      }
    }
  }

  // ---------------------------------------------------------------------------
  // Heads
  // ---------------------------------------------------------------------------

  lemma {:induction false} FirstConnection(hs: seq<Header>, k: nat)
    requires k <= |hs| && forall i | 0 <= i < k :: !SameNoCase(hs[i].name, "Connection")
    requires k < |hs| ==> SameNoCase(hs[k].name, "Connection")
    ensures FindConnection(hs) == if k < |hs| then Some(hs[k]) else None
    decreases k
  {
    hide SameNoCase;
    if k > 0 {
      FirstConnection(hs[1..], k - 1);
    }
  }

  /** The first Connection header decides whether the connection stays open; without one, the version does. */
  lemma StaysOpen(r: Response, k: nat)
    requires k <= |r.headers| && forall i | 0 <= i < k :: !SameNoCase(r.headers[i].name, "Connection")
    requires k < |r.headers| ==> SameNoCase(r.headers[k].name, "Connection")
    ensures KeepAlive(r) <==> if k < |r.headers| then SameNoCase(r.headers[k].value, "Keep-Alive")
                              else r.major >= 2 || (r.major == 1 && r.minor == 1) || r.keepAlive
  {
    FirstConnection(r.headers, k);
    hide SameNoCase, FindConnection;
  }

  /** What is found in a head that writes these numbers. */
  lemma FoundIs(h: Head, major: nat, minor: nat, code: nat, k: nat)
    requires DecimalText(h.major, major) && DecimalText(h.minor, minor) && DecimalText(h.code, code)
    requires var hs := Found(h).headers;
      k <= |hs| && (forall i | 0 <= i < k :: !SameNoCase(hs[i].name, "Connection")) &&
      (k < |hs| ==> SameNoCase(hs[k].name, "Connection"))
    ensures var r := Found(h);
      && r.major == major && r.minor == minor && r.code == code && r.content == ""
      && (r.keepAlive <==> if k < |r.headers| then SameNoCase(r.headers[k].value, "Keep-Alive")
                           else major >= 2 || (major == 1 && minor == 1))
  {
    DecimalExactly(h.major, major);
    DecimalExactly(h.minor, minor);
    DecimalExactly(h.code, code);
    hide DecimalText, Decimal, SameNoCase, KeepAlive, SeenAll, IsDigit;
    StaysOpen(Found(h).(keepAlive := false), k);
  }

  lemma {:induction false} DecimalStops(v: nat, s: string, rest: string)
    requires (forall i | 0 <= i < |s| :: IsDigit(s[i])) && (rest == "" || !IsDigit(rest[0]))
    ensures Decimal(v, s + rest) == Decimal(v, s)
    decreases |s|
  {
    if s == "" {
      assert s + rest == rest;
    } else {
      assert (s + rest)[1..] == s[1..] + rest;
      DecimalStops(10 * v + DigitOf(s[0]), s[1..], rest);
    }
  }

  /** atoi reads spaces, a sign and a number, up to the first character that is no digit. */
  lemma {:induction false} AtoiReads(front: string, sign: string, s: string, rest: string, n: nat)
    requires (forall i | 0 <= i < |front| :: front[i] == ' ') && sign in ["", "-", "+"]
    requires s != "" && DecimalText(s, n) && (rest == "" || !IsDigit(rest[0]))
    ensures Atoi(front + (sign + (s + rest))) == if sign == "-" then 0 - n else n
    decreases |front|
  {
    var text := sign + (s + rest);
    if front == "" {
      assert front + text == text;
      DecimalExactly(s, n);
      DecimalStops(0, s, rest);
      hide Decimal, DecimalText;
      assert IsDigit(s[0]) && (s + rest)[0] == s[0];
      if sign == "" {
        assert text == s + rest;
      } else {
        assert text[1..] == s + rest && text[0] == sign[0];
      }
    } else {
      assert (front + text)[1..] == front[1..] + text;
      AtoiReads(front[1..], sign, s, rest, n);
    }
  }

  /** The size a head gives is the number the value of its last Content-Length field begins with. */
  lemma {:induction false} LengthIs(fs: seq<Field>, k: nat, m: nat, front: string, s: string, rest: string, n: nat)
    requires k < |fs| && IsLength(fs[k].name) && forall i | k < i < |fs| :: !IsLength(fs[i].name)
    requires (forall i | 0 <= i < |front| :: front[i] == ' ') && s != "" && DecimalText(s, n) && n < WORD_SIZE
    requires (rest == "" || !IsDigit(rest[0])) && Seen(fs[k]).value == front + (s + rest)
    ensures LengthOf(fs, m) == n
    decreases k
  {
    hide *;
    LengthStep(fs, m);
    if k > 0 {
      LengthIs(fs[1..], k - 1, if IsLength(fs[0].name) then Wrap(Atoi(Seen(fs[0]).value)) else m, front, s, rest, n);
    } else {
      AtoiReads(front, "", s, rest, n);
      assert "" + (s + rest) == s + rest;
      WrapSmall(n);
      NoLength(fs[1..], n);
    }
  }

  lemma LengthStep(fs: seq<Field>, m: nat)
    requires fs != []
    ensures LengthOf(fs, m) == LengthOf(fs[1..], if IsLength(fs[0].name) then Wrap(Atoi(Seen(fs[0]).value)) else m)
  {
    hide IsLength, Atoi, Seen, Wrap;
  }

  lemma WrapSmall(n: nat)
    requires n < WORD_SIZE
    ensures Wrap(n) == n
  {
  }

  lemma {:induction false} NoLength(fs: seq<Field>, m: nat)
    requires forall i | 0 <= i < |fs| :: !IsLength(fs[i].name)
    ensures LengthOf(fs, m) == m
  {
    hide IsLength, Atoi, Seen;
    if fs != [] {
      NoLength(fs[1..], m);
    }
  }
}
