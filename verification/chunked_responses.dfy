/** What the parser makes of responses it can read: chunked ones, and those of a given length. */
module ChunkedResponses {
  import opened Basics
  import opened Bytes
  import opened HttpResponse
  import opened ResponseText
  import opened NumberText
  import opened ResponseMeaning

  // ---------------------------------------------------------------------------
  // Running over text
  // ---------------------------------------------------------------------------

  /** From p the parser runs over s to q and wants more. */
  ghost predicate Eats(p: Parser, s: string, q: Parser) {
    Run(p, s) == (q, Incomplete)
  }

  lemma EatsNothing(p: Parser)
    ensures Eats(p, "", p)
  {
  }

  lemma EatsChar(p: Parser, c: char, q: Parser)
    requires Step(p, c) == (q, Incomplete)
    ensures Eats(p, [c], q)
  {
    EatsNothing(q);
    hide Step;
    assert [c][1..] == "";
  }

  lemma EatsThen(p: Parser, a: string, q: Parser, b: string, r: Parser)
    requires Eats(p, a, q) && Eats(q, b, r)
    ensures Eats(p, a + b, r)
  {
    RunOn(p, a, b);
    hide Run;
  }

  lemma EatsFirst(p: Parser, q: Parser, s: string, r: Parser)
    requires s != "" && Step(p, s[0]) == (q, Incomplete) && Eats(q, s[1..], r)
    ensures Eats(p, s, r)
  {
    hide Step;
  }

  /** Line breaks: two characters through a state of their own. */
  lemma EatsBreak(p: Parser, q: Parser, r: Parser)
    requires Step(p, '\r') == (q, Incomplete) && Step(q, '\n') == (r, Incomplete)
    ensures Eats(p, CRLF, r)
  {
    hide Step;
    EatsChar(q, '\n', r);
    assert CRLF[1..] == "\n";
    EatsFirst(p, q, CRLF, r);
  }

  // ---------------------------------------------------------------------------
  // The status line
  // ---------------------------------------------------------------------------

  lemma {:induction false} MajorDigits(p: Parser, s: string)
    requires p.state == Major && forall i | 0 <= i < |s| :: IsDigit(s[i])
    ensures Eats(p, s, p.(resp := p.resp.(major := Decimal(p.resp.major, s))))
    decreases |s|
  {
    if s != "" {
      var q := p.(resp := p.resp.(major := 10 * p.resp.major + DigitOf(s[0])));
      MajorDigits(q, s[1..]);
      assert Step(p, s[0]) == (q, Incomplete);
      hide Step, Run;
      EatsFirst(p, q, s, p.(resp := p.resp.(major := Decimal(p.resp.major, s))));
    }
  }

  lemma {:induction false} MinorDigits(p: Parser, s: string)
    requires p.state == Minor && forall i | 0 <= i < |s| :: IsDigit(s[i])
    ensures Eats(p, s, p.(resp := p.resp.(minor := Decimal(p.resp.minor, s))))
    decreases |s|
  {
    if s != "" {
      var q := p.(resp := p.resp.(minor := 10 * p.resp.minor + DigitOf(s[0])));
      MinorDigits(q, s[1..]);
      assert Step(p, s[0]) == (q, Incomplete);
      hide Step, Run;
      EatsFirst(p, q, s, p.(resp := p.resp.(minor := Decimal(p.resp.minor, s))));
    }
  }

  lemma {:induction false} DecimalGrows(v: nat, s: string)
    ensures v <= Decimal(v, s)
    decreases |s|
  {
    if s != "" && IsDigit(s[0]) {
      DecimalGrows(10 * v + DigitOf(s[0]), s[1..]);
    }
  }

  lemma {:induction false} CodeDigits(p: Parser, s: string)
    requires p.state == StatusCode && (forall i | 0 <= i < |s| :: IsDigit(s[i])) && Decimal(p.resp.code, s) <= 999
    ensures Eats(p, s, p.(resp := p.resp.(code := Decimal(p.resp.code, s))))
    decreases |s|
  {
    if s != "" {
      var next := 10 * p.resp.code + DigitOf(s[0]);
      DecimalGrows(next, s[1..]);
      assert Wrap32(next) == next;
      var q := p.(resp := p.resp.(code := next));
      CodeDigits(q, s[1..]);
      assert Step(p, s[0]) == (q, Incomplete);
      hide Step, Run;
      EatsFirst(p, q, s, p.(resp := p.resp.(code := Decimal(p.resp.code, s))));
    }
  }

  lemma {:induction false} ReasonChars(p: Parser, s: string)
    requires p.state == StatusText && forall i | 0 <= i < |s| :: IsChar(s[i]) && s[i] != '\r'
    ensures Eats(p, s, p.(resp := p.resp.(status := p.resp.status + s)))
    decreases |s|
  {
    if s == "" {
      assert p.resp.status + s == p.resp.status;
    } else {
      var q := p.(resp := p.resp.(status := p.resp.status + [s[0]]));
      ReasonChars(q, s[1..]);
      assert Step(p, s[0]) == (q, Incomplete);
      assert q.resp.status + s[1..] == p.resp.status + s;
      hide Step, Run;
      EatsFirst(p, q, s, p.(resp := p.resp.(status := p.resp.status + s)));
    }
  }

  lemma EatsProtocol()
    ensures Eats(START, "HTTP/", START.(state := MajorStart))
  {
    var p1, p2, p3, p4 := START.(state := VersionHt), START.(state := VersionHtt), START.(state := VersionHttp),
        START.(state := VersionSlash);
    var p5 := START.(state := MajorStart);
    assert Step(START, 'H') == (p1, Incomplete) && Step(p1, 'T') == (p2, Incomplete)
        && Step(p2, 'T') == (p3, Incomplete);
    assert Step(p3, 'P') == (p4, Incomplete) && Step(p4, '/') == (p5, Incomplete);
    hide Step, Run;
    var s := "HTTP/";
    assert s[1..][1..] == s[2..] && s[2..][1..] == s[3..] && s[3..][1..] == s[4..] && s[4..] == "/";
    EatsChar(p4, '/', p5);
    EatsFirst(p3, p4, s[3..], p5);
    EatsFirst(p2, p3, s[2..], p5);
    EatsFirst(p1, p2, s[1..], p5);
    EatsFirst(START, p1, s, p5);
  }

  lemma EatsMajor(p: Parser, s: string)
    requires p.state == MajorStart && AllDigits(s)
    ensures Eats(p, s, p.(state := Major, resp := p.resp.(major := Decimal(0, s))))
  {
    var q := p.(state := Major, resp := p.resp.(major := DigitOf(s[0])));
    assert Step(p, s[0]) == (q, Incomplete);
    MajorDigits(q, s[1..]);
    hide Step, Run;
    EatsFirst(p, q, s, p.(state := Major, resp := p.resp.(major := Decimal(0, s))));
  }

  lemma EatsMinor(p: Parser, s: string)
    requires p.state == MinorStart && AllDigits(s)
    ensures Eats(p, s, p.(state := Minor, resp := p.resp.(minor := Decimal(0, s))))
  {
    var q := p.(state := Minor, resp := p.resp.(minor := DigitOf(s[0])));
    assert Step(p, s[0]) == (q, Incomplete);
    MinorDigits(q, s[1..]);
    hide Step, Run;
    EatsFirst(p, q, s, p.(state := Minor, resp := p.resp.(minor := Decimal(0, s))));
  }

  lemma EatsCode(p: Parser, s: string)
    requires p.state == StatusCodeStart && AllDigits(s) && Decimal(0, s) <= 999
    ensures Eats(p, s, p.(state := StatusCode, resp := p.resp.(code := Decimal(0, s))))
  {
    var q := p.(state := StatusCode, resp := p.resp.(code := DigitOf(s[0])));
    assert Step(p, s[0]) == (q, Incomplete);
    CodeDigits(q, s[1..]);
    hide Step, Run;
    EatsFirst(p, q, s, p.(state := StatusCode, resp := p.resp.(code := Decimal(0, s))));
  }

  /** A first character, and then any but the one that ends the line. */
  predicate ReasonRead(s: string) {
    s != "" && Ascii(s) && forall i | 1 <= i < |s| :: s[i] != '\r'
  }

  /** A head whose reason is taken as it stands, and read. */
  predicate Plain(h: Head) {
    && AllDigits(h.major) && AllDigits(h.minor) && AllDigits(h.code) && 100 <= Decimal(0, h.code) <= 999
         && ReasonRead(h.reason)
    && forall i | 0 <= i < |h.fields| :: FieldShape(h.fields[i]) && FieldRead(h.fields[i])
  }

  lemma EatsReason(p: Parser, s: string)
    requires p.state == StatusTextStart && p.resp.status == "" && ReasonRead(s)
    ensures Eats(p, s + CRLF, p.(state := HeaderLineStart, resp := p.resp.(status := s)))
  {
    var q := p.(state := StatusText, resp := p.resp.(status := [s[0]]));
    var r := p.(state := StatusText, resp := p.resp.(status := s));
    FirstReasonChar(p, s[0]);
    ReasonChars(q, s[1..]);
    assert [s[0]] + s[1..] == s;
    hide *;
    EatsFirst(p, q, s, r);
    EatsReasonEnd(r);
    EatsThen(p, s, r, CRLF, r.(state := HeaderLineStart));
  }

  lemma FirstReasonChar(p: Parser, c: char)
    requires p.state == StatusTextStart && p.resp.status == "" && IsChar(c)
    ensures Step(p, c) == (p.(state := StatusText, resp := p.resp.(status := [c])), Incomplete)
  {
    assert p.resp.status + [c] == [c];
  }

  lemma EatsReasonEnd(r: Parser)
    requires r.state == StatusText
    ensures Eats(r, CRLF, r.(state := HeaderLineStart))
  {
    var t := r.(state := StatusNewLine);
    assert Step(r, '\r') == (t, Incomplete) && Step(t, '\n') == (r.(state := HeaderLineStart), Incomplete);
    hide Step;
    EatsBreak(r, t, r.(state := HeaderLineStart));
  }

  /** The parser after the status line. */
  function AfterStatusLine(h: Head): Parser {
    START.(state := HeaderLineStart,
           resp := Response(Decimal(0, h.major), Decimal(0, h.minor), Decimal(0, h.code), h.reason, [], "", false))
  }

  lemma EatsSeparator(p: Parser, c: char, next: State)
    requires (p.state == Major && c == '.' && next == MinorStart)
          || (p.state == Minor && c == ' ' && next == StatusCodeStart && p.resp.code == 0)
          || (p.state == StatusCode && c == ' ' && next == StatusTextStart && 100 <= p.resp.code <= 999)
    ensures Eats(p, [c], p.(state := next))
  {
    assert Step(p, c) == (p.(state := next), Incomplete);
    hide Step;
    EatsChar(p, c, p.(state := next));
  }

  lemma EatsVersion(h: Head, p1: Parser, p2: Parser, p3: Parser, p4: Parser)
    requires AllDigits(h.major) && AllDigits(h.minor) && p1 == START.(state := MajorStart)
    requires p2 == p1.(state := Major, resp := p1.resp.(major := Decimal(0, h.major))) && p3 == p2.(state := MinorStart)
    requires p4 == p3.(state := Minor, resp := p3.resp.(minor := Decimal(0, h.minor)))
    ensures Eats(START, "HTTP/" + h.major + "." + h.minor, p4)
  {
    hide *;
    EatsProtocol();
    EatsMajor(p1, h.major);
    EatsThen(START, "HTTP/", p1, h.major, p2);
    EatsSeparator(p2, '.', MinorStart);
    EatsThen(START, "HTTP/" + h.major, p2, ".", p3);
    EatsMinor(p3, h.minor);
    EatsThen(START, "HTTP/" + h.major + ".", p3, h.minor, p4);
  }

  lemma EatsCodeAndReason(h: Head, p4: Parser, p5: Parser, p6: Parser, p7: Parser, p8: Parser)
    requires AllDigits(h.code) && 100 <= Decimal(0, h.code) <= 999 && ReasonRead(h.reason)
    requires p4.state == Minor && p4.resp.code == 0 && p4.resp.status == "" && p5 == p4.(state := StatusCodeStart)
    requires p6 == p5.(state := StatusCode, resp := p5.resp.(code := Decimal(0, h.code)))
          && p7 == p6.(state := StatusTextStart)
    requires p8 == p7.(state := HeaderLineStart, resp := p7.resp.(status := h.reason))
    ensures Eats(p4, " " + h.code + " " + (h.reason + CRLF), p8)
  {
    hide *;
    EatsSeparator(p4, ' ', StatusCodeStart);
    EatsCode(p5, h.code);
    EatsThen(p4, " ", p5, h.code, p6);
    EatsSeparator(p6, ' ', StatusTextStart);
    EatsThen(p4, " " + h.code, p6, " ", p7);
    EatsReason(p7, h.reason);
    EatsThen(p4, " " + h.code + " ", p7, h.reason + CRLF, p8);
  }

  lemma EatsStatusLine(h: Head)
    requires Plain(h)
    ensures Eats(START, StatusLine(h), AfterStatusLine(h))
  {
    hide Step, Run, Decimal, IsDigit, IsChar, Eats;
    var p1 := START.(state := MajorStart);
    var p2 := p1.(state := Major, resp := p1.resp.(major := Decimal(0, h.major)));
    var p3 := p2.(state := MinorStart);
    var p4 := p3.(state := Minor, resp := p3.resp.(minor := Decimal(0, h.minor)));
    var p5 := p4.(state := StatusCodeStart);
    var p6 := p5.(state := StatusCode, resp := p5.resp.(code := Decimal(0, h.code)));
    EatsVersion(h, p1, p2, p3, p4);
    EatsCodeAndReason(h, p4, p5, p6, p6.(state := StatusTextStart), AfterStatusLine(h));
    var front, back := "HTTP/" + h.major + "." + h.minor, " " + h.code + " " + (h.reason + CRLF);
    EatsThen(START, front, p4, back, AfterStatusLine(h));
    assert front + back == StatusLine(h);
  }

  // ---------------------------------------------------------------------------
  // The header fields
  // ---------------------------------------------------------------------------

  /** p in the given state, with h as the last header. */
  function WithHeader(p: Parser, h: Header, s: State): Parser {
    p.(state := s, resp := p.resp.(headers := p.resp.headers + [h]))
  }

  lemma PushNameIs(resp: Response, h: Header, c: char)
    ensures PushName(resp.(headers := resp.headers + [h]), c) ==
          resp.(headers := resp.headers + [h.(name := h.name + [c])])
    ensures PushValue(resp.(headers := resp.headers + [h]), c) ==
          resp.(headers := resp.headers + [h.(value := h.value + [c])])
  {
    assert (resp.headers + [h])[|resp.headers| := h.(name := h.name + [c])] == resp.headers
        + [h.(name := h.name + [c])];
    assert (resp.headers + [h])[|resp.headers| := h.(value := h.value + [c])] == resp.headers
        + [h.(value := h.value + [c])];
  }

  lemma {:induction false} NameChars(p: Parser, h: Header, s: string)
    requires forall i | 0 <= i < |s| :: IsToken(s[i])
    ensures Eats(WithHeader(p, h, HeaderName), s, WithHeader(p, h.(name := h.name + s), HeaderName))
    decreases |s|
  {
    if s == "" {
      assert h.name + s == h.name;
    } else {
      var h' := h.(name := h.name + [s[0]]);
      PushNameIs(p.resp, h, s[0]);
      NameChars(p, h', s[1..]);
      assert h'.name + s[1..] == h.name + s;
      hide PushName, Run;
      assert Step(WithHeader(p, h, HeaderName), s[0]) == (WithHeader(p, h', HeaderName), Incomplete);
      hide Step;
      EatsFirst(WithHeader(p, h, HeaderName), WithHeader(p, h', HeaderName), s,
          WithHeader(p, h.(name := h.name + s), HeaderName));
    }
  }

  lemma {:induction false} ValueChars(p: Parser, h: Header, s: string)
    requires forall i | 0 <= i < |s| :: !IsControl(s[i])
    ensures Eats(WithHeader(p, h, HeaderValue), s, WithHeader(p, h.(value := h.value + s), HeaderValue))
    decreases |s|
  {
    if s == "" {
      assert h.value + s == h.value;
    } else {
      var h' := h.(value := h.value + [s[0]]);
      PushNameIs(p.resp, h, s[0]);
      ValueChars(p, h', s[1..]);
      assert h'.value + s[1..] == h.value + s;
      hide PushValue, Run;
      assert Step(WithHeader(p, h, HeaderValue), s[0]) == (WithHeader(p, h', HeaderValue), Incomplete);
      hide Step;
      EatsFirst(WithHeader(p, h, HeaderValue), WithHeader(p, h', HeaderValue), s,
          WithHeader(p, h.(value := h.value + s), HeaderValue));
    }
  }

  lemma EatsName(p: Parser, s: string)
    requires p.state == HeaderLineStart && Token(s)
    ensures Eats(p, s + ":", WithHeader(p, Header(s, ""), SpaceBeforeHeaderValue))
  {
    var q := WithHeader(p, Header([s[0]], ""), HeaderName);
    assert Step(p, s[0]) == (q, Incomplete);
    NameChars(p, Header([s[0]], ""), s[1..]);
    assert [s[0]] + s[1..] == s;
    var r := WithHeader(p, Header(s, ""), HeaderName);
    hide *;
    EatsFirst(p, q, s, r);
    EatsColon(p, s);
    EatsThen(p, s, r, ":", WithHeader(p, Header(s, ""), SpaceBeforeHeaderValue));
  }

  lemma EatsColon(p: Parser, s: string)
    ensures Eats(WithHeader(p, Header(s, ""), HeaderName), ":", WithHeader(p, Header(s, ""), SpaceBeforeHeaderValue))
  {
    var r, t := WithHeader(p, Header(s, ""), HeaderName), WithHeader(p, Header(s, ""), SpaceBeforeHeaderValue);
    assert Step(r, ':') == (t, Incomplete);
    hide Step, Run, WithHeader;
    EatsChar(r, ':', t);
  }

  /** A complete line with this header is noted. */
  lemma EatsValueEnd(p: Parser, h: Header)
    ensures Eats(WithHeader(p, h, HeaderValue), CRLF, WithHeader(NoteHeader(p, h), h, HeaderLineStart))
  {
    hide NoteHeader;
    var q := WithHeader(p, h, HeaderValue);
    NoteWith(p, h, HeaderValue);
    var r := WithHeader(NoteHeader(p, h), h, ExpectingNewline2);
    var t := WithHeader(NoteHeader(p, h), h, HeaderLineStart);
    assert q.resp.headers[|q.resp.headers| - 1] == h;
    assert Step(q, '\r') == (r, Incomplete) && Step(r, '\n') == (t, Incomplete);
    hide Step;
    EatsBreak(q, r, t);
  }

  lemma NoteWith(p: Parser, h: Header, s: State)
    ensures NoteHeader(WithHeader(p, h, s), h) == WithHeader(NoteHeader(p, h), h, s)
  {
    hide SameNoCase, Atoi;
  }

  /** What is behind the colon of a first line. */
  lemma EatsFirstValue(p: Parser, name: string, first: string)
    requires first != "" && first[0] == ' ' && NoControl(first[1..])
    ensures Eats(WithHeader(p, Header(name, ""), SpaceBeforeHeaderValue), first,
          WithHeader(p, Header(name, first[1..]), HeaderValue))
  {
    var q, r := WithHeader(p, Header(name, ""), SpaceBeforeHeaderValue), WithHeader(p, Header(name, ""), HeaderValue);
    assert Step(q, ' ') == (r, Incomplete);
    ValueChars(p, Header(name, ""), first[1..]);
    assert "" + first[1..] == first[1..];
    hide Step, Run, WithHeader;
    EatsFirst(q, r, first, WithHeader(p, Header(name, first[1..]), HeaderValue));
  }

  /** The parser, with header h last, behind a folded line whose text is put to h. */
  function AfterBlanks(p: Parser, h: Header, s: string): Parser {
    WithHeader(p, h.(value := h.value + Stripped(s)), if Stripped(s) == "" then HeaderLws else HeaderValue)
  }

  lemma {:induction false} EatsBlanks(p: Parser, h: Header, s: string)
    requires NoControl(Stripped(s))
    ensures Eats(WithHeader(p, h, HeaderLws), s, AfterBlanks(p, h, s))
    decreases |s|
  {
    var q := WithHeader(p, h, HeaderLws);
    if s == "" {
      assert h.value + "" == h.value;
      EatsNothing(q);
    } else if IsBlank(s[0]) {
      EatsBlanks(p, h, s[1..]);
      assert Step(q, s[0]) == (q, Incomplete);
      hide Step, WithHeader;
      EatsFirst(q, q, s, AfterBlanks(p, h, s));
    } else {
      var h' := h.(value := h.value + [s[0]]);
      var r := WithHeader(p, h', HeaderValue);
      PushNameIs(p.resp, h, s[0]);
      assert !IsControl(s[0]) && Step(q, s[0]) == (r, Incomplete);
      ValueChars(p, h', s[1..]);
      assert h'.value + s[1..] == h.value + s;
      hide Step, WithHeader;
      EatsFirst(q, r, s, AfterBlanks(p, h, s));
    }
  }

  /** What the parser has noted behind folded lines. */
  function Noted(p: Parser, h: Header, folds: seq<string>): Parser
    decreases |folds|
  {
    if folds == [] then p
    else
      var h' := h.(value := h.value + Stripped(folds[0]));
      Noted(if Stripped(folds[0]) == "" then p else NoteHeader(p, h'), h', folds[1..])
  }

  /** A line of blanks only is not noted. */
  lemma EatsBlankEnd(p: Parser, h: Header)
    ensures Eats(WithHeader(p, h, HeaderLws), CRLF, WithHeader(p, h, HeaderLineStart))
  {
    var q, r, t := WithHeader(p, h, HeaderLws), WithHeader(p, h, ExpectingNewline2), WithHeader(p, h, HeaderLineStart);
    assert Step(q, '\r') == (r, Incomplete) && Step(r, '\n') == (t, Incomplete);
    hide Step, WithHeader;
    EatsBreak(q, r, t);
  }

  lemma EatsFold(p: Parser, h: Header, s: string)
    requires s != "" && IsBlank(s[0]) && NoControl(Stripped(s))
    ensures var h' := h.(value := h.value + Stripped(s));
      Eats(WithHeader(p, h, HeaderLineStart), s + CRLF,
           WithHeader(if Stripped(s) == "" then p else NoteHeader(p, h'), h', HeaderLineStart))
  {
    var h' := h.(value := h.value + Stripped(s));
    var q, r := WithHeader(p, h, HeaderLineStart), WithHeader(p, h, HeaderLws);
    assert Step(q, s[0]) == (r, Incomplete);
    assert Stripped(s) == Stripped(s[1..]);
    assert h.value + "" == h.value;
    EatsBlanks(p, h, s[1..]);
    hide Step, WithHeader, NoteHeader, Stripped;
    EatsFirst(q, r, s, AfterBlanks(p, h, s[1..]));
    if Stripped(s) == "" {
      EatsBlankEnd(p, h');
    } else {
      EatsValueEnd(p, h');
    }
    EatsThen(q, s, AfterBlanks(p, h, s[1..]), CRLF,
        WithHeader(if Stripped(s) == "" then p else NoteHeader(p, h'), h', HeaderLineStart));
  }

  lemma {:induction false} EatsFolds(p: Parser, h: Header, folds: seq<string>)
    requires forall i | 0 <= i < |folds| :: FoldShape(folds[i]) && NoControl(Stripped(folds[i]))
    ensures Eats(WithHeader(p, h, HeaderLineStart), FoldTexts(folds),
                 WithHeader(Noted(p, h, folds), h.(value := Unfolded(h.value, folds)), HeaderLineStart))
    decreases |folds|
  {
    hide WithHeader, NoteHeader, Stripped, Eats;
    var q := WithHeader(p, h, HeaderLineStart);
    if folds == [] {
      EatsNothing(q);
    } else {
      var h' := h.(value := h.value + Stripped(folds[0]));
      var p' := if Stripped(folds[0]) == "" then p else NoteHeader(p, h');
      EatsFold(p, h, folds[0]);
      EatsFolds(p', h', folds[1..]);
      EatsThen(q, folds[0] + CRLF, WithHeader(p', h', HeaderLineStart), FoldTexts(folds[1..]),
               WithHeader(Noted(p, h, folds), h.(value := Unfolded(h.value, folds)), HeaderLineStart));
    }
  }

  /** The parser after one field. */
  function AfterField(p: Parser, f: Field): Parser {
    var h := Header(f.name, FirstValue(f));
    WithHeader(Noted(NoteHeader(p, h), h, f.folds), Seen(f), HeaderLineStart)
  }

  lemma EatsField(p: Parser, f: Field)
    requires p.state == HeaderLineStart && FieldShape(f) && FieldRead(f)
    ensures Eats(p, FieldText(f), AfterField(p, f))
  {
    var h := Header(f.name, FirstValue(f));
    var q, r := WithHeader(p, Header(f.name, ""), SpaceBeforeHeaderValue), WithHeader(p, h, HeaderValue);
    var t := WithHeader(NoteHeader(p, h), h, HeaderLineStart);
    hide Eats, WithHeader, NoteHeader, Unfolded, Noted, FoldTexts, NoControl, Printable, Token, Stripped;
    EatsName(p, f.name);
    EatsFirstValue(p, f.name, f.first);
    EatsThen(p, f.name + ":", q, f.first, r);
    EatsValueEnd(p, h);
    EatsThen(p, f.name + ":" + f.first, r, CRLF, t);
    EatsFolds(NoteHeader(p, h), h, f.folds);
    EatsThen(p, f.name + ":" + f.first + CRLF, t, FoldTexts(f.folds), AfterField(p, f));
  }

  /** What one noted header changes. */
  lemma NoteKeeps(p: Parser, h: Header)
    ensures var q := NoteHeader(p, h);
      q == p.(chunked := p.chunked || (IsTransfer(h.name) && SameNoCase(h.value, "chunked")),
              contentSize := if IsLength(h.name) then Wrap(Atoi(h.value)) else p.contentSize)
  {
    if IsLength(h.name) {
      TransferIsNotLength(h.name);
    }
    hide SameNoCase, Atoi;
  }

  /** Two names cannot both be the same name but for case. */
  lemma TransferIsNotLength(name: string)
    ensures !(IsTransfer(name) && IsLength(name))
  {
    assert |Lower(name)| == |name| && |Lower("Transfer-Encoding")| == 17 && |Lower("Content-Length")| == 14;
  }

  /** What the lines of one field change. */
  lemma {:induction false} NotedKeeps(p: Parser, h: Header, folds: seq<string>)
    ensures var q := Noted(NoteHeader(p, h), h, folds);
      q == p.(chunked := p.chunked || (IsTransfer(h.name) && EverChunked(h.value, folds)),
              contentSize := if IsLength(h.name) then Wrap(Atoi(Unfolded(h.value, folds))) else p.contentSize)
    decreases |folds|
  {
    hide NoteHeader, IsTransfer, IsLength, SameNoCase, Atoi, Stripped, Wrap;
    NoteKeeps(p, h);
    if folds != [] {
      var h' := h.(value := h.value + Stripped(folds[0]));
      if Stripped(folds[0]) == "" {
        assert h.value + "" == h.value;
        NotedKeeps(p, h, folds[1..]);
      } else {
        NotedKeeps(NoteHeader(p, h), h', folds[1..]);
      }
    }
  }

  function AfterFields(p: Parser, fs: seq<Field>): Parser
    decreases |fs|
  {
    if fs == [] then p else AfterFields(AfterField(p, fs[0]), fs[1..])
  }

  lemma AfterFieldIs(p: Parser, f: Field)
    ensures var q := AfterField(p, f);
      q == p.(state := HeaderLineStart, resp := p.resp.(headers := p.resp.headers + [Seen(f)]), chunked := p.chunked
          || TurnsOn(f),
              contentSize := if IsLength(f.name) then Wrap(Atoi(Seen(f).value)) else p.contentSize)
  {
    NotedKeeps(p, Header(f.name, FirstValue(f)), f.folds);
    hide NoteHeader, IsTransfer, IsLength, Atoi, Wrap, Noted, Unfolded, EverChunked;
  }

  /** Header fields, folded or not, are read into names and values; chunks are turned on exactly by a Transfer-Encoding
      field that says so at the end of one of its lines. */
  lemma {:induction false} HeadersRead(p: Parser, fs: seq<Field>)
    requires p.state == HeaderLineStart && forall i | 0 <= i < |fs| :: FieldShape(fs[i]) && FieldRead(fs[i])
    ensures var q := AfterFields(p, fs);
      && Eats(p, FieldTexts(fs), q)
      && q == p.(resp := p.resp.(headers := p.resp.headers + SeenAll(fs)), contentSize := LengthOf(fs, p.contentSize),
                 chunked := p.chunked || exists i :: 0 <= i < |fs| && TurnsOn(fs[i]))
    decreases |fs|
  {
    hide Eats, FieldShape, FieldRead, FieldText, AfterField, TurnsOn, IsLength, Atoi, Wrap, Seen;
    if fs == [] {
      EatsNothing(p);
      assert p.resp.headers + [] == p.resp.headers;
    } else {
      var q := AfterField(p, fs[0]);
      EatsField(p, fs[0]);
      AfterFieldIs(p, fs[0]);
      HeadersRead(q, fs[1..]);
      EatsThen(p, FieldText(fs[0]), q, FieldTexts(fs[1..]), AfterFields(p, fs));
      assert q.resp.headers + SeenAll(fs[1..]) == p.resp.headers + SeenAll(fs);
      SomeTurnsOn(fs);
    }
  }

  lemma SomeTurnsOn(fs: seq<Field>)
    requires fs != []
    ensures (exists i :: 0 <= i < |fs| && TurnsOn(fs[i])) <==>
          TurnsOn(fs[0]) || exists i :: 0 <= i < |fs[1..]| && TurnsOn(fs[1..][i])
  {
    hide TurnsOn;
    if i :| 0 <= i < |fs| && TurnsOn(fs[i]) {
      assert i > 0 ==> fs[1..][i - 1] == fs[i];
    }
    if i :| 0 <= i < |fs[1..]| && TurnsOn(fs[1..][i]) {
      assert fs[1..][i] == fs[i + 1];
    }
  }

  // ---------------------------------------------------------------------------
  // The head
  // ---------------------------------------------------------------------------

  /** The parser in front of the empty line that ends a head. */
  function AtEmptyLine(h: Head): Parser {
    var g := Divided(h);
    AfterStatusLine(g).(resp := AfterStatusLine(g).resp.(headers := SeenAll(g.fields)), contentSize :=
        LengthOf(g.fields, 0),
                        chunked := SaysChunked(h))
  }

  /** A head that is read is plain once it is divided as the parser does. */
  lemma DividedPlain(h: Head)
    requires HeadShape(h) && HeadRead(h)
    ensures Plain(Divided(h)) && HeadText(Divided(h)) == HeadText(h)
  {
    DividedText(h);
    hide HeadText, FieldRead, Decimal, IsDigit, IsToken, FoldShape;
    if h.reason == "" {
      var f := h.fields[0];
      TokenPrintable(f.name);
      assert FieldShape(f);
      assert forall i | 2 <= i < |Divided(h).reason| ::
          Divided(h).reason[i] in f.name || Divided(h).reason[i] == ':' || Divided(h).reason[i] in f.first;
    }
  }

  lemma TokenPrintable(s: string)
    requires Token(s)
    ensures Printable(s)
  {
  }

  /** All of a head but the empty line. */
  function HeadLines(h: Head): string {
    StatusLine(Divided(h)) + FieldTexts(Divided(h).fields)
  }

  lemma EatsHeadLines(h: Head)
    requires HeadShape(h) && HeadRead(h)
    ensures Eats(START, HeadLines(h), AtEmptyLine(h)) && HeadText(h) == HeadLines(h) + CRLF
  {
    DividedPlain(h);
    var g := Divided(h);
    EatsStatusLine(g);
    HeadersRead(AfterStatusLine(g), g.fields);
    assert [] + SeenAll(g.fields) == SeenAll(g.fields);
    hide Divided, HeadRead, HeadShape, FieldShape, FieldRead, Eats, FieldTexts, StatusLine, SeenAll, TurnsOn, LengthOf,
        Decimal;
    EatsThen(START, StatusLine(g), AfterStatusLine(g), FieldTexts(g.fields), AtEmptyLine(h));
  }

  /** The parser at the first chunk of a chunked response, or at the bytes of one of known size. */
  function BehindHead(h: Head, s: State): Parser {
    Parser(s, LengthOf(Divided(h).fields, 0), "", 0, SaysChunked(h), Found(h))
  }

  lemma EmptyLineSteps(h: Head)
    ensures var p := AtEmptyLine(h);
      var q := p.(state := ExpectingNewline3);
      && Step(p, '\r') == (q, Incomplete)
      && Step(q, '\n') == if p.chunked then (BehindHead(h, ChunkSize), Incomplete)
                          else if p.contentSize == 0 then (BehindHead(h, ExpectingNewline3), Completed)
                          else (BehindHead(h, Post), Incomplete)
  {
    hide LengthOf, SaysChunked, SeenAll, KeepAlive, Decimal, Divided;
  }

  lemma EatsHead(h: Head)
    requires HeadShape(h) && HeadRead(h)
    ensures SaysChunked(h) ==> Eats(START, HeadText(h), BehindHead(h, ChunkSize))
    ensures !SaysChunked(h) && LengthOf(Divided(h).fields, 0) != 0 ==> Eats(START, HeadText(h), BehindHead(h, Post))
  {
    hide HeadShape, HeadRead, HeadText, HeadLines, Eats, Step, BehindHead, LengthOf, SaysChunked, SeenAll, Decimal,
        Divided;
    EatsHeadLines(h);
    EmptyLineSteps(h);
    var p := AtEmptyLine(h);
    var q := p.(state := ExpectingNewline3);
    if SaysChunked(h) || LengthOf(Divided(h).fields, 0) != 0 {
      var r := Step(q, '\n').0;
      EatsBreak(p, q, r);
      EatsThen(START, HeadLines(h), p, CRLF, r);
    }
  }

  /** A head that announces no content ends the response. */
  lemma HeadIsAll(h: Head, rest: string)
    requires HeadShape(h) && HeadRead(h) && !SaysChunked(h) && LengthOf(Divided(h).fields, 0) == 0
    ensures Run(START, HeadText(h) + rest) == (BehindHead(h, ExpectingNewline3), Completed)
  {
    hide HeadShape, HeadRead, HeadText, HeadLines, Eats, Step, BehindHead, LengthOf, SaysChunked, SeenAll, Decimal,
        Divided;
    EatsHeadLines(h);
    EmptyLineSteps(h);
    var p := AtEmptyLine(h);
    var q := p.(state := ExpectingNewline3);
    EatsChar(p, '\r', q);
    EatsThen(START, HeadLines(h), p, "\r", q);
    RunsThrough(START, HeadLines(h) + "\r", q, "\n" + rest);
    assert HeadText(h) + rest == (HeadLines(h) + "\r") + ("\n" + rest);
    assert ("\n" + rest)[0] == '\n';
  }

  lemma RunsThrough(p: Parser, a: string, q: Parser, b: string)
    requires Eats(p, a, q)
    ensures Run(p, a + b) == Run(q, b)
  {
    RunOn(p, a, b);
    hide Run;
  }

  // ---------------------------------------------------------------------------
  // The chunks
  // ---------------------------------------------------------------------------

  lemma {:induction false} SizeDigits(p: Parser, s: string)
    requires p.state == ChunkSize && forall i | 0 <= i < |s| :: HexDigit(s[i]).Some?
    ensures Eats(p, s, p.(chunkSizeStr := p.chunkSizeStr + s))
    decreases |s|
  {
    if s == "" {
      assert p.chunkSizeStr + s == p.chunkSizeStr;
      EatsNothing(p);
    } else {
      var q := p.(chunkSizeStr := p.chunkSizeStr + [s[0]]);
      assert IsAlnum(s[0]) && Step(p, s[0]) == (q, Incomplete);
      SizeDigits(q, s[1..]);
      assert q.chunkSizeStr + s[1..] == p.chunkSizeStr + s;
      hide *;
      EatsFirst(p, q, s, p.(chunkSizeStr := p.chunkSizeStr + s));
    }
  }

  lemma {:induction false} EatsWords(p: Parser, s: string)
    requires p.state == ChunkExtensionName || p.state == ChunkExtensionValue || p.state == ChunkTrailerValue
    requires Words(s)
    ensures Eats(p, s, p)
    decreases |s|
  {
    if s == "" {
      EatsNothing(p);
    } else {
      assert Step(p, s[0]) == (p, Incomplete);
      EatsWords(p, s[1..]);
      hide *;
      EatsFirst(p, p, s, p);
    }
  }

  /** The state behind a size and its extensions. */
  function BehindSize(es: seq<Extension>): State {
    if es == [] then ChunkSize else if es[0].value.None? then ChunkExtensionName else ChunkExtensionValue
  }

  lemma EatsMark(p: Parser, c: char, next: State)
    requires (p.state == ChunkSize && c == ';' && next == ChunkExtensionName)
          || (p.state == ChunkExtensionName && c == '=' && next == ChunkExtensionValue)
          || (p.state == ChunkTrailerName && c == ':' && next == ChunkTrailerValue)
    ensures Eats(p, [c], p.(state := next))
  {
    assert Step(p, c) == (p.(state := next), Incomplete);
    hide Step;
    EatsChar(p, c, p.(state := next));
  }

  lemma EatsExtension(p: Parser, es: seq<Extension>)
    requires p.state == ChunkSize && ExtensionsRead(es)
    ensures Eats(p, ExtensionTexts(es), p.(state := BehindSize(es)))
  {
    hide Run, Step, Eats, Words;
    if es == [] {
      EatsNothing(p);
    } else {
      var q, r := p.(state := ChunkExtensionName), p.(state := ChunkExtensionValue);
      assert es[1..] == [] && ExtensionTexts(es) == ExtensionText(es[0]);
      EatsMark(p, ';', ChunkExtensionName);
      EatsWords(q, es[0].name);
      EatsThen(p, ";", q, es[0].name, q);
      if es[0].value.None? {
        assert ";" + es[0].name + "" == ";" + es[0].name;
      } else {
        var v := es[0].value.value;
        EatsMark(q, '=', ChunkExtensionValue);
        EatsThen(p, ";" + es[0].name, q, "=", r);
        EatsWords(r, v);
        EatsThen(p, ";" + es[0].name + "=", r, v, r);
        assert ";" + es[0].name + ("=" + v) == ";" + es[0].name + "=" + v;
      }
    }
  }

  /** The parser at the bytes of a chunk of this size, or behind the line of the last chunk. */
  function AtData(p: Parser, size: nat): Parser {
    p.(state := if size == 0 then ChunkSizeNewLine2 else ChunkData, chunkSize := size, chunkSizeStr := "")
  }

  lemma EatsSizeEnd(p: Parser)
    requires p.state == ChunkSize || p.state == ChunkExtensionName || p.state == ChunkExtensionValue
          || p.state == ChunkTrailerValue
    ensures Eats(p, CRLF, AtData(p, Strtol(p.chunkSizeStr)))
  {
    hide Strtol;
    var q := p.(state := ChunkSizeNewLine);
    var r := AtData(p, Strtol(p.chunkSizeStr));
    assert Step(p, '\r') == (q, Incomplete) && Step(q, '\n') == (r, Incomplete);
    hide Step, AtData;
    EatsBreak(p, q, r);
  }

  lemma StrtolOfHex(s: string)
    requires (forall i | 0 <= i < |s| :: HexDigit(s[i]).Some?) && Hex(0, s) <= LONG_MAX
    ensures Strtol(s) == Hex(0, s)
  {
    assert |s| > 2 ==> HexDigit(s[1]).Some?;
    hide Hex;
  }

  lemma EatsSizeLine(p: Parser, l: SizeLine, size: nat)
    requires p.state == ChunkSize && p.chunkSizeStr == "" && SizeLineShape(l, size) && ExtensionsRead(l.extensions)
    ensures Eats(p, SizeLineText(l), AtData(p, size))
  {
    EatsSize(p, l, size);
    hide Run, Step, Eats, Strtol, Hex, HexDigit, ExtensionsRead, ExtensionTexts, BehindSize;
    var q := p.(chunkSizeStr := l.size);
    var r := q.(state := BehindSize(l.extensions));
    EatsExtension(q, l.extensions);
    EatsThen(p, l.size, q, ExtensionTexts(l.extensions), r);
    BehindSizeIs(l.extensions);
    EatsSizeEnd(r);
    EatsThen(p, l.size + ExtensionTexts(l.extensions), r, CRLF, AtData(p, size));
  }

  lemma EatsSize(p: Parser, l: SizeLine, size: nat)
    requires p.state == ChunkSize && p.chunkSizeStr == "" && SizeLineShape(l, size)
    ensures Eats(p, l.size, p.(chunkSizeStr := l.size)) && Strtol(l.size) == size
  {
    HexExactly(l.size, size);
    StrtolOfHex(l.size);
    SizeDigits(p, l.size);
    hide Run, Step, Eats, Strtol, Hex, HexDigit, ExtensionShape;
    assert "" + l.size == l.size;
  }

  lemma BehindSizeIs(es: seq<Extension>)
    ensures BehindSize(es) == ChunkSize || BehindSize(es) == ChunkExtensionName || BehindSize(es) == ChunkExtensionValue
  {
  }

  /** The parser behind the bytes s of a chunk. */
  function BehindData(p: Parser, s: string): Parser {
    p.(state := ChunkDataNewLine1, chunkSize := 0, resp := p.resp.(content := p.resp.content + s))
  }

  lemma DataChar(p: Parser, c: char)
    requires p.state == ChunkData && 0 < p.chunkSize <= LONG_MAX
    ensures var content := p.resp.content + [c];
      Step(p, c) == (p.(state := if p.chunkSize == 1
          then ChunkDataNewLine1 else ChunkData, chunkSize := p.chunkSize - 1,
                        resp := p.resp.(content := content)), Incomplete)
  {
    assert Wrap(p.chunkSize - 1) == p.chunkSize - 1;
  }

  lemma {:induction false} EatsData(p: Parser, s: string)
    requires p.state == ChunkData && s != "" && p.chunkSize == |s| <= LONG_MAX
    ensures Eats(p, s, BehindData(p, s))
    decreases |s|
  {
    DataChar(p, s[0]);
    var q := Step(p, s[0]).0;
    assert q.resp.content + s[1..] == p.resp.content + s;
    hide Step;
    if |s| == 1 {
      EatsNothing(q);
      assert s[1..] == "" && q.resp.content + "" == q.resp.content;
    } else {
      EatsData(q, s[1..]);
    }
    hide Eats;
    EatsFirst(p, q, s, BehindData(p, s));
  }

  lemma EatsDataEnd(p: Parser)
    requires p.state == ChunkDataNewLine1
    ensures Eats(p, CRLF, p.(state := ChunkSize))
  {
    var q := p.(state := ChunkDataNewLine2);
    assert Step(p, '\r') == (q, Incomplete) && Step(q, '\n') == (p.(state := ChunkSize), Incomplete);
    hide Step;
    EatsBreak(p, q, p.(state := ChunkSize));
  }

  /** The parser after chunks with these bytes. */
  function AfterChunks(p: Parser, data: string): Parser {
    p.(chunkSize := 0, resp := p.resp.(content := p.resp.content + data))
  }

  lemma EatsChunk(p: Parser, c: Chunk)
    requires p.state == ChunkSize && p.chunkSizeStr == "" && ChunkShape(c) && ExtensionsRead(c.line.extensions)
    ensures Eats(p, ChunkText(c), AfterChunks(p, c.data))
  {
    hide Run, Step, Eats, Hex, HexDigit, ExtensionShape, ExtensionsRead, SizeLineText;
    var q := AtData(p, |c.data|);
    var r := BehindData(q, c.data);
    EatsSizeLine(p, c.line, |c.data|);
    EatsData(q, c.data);
    EatsThen(p, SizeLineText(c.line), q, c.data, r);
    EatsDataEnd(r);
    EatsThen(p, SizeLineText(c.line) + c.data, r, CRLF, AfterChunks(p, c.data));
  }

  lemma {:induction false} EatsChunks(p: Parser, cs: seq<Chunk>)
    requires p.state == ChunkSize && p.chunkSizeStr == "" && p.chunkSize == 0
    requires forall i | 0 <= i < |cs| :: ChunkShape(cs[i]) && ExtensionsRead(cs[i].line.extensions)
    ensures Eats(p, ChunkTexts(cs), AfterChunks(p, Data(cs)))
    decreases |cs|
  {
    hide Eats, ChunkShape, ChunkText, ExtensionsRead;
    if cs == [] {
      EatsNothing(p);
      assert p.resp.content + "" == p.resp.content;
    } else {
      var q := AfterChunks(p, cs[0].data);
      EatsChunk(p, cs[0]);
      EatsChunks(q, cs[1..]);
      assert p.resp.content + Data(cs) == p.resp.content + cs[0].data + Data(cs[1..]);
      EatsThen(p, ChunkText(cs[0]), q, ChunkTexts(cs[1..]), AfterChunks(p, Data(cs)));
    }
  }

  // ---------------------------------------------------------------------------
  // The trailers
  // ---------------------------------------------------------------------------

  lemma {:induction false} TrailerNameChars(p: Parser, s: string)
    requires p.state == ChunkTrailerName && AllAlnum(s)
    ensures Eats(p, s, p)
    decreases |s|
  {
    if s == "" {
      EatsNothing(p);
    } else {
      assert Step(p, s[0]) == (p, Incomplete);
      TrailerNameChars(p, s[1..]);
      hide *;
      EatsFirst(p, p, s, p);
    }
  }

  lemma EatsTrailerName(p: Parser, s: string)
    requires p.state == ChunkSizeNewLine2 && s != "" && IsAlpha(s[0]) && AllAlnum(s)
    ensures Eats(p, s + ":", p.(state := ChunkTrailerValue))
  {
    var q := p.(state := ChunkTrailerName);
    assert Step(p, s[0]) == (q, Incomplete);
    TrailerNameChars(q, s[1..]);
    hide Run, Step, Eats, AllAlnum, IsAlpha;
    EatsFirst(p, q, s, q);
    EatsMark(q, ':', ChunkTrailerValue);
    EatsThen(p, s, q, ":", p.(state := ChunkTrailerValue));
  }

  /** The first line of a trailer ends as if a size of nothing had been read. */
  lemma EatsTrailerLine(p: Parser, f: Field)
    requires p.state == ChunkSizeNewLine2 && p.chunkSizeStr == "" && p.chunkSize == 0
    requires f.name != "" && IsAlpha(f.name[0]) && AllAlnum(f.name) && Words(f.first)
    ensures Eats(p, f.name + ":" + f.first + CRLF, p)
  {
    var r := p.(state := ChunkTrailerValue);
    assert Strtol("") == 0 && AtData(r, 0) == p;
    hide Run, Step, Eats, Strtol, Words, AllAlnum, IsAlpha, AtData;
    EatsTrailerName(p, f.name);
    EatsWords(r, f.first);
    EatsThen(p, f.name + ":", r, f.first, r);
    EatsSizeEnd(r);
    EatsThen(p, f.name + ":" + f.first, r, CRLF, p);
  }

  lemma {:induction false} EatsTrailers(p: Parser, fs: seq<Field>)
    requires p.state == ChunkSizeNewLine2 && p.chunkSizeStr == "" && p.chunkSize == 0 && forall i | 0 <= i < |fs| ::
          TrailerRead(fs[i])
    ensures Eats(p, FieldTexts(fs), p)
    decreases |fs|
  {
    hide Eats, Words, AllAlnum, IsAlpha;
    if fs == [] {
      EatsNothing(p);
    } else {
      EatsTrailerLine(p, fs[0]);
      var line := fs[0].name + ":" + fs[0].first + CRLF;
      assert FieldText(fs[0]) == line + "" == line;
      EatsTrailers(p, fs[1..]);
      EatsThen(p, FieldText(fs[0]), p, FieldTexts(fs[1..]), p);
    }
  }

  // ---------------------------------------------------------------------------
  // The whole response
  // ---------------------------------------------------------------------------

  /** All of a chunked response but the last line break. */
  function Front(m: Message): string {
    HeadText(m.head) + ChunkTexts(m.chunks) + SizeLineText(m.last) + FieldTexts(m.trailers)
  }

  /** The parser behind that. */
  function AtEnd(m: Message): Parser {
    AtData(AfterChunks(BehindHead(m.head, ChunkSize), Data(m.chunks)), 0)
  }

  /** The head and the body of a response are read in full. */
  predicate ReadThrough(m: Message) {
    HeadShape(m.head) && BodyShape(m) && HeadRead(m.head) && SaysChunked(m.head) && BodyRead(m)
  }

  lemma EatsFront(m: Message)
    requires ReadThrough(m)
    ensures Eats(START, Front(m), AtEnd(m)) && AtEnd(m).state == ChunkSizeNewLine2
    ensures AtEnd(m).resp == Found(m.head).(content := Data(m.chunks))
  {
    EatsHead(m.head);
    var p := BehindHead(m.head, ChunkSize);
    assert p.resp.content + Data(m.chunks) == Data(m.chunks);
    var q := AfterChunks(p, Data(m.chunks));
    hide Eats, HeadText, Found, SaysChunked, SizeLineShape, SizeLineText, ChunkShape, ChunkTexts, FieldShape,
        FieldTexts, TrailerRead,
         Data, HeadShape, HeadRead, ExtensionsRead, Divided, LengthOf;
    EatsChunks(p, m.chunks);
    EatsThen(START, HeadText(m.head), p, ChunkTexts(m.chunks), q);
    EatsSizeLine(q, m.last, 0);
    EatsThen(START, HeadText(m.head) + ChunkTexts(m.chunks), q, SizeLineText(m.last), AtEnd(m));
    EatsTrailers(AtEnd(m), m.trailers);
    EatsThen(START, HeadText(m.head) + ChunkTexts(m.chunks) + SizeLineText(m.last), AtEnd(m), FieldTexts(m.trailers),
        AtEnd(m));
  }

  /** The last line break, and whatever may follow. */
  lemma EndOfBody(p: Parser, rest: string)
    requires p.state == ChunkSizeNewLine2
    ensures Run(p, CRLF + rest) == (p.(state := ChunkSizeNewLine3), Completed)
    ensures Run(p, "\r") == (p.(state := ChunkSizeNewLine3), Incomplete)
  {
    var q := p.(state := ChunkSizeNewLine3);
    var s := CRLF + rest;
    assert Step(p, '\r') == (q, Incomplete) && Step(q, '\n') == (q, Completed);
    hide Step;
    assert s[0] == '\r' && s[1..][0] == '\n';
    EatsChar(p, '\r', q);
  }

  /** A chunked response of which all is read is complete, in whatever pieces it comes and whatever follows it; the
      content is that of its chunks, one after the other, and status and headers are those of its head. */
  lemma ChunkedResponseRead(m: Message, pieces: seq<string>, rest: string)
    requires ReadThrough(m) && Join(pieces) == Text(m) + rest
    ensures var r := Feed(START, pieces);
      r.1 == Completed && r.0.resp == Found(m.head).(content := Data(m.chunks))
  {
    hide *;
    FeedIsRun(START, pieces);
    EatsFront(m);
    EndOfBody(AtEnd(m), rest);
    TextIs(m, rest);
    RunsThrough(START, Front(m), AtEnd(m), CRLF + rest);
  }

  lemma TextIs(m: Message, rest: string)
    ensures Text(m) + rest == Front(m) + (CRLF + rest)
  {
    hide HeadText, ChunkTexts, SizeLineText, FieldTexts;
    var a, b, c, d := HeadText(m.head), ChunkTexts(m.chunks), SizeLineText(m.last), FieldTexts(m.trailers);
    assert a + (b + c + d + CRLF) + rest == a + b + c + d + (CRLF + rest);
  }

  /** No part of it short of the whole is taken for complete or wrong. */
  lemma PartIncomplete(m: Message, s: string)
    requires ReadThrough(m) && |s| < |Text(m)| && s == Text(m)[..|s|]
    ensures Run(START, s).1 == Incomplete
  {
    hide *;
    var t := Front(m) + "\r";
    EatsFront(m);
    EndOfBody(AtEnd(m), "");
    RunsThrough(START, Front(m), AtEnd(m), "\r");
    TextIs(m, "");
    AllButLast(Text(m), Front(m), s);
    RunOn(START, s, t[|s|..]);
  }

  lemma AllButLast(text: string, front: string, s: string)
    requires text + "" == front + (CRLF + "") && |s| < |text| && s == text[..|s|]
    ensures |s| <= |front + "\r"| && front + "\r" == s + (front + "\r")[|s|..]
  {
    assert text + "" == text && CRLF + "" == "\r" + "\n";
    assert front + ("\r" + "\n") == (front + "\r") + "\n";
    PrefixKept(front + "\r", "\n", |s|);
  }

  // ---------------------------------------------------------------------------
  // Responses of a given length
  // ---------------------------------------------------------------------------

  lemma {:induction false} PostRun(p: Parser, s: string, rest: string)
    requires p.state == Post && s != "" && p.contentSize == |s| < WORD_SIZE
    ensures Run(p, s + rest) == (p.(contentSize := 0, resp := p.resp.(content := p.resp.content + s)), Completed)
    decreases |s|
  {
    var q := p.(contentSize := p.contentSize - 1, resp := p.resp.(content := p.resp.content + [s[0]]));
    assert Wrap(p.contentSize - 1) == p.contentSize - 1;
    assert Step(p, s[0]) == (q, if |s| == 1 then Completed else Incomplete);
    assert q.resp.content + s[1..] == p.resp.content + s;
    assert (s + rest)[1..] == s[1..] + rest;
    assert |s| == 1 ==> [s[0]] == s;
    hide Step, Wrap;
    if |s| > 1 {
      PostRun(q, s[1..], rest);
    }
  }

  /** Every Content-Length is one that atoi gives as an int and that a content can have. */
  predicate LengthsFit(fs: seq<Field>) {
    forall i | 0 <= i < |fs| && IsLength(fs[i].name) :: 0 <= Atoi(Seen(fs[i]).value) < 0x8000_0000
  }

  lemma {:induction false} LengthFits(fs: seq<Field>, n: nat)
    requires LengthsFit(fs) && n < 0x8000_0000
    ensures LengthOf(fs, n) < 0x8000_0000
    decreases |fs|
  {
    if fs != [] {
      hide IsLength, Atoi, Seen;
      var n' := if IsLength(fs[0].name) then Wrap(Atoi(Seen(fs[0]).value)) else n;
      LengthFits(fs[1..], n');
    }
  }

  /** A response whose last Content-Length field gives the length of its content is read to its end. */
  lemma SizedResponseRead(h: Head, data: string, pieces: seq<string>, rest: string)
    requires HeadShape(h) && HeadRead(h) && !SaysChunked(h) && LengthsFit(Divided(h).fields)
    requires LengthOf(Divided(h).fields, 0) == |data| && Join(pieces) == HeadText(h) + data + rest
    ensures var r := Feed(START, pieces);
      r.1 == Completed && r.0.resp == Found(h).(content := data)
  {
    hide *;
    FeedIsRun(START, pieces);
    FoundIs(h);
    SizeFits(h);
    assert HeadText(h) + data + rest == HeadText(h) + (data + rest);
    if data == "" {
      HeadIsAll(h, data + rest);
    } else {
      EatsHead(h);
      PostRun(BehindHead(h, Post), data, rest);
      RunsThrough(START, HeadText(h), BehindHead(h, Post), data + rest);
      assert "" + data == data;
    }
  }

  lemma SizeFits(h: Head)
    requires LengthsFit(Divided(h).fields)
    ensures LengthOf(Divided(h).fields, 0) < WORD_SIZE
  {
    LengthFits(Divided(h).fields, 0);
  }

  lemma FoundIs(h: Head)
    ensures Found(h).content == "" && Found(h) == Found(h).(content := "")
    ensures BehindHead(h, Post).state == Post && BehindHead(h, Post).contentSize == LengthOf(Divided(h).fields, 0)
    ensures BehindHead(h, Post).resp == Found(h) && BehindHead(h, ExpectingNewline3).resp == Found(h)
  {
    hide LengthOf, Divided, KeepAlive, SaysChunked;
  }
}
