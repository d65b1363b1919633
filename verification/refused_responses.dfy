/**
  Which chunked responses the parser reads. RFC 7230 allows more than it does: every response in its form that is not
  read
  in full is refused, but for those whose Transfer-Encoding goes unnoticed, which are taken to have no content.
 */
module RefusedResponses {
  import opened Basics
  import opened Bytes
  import opened HttpResponse
  import opened ResponseText
  import opened ChunkedResponses

  // ---------------------------------------------------------------------------
  // Running into an error
  // ---------------------------------------------------------------------------

  /** From p the parser finds an error somewhere in s. */
  ghost predicate Fails(p: Parser, s: string) {
    Run(p, s).1 == Error
  }

  lemma FailsAt(p: Parser, s: string)
    requires s != "" && Step(p, s[0]).1 == Error
    ensures Fails(p, s)
  {
    hide Step;
  }

  lemma FailsLater(p: Parser, q: Parser, s: string)
    requires s != "" && Step(p, s[0]) == (q, Incomplete) && Fails(q, s[1..])
    ensures Fails(p, s)
  {
    hide Step;
  }

  lemma FailsBefore(p: Parser, a: string, b: string)
    requires Fails(p, a)
    ensures Fails(p, a + b)
  {
    RunOn(p, a, b);
    hide Run;
  }

  lemma FailsBehind(p: Parser, a: string, q: Parser, b: string)
    requires Eats(p, a, q) && Fails(q, b)
    ensures Fails(p, a + b)
  {
    RunOn(p, a, b);
    hide Run;
  }

  // ---------------------------------------------------------------------------
  // The head
  // ---------------------------------------------------------------------------

  lemma CodeFails(p: Parser)
    requires p.state == StatusCode && p.resp.code < 100
    ensures Fails(p, " ")
  {
    assert Step(p, ' ').1 == Error;
    hide Step;
    FailsAt(p, " ");
  }

  lemma {:induction false} ReasonFails(p: Parser, s: string)
    requires p.state == StatusText && !Ascii(s) && forall i | 0 <= i < |s| :: s[i] != '\r'
    ensures Fails(p, s)
    decreases |s|
  {
    if IsChar(s[0]) {
      var q := p.(resp := p.resp.(status := p.resp.status + [s[0]]));
      assert Step(p, s[0]) == (q, Incomplete);
      ReasonFails(q, s[1..]);
      hide *;
      FailsLater(p, q, s);
    } else {
      assert Step(p, s[0]).1 == Error;
      hide Step;
      FailsAt(p, s);
    }
  }

  lemma FirstReasonFails(p: Parser, s: string)
    requires p.state == StatusTextStart && !Ascii(s) && forall i | 1 <= i < |s| :: s[i] != '\r'
    ensures Fails(p, s)
  {
    if IsChar(s[0]) {
      var q := p.(state := StatusText, resp := p.resp.(status := p.resp.status + [s[0]]));
      assert Step(p, s[0]) == (q, Incomplete);
      ReasonFails(q, s[1..]);
      hide *;
      FailsLater(p, q, s);
    } else {
      assert Step(p, s[0]).1 == Error;
      hide Step;
      FailsAt(p, s);
    }
  }

  /** The part of a status line in front of the code. */
  function VersionText(h: Head): string {
    "HTTP/" + h.major + "." + h.minor
  }

  /** The parser at the code, and at the reason. */
  function AtCode(h: Head): Parser {
    START.(state := Minor, resp := EMPTY.(major := Decimal(0, h.major), minor := Decimal(0, h.minor)))
  }

  function AtReason(h: Head): Parser {
    START.(state := StatusTextStart, resp := EMPTY.(major := Decimal(0, h.major), minor := Decimal(0, h.minor), code :=
        Decimal(0, h.code)))
  }

  lemma EatsVersionText(h: Head)
    requires AllDigits(h.major) && AllDigits(h.minor)
    ensures Eats(START, VersionText(h), AtCode(h))
  {
    var p1 := START.(state := MajorStart);
    var p2 := p1.(state := Major, resp := p1.resp.(major := Decimal(0, h.major)));
    hide Eats, Decimal, AllDigits;
    EatsVersion(h, p1, p2, p2.(state := MinorStart), AtCode(h));
  }

  /** The code is read up to the space behind it, or the line fails there. */
  lemma CodeReadOrFails(h: Head)
    requires AllDigits(h.code) && Decimal(0, h.code) <= 999
    ensures Decimal(0, h.code) < 100 ==> Fails(AtCode(h), " " + h.code + " ")
    ensures Decimal(0, h.code) >= 100 ==> Eats(AtCode(h), " " + h.code + " ", AtReason(h))
  {
    hide Eats, Fails, Decimal, AllDigits, Step;
    var p := AtCode(h);
    var q := p.(state := StatusCodeStart);
    var r := q.(state := StatusCode, resp := q.resp.(code := Decimal(0, h.code)));
    EatsSeparator(p, ' ', StatusCodeStart);
    EatsCode(q, h.code);
    EatsThen(p, " ", q, h.code, r);
    if Decimal(0, h.code) < 100 {
      CodeFails(r);
      FailsBehind(p, " " + h.code, r, " ");
    } else {
      EatsSeparator(r, ' ', StatusTextStart);
      EatsThen(p, " " + h.code, r, " ", AtReason(h));
    }
  }

  lemma {:induction false} ValueFails(p: Parser, h: Header, s: string)
    requires !NoControl(s) && forall i | 0 <= i < |s| :: s[i] != '\r'
    ensures Fails(WithHeader(p, h, HeaderValue), s)
    decreases |s|
  {
    var q := WithHeader(p, h, HeaderValue);
    if IsControl(s[0]) {
      assert Step(q, s[0]).1 == Error;
      hide Step, WithHeader;
      FailsAt(q, s);
    } else {
      var h' := h.(value := h.value + [s[0]]);
      PushNameIs(p.resp, h, s[0]);
      assert Step(q, s[0]) == (WithHeader(p, h', HeaderValue), Incomplete);
      ValueFails(p, h', s[1..]);
      hide *;
      FailsLater(q, WithHeader(p, h', HeaderValue), s);
    }
  }

  lemma {:induction false} BlanksFail(p: Parser, h: Header, s: string)
    requires !NoControl(Stripped(s)) && forall i | 0 <= i < |s| :: s[i] != '\r'
    ensures Fails(WithHeader(p, h, HeaderLws), s)
    decreases |s|
  {
    var q := WithHeader(p, h, HeaderLws);
    if IsBlank(s[0]) {
      assert Step(q, s[0]) == (q, Incomplete);
      BlanksFail(p, h, s[1..]);
      hide Step, WithHeader, NoControl;
      FailsLater(q, q, s);
    } else if IsControl(s[0]) {
      assert Step(q, s[0]).1 == Error;
      hide Step, WithHeader;
      FailsAt(q, s);
    } else {
      var h' := h.(value := h.value + [s[0]]);
      PushNameIs(p.resp, h, s[0]);
      assert Step(q, s[0]) == (WithHeader(p, h', HeaderValue), Incomplete);
      ValueFails(p, h', s[1..]);
      hide *;
      FailsLater(q, WithHeader(p, h', HeaderValue), s);
    }
  }

  /** Printable text has no line break in it. */
  lemma NoBreak(s: string)
    ensures Printable(s) ==> forall i | 0 <= i < |s| :: s[i] != '\r'
  {
  }

  lemma FoldFails(p: Parser, h: Header, s: string)
    requires FoldShape(s) && !NoControl(Stripped(s))
    ensures Fails(WithHeader(p, h, HeaderLineStart), s)
  {
    var q, r := WithHeader(p, h, HeaderLineStart), WithHeader(p, h, HeaderLws);
    assert Step(q, s[0]) == (r, Incomplete);
    NoBreak(s);
    assert Stripped(s) == Stripped(s[1..]);
    hide Step, WithHeader, NoControl, Printable, Stripped;
    BlanksFail(p, h, s[1..]);
    FailsLater(q, r, s);
  }

  lemma {:induction false} FoldsFail(p: Parser, h: Header, folds: seq<string>)
    requires (forall i | 0 <= i < |folds| :: FoldShape(folds[i])) && exists i ::
          0 <= i < |folds| && !NoControl(Stripped(folds[i]))
    ensures Fails(WithHeader(p, h, HeaderLineStart), FoldTexts(folds))
    decreases |folds|
  {
    hide WithHeader, NoteHeader, Stripped, Fails, Eats, NoControl, Printable;
    var q := WithHeader(p, h, HeaderLineStart);
    if NoControl(Stripped(folds[0])) {
      var h' := h.(value := h.value + Stripped(folds[0]));
      var p' := if Stripped(folds[0]) == "" then p else NoteHeader(p, h');
      var i :| 0 <= i < |folds| && !NoControl(Stripped(folds[i]));
      assert folds[1..][i - 1] == folds[i];
      EatsFold(p, h, folds[0]);
      FoldsFail(p', h', folds[1..]);
      FailsBehind(q, folds[0] + CRLF, WithHeader(p', h', HeaderLineStart), FoldTexts(folds[1..]));
    } else {
      FoldFails(p, h, folds[0]);
      FailsBefore(q, folds[0], CRLF);
      FailsBefore(q, folds[0] + CRLF, FoldTexts(folds[1..]));
    }
  }

  lemma FirstLineFails(p: Parser, name: string, first: string)
    requires Printable(first) && !(first != "" && first[0] == ' ' && NoControl(first[1..]))
    ensures Fails(WithHeader(p, Header(name, ""), SpaceBeforeHeaderValue), first + CRLF)
  {
    var q, r := WithHeader(p, Header(name, ""), SpaceBeforeHeaderValue), WithHeader(p, Header(name, ""), HeaderValue);
    assert Step(q, ' ') == (r, Incomplete);
    assert forall c :: c != ' ' ==> Step(q, c).1 == Error;
    NoBreak(first);
    hide Step, Run, WithHeader, Fails, Printable, NoControl;
    if first == "" {
      assert (first + CRLF)[0] == '\r';
      FailsAt(q, first + CRLF);
    } else {
      if first[0] == ' ' {
        ValueFails(p, Header(name, ""), first[1..]);
        FailsLater(q, r, first);
      } else {
        FailsAt(q, first);
      }
      FailsBefore(q, first, CRLF);
    }
  }

  lemma FieldFails(p: Parser, f: Field)
    requires p.state == HeaderLineStart && FieldShape(f) && !FieldRead(f)
    ensures Fails(p, FieldText(f))
  {
    var h := Header(f.name, FirstValue(f));
    var q, r := WithHeader(p, Header(f.name, ""), SpaceBeforeHeaderValue), WithHeader(p, h, HeaderValue);
    var t := WithHeader(NoteHeader(p, h), h, HeaderLineStart);
    hide Eats, Fails, WithHeader, NoteHeader, FoldTexts, NoControl, Printable, Token, Stripped;
    EatsName(p, f.name);
    if f.first != "" && f.first[0] == ' ' && NoControl(f.first[1..]) {
      EatsFirstValue(p, f.name, f.first);
      EatsThen(p, f.name + ":", q, f.first, r);
      EatsValueEnd(p, h);
      EatsThen(p, f.name + ":" + f.first, r, CRLF, t);
      FoldsFail(NoteHeader(p, h), h, f.folds);
      FailsBehind(p, f.name + ":" + f.first + CRLF, t, FoldTexts(f.folds));
    } else {
      FirstLineFails(p, f.name, f.first);
      FailsBehind(p, f.name + ":", q, f.first + CRLF);
      FailsBefore(p, f.name + ":" + (f.first + CRLF), FoldTexts(f.folds));
      assert FieldText(f) == f.name + ":" + (f.first + CRLF) + FoldTexts(f.folds);
    }
  }

  lemma {:induction false} FieldsFail(p: Parser, fs: seq<Field>)
    requires p.state == HeaderLineStart && forall i | 0 <= i < |fs| :: FieldShape(fs[i])
    requires exists i :: 0 <= i < |fs| && !FieldRead(fs[i])
    ensures Fails(p, FieldTexts(fs))
    decreases |fs|
  {
    hide Eats, Fails, FieldShape, FieldRead, FieldText, AfterField;
    if FieldRead(fs[0]) {
      var i :| 0 <= i < |fs| && !FieldRead(fs[i]);
      assert fs[1..][i - 1] == fs[i];
      EatsField(p, fs[0]);
      AfterFieldIs(p, fs[0]);
      FieldsFail(AfterField(p, fs[0]), fs[1..]);
      FailsBehind(p, FieldText(fs[0]), AfterField(p, fs[0]), FieldTexts(fs[1..]));
    } else {
      FieldFails(p, fs[0]);
      FailsBefore(p, FieldText(fs[0]), FieldTexts(fs[1..]));
    }
  }

  /** No header line has been found yet, so a line that begins with a blank is wrong. */
  lemma BlankLineFails(p: Parser, s: string)
    requires p.state == HeaderLineStart && p.resp.headers == [] && s != "" && IsBlank(s[0])
    ensures Fails(p, s)
  {
    assert Step(p, s[0]).1 == Error;
    hide Step;
    FailsAt(p, s);
  }

  /** All that is behind the reason as the parser takes it: folded lines of the first field, and the other fields. */
  function BehindReason(h: Head): string {
    (if h.reason == "" && h.fields != [] then FoldTexts(h.fields[0].folds) else "") + FieldTexts(Divided(h).fields)
        + CRLF
  }

  lemma HeadTextParts(h: Head)
    ensures HeadText(h) == VersionText(h) + (" " + h.code + " ") + Divided(h).reason + CRLF + BehindReason(h)
  {
    hide FieldTexts, FoldTexts;
    StatusLineParts(h);
    if h.reason == "" && h.fields != [] {
      var f := h.fields[0];
      var a := VersionText(h) + (" " + h.code + " ");
      hide StatusLine, VersionText;
      FieldTextsFirst(h.fields);
      assert a + "" + CRLF == a + CRLF && CRLF + f.name + ":" + f.first == CRLF + (f.name + ":" + f.first);
      Regroup(a, CRLF, f.name + ":" + f.first, FoldTexts(f.folds), FieldTexts(h.fields[1..]));
    } else {
      hide StatusLine, VersionText;
      assert "" + FieldTexts(h.fields) == FieldTexts(h.fields);
      Group(StatusLine(h), FieldTexts(h.fields), CRLF);
    }
  }

  lemma StatusLineParts(h: Head)
    ensures StatusLine(h) == VersionText(h) + (" " + h.code + " ") + h.reason + CRLF
  {
    var a := VersionText(h);
    assert a + " " + h.code + " " == a + (" " + h.code + " ");
  }

  lemma Regroup(a: string, n: string, b: string, c: string, d: string)
    ensures a + n + (b + n + c + d) + n == a + (n + b) + n + (c + d + n)
  {
    assert a + n + (b + n + c + d) == a + (n + b) + n + (c + d);
  }

  lemma Group(a: string, b: string, c: string)
    ensures a + b + c == a + (b + c)
  {
  }

  /** A head that is not read is refused. */
  lemma HeadFails(h: Head)
    requires HeadShape(h) && !HeadRead(h)
    ensures Fails(START, HeadText(h))
  {
    hide *;
    var reason := Divided(h).reason;
    var start, code := VersionText(h), " " + h.code + " ";
    HeadTextParts(h);
    HeadShapeParts(h);
    EatsVersionText(h);
    CodeReadOrFails(h);
    if Decimal(0, h.code) < 100 {
      FailsBehind(START, start, AtCode(h), code);
      FailsBefore(START, start + code, reason);
      FailsBefore(START, start + code + reason, CRLF);
      FailsBefore(START, start + code + reason + CRLF, BehindReason(h));
    } else {
      EatsThen(START, start, AtCode(h), code, AtReason(h));
      BehindCodeFails(h);
      FailsBehind(START, start + code, AtReason(h), reason + CRLF + BehindReason(h));
      Group(start + code, reason, CRLF);
      Group(start + code, reason + CRLF, BehindReason(h));
    }
  }

  lemma HeadShapeParts(h: Head)
    requires HeadShape(h)
    ensures AllDigits(h.major) && AllDigits(h.minor) && AllDigits(h.code) && Decimal(0, h.code) <= 999
  {
  }

  /** The reason as the parser takes it: a line break at most in front. */
  lemma ReasonLine(h: Head)
    requires HeadShape(h)
    ensures var s := Divided(h).reason; s != "" && forall i | 1 <= i < |s| :: s[i] != '\r'
    ensures forall i | 0 <= i < |Divided(h).fields| :: FieldShape(Divided(h).fields[i])
  {
    hide IsToken, FoldShape;
    if h.reason == "" {
      var f := h.fields[0];
      assert FieldShape(f);
      TokenPrintable(f.name);
      NoBreak(f.name);
      NoBreak(f.first);
    } else {
      NoBreak(h.reason);
    }
  }

  lemma BehindCodeFails(h: Head)
    requires HeadShape(h) && !HeadRead(h) && 100 <= Decimal(0, h.code)
    ensures Fails(AtReason(h), Divided(h).reason + CRLF + BehindReason(h))
  {
    var g := Divided(h);
    var p, q := AtReason(h), AfterStatusLine(g);
    ReasonLine(h);
    if !Ascii(g.reason) {
      hide *;
      FirstReasonFails(p, g.reason);
      FailsBefore(p, g.reason, CRLF);
      FailsBefore(p, g.reason + CRLF, BehindReason(h));
    } else {
      assert q == p.(state := HeaderLineStart, resp := p.resp.(status := g.reason));
      FieldsOrFoldFail(h);
      hide *;
      EatsReason(p, g.reason);
      FailsBehind(p, g.reason + CRLF, q, BehindReason(h));
    }
  }

  lemma FieldsOrFoldFail(h: Head)
    requires HeadShape(h) && !HeadRead(h) && 100 <= Decimal(0, h.code) && Ascii(Divided(h).reason)
    ensures Fails(AfterStatusLine(Divided(h)), BehindReason(h))
  {
    var g := Divided(h);
    var q := AfterStatusLine(g);
    ReasonLine(h);
    if h.reason == "" && h.fields[0].folds != [] {
      var folds := h.fields[0].folds;
      assert FieldShape(h.fields[0]) && FoldShape(folds[0]);
      assert FoldTexts(folds)[0] == folds[0][0];
      assert BehindReason(h) == FoldTexts(folds) + FieldTexts(g.fields) + CRLF;
      hide *;
      BlankLineFails(q, FoldTexts(folds));
      FailsBefore(q, FoldTexts(folds), FieldTexts(g.fields));
      FailsBefore(q, FoldTexts(folds) + FieldTexts(g.fields), CRLF);
    } else {
      assert BehindReason(h) == "" + FieldTexts(g.fields) + CRLF == FieldTexts(g.fields) + CRLF;
      assert exists i :: 0 <= i < |g.fields| && !FieldRead(g.fields[i]);
      assert q.state == HeaderLineStart;
      hide *;
      FieldsFail(q, g.fields);
      FailsBefore(q, FieldTexts(g.fields), CRLF);
    }
  }

  // ---------------------------------------------------------------------------
  // The body
  // ---------------------------------------------------------------------------

  lemma {:induction false} WordsFail(p: Parser, s: string)
    requires p.state == ChunkExtensionName || p.state == ChunkExtensionValue || p.state == ChunkTrailerValue
    requires !Words(s) && forall i | 0 <= i < |s| :: s[i] != '\r' && (p.state == ChunkExtensionName ==> s[i] != '=')
    ensures Fails(p, s)
    decreases |s|
  {
    if IsAlnum(s[0]) || s[0] == ' ' {
      assert Step(p, s[0]) == (p, Incomplete);
      WordsFail(p, s[1..]);
      hide *;
      FailsLater(p, p, s);
    } else {
      assert Step(p, s[0]).1 == Error;
      hide Step;
      FailsAt(p, s);
    }
  }

  lemma ExtensionFails(p: Parser, e: Extension)
    requires p.state == ChunkSize && ExtensionShape(e) && !(Words(e.name) && (e.value.Some? ==> Words(e.value.value)))
    ensures Fails(p, ExtensionText(e))
  {
    var q, r := p.(state := ChunkExtensionName), p.(state := ChunkExtensionValue);
    var back := if e.value.None? then "" else "=" + e.value.value;
    hide Run, Step, Eats, Fails, Words, Printable;
    EatsMark(p, ';', ChunkExtensionName);
    if !Words(e.name) {
      WordsFail(q, e.name);
      FailsBehind(p, ";", q, e.name);
      FailsBefore(p, ";" + e.name, back);
    } else {
      EatsWords(q, e.name);
      EatsThen(p, ";", q, e.name, q);
      EatsMark(q, '=', ChunkExtensionValue);
      NoBreak(e.value.value);
      WordsFail(r, e.value.value);
      FailsBehind(q, "=", r, e.value.value);
      FailsBehind(p, ";" + e.name, q, back);
    }
  }

  lemma ExtensionsFail(p: Parser, es: seq<Extension>)
    requires p.state == ChunkSize && (forall i | 0 <= i < |es| :: ExtensionShape(es[i])) && !ExtensionsRead(es)
    ensures Fails(p, ExtensionTexts(es))
  {
    hide Fails, Eats, ExtensionShape, ExtensionText, Words;
    if Words(es[0].name) && (es[0].value.Some? ==> Words(es[0].value.value)) {
      var q := p.(state := BehindSize(es[..1]));
      EatsExtension(p, es[..1]);
      assert ExtensionTexts(es[..1]) == ExtensionText(es[0]);
      SecondFails(q, es[1..]);
      FailsBehind(p, ExtensionText(es[0]), q, ExtensionTexts(es[1..]));
    } else {
      ExtensionFails(p, es[0]);
      FailsBefore(p, ExtensionText(es[0]), ExtensionTexts(es[1..]));
    }
  }

  lemma SecondFails(p: Parser, es: seq<Extension>)
    requires (p.state == ChunkExtensionName || p.state == ChunkExtensionValue) && es != []
    ensures Fails(p, ExtensionTexts(es))
  {
    assert ExtensionText(es[0])[0] == ';' && ExtensionTexts(es)[0] == ';';
    assert Step(p, ';').1 == Error;
    hide Step;
    FailsAt(p, ExtensionTexts(es));
  }

  lemma SizeLineFails(p: Parser, l: SizeLine, size: nat)
    requires p.state == ChunkSize && p.chunkSizeStr == "" && SizeLineShape(l, size) && !ExtensionsRead(l.extensions)
    ensures Fails(p, SizeLineText(l))
  {
    var q := p.(chunkSizeStr := l.size);
    EatsSize(p, l, size);
    hide Fails, Eats, Hex, HexDigit, ExtensionShape, ExtensionsRead, ExtensionTexts, Strtol;
    ExtensionsFail(q, l.extensions);
    FailsBehind(p, l.size, q, ExtensionTexts(l.extensions));
    FailsBefore(p, l.size + ExtensionTexts(l.extensions), CRLF);
  }

  lemma {:induction false} ChunksFail(p: Parser, cs: seq<Chunk>)
    requires p.state == ChunkSize && p.chunkSizeStr == "" && p.chunkSize == 0 && forall i | 0 <= i < |cs| ::
          ChunkShape(cs[i])
    requires exists i :: 0 <= i < |cs| && !ExtensionsRead(cs[i].line.extensions)
    ensures Fails(p, ChunkTexts(cs))
    decreases |cs|
  {
    hide Fails, Eats, SizeLineShape, ExtensionsRead, SizeLineText;
    if ExtensionsRead(cs[0].line.extensions) {
      var i :| 0 <= i < |cs| && !ExtensionsRead(cs[i].line.extensions);
      assert cs[1..][i - 1] == cs[i];
      EatsChunk(p, cs[0]);
      ChunksFail(AfterChunks(p, cs[0].data), cs[1..]);
      FailsBehind(p, ChunkText(cs[0]), AfterChunks(p, cs[0].data), ChunkTexts(cs[1..]));
    } else {
      SizeLineFails(p, cs[0].line, |cs[0].data|);
      FailsBefore(p, SizeLineText(cs[0].line), cs[0].data);
      FailsBefore(p, SizeLineText(cs[0].line) + cs[0].data, CRLF);
      FailsBefore(p, ChunkText(cs[0]), ChunkTexts(cs[1..]));
    }
  }

  lemma {:induction false} TrailerNameFails(p: Parser, s: string)
    requires p.state == ChunkTrailerName && !AllAlnum(s) && forall i | 0 <= i < |s| :: IsToken(s[i])
    ensures Fails(p, s)
    decreases |s|
  {
    if IsAlnum(s[0]) {
      assert Step(p, s[0]) == (p, Incomplete);
      TrailerNameFails(p, s[1..]);
      hide *;
      FailsLater(p, p, s);
    } else {
      assert Step(p, s[0]).1 == Error;
      hide Step;
      FailsAt(p, s);
    }
  }

  lemma TrailerStartFails(p: Parser, name: string)
    requires p.state == ChunkSizeNewLine2 && Token(name) && !(IsAlpha(name[0]) && AllAlnum(name))
    ensures Fails(p, name)
  {
    TokenIsNoBreak(name[0]);
    hide IsToken, IsAlpha, IsAlnum;
    if IsAlpha(name[0]) {
      var q := p.(state := ChunkTrailerName);
      assert Step(p, name[0]) == (q, Incomplete);
      AlphaIsAlnum(name[0]);
      RestNotAlnum(name);
      TrailerNameFails(q, name[1..]);
      hide *;
      FailsLater(p, q, name);
    } else {
      assert Step(p, name[0]).1 == Error;
      hide Step;
      FailsAt(p, name);
    }
  }

  lemma RestNotAlnum(s: string)
    requires s != "" && IsAlnum(s[0]) && !AllAlnum(s)
    ensures !AllAlnum(s[1..])
  {
    hide IsAlnum;
    var i :| 0 <= i < |s| && !IsAlnum(s[i]);
    assert s[1..][i - 1] == s[i];
  }

  lemma TokenIsNoBreak(c: char)
    ensures IsToken(c) ==> c != '\r'
  {
  }

  lemma AlphaIsAlnum(c: char)
    ensures IsAlpha(c) ==> IsAlnum(c)
  {
  }

  lemma TrailerFails(p: Parser, f: Field)
    requires p.state == ChunkSizeNewLine2 && p.chunkSizeStr == "" && p.chunkSize == 0 && FieldShape(f)
          && !TrailerRead(f)
    ensures Fails(p, FieldText(f))
  {
    hide Run, Step, Fails, Eats, Words, Printable, AllAlnum, IsAlpha, IsToken;
    var line := f.name + ":" + f.first + CRLF;
    if !(IsAlpha(f.name[0]) && AllAlnum(f.name)) {
      TrailerStartFails(p, f.name);
      FailsBefore(p, f.name, ":");
      FailsBefore(p, f.name + ":", f.first);
      FailsBefore(p, f.name + ":" + f.first, CRLF);
      FailsBefore(p, line, FoldTexts(f.folds));
    } else if !Words(f.first) {
      var r := p.(state := ChunkTrailerValue);
      EatsTrailerName(p, f.name);
      NoBreak(f.first);
      WordsFail(r, f.first);
      FailsBehind(p, f.name + ":", r, f.first);
      FailsBefore(p, f.name + ":" + f.first, CRLF);
      FailsBefore(p, line, FoldTexts(f.folds));
    } else {
      EatsTrailerLine(p, f);
      TrailerFoldFails(p, f.folds);
      FailsBehind(p, line, p, FoldTexts(f.folds));
    }
  }

  lemma TrailerFoldFails(p: Parser, folds: seq<string>)
    requires p.state == ChunkSizeNewLine2 && folds != [] && FoldShape(folds[0])
    ensures Fails(p, FoldTexts(folds))
  {
    assert FoldTexts(folds)[0] == folds[0][0];
    assert Step(p, folds[0][0]).1 == Error;
    hide Step;
    FailsAt(p, FoldTexts(folds));
  }

  lemma {:induction false} TrailersFail(p: Parser, fs: seq<Field>)
    requires p.state == ChunkSizeNewLine2 && p.chunkSizeStr == "" && p.chunkSize == 0
    requires (forall i | 0 <= i < |fs| :: FieldShape(fs[i])) && exists i :: 0 <= i < |fs| && !TrailerRead(fs[i])
    ensures Fails(p, FieldTexts(fs))
    decreases |fs|
  {
    hide Fails, Eats, FieldShape, TrailerRead, FieldText;
    if TrailerRead(fs[0]) {
      var i :| 0 <= i < |fs| && !TrailerRead(fs[i]);
      assert fs[1..][i - 1] == fs[i];
      EatsTrailers(p, fs[..1]);
      OneField(fs);
      TrailersFail(p, fs[1..]);
      FailsBehind(p, FieldText(fs[0]), p, FieldTexts(fs[1..]));
    } else {
      TrailerFails(p, fs[0]);
      FailsBefore(p, FieldText(fs[0]), FieldTexts(fs[1..]));
    }
  }

  lemma OneField(fs: seq<Field>)
    requires fs != []
    ensures FieldTexts(fs[..1]) == FieldText(fs[0])
  {
    assert fs[..1][1..] == [] && FieldTexts([]) == "";
    hide FieldText;
  }

  /** A body that is not read is refused. */
  lemma BodyFails(m: Message, p: Parser)
    requires BodyShape(m) && !BodyRead(m) && p.state == ChunkSize && p.chunkSizeStr == "" && p.chunkSize == 0
    ensures Fails(p, BodyText(m))
  {
    hide Fails, Eats, ChunkShape, SizeLineShape, FieldShape, ExtensionsRead, TrailerRead, ChunkTexts, SizeLineText,
        FieldTexts, Data;
    var a, b, c := ChunkTexts(m.chunks), SizeLineText(m.last), FieldTexts(m.trailers);
    var q := AfterChunks(p, Data(m.chunks));
    if exists i :: 0 <= i < |m.chunks| && !ExtensionsRead(m.chunks[i].line.extensions) {
      ChunksFail(p, m.chunks);
      FailsBefore(p, a, b);
    } else {
      EatsChunks(p, m.chunks);
      if !ExtensionsRead(m.last.extensions) {
        SizeLineFails(q, m.last, 0);
        FailsBehind(p, a, q, b);
      } else {
        EatsSizeLine(q, m.last, 0);
        EatsThen(p, a, q, b, AtData(q, 0));
        TrailersFail(AtData(q, 0), m.trailers);
        FailsBehind(p, a + b, AtData(q, 0), c);
        FailsBefore(p, a + b + c, CRLF);
        return;
      }
    }
    FailsBefore(p, a + b, c);
    FailsBefore(p, a + b + c, CRLF);
  }

  // ---------------------------------------------------------------------------
  // What becomes of every chunked response
  // ---------------------------------------------------------------------------

  lemma {:induction false} NoLength(fs: seq<Field>)
    requires forall i | 0 <= i < |fs| :: !IsLength(fs[i].name)
    ensures LengthOf(fs, 0) == 0
    decreases |fs|
  {
    hide IsLength, Atoi, Wrap;
    if fs != [] {
      NoLength(fs[1..]);
    }
  }

  lemma NoLengthDivided(m: Message)
    requires MessageShape(m)
    ensures LengthOf(Divided(m.head).fields, 0) == 0
  {
    hide IsLength, IsTransfer, FieldShape, LengthOf;
    NoLength(Divided(m.head).fields);
  }

  lemma BehindHeadIs(h: Head)
    ensures var p := BehindHead(h, ChunkSize); p.state == ChunkSize && p.chunkSizeStr == "" && p.chunkSize == 0
  {
  }

  lemma Shapes(m: Message)
    requires MessageShape(m)
    ensures HeadShape(m.head) && BodyShape(m)
  {
  }

  /** What becomes of every response in the shape of a chunked one: it is refused for its head; or taken as complete
      without any content; or refused for its body; or read with all its chunks. */
  lemma ChunkedOutcome(m: Message, pieces: seq<string>, rest: string)
    requires MessageShape(m) && Join(pieces) == Text(m) + rest
    ensures var r := Feed(START, pieces);
      if !HeadRead(m.head) then r.1 == Error
      else if !SaysChunked(m.head) then r.1 == Completed && r.0.resp == Found(m.head) && r.0.resp.content == ""
      else if !BodyRead(m) then r.1 == Error
      else r.1 == Completed && r.0.resp == Found(m.head).(content := Data(m.chunks))
  {
    hide *;
    FeedIsRun(START, pieces);
    Shapes(m);
    TextParts(m, rest);
    if !HeadRead(m.head) {
      HeadFails(m.head);
      FailsBefore(START, HeadText(m.head), BodyText(m) + rest);
      FailsIs(START, HeadText(m.head) + (BodyText(m) + rest));
    } else if !SaysChunked(m.head) {
      NoLengthDivided(m);
      HeadIsAll(m.head, BodyText(m) + rest);
      FoundIs(m.head);
    } else if !BodyRead(m) {
      EatsHead(m.head);
      BehindHeadIs(m.head);
      BodyFails(m, BehindHead(m.head, ChunkSize));
      FailsBefore(BehindHead(m.head, ChunkSize), BodyText(m), rest);
      FailsBehind(START, HeadText(m.head), BehindHead(m.head, ChunkSize), BodyText(m) + rest);
      FailsIs(START, HeadText(m.head) + (BodyText(m) + rest));
    } else {
      AllRead(m);
      ChunkedResponseRead(m, pieces, rest);
    }
  }

  lemma AllRead(m: Message)
    requires HeadShape(m.head) && BodyShape(m) && HeadRead(m.head) && SaysChunked(m.head) && BodyRead(m)
    ensures ReadThrough(m)
  {
  }

  lemma FailsIs(p: Parser, s: string)
    ensures Fails(p, s) <==> Run(p, s).1 == Error
  {
  }

  lemma TextParts(m: Message, rest: string)
    ensures Text(m) + rest == HeadText(m.head) + (BodyText(m) + rest)
  {
    hide HeadText, BodyText;
  }

  /** A chunked response ends up complete with the bytes of its chunks if and only if it is readable. */
  lemma ReadExactly(m: Message, pieces: seq<string>, rest: string)
    requires MessageShape(m) && Join(pieces) == Text(m) + rest
    ensures var r := Feed(START, pieces);
      (r.1 == Completed && r.0.resp.content == Data(m.chunks)) <==> Readable(m)
  {
    ChunkedOutcome(m, pieces, rest);
    SomeData(m);
    hide Feed, START, HeadRead, SaysChunked, BodyRead, Found, Data, MessageShape, Text;
  }

  lemma SomeData(m: Message)
    requires MessageShape(m)
    ensures Data(m.chunks) == "" <==> m.chunks == []
  {
    hide HeadShape, SizeLineShape, FieldShape, IsTransfer, IsLength;
    assert m.chunks != [] ==> ChunkShape(m.chunks[0]);
  }

  // ---------------------------------------------------------------------------
  // Two responses in the form of the RFC
  // ---------------------------------------------------------------------------

  const SPACED: Field := Field("Transfer-Encoding", "  chunked", [])
  const PLAIN: Field := Field("Transfer-Encoding", " chunked", [])
  const HYPHENED: Field := Field("X-A", " b", [])

  /** A response of one chunk, with the given header field and trailers. */
  function OneChunk(f: Field, trailers: seq<Field>): Message {
    Message(Head("1", "1", "200", "OK", [f]), [Chunk(SizeLine("3", []), "abc")], SizeLine("0", []), trailers)
  }

  lemma OneChunkShape(f: Field, trailers: seq<Field>)
    requires FieldShape(f) && IsTransfer(f.name) && forall i | 0 <= i < |trailers| :: FieldShape(trailers[i])
    ensures MessageShape(OneChunk(f, trailers)) && Data(OneChunk(f, trailers).chunks) == "abc"
  {
    var m := OneChunk(f, trailers);
    TransferIsNotLength(f.name);
    assert m.head.fields[0] == f;
    assert Decimal(2, "00") == Decimal(20, "0") && Decimal(20, "0") == Decimal(200, "") by {
      assert "00"[1..] == "0" && "0"[1..] == "";
    }
    assert "200"[1..] == "00" && Decimal(0, "200") == 200;
    assert "3"[1..] == "" && Hex(0, "3") == 3 && "0"[1..] == "" && Hex(0, "0") == 0;
    assert Data(m.chunks[1..]) == "" && "abc" + "" == "abc";
    hide FieldShape, IsTransfer, IsLength;
  }

  /** Letters and hyphens make a name. */
  lemma NameShape(f: Field)
    requires f.name != "" && (forall i | 0 <= i < |f.name| :: IsAlpha(f.name[i]) || f.name[i] == '-')
    requires (forall i | 0 <= i < |f.first| :: IsAlpha(f.first[i]) || f.first[i] == ' ') && f.folds == []
    ensures FieldShape(f)
  {
    hide IsToken, IsControl, IsAlpha;
    forall i | 0 <= i < |f.name|
      ensures IsToken(f.name[i])
    {
      LetterShape(f.name[i]);
    }
    forall i | 0 <= i < |f.first|
      ensures !IsControl(f.first[i])
    {
      LetterShape(f.first[i]);
    }
  }

  lemma LetterShape(c: char)
    ensures IsAlpha(c) || c == '-' ==> IsToken(c)
    ensures IsAlpha(c) || c == ' ' ==> !IsControl(c)
  {
  }

  lemma FieldShapes()
    ensures FieldShape(SPACED) && FieldShape(PLAIN) && FieldShape(HYPHENED)
  {
    hide FieldShape;
    NameShape(SPACED);
    NameShape(PLAIN);
    NameShape(HYPHENED);
  }

  lemma HeadIsRead(f: Field)
    requires f.first != "" && f.first[0] == ' ' && NoControl(f.first[1..]) && f.folds == []
    ensures HeadRead(OneChunk(f, []).head) && Divided(OneChunk(f, []).head).fields == [f]
  {
    var h := OneChunk(f, []).head;
    assert "00"[1..] == "0" && "0"[1..] == "" && "200"[1..] == "00";
    assert Decimal(2, "00") == 200;
    assert FieldRead(f) && h.fields[0] == f;
  }

  /** Two spaces where one is expected: the response is taken as complete, and its chunk is lost. */
  lemma TwoSpacesLoseContent(pieces: seq<string>)
    requires Join(pieces) == Text(OneChunk(SPACED, []))
    ensures MessageShape(OneChunk(SPACED, [])) && Data(OneChunk(SPACED, []).chunks) == "abc"
    ensures Feed(START, pieces).1 == Completed && Feed(START, pieces).0.resp.content == ""
  {
    var m := OneChunk(SPACED, []);
    FieldShapes();
    OneChunkShape(SPACED, []);
    assert SPACED.first[1..] == " chunked";
    HeadIsRead(SPACED);
    assert |Lower(" chunked")| == 8 && |Lower("chunked")| == 7;
    assert !SaysChunked(m.head);
    assert Text(m) + "" == Text(m);
    hide *;
    ChunkedOutcome(m, pieces, "");
  }

  lemma PlainIsChunked()
    ensures HeadRead(OneChunk(PLAIN, [HYPHENED]).head) && SaysChunked(OneChunk(PLAIN, [HYPHENED]).head)
  {
    var h := OneChunk(PLAIN, []).head;
    assert PLAIN.first[1..] == "chunked";
    HeadIsRead(PLAIN);
    assert TurnsOn(Divided(h).fields[0]) && OneChunk(PLAIN, [HYPHENED]).head == h;
    hide HeadRead, Divided;
  }

  /** A hyphen in the name of a trailer: the response is refused. */
  lemma HyphenRefused(pieces: seq<string>)
    requires Join(pieces) == Text(OneChunk(PLAIN, [HYPHENED]))
    ensures MessageShape(OneChunk(PLAIN, [HYPHENED])) && Feed(START, pieces).1 == Error
  {
    var m := OneChunk(PLAIN, [HYPHENED]);
    FieldShapes();
    OneChunkShape(PLAIN, [HYPHENED]);
    PlainIsChunked();
    assert HYPHENED.name[1] == '-' && !TrailerRead(m.trailers[0]);
    assert Text(m) + "" == Text(m);
    hide *;
    ChunkedOutcome(m, pieces, "");
  }

  // ---------------------------------------------------------------------------
  // The caller
  // ---------------------------------------------------------------------------

  /** What request does with all it has read from its pipe: the pieces are put together and parsed at once. */
  method ParseAll(pieces: seq<string>, ghost m: Message, ghost rest: string) returns (response: Response, rv: bool)
    ensures rv <==> Feed(START, pieces).1 == Completed
    ensures response == Feed(START, pieces).0.resp
    ensures MessageShape(m) && Join(pieces) == Text(m) + rest ==>
            ((rv && response.content == Data(m.chunks)) <==> Readable(m))
  {
    hide *;
    var sresponse := "";
    assert pieces[0..] == pieces && "" + Join(pieces) == Join(pieces);
    for i := 0 to |pieces|
      invariant sresponse + Join(pieces[i..]) == Join(pieces)
    {
      JoinFirst(pieces, i);
      assert sresponse + (pieces[i] + Join(pieces[i + 1..])) == sresponse + pieces[i] + Join(pieces[i + 1..]);
      sresponse := sresponse + pieces[i];
    }
    JoinEnd(pieces);
    assert sresponse + "" == sresponse;
    var parser := new HttpResponseParser();
    var result;
    response, result := parser.Consume(EMPTY, sresponse);
    rv := result == Completed;
    ParsedIs(parser, response);
    FeedIsRun(START, pieces);
    if MessageShape(m) && Join(pieces) == Text(m) + rest {
      ReadExactly(m, pieces, rest);
    }
  }

  lemma ParsedIs(parser: HttpResponseParser, resp: Response)
    ensures parser.Value(resp).resp == resp
  {
  }

  lemma JoinFirst(pieces: seq<string>, i: nat)
    requires i < |pieces|
    ensures Join(pieces[i..]) == pieces[i] + Join(pieces[i + 1..])
  {
    assert pieces[i..][1..] == pieces[i + 1..];
  }

  lemma JoinEnd(pieces: seq<string>)
    ensures Join(pieces[|pieces|..]) == ""
  {
    assert pieces[|pieces|..] == [];
  }
}
