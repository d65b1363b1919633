/**
  The parser of HTTP responses, a state machine fed one octet at a time.

  An octet is the character with its code.  Decimal numbers of the version are unbounded, the status code is a 32-bit
  word.  What the parser makes of whole responses is shown in modules ChunkedResponses and RefusedResponses.
 */
module HttpResponse {
  import opened Basics
  import opened Bytes

  predicate IsChar(c: char) {
    c as int <= 127
  }

  predicate IsControl(c: char) {
    c as int <= 31 || c as int == 127
  }

  predicate IsSpecial(c: char) {
    c in "()<>@,;:\\\"/[]?={} \t"
  }

  predicate IsDigit(c: char) {
    '0' <= c <= '9'
  }

  predicate IsAlpha(c: char) {
    'a' <= c <= 'z' || 'A' <= c <= 'Z'
  }

  predicate IsAlnum(c: char) {
    IsDigit(c) || IsAlpha(c)
  }

  predicate IsToken(c: char) {
    IsChar(c) && !IsControl(c) && !IsSpecial(c)
  }

  function DigitOf(c: char): nat
    requires IsDigit(c)
  {
    c as int - '0' as int
  }

  function LowerChar(c: char): char {
    if 'A' <= c <= 'Z' then (c as int + 32) as char else c
  }

  function Lower(s: string): string {
    seq(|s|, i requires 0 <= i < |s| => LowerChar(s[i]))
  }

  /** strcasecmp finds no difference. */
  predicate SameNoCase(a: string, b: string) {
    Lower(a) == Lower(b)
  }

  /** atoi: spaces, a sign, digits. */
  function Atoi(s: string): int {
    if s == "" then 0
    else if s[0] == ' ' then Atoi(s[1..])
    else if s[0] == '-' then 0 - Decimal(0, s[1..])
    else if s[0] == '+' then Decimal(0, s[1..])
    else Decimal(0, s)
  }

  /** The digits in front of s, read on from v. */
  function Decimal(v: nat, s: string): nat
    decreases |s|
  {
    if s == "" || !IsDigit(s[0]) then v else Decimal(10 * v + DigitOf(s[0]), s[1..])
  }

  function HexDigit(c: char): Option<nat> {
    if IsDigit(c) then Some(c as int - '0' as int)
    else if 'a' <= c <= 'f' then Some(c as int - 'a' as int + 10)
    else if 'A' <= c <= 'F' then Some(c as int - 'A' as int + 10)
    else None
  }

  /** The hexadecimal digits in front of s, read on from v. */
  function Hex(v: nat, s: string): nat
    decreases |s|
  {
    if s == "" || HexDigit(s[0]).None? then v else Hex(16 * v + HexDigit(s[0]).value, s[1..])
  }

  const LONG_MAX: nat := 0x7FFF_FFFF_FFFF_FFFF

  /** strtol in base 16 on letters and digits: an optional 0x, and what does not fit a long is cut off at its end. */
  function Strtol(s: string): nat {
    var rest := if |s| > 2 && s[0] == '0' && (s[1] == 'x' || s[1] == 'X') && HexDigit(s[2]).Some? then s[2..] else s;
    var v := Hex(0, rest);
    if v > LONG_MAX then LONG_MAX else v
  }

  // ---------------------------------------------------------------------------
  // The state machine
  // ---------------------------------------------------------------------------

  datatype State =
    | StatusStart | VersionHt | VersionHtt | VersionHttp | VersionSlash | MajorStart | Major | MinorStart | Minor
    | StatusCodeStart | StatusCode | StatusTextStart | StatusText | StatusNewLine
    | HeaderLineStart | HeaderLws | HeaderName | SpaceBeforeHeaderValue | HeaderValue | ExpectingNewline2
        | ExpectingNewline3
    | Post | ChunkSize | ChunkExtensionName | ChunkExtensionValue | ChunkSizeNewLine | ChunkSizeNewLine2
        | ChunkSizeNewLine3
    | ChunkTrailerName | ChunkTrailerValue | ChunkDataNewLine1 | ChunkDataNewLine2 | ChunkData

  datatype Header = Header(name: string, value: string)

  datatype Response = Response(major: nat, minor: nat, code: nat, status: string, headers: seq<Header>, content: string,
                               keepAlive: bool)

  datatype Parser = Parser(state: State, contentSize: nat, chunkSizeStr: string, chunkSize: nat, chunked: bool,
      resp: Response)

  datatype Result = Completed | Incomplete | Error

  const EMPTY: Response := Response(0, 0, 0, "", [], "", false)

  const START: Parser := Parser(StatusStart, 0, "", 0, false, EMPTY)

  function Goto(p: Parser, s: State): (Parser, Result) {
    (p.(state := s), Incomplete)
  }

  function Expect(p: Parser, input: char, c: char, s: State): (Parser, Result) {
    if input == c then Goto(p, s) else (p, Error)
  }

  /** The states of the status line. */
  function StatusLineStep(p: Parser, c: char): (Parser, Result) {
    var resp := p.resp;
    match p.state
    case StatusStart => Expect(p, c, 'H', VersionHt)
    case VersionHt => Expect(p, c, 'T', VersionHtt)
    case VersionHtt => Expect(p, c, 'T', VersionHttp)
    case VersionHttp => Expect(p, c, 'P', VersionSlash)
    case VersionSlash => if c == '/' then Goto(p.(resp := resp.(major := 0, minor := 0)), MajorStart) else (p, Error)
    case MajorStart => if IsDigit(c) then Goto(p.(resp := resp.(major := DigitOf(c))), Major) else (p, Error)
    case Major =>
      if c == '.' then Goto(p, MinorStart)
      else if IsDigit(c) then Goto(p.(resp := resp.(major := 10 * resp.major + DigitOf(c))), Major)
      else (p, Error)
    case MinorStart => if IsDigit(c) then Goto(p.(resp := resp.(minor := DigitOf(c))), Minor) else (p, Error)
    case Minor =>
      if c == ' ' then Goto(p.(resp := resp.(code := 0)), StatusCodeStart)
      else if IsDigit(c) then Goto(p.(resp := resp.(minor := 10 * resp.minor + DigitOf(c))), Minor)
      else (p, Error)
    case StatusCodeStart => if IsDigit(c) then Goto(p.(resp := resp.(code := DigitOf(c))), StatusCode) else (p, Error)
    case StatusCode =>
      if IsDigit(c) then Goto(p.(resp := resp.(code := Wrap32(10 * resp.code + DigitOf(c)))), StatusCode)
      else if resp.code < 100 || resp.code > 999 || c != ' ' then (p, Error)
      else Goto(p, StatusTextStart)
    case StatusTextStart => if IsChar(c) then Goto(p.(resp := resp.(status := resp.status + [c])), StatusText)
        else (p, Error)
    case StatusText =>
      if c == '\r' then Goto(p, StatusNewLine)
      else if IsChar(c) then Goto(p.(resp := resp.(status := resp.status + [c])), StatusText)
      else (p, Error)
    case _ => Expect(p, c, '\n', HeaderLineStart)
  }

  function PushName(resp: Response, c: char): Response {
    if resp.headers == [] then resp
    else
      var n := |resp.headers| - 1;
      resp.(headers := resp.headers[n := resp.headers[n].(name := resp.headers[n].name + [c])])
  }

  function PushValue(resp: Response, c: char): Response {
    if resp.headers == [] then resp
    else
      var n := |resp.headers| - 1;
      resp.(headers := resp.headers[n := resp.headers[n].(value := resp.headers[n].value + [c])])
  }

  /** A complete header line may set the size of the content or turn chunks on. */
  function NoteHeader(p: Parser, h: Header): Parser {
    if SameNoCase(h.name, "Content-Length") then p.(contentSize := Wrap(Atoi(h.value)))
    else if SameNoCase(h.name, "Transfer-Encoding") && SameNoCase(h.value, "chunked") then p.(chunked := true)
    else p
  }

  /** The first Connection header, if any, decides whether the connection stays open. */
  function FindConnection(hs: seq<Header>): Option<Header> {
    if hs == [] then None else if SameNoCase(hs[0].name, "Connection") then Some(hs[0]) else FindConnection(hs[1..])
  }

  function KeepAlive(resp: Response): bool {
    var found := FindConnection(resp.headers);
    if found.Some? then SameNoCase(found.value.value, "Keep-Alive")
    else if resp.major > 1 || (resp.major == 1 && resp.minor == 1) then true
    else resp.keepAlive
  }

  /** The states of the header lines and of a body of known size. */
  function HeaderStep(p: Parser, c: char): (Parser, Result) {
    var resp := p.resp;
    match p.state
    case HeaderLineStart =>
      if c == '\r' then Goto(p, ExpectingNewline3)
      else if resp.headers != [] && (c == ' ' || c == '\t') then Goto(p, HeaderLws)
      else if !IsToken(c) then (p, Error)
      else Goto(p.(resp := resp.(headers := resp.headers + [Header([c], "")])), HeaderName)
    case HeaderLws =>
      if c == '\r' then Goto(p, ExpectingNewline2)
      else if c == ' ' || c == '\t' then (p, Incomplete)
      else if IsControl(c) then (p, Error)
      else Goto(p.(resp := PushValue(resp, c)), HeaderValue)
    case HeaderName =>
      if c == ':' then Goto(p, SpaceBeforeHeaderValue)
      else if !IsToken(c) then (p, Error)
      else (p.(resp := PushName(resp, c)), Incomplete)
    case SpaceBeforeHeaderValue => Expect(p, c, ' ', HeaderValue)
    case HeaderValue =>
      if c == '\r' then
        Goto(if resp.headers == [] then p else NoteHeader(p, resp.headers[|resp.headers| - 1]), ExpectingNewline2)
      else if IsControl(c) then (p, Error)
      else (p.(resp := PushValue(resp, c)), Incomplete)
    case ExpectingNewline2 => Expect(p, c, '\n', HeaderLineStart)
    case ExpectingNewline3 =>
      var p' := p.(resp := resp.(keepAlive := KeepAlive(resp)));
      if p.chunked then Goto(p', ChunkSize)
      else if p.contentSize == 0 then (p', if c == '\n' then Completed else Error)
      else Goto(p', Post)
    case _ =>
      var p' := p.(contentSize := Wrap(p.contentSize - 1), resp := resp.(content := resp.content + [c]));
      (p', if p'.contentSize == 0 then Completed else Incomplete)
  }

  /** The states of a chunked body. */
  function ChunkStep(p: Parser, c: char): (Parser, Result) {
    match p.state
    case ChunkSize =>
      if IsAlnum(c) then (p.(chunkSizeStr := p.chunkSizeStr + [c]), Incomplete)
      else if c == ';' then Goto(p, ChunkExtensionName)
      else Expect(p, c, '\r', ChunkSizeNewLine)
    case ChunkExtensionName =>
      if IsAlnum(c) || c == ' ' then (p, Incomplete)
      else if c == '=' then Goto(p, ChunkExtensionValue)
      else Expect(p, c, '\r', ChunkSizeNewLine)
    case ChunkExtensionValue =>
      if IsAlnum(c) || c == ' ' then (p, Incomplete) else Expect(p, c, '\r', ChunkSizeNewLine)
    case ChunkSizeNewLine =>
      var size := Strtol(p.chunkSizeStr);
      if c != '\n' then (p, Error)
      else Goto(p.(chunkSize := size, chunkSizeStr := ""), if size == 0 then ChunkSizeNewLine2 else ChunkData)
    case ChunkSizeNewLine2 =>
      if c == '\r' then Goto(p, ChunkSizeNewLine3) else if IsAlpha(c) then Goto(p, ChunkTrailerName) else (p, Error)
    case ChunkSizeNewLine3 => (p, if c == '\n' then Completed else Error)
    case ChunkTrailerName => if IsAlnum(c) then (p, Incomplete) else Expect(p, c, ':', ChunkTrailerValue)
    case ChunkTrailerValue => if IsAlnum(c) || c == ' ' then (p, Incomplete) else Expect(p, c, '\r', ChunkSizeNewLine)
    case ChunkData =>
      var p' := p.(resp := p.resp.(content := p.resp.content + [c]), chunkSize := Wrap(p.chunkSize - 1));
      Goto(p', if p'.chunkSize == 0 then ChunkDataNewLine1 else ChunkData)
    case ChunkDataNewLine1 => Expect(p, c, '\r', ChunkDataNewLine2)
    case _ => Expect(p, c, '\n', ChunkSize)
  }

  predicate InStatusLine(s: State) {
    match s
    case StatusStart | VersionHt | VersionHtt | VersionHttp | VersionSlash | MajorStart | Major | MinorStart | Minor
       | StatusCodeStart | StatusCode | StatusTextStart | StatusText | StatusNewLine => true
    case _ => false
  }

  predicate InHeaders(s: State) {
    match s
    case HeaderLineStart | HeaderLws | HeaderName | SpaceBeforeHeaderValue | HeaderValue | ExpectingNewline2
       | ExpectingNewline3 | Post => true
    case _ => false
  }

  /** The switch of consume. */
  function Step(p: Parser, c: char): (Parser, Result) {
    if InStatusLine(p.state) then StatusLineStep(p, c)
        else if InHeaders(p.state) then HeaderStep(p, c) else ChunkStep(p, c)
  }

  /** consume: octet by octet until the response is complete or wrong. */
  function Run(p: Parser, s: string): (Parser, Result)
    decreases |s|
  {
    if s == "" then (p, Incomplete)
    else
      var r := Step(p, s[0]);
      if r.1 != Incomplete then r else Run(r.0, s[1..])
  }

  /** A response that comes in pieces: parse is called on each until it is done. */
  function Feed(p: Parser, pieces: seq<string>): (Parser, Result)
    decreases |pieces|
  {
    if pieces == [] then (p, Incomplete)
    else
      var r := Run(p, pieces[0]);
      if r.1 != Incomplete then r else Feed(r.0, pieces[1..])
  }

  function Join(pieces: seq<string>): string {
    if pieces == [] then "" else pieces[0] + Join(pieces[1..])
  }

  /** Running on what was run so far. */
  lemma {:induction false} RunOn(p: Parser, a: string, b: string)
    ensures Run(p, a + b) == var r := Run(p, a); if r.1 == Incomplete then Run(r.0, b) else r
    decreases |a|
  {
    hide Step;
    if a == "" {
      assert a + b == b;
    } else {
      assert (a + b)[1..] == a[1..] + b;
      RunOn(Step(p, a[0]).0, a[1..], b);
    }
  }

  /** How a response is cut into pieces makes no difference. */
  lemma {:induction false} FeedIsRun(p: Parser, pieces: seq<string>)
    ensures Feed(p, pieces) == Run(p, Join(pieces))
    decreases |pieces|
  {
    if pieces != [] {
      hide Run;
      RunOn(p, pieces[0], Join(pieces[1..]));
      FeedIsRun(Run(p, pieces[0]).0, pieces[1..]);
    }
  }

  // ---------------------------------------------------------------------------
  // The parser as an object
  // ---------------------------------------------------------------------------

  class HttpResponseParser {
    var state: State
    var contentSize: nat
    var chunkSizeStr: string
    var chunkSize: nat
    var chunked: bool

    function Value(resp: Response): Parser
      reads this
    {
      Parser(state, contentSize, chunkSizeStr, chunkSize, chunked, resp)
    }

    constructor ()
      ensures Value(EMPTY) == START
    {
      state := StatusStart;
      contentSize := 0;
      chunkSizeStr := "";
      chunkSize := 0;
      chunked := false;
      new;
      assert EMPTY == Response(0, 0, 0, "", [], "", false);
    }

    /** consume.  The response is passed in as it is and comes back as it becomes. */
    method Consume(resp: Response, input: string) returns (out: Response, result: Result)
      modifies this
      ensures (Value(out), result) == Run(old(Value(resp)), input)
    {
      out, result := resp, Incomplete;
      hide Step, Wrap;
      assert input[0..] == input;
      for i := 0 to |input|
        invariant result == Incomplete && Run(Value(out), input[i..]) == Run(old(Value(resp)), input)
      {
        assert input[i..][1..] == input[i + 1..];
        out, result := ConsumeOne(out, input[i]);
        if result != Incomplete {
          return;
        }
      }
      assert input[|input|..] == "";
    }

    /** The body of the loop. */
    method ConsumeOne(resp: Response, input: char) returns (out: Response, result: Result)
      modifies this
      ensures (Value(out), result) == Step(old(Value(resp)), input)
    {
      if InStatusLine(state) {
        out, result := ConsumeStatusLine(resp, input);
      } else if InHeaders(state) {
        out, result := ConsumeHeader(resp, input);
      } else {
        out, result := ConsumeChunk(resp, input);
      }
    }

    /** Go on to the next state if the input is the one expected. */
    method Want(input: char, c: char, next: State) returns (result: Result)
      modifies this`state
      ensures if input == c then state == next && result == Incomplete else state == old(state) && result == Error
    {
      if input != c {
        return Error;
      }
      state := next;
      result := Incomplete;
    }

    method ConsumeStatusLine(resp: Response, input: char) returns (out: Response, result: Result)
      requires InStatusLine(state)
      modifies this`state
      ensures (Value(out), result) == StatusLineStep(old(Value(resp)), input)
    {
      out, result := resp, Incomplete;
      match state {
        case StatusStart => result := Want(input, 'H', VersionHt);
        case VersionHt => result := Want(input, 'T', VersionHtt);
        case VersionHtt => result := Want(input, 'T', VersionHttp);
        case VersionHttp => result := Want(input, 'P', VersionSlash);
        case VersionSlash =>
          result := Want(input, '/', MajorStart);
          if result == Incomplete {
            out := resp.(major := 0, minor := 0);
          }
        case MajorStart =>
          if IsDigit(input) {
            out := resp.(major := DigitOf(input));
            state := Major;
          } else {
            result := Error;
          }
        case MinorStart =>
          if IsDigit(input) {
            out := resp.(minor := DigitOf(input));
            state := Minor;
          } else {
            result := Error;
          }
        case StatusCodeStart =>
          if IsDigit(input) {
            out := resp.(code := DigitOf(input));
            state := StatusCode;
          } else {
            result := Error;
          }
        case Major =>
          if IsDigit(input) {
            out := resp.(major := 10 * resp.major + DigitOf(input));
          } else {
            result := Want(input, '.', MinorStart);
          }
        case Minor =>
          if IsDigit(input) {
            out := resp.(minor := 10 * resp.minor + DigitOf(input));
          } else {
            result := Want(input, ' ', StatusCodeStart);
            if result == Incomplete {
              out := resp.(code := 0);
            }
          }
        case StatusCode =>
          if IsDigit(input) {
            out := resp.(code := Wrap32(10 * resp.code + DigitOf(input)));
          } else if resp.code < 100 || resp.code > 999 {
            result := Error;
          } else {
            result := Want(input, ' ', StatusTextStart);
          }
        case StatusTextStart =>
          if IsChar(input) {
            out := resp.(status := resp.status + [input]);
            state := StatusText;
          } else {
            result := Error;
          }
        case StatusText =>
          if input == '\r' {
            state := StatusNewLine;
          } else if IsChar(input) {
            out := resp.(status := resp.status + [input]);
          } else {
            result := Error;
          }
        case StatusNewLine => result := Want(input, '\n', HeaderLineStart);
      }
    }

    /** A complete header line. */
    method Note(h: Header)
      modifies this`contentSize, this`chunked
      ensures forall resp :: Value(resp) == NoteHeader(old(Value(resp)), h)
    {
      if SameNoCase(h.name, "Content-Length") {
        contentSize := Wrap(Atoi(h.value));
      } else if SameNoCase(h.name, "Transfer-Encoding") {
        if SameNoCase(h.value, "chunked") {
          chunked := true;
        }
      }
    }

    method ConsumeHeader(resp: Response, input: char) returns (out: Response, result: Result)
      requires InHeaders(state)
      modifies this`state, this`contentSize, this`chunked
      ensures (Value(out), result) == HeaderStep(old(Value(resp)), input)
    {
      hide IsToken, SameNoCase, FindConnection, Atoi, Wrap;
      out, result := resp, Incomplete;
      match state {
        case HeaderLineStart =>
          if input == '\r' {
            state := ExpectingNewline3;
          } else if resp.headers != [] && (input == ' ' || input == '\t') {
            state := HeaderLws;
          } else if !IsToken(input) {
            result := Error;
          } else {
            out := resp.(headers := resp.headers + [Header([input], "")]);
            state := HeaderName;
          }
        case HeaderLws =>
          if input == '\r' {
            state := ExpectingNewline2;
          } else if input == ' ' || input == '\t' {
          } else if IsControl(input) {
            result := Error;
          } else {
            state := HeaderValue;
            out := PushValue(resp, input);
          }
        case HeaderName =>
          if input == ':' {
            state := SpaceBeforeHeaderValue;
          } else if !IsToken(input) {
            result := Error;
          } else {
            out := PushName(resp, input);
          }
        case SpaceBeforeHeaderValue => result := Want(input, ' ', HeaderValue);
        case HeaderValue =>
          if input == '\r' {
            if resp.headers != [] {
              Note(resp.headers[|resp.headers| - 1]);
            }
            state := ExpectingNewline2;
          } else if IsControl(input) {
            result := Error;
          } else {
            out := PushValue(resp, input);
          }
        case ExpectingNewline2 => result := Want(input, '\n', HeaderLineStart);
        case ExpectingNewline3 =>
          out := resp.(keepAlive := KeepAlive(resp));
          if chunked {
            state := ChunkSize;
          } else if contentSize == 0 {
            result := if input == '\n' then Completed else Error;
          } else {
            state := Post;
          }
        case Post =>
          contentSize := Wrap(contentSize - 1);
          out := resp.(content := resp.content + [input]);
          if contentSize == 0 {
            result := Completed;
          }
      }
    }

    method ConsumeChunk(resp: Response, input: char) returns (out: Response, result: Result)
      requires !InStatusLine(state) && !InHeaders(state)
      modifies this`state, this`chunkSizeStr, this`chunkSize
      ensures (Value(out), result) == ChunkStep(old(Value(resp)), input)
    {
      hide Strtol, IsAlnum, IsAlpha, Wrap;
      out, result := resp, Incomplete;
      match state {
        case ChunkSize =>
          if IsAlnum(input) {
            chunkSizeStr := chunkSizeStr + [input];
          } else if input == ';' {
            state := ChunkExtensionName;
          } else {
            result := Want(input, '\r', ChunkSizeNewLine);
          }
        case ChunkExtensionName =>
          if IsAlnum(input) || input == ' ' {
          } else if input == '=' {
            state := ChunkExtensionValue;
          } else {
            result := Want(input, '\r', ChunkSizeNewLine);
          }
        case ChunkExtensionValue | ChunkTrailerValue =>
          if !(IsAlnum(input) || input == ' ') {
            result := Want(input, '\r', ChunkSizeNewLine);
          }
        case ChunkSizeNewLine =>
          if input != '\n' {
            return out, Error;
          }
          chunkSize := Strtol(chunkSizeStr);
          chunkSizeStr := "";
          state := if chunkSize == 0 then ChunkSizeNewLine2 else ChunkData;
        case ChunkSizeNewLine2 =>
          if input == '\r' {
            state := ChunkSizeNewLine3;
          } else if IsAlpha(input) {
            state := ChunkTrailerName;
          } else {
            result := Error;
          }
        case ChunkSizeNewLine3 => result := if input == '\n' then Completed else Error;
        case ChunkTrailerName =>
          if !IsAlnum(input) {
            result := Want(input, ':', ChunkTrailerValue);
          }
        case ChunkData =>
          out := resp.(content := resp.content + [input]);
          chunkSize := Wrap(chunkSize - 1);
          if chunkSize == 0 {
            state := ChunkDataNewLine1;
          }
        case ChunkDataNewLine1 => result := Want(input, '\r', ChunkDataNewLine2);
        case ChunkDataNewLine2 => result := Want(input, '\n', ChunkSize);
      }
    }
  }
}
