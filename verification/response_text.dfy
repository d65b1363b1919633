/**
  The text of HTTP responses, as sections 3 and 4.1 of RFC 7230 allow it, and what of it the parser reads.

  Every chunked response in the form of the RFC has the shape given here; some shapes go a little beyond it (leading
  zeros, several digits in a version, empty extension names).
 */
module ResponseText {
  import opened Basics
  import opened Bytes
  import opened HttpResponse
  import opened NumberText

  const CRLF: string := "\r\n"

  predicate AllDigits(s: string) {
    s != "" && forall i | 0 <= i < |s| :: IsDigit(s[i])
  }

  predicate AllAlnum(s: string) {
    forall i | 0 <= i < |s| :: IsAlnum(s[i])
  }

  /** Letters, digits and spaces. */
  predicate Words(s: string) {
    forall i | 0 <= i < |s| :: IsAlnum(s[i]) || s[i] == ' '
  }

  predicate IsBlank(c: char) {
    c == ' ' || c == '\t'
  }

  predicate Token(s: string) {
    s != "" && forall i | 0 <= i < |s| :: IsToken(s[i])
  }

  /** Blanks, visible characters and octets from 128 on. */
  predicate Printable(s: string) {
    forall i | 0 <= i < |s| :: s[i] == '\t' || !IsControl(s[i])
  }

  predicate NoControl(s: string) {
    forall i | 0 <= i < |s| :: !IsControl(s[i])
  }

  predicate Ascii(s: string) {
    forall i | 0 <= i < |s| :: IsChar(s[i])
  }

  /** The text behind the blanks in front. */
  function Stripped(s: string): string {
    if s != "" && IsBlank(s[0]) then Stripped(s[1..]) else s
  }

  // ---------------------------------------------------------------------------
  // Fields
  // ---------------------------------------------------------------------------

  /** A header or trailer field: its name, what stands behind the colon, and the lines folded under it. */
  datatype Field = Field(name: string, first: string, folds: seq<string>)

  predicate FoldShape(s: string) {
    s != "" && IsBlank(s[0]) && Printable(s)
  }

  predicate FieldShape(f: Field) {
    Token(f.name) && Printable(f.first) && forall i | 0 <= i < |f.folds| :: FoldShape(f.folds[i])
  }

  function FoldTexts(folds: seq<string>): string {
    if folds == [] then "" else folds[0] + CRLF + FoldTexts(folds[1..])
  }

  function FieldText(f: Field): string {
    f.name + ":" + f.first + CRLF + FoldTexts(f.folds)
  }

  function FieldTexts(fs: seq<Field>): string {
    if fs == [] then "" else FieldText(fs[0]) + FieldTexts(fs[1..])
  }

  /** The parser reads a header field whose value begins with a space and has no tabs but those in front of a folded
      line. */
  predicate FieldRead(f: Field) {
    && f.first != "" && f.first[0] == ' ' && NoControl(f.first[1..])
    && forall i | 0 <= i < |f.folds| :: NoControl(Stripped(f.folds[i]))
  }

  /** The value found on the first line: all behind one space. */
  function FirstValue(f: Field): string {
    if f.first == "" then "" else f.first[1..]
  }

  /** A value with the folded lines put to it, without the blanks in front of each. */
  function Unfolded(value: string, folds: seq<string>): string
    decreases |folds|
  {
    if folds == [] then value else Unfolded(value + Stripped(folds[0]), folds[1..])
  }

  /** The header the parser finds in a field. */
  function Seen(f: Field): Header {
    Header(f.name, Unfolded(FirstValue(f), f.folds))
  }

  function SeenAll(fs: seq<Field>): seq<Header> {
    if fs == [] then [] else [Seen(fs[0])] + SeenAll(fs[1..])
  }

  predicate IsLength(name: string) {
    SameNoCase(name, "Content-Length")
  }

  predicate IsTransfer(name: string) {
    SameNoCase(name, "Transfer-Encoding")
  }

  /** At the end of some line of the field its value so far is the word chunked. */
  predicate EverChunked(value: string, folds: seq<string>)
    decreases |folds|
  {
    SameNoCase(value, "chunked") || (folds != [] && EverChunked(value + Stripped(folds[0]), folds[1..]))
  }

  predicate TurnsOn(f: Field) {
    IsTransfer(f.name) && EverChunked(FirstValue(f), f.folds)
  }

  /** The size the last Content-Length field gives, or n. */
  function LengthOf(fs: seq<Field>, n: nat): nat {
    if fs == [] then n else LengthOf(fs[1..], if IsLength(fs[0].name) then Wrap(Atoi(Seen(fs[0]).value)) else n)
  }

  // ---------------------------------------------------------------------------
  // Heads
  // ---------------------------------------------------------------------------

  /** Status line and header fields. */
  datatype Head = Head(major: string, minor: string, code: string, reason: string, fields: seq<Field>)

  predicate HeadShape(h: Head) {
    && AllDigits(h.major) && AllDigits(h.minor) && AllDigits(h.code) && Decimal(0, h.code) <= 999
    && Printable(h.reason) && (h.reason == "" ==> h.fields != []) && forall i | 0 <= i < |h.fields| ::
         FieldShape(h.fields[i])
  }

  function StatusLine(h: Head): string {
    "HTTP/" + h.major + "." + h.minor + " " + h.code + " " + h.reason + CRLF
  }

  function HeadText(h: Head): string {
    StatusLine(h) + FieldTexts(h.fields) + CRLF
  }

  /** The head as the parser divides it: at least one character is taken for the reason, so behind an empty one the
      line break and the line of the first field belong to it. */
  function Divided(h: Head): Head {
    if h.reason == "" && h.fields != [] then
      h.(reason := CRLF + h.fields[0].name + ":" + h.fields[0].first, fields := h.fields[1..])
    else h
  }

  /** The parser reads a status line with a code from 100 on and an ASCII reason, and the fields behind it. */
  predicate HeadRead(h: Head) {
    var g := Divided(h);
    && 100 <= Decimal(0, h.code) && (h.reason == "" && h.fields != [] ==> h.fields[0].folds == [])
    && Ascii(g.reason) && forall i | 0 <= i < |g.fields| :: FieldRead(g.fields[i])
  }

  /** Some field of the head turns chunks on. */
  predicate SaysChunked(h: Head) {
    exists i :: 0 <= i < |Divided(h).fields| && TurnsOn(Divided(h).fields[i])
  }

  /** What the parser finds in the head. */
  function Found(h: Head): Response {
    var g := Divided(h);
    var r := Response(Decimal(0, g.major), Decimal(0, g.minor), Decimal(0, g.code), g.reason, SeenAll(g.fields), "",
        false);
    r.(keepAlive := KeepAlive(r))
  }

  // ---------------------------------------------------------------------------
  // Chunked bodies
  // ---------------------------------------------------------------------------

  /** A chunk extension: a name and perhaps a value, either with blanks around. */
  datatype Extension = Extension(name: string, value: Option<string>)

  predicate ExtensionShape(e: Extension) {
    && (forall i | 0 <= i < |e.name| :: IsToken(e.name[i]) || IsBlank(e.name[i]))
    && (e.value.Some? ==> Printable(e.value.value))
  }

  function ExtensionText(e: Extension): string {
    ";" + e.name + if e.value.None? then "" else "=" + e.value.value
  }

  function ExtensionTexts(es: seq<Extension>): string {
    if es == [] then "" else ExtensionText(es[0]) + ExtensionTexts(es[1..])
  }

  /** The parser reads one extension at most, of letters, digits and spaces. */
  predicate ExtensionsRead(es: seq<Extension>) {
    |es| <= 1 && (es != [] ==> Words(es[0].name) && (es[0].value.Some? ==> Words(es[0].value.value)))
  }

  /** The line in front of a chunk: its size in hexadecimal, and extensions. */
  datatype SizeLine = SizeLine(size: string, extensions: seq<Extension>)

  predicate SizeLineShape(l: SizeLine, size: nat) {
    && l.size != "" && HexText(l.size, size) && size <= LONG_MAX
    && forall i | 0 <= i < |l.extensions| :: ExtensionShape(l.extensions[i])
  }

  function SizeLineText(l: SizeLine): string {
    l.size + ExtensionTexts(l.extensions) + CRLF
  }

  datatype Chunk = Chunk(line: SizeLine, data: string)

  predicate ChunkShape(c: Chunk) {
    c.data != "" && SizeLineShape(c.line, |c.data|)
  }

  function ChunkText(c: Chunk): string {
    SizeLineText(c.line) + c.data + CRLF
  }

  function ChunkTexts(cs: seq<Chunk>): string {
    if cs == [] then "" else ChunkText(cs[0]) + ChunkTexts(cs[1..])
  }

  function Data(cs: seq<Chunk>): string {
    if cs == [] then "" else cs[0].data + Data(cs[1..])
  }

  /** The parser reads a trailer of one line, its name letters and digits behind a letter, its value letters, digits and
      spaces. */
  predicate TrailerRead(f: Field) {
    f.name != "" && IsAlpha(f.name[0]) && AllAlnum(f.name) && Words(f.first) && f.folds == []
  }

  /** A chunked response: head, chunks, the line of the last chunk, trailers, and an empty line. */
  datatype Message = Message(head: Head, chunks: seq<Chunk>, last: SizeLine, trailers: seq<Field>)

  predicate BodyShape(m: Message) {
    && (forall i | 0 <= i < |m.chunks| :: ChunkShape(m.chunks[i])) && SizeLineShape(m.last, 0)
    && forall i | 0 <= i < |m.trailers| :: FieldShape(m.trailers[i])
  }

  /** The shape of a chunked response; it has no Content-Length. */
  predicate MessageShape(m: Message) {
    && HeadShape(m.head) && BodyShape(m)
    && (exists i :: 0 <= i < |m.head.fields| && IsTransfer(m.head.fields[i].name))
    && forall i | 0 <= i < |m.head.fields| :: !IsLength(m.head.fields[i].name)
  }

  predicate BodyRead(m: Message) {
    && (forall i | 0 <= i < |m.chunks| :: ExtensionsRead(m.chunks[i].line.extensions))
    && ExtensionsRead(m.last.extensions) && forall i | 0 <= i < |m.trailers| :: TrailerRead(m.trailers[i])
  }

  function BodyText(m: Message): string {
    ChunkTexts(m.chunks) + SizeLineText(m.last) + FieldTexts(m.trailers) + CRLF
  }

  function Text(m: Message): string {
    HeadText(m.head) + BodyText(m)
  }

  /** What a caller can look for in a response: its head is read, and chunks are turned on and read, or there are
      none. */
  predicate Readable(m: Message) {
    HeadRead(m.head) && if SaysChunked(m.head) then BodyRead(m) else m.chunks == []
  }

  /** What is found in the text of a response is what was put there: dividing the head anew leaves its text the same. */
  lemma DividedText(h: Head)
    requires h.reason == "" && h.fields != [] ==> h.fields[0].folds == []
    ensures HeadText(Divided(h)) == HeadText(h)
  {
    if h.reason == "" && h.fields != [] {
      var f := h.fields[0];
      var start, line, rest := "HTTP/" + h.major + "." + h.minor + " " + h.code + " ", f.name + ":" + f.first,
          FieldTexts(h.fields[1..]);
      assert FoldTexts(f.folds) == "" && FieldText(f) == line + CRLF;
      assert StatusLine(h) == start + CRLF;
      assert StatusLine(Divided(h)) == start + (CRLF + line) + CRLF;
      hide FieldTexts, StatusLine, FieldText, FoldTexts;
      FieldTextsFirst(h.fields);
      assert start + CRLF + (line + CRLF + rest) == start + (CRLF + line) + CRLF + rest;
    }
  }

  lemma FieldTextsFirst(fs: seq<Field>)
    requires fs != []
    ensures FieldTexts(fs) == FieldText(fs[0]) + FieldTexts(fs[1..])
  {
  }
}
