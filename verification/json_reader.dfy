/**
  The loops of the JSON printer and parser, proved against the functions of module Json.

  Each parser is given the text and an offset and returns the value with the offset behind it.
 */
module JsonReader {
  import opened Basics
  import opened Json

  /** json_escape. */
  method JsonEscape(str: string) returns (output: string)
    ensures output == Escape(str)
  {
    output := "";
    assert str[0..] == str && Escape("") == "";
    hide *;
    for i := 0 to |str|
      invariant output + Escape(str[i..]) == Escape(str)
    {
      EscapeFrom(str, i);
      output := output + EscapeChar(str[i]);
    }
  }

  lemma EscapeFrom(str: string, i: nat)
    requires i < |str|
    ensures Escape(str[i..]) == EscapeChar(str[i]) + Escape(str[i + 1..])
  {
    assert str[i..][0] == str[i] && str[i..][1..] == str[i + 1..];
  }

  /** consume_ws. */
  method ConsumeWs(str: string, offset: nat) returns (at: nat)
    requires offset <= |str|
    ensures at == SkipSpace(str, offset)
  {
    at := offset;
    while IsSpace(At(str, at))
      invariant offset <= at <= |str| && SkipSpace(str, at) == SkipSpace(str, offset)
      decreases |str| - at
    {
      at := at + 1;
    }
  }

  /** parse_string, from its opening quote. */
  method ReadString(str: string, offset: nat) returns (r: Outcome)
    requires offset < |str|
    ensures r == StringFrom(str, offset + 1, "")
  {
    var val := "";
    var i := offset + 1;
    while i <= |str|
      invariant offset < i && StringFrom(str, i, val) == StringFrom(str, offset + 1, "")
      decreases |str| + 1 - i
    {
      var c := At(str, i);
      if c == QUOTE {
        return Done(String(val), i + 1);
      }
      if c == BACKSLASH {
        var e := At(str, i + 1);
        if e != 'u' {
          val, i := val + [Unescape(e)], i + 2;
        } else {
          var n := ReadHex(str, i + 2);
          if n == 4 {
            val, i := val + [BACKSLASH, 'u'] + str[i + 2..i + 6], i + 6;
          } else if i + 2 + n <= |str| {
            return Done(String(""), i + 1);
          } else {
            return Abort;
          }
        }
      } else {
        val, i := val + [c], i + 1;
      }
    }
    r := Abort;
  }

  /** The loop over the four digits of a unicode escape. */
  method ReadHex(str: string, i: nat) returns (n: nat)
    ensures n == HexRun(str, i, 0)
    ensures n == 4 ==> i + 4 <= |str|
  {
    n := 0;
    while n < 4 && i + n <= |str| && IsHex(At(str, i + n))
      invariant n <= 4 && HexRun(str, i, n) == HexRun(str, i, 0)
      invariant n > 0 ==> i + n <= |str|
    {
      n := n + 1;
    }
  }

  /** parse_number, for numbers without fraction or exponent. */
  method ReadNumber(str: string, offset: nat) returns (r: Outcome)
    requires offset <= |str|
    ensures r == ParseNumber(str, offset)
  {
    var i := offset;
    var val := "";
    var isDouble := false;
    while i < |str| && (IsDigit(str[i]) || str[i] == '-' || str[i] == '.')
      invariant offset <= i <= |str| && NumberEnd(str, i) == NumberEnd(str, offset)
      invariant val == str[offset..i] && (isDouble <==> '.' in val)
    {
      val := val + [str[i]];
      isDouble := isDouble || str[i] == '.';
      i := i + 1;
    }
    var c := At(str, i);
    if c == 'E' || c == 'e' {
      return Abort;
    }
    if !IsDelimiter(c) {
      return Done(Null, i + 1);
    }
    if isDouble {
      return Abort;
    }
    var n := Stol(val);
    r := if n.NoNumber? then Abort else Done(Integral(n.value), i);
  }

  lemma ElementsUnfold(str: string, i: nat, es: seq<JSON>)
    requires i <= |str|
    ensures ElementsFrom(str, i, es) ==
      var e := ParseNext(str, i);
      if e.Abort? || e.at > |str| then Abort
      else
        var j := SkipSpace(str, e.at);
        if At(str, j) == ',' then ElementsFrom(str, j + 1, es + [e.value])
        else if At(str, j) == ']' then Done(Array(es + [e.value]), j + 1)
        else Done(Array([]), j)
  {
    hide ParseNext, SkipSpace;
  }

  /** The terminating null character is no mark. */
  lemma MarkInside(str: string, j: nat)
    requires j <= |str|
    ensures At(str, j) == ',' || At(str, j) == ']' || At(str, j) == ':' || At(str, j) == '}' ==> j < |str|
  {
  }

  /** The loop of parse_object from behind a colon. */
  function ValueFrom(str: string, i: nat, ms: seq<Member>, key: JSON): Outcome
    requires i <= |str|
  {
    var v := ParseNext(str, SkipSpace(str, i));
    if v.Abort? || v.at > |str| then Abort
    else
      var ms' := Insert(ms, ToString(key), v.value);
      var m := SkipSpace(str, v.at);
      if At(str, m) == ',' && m < |str| then MembersFrom(str, m + 1, ms')
      else if At(str, m) == '}' then Done(Object(ms'), m + 1)
      else Done(Object(ms'), m)
  }

  lemma MembersUnfold(str: string, i: nat, ms: seq<Member>)
    requires i <= |str|
    ensures MembersFrom(str, i, ms) ==
      var k := ParseNext(str, i);
      if k.Abort? || k.at > |str| then Abort
      else
        var j := SkipSpace(str, k.at);
        if At(str, j) == ':' && j < |str| then ValueFrom(str, j + 1, ms, k.value) else Done(Object(ms), j)
  {
    hide ParseNext, SkipSpace, Insert, ToString;
  }

  lemma ValueUnfold(str: string, i: nat, ms: seq<Member>, key: JSON)
    requires i <= |str|
    ensures ValueFrom(str, i, ms, key) ==
      var v := ParseNext(str, SkipSpace(str, i));
      if v.Abort? || v.at > |str| then Abort
      else
        var ms' := Insert(ms, ToString(key), v.value);
        var m := SkipSpace(str, v.at);
        if At(str, m) == ',' && m < |str| then MembersFrom(str, m + 1, ms')
        else if At(str, m) == '}' then Done(Object(ms'), m + 1)
        else Done(Object(ms'), m)
  {
    hide ParseNext, SkipSpace, Insert, ToString, MembersFrom;
  }

  /** parse_next. */
  method ReadNext(str: string, offset: nat) returns (r: Outcome)
    ensures r == ParseNext(str, offset)
    decreases |str| + 1 - offset, 1
  {
    if offset > |str| {
      return Abort;
    }
    var i := ConsumeWs(str, offset);
    if i == |str| {
      return Done(Null, i);
    }
    match str[i] {
      case '[' => r := ReadArray(str, i);
      case '{' => r := ReadObject(str, i);
      case '"' => r := ReadString(str, i);
      case 't' => r := ParseBool(str, i);
      case 'f' => r := ParseBool(str, i);
      case 'n' => r := ParseNull(str, i);
      case c =>
        if IsDigit(c) || c == '-' {
          r := ReadNumber(str, i);
        } else {
          r := Done(Null, i);
        }
    }
  }

  /** parse_array, from its bracket. */
  method ReadArray(str: string, offset: nat) returns (r: Outcome)
    requires offset < |str|
    ensures r == ParseArray(str, offset)
    decreases |str| + 1 - offset, 0
  {
    var i := ConsumeWs(str, offset + 1);
    if At(str, i) == ']' {
      return Done(Array([]), i + 1);
    }
    var elements: seq<JSON> := [];
    ghost var whole := ElementsFrom(str, i, []);
    assert ParseArray(str, offset) == whole;
    hide *;
    while true
      invariant offset < i <= |str| && ElementsFrom(str, i, elements) == whole
      decreases |str| - i
    {
      ElementsUnfold(str, i, elements);
      var e := ReadNext(str, i);
      if e.Abort? || e.at > |str| {
        return Abort;
      }
      var j := ConsumeWs(str, e.at);
      MarkInside(str, j);
      if At(str, j) == ',' {
        elements, i := elements + [e.value], j + 1;
      } else if At(str, j) == ']' {
        return Done(Array(elements + [e.value]), j + 1);
      } else {
        return Done(Array([]), j);
      }
    }
  }

  /** parse_object, from its brace. */
  method ReadObject(str: string, offset: nat) returns (r: Outcome)
    requires offset < |str|
    ensures r == ParseObject(str, offset)
    decreases |str| + 1 - offset, 0
  {
    var i := ConsumeWs(str, offset + 1);
    if At(str, i) == '}' {
      return Done(Object([]), i + 1);
    }
    var members: seq<Member> := [];
    ghost var whole := MembersFrom(str, i, []);
    assert ParseObject(str, offset) == whole;
    hide *;
    while true
      invariant offset < i <= |str| && MembersFrom(str, i, members) == whole
      decreases |str| - i
    {
      MembersUnfold(str, i, members);
      var key := ReadNext(str, i);
      if key.Abort? || key.at > |str| {
        return Abort;
      }
      var j := ConsumeWs(str, key.at);
      MarkInside(str, j);
      if At(str, j) != ':' {
        return Done(Object(members), j);
      }
      var out: Option<Outcome>;
      out, members, i := ReadMemberValue(str, j + 1, members, key.value);
      if out.Some? {
        return out.value;
      }
    }
  }

  /** The rest of the loop body, from behind the colon: the result, or the members so far and where the next one
      starts. */
  method ReadMemberValue(str: string, i: nat, members: seq<Member>, key: JSON)
    returns (out: Option<Outcome>, members': seq<Member>, next: nat)
    requires 0 < i <= |str|
    ensures out.Some? ==> ValueFrom(str, i, members, key) == out.value
    ensures out.None? ==> i < next <= |str| && ValueFrom(str, i, members, key) == MembersFrom(str, next, members')
    decreases |str| + 1 - i, 2
  {
    hide *;
    ValueUnfold(str, i, members, key);
    members', next := members, i;
    var k := ConsumeWs(str, i);
    var v := ReadNext(str, k);
    if v.Abort? || v.at > |str| {
      return Some(Abort), members', next;
    }
    members' := Insert(members, ToString(key), v.value);
    var m := ConsumeWs(str, v.at);
    MarkInside(str, m);
    if At(str, m) == ',' {
      return None, members', m + 1;
    }
    return Some(Done(Object(members'), if At(str, m) == '}' then m + 1 else m)), members', next;
  }
}
