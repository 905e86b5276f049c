/** A reader for compact JSON, and the proof that the printer of the event stream loses nothing. */
module JsonReader {
  import opened Domain
  import opened Wire

  datatype Read<+T> = Fail | Got(value: T, rest: string)

  // ---- strings ----

  function HexDigit(c: char): (v: Option<nat>)
    ensures v.Some? ==> v.value < 16
  {
    if '0' <= c <= '9' then Some((c - '0') as nat)
    else if 'a' <= c <= 'f' then Some((c - 'a') as nat + 10)
    else if 'A' <= c <= 'F' then Some((c - 'A') as nat + 10)
    else None
  }

  /** Four hexadecimal digits. */
  function ReadUnit(s: string): (r: Read<nat>)
    ensures r.Got? ==> r.value < 0x10000 && |r.rest| < |s|
  {
    if |s| < 4 then Fail
    else
      var a, b, c, d := HexDigit(s[0]), HexDigit(s[1]), HexDigit(s[2]), HexDigit(s[3]);
      if a.None? || b.None? || c.None? || d.None? then Fail
      else Got(a.value * 4096 + b.value * 256 + c.value * 16 + d.value, s[4..])
  }

  /** What follows `\u`: one unit, or a surrogate pair. */
  function ReadUnicode(s: string): (r: Read<char>)
    ensures r.Got? ==> |r.rest| < |s|
  {
    match ReadUnit(s)
    case Fail => Fail
    case Got(high, rest) =>
      if high < 0xD800 || high >= 0xE000 then Got(high as char, rest)
      else if high >= 0xDC00 || |rest| < 2 || rest[0] != '\\' || rest[1] != 'u' then Fail
      else
        match ReadUnit(rest[2..])
        case Fail => Fail
        case Got(low, more) =>
          if low < 0xDC00 || low >= 0xE000 then Fail
          else Got((0x10000 + (high - 0xD800) * 1024 + (low - 0xDC00)) as char, more)
  }

  /** One character of a string literal. */
  function ReadChar(s: string): (r: Read<char>)
    ensures r.Got? ==> |r.rest| < |s|
  {
    if s == "" || s[0] == '"' then Fail
    else if s[0] != '\\' then Got(s[0], s[1..])
    else if |s| == 1 then Fail
    else match s[1]
      case '"' => Got('"', s[2..])
      case '\\' => Got('\\', s[2..])
      case '/' => Got('/', s[2..])
      case 'b' => Got('\U{0008}', s[2..])
      case 'f' => Got('\U{000C}', s[2..])
      case 'n' => Got('\n', s[2..])
      case 'r' => Got('\r', s[2..])
      case 't' => Got('\t', s[2..])
      case 'u' => ReadUnicode(s[2..])
      case _ => Fail
  }

  /** The rest of a string literal, after the opening quote. */
  function ReadChars(s: string): (r: Read<string>)
    ensures r.Got? ==> |r.rest| < |s|
    decreases |s|
  {
    if s != "" && s[0] == '"' then Got("", s[1..])
    else
      match ReadChar(s)
      case Fail => Fail
      case Got(c, rest) =>
        match ReadChars(rest)
        case Fail => Fail
        case Got(text, more) => Got([c] + text, more)
  }

  // ---- numbers ----

  predicate Digit(c: char) { '0' <= c <= '9' }

  function DigitsLength(s: string): (n: nat)
    ensures n <= |s|
  {
    if s == "" || !Digit(s[0]) then 0 else 1 + DigitsLength(s[1..])
  }

  function ReadNumber(s: string): (r: Read<int>)
    ensures r.Got? ==> |r.rest| < |s|
  {
    var sign := if s != "" && s[0] == '-' then 1 else 0;
    var n := sign + DigitsLength(s[sign..]);
    var v := ParseInt(s[..n]);
    if n == sign || v.None? then Fail else Got(v.value, s[n..])
  }

  // ---- values ----

  predicate Starts(s: string, word: string) {
    |word| <= |s| && s[..|word|] == word
  }

  function ReadValue(s: string): (r: Read<Json>)
    ensures r.Got? ==> |r.rest| < |s|
    decreases |s|, 0
  {
    if s == "" then Fail
    else match s[0]
      case 'n' => if Starts(s, "null") then Got(Null, s[4..]) else Fail
      case 't' => if Starts(s, "true") then Got(Bool(true), s[4..]) else Fail
      case 'f' => if Starts(s, "false") then Got(Bool(false), s[5..]) else Fail
      case '"' =>
        (match ReadChars(s[1..])
         case Fail => Fail
         case Got(text, rest) => Got(Text(text), rest))
      case '[' =>
        if |s| > 1 && s[1] == ']' then Got(Array([]), s[2..])
        else (match ReadItems(s[1..])
              case Fail => Fail
              case Got(items, rest) => Got(Array(items), rest))
      case '{' =>
        if |s| > 1 && s[1] == '}' then Got(Object([]), s[2..])
        else (match ReadMembers(s[1..])
              case Fail => Fail
              case Got(members, rest) => Got(Object(members), rest))
      case _ =>
        (match ReadNumber(s)
         case Fail => Fail
         case Got(n, rest) => Got(Number(n), rest))
  }

  /** One item or more, up to the closing bracket. */
  function ReadItems(s: string): (r: Read<seq<Json>>)
    ensures r.Got? ==> |r.rest| < |s|
    decreases |s|, 1
  {
    match ReadValue(s)
    case Fail => Fail
    case Got(item, rest) =>
      if rest == "" then Fail
      else if rest[0] == ']' then Got([item], rest[1..])
      else if rest[0] != ',' then Fail
      else
        match ReadItems(rest[1..])
        case Fail => Fail
        case Got(items, more) => Got([item] + items, more)
  }

  /** One key and its value. */
  function ReadMember(s: string): (r: Read<Member>)
    ensures r.Got? ==> |r.rest| < |s|
    decreases |s|, 1
  {
    if s == "" || s[0] != '"' then Fail
    else
      match ReadChars(s[1..])
      case Fail => Fail
      case Got(key, rest) =>
        if rest == "" || rest[0] != ':' then Fail
        else
          match ReadValue(rest[1..])
          case Fail => Fail
          case Got(value, more) => Got(Member(key, value), more)
  }

  /** One member or more, up to the closing brace. */
  function ReadMembers(s: string): (r: Read<seq<Member>>)
    ensures r.Got? ==> |r.rest| < |s|
    decreases |s|, 2
  {
    match ReadMember(s)
    case Fail => Fail
    case Got(member, rest) =>
      if rest == "" then Fail
      else if rest[0] == '}' then Got([member], rest[1..])
      else if rest[0] != ',' then Fail
      else
        match ReadMembers(rest[1..])
        case Fail => Fail
        case Got(members, more) => Got([member] + members, more)
  }

  // ---- strings round trip ----

  lemma HexDigitOf(n: nat)
    requires n < 16
    ensures HexDigit(HEX[n]) == Some(n)
  {
  }

  lemma UnitDigits(n: nat)
    requires n < 0x10000
    ensures n / 4096 * 4096 + n / 256 % 16 * 256 + n / 16 % 16 * 16 + n % 16 == n && n / 4096 < 16
  {
  }

  lemma UnitReadBack(n: nat, rest: string)
    requires n < 0x10000
    ensures ReadUnit(Hex4(n) + rest) == Got(n, rest)
  {
    UnitDigits(n);
    HexDigitOf(n / 4096);
    HexDigitOf(n / 256 % 16);
    HexDigitOf(n / 16 % 16);
    HexDigitOf(n % 16);
    assert (Hex4(n) + rest)[4..] == rest;
  }

  lemma BasicReadBack(c: char, rest: string)
    requires (c as int) < 0x10000
    ensures ReadUnicode(Hex4(c as int) + rest) == Got(c, rest)
  {
    UnitReadBack(c as int, rest);
  }

  /** The two halves of a surrogate pair. */
  lemma PairReadBack(high: nat, low: nat, s: string, tail: string, rest: string)
    requires 0xD800 <= high < 0xDC00 && 0xDC00 <= low < 0xE000
    requires ReadUnit(s) == Got(high, tail) && |tail| >= 2 && tail[0] == '\\' && tail[1] == 'u'
    requires ReadUnit(tail[2..]) == Got(low, rest)
    ensures ReadUnicode(s) == Got((0x10000 + (high - 0xD800) * 1024 + (low - 0xDC00)) as char, rest)
  {
  }

  lemma HighReadBack(c: char, rest: string)
    requires (c as int) >= 0x10000
    ensures ReadUnicode(SurrogatePair(c as int - 0x10000)[2..] + rest) == Got(c, rest)
  {
    var m := c as int - 0x10000;
    var high, low := 0xD800 + m / 1024, 0xDC00 + m % 1024;
    var tail := Unit(low) + rest;
    UnitReadBack(high, tail);
    LowTail(low, tail, rest);
    PairReadBack(high, low, Hex4(high) + tail, tail, rest);
    PairText(high, low, rest);
    assert SurrogatePair(m) == Unit(high) + Unit(low);
  }

  lemma LowTail(low: nat, tail: string, rest: string)
    requires low < 0x10000 && tail == Unit(low) + rest
    ensures |tail| >= 2 && tail[0] == '\\' && tail[1] == 'u' && ReadUnit(tail[2..]) == Got(low, rest)
  {
    UnitReadBack(low, rest);
    assert tail[2..] == Hex4(low) + rest;
  }

  lemma PairText(high: nat, low: nat, rest: string)
    requires high < 0x10000 && low < 0x10000
    ensures (Unit(high) + Unit(low))[2..] + rest == Hex4(high) + (Unit(low) + rest)
  {
  }

  /** An escape of a backslash and a letter. */
  predicate Short(c: char) {
    c == '"' || c == '\\' || c == '\n' || c == '\r' || c == '\t' || c == '\U{0008}' || c == '\U{000C}'
  }

  lemma ShortReadBack(c: char, rest: string)
    requires Short(c)
    ensures ReadChar(Escape(c) + rest) == Got(c, rest)
  {
    assert (Escape(c) + rest)[2..] == rest;
  }

  lemma UnicodeCharReadBack(c: char, e: string, digits: string, rest: string)
    requires e == "\\u" + digits && ReadUnicode(digits + rest) == Got(c, rest)
    ensures ReadChar(e + rest) == Got(c, rest)
  {
    var s := e + rest;
    assert s[0] == '\\' && s[1] == 'u' && s[2..] == digits + rest;
  }

  lemma CharReadBack(c: char, rest: string)
    ensures ReadChar(Escape(c) + rest) == Got(c, rest)
  {
    if Short(c) {
      ShortReadBack(c, rest);
    } else if ' ' <= c <= '~' {
      assert (Escape(c) + rest)[1..] == rest;
    } else if (c as int) < 0x10000 {
      BasicReadBack(c, rest);
      UnicodeCharReadBack(c, Unit(c as int), Hex4(c as int), rest);
    } else {
      HighReadBack(c, rest);
      PairIsEscape(c);
      UnicodeCharReadBack(c, SurrogatePair(c as int - 0x10000), SurrogatePair(c as int - 0x10000)[2..], rest);
    }
  }

  lemma PairIsEscape(c: char)
    requires (c as int) >= 0x10000
    ensures var pair := SurrogatePair(c as int - 0x10000); Escape(c) == pair && |pair| >= 2 && pair == "\\u" + pair[2..]
  {
  }

  lemma EscapeNotEmpty(c: char, rest: string)
    ensures (Escape(c) + rest) != "" && (Escape(c) + rest)[0] != '"'
  {
  }

  lemma EscapedSnoc(s: string, c: char)
    ensures Escaped(s + [c]) == Escaped(s) + Escape(c)
  {
    assert (s + [c])[..|s|] == s;
  }

  lemma {:induction false} EscapedCons(c: char, s: string)
    ensures Escaped([c] + s) == Escape(c) + Escaped(s)
  {
    if s == "" {
      assert [c] + s == [] + [c];
      EscapedSnoc([], c);
    } else {
      var init, last := s[..|s| - 1], s[|s| - 1];
      assert s == init + [last] && [c] + s == ([c] + init) + [last];
      EscapedSnoc(init, last);
      EscapedSnoc([c] + init, last);
      EscapedCons(c, init);
      Regroup(Escape(c), Escaped(init), Escape(last));
    }
  }

  lemma Regroup(a: string, b: string, c: string)
    ensures (a + b) + c == a + (b + c)
  {
  }

  lemma {:induction false} CharsReadBack(s: string, rest: string)
    ensures ReadChars(Escaped(s) + "\"" + rest) == Got(s, rest)
  {
    if s == "" {
      assert (Escaped(s) + "\"" + rest)[1..] == rest;
    } else {
      var c, later := s[0], s[1..];
      var tail := Escaped(later) + "\"" + rest;
      assert s == [c] + later;
      EscapedCons(c, later);
      LiteralText(Escape(c), Escaped(later), rest);
      CharReadBack(c, tail);
      EscapeNotEmpty(c, tail);
      CharsReadBack(later, rest);
      ReadOneMore(Escape(c) + tail, c, tail, later, rest);
    }
  }

  lemma LiteralText(first: string, later: string, rest: string)
    ensures (first + later) + "\"" + rest == first + (later + "\"" + rest)
  {
  }

  lemma ReadOneMore(s: string, c: char, tail: string, later: string, rest: string)
    requires s != "" && s[0] != '"' && ReadChar(s) == Got(c, tail) && ReadChars(tail) == Got(later, rest)
    ensures ReadChars(s) == Got([c] + later, rest)
  {
  }

  // ---- numbers round trip ----

  predicate AllDigits(s: string) {
    forall i :: 0 <= i < |s| ==> Digit(s[i])
  }

  lemma {:induction false} DecimalIsDigits(n: nat)
    ensures AllDigits(Decimal(n)) && Decimal(n) != ""
  {
    if n >= 10 {
      DecimalIsDigits(n / 10);
    }
  }

  lemma {:induction false} DigitsLengthOf(digits: string, rest: string)
    requires AllDigits(digits) && (rest != "" ==> !Digit(rest[0]))
    ensures DigitsLength(digits + rest) == |digits|
  {
    if digits == "" {
      assert digits + rest == rest;
    } else {
      assert (digits + rest)[1..] == digits[1..] + rest;
      DigitsLengthOf(digits[1..], rest);
    }
  }

  lemma SignedReadBack(sign: string, digits: string, n: int, rest: string)
    requires (sign == "" || sign == "-") && digits != "" && AllDigits(digits) && (rest != "" ==> !Digit(rest[0]))
    requires ParseInt(sign + digits) == Some(n)
    ensures ReadNumber(sign + digits + rest) == Got(n, rest)
  {
    var s := sign + digits + rest;
    DigitsLengthOf(digits, rest);
    assert Digit(digits[0]);
    assert s[|sign|..] == digits + rest;
    assert s[..|sign| + |digits|] == sign + digits && s[|sign| + |digits|..] == rest;
  }

  lemma NumberStarts(n: int)
    ensures IntText(n) != "" && (Digit(IntText(n)[0]) || IntText(n)[0] == '-')
  {
    DecimalIsDigits(if n < 0 then -n else n);
  }

  lemma NumberReadBack(n: int, rest: string)
    requires rest != "" ==> !Digit(rest[0])
    ensures ReadNumber(IntText(n) + rest) == Got(n, rest)
  {
    IntRoundTrip(n);
    var sign, digits := if n < 0 then "-" else "", Decimal(if n < 0 then -n else n);
    DecimalIsDigits(if n < 0 then -n else n);
    SignOf(n, sign, digits);
    SignedReadBack(sign, digits, n, rest);
  }

  lemma SignOf(n: int, sign: string, digits: string)
    requires sign == if n < 0 then "-" else ""
    requires digits == Decimal(if n < 0 then -n else n)
    ensures IntText(n) == sign + digits
  {
    assert "" + digits == digits;
  }

  // ---- values round trip ----

  /** What can come after a value: nothing, or a separator or closing bracket. */
  predicate Delimited(rest: string) {
    rest == "" || rest[0] == ',' || rest[0] == ']' || rest[0] == '}'
  }

  lemma DumpStarts(j: Json)
    ensures Dumps(j) != "" && Dumps(j)[0] != ']' && Dumps(j)[0] != '}'
  {
    if j.Number? {
      NumberStarts(j.n);
    }
  }

  lemma {:induction false} ValueReadBack(j: Json, rest: string)
    requires Delimited(rest)
    ensures ReadValue(Dumps(j) + rest) == Got(j, rest)
    decreases j, 0
  {
    match j
    case Null => WordReadBack(j, rest);
    case Bool(_) => WordReadBack(j, rest);
    case Number(n) => NumberValueReadBack(n, rest);
    case Text(s) => TextReadBack(s, rest);
    case Array(items) =>
      if items == [] {
        EmptyReadBack(j, rest);
      } else {
        ItemsReadBack(items, rest);
        ArrayReadBack(items, rest);
      }
    case Object(members) =>
      if members == [] {
        EmptyReadBack(j, rest);
      } else {
        MembersReadBack(members, rest);
        ObjectReadBack(members, rest);
      }
  }

  lemma WordReadBack(j: Json, rest: string)
    requires j.Null? || j.Bool?
    ensures ReadValue(Dumps(j) + rest) == Got(j, rest)
  {
    var s := Dumps(j) + rest;
    assert s[..|Dumps(j)|] == Dumps(j) && s[|Dumps(j)|..] == rest;
  }

  lemma NumberValueReadBack(n: int, rest: string)
    requires Delimited(rest)
    ensures ReadValue(Dumps(Number(n)) + rest) == Got(Number(n), rest)
  {
    NumberReadBack(n, rest);
    NumberStarts(n);
    assert (IntText(n) + rest)[0] == IntText(n)[0];
  }

  lemma TextReadBack(s: string, rest: string)
    ensures ReadValue(Quoted(s) + rest) == Got(Text(s), rest)
  {
    CharsReadBack(s, rest);
    QuotedText(s, rest);
    ReadText(Escaped(s) + "\"" + rest, s, rest);
  }

  lemma QuotedText(s: string, rest: string)
    ensures Quoted(s) + rest == "\"" + (Escaped(s) + "\"" + rest)
  {
  }

  lemma ReadText(body: string, text: string, rest: string)
    requires ReadChars(body) == Got(text, rest)
    ensures ReadValue("\"" + body) == Got(Text(text), rest)
  {
    var s := "\"" + body;
    assert s[1..] == body && s[0] == '"';
  }

  lemma EmptyReadBack(j: Json, rest: string)
    requires j == Array([]) || j == Object([])
    ensures ReadValue(Dumps(j) + rest) == Got(j, rest)
  {
    var s := Dumps(j) + rest;
    assert Dumps(j) == (if j.Array? then "[]" else "{}");
    assert s[..2] == Dumps(j) && s[2..] == rest;
  }

  lemma ArrayReadBack(items: seq<Json>, rest: string)
    requires items != [] && ReadItems(DumpItems(items) + "]" + rest) == Got(items, rest)
    ensures ReadValue(Dumps(Array(items)) + rest) == Got(Array(items), rest)
  {
    var body := DumpItems(items) + "]" + rest;
    DumpStarts(items[0]);
    assert body[0] == Dumps(items[0])[0];
    Bracketed("[", DumpItems(items), "]", rest);
    ReadArray(body, items, rest);
  }

  lemma Bracketed(open: string, text: string, close: string, rest: string)
    ensures (open + text + close) + rest == open + (text + close + rest)
  {
  }

  lemma ReadArray(body: string, items: seq<Json>, rest: string)
    requires ReadItems(body) == Got(items, rest) && body != "" && body[0] != ']'
    ensures ReadValue("[" + body) == Got(Array(items), rest)
  {
    var s := "[" + body;
    assert s[1..] == body;
    ReadArrayAt(s, items, rest);
  }

  lemma ReadArrayAt(s: string, items: seq<Json>, rest: string)
    requires |s| > 1 && s[0] == '[' && s[1] != ']' && ReadItems(s[1..]) == Got(items, rest)
    ensures ReadValue(s) == Got(Array(items), rest)
  {
  }

  lemma ObjectReadBack(members: seq<Member>, rest: string)
    requires members != [] && ReadMembers(DumpMembers(members) + "}" + rest) == Got(members, rest)
    ensures ReadValue(Dumps(Object(members)) + rest) == Got(Object(members), rest)
  {
    var body := DumpMembers(members) + "}" + rest;
    assert DumpMembers(members)[0] == '"';
    assert body[0] == '"';
    Bracketed("{", DumpMembers(members), "}", rest);
    ReadObject(body, members, rest);
  }

  lemma ReadObject(body: string, members: seq<Member>, rest: string)
    requires ReadMembers(body) == Got(members, rest) && body != "" && body[0] != '}'
    ensures ReadValue("{" + body) == Got(Object(members), rest)
  {
    var s := "{" + body;
    assert s[1..] == body;
    ReadObjectAt(s, members, rest);
  }

  lemma ReadObjectAt(s: string, members: seq<Member>, rest: string)
    requires |s| > 1 && s[0] == '{' && s[1] != '}' && ReadMembers(s[1..]) == Got(members, rest)
    ensures ReadValue(s) == Got(Object(members), rest)
  {
  }

  lemma LastItem(s: string, item: Json, rest: string)
    requires ReadValue(s) == Got(item, "]" + rest)
    ensures ReadItems(s) == Got([item], rest)
  {
    assert ("]" + rest)[1..] == rest;
  }

  lemma NextItem(s: string, item: Json, more: string, items: seq<Json>, rest: string)
    requires ReadValue(s) == Got(item, "," + more) && ReadItems(more) == Got(items, rest)
    ensures ReadItems(s) == Got([item] + items, rest)
  {
    assert ("," + more)[1..] == more;
  }

  lemma {:induction false} ItemsReadBack(items: seq<Json>, rest: string)
    requires items != []
    ensures ReadItems(DumpItems(items) + "]" + rest) == Got(items, rest)
    decreases items, 1
  {
    var first, later := items[0], items[1..];
    if later == [] {
      ValueReadBack(first, "]" + rest);
      Regroup(Dumps(first), "]", rest);
      LastItem(Dumps(first) + ("]" + rest), first, rest);
      assert items == [first];
    } else {
      var more := DumpItems(later) + "]" + rest;
      ValueReadBack(first, "," + more);
      ItemsReadBack(later, rest);
      Listed(Dumps(first), DumpItems(later), "]", rest);
      NextItem(Dumps(first) + ("," + more), first, more, later, rest);
      assert items == [first] + later;
    }
  }

  lemma Listed(first: string, later: string, close: string, rest: string)
    ensures (first + "," + later) + close + rest == first + ("," + (later + close + rest))
  {
  }

  lemma {:induction false} MemberReadBack(m: Member, rest: string)
    requires Delimited(rest)
    ensures ReadMember(Quoted(m.key) + ":" + Dumps(m.value) + rest) == Got(m, rest)
    decreases m, 0
  {
    var value := Dumps(m.value) + rest;
    CharsReadBack(m.key, ":" + value);
    ValueReadBack(m.value, rest);
    KeyAndValue(m.key, Dumps(m.value), rest);
    ReadKeyed(Escaped(m.key) + "\"" + (":" + value), m, value, rest);
  }

  lemma KeyAndValue(key: string, value: string, rest: string)
    ensures Quoted(key) + ":" + value + rest == "\"" + (Escaped(key) + "\"" + (":" + (value + rest)))
  {
  }

  lemma ReadKeyed(s: string, m: Member, value: string, rest: string)
    requires ReadChars(s) == Got(m.key, ":" + value) && ReadValue(value) == Got(m.value, rest)
    ensures ReadMember("\"" + s) == Got(m, rest)
  {
    assert ("\"" + s)[1..] == s && (":" + value)[1..] == value;
  }

  lemma LastMember(s: string, member: Member, rest: string)
    requires ReadMember(s) == Got(member, "}" + rest)
    ensures ReadMembers(s) == Got([member], rest)
  {
    assert ("}" + rest)[1..] == rest;
  }

  lemma NextMember(s: string, member: Member, more: string, members: seq<Member>, rest: string)
    requires ReadMember(s) == Got(member, "," + more) && ReadMembers(more) == Got(members, rest)
    ensures ReadMembers(s) == Got([member] + members, rest)
  {
    assert ("," + more)[1..] == more;
  }

  lemma {:induction false} MembersReadBack(members: seq<Member>, rest: string)
    requires members != []
    ensures ReadMembers(DumpMembers(members) + "}" + rest) == Got(members, rest)
    decreases members, 1
  {
    var first, later := members[0], members[1..];
    var text := Quoted(first.key) + ":" + Dumps(first.value);
    if later == [] {
      MemberReadBack(first, "}" + rest);
      Regroup(text, "}", rest);
      LastMember(text + ("}" + rest), first, rest);
      assert members == [first];
    } else {
      var more := DumpMembers(later) + "}" + rest;
      MemberReadBack(first, "," + more);
      MembersReadBack(later, rest);
      Listed(text, DumpMembers(later), "}", rest);
      NextMember(text + ("," + more), first, more, later, rest);
      assert members == [first] + later;
    }
  }

  /** Reading the printed JSON gives the value back, and nothing is left over. */
  lemma DumpsReadBack(j: Json)
    ensures ReadValue(Dumps(j)) == Got(j, "")
  {
    ValueReadBack(j, "");
    assert Dumps(j) + "" == Dumps(j);
  }

  /** What the client reads out of the stream's messages is what the server put into its events: the
      type, the number, the node and the payload, in order. */
  lemma StreamReadBack(frames: seq<Frame>)
    ensures var m := Parse(PrintAll(frames)).1; var events := Events(frames);
            && |m| == |events|
            && forall i :: 0 <= i < |m| ==> ReadValue(m[i].data) == Got(Data(events[i]), "")
  {
    ParsePrintAll(frames);
    MessagesReadBack(frames);
  }

  lemma {:induction false} MessagesReadBack(frames: seq<Frame>)
    ensures |Messages(frames)| == |Events(frames)|
    ensures forall i :: 0 <= i < |Events(frames)| ==> ReadValue(Messages(frames)[i].data) == Got(Data(Events(frames)[i]), "")
  {
    if frames != [] {
      MessagesReadBack(frames[1..]);
      if frames[0].EventFrame? {
        DumpsReadBack(Data(frames[0]));
      }
    }
  }
}
