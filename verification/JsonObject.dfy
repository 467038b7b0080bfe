/** JSON objects of texts and whole numbers, as json.dumps(..., ensure_ascii=False).encode("utf-8") writes them and as
    a JSON reader takes them (RFC 8259; RFC 3629 for the bytes), and that reading undoes writing. */
module JsonObject {
  import opened Wrappers
  import opened JsonText

  datatype Value = Whole(n: nat) | Quoted(s: string)

  datatype Member = Member(key: string, value: Value)

  // ------------------------------------------------------------------
  // Writing
  // ------------------------------------------------------------------

  function Digits(n: nat): string {
    if n < 10 then [HexDigit(n)] else Digits(n / 10) + [HexDigit(n % 10)]
  }

  function Shown(v: Value): string {
    match v
    case Whole(n) => Digits(n)
    case Quoted(s) => Dumps(s)
  }

  function DumpsMember(m: Member): string { Dumps(m.key) + ": " + Shown(m.value) }

  function DumpsMembers(ms: seq<Member>): string {
    if ms == [] then "" else DumpsMember(ms[0]) + DumpsMore(ms[1..])
  }

  function DumpsMore(ms: seq<Member>): string {
    if ms == [] then "" else ", " + DumpsMember(ms[0]) + DumpsMore(ms[1..])
  }

  function DumpsObject(ms: seq<Member>): string { "{" + DumpsMembers(ms) + "}" }

  // ------------------------------------------------------------------
  // Reading UTF-8
  // ------------------------------------------------------------------

  predicate IsScalar(n: int) { 0 <= n < 0xD800 || 0xE000 <= n < 0x11_0000 }

  predicate Continues(b: byte) { 0x80 <= b < 0xC0 }

  /** A character of at least `least`, the first its number of bytes is for. */
  function Scalar(n: int, least: int, size: nat): Option<(char, nat)> {
    if IsScalar(n) && n >= least then Some((n as char, size)) else None
  }

  function DecodeFirst(b: Bytes): Option<(char, nat)>
    requires b != []
  {
    var n := b[0] as int;
    if n < 0x80 then Some((n as char, 1))
    else if 0xC0 <= n < 0xE0 && |b| >= 2 && Continues(b[1]) then
      Scalar((n - 0xC0) * 64 + (b[1] as int - 0x80), 0x80, 2)
    else if 0xE0 <= n < 0xF0 && |b| >= 3 && Continues(b[1]) && Continues(b[2]) then
      Scalar((n - 0xE0) * 4096 + (b[1] as int - 0x80) * 64 + (b[2] as int - 0x80), 0x800, 3)
    else if 0xF0 <= n < 0xF8 && |b| >= 4 && Continues(b[1]) && Continues(b[2]) && Continues(b[3]) then
      Scalar((n - 0xF0) * 262144 + (b[1] as int - 0x80) * 4096 + (b[2] as int - 0x80) * 64 + (b[3] as int - 0x80),
             0x1_0000, 4)
    else None
  }

  lemma DecodeFirstSize(b: Bytes)
    requires b != [] && DecodeFirst(b).Some?
    ensures 1 <= DecodeFirst(b).value.1 <= |b|
  {
  }

  function Decode(b: Bytes): Option<string> {
    if b == [] then Some("") else
      match DecodeFirst(b)
      case None => None
      case Some((c, n)) =>
        DecodeFirstSize(b);
        match Decode(b[n..])
        case None => None
        case Some(s) => Some([c] + s)
  }

  lemma DecodesTwo(c: char, rest: Bytes)
    requires 0x80 <= c as int < 0x800
    ensures DecodeFirst(Utf8(c) + rest) == Some((c, 2))
  {
    var n := c as int;
    assert n == n / 64 * 64 + n % 64;
  }

  lemma DecodesThree(c: char, rest: Bytes)
    requires 0x800 <= c as int < 0x1_0000
    ensures DecodeFirst(Utf8(c) + rest) == Some((c, 3))
  {
    var n := c as int;
    assert n / 64 == n / 4096 * 64 + n / 64 % 64;
  }

  lemma DecodesFour(c: char, rest: Bytes)
    requires 0x1_0000 <= c as int
    ensures DecodeFirst(Utf8(c) + rest) == Some((c, 4))
  {
    var n := c as int;
    assert n / 64 == n / 4096 * 64 + n / 64 % 64 && n / 4096 == n / 262144 * 64 + n / 4096 % 64;
  }

  lemma DecodesChar(c: char, rest: Bytes)
    ensures DecodeFirst(Utf8(c) + rest) == Some((c, |Utf8(c)|))
  {
    var n := c as int;
    if 0x80 <= n < 0x800 {
      DecodesTwo(c, rest);
    } else if 0x800 <= n < 0x1_0000 {
      DecodesThree(c, rest);
    } else if 0x1_0000 <= n {
      DecodesFour(c, rest);
    }
  }

  lemma {:induction false} DecodeEncode(s: string)
    ensures Decode(Encode(s)) == Some(s)
  {
    if s != "" {
      var rest := Encode(s[1..]);
      DecodesChar(s[0], rest);
      assert (Utf8(s[0]) + rest)[|Utf8(s[0])|..] == rest;
      DecodeEncode(s[1..]);
      assert s == [s[0]] + s[1..];
    }
  }

  // ------------------------------------------------------------------
  // Reading JSON
  // ------------------------------------------------------------------

  predicate IsSpace(c: char) { c == ' ' || c == '\n' || c == '\r' || c == '\t' }

  function SkipSpace(t: string): (r: string)
    ensures |r| <= |t|
  {
    if t != "" && IsSpace(t[0]) then SkipSpace(t[1..]) else t
  }

  predicate IsDigit(c: char) { '0' <= c <= '9' }

  /** Digits as far as they go. */
  function ReadDigits(t: string, n: nat): (r: (nat, string))
    ensures |r.1| <= |t| && (t != "" && IsDigit(t[0]) ==> |r.1| < |t|)
  {
    if t != "" && IsDigit(t[0]) then ReadDigits(t[1..], 10 * n + (t[0] as int - '0' as int)) else (n, t)
  }

  function HexValue(c: char): Option<nat> {
    if IsDigit(c) then Some(c as int - '0' as int)
    else if 'a' <= c <= 'f' then Some(c as int - 'a' as int + 10)
    else if 'A' <= c <= 'F' then Some(c as int - 'A' as int + 10)
    else None
  }

  /** What follows a backslash. */
  function ReadEscape(t: string): (r: Option<(char, string)>)
    ensures r.Some? ==> |r.value.1| < |t|
  {
    if t == "" then None
    else if t[0] == '\"' then Some(('\"', t[1..]))
    else if t[0] == '\\' then Some(('\\', t[1..]))
    else if t[0] == '/' then Some(('/', t[1..]))
    else if t[0] == 'n' then Some(('\n', t[1..]))
    else if t[0] == 'r' then Some(('\r', t[1..]))
    else if t[0] == 't' then Some(('\t', t[1..]))
    else if t[0] == 'b' then Some((8 as char, t[1..]))
    else if t[0] == 'f' then Some((12 as char, t[1..]))
    else if t[0] == 'u' && |t| >= 5 then ReadUnicode(t[1..5], t[5..])
    else None
  }

  function ReadUnicode(hex: string, rest: string): (r: Option<(char, string)>)
    requires |hex| == 4
    ensures r.Some? ==> r.value.1 == rest
  {
    var a, b, c, d := HexValue(hex[0]), HexValue(hex[1]), HexValue(hex[2]), HexValue(hex[3]);
    if a.None? || b.None? || c.None? || d.None? then None else
      var n := a.value * 4096 + b.value * 256 + c.value * 16 + d.value;
      if IsScalar(n) then Some((n as char, rest)) else None
  }

  /** The rest of a text, after its opening quote, and what follows it. */
  function ReadText(t: string): (r: Option<(string, string)>)
    ensures r.Some? ==> |r.value.1| < |t|
  {
    if t == "" then None
    else if t[0] == '\"' then Some(("", t[1..]))
    else if t[0] == '\\' then
      match ReadEscape(t[1..])
      case None => None
      case Some((c, rest)) => Before(c, ReadText(rest))
    else if t[0] as int < 32 then None
    else Before(t[0], ReadText(t[1..]))
  }

  function Before(c: char, r: Option<(string, string)>): Option<(string, string)> {
    match r
    case None => None
    case Some((s, rest)) => Some(([c] + s, rest))
  }

  function ReadValue(t: string): (r: Option<(Value, string)>)
    ensures r.Some? ==> |r.value.1| < |t|
  {
    if t == "" then None
    else if t[0] == '\"' then
      match ReadText(t[1..])
      case None => None
      case Some((s, rest)) => Some((Quoted(s), rest))
    else if IsDigit(t[0]) then
      var (n, rest) := ReadDigits(t, 0);
      Some((Whole(n), rest))
    else None
  }

  /** One member, from its key's opening quote. */
  function ReadMember(t: string): (r: Option<(Member, string)>)
    ensures r.Some? ==> |r.value.1| < |t|
  {
    if t == "" || t[0] != '\"' then None else
      match ReadText(t[1..])
      case None => None
      case Some((key, afterKey)) =>
        var colon := SkipSpace(afterKey);
        if colon == "" || colon[0] != ':' then None else
          match ReadValue(SkipSpace(colon[1..]))
          case None => None
          case Some((value, rest)) => Some((Member(key, value), rest))
  }

  function ReadMembers(t: string): Option<seq<Member>>
    decreases |t|, 1
  {
    match ReadMember(t)
    case None => None
    case Some((m, rest)) =>
      match ReadMore(rest)
      case None => None
      case Some(ms) => Some([m] + ms)
  }

  /** After a member: the end of the object, or a comma and more members. */
  function ReadMore(t: string): Option<seq<Member>>
    decreases |t|, 0
  {
    var u := SkipSpace(t);
    if u == "" then None
    else if u[0] == '}' then if SkipSpace(u[1..]) == "" then Some([]) else None
    else if u[0] == ',' then
      var v := SkipSpace(u[1..]);
      ReadMembers(v)
    else None
  }

  function ReadObject(t: string): Option<seq<Member>> {
    var u := SkipSpace(t);
    if u == "" || u[0] != '{' then None else
      var v := SkipSpace(u[1..]);
      if v != "" && v[0] == '}' then ReadMore(v) else ReadMembers(v)
  }

  /** json.loads of a datagram. */
  function Loads(b: Bytes): Option<seq<Member>> {
    match Decode(b)
    case None => None
    case Some(t) => ReadObject(t)
  }

  /** The value under a name; the last one, if it is there twice. */
  function Lookup(ms: seq<Member>, key: string): Option<Value> {
    if ms == [] then None
    else if ms[|ms| - 1].key == key then Some(ms[|ms| - 1].value)
    else Lookup(ms[..|ms| - 1], key)
  }

  // ------------------------------------------------------------------
  // Reading undoes writing
  // ------------------------------------------------------------------

  lemma HexDigitRead(n: int)
    requires 0 <= n < 16
    ensures HexValue(HexDigit(n)) == Some(n) && (n < 10 ==> IsDigit(HexDigit(n)))
  {
  }

  lemma EscapeRead(c: char, rest: string)
    requires Escape(c)[0] == '\\'
    ensures ReadEscape(Escape(c)[1..] + rest) == Some((c, rest))
  {
    var t := Escape(c)[1..] + rest;
    if |Escape(c)| == 2 {
      assert t[1..] == rest;
    } else {
      var n := c as int;
      assert t == "u00" + [HexDigit(n / 16), HexDigit(n % 16)] + rest;
      UnicodeRead(n, rest);
    }
  }

  lemma UnicodeRead(n: int, rest: string)
    requires 0 <= n < 256
    ensures ReadEscape("u00" + [HexDigit(n / 16), HexDigit(n % 16)] + rest) == Some((n as char, rest))
  {
    HexEscape(HexDigit(n / 16), HexDigit(n % 16), rest);
    HexDigitRead(n / 16);
    HexDigitRead(n % 16);
    HexDigitRead(0);
  }

  lemma HexEscape(a: char, b: char, rest: string)
    ensures var t := "u00" + [a, b] + rest; t[0] == 'u' && t[1..5] == ['0', '0', a, b] && t[5..] == rest
  {
  }

  lemma CharRead(c: char, rest: string)
    ensures ReadText(Escape(c) + rest) == Before(c, ReadText(rest))
  {
    var t := Escape(c) + rest;
    if Escape(c)[0] == '\\' {
      EscapeRead(c, rest);
      assert t[1..] == Escape(c)[1..] + rest;
    } else {
      assert t[1..] == rest;
    }
  }

  lemma {:induction false} TextRead(s: string, rest: string)
    ensures ReadText(EscapeAll(s) + ("\"" + rest)) == Some((s, rest))
  {
    if s == "" {
      assert EscapeAll(s) + ("\"" + rest) == "\"" + rest && ("\"" + rest)[1..] == rest;
    } else {
      var after := EscapeAll(s[1..]) + ("\"" + rest);
      assert EscapeAll(s) + ("\"" + rest) == Escape(s[0]) + after;
      CharRead(s[0], after);
      TextRead(s[1..], rest);
      assert s == [s[0]] + s[1..];
    }
  }

  lemma DumpsRead(s: string, rest: string)
    ensures Dumps(s) + rest != "" && (Dumps(s) + rest)[0] == '\"'
    ensures ReadText((Dumps(s) + rest)[1..]) == Some((s, rest))
  {
    assert (Dumps(s) + rest)[1..] == EscapeAll(s) + ("\"" + rest);
    TextRead(s, rest);
  }

  lemma DigitRead(d: nat, rest: string, n: nat)
    requires d < 10
    ensures ReadDigits([HexDigit(d)] + rest, n) == ReadDigits(rest, 10 * n + d)
  {
    HexDigitRead(d);
    assert ([HexDigit(d)] + rest)[1..] == rest;
  }

  lemma {:induction false} DigitsRead(n: nat, rest: string)
    ensures Digits(n) != "" && IsDigit(Digits(n)[0])
    ensures ReadDigits(Digits(n) + rest, 0) == ReadDigits(rest, n)
  {
    HexDigitRead(n % 10);
    if n < 10 {
      DigitRead(n, rest, 0);
    } else {
      var last := [HexDigit(n % 10)] + rest;
      DigitsRead(n / 10, last);
      DigitRead(n % 10, rest, n / 10);
      Joined(Digits(n / 10), [HexDigit(n % 10)], rest);
    }
  }

  /** What may follow a value. */
  predicate Ends(t: string) { t != "" && (t[0] == ',' || t[0] == '}') }

  lemma ValueRead(v: Value, rest: string)
    requires Ends(rest)
    ensures Shown(v) != "" && !IsSpace(Shown(v)[0])
    ensures ReadValue(Shown(v) + rest) == Some((v, rest))
  {
    match v
    case Whole(n) => DigitsRead(n, rest);
    case Quoted(s) => DumpsRead(s, rest);
  }

  lemma SkipNothing(t: string)
    requires t == "" || !IsSpace(t[0])
    ensures SkipSpace(t) == t
  {
  }

  lemma SkipOne(t: string)
    ensures SkipSpace(" " + t) == SkipSpace(t)
  {
    assert (" " + t)[1..] == t;
  }

  lemma AfterFirst(c: char, t: string)
    ensures ([c] + t)[0] == c && ([c] + t)[1..] == t
  {
  }

  lemma ColonRead(value: string)
    requires value != "" && !IsSpace(value[0])
    ensures var colon := ": " + value;
            SkipSpace(colon) == colon && colon[0] == ':' && SkipSpace(colon[1..]) == value
  {
    var colon := ": " + value;
    assert colon == [':'] + (" " + value);
    AfterFirst(':', " " + value);
    SkipNothing(colon);
    SkipOne(value);
    SkipNothing(value);
  }

  lemma MemberFrom(t: string, key: string, shown: string, value: Value, rest: string)
    requires t != "" && t[0] == '\"' && ReadText(t[1..]) == Some((key, ": " + shown))
    requires shown != "" && !IsSpace(shown[0]) && ReadValue(shown) == Some((value, rest))
    ensures ReadMember(t) == Some((Member(key, value), rest))
  {
    ColonRead(shown);
  }

  lemma MemberRead(m: Member, rest: string)
    requires Ends(rest)
    ensures ReadMember(DumpsMember(m) + rest) == Some((m, rest))
  {
    var shown := Shown(m.value) + rest;
    var t := Dumps(m.key) + (": " + shown);
    DumpsRead(m.key, ": " + shown);
    ValueRead(m.value, rest);
    MemberFrom(t, m.key, shown, m.value, rest);
    Grouped(Dumps(m.key), Shown(m.value), rest);
  }

  lemma Grouped(a: string, b: string, c: string)
    ensures a + ": " + b + c == a + (": " + (b + c))
  {
  }

  lemma MemberStarts(m: Member, rest: string)
    ensures var t := DumpsMember(m) + rest; t != "" && t[0] == '\"'
  {
    assert Dumps(m.key)[0] == '\"';
  }

  lemma CommaRead(t: string)
    requires t != "" && t[0] == '\"'
    ensures ReadMore(", " + t) == ReadMembers(t)
  {
    assert ", " + t == [','] + (" " + t);
    AfterFirst(',', " " + t);
    SkipNothing(", " + t);
    SkipOne(t);
    SkipNothing(t);
  }

  /** One member and what is read after it. */
  lemma OneRead(m: Member, rest: string)
    requires Ends(rest) && ReadMore(rest).Some?
    ensures ReadMembers(DumpsMember(m) + rest) == Some([m] + ReadMore(rest).value)
  {
    MemberRead(m, rest);
  }

  lemma NextRead(m: Member, rest: string)
    requires Ends(rest) && ReadMore(rest).Some?
    ensures Ends(", " + (DumpsMember(m) + rest))
    ensures ReadMore(", " + (DumpsMember(m) + rest)) == Some([m] + ReadMore(rest).value)
  {
    MemberStarts(m, rest);
    CommaRead(DumpsMember(m) + rest);
    OneRead(m, rest);
  }

  lemma Regroup(a: string, b: string, c: string, d: string)
    ensures a + b + c + d == a + (b + (c + d))
  {
  }

  lemma Joined(a: string, b: string, c: string)
    ensures a + b + c == a + (b + c)
  {
  }

  lemma HeadFirst(ms: seq<Member>, more: seq<Member>)
    requires ms != []
    ensures [ms[0]] + (ms[1..] + more) == ms + more
  {
  }

  /** Whatever follows the members written is read after them. */
  lemma {:induction false} MoreRead(ms: seq<Member>, rest: string)
    requires Ends(rest) && ReadMore(rest).Some?
    ensures Ends(DumpsMore(ms) + rest) && ReadMore(DumpsMore(ms) + rest) == Some(ms + ReadMore(rest).value)
  {
    var more := ReadMore(rest).value;
    if ms == [] {
      assert DumpsMore(ms) + rest == rest && ms + more == more;
    } else {
      var t := DumpsMore(ms[1..]) + rest;
      MoreRead(ms[1..], rest);
      NextRead(ms[0], t);
      Regroup(", ", DumpsMember(ms[0]), DumpsMore(ms[1..]), rest);
      HeadFirst(ms, more);
    }
  }

  lemma MembersRead(ms: seq<Member>, rest: string)
    requires ms != [] && Ends(rest) && ReadMore(rest).Some?
    ensures var t := DumpsMembers(ms) + rest;
            t != "" && t[0] == '\"' && ReadMembers(t) == Some(ms + ReadMore(rest).value)
  {
    var more, after := ReadMore(rest).value, DumpsMore(ms[1..]) + rest;
    MoreRead(ms[1..], rest);
    OneRead(ms[0], after);
    MemberStarts(ms[0], after);
    Joined(DumpsMember(ms[0]), DumpsMore(ms[1..]), rest);
    HeadFirst(ms, more);
  }

  lemma BraceRead(t: string)
    requires t != "" && t[0] == '\"'
    ensures ReadObject("{" + t) == ReadMembers(t)
  {
    AfterFirst('{', t);
    SkipNothing("{" + t);
    SkipNothing(t);
  }

  /** An object is read as it was written, together with members put in before its closing brace. */
  lemma ObjectRead(ms: seq<Member>, rest: string)
    requires ms != [] && Ends(rest) && ReadMore(rest).Some?
    ensures ReadObject("{" + DumpsMembers(ms) + rest) == Some(ms + ReadMore(rest).value)
  {
    assert "{" + DumpsMembers(ms) + rest == "{" + (DumpsMembers(ms) + rest);
    MembersRead(ms, rest);
    BraceRead(DumpsMembers(ms) + rest);
  }

  lemma LoadsDumps(ms: seq<Member>)
    requires ms != []
    ensures Loads(Encode(DumpsObject(ms))) == Some(ms)
  {
    DecodeEncode(DumpsObject(ms));
    assert "}"[1..] == "" && SkipSpace("") == "";
    assert ReadMore("}") == Some([]);
    ObjectRead(ms, "}");
    assert ms + [] == ms;
  }
}
