/** JSON strings as json.dumps(..., ensure_ascii=False).encode("utf-8") writes them:
    RFC 8259 section 7 for the escapes, RFC 3629 section 3 for the bytes. */
module JsonText {
  newtype byte = b: int | 0 <= b < 256

  type Bytes = seq<byte>

  function Utf8(c: char): (b: Bytes)
    ensures |b| == Utf8Size(c)
  {
    var n := c as int;
    if n < 0x80 then [n as byte]
    else if n < 0x800 then [(0xC0 + n / 64) as byte, (0x80 + n % 64) as byte]
    else if n < 0x1_0000 then
      [(0xE0 + n / 4096) as byte, (0x80 + n / 64 % 64) as byte, (0x80 + n % 64) as byte]
    else
      [(0xF0 + n / 262144) as byte, (0x80 + n / 4096 % 64) as byte, (0x80 + n / 64 % 64) as byte,
       (0x80 + n % 64) as byte]
  }

  function Encode(s: string): Bytes {
    if s == "" then [] else Utf8(s[0]) + Encode(s[1..])
  }

  function Utf8Size(c: char): nat {
    var n := c as int;
    if n < 0x80 then 1 else if n < 0x800 then 2 else if n < 0x1_0000 then 3 else 4
  }

  /** The encoded size of a text, without the bytes. */
  function Size(s: string): nat {
    if s == "" then 0 else Utf8Size(s[0]) + Size(s[1..])
  }

  lemma {:induction false} EncodeSize(s: string)
    ensures |Encode(s)| == Size(s)
  {
    if s != "" {
      EncodeSize(s[1..]);
    }
  }

  lemma {:induction false} SizeConcat(a: string, b: string)
    ensures Size(a + b) == Size(a) + Size(b)
  {
    if a == "" {
      assert a + b == b;
    } else {
      assert (a + b)[1..] == a[1..] + b;
      SizeConcat(a[1..], b);
    }
  }

  function HexDigit(n: int): char
    requires 0 <= n < 16
  {
    "0123456789abcdef"[n]
  }

  /** One character inside a JSON string. */
  function Escape(c: char): string {
    if c == '\"' then "\\\""
    else if c == '\\' then "\\\\"
    else if c == '\n' then "\\n"
    else if c == '\r' then "\\r"
    else if c == '\t' then "\\t"
    else if c as int == 8 then "\\b"
    else if c as int == 12 then "\\f"
    else if c as int < 32 then "\\u00" + [HexDigit(c as int / 16), HexDigit(c as int % 16)]
    else [c]
  }

  function EscapeAll(s: string): string {
    if s == "" then "" else Escape(s[0]) + EscapeAll(s[1..])
  }

  function Dumps(s: string): string { "\"" + EscapeAll(s) + "\"" }

  /** Bytes one character takes: two for a short escape, six for another control character, otherwise its
      UTF-8 length. */
  function CharCost(c: char): (n: nat)
    ensures 1 <= n <= 6
  {
    var n := c as int;
    if c == '\"' || c == '\\' || n == 8 || n == 9 || n == 10 || n == 12 || n == 13 then 2
    else if n < 32 then 6
    else if n < 0x80 then 1 else if n < 0x800 then 2 else if n < 0x1_0000 then 3 else 4
  }

  function Cost(s: string): nat {
    if s == "" then 0 else CharCost(s[0]) + Cost(s[1..])
  }

  lemma {:induction false} EncodeConcat(a: string, b: string)
    ensures Encode(a + b) == Encode(a) + Encode(b)
  {
    if a == "" {
      assert a + b == b;
    } else {
      assert (a + b)[1..] == a[1..] + b;
      EncodeConcat(a[1..], b);
    }
  }

  lemma {:induction false} CostConcat(a: string, b: string)
    ensures Cost(a + b) == Cost(a) + Cost(b)
  {
    if a == "" {
      assert a + b == b;
    } else {
      assert (a + b)[1..] == a[1..] + b;
      CostConcat(a[1..], b);
    }
  }

  lemma {:induction false} AsciiSize(s: string)
    requires forall i :: 0 <= i < |s| ==> s[i] as int < 0x80
    ensures Size(s) == |s|
  {
    if s != "" {
      AsciiSize(s[1..]);
    }
  }

  lemma EscapeSize(c: char)
    ensures Size(Escape(c)) == CharCost(c)
  {
    var e := Escape(c);
    if c as int < 0x80 {
      AsciiSize(e);
    } else {
      assert e == [c] && e[1..] == "";
    }
  }

  lemma {:induction false} EscapeAllSize(s: string)
    ensures Size(EscapeAll(s)) == Cost(s)
  {
    if s != "" {
      SizeConcat(Escape(s[0]), EscapeAll(s[1..]));
      EscapeSize(s[0]);
      EscapeAllSize(s[1..]);
    }
  }

  /** The bytes json.dumps(s, ensure_ascii=False).encode("utf-8") has. */
  lemma DumpsSize(s: string)
    ensures Size(Dumps(s)) == |Encode(Dumps(s))| == Cost(s) + 2
  {
    AsciiSize("\"");
    SizeConcat("\"" + EscapeAll(s), "\"");
    SizeConcat("\"", EscapeAll(s));
    EscapeAllSize(s);
    EncodeSize(Dumps(s));
  }
}
