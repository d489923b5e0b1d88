/** RequestHashV1 (internal/storage/sqlite/submit.go): the bytes a submission is identified by.
    A digest is represented by its preimage, so it is collision free. */
module RequestHash {
  import opened Options
  import opened Text

  type Byte = b: int | 0 <= b < 256

  type Digest = seq<Byte>

  // ---- UTF-8 ------------------------------------------------------------------

  function Utf8(c: char): (b: seq<Byte>)
    ensures |b| == Utf8Width(c)
  {
    var n := c as int;
    if n < 0x80 then [n]
    else if n < 0x800 then [0xC0 + n / 0x40, 0x80 + n % 0x40]
    else if n < 0x10000 then [0xE0 + n / 0x1000, 0x80 + n / 0x40 % 0x40, 0x80 + n % 0x40]
    else
      assert n < 0x110000;
      [0xF0 + n / 0x40000, 0x80 + n / 0x1000 % 0x40, 0x80 + n / 0x40 % 0x40, 0x80 + n % 0x40]
  }

  function Encode(s: string): (b: seq<Byte>)
    ensures |b| == ByteLen(s)
  {
    if s == [] then [] else Utf8(s[0]) + Encode(s[1..])
  }

  lemma Utf8Decodes(c: char, d: char)
    requires |Utf8(c)| == |Utf8(d)| && Utf8(c) == Utf8(d)
    ensures c == d
  {
    var m, n := c as int, d as int;
    if |Utf8(c)| == 1 {
      assert Utf8(c)[0] == m && Utf8(d)[0] == n;
    } else {
      Sextets(m);
      Sextets(n);
      assert forall i :: 0 <= i < |Utf8(c)| ==> Utf8(c)[i] == Utf8(d)[i];
    }
  }

  lemma Sextets(n: nat)
    ensures n == n / 0x40 * 0x40 + n % 0x40
    ensures n == n / 0x1000 * 0x1000 + n / 0x40 % 0x40 * 0x40 + n % 0x40
    ensures n == n / 0x40000 * 0x40000 + n / 0x1000 % 0x40 * 0x1000 + n / 0x40 % 0x40 * 0x40 + n % 0x40
  {
    assert n / 0x40 / 0x40 == n / 0x1000 && n / 0x1000 / 0x40 == n / 0x40000;
  }

  /** The first byte tells the width, so no code point's bytes begin another's. */
  lemma Utf8SelfDelimiting(c: char, d: char, x: seq<Byte>, y: seq<Byte>)
    requires Utf8(c) + x == Utf8(d) + y
    ensures c == d && x == y
  {
    assert (Utf8(c) + x)[0] == Utf8(c)[0] && (Utf8(d) + y)[0] == Utf8(d)[0];
    LeadByte(c);
    LeadByte(d);
    var w := Utf8Width(c);
    assert w == Utf8Width(d);
    assert Utf8(c) == (Utf8(c) + x)[..w] && Utf8(d) == (Utf8(d) + y)[..w];
    assert x == (Utf8(c) + x)[w..] && y == (Utf8(d) + y)[w..];
    Utf8Decodes(c, d);
  }

  lemma LeadByte(c: char)
    ensures Utf8Width(c) == 1 <==> Utf8(c)[0] < 0xC0
    ensures Utf8Width(c) == 2 <==> 0xC0 <= Utf8(c)[0] < 0xE0
    ensures Utf8Width(c) == 3 <==> 0xE0 <= Utf8(c)[0] < 0xF0
  {
  }

  lemma {:induction false} EncodeInjective(s: string, t: string)
    requires Encode(s) == Encode(t)
    ensures s == t
  {
    if s == [] || t == [] {
      assert |s| <= ByteLen(s) && |t| <= ByteLen(t);
    } else {
      Utf8SelfDelimiting(s[0], t[0], Encode(s[1..]), Encode(t[1..]));
      EncodeInjective(s[1..], t[1..]);
      assert s == [s[0]] + s[1..] && t == [t[0]] + t[1..];
    }
  }

  /** Each ASCII character is its own byte. */
  lemma {:induction false} AsciiIsBytes(s: string)
    requires forall c :: c in s ==> c < '\U{80}'
    ensures |Encode(s)| == |s| && forall i :: 0 <= i < |s| ==> Encode(s)[i] == s[i] as int
  {
    if s != [] {
      assert s[0] in s && forall c :: c in s[1..] ==> c in s;
      AsciiIsBytes(s[1..]);
      assert Encode(s) == [s[0] as int] + Encode(s[1..]);
    }
  }

  // ---- The hashed buffer --------------------------------------------------------

  const COLON: Byte := 58
  const NEWLINE: Byte := 10
  const VERSION_LABEL := "normalization_version="
  const NORMALIZATION_VERSION: nat := 1

  /** A length-prefixed field. */
  function Field(s: string): seq<Byte>
  {
    Encode(Itoa(ByteLen(s))) + ([COLON] + Encode(s))
  }

  function Header(name: string, version: nat): seq<Byte>
  {
    Encode(name) + Encode(Itoa(version)) + [NEWLINE]
  }

  /** Fields separated by line ends. */
  function Fields(fs: seq<string>): seq<Byte>
  {
    if fs == [] then []
    else if |fs| == 1 then Field(fs[0])
    else Field(fs[0]) + ([NEWLINE] + Fields(fs[1..]))
  }

  function Buffer(project: string, title: string, content: string): seq<Byte>
  {
    Header(VERSION_LABEL, NORMALIZATION_VERSION) + Fields([project, title, content])
  }

  datatype EmptyField = EmptyProject | EmptyTitle | EmptyContent

  method RequestHashV1(project: string, title: string, content: string) returns (r: Result<Digest, EmptyField>)
    ensures r == if project == "" then Err(EmptyProject)
                 else if title == "" then Err(EmptyTitle)
                 else if content == "" then Err(EmptyContent)
                 else Ok(Buffer(project, title, content))
  {
    if |project| == 0 {
      return Err(EmptyProject);
    }
    if |title| == 0 {
      return Err(EmptyTitle);
    }
    if |content| == 0 {
      return Err(EmptyContent);
    }
    var buf := Encode(VERSION_LABEL) + Encode(Itoa(NORMALIZATION_VERSION));
    buf := buf + [NEWLINE];
    buf := WriteField(buf, project);
    buf := buf + [NEWLINE];
    buf := WriteField(buf, title);
    buf := buf + [NEWLINE];
    buf := WriteField(buf, content);
    ThreeFields(Header(VERSION_LABEL, NORMALIZATION_VERSION), project, title, content);
    return Ok(buf);
  }

  method WriteField(buf: seq<Byte>, s: string) returns (out: seq<Byte>)
    ensures out == buf + Field(s)
  {
    out := buf + Encode(Itoa(ByteLen(s)));
    out := out + [COLON];
    out := out + Encode(s);
  }

  lemma ThreeFields(h: seq<Byte>, a: string, b: string, c: string)
    ensures h + Fields([a, b, c]) == h + Field(a) + [NEWLINE] + Field(b) + [NEWLINE] + Field(c)
  {
    hide Field;
    assert [a, b, c][1..] == [b, c] && [b, c][1..] == [c];
    assert Fields([c]) == Field(c);
    assert Fields([b, c]) == Field(b) + ([NEWLINE] + Field(c));
    assert Fields([a, b, c]) == Field(a) + ([NEWLINE] + Fields([b, c]));
  }

  lemma {:induction false} EncodeAppend(s: string, t: string)
    ensures Encode(s + t) == Encode(s) + Encode(t)
  {
    if s == [] {
      assert s + t == t;
    } else {
      assert (s + t)[1..] == s[1..] + t;
      EncodeAppend(s[1..], t);
    }
  }

  function Sized(s: string): string
  {
    Itoa(ByteLen(s)) + ":" + s
  }

  lemma FieldIsText(s: string)
    ensures Field(s) == Encode(Sized(s))
  {
    hide Itoa, ByteLen;
    EncodeAppend(Itoa(ByteLen(s)), ":" + s);
    EncodeAppend(":", s);
    assert Itoa(ByteLen(s)) + ":" + s == Itoa(ByteLen(s)) + (":" + s);
    assert Encode(":") == [COLON];
  }

  /** The hashed text: a line with the version, then a line each for project, title and content after its length. */
  lemma BufferIsText(project: string, title: string, content: string)
    ensures Buffer(project, title, content)
         == Encode("normalization_version=" + "1" + "\n" + Sized(project) + "\n" + Sized(title) + "\n" + Sized(content))
  {
    hide Encode, Field, Sized;
    HeaderIsText();
    var a, b, c := Sized(project), Sized(title), Sized(content);
    FieldIsText(project);
    FieldIsText(title);
    FieldIsText(content);
    ThreeFields(Header(VERSION_LABEL, NORMALIZATION_VERSION), project, title, content);
    var h := "normalization_version=" + "1" + "\n";
    NewlineIsText();
    EncodeAppend(h, a);
    EncodeAppend(h + a, "\n");
    EncodeAppend(h + a + "\n", b);
    EncodeAppend(h + a + "\n" + b, "\n");
    EncodeAppend(h + a + "\n" + b + "\n", c);
  }

  lemma NewlineIsText()
    ensures Encode("\n") == [NEWLINE]
  {
  }

  lemma HeaderIsText()
    ensures Header(VERSION_LABEL, NORMALIZATION_VERSION) == Encode("normalization_version=" + "1" + "\n")
  {
    hide Encode;
    NewlineIsText();
    EncodeAppend("normalization_version=", "1");
    EncodeAppend("normalization_version=" + "1", "\n");
    assert Itoa(1) == "1";
  }

  // ---- No two requests share a buffer ----------------------------------------------

  lemma {:induction false} DigitsAreNotColons(s: string)
    requires forall c :: c in s ==> IsDigit(c)
    ensures COLON !in Encode(s)
  {
    if s != [] {
      assert s[0] in s;
      DigitsAreNotColons(s[1..]);
    }
  }

  lemma {:induction false} SplitAtColon(a: seq<Byte>, b: seq<Byte>, x: seq<Byte>, y: seq<Byte>)
    requires COLON !in a && COLON !in b && a + ([COLON] + x) == b + ([COLON] + y)
    ensures a == b && x == y
  {
    var s, t := a + ([COLON] + x), b + ([COLON] + y);
    assert s[0] == if a == [] then COLON else a[0];
    assert t[0] == if b == [] then COLON else b[0];
    if a == [] {
      assert x == s[1..] && y == t[1..];
    } else {
      assert s[1..] == a[1..] + ([COLON] + x) && t[1..] == b[1..] + ([COLON] + y);
      SplitAtColon(a[1..], b[1..], x, y);
      assert a == [a[0]] + a[1..] && b == [b[0]] + b[1..];
    }
  }

  /** A field can be read back whatever follows it. */
  lemma FieldSelfDelimiting(s: string, t: string, x: seq<Byte>, y: seq<Byte>)
    requires Field(s) + x == Field(t) + y
    ensures s == t && x == y
  {
    hide Encode, Itoa, ByteLen, Field;
    var a, b := Encode(Itoa(ByteLen(s))), Encode(Itoa(ByteLen(t)));
    DigitsAreNotColons(Itoa(ByteLen(s)));
    DigitsAreNotColons(Itoa(ByteLen(t)));
    FieldThen(s, x);
    FieldThen(t, y);
    SplitAtColon(a, b, Encode(s) + x, Encode(t) + y);
    EncodeInjective(Itoa(ByteLen(s)), Itoa(ByteLen(t)));
    ItoaInjective(ByteLen(s), ByteLen(t));
    SplitAt(Encode(s), Encode(t), x, y);
    EncodeInjective(s, t);
  }

  lemma FieldThen(s: string, x: seq<Byte>)
    ensures Field(s) + x == Encode(Itoa(ByteLen(s))) + ([COLON] + (Encode(s) + x))
  {
    hide Encode, Itoa, ByteLen;
  }

  lemma SplitAt(a: seq<Byte>, b: seq<Byte>, x: seq<Byte>, y: seq<Byte>)
    requires |a| == |b| && a + x == b + y
    ensures a == b && x == y
  {
    assert a == (a + x)[..|a|] && b == (b + y)[..|b|];
    assert x == (a + x)[|a|..] && y == (b + y)[|b|..];
  }

  lemma {:induction false} FieldsInjective(fs: seq<string>, gs: seq<string>)
    requires |fs| == |gs| && Fields(fs) == Fields(gs)
    ensures fs == gs
  {
    if fs != [] {
      var x := if |fs| == 1 then [] else [NEWLINE] + Fields(fs[1..]);
      var y := if |gs| == 1 then [] else [NEWLINE] + Fields(gs[1..]);
      assert Fields(fs) == Field(fs[0]) + x && Fields(gs) == Field(gs[0]) + y;
      FieldSelfDelimiting(fs[0], gs[0], x, y);
      if |fs| > 1 {
        SplitAt([NEWLINE], [NEWLINE], Fields(fs[1..]), Fields(gs[1..]));
        FieldsInjective(fs[1..], gs[1..]);
      }
      assert fs == [fs[0]] + fs[1..] && gs == [gs[0]] + gs[1..];
    }
  }

  /** Distinct submissions are hashed from distinct bytes. */
  lemma BufferInjective(p: string, t: string, c: string, p': string, t': string, c': string)
    requires Buffer(p, t, c) == Buffer(p', t', c')
    ensures p == p' && t == t' && c == c'
  {
    var h := Header(VERSION_LABEL, NORMALIZATION_VERSION);
    SplitAt(h, h, Fields([p, t, c]), Fields([p', t', c']));
    FieldsInjective([p, t, c], [p', t', c']);
    assert [p, t, c][0] == [p', t', c'][0] && [p, t, c][1] == [p', t', c'][1] && [p, t, c][2] == [p', t', c'][2];
  }
}
