/** base64encode() and base64decode(), after section 4 of RFC 4648. */
module Base64 {
  import opened Division
  import opened Common

  type byte = x: int | 0 <= x < 256

  const UPPER := "ABCDEFGHIJKLMNOPQRSTUVWXYZ"
  const LOWER := "abcdefghijklmnopqrstuvwxyz"
  const DIGITS := "0123456789"
  const ALPHABET := UPPER + LOWER + DIGITS + "+/"

  // ----- digits -----

  function Digit(v: int): char
    requires 0 <= v < 64
  {
    if v < 26 then 'A' + v as char
    else if v < 52 then 'a' + (v - 26) as char
    else if v < 62 then '0' + (v - 52) as char
    else if v == 62 then '+' else '/'
  }

  /** The chain of comparisons in the decoder. */
  function Value(c: char): (r: Option<int>)
    ensures r.Some? ==> 0 <= r.value < 64 && Digit(r.value) == c && c != '='
    ensures r == None ==> forall v :: 0 <= v < 64 ==> Digit(v) != c
  {
    if 'A' <= c <= 'Z' then Some((c - 'A') as int)
    else if 'a' <= c <= 'z' then Some((c - 'a') as int + 26)
    else if '0' <= c <= '9' then Some((c - '0') as int + 52)
    else if c == '+' then Some(62)
    else if c == '/' then Some(63)
    else None
  }

  lemma DigitValue(v: int)
    requires 0 <= v < 64
    ensures Value(Digit(v)) == Some(v) && Digit(v) != '='
  {
  }

  lemma UpperAt(v: int)
    requires 0 <= v < 26
    ensures "ABCDEFGHIJKLMNOPQRSTUVWXYZ"[v] == 'A' + v as char
  {
  }

  lemma LowerAt(v: int)
    requires 0 <= v < 26
    ensures "abcdefghijklmnopqrstuvwxyz"[v] == 'a' + v as char
  {
  }

  lemma DigitAt(v: int)
    requires 0 <= v < 10
    ensures "0123456789"[v] == '0' + v as char
  {
  }

  /** The table of the encoder and the ranges of the decoder name the same digits. */
  lemma AlphabetIsDigits(v: int)
    requires 0 <= v < 64
    ensures |ALPHABET| == 64 && ALPHABET[v] == Digit(v)
  {
    if v < 26 { UpperAt(v); assert ALPHABET[v] == UPPER[v]; }
    else if v < 52 { LowerAt(v - 26); assert ALPHABET[v] == LOWER[v - 26]; }
    else if v < 62 { DigitAt(v - 52); assert ALPHABET[v] == DIGITS[v - 52]; }
  }

  // ----- encoding -----

  /** Four digits of a 24-bit number, the last `padding` of them replaced. */
  function Quad(packed: int, padding: int): (r: string)
    requires 0 <= packed < 0x100_0000 && 0 <= padding <= 2
    ensures |r| == 4
  {
    [Digit(packed / 0x4_0000), Digit(packed / 0x1000 % 64)]
    + (if padding == 2 then "==" else [Digit(packed / 64 % 64)] + if padding == 1 then "=" else [Digit(packed % 64)])
  }

  function Pack(b: seq<byte>): (r: int)
    requires 0 < |b| <= 3
    ensures 0 <= r < 0x100_0000
  {
    var b0: int, b1: int, b2: int := b[0], if |b| > 1 then b[1] else 0, if |b| > 2 then b[2] else 0;
    b0 * 0x1_0000 + b1 * 0x100 + b2
  }

  function Encode(data: seq<byte>): string {
    if data == [] then ""
    else
      var n := Min(3, |data|);
      Quad(Pack(data[..n]), 3 - n) + Encode(data[n..])
  }

  /** The 24 bits of three bytes, six at a time. */
  lemma SixBits(b0: byte, b1: byte, b2: byte)
    ensures var packed := Pack([b0, b1, b2]);
            && packed / 0x4_0000 == b0 / 4 && packed / 0x1000 % 64 == b0 % 4 * 16 + b1 / 16
            && packed / 64 % 64 == b1 % 16 * 4 + b2 / 64 && packed % 64 == b2 % 64
  {
    var packed := Pack([b0, b1, b2]);
    var x0: int, x1: int, x2: int, x3: int := b0 / 4, b0 % 4 * 16 + b1 / 16, b1 % 16 * 4 + b2 / 64, b2 % 64;
    assert packed == ((x0 * 64 + x1) * 64 + x2) * 64 + x3;
    QuotientIs(packed, (x0 * 64 + x1) * 64 + x2, x3, 64);
    QuotientIs((x0 * 64 + x1) * 64 + x2, x0 * 64 + x1, x2, 64);
    QuotientIs(packed, x0 * 64 + x1, x2 * 64 + x3, 0x1000);
    QuotientIs(x0 * 64 + x1, x0, x1, 64);
    QuotientIs(packed, x0, (x1 * 64 + x2) * 64 + x3, 0x4_0000);
  }

  /** The digits of a group, by the table. */
  lemma QuadByTable(b0: byte, b1: byte, b2: byte, padding: int)
    requires 0 <= padding <= 2
    ensures |ALPHABET| == 64
    ensures Quad(Pack([b0, b1, b2]), padding) ==
            [ALPHABET[b0 / 4], ALPHABET[b0 % 4 * 16 + b1 / 16],
             if padding == 2 then '=' else ALPHABET[b1 % 16 * 4 + b2 / 64],
             if padding > 0 then '=' else ALPHABET[b2 % 64]]
  {
    SixBits(b0, b1, b2);
    AlphabetIsDigits(b0 / 4);
    AlphabetIsDigits(b0 % 4 * 16 + b1 / 16);
    AlphabetIsDigits(b1 % 16 * 4 + b2 / 64);
    AlphabetIsDigits(b2 % 64);
  }

  lemma TheTable()
    ensures ALPHABET == "ABCDEFGHIJKLMNOPQRSTUVWXYZ" + "abcdefghijklmnopqrstuvwxyz" + "0123456789" + "+/"
  {
  }

  lemma FirstGroup(group: seq<byte>, data: seq<byte>)
    requires |group| == 3 || (0 < |group| < 3 && data == [])
    ensures Encode(group + data) == Quad(Pack(group), 3 - |group|) + Encode(data)
  {
    assert (group + data)[..|group|] == group && (group + data)[|group|..] == data;
  }

  /** Table 1 of RFC 4648 and its three cases: every six bits of the text become the character at that
      place of the table, and what is missing of the last group becomes padding. */
  lemma EncodesByTable(b0: byte, b1: byte, b2: byte, data: seq<byte>)
    ensures ALPHABET == "ABCDEFGHIJKLMNOPQRSTUVWXYZ" + "abcdefghijklmnopqrstuvwxyz" + "0123456789" + "+/"
    ensures |ALPHABET| == 64 && Encode([]) == ""
    ensures Encode([b0]) == [ALPHABET[b0 / 4], ALPHABET[b0 % 4 * 16], '=', '=']
    ensures Encode([b0, b1]) ==
            [ALPHABET[b0 / 4], ALPHABET[b0 % 4 * 16 + b1 / 16], ALPHABET[b1 % 16 * 4], '=']
    ensures Encode([b0, b1, b2] + data) ==
            [ALPHABET[b0 / 4], ALPHABET[b0 % 4 * 16 + b1 / 16], ALPHABET[b1 % 16 * 4 + b2 / 64], ALPHABET[b2 % 64]]
            + Encode(data)
  {
    hide Quad, ALPHABET;
    TheTable();
    QuadByTable(b0, 0, 0, 2);
    QuadByTable(b0, b1, 0, 1);
    QuadByTable(b0, b1, b2, 0);
    assert Encode([]) == "" && Pack([b0]) == Pack([b0, 0, 0]) && Pack([b0, b1]) == Pack([b0, b1, 0]);
    hide Encode, Pack;
    FirstGroup([b0], []);
    FirstGroup([b0, b1], []);
    FirstGroup([b0, b1, b2], data);
    assert [b0] + [] == [b0] && [b0, b1] + [] == [b0, b1];
  }

  // ----- decoding -----

  /** One pass over the characters of a group: padding so far and the bits so far. */
  function Gather(s: string, padding: nat, packed: nat): (r: Option<(nat, nat)>)
    decreases |s|
  {
    if s == "" then Some((padding, packed))
    else if s[0] == '=' then Gather(s[1..], padding + 1, packed * 64)
    else if padding > 0 || Value(s[0]) == None then None
    else Gather(s[1..], padding, packed * 64 + Value(s[0]).value)
  }

  function Unpack(packed: nat, padding: nat): (r: seq<byte>)
    ensures |r| == if padding == 2 then 1 else if padding == 0 then 3 else 2
  {
    [packed / 0x1_0000 % 256] +
    (if padding == 2 then [] else [packed / 0x100 % 256]) +
    if padding == 0 then [packed % 256] else []
  }

  /** None stands for the empty string that is returned for bad input. */
  function Parse(s: string): Option<seq<byte>>
    decreases |s|
  {
    if s == "" then Some([])
    else if |s| < 4 then None
    else
      var g := Gather(s[..4], 0, 0);
      if g == None || (g.value.0 > 0 && |s| > 4) || g.value.0 > 2 then None
      else
        var rest := Parse(s[4..]);
        if rest == None then None else Some(Unpack(g.value.1, g.value.0) + rest.value)
  }

  function Decode(s: string): seq<byte> {
    var r := Parse(s);
    if r.Some? then r.value else []
  }

  // ----- one group -----

  function Val(c: char): int { if Value(c).Some? then Value(c).value else 0 }

  predicate Letter(c: char) { Value(c).Some? }

  /** A group is four digits with at most two of them, at the end, replaced by '='. */
  predicate GroupForm(s: string, padding: nat)
    requires |s| == 4
  {
    && padding <= 2 && Letter(s[0]) && Letter(s[1])
    && (if padding == 2 then s[2] == '=' else Letter(s[2]))
    && (if padding >= 1 then s[3] == '=' else Letter(s[3]))
  }

  function Bits(s: string): int
    requires |s| == 4
  {
    Val(s[0]) * 0x4_0000 + Val(s[1]) * 0x1000 + Val(s[2]) * 64 + Val(s[3])
  }

  lemma GatherGroup(s: string)
    requires |s| == 4
    ensures forall p: nat :: p <= 2 ==> (Gather(s, 0, 0).Some? && Gather(s, 0, 0).value.0 == p <==> GroupForm(s, p))
    ensures Gather(s, 0, 0).Some? && Gather(s, 0, 0).value.0 <= 2 ==> Gather(s, 0, 0).value.1 == Bits(s)
  {
    var s1, s2, s3 := s[1..], s[2..], s[3..];
    assert s1[1..] == s2 && s2[1..] == s3 && s3[1..] == "";
    if Letter(s[0]) && Letter(s[1]) {
      var q := Val(s[0]) * 64 + Val(s[1]);
      assert Gather(s, 0, 0) == Gather(s1, 0, Val(s[0])) == Gather(s2, 0, q);
      GatherTail(s2, q);
    } else {
      GatherPadded(s1, 1, 0);
      GatherPadded(s2, 1, Val(s[0]) * 64);
    }
  }

  lemma GatherTail(s: string, q: nat)
    requires |s| == 2
    ensures Gather(s, 0, q) ==
      if Letter(s[0]) && Letter(s[1]) then Some((0, q * 4096 + Val(s[0]) * 64 + Val(s[1])))
      else if Letter(s[0]) && s[1] == '=' then Some((1, q * 4096 + Val(s[0]) * 64))
      else if s[0] == '=' && s[1] == '=' then Some((2, q * 4096))
      else None
  {
    assert s[1..] == [s[1]];
    GatherOne(s[1], 0, q * 64 + Val(s[0]));
    GatherOne(s[1], 1, q * 64);
  }

  lemma GatherOne(c: char, padding: nat, packed: nat)
    ensures Gather([c], padding, packed) ==
      if c == '=' then Some((padding + 1, packed * 64))
      else if padding > 0 || !Letter(c) then None
      else Some((padding, packed * 64 + Val(c)))
  {
    assert [c][1..] == "";
  }

  /** Once there is padding the rest must be padding. */
  lemma {:induction false} GatherPadded(s: string, padding: nat, packed: nat)
    ensures Gather(s, padding, packed).Some? ==> Gather(s, padding, packed).value.0 >= padding
    ensures padding > 0 && Gather(s, padding, packed).Some? ==> Gather(s, padding, packed).value.0 == padding + |s|
    decreases |s|
  {
    if s != "" {
      GatherPadded(s[1..], padding + 1, packed * 64);
      GatherPadded(s[1..], padding, packed * 64 + Val(s[0]));
    }
  }

  // ----- what is accepted -----

  /** Length a multiple of four, digits only, and at most two '=' at the very end. */
  predicate Form(s: string, padding: nat) {
    && |s| % 4 == 0 && padding <= 2 && padding <= |s|
    && (forall i :: 0 <= i < |s| - padding ==> Letter(s[i]))
    && (forall i :: |s| - padding <= i < |s| ==> s[i] == '=')
  }

  lemma FormHead(s: string, p: nat)
    requires |s| >= 4
    ensures |s| == 4 ==> (Form(s, p) <==> GroupForm(s, p))
    ensures |s| > 4 ==> (Form(s, p) <==> GroupForm(s[..4], 0) && Form(s[4..], p))
  {
    if |s| > 4 {
      if Form(s, p) {
        assert |s| >= 8;
        assert forall i :: 0 <= i < |s| - 4 ==> s[4..][i] == s[i + 4];
      }
      if GroupForm(s[..4], 0) && Form(s[4..], p) {
        assert forall i :: 0 <= i < 4 ==> s[i] == s[..4][i];
        forall i | 4 <= i < |s|
          ensures if i < |s| - p then Letter(s[i]) else s[i] == '='
        {
          assert s[i] == s[4..][i - 4];
        }
      }
    }
  }

  /** The decoder accepts exactly the strings of that form. */
  lemma {:induction false} ParseAcceptsIff(s: string)
    ensures Parse(s).Some? <==> exists p :: Form(s, p)
    ensures Parse(s).Some? ==> |Parse(s).value| * 4 <= |s| * 3 && (s != "" ==> Parse(s).value != [])
    decreases |s|
  {
    if s == "" {
      assert Form(s, 0);
    } else if |s| >= 4 {
      GatherGroup(s[..4]);
      forall p
        ensures Form(s, p) <==> if |s| == 4 then GroupForm(s[..4], p) else GroupForm(s[..4], 0) && Form(s[4..], p)
      {
        FormHead(s, p);
        if |s| == 4 { assert s[..4] == s; }
      }
      ParseAcceptsIff(s[4..]);
      if |s| == 4 {
        assert s[4..] == "";
        if Parse(s).Some? {
          var p := Gather(s[..4], 0, 0).value.0;
          assert GroupForm(s[..4], p) && Form(s, p);
        }
      } else {
        assert Gather(s[..4], 0, 0).Some? && Gather(s[..4], 0, 0).value.0 == 0 <==> GroupForm(s[..4], 0);
        if Parse(s).Some? {
          var p :| Form(s[4..], p);
          assert Form(s, p);
        }
      }
    }
  }

  /** A non-empty result means a well-formed non-empty input, and the other way round. */
  lemma DecodeNonEmptyIff(s: string)
    ensures Decode(s) != [] <==> s != "" && exists p :: Form(s, p)
  {
    ParseAcceptsIff(s);
  }

  // ----- round trips -----

  lemma PackDigits(packed: int)
    requires 0 <= packed < 0x100_0000
    ensures 0 <= packed / 0x4_0000 < 64
    ensures packed / 0x4_0000 * 0x4_0000 + packed / 0x1000 % 64 * 0x1000 + packed / 64 % 64 * 64 + packed % 64 == packed
  {
  }

  lemma BytesOf(b0: int, b1: int, b2: int, packed: int)
    requires 0 <= b0 < 256 && 0 <= b1 < 256 && 0 <= b2 < 256 && packed == b0 * 0x1_0000 + b1 * 0x100 + b2
    ensures packed / 0x1_0000 % 256 == b0 && packed / 0x100 % 256 == b1 && packed % 256 == b2
    ensures b2 == 0 ==> packed % 64 == 0
    ensures b2 == 0 && b1 == 0 ==> packed / 64 % 64 == 0
  {
  }

  lemma PackBytes(b: seq<byte>)
    requires 0 < |b| <= 3
    ensures Unpack(Pack(b), 3 - |b|) == b
    ensures |b| <= 2 ==> Pack(b) % 64 == 0
    ensures |b| == 1 ==> Pack(b) / 64 % 64 == 0
  {
    BytesOf(b[0], if |b| > 1 then b[1] else 0, if |b| > 2 then b[2] else 0, Pack(b));
  }

  lemma DigitsOf(v0: int, v1: int, v2: int, v3: int, packed: int)
    requires 0 <= v0 < 64 && 0 <= v1 < 64 && 0 <= v2 < 64 && 0 <= v3 < 64
    requires packed == v0 * 0x4_0000 + v1 * 0x1000 + v2 * 64 + v3
    ensures 0 <= packed < 0x100_0000
    ensures packed / 0x4_0000 == v0 && packed / 0x1000 % 64 == v1 && packed / 64 % 64 == v2 && packed % 64 == v3
  {
    QuotientIs(packed, v0, v1 * 0x1000 + v2 * 64 + v3, 0x4_0000);
    QuotientIs(packed, v0 * 64 + v1, v2 * 64 + v3, 0x1000);
    QuotientIs(packed, v0 * 0x1000 + v1 * 64 + v2, v3, 64);
    QuotientIs(v0 * 64 + v1, v0, v1, 64);
    QuotientIs(v0 * 0x1000 + v1 * 64 + v2, v0 * 64 + v1, v2, 64);
  }

  function Spell(v0: int, v1: int, v2: int, v3: int, padding: nat): string
    requires 0 <= v0 < 64 && 0 <= v1 < 64 && 0 <= v2 < 64 && 0 <= v3 < 64
  {
    [Digit(v0), Digit(v1), if padding == 2 then '=' else Digit(v2), if padding >= 1 then '=' else Digit(v3)]
  }

  lemma QuadSpells(v0: int, v1: int, v2: int, v3: int, packed: int, padding: nat)
    requires 0 <= v0 < 64 && 0 <= v1 < 64 && 0 <= v2 < 64 && 0 <= v3 < 64 && padding <= 2
    requires packed == v0 * 0x4_0000 + v1 * 0x1000 + v2 * 64 + v3
    ensures 0 <= packed < 0x100_0000 && Quad(packed, padding) == Spell(v0, v1, v2, v3, padding)
  {
    DigitsOf(v0, v1, v2, v3, packed);
  }

  lemma SpelledGroup(v0: int, v1: int, v2: int, v3: int, padding: nat)
    requires 0 <= v0 < 64 && 0 <= v1 < 64 && 0 <= v2 < 64 && 0 <= v3 < 64 && padding <= 2
    requires (padding >= 1 ==> v3 == 0) && (padding == 2 ==> v2 == 0)
    ensures GroupForm(Spell(v0, v1, v2, v3, padding), padding)
    ensures Bits(Spell(v0, v1, v2, v3, padding)) == v0 * 0x4_0000 + v1 * 0x1000 + v2 * 64 + v3
  {
    DigitValue(v0);
    DigitValue(v1);
    DigitValue(v2);
    DigitValue(v3);
  }

  lemma QuadGroup(packed: int, padding: nat)
    requires 0 <= packed < 0x100_0000 && padding <= 2
    requires (padding >= 1 ==> packed % 64 == 0) && (padding == 2 ==> packed / 64 % 64 == 0)
    ensures GroupForm(Quad(packed, padding), padding) && Bits(Quad(packed, padding)) == packed
  {
    PackDigits(packed);
    QuadSpells(packed / 0x4_0000, packed / 0x1000 % 64, packed / 64 % 64, packed % 64, packed, padding);
    SpelledGroup(packed / 0x4_0000, packed / 0x1000 % 64, packed / 64 % 64, packed % 64, padding);
  }

  lemma ParseGroup(q: string, packed: int, padding: nat, rest: string)
    requires |q| == 4 && GroupForm(q, padding) && Bits(q) == packed >= 0 && (padding > 0 ==> rest == "")
    ensures Parse(q + rest) == if Parse(rest) == None then None else Some(Unpack(packed, padding) + Parse(rest).value)
  {
    assert (q + rest)[..4] == q && (q + rest)[4..] == rest;
    GatherGroup(q);
  }

  /** Decoding undoes encoding, for every byte string. */
  lemma {:induction false} DecodeEncode(data: seq<byte>)
    ensures Parse(Encode(data)) == Some(data)
    ensures Decode(Encode(data)) == data
    decreases |data|
  {
    if data != [] {
      var n := Min(3, |data|);
      var head, rest := data[..n], data[n..];
      PackBytes(head);
      QuadGroup(Pack(head), 3 - n);
      DecodeEncode(rest);
      ParseGroup(Quad(Pack(head), 3 - n), Pack(head), 3 - n, Encode(rest));
      assert data == head + rest;
    }
  }

  // ----- which strings are encodings -----

  /** The bits that the padding makes unused are zero. */
  predicate Canonical(s: string, padding: nat)
    requires |s| >= 4 && padding <= 2
  {
    && (padding == 1 ==> Val(s[|s| - 2]) % 4 == 0)
    && (padding == 2 ==> Val(s[|s| - 3]) % 16 == 0)
  }

  function Dropped(padding: nat): nat { if padding == 0 then 1 else if padding == 1 then 256 else 0x1_0000 }

  lemma PackUnpack(packed: nat, padding: nat)
    requires packed < 0x100_0000 && padding <= 2
    ensures Pack(Unpack(packed, padding)) == packed - packed % Dropped(padding)
  {
    var b := Unpack(packed, padding);
    assert b[0] == packed / 0x1_0000;
    if padding == 0 {
      assert b[1] == packed / 0x100 % 256 && b[2] == packed % 256;
    } else if padding == 1 {
      assert b[1] == packed / 0x100 % 256;
    }
  }

  /** Cutting off what the padding hides changes one digit, by its hidden bits. */
  lemma CutDigits(v0: int, v1: int, v2: int, v3: int, packed: int, padding: nat)
    requires 0 <= v0 < 64 && 0 <= v1 < 64 && 0 <= v2 < 64 && 0 <= v3 < 64 && 0 < padding <= 2
    requires packed == v0 * 0x4_0000 + v1 * 0x1000 + v2 * 64 + v3
    requires (padding >= 1 ==> v3 == 0) && (padding == 2 ==> v2 == 0)
    ensures packed - packed % Dropped(padding) ==
      if padding == 1 then v0 * 0x4_0000 + v1 * 0x1000 + (v2 - v2 % 4) * 64 else v0 * 0x4_0000 + (v1 - v1 % 16) * 0x1000
  {
    if padding == 1 {
      var q, r := v0 * 1024 + v1 * 16 + v2 / 4, v2 % 4 * 64;
      assert packed == q * 256 + r && 0 <= r < 256;
      QuotientIs(packed, q, r, 256);
    } else {
      var q, r := v0 * 4 + v1 / 16, v1 % 16 * 0x1000;
      assert packed == q * 0x1_0000 + r && 0 <= r < 0x1_0000;
      QuotientIs(packed, q, r, 0x1_0000);
    }
  }

  lemma GroupSpells(q: string, padding: nat)
    requires |q| == 4 && GroupForm(q, padding)
    ensures q == Spell(Val(q[0]), Val(q[1]), Val(q[2]), Val(q[3]), padding)
    ensures (padding >= 1 ==> Val(q[3]) == 0) && (padding == 2 ==> Val(q[2]) == 0)
  {
  }

  /** The digits of a group, decoded and encoded again. */
  lemma Reencode(v0: int, v1: int, v2: int, v3: int, packed: nat, padding: nat)
    requires 0 <= v0 < 64 && 0 <= v1 < 64 && 0 <= v2 < 64 && 0 <= v3 < 64 && padding <= 2
    requires packed == v0 * 0x4_0000 + v1 * 0x1000 + v2 * 64 + v3 < 0x100_0000
    requires (padding >= 1 ==> v3 == 0) && (padding == 2 ==> v2 == 0)
    ensures Quad(Pack(Unpack(packed, padding)), padding) == Spell(v0, v1, v2, v3, padding)
       <==> (padding == 1 ==> v2 % 4 == 0) && (padding == 2 ==> v1 % 16 == 0)
  {
    hide Quad, Spell, Pack, Unpack, Digit;
    PackUnpack(packed, padding);
    var cut := packed - packed % Dropped(padding);
    if padding == 0 {
      QuadSpells(v0, v1, v2, v3, cut, padding);
    } else {
      CutDigits(v0, v1, v2, v3, packed, padding);
      var w1 := if padding == 2 then v1 - v1 % 16 else v1;
      var w2 := if padding == 1 then v2 - v2 % 4 else 0;
      QuadSpells(v0, w1, w2, 0, cut, padding);
      Respelled(v0, v1, v2, w1, w2, padding);
    }
  }

  lemma EncodeGroup(q: string, padding: nat)
    requires |q| == 4 && GroupForm(q, padding)
    ensures 0 <= Bits(q) < 0x100_0000
    ensures Quad(Pack(Unpack(Bits(q), padding)), padding) == q <==> Canonical(q, padding)
  {
    GroupSpells(q, padding);
    Reencode(Val(q[0]), Val(q[1]), Val(q[2]), Val(q[3]), Bits(q), padding);
  }

  lemma Respelled(v0: int, v1: int, v2: int, w1: int, w2: int, padding: nat)
    requires 0 <= v0 < 64 && 0 <= v1 < 64 && 0 <= v2 < 64 && 0 <= w1 < 64 && 0 <= w2 < 64 && 0 < padding <= 2
    ensures Spell(v0, v1, v2, 0, padding) == Spell(v0, w1, w2, 0, padding) <==> v1 == w1 && (padding == 1 ==> v2 == w2)
  {
    DigitValue(v1);
    DigitValue(w1);
    DigitValue(v2);
    DigitValue(w2);
    var s, t := Spell(v0, v1, v2, 0, padding), Spell(v0, w1, w2, 0, padding);
    assert s[1] == Digit(v1) && t[1] == Digit(w1) && (padding == 1 ==> s[2] == Digit(v2) && t[2] == Digit(w2));
  }

  lemma EncodeLast(b: seq<byte>)
    requires 0 < |b| <= 3
    ensures Encode(b) == Quad(Pack(b), 3 - |b|)
  {
    assert b[..|b|] == b && b[|b|..] == [];
    assert Encode(b[|b|..]) == "";
  }

  lemma EncodeHead(head: seq<byte>, rest: seq<byte>)
    requires |head| == 3
    ensures Encode(head + rest) == Quad(Pack(head), 0) + Encode(rest)
  {
    assert (head + rest)[..3] == head && (head + rest)[3..] == rest;
  }

  /** Encoding undoes decoding exactly for the canonical strings: no two strings of different
      spelling encode the same bytes unless one of them carries unused bits. */
  lemma {:induction false} EncodeDecodeIff(s: string, padding: nat)
    requires s != "" && Form(s, padding)
    ensures |s| >= 4 && Parse(s).Some?
    ensures Encode(Decode(s)) == s <==> Canonical(s, padding)
    decreases |s|
  {
    ParseAcceptsIff(s);
    FormHead(s, padding);
    GatherGroup(s[..4]);
    var q := s[..4];
    if |s| == 4 {
      assert q == s && s[4..] == "";
      EncodeGroup(q, padding);
      ParseGroup(q, Bits(q), padding, "");
      assert q + "" == s;
      EncodeLast(Unpack(Bits(q), padding));
      assert Decode(s) == Unpack(Bits(q), padding);
    } else {
      EncodeGroup(q, 0);
      var head := Unpack(Bits(q), 0);
      EncodeDecodeIff(s[4..], padding);
      ParseGroup(q, Bits(q), 0, s[4..]);
      assert q + s[4..] == s;
      var rest := Decode(s[4..]);
      DecodeNonEmptyIff(s[4..]);
      assert Decode(s) == head + rest;
      EncodeHead(head, rest);
      assert (q + Encode(rest))[4..] == Encode(rest);
    }
  }

  /** A string with an unused bit set is accepted, and encodes to another one. */
  lemma UnusedBitsAccepted()
    ensures Parse("QR==") == Some([65]) && Encode([65]) == "QQ=="
  {
    var q := "QR==";
    assert Value('Q') == Some(16) && Value('R') == Some(17) && GroupForm(q, 2) && Bits(q) == 4263936;
    ParseGroup(q, 4263936, 2, "");
    var b: seq<byte> := [65];
    assert q + "" == q && Parse("") == Some([]) && Unpack(4263936, 2) == b && b + [] == b;
    EncodeLast(b);
  }

  // ----- the loops -----

  /** Up to three bytes, shifted together and then filled up. */
  method PackGroup(data: seq<byte>, start: nat) returns (packed: int, n: nat)
    requires start < |data|
    ensures n == Min(3, |data| - start) && packed == Pack(data[start..start + n])
  {
    packed := 0;
    var i := 0;
    ghost var b := data[start..];
    while i < 3 && start + i < |data|
      invariant 0 <= i <= 3 && start + i <= |data|
      invariant packed == Shifted(b, i)
    {
      packed := packed * 256 + data[start + i];
      i := i + 1;
    }
    n := i;
    assert data[start..start + n] == b[..n];
    while i < 3
      invariant n <= i <= 3
      invariant packed == Shifted(b, n) * Scale(i - n)
    {
      packed := packed * 256;
      i := i + 1;
    }
  }

  function Shifted(b: seq<byte>, i: nat): int
    requires i <= |b| && i <= 3
  {
    var b0: int, b1: int, b2: int := if i > 0 then b[0] else 0, if i > 1 then b[1] else 0, if i > 2 then b[2] else 0;
    if i == 3 then b0 * 0x1_0000 + b1 * 0x100 + b2 else if i == 2 then b0 * 0x100 + b1 else b0
  }

  function Scale(k: int): int { if k <= 0 then 1 else if k == 1 then 256 else 0x1_0000 }

  method AppendQuad(before: string, packed: int, padding: int) returns (ret: string)
    requires 0 <= packed < 0x100_0000 && 0 <= padding <= 2
    ensures ret == before + Quad(packed, padding)
  {
    AlphabetIsDigits(packed / 0x4_0000);
    AlphabetIsDigits(packed / 0x1000 % 64);
    AlphabetIsDigits(packed / 64 % 64);
    AlphabetIsDigits(packed % 64);
    ret := before + [ALPHABET[packed / 0x4_0000]];
    ret := ret + [ALPHABET[packed / 0x1000 % 64]];
    if padding != 2 { ret := ret + [ALPHABET[packed / 64 % 64]]; }
    if padding == 0 { ret := ret + [ALPHABET[packed % 64]]; }
    ret := ret + seq(padding, _ => '=');
  }

  lemma NextGroup(data: seq<byte>, ptr: nat, i: nat, before: string, quad: string, ret: string)
    requires ptr < |data| && i == Min(3, |data| - ptr)
    requires before + Encode(data[ptr..]) == Encode(data)
    requires quad == Quad(Pack(data[ptr..ptr + i]), 3 - i) && ret == before + quad
    ensures ret + Encode(data[ptr + i..]) == Encode(data)
  {
    var rest, group := data[ptr..], data[ptr..ptr + i];
    assert group == rest[..i] && data[ptr + i..] == rest[i..];
    Associative(before, quad, Encode(rest[i..]));
  }

  lemma Associative(a: string, b: string, c: string)
    ensures a + b + c == a + (b + c)
  {
  }

  method Base64Encode(data: seq<byte>) returns (ret: string)
    ensures ret == Encode(data)
  {
    ret := "";
    var ptr := 0;
    assert data[0..] == data;
    while ptr < |data|
      invariant 0 <= ptr <= |data|
      invariant ret + Encode(data[ptr..]) == Encode(data)
    {
      ghost var before := ret;
      var packed, i := PackGroup(data, ptr);
      ret := AppendQuad(ret, packed, if i == 2 then 1 else if i == 1 then 2 else 0);
      NextGroup(data, ptr, i, before, Quad(packed, 3 - i), ret);
      ptr := ptr + i;
    }
    assert data[ptr..] == [];
  }

  /** The four characters at `ptr`, or as many as there are; fails on a character that cannot be there. */
  method ReadGroup(src: string, start: nat) returns (ok: bool, i: nat, padding: nat, packed: nat)
    requires start < |src|
    ensures ok ==> i == Min(4, |src| - start) && Gather(src[start..start + i], 0, 0) == Some((padding, packed))
    ensures !ok && start + 4 <= |src| ==> Gather(src[start..start + 4], 0, 0) == None
  {
    i, padding, packed := 0, 0, 0;
    ghost var stop := start + Min(4, |src| - start);
    ghost var group := src[start..stop];
    while i < 4 && start + i < |src|
      invariant 0 <= i <= stop - start
      invariant Gather(group, 0, 0) == Gather(group[i..], padding, packed)
    {
      var c := src[start + i];
      assert group[i..][0] == c && group[i..][1..] == group[i + 1..];
      if c == '=' {
        padding, packed := padding + 1, packed * 64;
      } else {
        if padding > 0 { return false, i, padding, packed; }
        var v := Value(c);
        if v == None { return false, i, padding, packed; }
        packed := packed * 64 + v.value;
      }
      i := i + 1;
    }
    ok := true;
  }

  function Behind(front: seq<byte>, rest: Option<seq<byte>>): Option<seq<byte>> {
    if rest == None then None else Some(front + rest.value)
  }

  lemma BehindBehind(a: seq<byte>, b: seq<byte>, rest: Option<seq<byte>>)
    ensures Behind(a, Behind(b, rest)) == Behind(a + b, rest)
    ensures Behind([], rest) == rest
  {
    if rest.Some? { assert a + (b + rest.value) == a + b + rest.value && [] + rest.value == rest.value; }
  }

  method WriteGroup(buf: array<byte>, start: nat, packed: nat, padding: nat) returns (w: nat)
    requires start + 3 - padding <= buf.Length && padding <= 2
    modifies buf
    ensures w == start + 3 - padding && buf[..w] == old(buf[..start]) + Unpack(packed, padding)
  {
    buf[start] := packed / 0x1_0000 % 256;
    w := start + 1;
    if padding != 2 { buf[w] := packed / 0x100 % 256; w := w + 1; }
    if padding == 0 { buf[w] := packed % 256; w := w + 1; }
  }

  /** The result is written through a pointer into a buffer of three quarters of the input. */
  method Base64Decode(src: string) returns (result: seq<byte>)
    ensures result == Decode(src)
  {
    var buf := new byte[|src| * 3 / 4](_ => 0);
    var ptr, w := 0, 0;
    assert src[0..] == src && buf[..0] == [];
    BehindBehind([], [], Parse(src));
    while ptr < |src|
      invariant 0 <= ptr <= |src| && 4 * w <= 3 * ptr && w <= buf.Length
      invariant Parse(src) == Behind(buf[..w], Parse(src[ptr..]))
    {
      ghost var rest := src[ptr..];
      var ok, i, padding, packed := ReadGroup(src, ptr);
      if ptr + 4 <= |src| { assert src[ptr..ptr + 4] == rest[..4]; }
      if !ok { return []; }
      ptr := ptr + i;
      if i != 4 { return []; }
      if padding > 0 && ptr != |src| { return []; }
      if padding > 2 { return []; }
      ghost var sofar := buf[..w];
      assert rest[4..] == src[ptr..];
      BehindBehind(sofar, Unpack(packed, padding), Parse(src[ptr..]));
      w := WriteGroup(buf, w, packed, padding);
    }
    assert src[ptr..] == "";
    result := buf[..w];
  }
}
