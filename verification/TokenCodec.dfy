/**
 Compact tokens (section 7.1 of RFC 7515): three unpadded base64url parts (section 5 of
 RFC 4648) joined by dots, and the exponent of a JWKS key.
 */
module TokenCodec {
  import opened Common
  import opened Text

  type byte = n: int | 0 <= n < 256

  datatype DecodeError = CorruptInput

  // ---- base64url ----

  type sextet = n: int | 0 <= n < 64

  /** What a character means to the decoder: six bits, padding, or nothing it knows. */
  datatype Symbol = Six(v: sextet) | Pad | Other

  /** The URL-safe alphabet. */
  function Digit(v: sextet): char {
    if v < 26 then 'A' + v as char
    else if v < 52 then 'a' + (v - 26) as char
    else if v < 62 then '0' + (v - 52) as char
    else if v == 62 then '-'
    else '_'
  }

  function Meaning(c: char): (x: Symbol)
    ensures x.Six? ==> Digit(x.v) == c
  {
    if 'A' <= c <= 'Z' then Six((c - 'A') as int)
    else if 'a' <= c <= 'z' then Six((c - 'a') as int + 26)
    else if '0' <= c <= '9' then Six((c - '0') as int + 52)
    else if c == '-' then Six(62)
    else if c == '_' then Six(63)
    else if c == '=' then Pad
    else Other
  }

  function Symbols(s: string): (xs: seq<Symbol>)
    ensures |xs| == |s|
  {
    seq(|s|, i requires 0 <= i < |s| => Meaning(s[i]))
  }

  /** Three bytes as four sextets. */
  function Group(x: byte, y: byte, z: byte): seq<sextet> {
    [x / 4, x % 4 * 16 + y / 16, y % 16 * 4 + z / 64, z % 64]
  }

  /** The last one or two bytes, filled up with zero bits. */
  function ShortGroup(bs: seq<byte>): seq<sextet>
    requires |bs| < 3
  {
    if |bs| == 0 then []
    else if |bs| == 1 then [bs[0] / 4, bs[0] % 4 * 16]
    else [bs[0] / 4, bs[0] % 4 * 16 + bs[1] / 16, bs[1] % 16 * 4]
  }

  function Sextets(bs: seq<byte>): seq<sextet> {
    if |bs| < 3 then ShortGroup(bs) else Group(bs[0], bs[1], bs[2]) + Sextets(bs[3..])
  }

  /** Unpadded encoding, as token issuers write it. */
  function Encode(bs: seq<byte>): string {
    var vs := Sextets(bs);
    seq(|vs|, i requires 0 <= i < |vs| => Digit(vs[i]))
  }

  /** Go's decoder skips line ends wherever they are. */
  function SkipLineEnds(s: string): string {
    if s == "" then ""
    else if s[0] == '\r' || s[0] == '\n' then SkipLineEnds(s[1..])
    else [s[0]] + SkipLineEnds(s[1..])
  }

  function Triple(v: sextet, w: sextet, x: sextet, y: sextet): seq<byte> {
    [v * 4 + w / 16, w % 16 * 16 + x / 4, x % 4 * 64 + y]
  }

  /** Padded decoding by groups of four; leftover bits of a short last group are dropped. */
  function Regroup(xs: seq<Symbol>): Result<seq<byte>, DecodeError> {
    if xs == [] then Ok([])
    else if |xs| < 4 || !xs[0].Six? || !xs[1].Six? then Err(CorruptInput)
    else if xs[2].Six? && xs[3].Six? then
      match Regroup(xs[4..])
      case Err(e) => Err(e)
      case Ok(rest) => Ok(Triple(xs[0].v, xs[1].v, xs[2].v, xs[3].v) + rest)
    else if |xs| == 4 && xs[2].Six? && xs[3] == Pad then
      Ok(Triple(xs[0].v, xs[1].v, xs[2].v, 0)[..2])
    else if |xs| == 4 && xs[2] == Pad && xs[3] == Pad then
      Ok(Triple(xs[0].v, xs[1].v, 0, 0)[..1])
    else Err(CorruptInput)
  }

  function Padding(n: nat): string {
    match n % 4 case 2 => "==" case 3 => "=" case _ => ""
  }

  /** base64URLDecode: padding by length, line ends counted. */
  function Base64URLDecode(s: string): Result<seq<byte>, DecodeError> {
    Regroup(Symbols(SkipLineEnds(s + Padding(|s|))))
  }

  // ---- Decoding over the alphabet alone ----

  /** Only characters of the alphabet: no padding, line end or dot. */
  predicate Unpadded(s: string) {
    forall i :: 0 <= i < |s| ==> Meaning(s[i]).Six?
  }

  function Values(s: string): (vs: seq<sextet>)
    requires Unpadded(s)
    ensures |vs| == |s|
  {
    seq(|s|, i requires 0 <= i < |s| => Meaning(s[i]).v)
  }

  function Lift(vs: seq<sextet>): (xs: seq<Symbol>)
    ensures |xs| == |vs|
  {
    seq(|vs|, i requires 0 <= i < |vs| => Six(vs[i]))
  }

  /** The padding, as the decoder sees it. */
  function Pads(n: nat): (xs: seq<Symbol>)
    ensures xs == Symbols(Padding(n))
  {
    match n % 4 case 2 => [Pad, Pad] case 3 => [Pad] case _ => []
  }

  function ShortBytes(vs: seq<sextet>): Option<seq<byte>>
    requires |vs| < 4
  {
    if |vs| == 0 then Some([])
    else if |vs| == 1 then None
    else if |vs| == 2 then Some(Triple(vs[0], vs[1], 0, 0)[..1])
    else Some(Triple(vs[0], vs[1], vs[2], 0)[..2])
  }

  /** The bytes of a string of sextets. */
  function Bytes(vs: seq<sextet>): Option<seq<byte>> {
    if |vs| < 4 then ShortBytes(vs)
    else
      match Bytes(vs[4..])
      case None => None
      case Some(rest) => Some(Triple(vs[0], vs[1], vs[2], vs[3]) + rest)
  }

  function Decoded(bytes: Option<seq<byte>>): Result<seq<byte>, DecodeError> {
    match bytes case None => Err(CorruptInput) case Some(bs) => Ok(bs)
  }

  lemma RegroupShort(vs: seq<sextet>)
    requires |vs| < 4
    ensures Regroup(Lift(vs) + Pads(|vs|)) == Decoded(ShortBytes(vs))
  {
    if |vs| == 2 {
      assert Lift(vs) + Pads(2) == [Six(vs[0]), Six(vs[1]), Pad, Pad];
    } else if |vs| == 3 {
      assert Lift(vs) + Pads(3) == [Six(vs[0]), Six(vs[1]), Six(vs[2]), Pad];
    }
  }

  lemma LiftGroup(v: sextet, w: sextet, x: sextet, y: sextet, vs: seq<sextet>)
    ensures
      var all := [v, w, x, y] + vs;
      Lift(all) + Pads(|all|) == [Six(v), Six(w), Six(x), Six(y)] + (Lift(vs) + Pads(|vs|))
  {
    assert Pads(|vs| + 4) == Pads(|vs|);
  }

  lemma RegroupGroup(v: sextet, w: sextet, x: sextet, y: sextet, tail: seq<Symbol>)
    ensures Regroup([Six(v), Six(w), Six(x), Six(y)] + tail) ==
            match Regroup(tail)
            case Err(e) => Err(e)
            case Ok(rest) => Ok(Triple(v, w, x, y) + rest)
  {
    assert ([Six(v), Six(w), Six(x), Six(y)] + tail)[4..] == tail;
  }

  lemma {:induction false} RegroupLift(vs: seq<sextet>)
    ensures Regroup(Lift(vs) + Pads(|vs|)) == Decoded(Bytes(vs))
  {
    if |vs| < 4 {
      RegroupShort(vs);
    } else {
      var rest := vs[4..];
      RegroupLift(rest);
      assert vs == [vs[0], vs[1], vs[2], vs[3]] + rest;
      LiftGroup(vs[0], vs[1], vs[2], vs[3], rest);
      RegroupGroup(vs[0], vs[1], vs[2], vs[3], Lift(rest) + Pads(|rest|));
    }
  }

  lemma {:induction false} NothingSkipped(s: string)
    requires '\r' !in s && '\n' !in s
    ensures SkipLineEnds(s) == s
  {
    if s != "" {
      NothingSkipped(s[1..]);
      assert [s[0]] + s[1..] == s;
    }
  }

  lemma AlphabetIsPlain(s: string)
    requires Unpadded(s)
    ensures '\r' !in s && '\n' !in s && '.' !in s && '=' !in s
  {
    forall c | c in s ensures Meaning(c).Six? {
      var i :| 0 <= i < |s| && s[i] == c;
    }
  }

  /** An alphabet string and the padding it needs regroup to its bytes. */
  lemma RegroupPadded(u: string)
    requires Unpadded(u)
    ensures Regroup(Symbols(u + Padding(|u|))) == Decoded(Bytes(Values(u)))
  {
    assert Symbols(u + Padding(|u|)) == Lift(Values(u)) + Pads(|u|);
    RegroupLift(Values(u));
  }

  lemma DecodeUnpadded(s: string)
    requires Unpadded(s)
    ensures Base64URLDecode(s) == Decoded(Bytes(Values(s)))
  {
    AlphabetIsPlain(s);
    NothingSkipped(s + Padding(|s|));
    RegroupPadded(s);
  }

  lemma EncodedValues(bs: seq<byte>)
    ensures Unpadded(Encode(bs)) && Values(Encode(bs)) == Sextets(bs)
  {
    var vs := Sextets(bs);
    forall i | 0 <= i < |vs| ensures Meaning(Encode(bs)[i]) == Six(vs[i]) { MeaningOfDigit(vs[i]); }
  }

  lemma MeaningOfDigit(v: sextet)
    ensures Meaning(Digit(v)) == Six(v)
  {}

  lemma TripleOfGroup(x: byte, y: byte, z: byte)
    ensures var g := Group(x, y, z); Triple(g[0], g[1], g[2], g[3]) == [x, y, z]
  {
    var g := Group(x, y, z);
    assert g[1] / 16 == x % 4 && g[1] % 16 == y / 16;
    assert g[2] / 4 == y % 16 && g[2] % 4 == z / 64;
  }

  lemma BytesOfShort(bs: seq<byte>)
    requires |bs| < 3
    ensures |ShortGroup(bs)| < 4 && ShortBytes(ShortGroup(bs)) == Some(bs)
  {
    if |bs| == 1 {
      TripleOfGroup(bs[0], 0, 0);
      assert ShortGroup(bs) == Group(bs[0], 0, 0)[..2];
      assert bs == [bs[0], 0, 0][..1];
    } else if |bs| == 2 {
      TripleOfGroup(bs[0], bs[1], 0);
      assert ShortGroup(bs) == Group(bs[0], bs[1], 0)[..3];
      assert bs == [bs[0], bs[1], 0][..2];
    }
  }

  lemma BytesOfGroup(x: byte, y: byte, z: byte, vs: seq<sextet>)
    requires Bytes(vs).Some?
    ensures Bytes(Group(x, y, z) + vs) == Some([x, y, z] + Bytes(vs).value)
  {
    var g := Group(x, y, z);
    TripleOfGroup(x, y, z);
    assert (g + vs)[4..] == vs;
  }

  lemma {:induction false} BytesOfSextets(bs: seq<byte>)
    ensures Bytes(Sextets(bs)) == Some(bs)
  {
    if |bs| < 3 {
      BytesOfShort(bs);
    } else {
      BytesOfSextets(bs[3..]);
      TripleOfGroup(bs[0], bs[1], bs[2]);
      BytesOfGroup(bs[0], bs[1], bs[2], Sextets(bs[3..]));
      assert bs == [bs[0], bs[1], bs[2]] + bs[3..];
    }
  }

  /** Decoding undoes encoding, for all bytes. */
  lemma DecodeRoundTrip(bs: seq<byte>)
    ensures Base64URLDecode(Encode(bs)) == Ok(bs)
  {
    EncodedValues(bs);
    DecodeUnpadded(Encode(bs));
    BytesOfSextets(bs);
  }

  lemma BytesTail(vs: seq<sextet>)
    requires |vs| >= 4
    ensures Bytes(vs).Some? <==> Bytes(vs[4..]).Some?
  {}

  lemma {:induction false} BytesAccepts(vs: seq<sextet>)
    ensures Bytes(vs).Some? <==> |vs| % 4 != 1
  {
    if |vs| >= 4 {
      BytesTail(vs);
      BytesAccepts(vs[4..]);
    } else {
      assert Bytes(vs) == ShortBytes(vs);
    }
  }

  /** Of the strings over the alphabet, exactly those of a length an encoding can have decode. */
  lemma AlphabetDecodes(s: string)
    requires Unpadded(s)
    ensures Base64URLDecode(s).Ok? <==> |s| % 4 != 1
  {
    DecodeUnpadded(s);
    BytesAccepts(Values(s));
  }

  /** The last group of what Regroup accepts, if it carries padding. */
  lemma ShortForm(xs: seq<Symbol>) returns (vs: seq<sextet>)
    requires Regroup(xs).Ok? && (|xs| >= 4 ==> !(xs[2].Six? && xs[3].Six?))
    ensures |vs| < 4 && |vs| != 1 && xs == Lift(vs) + Pads(|vs|)
  {
    if xs == [] {
      vs := [];
    } else if xs[2].Six? {
      vs := [xs[0].v, xs[1].v, xs[2].v];
      assert Lift(vs) + Pads(3) == [Six(xs[0].v), Six(xs[1].v), Six(xs[2].v), Pad];
    } else {
      vs := [xs[0].v, xs[1].v];
      assert Lift(vs) + Pads(2) == [Six(xs[0].v), Six(xs[1].v), Pad, Pad];
    }
  }

  /** All that Regroup accepts is sextets and the padding they need. */
  lemma {:induction false} RegroupForm(xs: seq<Symbol>) returns (vs: seq<sextet>)
    requires Regroup(xs).Ok?
    ensures xs == Lift(vs) + Pads(|vs|)
  {
    if |xs| >= 4 && xs[2].Six? && xs[3].Six? {
      var rest := RegroupForm(xs[4..]);
      vs := [xs[0].v, xs[1].v, xs[2].v, xs[3].v] + rest;
      LiftGroup(xs[0].v, xs[1].v, xs[2].v, xs[3].v, rest);
      assert xs == [xs[0], xs[1], xs[2], xs[3]] + xs[4..];
    } else {
      vs := ShortForm(xs);
    }
  }

  /** What the decoder is given, line ends skipped, is u with the padding u needs. */
  predicate PaddingOf(t: string, u: string) {
    Unpadded(u) && t == u + Padding(|u|)
  }

  /** Symbols that are sextets and padding are those of an alphabet string and its padding. */
  lemma FormOfText(t: string, vs: seq<sextet>) returns (u: string)
    requires Symbols(t) == Lift(vs) + Pads(|vs|)
    ensures PaddingOf(t, u) && Values(u) == vs
  {
    u := t[..|vs|];
    forall i | 0 <= i < |u| ensures Meaning(u[i]) == Six(vs[i]) { assert Symbols(t)[i] == Lift(vs)[i]; }
    forall i | |vs| <= i < |t| ensures t[i] == '=' {
      assert Symbols(t)[i] == Pads(|vs|)[i - |vs|] == Pad;
    }
    assert t[|vs|..] == Padding(|vs|);
  }

  lemma DecodesAsPadded(s: string, u: string)
    requires PaddingOf(SkipLineEnds(s + Padding(|s|)), u)
    ensures Base64URLDecode(s) == Base64URLDecode(u)
  {
    DecodeUnpadded(u);
    RegroupPadded(u);
  }

  lemma DecodedHasForm(s: string) returns (u: string)
    requires Base64URLDecode(s).Ok?
    ensures PaddingOf(SkipLineEnds(s + Padding(|s|)), u)
  {
    var t := SkipLineEnds(s + Padding(|s|));
    var vs := RegroupForm(Symbols(t));
    u := FormOfText(t, vs);
  }

  /**
   A string decodes, and to these bytes, exactly if with its padding added and line ends
   skipped it is an alphabet string that decodes to them, padded as that one needs.
   */
  lemma DecodesExactly(s: string, bs: seq<byte>)
    ensures Base64URLDecode(s) == Ok(bs) <==>
            exists u :: PaddingOf(SkipLineEnds(s + Padding(|s|)), u) && |u| % 4 != 1 && Base64URLDecode(u) == Ok(bs)
  {
    if Base64URLDecode(s).Ok? {
      var u := DecodedHasForm(s);
      DecodesAsPadded(s, u);
      AlphabetDecodes(u);
    }
    forall u | PaddingOf(SkipLineEnds(s + Padding(|s|)), u) ensures Base64URLDecode(s) == Base64URLDecode(u) {
      DecodesAsPadded(s, u);
    }
  }

  lemma SkipOne(c: char, s: string)
    ensures SkipLineEnds([c] + s) == (if c == '\r' || c == '\n' then "" else [c]) + SkipLineEnds(s)
  {
    assert ([c] + s)[1..] == s;
  }

  lemma {:induction false} SkippedApart(s: string, t: string)
    ensures SkipLineEnds(s + t) == SkipLineEnds(s) + SkipLineEnds(t)
  {
    if s == "" {
      assert s + t == t;
    } else {
      SkippedApart(s[1..], t);
      SkipOne(s[0], s[1..] + t);
      SkipOne(s[0], s[1..]);
      assert s + t == [s[0]] + (s[1..] + t) && s == [s[0]] + s[1..];
    }
  }

  lemma SkipLast(front: string, c: char)
    ensures SkipLineEnds(front + [c]) ==
            if c == '\r' || c == '\n' then SkipLineEnds(front) else SkipLineEnds(front) + [c]
  {
    SkippedApart(front, [c]);
    SkipOne(c, "");
    assert [c] + "" == [c] && SkipLineEnds("") == "";
  }

  lemma {:induction false} SkippedInOrder(s: string)
    ensures Subsequence(SkipLineEnds(s), s)
  {
    if s != "" {
      var front, c := s[..|s| - 1], s[|s| - 1];
      SkippedInOrder(front);
      SkipLast(front, c);
      assert s == front + [c];
      var kept := SkipLineEnds(front);
      if c != '\r' && c != '\n' { assert (kept + [c])[..|kept|] == kept; }
    }
  }

  /** Of a string all but its line ends is left, in order and as often. */
  lemma {:induction false} SkippedExactly(s: string)
    ensures Subsequence(SkipLineEnds(s), s)
    ensures forall c :: multiset(SkipLineEnds(s))[c] == if c == '\r' || c == '\n' then 0 else multiset(s)[c]
  {
    SkippedInOrder(s);
    if s != "" {
      var front, c := s[..|s| - 1], s[|s| - 1];
      SkippedExactly(front);
      SkipLast(front, c);
      assert s == front + [c];
    }
  }

  function Equals(n: nat): string {
    seq(n, _ => '=')
  }

  lemma NoLonger(v: string, u: string, n: nat, m: nat)
    requires Unpadded(u) && v + Equals(n) == u + Equals(m)
    ensures |u| <= |v|
  {
    AlphabetIsPlain(u);
    if |u| > 0 {
      var i := |u| - 1;
      assert (v + Equals(n))[i] == u[i] && u[i] in u;
    }
  }

  /** A text is read in one way only as an alphabet string and what pads it. */
  lemma OneReading(v: string, u: string, n: nat, m: nat)
    requires Unpadded(v) && Unpadded(u) && v + Equals(n) == u + Equals(m)
    ensures v == u && n == m
  {
    NoLonger(v, u, n, m);
    NoLonger(u, v, m, n);
    assert v == (v + Equals(n))[..|v|] && u == (u + Equals(m))[..|u|];
  }

  lemma PaddingIsEquals(n: nat)
    ensures Padding(n) == Equals(|Padding(n)|)
  {}

  lemma PaddedText(s: string, v: string, n: nat)
    requires SkipLineEnds(s) == v + Equals(n)
    ensures SkipLineEnds(s + Padding(|s|)) == v + Equals(n + |Padding(|s|)|)
  {
    SkippedApart(s, Padding(|s|));
    NothingSkipped(Padding(|s|));
    PaddingIsEquals(|s|);
  }

  lemma OneError(r: Result<seq<byte>, DecodeError>)
    ensures r.Err? <==> r == Err(CorruptInput)
  {
    if r.Err? { assert r.error == CorruptInput; }
  }

  lemma PaddedAlike(s: string, v: string, m: nat)
    requires Unpadded(v) && SkipLineEnds(s + Padding(|s|)) == v + Equals(m)
    ensures Base64URLDecode(s) == if m == |Padding(|v|)| then Base64URLDecode(v) else Err(CorruptInput)
  {
    PaddingIsEquals(|v|);
    if m == |Padding(|v|)| {
      DecodesAsPadded(s, v);
    } else if Base64URLDecode(s).Ok? {
      var u := DecodedHasForm(s);
      PaddingIsEquals(|u|);
      OneReading(v, u, m, |Padding(|u|)|);
    } else {
      OneError(Base64URLDecode(s));
    }
  }

  /**
   When line ends and padding already there make no difference: an alphabet string with n
   of "=" after it and line ends anywhere decodes as it does bare if and only if what is
   added for the whole length makes its padding complete.
   */
  lemma DecodesAlike(s: string, v: string, n: nat)
    requires Unpadded(v) && SkipLineEnds(s) == v + Equals(n)
    ensures Base64URLDecode(s) == Base64URLDecode(v) <==>
            |v| % 4 == 1 || n + |Padding(|s|)| == |Padding(|v|)|
  {
    PaddedText(s, v, n);
    PaddedAlike(s, v, n + |Padding(|s|)|);
    AlphabetDecodes(v);
    OneError(Base64URLDecode(v));
  }

  /** So "QQ" decodes, and does not with a line end after it. */
  lemma LineEndRefused()
    ensures Base64URLDecode("QQ").Ok? && Base64URLDecode("QQ\n").Err?
  {
    AlphabetDecodes("QQ");
    SkippedApart("QQ", "\n");
    NothingSkipped("QQ");
    assert SkipLineEnds("\n") == "" by { assert "\n"[1..] == ""; }
    assert SkipLineEnds("QQ\n") == "QQ" + Equals(0);
    PaddedText("QQ\n", "QQ", 0);
    PaddedAlike("QQ\n", "QQ", |Padding(3)|);
  }

  /** The last sextet of a short last group has no bits set beyond the last byte. */
  predicate Canonical(vs: seq<sextet>) {
    match |vs| % 4
    case 2 => vs[|vs| - 1] % 16 == 0
    case 3 => vs[|vs| - 1] % 4 == 0
    case _ => true
  }

  lemma GroupOfTriple(v: sextet, w: sextet, x: sextet, y: sextet)
    ensures var t := Triple(v, w, x, y); Group(t[0], t[1], t[2]) == [v, w, x, y]
  {
    var t := Triple(v, w, x, y);
    assert t[0] / 4 == v && t[0] % 4 == w / 16;
    assert t[1] / 16 == w % 16 && t[1] % 16 == x / 4;
    assert t[2] / 64 == x % 4 && t[2] % 64 == y;
  }

  lemma ShortSextetsOfBytes(vs: seq<sextet>)
    requires |vs| < 4 && |vs| != 1
    ensures
      var back := ShortGroup(ShortBytes(vs).value);
      |back| == |vs| && (back == vs <==> Canonical(vs))
  {
    var back := ShortGroup(ShortBytes(vs).value);
    if |vs| == 2 {
      assert back[0] == vs[0] && back[1] == vs[1] / 16 * 16;
    } else if |vs| == 3 {
      assert back[0] == vs[0] && back[1] == vs[1] && back[2] == vs[2] / 4 * 4;
    }
  }

  lemma SextetsOfTriple(v: sextet, w: sextet, x: sextet, y: sextet, bs: seq<byte>)
    ensures Sextets(Triple(v, w, x, y) + bs) == [v, w, x, y] + Sextets(bs)
  {
    var t := Triple(v, w, x, y);
    GroupOfTriple(v, w, x, y);
    assert (t + bs)[3..] == bs;
  }

  lemma SameBehind(vs: seq<sextet>, ys: seq<sextet>)
    requires |vs| >= 4 && |ys| == |vs| - 4
    requires ys == vs[4..] <==> Canonical(vs[4..])
    ensures [vs[0], vs[1], vs[2], vs[3]] + ys == vs <==> Canonical(vs)
  {
    assert ([vs[0], vs[1], vs[2], vs[3]] + ys)[4..] == ys;
    if |vs| > 4 { assert vs[4..][|vs[4..]| - 1] == vs[|vs| - 1]; }
  }

  lemma {:induction false} SextetsOfBytes(vs: seq<sextet>, bs: seq<byte>)
    requires Bytes(vs) == Some(bs)
    ensures |Sextets(bs)| == |vs|
    ensures Sextets(bs) == vs <==> Canonical(vs)
  {
    if |vs| < 4 {
      ShortSextetsOfBytes(vs);
    } else {
      var rest := Bytes(vs[4..]).value;
      SextetsOfBytes(vs[4..], rest);
      SextetsOfTriple(vs[0], vs[1], vs[2], vs[3], rest);
      SameBehind(vs, Sextets(rest));
    }
  }

  /** Encoding undoes decoding exactly on the canonical strings; no other unpadded string is an encoding. */
  lemma EncodeUndoesDecode(s: string, bs: seq<byte>)
    requires Unpadded(s) && Base64URLDecode(s) == Ok(bs)
    ensures |Encode(bs)| == |s|
    ensures Encode(bs) == s <==> Canonical(Values(s))
  {
    DecodeUnpadded(s);
    SextetsOfBytes(Values(s), bs);
    EncodedValues(bs);
    if Sextets(bs) == Values(s) {
      forall i | 0 <= i < |s| ensures Encode(bs)[i] == s[i] { assert Digit(Meaning(s[i]).v) == s[i]; }
    }
  }

  // ---- What a string stands for ----

  /** Table 2 of RFC 4648: the character of each value, from 0 to 63. */
  const ALPHABET := "ABCDEFGHIJKLMNOPQRSTUVWXYZ" + "abcdefghijklmnopqrstuvwxyz" + "0123456789-_"

  /** The characters of s are those of the alphabet at these positions. */
  ghost predicate Spells(s: string, ps: seq<sextet>) {
    |ps| == |s| && forall i :: 0 <= i < |s| ==> s[i] == ALPHABET[ps[i]]
  }

  /** The number with these digits in base 64, the first being the highest. */
  function Base64Value(ps: seq<sextet>): nat {
    if ps == [] then 0 else Base64Value(ps[..|ps| - 1]) * 64 + ps[|ps| - 1]
  }

  lemma DigitIsListed(v: sextet)
    ensures ALPHABET[v] == Digit(v)
  {
    if v < 26 {
      assert ALPHABET[v] == "ABCDEFGHIJKLMNOPQRSTUVWXYZ"[v];
    } else if v < 52 {
      assert ALPHABET[v] == "abcdefghijklmnopqrstuvwxyz"[v - 26];
    } else {
      assert ALPHABET[v] == "0123456789-_"[v - 52];
    }
  }

  function Pow(b: nat, n: nat): nat {
    if n == 0 then 1 else Pow(b, n - 1) * b
  }

  lemma {:induction false} Base64Append(ps: seq<sextet>, qs: seq<sextet>)
    ensures Base64Value(ps + qs) == Base64Value(ps) * Pow(64, |qs|) + Base64Value(qs)
  {
    if qs == [] {
      assert ps + qs == ps;
    } else {
      var front, q := qs[..|qs| - 1], qs[|qs| - 1];
      Base64Append(ps, front);
      assert (ps + qs)[..|ps + qs| - 1] == ps + front;
      calc {
        Base64Value(ps + qs);
        Base64Value(ps + front) * 64 + q;
        (Base64Value(ps) * Pow(64, |front|) + Base64Value(front)) * 64 + q;
        Base64Value(ps) * (Pow(64, |front|) * 64) + (Base64Value(front) * 64 + q);
      }
    }
  }

  lemma {:induction false} BigEndianAppend(xs: seq<byte>, ys: seq<byte>)
    ensures BigEndian(xs + ys) == BigEndian(xs) * Pow(256, |ys|) + BigEndian(ys)
  {
    if ys == [] {
      assert xs + ys == xs;
    } else {
      var front, y := ys[..|ys| - 1], ys[|ys| - 1];
      BigEndianAppend(xs, front);
      assert (xs + ys)[..|xs + ys| - 1] == xs + front;
      calc {
        BigEndian(xs + ys);
        BigEndian(xs + front) * 256 + y;
        (BigEndian(xs) * Pow(256, |front|) + BigEndian(front)) * 256 + y;
        BigEndian(xs) * (Pow(256, |front|) * 256) + (BigEndian(front) * 256 + y);
      }
    }
  }

  /** What the unused low bits of a last group of this size amount to. */
  function Spare(n: nat): nat {
    match n % 4 case 2 => 16 case 3 => 4 case _ => 1
  }

  /** n sextets are m bytes and the unused low bits. */
  ghost predicate SameSize(n: nat, m: nat) {
    m == n * 3 / 4 && Pow(64, n) == Pow(256, m) * Spare(n)
  }

  /** These sextets and these bytes are the same number, but for the unused low bits. */
  ghost predicate SameNumber(vs: seq<sextet>, bs: seq<byte>) {
    SameSize(|vs|, |bs|) && BigEndian(bs) == Base64Value(vs) / Spare(|vs|)
  }

  lemma ValueOfShort(vs: seq<sextet>)
    requires |vs| < 4 && |vs| != 1
    ensures SameNumber(vs, ShortBytes(vs).value)
  {
    var bs := ShortBytes(vs).value;
    if |vs| == 2 {
      Base64Two(vs[0], vs[1]);
      assert vs == [vs[0], vs[1]];
      BigEndianOne(bs[0]);
      assert bs == [bs[0]];
      assert Pow(64, 2) == 4096 && Pow(256, 1) == 256;
    } else if |vs| == 3 {
      Base64Three(vs[0], vs[1], vs[2]);
      assert vs == [vs[0], vs[1], vs[2]];
      BigEndianTwo(bs[0], bs[1]);
      assert bs == [bs[0], bs[1]];
      assert Pow(64, 3) == 262144 && Pow(256, 2) == 65536;
    }
  }

  lemma Base64Two(v: sextet, w: sextet)
    ensures Base64Value([v, w]) == v * 64 + w
  {
    assert [v, w][..1] == [v] && [v][..0] == [];
    assert Base64Value([v]) == v;
  }

  lemma Base64Three(v: sextet, w: sextet, x: sextet)
    ensures Base64Value([v, w, x]) == v * 4096 + w * 64 + x
  {
    assert [v, w, x][..2] == [v, w];
    Base64Two(v, w);
  }

  lemma Base64Four(v: sextet, w: sextet, x: sextet, y: sextet)
    ensures Base64Value([v, w, x, y]) == v * 262144 + w * 4096 + x * 64 + y
  {
    assert [v, w, x, y][..3] == [v, w, x];
    Base64Three(v, w, x);
  }

  lemma BigEndianOne(x: byte)
    ensures BigEndian([x]) == x
  {
    assert [x][..0] == [];
  }

  lemma BigEndianTwo(x: byte, y: byte)
    ensures BigEndian([x, y]) == x * 256 + y
  {
    assert [x, y][..1] == [x];
    BigEndianOne(x);
  }

  lemma BigEndianThree(x: byte, y: byte, z: byte)
    ensures BigEndian([x, y, z]) == x * 65536 + y * 256 + z
  {
    assert [x, y, z][..2] == [x, y];
    BigEndianTwo(x, y);
  }

  lemma ValueOfTriple(v: sextet, w: sextet, x: sextet, y: sextet)
    ensures BigEndian(Triple(v, w, x, y)) == Base64Value([v, w, x, y])
  {
    var t := Triple(v, w, x, y);
    Base64Four(v, w, x, y);
    BigEndianThree(t[0], t[1], t[2]);
    assert t == [t[0], t[1], t[2]];
  }

  /** A group in front keeps the numbers the same. */
  lemma GroupValue(high: nat, low: nat, p64: nat, p256: nat, spare: nat)
    requires spare > 0 && p64 == p256 * spare
    ensures (high * p64 + low) / spare == high * p256 + low / spare
  {
    assert high * p64 + low == (high * p256) * spare + low by {
      assert high * (p256 * spare) == (high * p256) * spare;
    }
    QuotientPlus(high * p256, low, spare);
  }

  lemma QuotientPlus(q: nat, low: nat, d: nat)
    requires d > 0
    ensures (q * d + low) / d == q + low / d
  {
    var n := q * d + low;
    assert n == (q + low / d) * d + low % d by {
      assert low == low / d * d + low % d;
      assert (q + low / d) * d == q * d + low / d * d;
    }
    QuotientOf(n, q + low / d, low % d, d);
  }

  lemma QuotientOf(n: nat, q: nat, r: nat, d: nat)
    requires d > 0 && r < d && n == q * d + r
    ensures n / d == q
  {
    var k: int := n / d - q;
    assert n == n / d * d + n % d;
    assert k * d == r - n % d by { assert (n / d - q) * d == n / d * d - q * d; }
    assert k >= 1 ==> k * d >= d;
    assert k <= -1 ==> (0 - k) * d >= d && k * d == 0 - (0 - k) * d;
  }

  lemma {:induction false} PowMore(b: nat, n: nat, m: nat)
    ensures Pow(b, n + m) == Pow(b, n) * Pow(b, m)
  {
    if m > 0 {
      PowMore(b, n, m - 1);
      calc {
        Pow(b, n + m);
        Pow(b, n + (m - 1)) * b;
        Pow(b, n) * Pow(b, m - 1) * b;
        Pow(b, n) * (Pow(b, m - 1) * b);
      }
    }
  }

  lemma GroupNumber(g: seq<sextet>, vs: seq<sextet>, t: seq<byte>, bs: seq<byte>)
    requires SameNumber(vs, bs) && BigEndian(t) == Base64Value(g)
    ensures BigEndian(t + bs) == Base64Value(g + vs) / Spare(|vs|)
  {
    Base64Append(g, vs);
    BigEndianAppend(t, bs);
    GroupValue(Base64Value(g), Base64Value(vs), Pow(64, |vs|), Pow(256, |bs|), Spare(|vs|));
  }

  lemma PushSpare(p: nat, spare: nat, q: nat)
    ensures p * spare * q == p * q * spare
  {}

  lemma PowersMeet()
    ensures Pow(64, 4) == 16777216 == Pow(256, 3)
  {
    assert Pow(64, 2) == 4096 && Pow(256, 2) == 65536;
  }

  lemma FourForThree(n: nat, m: nat)
    requires SameSize(n, m)
    ensures SameSize(n + 4, m + 3) && Spare(n + 4) == Spare(n)
  {
    PowMore(64, n, 4);
    PowMore(256, m, 3);
    PowersMeet();
    PushSpare(Pow(256, m), Spare(n), 16777216);
  }

  /** Four sextets and three bytes in front keep the numbers the same. */
  lemma GroupInFront(g: seq<sextet>, vs: seq<sextet>, t: seq<byte>, bs: seq<byte>)
    requires SameNumber(vs, bs) && BigEndian(t) == Base64Value(g) && |g| == 4 && |t| == 3
    ensures SameNumber(g + vs, t + bs)
  {
    assert BigEndian(t + bs) == Base64Value(g + vs) / Spare(|vs|) by { GroupNumber(g, vs, t, bs); }
    FourForThree(|vs|, |bs|);
    assert |g + vs| == |vs| + 4 && |t + bs| == |bs| + 3;
  }

  lemma {:induction false} ValueOfBytes(vs: seq<sextet>)
    requires |vs| % 4 != 1
    ensures Bytes(vs).Some? && SameNumber(vs, Bytes(vs).value)
  {
    BytesAccepts(vs);
    if |vs| < 4 {
      ValueOfShort(vs);
    } else {
      ValueOfBytes(vs[4..]);
      var g := [vs[0], vs[1], vs[2], vs[3]];
      ValueOfTriple(vs[0], vs[1], vs[2], vs[3]);
      GroupInFront(g, vs[4..], Triple(vs[0], vs[1], vs[2], vs[3]), Bytes(vs[4..]).value);
      assert vs == g + vs[4..];
    }
  }

  /**
   The value of decoding: a string over the alphabet stands for the bytes whose big-endian
   number is that of its characters' positions in base 64, less the unused low bits.
   */
  lemma DecodeValue(s: string, ps: seq<sextet>)
    requires Spells(s, ps) && |s| % 4 != 1
    ensures
      Base64URLDecode(s).Ok? &&
      var bs := Base64URLDecode(s).value;
      && |bs| == |s| * 3 / 4
      && BigEndian(bs) == Base64Value(ps) / match |s| % 4 case 2 => 16 case 3 => 4 case _ => 1
  {
    forall i | 0 <= i < |s| ensures Meaning(s[i]) == Six(ps[i]) {
      DigitIsListed(ps[i]);
      MeaningOfDigit(ps[i]);
    }
    assert Values(s) == ps;
    DecodeUnpadded(s);
    ValueOfBytes(ps);
  }

  /** The strings meant are those of the characters listed, and "=" is not among them. */
  lemma UnpaddedExactly(s: string)
    ensures Unpadded(s) <==> forall c :: c in s ==> c in ALPHABET
  {
    forall c: char ensures Meaning(c).Six? <==> c in ALPHABET {
      if Meaning(c).Six? {
        DigitIsListed(Meaning(c).v);
      }
      if c in ALPHABET {
        var i :| 0 <= i < |ALPHABET| && ALPHABET[i] == c;
        DigitIsListed(i);
        MeaningOfDigit(i);
      }
    }
    if Unpadded(s) { forall c | c in s ensures Meaning(c).Six? {} }
  }

  // ---- Compact tokens ----

  datatype TokenError = EmptyToken | WantThreeSegments | BadHeader | BadSignature | BadPayload

  /** What Verify takes out of a token before it looks at any of it. */
  datatype Compact = Compact(header: seq<byte>, payload: seq<byte>, signature: seq<byte>, signedData: string)

  /** The splitting and decoding of Verify, in its order; key lookup, JSON and RSA are not part of it. */
  function ParseCompact(token: string): Result<Compact, TokenError> {
    if token == "" then Err(EmptyToken)
    else
      var parts := Split(token, '.');
      if |parts| != 3 then Err(WantThreeSegments)
      else
        match Base64URLDecode(parts[0])
        case Err(_) => Err(BadHeader)
        case Ok(h) =>
          match Base64URLDecode(parts[2])
          case Err(_) => Err(BadSignature)
          case Ok(s) =>
            match Base64URLDecode(parts[1])
            case Err(_) => Err(BadPayload)
            case Ok(p) => Ok(Compact(h, p, s, parts[0] + "." + parts[1]))
  }

  function Serialize(h: seq<byte>, p: seq<byte>, s: seq<byte>): string {
    Join([Encode(h), Encode(p), Encode(s)], '.')
  }

  /** Whatever the three parts are, they and the exact signed text are recovered. */
  lemma CompactRoundTrip(h: seq<byte>, p: seq<byte>, s: seq<byte>)
    ensures ParseCompact(Serialize(h, p, s)) == Ok(Compact(h, p, s, Encode(h) + "." + Encode(p)))
  {
    var parts := [Encode(h), Encode(p), Encode(s)];
    EncodedValues(h);
    EncodedValues(p);
    EncodedValues(s);
    forall i | 0 <= i < 3 ensures '.' !in parts[i] { AlphabetIsPlain(parts[i]); }
    SplitJoin(parts, '.');
    DecodeRoundTrip(h);
    DecodeRoundTrip(p);
    DecodeRoundTrip(s);
    assert Serialize(h, p, s) != "" by {
      assert parts[1..] == [Encode(p), Encode(s)];
      assert Serialize(h, p, s)[|Encode(h)|] == '.';
    }
  }

  /** Three segments without dots, as Split cuts them. */
  ghost predicate ThreeSegments(token: string, a: string, b: string, c: string) {
    '.' !in a && '.' !in b && '.' !in c && token == a + "." + b + "." + c
  }

  lemma JoinThree(a: string, b: string, c: string)
    ensures Join([a, b, c], '.') == a + "." + b + "." + c
  {
    assert [a, b, c][1..] == [b, c] && [b, c][1..] == [c];
    assert Join([b, c], '.') == b + "." + c;
  }

  /**
   A token is accepted exactly if it is three dotless segments that each decode; the parts
   are those segments, and the signed text is the token up to its last dot.
   */
  lemma ParsesExactly(token: string, t: Compact)
    ensures ParseCompact(token) == Ok(t) <==>
            exists a, b, c :: ThreeSegments(token, a, b, c)
              && Base64URLDecode(a) == Ok(t.header) && Base64URLDecode(b) == Ok(t.payload)
              && Base64URLDecode(c) == Ok(t.signature) && t.signedData == a + "." + b
  {
    if ParseCompact(token) == Ok(t) {
      var parts := Split(token, '.');
      JoinSplit(token, '.');
      JoinThree(parts[0], parts[1], parts[2]);
      assert parts == [parts[0], parts[1], parts[2]];
      assert ThreeSegments(token, parts[0], parts[1], parts[2]);
    }
    forall a, b, c | ThreeSegments(token, a, b, c) ensures Split(token, '.') == [a, b, c] {
      JoinThree(a, b, c);
      SplitJoin([a, b, c], '.');
    }
  }

  /** Why a token is refused: not three segments, or the first of header, signature and payload to be corrupt. */
  lemma RefusedExactly(token: string, a: string, b: string, c: string)
    ensures token == "" ==> ParseCompact(token) == Err(EmptyToken)
    ensures token != "" && (forall p, q, r :: !ThreeSegments(token, p, q, r)) ==>
              ParseCompact(token) == Err(WantThreeSegments)
    ensures ThreeSegments(token, a, b, c) ==>
              && (ParseCompact(token) == Err(BadHeader) <==> Base64URLDecode(a).Err?)
              && (ParseCompact(token) == Err(BadSignature) <==> Base64URLDecode(a).Ok? && Base64URLDecode(c).Err?)
              && (ParseCompact(token) == Err(BadPayload) <==>
                    Base64URLDecode(a).Ok? && Base64URLDecode(c).Ok? && Base64URLDecode(b).Err?)
  {
    if ThreeSegments(token, a, b, c) {
      JoinThree(a, b, c);
      SplitJoin([a, b, c], '.');
    }
    var parts := Split(token, '.');
    if |parts| == 3 {
      JoinSplit(token, '.');
      JoinThree(parts[0], parts[1], parts[2]);
      assert parts == [parts[0], parts[1], parts[2]];
      assert ThreeSegments(token, parts[0], parts[1], parts[2]);
    }
  }

  // ---- The exponent of a key ----

  const WORD := 0x1_0000_0000_0000_0000

  /** Go's bitwise or on words. */
  function Or(x: nat, y: nat): nat
    decreases x + y
  {
    if x == 0 && y == 0 then 0
    else (if x % 2 == 1 || y % 2 == 1 then 1 else 0) + 2 * Or(x / 2, y / 2)
  }

  /** The 64-bit int a word stands for. */
  function Signed(w: nat): int {
    if w < WORD / 2 then w else w - WORD
  }

  /** Section 6.3.1.2 of RFC 7518: the big-endian value of the bytes. */
  function BigEndian(bs: seq<byte>): nat {
    if bs == [] then 0 else BigEndian(bs[..|bs| - 1]) * 256 + bs[|bs| - 1]
  }

  lemma {:induction false} OrDisjoint(k: nat, low: nat, width: nat)
    requires low < Pow2(width)
    ensures Or(k * Pow2(width), low) == k * Pow2(width) + low
    decreases width
  {
    if width == 0 {
      OrZero(k);
    } else {
      var half := Pow2(width - 1);
      assert k * Pow2(width) == 2 * (k * half);
      OrDisjoint(k, low / 2, width - 1);
      assert (k * Pow2(width)) % 2 == 0 && (k * Pow2(width)) / 2 == k * half;
    }
  }

  lemma {:induction false} OrZero(k: nat)
    ensures Or(k, 0) == k
  {
    if k != 0 { OrZero(k / 2); }
  }

  function Pow2(n: nat): nat {
    if n == 0 then 1 else 2 * Pow2(n - 1)
  }

  lemma Byte()
    ensures Pow2(8) == 256
  {
    assert Pow2(4) == 16;
  }

  lemma {:induction false} ModPlus(x: nat, q: nat)
    ensures (x + q * WORD) % WORD == x % WORD
  {
    if q > 0 {
      ModPlus(x, q - 1);
      assert x + q * WORD == x + (q - 1) * WORD + WORD;
    }
  }

  /** What is left of w after its top byte is shifted out. */
  function Kept(w: nat): nat {
    w % 0x100_0000_0000_0000
  }

  lemma ShiftOut(w: nat, b: byte)
    ensures Kept(w) * 256 + b < WORD && (w * 256 + b) % WORD == Kept(w) * 256 + b
  {
    var high := w / 0x100_0000_0000_0000;
    assert w * 256 + b == (Kept(w) * 256 + b) + high * WORD;
    ModPlus(Kept(w) * 256 + b, high);
  }

  /** Shifting left by eight and or-ing a byte in is appending a base-256 digit, modulo the word. */
  lemma ShiftOr(w: nat, b: byte)
    requires w < WORD
    ensures Or(w * 256 % WORD, b) == (w * 256 + b) % WORD
  {
    ShiftOut(w, 0);
    ShiftOut(w, b);
    Byte();
    assert w * 256 % WORD == Kept(w) * Pow2(8);
    OrDisjoint(Kept(w), b, 8);
  }

  /** The exponent a key gets from these bytes: their value, if an int can hold it. */
  function ExponentOf(eBytes: seq<byte>): (e: int)
    ensures e == BigEndian(eBytes) <==> BigEndian(eBytes) < 0x8000_0000_0000_0000
    ensures -0x8000_0000_0000_0000 <= e < 0x8000_0000_0000_0000
    ensures (BigEndian(eBytes) - e) % 0x1_0000_0000_0000_0000 == 0
  {
    Signed(BigEndian(eBytes) % WORD)
  }

  /** The loop of refresh over the exponent's bytes, in 64-bit words. */
  method Exponent(eBytes: seq<byte>) returns (e: int)
    ensures e == ExponentOf(eBytes)
  {
    var w: nat := 0;
    for i := 0 to |eBytes|
      invariant w == BigEndian(eBytes[..i]) % WORD
    {
      assert eBytes[..i + 1][..i] == eBytes[..i];
      ShiftOr(w, eBytes[i]);
      w := Or(w * 256 % WORD, eBytes[i]);
      ModStep(BigEndian(eBytes[..i]), eBytes[i]);
    }
    assert eBytes[..|eBytes|] == eBytes;
    e := Signed(w);
  }

  lemma ModStep(n: nat, b: byte)
    ensures (n % WORD * 256 + b) % WORD == (n * 256 + b) % WORD
  {
    assert n == n / WORD * WORD + n % WORD;
    var q := n / WORD;
    assert n * 256 + b == (n % WORD * 256 + b) + (q * 256) * WORD;
    ModPlus(n % WORD * 256 + b, q * 256);
  }

  /** Leading zero bytes do not change the value. */
  lemma {:induction false} LeadingZeros(bs: seq<byte>)
    ensures BigEndian([0] + bs) == BigEndian(bs)
  {
    if bs == [] {
      assert BigEndian([0]) == BigEndian([]) * 256 + 0;
    } else {
      assert ([0] + bs)[..|bs|] == [0] + bs[..|bs| - 1];
      LeadingZeros(bs[..|bs| - 1]);
    }
  }
}
