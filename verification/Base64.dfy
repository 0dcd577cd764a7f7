/** Unpadded base64 (sections 3.2, 4 and 5 of RFC 4648) as Go's RawStdEncoding and
    RawURLEncoding do it. */
module Base64 {
  import opened Wrappers

  type byte = x: int | 0 <= x < 256
  type sextet = x: int | 0 <= x < 64

  datatype Alphabet = Standard | UrlSafe

  function Symbol(a: Alphabet, v: sextet): char {
    if v < 26 then 'A' + v as char
    else if v < 52 then 'a' + (v - 26) as char
    else if v < 62 then '0' + (v - 52) as char
    else if v == 62 then (if a == Standard then '+' else '-')
    else (if a == Standard then '/' else '_')
  }

  function Value(a: Alphabet, c: char): Option<sextet> {
    if 'A' <= c <= 'Z' then Some((c - 'A') as int)
    else if 'a' <= c <= 'z' then Some((c - 'a') as int + 26)
    else if '0' <= c <= '9' then Some((c - '0') as int + 52)
    else if c == (if a == Standard then '+' else '-') then Some(62)
    else if c == (if a == Standard then '/' else '_') then Some(63)
    else None
  }

  lemma ValueOfSymbol(a: Alphabet, v: sextet)
    ensures Value(a, Symbol(a, v)) == Some(v)
  {
  }

  // ---- bytes and sextets ----

  function S0(x: byte): sextet { x / 4 }

  function S1(x: byte, y: byte): sextet { x % 4 * 16 + y / 16 }

  function S2(y: byte, z: byte): sextet { y % 16 * 4 + z / 64 }

  function S3(z: byte): sextet { z % 64 }

  function LastOfOne(x: byte): sextet { x % 4 * 16 }

  function LastOfTwo(y: byte): sextet { y % 16 * 4 }

  function ToSextets(bs: seq<byte>): seq<sextet> {
    if bs == [] then []
    else if |bs| == 1 then [S0(bs[0]), LastOfOne(bs[0])]
    else if |bs| == 2 then [S0(bs[0]), S1(bs[0], bs[1]), LastOfTwo(bs[1])]
    else [S0(bs[0]), S1(bs[0], bs[1]), S2(bs[1], bs[2]), S3(bs[2])] + ToSextets(bs[3..])
  }

  function First(u: sextet, v: sextet): byte { u * 4 + v / 16 }

  function Second(v: sextet, w: sextet): byte { v % 16 * 16 + w / 4 }

  function Third(w: sextet, x: sextet): byte { w % 4 * 64 + x }

  /** A last group of one symbol is an error; spare bits of the last symbol are not checked. */
  function ToBytes(vs: seq<sextet>): Option<seq<byte>> {
    if vs == [] then Some([])
    else if |vs| == 1 then None
    else if |vs| == 2 then Some([First(vs[0], vs[1])])
    else if |vs| == 3 then Some([First(vs[0], vs[1]), Second(vs[1], vs[2])])
    else
      match ToBytes(vs[4..])
      case None => None
      case Some(rest) => Some([First(vs[0], vs[1]), Second(vs[1], vs[2]), Third(vs[2], vs[3])] + rest)
  }

  lemma GroupRoundTrip(x: byte, y: byte, z: byte)
    ensures First(S0(x), S1(x, y)) == x && Second(S1(x, y), S2(y, z)) == y && Third(S2(y, z), S3(z)) == z
    ensures First(S0(x), LastOfOne(x)) == x && Second(S1(x, y), LastOfTwo(y)) == y
  {
  }

  lemma DecodeGroup(t: sextet, u: sextet, v: sextet, w: sextet, rest: seq<sextet>, tail: seq<byte>)
    requires ToBytes(rest) == Some(tail)
    ensures ToBytes([t, u, v, w] + rest) == Some([First(t, u), Second(u, v), Third(v, w)] + tail)
  {
    assert ([t, u, v, w] + rest)[4..] == rest;
  }

  lemma ShortGroups(x: byte, y: byte)
    ensures ToBytes(ToSextets([x])) == Some([x]) && ToBytes(ToSextets([x, y])) == Some([x, y])
  {
    GroupRoundTrip(x, y, y);
    assert ToSextets([x]) == [S0(x), LastOfOne(x)];
    assert ToSextets([x, y]) == [S0(x), S1(x, y), LastOfTwo(y)];
  }

  lemma {:induction false} SextetsRoundTrip(bs: seq<byte>)
    ensures ToBytes(ToSextets(bs)) == Some(bs)
  {
    if |bs| == 0 {
    } else if |bs| == 1 {
      ShortGroups(bs[0], bs[0]);
      assert bs == [bs[0]];
    } else if |bs| == 2 {
      ShortGroups(bs[0], bs[1]);
      assert bs == [bs[0], bs[1]];
    } else {
      var x, y, z := bs[0], bs[1], bs[2];
      SextetsRoundTrip(bs[3..]);
      DecodeGroup(S0(x), S1(x, y), S2(y, z), S3(z), ToSextets(bs[3..]), bs[3..]);
      GroupRoundTrip(x, y, z);
      assert bs == [x, y, z] + bs[3..];
    }
  }

  lemma {:induction false} SextetCount(bs: seq<byte>)
    ensures |ToSextets(bs)| == (4 * |bs| + 2) / 3
  {
    if |bs| >= 3 {
      SextetCount(bs[3..]);
    }
  }

  // ---- text ----

  function Spell(a: Alphabet, vs: seq<sextet>): (s: string)
    ensures |s| == |vs| && forall i :: 0 <= i < |vs| ==> s[i] == Symbol(a, vs[i])
  {
    seq(|vs|, i requires 0 <= i < |vs| => Symbol(a, vs[i]))
  }

  /** Line breaks are skipped; any other character outside the alphabet is an error. */
  function Read(a: Alphabet, s: string): Option<seq<sextet>> {
    if s == [] then Some([])
    else if s[0] == '\r' || s[0] == '\n' then Read(a, s[1..])
    else
      match (Value(a, s[0]), Read(a, s[1..]))
      case (Some(v), Some(rest)) => Some([v] + rest)
      case _ => None
  }

  function Encode(a: Alphabet, bs: seq<byte>): string {
    Spell(a, ToSextets(bs))
  }

  function Decode(a: Alphabet, s: string): Option<seq<byte>> {
    match Read(a, s)
    case None => None
    case Some(vs) => ToBytes(vs)
  }

  lemma {:induction false} ReadSpelled(a: Alphabet, vs: seq<sextet>)
    ensures Read(a, Spell(a, vs)) == Some(vs)
  {
    if vs != [] {
      ReadSpelled(a, vs[1..]);
      ValueOfSymbol(a, vs[0]);
      assert Spell(a, vs)[1..] == Spell(a, vs[1..]);
      assert vs == [vs[0]] + vs[1..];
    }
  }

  /** Decoding recovers every byte string. */
  lemma RoundTrip(a: Alphabet, bs: seq<byte>)
    ensures Decode(a, Encode(a, bs)) == Some(bs)
    ensures |Encode(a, bs)| == (4 * |bs| + 2) / 3
  {
    SextetsRoundTrip(bs);
    SextetCount(bs);
    ReadSpelled(a, ToSextets(bs));
  }

  /** Encoded text holds none of the separators it is embedded between. */
  lemma EncodedHasNoSeparator(a: Alphabet, bs: seq<byte>)
    ensures forall c <- Encode(a, bs) :: c !in {'$', ',', '=', ':', ' ', '\t', '\n', '\r', 11 as char, 12 as char}
  {
  }

  function IsBreak(c: char): bool { c == '\r' || c == '\n' }

  /** The symbols of a text without its line breaks. */
  function Symbols(s: string): string {
    if s == [] then [] else (if IsBreak(s[0]) then [] else [s[0]]) + Symbols(s[1..])
  }

  lemma {:induction false} ReadIff(a: Alphabet, s: string)
    ensures Read(a, s).Some? <==> forall c <- Symbols(s) :: Value(a, c).Some?
    ensures Read(a, s).Some? ==> |Read(a, s).value| == |Symbols(s)|
  {
    if s != [] { ReadIff(a, s[1..]); }
  }

  lemma {:induction false} ToBytesIff(vs: seq<sextet>)
    ensures ToBytes(vs).Some? <==> |vs| % 4 != 1
    ensures ToBytes(vs).Some? ==> |ToBytes(vs).value| == |vs| * 3 / 4
    decreases |vs|
  {
    if |vs| >= 4 { ToBytesIff(vs[4..]); }
  }

  /** A text decodes exactly if, line breaks aside, it is of the alphabet and no single symbol is
      left over; there is no padding to be skipped. */
  lemma DecodesIff(a: Alphabet, s: string)
    ensures Decode(a, s).Some? <==> (forall c <- Symbols(s) :: Value(a, c).Some?) && |Symbols(s)| % 4 != 1
    ensures Decode(a, s).Some? ==> |Decode(a, s).value| == |Symbols(s)| * 3 / 4
    ensures Value(a, '=') == None
  {
    ReadIff(a, s);
    if Read(a, s).Some? { ToBytesIff(Read(a, s).value); }
  }

  /** Vectors of section 10 of RFC 4648, and the symbols in which the alphabets differ. */
  lemma Vectors()
    ensures Encode(Standard, [102]) == "Zg" && Encode(Standard, [102, 111]) == "Zm8" && Encode(Standard, [102, 111, 111]) == "Zm9v"
    ensures Encode(Standard, [251, 255]) == "+/8" && Encode(UrlSafe, [251, 255]) == "-_8"
  {
  }
}
