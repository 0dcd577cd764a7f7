/** The Argon2id password hash strings of internal/security/hashing.go.  The key derivation
    function, the bcrypt comparison and the random salt are parameters. */
module PasswordHash {
  import opened Base64
  import opened Decimal
  import opened Text
  import opened Wrappers

  const UINT32 := 0x1_0000_0000
  const UINT8 := 0x100

  datatype Params = Params(memory: nat, iterations: nat, parallelism: nat, saltLength: nat, keyLength: nat)

  predicate InRange(p: Params) {
    && p.memory < UINT32 && p.iterations < UINT32 && p.parallelism < UINT8
    && p.saltLength < UINT32 && p.keyLength < UINT32
  }

  /** password, salt, iterations, memory, parallelism, key length. */
  type Kdf = (string, seq<byte>, nat, nat, nat, nat) -> seq<byte>

  ghost predicate KeysHaveLength(kdf: Kdf) {
    forall w, s, t, m, p, n :: |kdf(w, s, t, m, p, n)| == n
  }

  datatype HashResult = Hashed(text: string) | Failed(message: string) | Panicked

  function ParamText(p: Params): string {
    Join(["m=" + Digits(p.memory), "t=" + Digits(p.iterations), "p=" + Digits(p.parallelism)], ',')
  }

  function Fields(p: Params, salt: seq<byte>, key: seq<byte>): seq<string> {
    ["", "argon2id", "v=19", ParamText(p), Encode(Standard, salt), Encode(Standard, key)]
  }

  /** The derivation panics on a zero iteration count, thread count or key length. */
  function Hash(password: string, p: Params, salt: seq<byte>, kdf: Kdf): HashResult {
    if Trim(password) == "" then Failed("password required")
    else if p.iterations < 1 || p.parallelism < 1 || p.keyLength < 1 then Panicked
    else Hashed(Join(Fields(p, salt, kdf(password, salt, p.iterations, p.memory, p.parallelism, p.keyLength)), '$'))
  }

  // ---- reading ----

  datatype Costs = Costs(memory: nat, iterations: nat, parallelism: nat)

  const PANIC := "the derivation panics"
  const BAD_PARAMS := "invalid password hash params"

  function ParsePair(c: Costs, raw: string): Result<Costs> {
    var kv := Trim(raw);
    if kv == "" then Ok(c)
    else
      match Cut(kv, '=')
      case None => Err(BAD_PARAMS)
      case Some((name, text)) =>
        if name !in {"m", "t", "p"} then Ok(c)
        else
          match ParseUint(text, if name == "p" then UINT8 else UINT32)
          case None => Err(BAD_PARAMS)
          case Some(v) =>
            Ok(if name == "m" then c.(memory := v)
               else if name == "t" then c.(iterations := v)
               else c.(parallelism := v))
  }

  function ParsePairs(c: Costs, pairs: seq<string>): Result<Costs>
    decreases |pairs|
  {
    if pairs == [] then Ok(c)
    else
      match ParsePair(c, pairs[0])
      case Err(e) => Err(e)
      case Ok(d) => ParsePairs(d, pairs[1..])
  }

  function ParseCosts(s: string): Result<Costs> {
    match ParsePairs(Costs(0, 0, 0), Split(s, ','))
    case Err(e) => Err(e)
    case Ok(c) => if c.memory == 0 || c.iterations == 0 || c.parallelism == 0 then Err(BAD_PARAMS) else Ok(c)
  }

  /** The loop over the comma-separated pairs; later pairs overwrite earlier ones. */
  method ParseArgon2Params(s: string) returns (r: Result<Costs>)
    ensures r == ParseCosts(s)
  {
    var mem, it, par := 0, 0, 0;
    var pairs := Split(s, ',');
    var i := 0;
    while i < |pairs|
      invariant 0 <= i <= |pairs|
      invariant ParsePairs(Costs(0, 0, 0), pairs) == ParsePairs(Costs(mem, it, par), pairs[i..])
    {
      assert pairs[i..][1..] == pairs[i + 1..];
      var kv := Trim(pairs[i]);
      i := i + 1;
      if kv == "" { continue; }
      var pair := Cut(kv, '=');
      if pair == None { return Err(BAD_PARAMS); }
      var (name, text) := pair.value;
      if name == "m" {
        var v := ParseUint(text, UINT32);
        if v == None { return Err(BAD_PARAMS); }
        mem := v.value;
      } else if name == "t" {
        var v := ParseUint(text, UINT32);
        if v == None { return Err(BAD_PARAMS); }
        it := v.value;
      } else if name == "p" {
        var v := ParseUint(text, UINT8);
        if v == None { return Err(BAD_PARAMS); }
        par := v.value;
      }
    }
    if mem == 0 || it == 0 || par == 0 { return Err(BAD_PARAMS); }
    return Ok(Costs(mem, it, par));
  }

  datatype Decoded = Decoded(params: Params, salt: seq<byte>, key: seq<byte>)

  function DecodeArgon2id(encoded: string): Result<Decoded> {
    DecodeFields(Split(encoded, '$'))
  }

  function DecodeFields(parts: seq<string>): Result<Decoded> {
    if |parts| != 6 || parts[1] != "argon2id" then Err("invalid password hash format")
    else if parts[2] != "v=19" then Err("invalid password hash version")
    else Assemble(ParseCosts(parts[3]), Decode(Standard, parts[4]), Decode(Standard, parts[5]))
  }

  /** The first failing field decides the error. */
  function Assemble(costs: Result<Costs>, salt: Option<seq<byte>>, key: Option<seq<byte>>): Result<Decoded> {
    match costs
    case Err(e) => Err(e)
    case Ok(c) =>
      if salt == None then Err("invalid password hash salt")
      else if key == None then Err("invalid password hash key")
      else
        Ok(Decoded(Params(c.memory, c.iterations, c.parallelism, |salt.value| % UINT32, |key.value| % UINT32),
                   salt.value, key.value))
  }

  function Verify(hash: string, password: string, kdf: Kdf, bcrypt: (string, string) -> bool): Result<bool> {
    var encoded := Trim(hash);
    if Trim(password) == "" then Err("password required")
    else if encoded == "" then Err("password hash required")
    else if "$2a$" <= encoded || "$2b$" <= encoded || "$2y$" <= encoded then Ok(bcrypt(encoded, password))
    else
      match DecodeArgon2id(encoded)
      case Err(e) => Err(e)
      case Ok(d) =>
        if d.params.keyLength == 0 then Err(PANIC)
        else Ok(kdf(password, d.salt, d.params.iterations, d.params.memory, d.params.parallelism, d.params.keyLength) == d.key)
  }

  /** The text of every stored hash, in the usual form: algorithm, version, costs, salt and key. */
  lemma TextOfHash(p: Params, salt: seq<byte>, key: seq<byte>)
    requires |salt| == p.saltLength && |key| == p.keyLength
    ensures var fields := Fields(p, salt, key);
            && |fields| == 6 && fields[0] == "" && fields[1] == "argon2id" && fields[2] == "v=19"
            && fields[3] == ("m=" + Digits(p.memory)) + [','] + (("t=" + Digits(p.iterations)) + [','] + ("p=" + Digits(p.parallelism)))
            && Decode(Standard, fields[4]) == Some(salt) && Decode(Standard, fields[5]) == Some(key)
            && |fields[4]| == (4 * p.saltLength + 2) / 3 && |fields[5]| == (4 * p.keyLength + 2) / 3
  {
    RoundTrip(Standard, salt);
    RoundTrip(Standard, key);
    JoinThree("m=" + Digits(p.memory), "t=" + Digits(p.iterations), "p=" + Digits(p.parallelism));
  }

  lemma JoinThree(x: string, y: string, z: string)
    ensures Join([x, y, z], ',') == x + [','] + (y + [','] + z)
  {
    assert [x, y, z][1..] == [y, z] && [y, z][1..] == [z];
    assert Join([z], ',') == z;
    assert Join([y, z], ',') == y + [','] + z;
  }

  // ---- what is refused ----

  /** A stored text decodes exactly if it has six fields, the second and third say Argon2id in
      version 19, and the costs, the salt and the key read. */
  lemma DecodesIff(fields: seq<string>)
    requires forall f <- fields :: '$' !in f
    requires fields != []
    ensures var r := DecodeArgon2id(Join(fields, '$'));
            && (r.Ok? <==> |fields| == 6 && fields[1] == "argon2id" && fields[2] == "v=19" && ParseCosts(fields[3]).Ok?
                           && Decode(Standard, fields[4]).Some? && Decode(Standard, fields[5]).Some?)
            && (r.Ok? ==>
                  && r.value.salt == Decode(Standard, fields[4]).value && r.value.key == Decode(Standard, fields[5]).value
                  && Costs(r.value.params.memory, r.value.params.iterations, r.value.params.parallelism) == ParseCosts(fields[3]).value)
  {
    SplitJoin(fields, '$');
    FieldsDecodeIff(fields);
  }

  lemma FieldsDecodeIff(fields: seq<string>)
    ensures var r := DecodeFields(fields);
            && (r.Ok? <==> |fields| == 6 && fields[1] == "argon2id" && fields[2] == "v=19" && ParseCosts(fields[3]).Ok?
                           && Decode(Standard, fields[4]).Some? && Decode(Standard, fields[5]).Some?)
            && (r.Ok? ==>
                  && r.value.salt == Decode(Standard, fields[4]).value && r.value.key == Decode(Standard, fields[5]).value
                  && Costs(r.value.params.memory, r.value.params.iterations, r.value.params.parallelism) == ParseCosts(fields[3]).value)
  {
    if |fields| == 6 { AssembledIff(ParseCosts(fields[3]), Decode(Standard, fields[4]), Decode(Standard, fields[5])); }
  }

  lemma AssembledIff(costs: Result<Costs>, salt: Option<seq<byte>>, key: Option<seq<byte>>)
    ensures var r := Assemble(costs, salt, key);
            && (r.Ok? <==> costs.Ok? && salt.Some? && key.Some?)
            && (r.Ok? ==>
                  && r.value.salt == salt.value && r.value.key == key.value
                  && Costs(r.value.params.memory, r.value.params.iterations, r.value.params.parallelism) == costs.value)
  {
  }

  /** Old hashes, of either of three bcrypt versions, are left to bcrypt; nothing else is. */
  lemma BcryptIsAsked(hash: string, password: string, kdf: Kdf, bcrypt: (string, string) -> bool)
    requires Trim(password) != "" && |Trim(hash)| >= 4
    ensures var h := Trim(hash);
            h[0] == '$' && h[1] == '2' && h[2] in {'a', 'b', 'y'} && h[3] == '$' ==> Verify(hash, password, kdf, bcrypt) == Ok(bcrypt(h, password))
  {
    var h := Trim(hash);
    if h[0] == '$' && h[1] == '2' && h[3] == '$' {
      assert h[2] == 'a' ==> "$2a$" <= h;
      assert h[2] == 'b' ==> "$2b$" <= h;
      assert h[2] == 'y' ==> "$2y$" <= h;
    }
  }

  // ---- round trip ----

  lemma PairHasNoSeparator(name: char, n: nat)
    requires name in {'m', 't', 'p'}
    ensures NoSpace([name, '='] + Digits(n)) && ',' !in [name, '='] + Digits(n) && '$' !in [name, '='] + Digits(n)
  {
    forall c <- [name, '='] + Digits(n)
      ensures !IsSpace(c) && c != ',' && c != '$'
    {
      if c != name && c != '=' {
        assert c in Digits(n);
      }
    }
  }

  lemma ParsePrintedPair(c: Costs, name: char, n: nat)
    requires name in {'m', 't', 'p'} && n < (if name == 'p' then UINT8 else UINT32)
    ensures ParsePair(c, [name, '='] + Digits(n))
            == Ok(if name == 'm' then c.(memory := n) else if name == 't' then c.(iterations := n) else c.(parallelism := n))
  {
    var kv := [name, '='] + Digits(n);
    PairHasNoSeparator(name, n);
    TrimmedStays(kv);
    assert kv == [name] + ['='] + Digits(n);
    CutPiece([name], '=', Digits(n));
    ParseDigits(n);
  }

  /** The printed costs read back, unless one of them is zero. */
  lemma CostsRoundTrip(p: Params)
    requires InRange(p)
    ensures ParseCosts(ParamText(p))
            == if ZeroCost(p) then Err(BAD_PARAMS) else Ok(Costs(p.memory, p.iterations, p.parallelism))
    ensures NoSpace(ParamText(p)) && '$' !in ParamText(p)
  {
    var pm, pt, pp := "m=" + Digits(p.memory), "t=" + Digits(p.iterations), "p=" + Digits(p.parallelism);
    var pairs := [pm, pt, pp];
    PairHasNoSeparator('m', p.memory);
    PairHasNoSeparator('t', p.iterations);
    PairHasNoSeparator('p', p.parallelism);
    SplitJoin(pairs, ',');
    JoinNoSpace(pairs, ',');
    JoinAvoids(pairs, ',', '$');
    var c0 := Costs(0, 0, 0);
    var c1 := c0.(memory := p.memory);
    var c2 := c1.(iterations := p.iterations);
    ParsePrintedPair(c0, 'm', p.memory);
    ParsePrintedPair(c1, 't', p.iterations);
    ParsePrintedPair(c2, 'p', p.parallelism);
    assert pairs[1..] == [pt, pp] && pairs[1..][1..] == [pp] && pairs[1..][1..][1..] == [];
    assert ParsePairs(c2, [pp]) == ParsePairs(c2.(parallelism := p.parallelism), [pp][1..]);
    assert ParsePairs(c1, [pt, pp]) == ParsePairs(c2, [pt, pp][1..]);
    assert ParsePairs(c0, pairs) == ParsePairs(c1, pairs[1..]);
  }

  lemma {:induction false} JoinAvoids(pieces: seq<string>, sep: char, c: char)
    requires c != sep && forall p <- pieces :: c !in p
    ensures c !in Join(pieces, sep)
  {
    if |pieces| > 1 {
      assert forall p <- pieces[1..] :: p in pieces;
      JoinAvoids(pieces[1..], sep, c);
      assert c !in pieces[0];
    }
  }

  lemma FieldsAreClean(p: Params, salt: seq<byte>, key: seq<byte>)
    requires InRange(p)
    ensures forall f <- Fields(p, salt, key) :: Clean(f)
  {
    CostsRoundTrip(p);
    EncodedIsClean(salt);
    EncodedIsClean(key);
    assert Clean("") && Clean("argon2id") && Clean("v=19");
    var fields := Fields(p, salt, key);
    forall f <- fields ensures Clean(f) {
      var i :| 0 <= i < 6 && fields[i] == f;
    }
  }

  predicate Clean(f: string) { NoSpace(f) && '$' !in f }

  lemma EncodedIsClean(bs: seq<byte>)
    ensures Clean(Encode(Standard, bs))
  {
    EncodedHasNoSeparator(Standard, bs);
  }

  lemma TextIsTrimmed(p: Params, salt: seq<byte>, key: seq<byte>)
    requires InRange(p)
    ensures var text := Join(Fields(p, salt, key), '$');
            |text| > 1 && text[1] == 'a' && Trim(text) == text
  {
    var fields := Fields(p, salt, key);
    var text := Join(fields, '$');
    FieldsAreClean(p, salt, key);
    JoinNoSpace(fields, '$');
    var rest := Join(fields[1..], '$');
    assert text == "" + ['$'] + rest;
    assert rest == "argon2id" + ['$'] + Join(fields[1..][1..], '$');
    assert text[1] == rest[0];
    assert text[0] in text && text[|text| - 1] in text;
    TrimmedStays(text);
  }

  predicate ZeroCost(p: Params) {
    p.memory == 0 || p.iterations == 0 || p.parallelism == 0
  }

  lemma AssembleParts(p: Params, salt: seq<byte>, key: seq<byte>)
    requires InRange(p) && |salt| == p.saltLength && |key| == p.keyLength
    ensures Assemble(if ZeroCost(p) then Err(BAD_PARAMS) else Ok(Costs(p.memory, p.iterations, p.parallelism)), Some(salt), Some(key))
            == if ZeroCost(p) then Err(BAD_PARAMS) else Ok(Decoded(p, salt, key))
  {
  }

  /** Every printed string decodes to exactly what was printed, when no cost is zero. */
  lemma HashStringRoundTrip(p: Params, salt: seq<byte>, key: seq<byte>)
    requires InRange(p) && |salt| == p.saltLength && |key| == p.keyLength
    ensures DecodeArgon2id(Join(Fields(p, salt, key), '$'))
            == if ZeroCost(p) then Err(BAD_PARAMS) else Ok(Decoded(p, salt, key))
  {
    FieldsAreClean(p, salt, key);
    SplitJoin(Fields(p, salt, key), '$');
    CostsRoundTrip(p);
    RoundTrip(Standard, salt);
    RoundTrip(Standard, key);
    AssembleParts(p, salt, key);
  }

  /** A hash verifies a password exactly when the memory cost is not zero and the derivation
      agrees on both passwords: the printer accepts a zero memory cost, the parser does not. */
  lemma HashVerifiesIff(password: string, other: string, p: Params, salt: seq<byte>, kdf: Kdf, bcrypt: (string, string) -> bool)
    requires InRange(p) && |salt| == p.saltLength && KeysHaveLength(kdf)
    requires Trim(password) != "" && Trim(other) != "" && p.iterations > 0 && p.parallelism > 0 && p.keyLength > 0
    ensures var h := Hash(password, p, salt, kdf);
            && h.Hashed?
            && Verify(h.text, other, kdf, bcrypt)
               == if p.memory == 0 then Err(BAD_PARAMS)
                  else Ok(kdf(other, salt, p.iterations, p.memory, p.parallelism, p.keyLength)
                          == kdf(password, salt, p.iterations, p.memory, p.parallelism, p.keyLength))
  {
    var key := kdf(password, salt, p.iterations, p.memory, p.parallelism, p.keyLength);
    assert |key| == p.keyLength;
    TextIsTrimmed(p, salt, key);
    HashStringRoundTrip(p, salt, key);
    var text := Join(Fields(p, salt, key), '$');
    assert "$2a$"[1] == "$2b$"[1] == "$2y$"[1] == '2';
  }

  /** Hence a fresh hash verifies its own password, whatever the salt, unless a cost or the key
      length is zero. */
  lemma OwnPasswordVerifiesIff(password: string, p: Params, salt: seq<byte>, kdf: Kdf, bcrypt: (string, string) -> bool)
    requires InRange(p) && |salt| == p.saltLength && KeysHaveLength(kdf)
    ensures var h := Hash(password, p, salt, kdf);
            (h.Hashed? && Verify(h.text, password, kdf, bcrypt) == Ok(true))
            <==> (Trim(password) != "" && p.memory > 0 && p.iterations > 0 && p.parallelism > 0 && p.keyLength > 0)
  {
    if Trim(password) != "" && p.iterations > 0 && p.parallelism > 0 && p.keyLength > 0 {
      HashVerifiesIff(password, password, p, salt, kdf, bcrypt);
    }
  }
}
