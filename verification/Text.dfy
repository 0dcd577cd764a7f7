/** ASCII string helpers shared by the models: trimming, case mapping and splitting,
    as Go's `strings` package does them on ASCII input. */
module Text {
  import opened Wrappers

  predicate IsSpace(c: char) {
    c == ' ' || ('\t' <= c <= '\r')
  }

  function TrimLeft(s: string): string {
    if s == [] then []
    else if IsSpace(s[0]) then TrimLeft(s[1..])
    else s
  }

  function TrimRight(s: string): string {
    if s == [] then []
    else if IsSpace(s[|s| - 1]) then TrimRight(s[..|s| - 1])
    else s
  }

  /** strings.TrimSpace. */
  function Trim(s: string): string {
    TrimRight(TrimLeft(s))
  }

  lemma {:induction false} TrimLeftHolds(s: string)
    ensures var t := TrimLeft(s);
            && |t| <= |s| && (t != [] ==> !IsSpace(t[0]))
            && (forall c <- t :: c in s)
  {
    if s != [] && IsSpace(s[0]) { TrimLeftHolds(s[1..]); }
  }

  lemma {:induction false} TrimRightHolds(s: string)
    ensures var t := TrimRight(s);
            && t <= s && (t != [] ==> !IsSpace(t[|t| - 1]))
  {
    if s != [] && IsSpace(s[|s| - 1]) { TrimRightHolds(s[..|s| - 1]); }
  }

  /** Trimmed text neither begins nor ends with a space, and other text is left alone. */
  lemma TrimHolds(s: string)
    ensures var t := Trim(s);
            && |t| <= |s| && (t != [] ==> !IsSpace(t[0]) && !IsSpace(t[|t| - 1]))
    ensures s != [] && !IsSpace(s[0]) && !IsSpace(s[|s| - 1]) ==> Trim(s) == s
  {
    TrimLeftHolds(s);
    TrimRightHolds(TrimLeft(s));
  }

  function UpperChar(c: char): char {
    if 'a' <= c <= 'z' then c - 'a' + 'A' else c
  }

  function LowerChar(c: char): char {
    if 'A' <= c <= 'Z' then c - 'A' + 'a' else c
  }

  function Upper(s: string): (u: string)
    ensures |u| == |s| && forall i :: 0 <= i < |s| ==> u[i] == UpperChar(s[i])
  {
    seq(|s|, i requires 0 <= i < |s| => UpperChar(s[i]))
  }

  function Lower(s: string): (u: string)
    ensures |u| == |s| && forall i :: 0 <= i < |s| ==> u[i] == LowerChar(s[i])
  {
    seq(|s|, i requires 0 <= i < |s| => LowerChar(s[i]))
  }

  lemma TrimIdempotent(s: string)
    ensures Trim(Trim(s)) == Trim(s)
  {
    TrimHolds(s);
    TrimmedStays(Trim(s));
  }

  lemma TrimmedStays(s: string)
    requires s != [] ==> !IsSpace(s[0]) && !IsSpace(s[|s| - 1])
    ensures Trim(s) == s
  {
  }

  lemma UpperIdempotent(s: string)
    ensures Upper(Upper(s)) == Upper(s)
  {
  }

  /** Keys in lower case without surrounding spaces do not tell letter cases apart. */
  lemma CaseFolds(s: string)
    ensures Lower(Trim(Upper(s))) == Lower(Trim(s))
  {
    TrimUpper(s);
    assert forall c: char :: LowerChar(UpperChar(c)) == LowerChar(c);
  }

  lemma TrimUpper(s: string)
    ensures Trim(Upper(s)) == Upper(Trim(s))
  {
    TrimLeftUpper(s);
    TrimRightUpper(TrimLeft(s));
  }

  lemma {:induction false} TrimLeftUpper(s: string)
    ensures TrimLeft(Upper(s)) == Upper(TrimLeft(s))
  {
    if s != [] {
      UpperCharSpace(s[0]);
      assert Upper(s)[1..] == Upper(s[1..]);
      TrimLeftUpper(s[1..]);
    }
  }

  lemma {:induction false} TrimRightUpper(s: string)
    ensures TrimRight(Upper(s)) == Upper(TrimRight(s))
  {
    if s != [] {
      UpperCharSpace(s[|s| - 1]);
      assert Upper(s)[..|s| - 1] == Upper(s[..|s| - 1]);
      TrimRightUpper(s[..|s| - 1]);
    }
  }

  /** Normalising a permission code twice changes nothing. */
  lemma UpperTrimIdempotent(s: string)
    ensures Upper(Trim(Upper(Trim(s)))) == Upper(Trim(s))
  {
    TrimHolds(s);
    UpperKeepsEnds(Trim(s));
    TrimmedStays(Upper(Trim(s)));
    UpperIdempotent(Trim(s));
  }

  lemma UpperKeepsEnds(t: string)
    requires t != [] ==> !IsSpace(t[0]) && !IsSpace(t[|t| - 1])
    ensures Upper(t) != [] ==> !IsSpace(Upper(t)[0]) && !IsSpace(Upper(t)[|t| - 1])
  {
    if t != [] {
      UpperCharSpace(t[0]);
      UpperCharSpace(t[|t| - 1]);
    }
  }

  lemma UpperCharSpace(c: char)
    ensures IsSpace(UpperChar(c)) == IsSpace(c)
  {
  }

  /** strings.Split on a one-character separator. */
  function Split(s: string, sep: char): (parts: seq<string>)
    ensures |parts| >= 1
  {
    if s == [] then [""]
    else if s[0] == sep then [""] + Split(s[1..], sep)
    else
      var rest := Split(s[1..], sep);
      [[s[0]] + rest[0]] + rest[1..]
  }

  /** A piece without the separator is cut off exactly at the first separator. */
  lemma {:induction false} SplitPiece(piece: string, sep: char, rest: string)
    requires sep !in piece
    ensures Split(piece + [sep] + rest, sep) == [piece] + Split(rest, sep)
  {
    var s := piece + [sep] + rest;
    if piece == [] {
      assert s[1..] == rest;
    } else {
      SplitPiece(piece[1..], sep, rest);
      assert s[1..] == piece[1..] + [sep] + rest;
      assert [piece[0]] + piece[1..] == piece;
    }
  }

  lemma {:induction false} SplitLast(piece: string, sep: char)
    requires sep !in piece
    ensures Split(piece, sep) == [piece]
  {
    if piece != [] {
      SplitLast(piece[1..], sep);
      assert [piece[0]] + piece[1..] == piece;
    }
  }

  function Join(pieces: seq<string>, sep: char): string {
    if pieces == [] then ""
    else if |pieces| == 1 then pieces[0]
    else pieces[0] + [sep] + Join(pieces[1..], sep)
  }

  lemma {:induction false} SplitJoin(pieces: seq<string>, sep: char)
    requires pieces != [] && forall p <- pieces :: sep !in p
    ensures Split(Join(pieces, sep), sep) == pieces
  {
    if |pieces| == 1 {
      SplitLast(pieces[0], sep);
    } else {
      assert forall p <- pieces[1..] :: p in pieces;
      SplitJoin(pieces[1..], sep);
      SplitPiece(pieces[0], sep, Join(pieces[1..], sep));
    }
  }

  predicate NoSpace(s: string) {
    forall c <- s :: !IsSpace(c)
  }

  lemma {:induction false} JoinNoSpace(pieces: seq<string>, sep: char)
    requires !IsSpace(sep) && forall p <- pieces :: NoSpace(p)
    ensures NoSpace(Join(pieces, sep))
  {
    if |pieces| > 1 {
      assert forall p <- pieces[1..] :: p in pieces;
      JoinNoSpace(pieces[1..], sep);
      assert NoSpace(pieces[0]);
    }
  }

  /** strings.SplitN(s, sep, 2) when the separator occurs: what is before and after its first
      occurrence. */
  function Cut(s: string, sep: char): Option<(string, string)> {
    if s == [] then None
    else if s[0] == sep then Some(("", s[1..]))
    else
      match Cut(s[1..], sep)
      case None => None
      case Some((a, b)) => Some(([s[0]] + a, b))
  }

  lemma {:induction false} CutPiece(a: string, sep: char, b: string)
    requires sep !in a
    ensures Cut(a + [sep] + b, sep) == Some((a, b))
  {
    var s := a + [sep] + b;
    if a != [] {
      CutPiece(a[1..], sep, b);
      assert s[1..] == a[1..] + [sep] + b;
      assert a == [a[0]] + a[1..];
    }
  }
}
