/** The standard base64 encoding, section 4 of RFC 4648, with the decoder's leniencies: line breaks
  are skipped anywhere and the unused bits before a pad are not checked. */
module Base64 {
  import opened Bytes

  type Sextet = n: nat | n < 64

  function Symbol(n: Sextet): char {
    if n < 26 then (n + 65) as char
    else if n < 52 then (n + 71) as char
    else if n < 62 then (n - 4) as char
    else if n == 62 then '+'
    else '/'
  }

  function Value(c: char): Option<Sextet> {
    if 'A' <= c <= 'Z' then Some(c as int - 65)
    else if 'a' <= c <= 'z' then Some(c as int - 71)
    else if '0' <= c <= '9' then Some(c as int + 4)
    else if c == '+' then Some(62)
    else if c == '/' then Some(63)
    else None
  }

  /** Three bytes as four six-bit groups. */
  function Split(a: byte, b: byte, c: byte): (Sextet, Sextet, Sextet, Sextet) {
    (a / 4, a % 4 * 16 + b / 16, b % 16 * 4 + c / 64, c % 64)
  }

  /** Four six-bit groups as three bytes. */
  function Join(x: Sextet, y: Sextet, z: Sextet, w: Sextet): (byte, byte, byte) {
    (x * 4 + y / 16, y % 16 * 16 + z / 4, z % 4 * 64 + w)
  }

  function Encode(b: Bytes): string {
    if b == [] then ""
    else if |b| == 1 then
      var q := Split(b[0], 0, 0);
      [Symbol(q.0), Symbol(q.1), '=', '=']
    else if |b| == 2 then
      var q := Split(b[0], b[1], 0);
      [Symbol(q.0), Symbol(q.1), Symbol(q.2), '=']
    else
      var q := Split(b[0], b[1], b[2]);
      [Symbol(q.0), Symbol(q.1), Symbol(q.2), Symbol(q.3)] + Encode(b[3..])
  }

  function SkipBreaks(s: string): string {
    if s == [] then []
    else (if s[0] == '\n' || s[0] == '\r' then [] else [s[0]]) + SkipBreaks(s[1..])
  }

  function DecodeQuads(s: string): Option<Bytes> {
    if s == [] then Some([])
    else if |s| < 4 then None
    else
      var a, b, c, d := Value(s[0]), Value(s[1]), Value(s[2]), Value(s[3]);
      if a.None? || b.None? then None
      else if s[2] == '=' then
        if s[3] == '=' && |s| == 4 then Some([Join(a.value, b.value, 0, 0).0]) else None
      else if c.None? then None
      else if s[3] == '=' then
        if |s| == 4 then var t := Join(a.value, b.value, c.value, 0); Some([t.0, t.1]) else None
      else if d.None? then None
      else match DecodeQuads(s[4..])
           case None => None
           case Some(rest) => var t := Join(a.value, b.value, c.value, d.value); Some([t.0, t.1, t.2] + rest)
  }

  function Decode(s: string): Option<Bytes> {
    DecodeQuads(SkipBreaks(s))
  }

  lemma ValueOfSymbol(n: Sextet)
    ensures Value(Symbol(n)) == Some(n)
  {
  }

  predicate IsSymbolOrPad(c: char) {
    Value(c).Some? || c == '='
  }

  lemma {:induction false} EncodeIsPlain(b: Bytes)
    ensures forall i :: 0 <= i < |Encode(b)| ==> IsSymbolOrPad(Encode(b)[i])
  {
    if |b| > 2 {
      EncodeIsPlain(b[3..]);
    }
  }

  lemma {:induction false} NothingToSkip(s: string)
    requires forall i :: 0 <= i < |s| ==> IsSymbolOrPad(s[i])
    ensures SkipBreaks(s) == s
  {
    if s != [] {
      assert IsSymbolOrPad(s[0]);
      NothingToSkip(s[1..]);
    }
  }

  lemma Unpack(h: nat, l: nat, n: nat)
    requires l < n && (n == 4 || n == 16)
    ensures (h * n + l) / n == h && (h * n + l) % n == l
  {
  }

  lemma JoinSplit(a: byte, b: byte, c: byte)
    ensures var q := Split(a, b, c); Join(q.0, q.1, q.2, q.3) == (a, b, c)
  {
    Unpack(a % 4, b / 16, 16);
    Unpack(b % 16, c / 64, 4);
  }

  lemma DecodeSymbols(x: Sextet, y: Sextet, z: Sextet, w: Sextet)
    ensures DecodeQuads([Symbol(x), Symbol(y), '=', '=']) == Some([Join(x, y, 0, 0).0])
    ensures DecodeQuads([Symbol(x), Symbol(y), Symbol(z), '=']) == Some([Join(x, y, z, 0).0, Join(x, y, z, 0).1])
  {
    ValueOfSymbol(x);
    ValueOfSymbol(y);
    ValueOfSymbol(z);
  }

  lemma DecodeGroup(x: Sextet, y: Sextet, z: Sextet, w: Sextet, s: string, rest: Bytes)
    requires DecodeQuads(s) == Some(rest)
    ensures var t := Join(x, y, z, w);
            DecodeQuads([Symbol(x), Symbol(y), Symbol(z), Symbol(w)] + s) == Some([t.0, t.1, t.2] + rest)
  {
    assert ([Symbol(x), Symbol(y), Symbol(z), Symbol(w)] + s)[4..] == s;
    ValueOfSymbol(x);
    ValueOfSymbol(y);
    ValueOfSymbol(z);
    ValueOfSymbol(w);
  }

  lemma {:induction false} DecodeEncodedQuads(b: Bytes)
    ensures DecodeQuads(Encode(b)) == Some(b)
  {
    if |b| == 1 {
      JoinSplit(b[0], 0, 0);
      var q := Split(b[0], 0, 0);
      DecodeSymbols(q.0, q.1, 0, 0);
      assert b == [b[0]];
    } else if |b| == 2 {
      JoinSplit(b[0], b[1], 0);
      var q := Split(b[0], b[1], 0);
      DecodeSymbols(q.0, q.1, q.2, 0);
      assert b == [b[0], b[1]];
    } else if |b| > 2 {
      DecodeEncodedQuads(b[3..]);
      JoinSplit(b[0], b[1], b[2]);
      var q := Split(b[0], b[1], b[2]);
      DecodeGroup(q.0, q.1, q.2, q.3, Encode(b[3..]), b[3..]);
      assert b == [b[0], b[1], b[2]] + b[3..];
    }
  }

  /** Decoding an encoding gives the bytes back, for every byte string. */
  lemma RoundTrip(b: Bytes)
    ensures Decode(Encode(b)) == Some(b)
  {
    EncodeIsPlain(b);
    NothingToSkip(Encode(b));
    DecodeEncodedQuads(b);
  }

  // ---------- what the text means ----------

  /** The symbols are those of the standard alphabet: capital letters, small letters and digits in their order, then
    plus and slash; and each stands for one number only. */
  lemma SymbolsAre(n: Sextet, c: char)
    ensures Symbol(0) == 'A' && Symbol(25) == 'Z' && Symbol(26) == 'a' && Symbol(51) == 'z'
    ensures Symbol(52) == '0' && Symbol(61) == '9' && Symbol(62) == '+' && Symbol(63) == '/'
    ensures n + 1 < 62 && n + 1 != 26 && n + 1 != 52 ==> Symbol(n + 1) as int == Symbol(n) as int + 1
    ensures Value(c) == Some(n) <==> c == Symbol(n)
  {
  }

  /** The number that four symbols stand for, a pad counting as zero. */
  function Digit(c: char): nat {
    if Value(c).Some? then Value(c).value else 0
  }

  function Quad(a: char, b: char, c: char, d: char): nat {
    ((Digit(a) * 64 + Digit(b)) * 64 + Digit(c)) * 64 + Digit(d)
  }

  lemma SplitIsNumber(a: byte, b: byte, c: byte)
    ensures var q := Split(a, b, c); ((q.0 * 64 + q.1) * 64 + q.2) * 64 + q.3 == a * 65536 + b * 256 + c
  {
  }

  lemma QuadOfSymbols(x: Sextet, y: Sextet, z: Sextet, w: Sextet)
    ensures Quad(Symbol(x), Symbol(y), Symbol(z), Symbol(w)) == ((x * 64 + y) * 64 + z) * 64 + w
    ensures Quad(Symbol(x), Symbol(y), Symbol(z), '=') == ((x * 64 + y) * 64 + z) * 64
    ensures Quad(Symbol(x), Symbol(y), '=', '=') == (x * 64 + y) * 64 * 64
    ensures Symbol(x) != '='
  {
    ValueOfSymbol(x);
    ValueOfSymbol(y);
    ValueOfSymbol(z);
    ValueOfSymbol(w);
    assert Digit('=') == 0;
  }

  function At(b: Bytes, i: nat): byte {
    if i < |b| then b[i] else 0
  }

  lemma SplitPads(a: byte, b: byte)
    ensures Split(a, 0, 0).2 == 0 && Split(a, b, 0).3 == 0
  {
  }

  lemma OneByte(a: byte)
    ensures var s := Encode([a]); |s| == 4 && s[2] == s[3] == '=' && Quad(s[0], s[1], s[2], s[3]) == a * 65536
  {
    var q := Split(a, 0, 0);
    SplitIsNumber(a, 0, 0);
    SplitPads(a, 0);
    QuadOfSymbols(q.0, q.1, 0, 0);
  }

  lemma TwoBytes(a: byte, b: byte)
    ensures var s := Encode([a, b]);
            && |s| == 4 && s[2] != '=' && s[3] == '='
            && Quad(s[0], s[1], s[2], s[3]) == a * 65536 + b * 256
  {
    var q := Split(a, b, 0);
    SplitIsNumber(a, b, 0);
    SplitPads(a, b);
    QuadOfSymbols(q.0, q.1, q.2, 0);
    QuadOfSymbols(q.2, q.1, q.0, 0);
  }

  lemma ThreeBytes(b: Bytes)
    requires |b| >= 3
    ensures var s := Encode(b);
            && |s| >= 4 && s[2] != '=' && s[3] != '='
            && Quad(s[0], s[1], s[2], s[3]) == At(b, 0) * 65536 + At(b, 1) * 256 + At(b, 2)
  {
    var q := Split(b[0], b[1], b[2]);
    SplitIsNumber(b[0], b[1], b[2]);
    QuadOfSymbols(q.0, q.1, q.2, q.3);
    QuadOfSymbols(q.2, q.1, q.0, q.3);
    QuadOfSymbols(q.3, q.1, q.2, q.0);
  }

  lemma FirstGroup(b: Bytes)
    requires b != []
    ensures var s := Encode(b);
            && |s| >= 4 && Quad(s[0], s[1], s[2], s[3]) == At(b, 0) * 65536 + At(b, 1) * 256 + At(b, 2)
            && (s[3] == '=' <==> |b| < 3) && (s[2] == '=' <==> |b| < 2)
  {
    if |b| == 1 {
      assert b == [b[0]];
      OneByte(b[0]);
    } else if |b| == 2 {
      assert b == [b[0], b[1]];
      TwoBytes(b[0], b[1]);
    } else {
      ThreeBytes(b);
    }
  }

  lemma GroupLength(b: Bytes)
    ensures |Encode(b)| == if b == [] then 0 else if |b| <= 2 then 4 else 4 + |Encode(b[3..])|
  {
  }

  lemma LengthStep(n: nat, l: nat)
    requires l % 4 == 0 && 4 * n <= 3 * l < 4 * n + 12
    ensures (4 + l) % 4 == 0 && 4 * (n + 3) <= 3 * (4 + l) < 4 * (n + 3) + 12
  {
  }

  /** Four symbols for each three bytes begun. */
  lemma {:induction false} EncodeLength(b: Bytes)
    ensures |Encode(b)| % 4 == 0 && 4 * |b| <= 3 * |Encode(b)| < 4 * |b| + 12
  {
    GroupLength(b);
    if |b| > 2 {
      EncodeLength(b[3..]);
      LengthStep(|b| - 3, |Encode(b[3..])|);
    }
  }

  /** The meaning of the text: each four symbols of it, read as a number in base 64, are three bytes, read as a number
    in base 256, with zeros for bytes beyond the end; and the last one or two symbols are pads exactly if two or one
    of these bytes are left over. */
  lemma {:induction false} EncodeIs(b: Bytes, k: nat)
    requires 3 * k < |b|
    ensures |Encode(b)| % 4 == 0 && 4 * |b| <= 3 * |Encode(b)| < 4 * |b| + 12 && 4 * k + 4 <= |Encode(b)|
    ensures var s := Encode(b)[4 * k..];
            && Quad(s[0], s[1], s[2], s[3]) == At(b, 3 * k) * 65536 + At(b, 3 * k + 1) * 256 + At(b, 3 * k + 2)
            && (s[3] == '=' <==> |b| < 3 * k + 3) && (s[2] == '=' <==> |b| < 3 * k + 2)
  {
    EncodeLength(b);
    if k == 0 {
      FirstGroup(b);
    } else {
      EncodeIs(b[3..], k - 1);
      assert Encode(b)[4 * k..] == Encode(b[3..])[4 * (k - 1)..];
    }
  }

  // ---------- what is accepted ----------

  lemma Grouped(a: string, b: string, c: string)
    ensures a + (b + c) == a + b + c
  {
  }

  /** Line breaks are dropped, wherever they are, and nothing else is. */
  lemma {:induction false} SkipsBreaks(s: string, t: string)
    ensures SkipBreaks(s + t) == SkipBreaks(s) + SkipBreaks(t)
  {
    if s == [] {
      assert s + t == t;
    } else {
      SkipsBreaks(s[1..], t);
      var head := if s[0] == '\n' || s[0] == '\r' then [] else [s[0]];
      assert SkipBreaks(s + t) == head + SkipBreaks(s[1..] + t) by {
        assert (s + t)[1..] == s[1..] + t && (s + t)[0] == s[0];
      }
      Grouped(head, SkipBreaks(s[1..]), SkipBreaks(t));
    }
  }

  lemma SkipsOne(c: char)
    ensures SkipBreaks([c]) == if c == '\r' || c == '\n' then "" else [c]
  {
    assert [c][1..] == [];
  }

  /** Whole groups of four symbols, of which the last one or two may be pads. */
  predicate WellFormed(s: string) {
    && |s| % 4 == 0
    && (forall i :: 0 <= i < |s| - 2 ==> Value(s[i]).Some?)
    && (|s| > 0 ==> Value(s[|s| - 1]).Some? || s[|s| - 1] == '=')
    && (|s| > 0 ==> Value(s[|s| - 2]).Some? || (s[|s| - 2] == '=' && s[|s| - 1] == '='))
  }

  function Pads(s: string): nat {
    if |s| < 2 || s[|s| - 1] != '=' then 0 else if s[|s| - 2] != '=' then 1 else 2
  }

  lemma WellFormedRest(s: string)
    requires |s| > 4
    ensures WellFormed(s) <==>
              WellFormed(s[4..]) && Value(s[0]).Some? && Value(s[1]).Some? && Value(s[2]).Some? && Value(s[3]).Some?
    ensures Pads(s[4..]) == Pads(s) || |s| == 5
  {
    var t := s[4..];
    assert |s| % 4 == |t| % 4;
    assert forall i :: 0 <= i < |t| ==> t[i] == s[i + 4];
    if WellFormed(t) && Value(s[0]).Some? && Value(s[1]).Some? && Value(s[2]).Some? && Value(s[3]).Some? {
      assert forall i :: 4 <= i < |s| - 2 ==> s[i] == t[i - 4];
    }
  }

  lemma {:induction false} AcceptsQuads(s: string)
    ensures DecodeQuads(s).Some? <==> WellFormed(s)
    ensures DecodeQuads(s).Some? ==> |DecodeQuads(s).value| == |s| / 4 * 3 - Pads(s)
  {
    if |s| > 4 {
      AcceptsQuads(s[4..]);
      WellFormedRest(s);
    }
  }

  /** What is accepted, exactly: after line breaks are dropped, whole groups of symbols with at most two pads at the
    end; and how many bytes it gives. */
  lemma Accepts(s: string)
    ensures Decode(s).Some? <==> WellFormed(SkipBreaks(s))
    ensures Decode(s).Some? ==> |Decode(s).value| == |SkipBreaks(s)| / 4 * 3 - Pads(SkipBreaks(s))
  {
    AcceptsQuads(SkipBreaks(s));
  }

  /** The byte at a place of the three that a number below 2^24 stands for. */
  function ByteOf(n: nat, place: nat): nat {
    if place == 0 then n / 65536 else if place == 1 then n / 256 % 256 else n % 256
  }

  lemma BytesOfNumber(a: byte, b: byte, c: byte)
    ensures var n := a * 65536 + b * 256 + c; ByteOf(n, 0) == a && ByteOf(n, 1) == b && ByteOf(n, 2) == c
  {
    var n := a * 65536 + b * 256 + c;
    assert n / 256 == a * 256 + b;
  }

  lemma JoinIsSum(x: Sextet, y: Sextet, z: Sextet, w: Sextet)
    ensures var t := Join(x, y, z, w); t.0 * 65536 + t.1 * 256 + t.2 == ((x * 64 + y) * 64 + z) * 64 + w
  {
  }

  lemma JoinIsNumber(x: Sextet, y: Sextet, z: Sextet, w: Sextet)
    ensures var t, n := Join(x, y, z, w), ((x * 64 + y) * 64 + z) * 64 + w;
            t.0 == ByteOf(n, 0) && t.1 == ByteOf(n, 1) && t.2 == ByteOf(n, 2)
  {
    var t := Join(x, y, z, w);
    JoinIsSum(x, y, z, w);
    BytesOfNumber(t.0, t.1, t.2);
  }

  lemma FirstBytes(s: string, i: nat)
    requires DecodeQuads(s).Some? && i < |DecodeQuads(s).value| && i < 3
    ensures |s| >= 4 && DecodeQuads(s).value[i] == ByteOf(Quad(s[0], s[1], s[2], s[3]), i)
  {
    JoinIsNumber(Digit(s[0]), Digit(s[1]), Digit(s[2]), Digit(s[3]));
  }

  /** The bytes it gives: each is the right one of the three that four symbols, read as a number, stand for; so the bits
    before a pad do not matter. */
  lemma {:induction false} DecodeIs(s: string, k: nat, i: nat)
    requires DecodeQuads(s).Some? && 3 * k + i < |DecodeQuads(s).value| && i < 3
    ensures |s| >= 4 * k + 4
    ensures var t := s[4 * k..]; DecodeQuads(s).value[3 * k + i] == ByteOf(Quad(t[0], t[1], t[2], t[3]), i)
  {
    if k == 0 {
      FirstBytes(s, i);
    } else {
      DecodeIs(s[4..], k - 1, i);
      assert s[4..][4 * (k - 1)..] == s[4 * k..];
    }
  }
}
