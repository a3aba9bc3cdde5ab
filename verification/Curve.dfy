/** Points, scalars and numbers as text and bytes. The curve is any commutative group: only its laws are used. */
module Curve {
  import opened Bytes
  import Json
  import Utf8

  datatype Point = Point(x: nat, y: nat)

  datatype Group = Group(add: (Point, Point) -> Point, zero: Point, base: Point, on: Point -> bool)

  ghost predicate SumAt(g: Group, p: Point, q: Point) {
    g.on(p) && g.on(q) ==> g.on(g.add(p, q)) && g.add(p, q) == g.add(q, p)
  }

  ghost predicate AssocAt(g: Group, p: Point, q: Point, r: Point) {
    g.on(p) && g.on(q) && g.on(r) ==> g.add(g.add(p, q), r) == g.add(p, g.add(q, r))
  }

  ghost predicate UnitAt(g: Group, p: Point) {
    g.on(p) ==> g.add(p, g.zero) == p
  }

  /** The laws of a commutative group on its points; inverses are never used. */
  ghost predicate Lawful(g: Group) {
    && g.on(g.zero) && g.on(g.base)
    && (forall p, q :: SumAt(g, p, q))
    && (forall p :: UnitAt(g, p))
    && (forall p, q, r :: AssocAt(g, p, q, r))
  }

  /** The laws can be met: numbers under addition, written as points. */
  ghost function Numbers(): Group {
    Group((p: Point, q: Point) => Point(p.x + q.x, 0), Point(0, 0), Point(1, 0), (p: Point) => p.y == 0)
  }

  lemma NumbersAreLawful()
    ensures Lawful(Numbers())
  {
    var g := Numbers();
    forall p, q ensures SumAt(g, p, q) {}
    forall p ensures UnitAt(g, p) {}
    forall p, q, r ensures AssocAt(g, p, q, r) {}
  }

  /** Scalar multiplication as repeated addition. */
  function Mul(g: Group, k: nat, p: Point): Point {
    if k == 0 then g.zero else g.add(p, Mul(g, k - 1, p))
  }

  function PublicOf(g: Group, scalar: nat): Point {
    Mul(g, scalar, g.base)
  }

  /** The shared value of a private scalar with a public point: the first coordinate of the product. */
  function Shared(g: Group, scalar: nat, pub: Point): nat {
    Mul(g, scalar, pub).x
  }

  lemma {:induction false} MulStays(g: Group, k: nat, p: Point)
    requires Lawful(g) && g.on(p)
    ensures g.on(Mul(g, k, p))
  {
    if k > 0 {
      MulStays(g, k - 1, p);
      assert SumAt(g, p, Mul(g, k - 1, p));
    }
  }

  lemma {:induction false} MulAdds(g: Group, j: nat, k: nat, p: Point)
    requires Lawful(g) && g.on(p)
    ensures Mul(g, j + k, p) == g.add(Mul(g, j, p), Mul(g, k, p))
  {
    MulStays(g, k, p);
    if j == 0 {
      assert UnitAt(g, Mul(g, k, p)) && SumAt(g, g.zero, Mul(g, k, p));
    } else {
      MulAdds(g, j - 1, k, p);
      MulStays(g, j - 1, p);
      assert AssocAt(g, p, Mul(g, j - 1, p), Mul(g, k, p));
    }
  }

  lemma MulOne(g: Group, p: Point)
    requires Lawful(g) && g.on(p)
    ensures Mul(g, 1, p) == p
  {
    assert UnitAt(g, p);
    assert Mul(g, 1, p) == g.add(p, Mul(g, 0, p));
  }

  /** Multiplying by two scalars in turn is multiplying by their product; and multiplying by one changes nothing. */
  lemma {:induction false} MulMul(g: Group, j: nat, k: nat, p: Point)
    requires Lawful(g) && g.on(p)
    ensures Mul(g, j, Mul(g, k, p)) == Mul(g, j * k, p) && Mul(g, 1, p) == p
  {
    MulOne(g, p);
    if j > 0 {
      MulMul(g, j - 1, k, p);
      MulAdds(g, k, (j - 1) * k, p);
      assert k + (j - 1) * k == j * k;
    }
  }

  /** Key agreement: what each side computes from its scalar and the other side's public point is the first coordinate
    of the base point times both scalars. */
  lemma Agreement(g: Group, a: nat, b: nat)
    requires Lawful(g)
    ensures Shared(g, a, PublicOf(g, b)) == Mul(g, a * b, g.base).x
    ensures Shared(g, b, PublicOf(g, a)) == Mul(g, a * b, g.base).x
  {
    MulMul(g, a, b, g.base);
    MulMul(g, b, a, g.base);
    assert a * b == b * a;
  }

  // ---------- numbers as bytes ----------

  /** The big-endian bytes of a number, without leading zeros. */
  function BigEndian(x: nat): Bytes {
    if x == 0 then [] else BigEndian(x / 256) + [x % 256]
  }

  function BigEndianValue(b: Bytes): nat {
    if b == [] then 0 else BigEndianValue(b[..|b| - 1]) * 256 + b[|b| - 1]
  }

  /** No two numbers have the same bytes, and the first byte is never zero. */
  lemma {:induction false} BigEndianRoundTrip(x: nat)
    ensures BigEndianValue(BigEndian(x)) == x
    ensures x > 0 ==> BigEndian(x) != [] && BigEndian(x)[0] != 0
  {
    if x > 0 {
      BigEndianRoundTrip(x / 256);
      assert BigEndian(x)[..|BigEndian(x)| - 1] == BigEndian(x / 256);
    }
  }

  function Pow256(n: nat): nat {
    if n == 0 then 1 else 256 * Pow256(n - 1)
  }

  /** A number takes exactly `n` bytes when it lies between two powers of 256; so 32 bytes exactly from 2^248 up to
    2^256. */
  lemma {:induction false} BigEndianLength(x: nat, n: nat)
    requires n > 0
    ensures |BigEndian(x)| == n <==> Pow256(n - 1) <= x < Pow256(n)
  {
    if n == 1 {
      assert Pow256(1) == 256 * Pow256(0);
    } else {
      BigEndianLength(x / 256, n - 1);
    }
  }

  // ---------- numbers and keys as text ----------

  function Decimal(n: nat): string {
    (if n < 10 then "" else Decimal(n / 10)) + [(n % 10 + 48) as char]
  }

  predicate IsDigit(c: char) {
    48 <= c as int <= 57
  }

  function DigitsValue(s: string): nat
    requires forall i :: 0 <= i < |s| ==> IsDigit(s[i])
  {
    if s == "" then 0
    else
      assert IsDigit(s[|s| - 1]);
      DigitsValue(s[..|s| - 1]) * 10 + (s[|s| - 1] as int - 48)
  }

  /** The number of leading digits. */
  function DigitCount(s: string): (n: nat)
    ensures n <= |s|
    ensures forall i :: 0 <= i < n ==> IsDigit(s[i])
  {
    if s == "" || !IsDigit(s[0]) then 0 else 1 + DigitCount(s[1..])
  }

  function ParseNumber(s: string): Option<(nat, string)> {
    var n := DigitCount(s);
    if n == 0 || (n > 1 && s[0] == '0') then None else Some((DigitsValue(s[..n]), s[n..]))
  }

  lemma {:induction false} DecimalDigits(n: nat)
    ensures Decimal(n) != "" && forall i :: 0 <= i < |Decimal(n)| ==> IsDigit(Decimal(n)[i])
    ensures DigitsValue(Decimal(n)) == n
    ensures n > 0 ==> Decimal(n)[0] != '0'
    ensures n == 0 ==> |Decimal(n)| == 1
  {
    var s := Decimal(n);
    if n >= 10 {
      DecimalDigits(n / 10);
      assert s[..|s| - 1] == Decimal(n / 10);
    } else {
      assert s[..|s| - 1] == "";
    }
  }

  lemma {:induction false} DigitCountStops(s: string, rest: string)
    requires forall i :: 0 <= i < |s| ==> IsDigit(s[i])
    requires rest == "" || !IsDigit(rest[0])
    ensures DigitCount(s + rest) == |s|
  {
    if s == "" {
      assert s + rest == rest;
    } else {
      assert (s + rest)[1..] == s[1..] + rest;
      DigitCountStops(s[1..], rest);
    }
  }

  lemma NumberRoundTrip(n: nat, rest: string)
    requires rest == "" || !IsDigit(rest[0])
    ensures ParseNumber(Decimal(n) + rest) == Some((n, rest))
  {
    var s := Decimal(n);
    DecimalDigits(n);
    DigitCountStops(s, rest);
    assert (s + rest)[..|s|] == s && (s + rest)[|s|..] == rest;
  }

  lemma {:induction false} DecimalOfDigits(s: string)
    requires s != "" && (forall i :: 0 <= i < |s| ==> IsDigit(s[i])) && (|s| > 1 ==> s[0] != '0')
    ensures Decimal(DigitsValue(s)) == s
    ensures |s| > 1 || s[0] != '0' ==> DigitsValue(s) > 0
  {
    var last := |s| - 1;
    assert IsDigit(s[last]);
    if |s| > 1 {
      assert s[..last][0] == s[0];
      DecimalOfDigits(s[..last]);
      DecimalStep(DigitsValue(s[..last]), s[last] as int - 48);
      assert s == s[..last] + [s[last]];
    } else {
      assert s[..0] == "" && s == [s[0]];
    }
  }

  lemma DecimalStep(v: nat, c: nat)
    requires v > 0 && c < 10
    ensures Decimal(v * 10 + c) == Decimal(v) + [(c + 48) as char]
  {
    assert (v * 10 + c) / 10 == v && (v * 10 + c) % 10 == c;
  }

  /** A number is read exactly where it stands as it would be printed, up to a character that is no digit: so without
    leading zeros. */
  lemma NumberExactly(s: string, n: nat, rest: string)
    ensures ParseNumber(s) == Some((n, rest)) <==> s == Decimal(n) + rest && (rest == "" || !IsDigit(rest[0]))
  {
    if s == Decimal(n) + rest && (rest == "" || !IsDigit(rest[0])) {
      NumberRoundTrip(n, rest);
    }
    if ParseNumber(s) == Some((n, rest)) {
      var k := DigitCount(s);
      assert k > 1 ==> s[..k][0] == s[0];
      DecimalOfDigits(s[..k]);
      DigitsEnd(s);
      assert s == s[..k] + s[k..];
    }
  }

  lemma {:induction false} DigitsEnd(s: string)
    ensures DigitCount(s) < |s| ==> !IsDigit(s[DigitCount(s)])
  {
    if s != "" && IsDigit(s[0]) {
      DigitsEnd(s[1..]);
    }
  }

  function PrintMember(before: string, n: nat, rest: string): string {
    before + (Decimal(n) + rest)
  }

  function ParseMember(before: string, s: string): Option<(nat, string)> {
    match Json.Expect(before, s)
    case None => None
    case Some(rest) => ParseNumber(rest)
  }

  lemma MemberRoundTrip(before: string, n: nat, rest: string)
    requires rest == "" || !IsDigit(rest[0])
    ensures ParseMember(before, PrintMember(before, n, rest)) == Some((n, rest))
  {
    Json.ExpectToken(before, Decimal(n) + rest);
    NumberRoundTrip(n, rest);
  }

  /** A public key as it is sent: the two coordinates as numbers in an object. */
  function KeyText(p: Point): string {
    PrintMember("{\"x\":", p.x, PrintMember(",\"y\":", p.y, "}"))
  }

  function PrintKey(p: Point): Bytes {
    Utf8.Encode(KeyText(p))
  }

  function ParseKeyText(s: string): Option<Point> {
    match ParseMember("{\"x\":", s)
    case None => None
    case Some(x) =>
      match ParseMember(",\"y\":", x.1)
      case None => None
      case Some(y) => if y.1 == "}" then Some(Point(x.0, y.0)) else None
  }

  function ParseKey(b: Bytes): Option<Point> {
    match Utf8.Decode(b)
    case None => None
    case Some(s) => ParseKeyText(s)
  }

  lemma KeyLayout(x: string, y: string)
    ensures "{\"x\":" + (x + (",\"y\":" + (y + "}"))) == "{\"x\":" + x + ",\"y\":" + y + "}"
  {
  }

  /** A public key is sent as an object with the two coordinates in decimal, and is read back as the same point. */
  lemma KeyRoundTrip(p: Point)
    ensures Utf8.Decode(PrintKey(p)) == Some("{\"x\":" + Decimal(p.x) + ",\"y\":" + Decimal(p.y) + "}")
    ensures ParseKey(PrintKey(p)) == Some(p)
  {
    KeyLayout(Decimal(p.x), Decimal(p.y));
    Utf8.RoundTrip(KeyText(p));
    MemberRoundTrip(",\"y\":", p.y, "}");
    MemberRoundTrip("{\"x\":", p.x, PrintMember(",\"y\":", p.y, "}"));
  }

  /** The request for another client's key: the address between quotes, not escaped. */
  function PrintAddr(a: string): Bytes {
    Utf8.Encode("{\"ip\":\"" + (a + "\"}"))
  }

  function ParseAddr(b: Bytes): Option<string> {
    match Utf8.Decode(b)
    case None => None
    case Some(s) =>
      match Json.ParseQuoted("{\"ip\":\"", s)
      case None => None
      case Some(a) => if a.1 == "}" then Some(a.0) else None
  }

  predicate PlainText(a: string) {
    forall i :: 0 <= i < |a| ==> a[i] as int >= 32 && a[i] != '\"' && a[i] != '\\'
  }

  lemma {:induction false} PlainString(a: string)
    requires PlainText(a)
    ensures Json.ParseString(a + "\"}") == Some((a, "}"))
  {
    if a == "" {
      assert a + "\"}" == "\"}";
    } else {
      PlainString(a[1..]);
      Json.ParsePlain(a[0], a[1..] + "\"}");
      assert a + "\"}" == [a[0]] + (a[1..] + "\"}");
      assert a == [a[0]] + a[1..];
    }
  }

  /** The address in a request is read back, if it needs no escaping. */
  lemma AddrRoundTrip(a: string)
    requires PlainText(a)
    ensures Utf8.Decode(PrintAddr(a)) == Some("{\"ip\":\"" + a + "\"}")
    ensures ParseAddr(PrintAddr(a)) == Some(a)
  {
    assert "{\"ip\":\"" + (a + "\"}") == "{\"ip\":\"" + a + "\"}";
    Utf8.RoundTrip("{\"ip\":\"" + (a + "\"}"));
    Json.ExpectToken("{\"ip\":\"", a + "\"}");
    PlainString(a);
  }

  // ---------- what a decoder makes of data ----------

  /** Data read as a public key: no object at all; an object without both coordinates, which decodes without an error
    and ends the program when it computes with them; or a point. */
  datatype KeyReading = NoKey | Incomplete | Complete(pub: Point)

  /** Nothing, printed keys and printed address requests are read here, the last as objects without coordinates; `other`
    is a JSON decoder's answer for any other data. */
  function ReadKey(b: Bytes, other: KeyReading): KeyReading {
    if b == [] then NoKey
    else match ParseKey(b)
      case Some(pub) => Complete(pub)
      case None => if ParseAddr(b).Some? then Incomplete else other
  }

  /** The address in a request; a printed key is an object without one, which reads as the empty address. */
  function ReadAddr(b: Bytes, other: Option<string>): Option<string> {
    if ParseAddr(b).Some? then ParseAddr(b) else if ParseKey(b).Some? then Some("") else other
  }

  lemma PrintedKeyReads(p: Point, other: KeyReading)
    ensures ReadKey(PrintKey(p), other) == Complete(p)
  {
    KeyRoundTrip(p);
    assert ParseKey([]).None? by {
      Utf8.RoundTrip("");
      assert Json.Expect("{\"x\":", "").None?;
    }
  }

  /** An address request, read as a key, is an object without coordinates. */
  lemma AddrIsIncomplete(a: string, other: KeyReading)
    requires PlainText(a)
    ensures ReadKey(PrintAddr(a), other) == Incomplete
  {
    var s := "{\"ip\":\"" + (a + "\"}");
    AddrRoundTrip(a);
    Utf8.RoundTrip(s);
    assert s[2] == 'i' && "{\"x\":"[2] == 'x';
    assert Json.Expect("{\"x\":", s).None?;
    Utf8.RoundTrip("");
    assert Utf8.Encode("") == [];
  }

  lemma NotExpected(rest: string)
    ensures Json.Expect("{\"ip\":\"", "{\"x\":" + rest).None?
  {
    var s := "{\"x\":" + rest;
    assert s[2] == 'x' && "{\"ip\":\""[2] == 'i';
  }

  /** And a public key, read as an address request, is an object without an address, which reads as the empty one. */
  lemma KeyIsNoAddr(p: Point, other: Option<string>)
    ensures ReadAddr(PrintKey(p), other) == Some("")
  {
    KeyRoundTrip(p);
    Utf8.RoundTrip(KeyText(p));
    NotExpected(Decimal(p.x) + PrintMember(",\"y\":", p.y, "}"));
  }
}
