/** Bytes, optional values and results, shared by every other module. */
module Bytes {
  type byte = x: int | 0 <= x < 256

  type Bytes = seq<byte>

  datatype Option<+T> = None | Some(value: T)

  datatype Result<+T> = Ok(value: T) | Err(msg: string)
}

/** UTF-8, the byte form of every text the program puts on the wire. */
module Utf8 {
  import opened Bytes

  function EncodeChar(c: char): Bytes {
    var n := c as int;
    if n < 0x80 then [n]
    else if n < 0x800 then [0xC0 + n / 64, 0x80 + n % 64]
    else if n < 0x10000 then [0xE0 + n / 64 / 64, 0x80 + n / 64 % 64, 0x80 + n % 64]
    else [0xF0 + n / 64 / 64 / 64, 0x80 + n / 64 / 64 % 64, 0x80 + n / 64 % 64, 0x80 + n % 64]
  }

  function Encode(s: string): Bytes {
    if s == [] then [] else EncodeChar(s[0]) + Encode(s[1..])
  }

  predicate IsScalar(n: int) {
    0 <= n < 0xD800 || 0xE000 <= n < 0x110000
  }

  /** The payload of a continuation byte at position `i`, if there is one. */
  function Tail(b: Bytes, i: nat): Option<nat> {
    if i < |b| && 0x80 <= b[i] < 0xC0 then Some(b[i] - 0x80) else None
  }

  /** The first scalar value of `b` and the number of bytes it takes; overlong forms are refused. */
  function DecodeChar(b: Bytes): (r: Option<(char, nat)>)
    requires b != []
    ensures r.Some? ==> 0 < r.value.1 <= |b|
  {
    var n, t1, t2, t3 := b[0], Tail(b, 1), Tail(b, 2), Tail(b, 3);
    if n < 0x80 then Some((n as char, 1))
    else if 0xC2 <= n < 0xE0 && t1.Some? then
      Some((((n - 0xC0) * 64 + t1.value) as char, 2))
    else if 0xE0 <= n < 0xF0 && t1.Some? && t2.Some? then
      var u := ((n - 0xE0) * 64 + t1.value) * 64 + t2.value;
      if u < 0x800 || !IsScalar(u) then None else Some((u as char, 3))
    else if 0xF0 <= n < 0xF8 && t1.Some? && t2.Some? && t3.Some? then
      var u := (((n - 0xF0) * 64 + t1.value) * 64 + t2.value) * 64 + t3.value;
      if u < 0x10000 || !IsScalar(u) then None else Some((u as char, 4))
    else None
  }

  function Decode(b: Bytes): Option<string>
    decreases |b|
  {
    if b == [] then Some("")
    else match DecodeChar(b)
         case None => None
         case Some(head) =>
           match Decode(b[head.1..])
           case None => None
           case Some(rest) => Some([head.0] + rest)
  }

  lemma DecodeEncodedChar(c: char, rest: Bytes)
    ensures DecodeChar(EncodeChar(c) + rest) == Some((c, |EncodeChar(c)|))
  {
    var n, b := c as int, EncodeChar(c) + rest;
    assert b[0] == EncodeChar(c)[0];
    if 0x800 <= n < 0x10000 {
      assert Tail(b, 1) == Some(n / 64 % 64) && Tail(b, 2) == Some(n % 64);
      assert (n / 64 / 64 * 64 + n / 64 % 64) * 64 + n % 64 == n;
    } else if 0x10000 <= n {
      assert Tail(b, 1) == Some(n / 64 / 64 % 64) && Tail(b, 2) == Some(n / 64 % 64) && Tail(b, 3) == Some(n % 64);
      assert ((n / 64 / 64 / 64 * 64 + n / 64 / 64 % 64) * 64 + n / 64 % 64) * 64 + n % 64 == n;
    }
  }

  /** The bytes of a character: itself below 128; otherwise a first byte that tells how many there are, and six bits in
    each of the others. */
  lemma CharBytes(c: char)
    ensures var n, b := c as int, EncodeChar(c);
            var six := (i: int) => if 0 < i < |b| then b[i] as int - 0x80 else 0;
            && (n < 0x80 ==> b == [n])
            && (0x80 <= n < 0x800 ==> |b| == 2 && 0xC0 <= b[0] < 0xE0 && n == (b[0] as int - 0xC0) * 64 + six(1))
            && (0x800 <= n < 0x10000 ==>
                  |b| == 3 && 0xE0 <= b[0] < 0xF0 && n == ((b[0] as int - 0xE0) * 64 + six(1)) * 64 + six(2))
            && (0x10000 <= n ==>
                  && |b| == 4 && 0xF0 <= b[0] < 0xF8
                  && n == (((b[0] as int - 0xF0) * 64 + six(1)) * 64 + six(2)) * 64 + six(3))
            && forall i :: 0 < i < |b| ==> 0x80 <= b[i] < 0xC0
  {
    var n := c as int;
    assert n / 64 / 64 * 64 + n / 64 % 64 == n / 64;
    assert n / 64 / 64 / 64 * 64 + n / 64 / 64 % 64 == n / 64 / 64;
  }

  /** Every text survives the trip through bytes. */
  lemma {:induction false} RoundTrip(s: string)
    ensures Decode(Encode(s)) == Some(s)
  {
    if s != [] {
      var head, rest := EncodeChar(s[0]), Encode(s[1..]);
      DecodeEncodedChar(s[0], rest);
      assert (head + rest)[|head|..] == rest;
      RoundTrip(s[1..]);
      assert s == [s[0]] + s[1..];
    }
  }

  lemma SixBits(h: nat, t: nat)
    requires t < 64
    ensures (h * 64 + t) / 64 == h && (h * 64 + t) % 64 == t
  {
  }

  lemma TwoBytes(b: Bytes)
    requires |b| >= 2 && 0xC2 <= b[0] < 0xE0 && DecodeChar(b).Some?
    ensures var head := DecodeChar(b).value; b[..head.1] == EncodeChar(head.0)
  {
    var n: int, t1 := b[0], Tail(b, 1).value;
    SixBits(n - 0xC0, t1);
  }

  lemma ThreeBytes(b: Bytes)
    requires |b| >= 3 && 0xE0 <= b[0] < 0xF0 && DecodeChar(b).Some?
    ensures var head := DecodeChar(b).value; b[..head.1] == EncodeChar(head.0)
  {
    var n: int, t1, t2 := b[0], Tail(b, 1).value, Tail(b, 2).value;
    SixBits(n - 0xE0, t1);
    SixBits((n - 0xE0) * 64 + t1, t2);
  }

  lemma FourBytes(b: Bytes)
    requires |b| >= 4 && 0xF0 <= b[0] < 0xF8 && DecodeChar(b).Some?
    ensures var head := DecodeChar(b).value; b[..head.1] == EncodeChar(head.0)
  {
    var n: int, t1, t2, t3 := b[0], Tail(b, 1).value, Tail(b, 2).value, Tail(b, 3).value;
    SixBits(n - 0xF0, t1);
    SixBits((n - 0xF0) * 64 + t1, t2);
    SixBits(((n - 0xF0) * 64 + t1) * 64 + t2, t3);
  }

  lemma EncodeDecodedChar(b: Bytes)
    requires b != [] && DecodeChar(b).Some?
    ensures var head := DecodeChar(b).value; b[..head.1] == EncodeChar(head.0)
  {
    if 0xC2 <= b[0] < 0xE0 {
      TwoBytes(b);
    } else if 0xE0 <= b[0] < 0xF0 {
      ThreeBytes(b);
    } else if 0xF0 <= b[0] {
      FourBytes(b);
    }
  }

  /** Bytes are read as a text exactly if they are the bytes of that text: overlong forms and surrogates are refused. */
  lemma {:induction false} Exactly(b: Bytes, s: string)
    ensures Decode(b) == Some(s) <==> b == Encode(s)
    decreases |b|
  {
    if b == Encode(s) {
      RoundTrip(s);
    }
    if b != [] && Decode(b) == Some(s) {
      var head := DecodeChar(b).value;
      EncodeDecodedChar(b);
      Exactly(b[head.1..], s[1..]);
      assert b == b[..head.1] + b[head.1..];
    }
  }

  lemma {:induction false} EncodeNotShorter(s: string)
    ensures |Encode(s)| >= |s|
  {
    if s != [] {
      EncodeNotShorter(s[1..]);
    }
  }

  /** The byte 255 occurs in no text. */
  lemma {:induction false} NoText(b: Bytes, i: nat)
    requires i < |b| && b[i] == 255
    ensures Decode(b) == None
    decreases |b|
  {
    match DecodeChar(b)
    case None =>
    case Some(head) =>
      if head.1 <= i {
        NoText(b[head.1..], i - head.1);
      }
  }
}
