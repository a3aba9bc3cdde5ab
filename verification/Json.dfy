/** The two-field JSON object a packet travels as, printed and parsed as text: strings as in section 7 of
  RFC 8259, with the printer's extra escapes and the parser's replacement of lone surrogates. */
module Json {
  import opened Bytes
  import Utf8

  // ---------- strings ----------

  function Hex(n: nat): char
    requires n < 16
  {
    if n < 10 then (n + 48) as char else (n + 87) as char
  }

  function HexValue(c: char): (r: Option<nat>)
    ensures r.Some? ==> r.value < 16
  {
    if '0' <= c <= '9' then Some(c as int - 48)
    else if 'a' <= c <= 'f' then Some(c as int - 87)
    else if 'A' <= c <= 'F' then Some(c as int - 55)
    else None
  }

  function UnicodeEscape(n: nat): string
    requires n < 0x10000
  {
    ['\\', 'u', Hex(n / 16 / 16 / 16), Hex(n / 16 / 16 % 16), Hex(n / 16 % 16), Hex(n % 16)]
  }

  /** Control characters, the characters special to HTML and the two Unicode line separators are escaped. */
  function EscapeChar(c: char): string {
    if c == '\"' then ['\\', '\"']
    else if c == '\\' then ['\\', '\\']
    else if c == '\n' then ['\\', 'n']
    else if c == '\r' then ['\\', 'r']
    else if c == '\t' then ['\\', 't']
    else if c as int < 32 || c == '<' || c == '>' || c == '&' || c as int == 0x2028 || c as int == 0x2029 then
      UnicodeEscape(c as int)
    else [c]
  }

  /** Which characters are escaped, and how: five with a backslash and a letter, the other ones below the space, those
    special to HTML and the line separators by their number; all others stand for themselves. */
  lemma EscapesAre(c: char)
    ensures EscapeChar(c) == [c] <==>
              c as int >= 32 && c !in "\"\\<>&" && c as int != 0x2028 && c as int != 0x2029
    ensures |EscapeChar(c)| == 2 <==> c in "\"\\\n\r\t"
    ensures |EscapeChar(c)| in {1, 2, 6} && (|EscapeChar(c)| > 1 ==> EscapeChar(c)[0] == '\\')
    ensures |EscapeChar(c)| == 6 ==> forall x :: x in EscapeChar(c) ==> x in "\\u0123456789abcdef"
  {
  }

  /** A string from just after its opening quote, followed by the closing quote and `rest`. */
  function Escape(s: string, rest: string): string {
    if s == [] then ['\"'] + rest else EscapeChar(s[0]) + Escape(s[1..], rest)
  }

  /** The code unit that the text `uXXXX` after a backslash denotes. */
  function CodeUnit(s: string): (r: Option<nat>)
    ensures r.Some? ==> |s| >= 5 && r.value < 0x10000
  {
    if |s| < 5 || s[0] != 'u' then None
    else
      var a, b, c, d := HexValue(s[1]), HexValue(s[2]), HexValue(s[3]), HexValue(s[4]);
      if a.None? || b.None? || c.None? || d.None? then None
      else Some(((a.value * 16 + b.value) * 16 + c.value) * 16 + d.value)
  }

  /** The character one escape denotes and how much text after the backslash it takes. */
  function Unescape(s: string): (r: Option<(char, nat)>)
    ensures r.Some? ==> 0 < r.value.1 <= |s|
  {
    if s == [] then None
    else if s[0] == '\"' || s[0] == '\\' || s[0] == '/' then Some((s[0], 1))
    else if s[0] == 'n' then Some(('\n', 1))
    else if s[0] == 'r' then Some(('\r', 1))
    else if s[0] == 't' then Some(('\t', 1))
    else if s[0] == 'b' then Some((8 as char, 1))
    else if s[0] == 'f' then Some((12 as char, 1))
    else match CodeUnit(s)
         case None => None
         case Some(u) =>
           if u < 0xD800 || 0xE000 <= u then Some((u as char, 5))
           else
             var low := if |s| >= 6 && s[5] == '\\' then CodeUnit(s[6..]) else None;
             if u < 0xDC00 && low.Some? && 0xDC00 <= low.value < 0xE000 then
               Some((((u - 0xD800) * 0x400 + (low.value - 0xDC00) + 0x10000) as char, 11))
             else Some((0xFFFD as char, 5))
  }

  /** Reads a string from just after its opening quote: its value, and the text after the closing quote. */
  function ParseString(s: string): (r: Option<(string, string)>)
    ensures r.Some? ==> |r.value.1| < |s|
    decreases |s|
  {
    if s == [] || s[0] as int < 32 then None
    else if s[0] == '\"' then Some(("", s[1..]))
    else if s[0] == '\\' then
      match Unescape(s[1..])
      case None => None
      case Some(e) =>
        (match ParseString(s[1 + e.1..])
         case None => None
         case Some(rest) => Some(([e.0] + rest.0, rest.1)))
    else
      match ParseString(s[1..])
      case None => None
      case Some(rest) => Some(([s[0]] + rest.0, rest.1))
  }

  lemma UnescapeUnicode(n: nat, rest: string)
    requires n < 0xD800
    ensures Unescape(UnicodeEscape(n)[1..] + rest) == Some((n as char, 5))
  {
    CodeUnitIs(n, rest);
  }

  lemma CodeUnitIs(n: nat, rest: string)
    requires n < 0x10000
    ensures CodeUnit(UnicodeEscape(n)[1..] + rest) == Some(n)
  {
    var t := UnicodeEscape(n)[1..] + rest;
    assert HexValue(t[1]) == Some(n / 16 / 16 / 16) && HexValue(t[2]) == Some(n / 16 / 16 % 16);
    assert HexValue(t[3]) == Some(n / 16 % 16) && HexValue(t[4]) == Some(n % 16);
  }

  /** Escapes that are read but never printed: the solidus and two control characters; a pair of surrogates, as the
    character it stands for; and a lone surrogate, as the replacement character. */
  lemma OtherEscapes(rest: string)
    ensures Unescape("/" + rest) == Some(('/', 1))
    ensures Unescape("b" + rest) == Some((8 as char, 1)) && Unescape("f" + rest) == Some((12 as char, 1))
  {
  }

  lemma LoneSurrogate(n: nat, rest: string)
    requires 0xDC00 <= n < 0xE000
    ensures Unescape(UnicodeEscape(n)[1..] + rest) == Some((0xFFFD as char, 5))
  {
    CodeUnitIs(n, rest);
  }

  lemma SurrogatePair(high: nat, low: nat, rest: string)
    requires 0xD800 <= high < 0xDC00 && 0xDC00 <= low < 0xE000
    ensures Unescape(UnicodeEscape(high)[1..] + (UnicodeEscape(low) + rest)) ==
            Some(((0x10000 + (high - 0xD800) * 0x400 + (low - 0xDC00)) as char, 11))
  {
    var t := UnicodeEscape(high)[1..] + (UnicodeEscape(low) + rest);
    CodeUnitIs(high, UnicodeEscape(low) + rest);
    CodeUnitIs(low, rest);
    assert t[5] == '\\' && t[6..] == UnicodeEscape(low)[1..] + rest;
  }

  lemma ParsePlain(c: char, rest: string)
    requires c as int >= 32 && c != '\"' && c != '\\'
    requires ParseString(rest).Some?
    ensures ParseString([c] + rest) == Some(([c] + ParseString(rest).value.0, ParseString(rest).value.1))
  {
    assert ([c] + rest)[1..] == rest;
  }

  lemma ParseEscape(e: string, c: char, rest: string)
    requires Unescape(e + rest) == Some((c, |e|))
    requires ParseString(rest).Some?
    ensures ParseString(['\\'] + (e + rest)) == Some(([c] + ParseString(rest).value.0, ParseString(rest).value.1))
  {
    var s := ['\\'] + (e + rest);
    assert s[1..] == e + rest;
    assert s[1 + |e|..] == rest;
  }

  lemma ParseOneChar(c: char, rest: string)
    requires ParseString(rest).Some?
    ensures ParseString(EscapeChar(c) + rest) == Some(([c] + ParseString(rest).value.0, ParseString(rest).value.1))
  {
    var e := EscapeChar(c);
    if |e| == 1 {
      ParsePlain(c, rest);
    } else {
      if |e| > 2 {
        UnescapeUnicode(c as int, rest);
      }
      assert e + rest == ['\\'] + (e[1..] + rest);
      ParseEscape(e[1..], c, rest);
    }
  }

  /** A printed string is read back exactly, whatever follows it. */
  lemma {:induction false} StringRoundTrip(s: string, rest: string)
    ensures ParseString(Escape(s, rest)) == Some((s, rest))
  {
    if s != [] {
      StringRoundTrip(s[1..], rest);
      ParseOneChar(s[0], Escape(s[1..], rest));
      assert s == [s[0]] + s[1..];
    }
  }

  /** A control character in a string that is not escaped is refused. */
  lemma {:induction false} NoRawControl(s: string, c: char, rest: string)
    requires c as int < 32 && forall i :: 0 <= i < |s| ==> s[i] != '\\' && s[i] != '\"'
    ensures ParseString(s + [c] + rest).None?
  {
    if s == [] {
      assert s + [c] + rest == [c] + rest;
    } else {
      NoRawControl(s[1..], c, rest);
      assert (s + [c] + rest)[0] == s[0] && (s + [c] + rest)[1..] == s[1..] + [c] + rest;
    }
  }

  // ---------- the metadata object ----------

  type Pairs = seq<(string, string)>

  /** The text after the expected token, if it is there. */
  function Expect(token: string, s: string): (r: Option<string>)
    ensures r.Some? ==> |r.value| + |token| == |s|
  {
    if token <= s then Some(s[|token|..]) else None
  }

  lemma ExpectToken(token: string, rest: string)
    ensures Expect(token, token + rest) == Some(rest)
  {
    assert (token + rest)[|token|..] == rest;
  }

  lemma ExpectOther(token: string, c: char, rest: string)
    requires token != [] && token[0] != c
    ensures Expect(token, [c] + rest) == None
  {
  }

  function PrintPair(p: (string, string), rest: string): string {
    "\"" + Escape(p.0, ":\"" + Escape(p.1, rest))
  }

  function PrintMore(ps: Pairs, rest: string): string {
    if ps == [] then "}" + rest else "," + PrintPair(ps[0], PrintMore(ps[1..], rest))
  }

  function PrintObject(ps: Pairs, rest: string): string {
    "{" + if ps == [] then "}" + rest else PrintPair(ps[0], PrintMore(ps[1..], rest))
  }

  function ParseQuoted(before: string, s: string): (r: Option<(string, string)>)
    ensures r.Some? ==> |r.value.1| + |before| < |s|
  {
    match Expect(before, s)
    case None => None
    case Some(rest) => ParseString(rest)
  }

  function ParsePair(s: string): (r: Option<((string, string), string)>)
    ensures r.Some? ==> |r.value.1| < |s|
  {
    match ParseQuoted("\"", s)
    case None => None
    case Some(k) =>
      match ParseQuoted(":\"", k.1)
      case None => None
      case Some(v) => Some(((k.0, v.0), v.1))
  }

  function ParseMembers(s: string): Option<(Pairs, string)>
    decreases |s|
  {
    match ParsePair(s)
    case None => None
    case Some(p) =>
      match Expect("}", p.1)
      case Some(rest) => Some(([p.0], rest))
      case None =>
        match Expect(",", p.1)
        case None => None
        case Some(rest) =>
          match ParseMembers(rest)
          case None => None
          case Some(more) => Some(([p.0] + more.0, more.1))
  }

  function ParseObject(s: string): Option<(Pairs, string)> {
    match Expect("{", s)
    case None => None
    case Some(t) =>
      match Expect("}", t)
      case Some(rest) => Some(([], rest))
      case None => ParseMembers(t)
  }

  lemma QuotedRoundTrip(before: string, s: string, rest: string)
    ensures ParseQuoted(before, before + Escape(s, rest)) == Some((s, rest))
  {
    ExpectToken(before, Escape(s, rest));
    StringRoundTrip(s, rest);
  }

  lemma PairRoundTrip(p: (string, string), rest: string)
    ensures ParsePair(PrintPair(p, rest)) == Some((p, rest))
  {
    QuotedRoundTrip("\"", p.0, ":\"" + Escape(p.1, rest));
    QuotedRoundTrip(":\"", p.1, rest);
  }

  lemma OneMoreMember(s: string, p: (string, string), t: string, ps: Pairs, rest: string)
    requires ParsePair(s) == Some((p, "," + t)) && ParseMembers(t) == Some((ps, rest))
    ensures ParseMembers(s) == Some(([p] + ps, rest))
  {
    ExpectOther("}", ',', t);
    ExpectToken(",", t);
  }

  lemma {:induction false} MembersRoundTrip(ps: Pairs, rest: string)
    requires ps != []
    ensures ParseMembers(PrintPair(ps[0], PrintMore(ps[1..], rest))) == Some((ps, rest))
    decreases |ps|
  {
    var more := PrintMore(ps[1..], rest);
    PairRoundTrip(ps[0], more);
    if |ps| == 1 {
      ExpectToken("}", rest);
      assert ps == [ps[0]];
    } else {
      MembersRoundTrip(ps[1..], rest);
      OneMoreMember(PrintPair(ps[0], more), ps[0], PrintPair(ps[1..][0], PrintMore(ps[1..][1..], rest)), ps[1..], rest);
      assert ps == [ps[0]] + ps[1..];
    }
  }

  lemma ObjectRoundTrip(ps: Pairs, rest: string)
    ensures ParseObject(PrintObject(ps, rest)) == Some((ps, rest))
  {
    if ps == [] {
      ExpectToken("{", "}" + rest);
      ExpectToken("}", rest);
    } else {
      var members := PrintPair(ps[0], PrintMore(ps[1..], rest));
      ExpectToken("{", members);
      ExpectOther("}", '\"', Escape(ps[0].0, ":\"" + Escape(ps[0].1, PrintMore(ps[1..], rest))));
      MembersRoundTrip(ps, rest);
    }
  }

  // ---------- maps, listed in key order ----------

  predicate KeyBefore(a: string, b: string) {
    a == [] || (b != [] && (a[0] < b[0] || (a[0] == b[0] && KeyBefore(a[1..], b[1..]))))
  }

  lemma {:induction false} KeyOrder(a: string, b: string, c: string)
    ensures KeyBefore(a, b) || KeyBefore(b, a)
    ensures KeyBefore(a, b) && KeyBefore(b, c) ==> KeyBefore(a, c)
    ensures KeyBefore(a, b) && KeyBefore(b, a) ==> a == b
    decreases |a|
  {
    if a != [] && b != [] && a[0] == b[0] {
      var c' := if c == [] then [] else c[1..];
      KeyOrder(a[1..], b[1..], c');
      assert a == [a[0]] + a[1..] && b == [b[0]] + b[1..];
    }
  }

  predicate IsFirst(k: string, ks: set<string>) {
    k in ks && forall k' :: k' in ks ==> KeyBefore(k, k')
  }

  lemma {:induction false} FirstExists(ks: set<string>)
    requires ks != {}
    ensures exists k :: IsFirst(k, ks)
    ensures forall k, k' :: IsFirst(k, ks) && IsFirst(k', ks) ==> k == k'
    decreases |ks|
  {
    forall k, k' | IsFirst(k, ks) && IsFirst(k', ks)
      ensures k == k'
    {
      KeyOrder(k, k', k);
    }
    var k0 :| k0 in ks;
    var rest := ks - {k0};
    KeyOrder(k0, k0, k0);
    if rest == {} {
      assert ks == {k0};
      assert IsFirst(k0, ks);
    } else {
      FirstExists(rest);
      var k1 :| IsFirst(k1, rest);
      var k := if KeyBefore(k0, k1) then k0 else k1;
      forall k' | k' in ks
        ensures KeyBefore(k, k')
      {
        KeyOrder(k0, k1, k');
        KeyOrder(k1, k0, k');
      }
      assert IsFirst(k, ks);
    }
  }

  function FirstKey(ks: set<string>): (k: string)
    requires ks != {}
    ensures IsFirst(k, ks)
  {
    FirstExists(ks);
    var k :| IsFirst(k, ks);
    k
  }

  /** The entries of a map in key order, the order in which they are printed. */
  function Listing(m: map<string, string>): Pairs
    decreases |m|
  {
    if m == map[] then []
    else
      var k := FirstKey(m.Keys);
      WithoutKey(m, k);
      [(k, m[k])] + Listing(m - {k})
  }

  /** Reading entries one after the other: a later entry replaces an earlier one with its key. */
  function ToMap(ps: Pairs): map<string, string> {
    if ps == [] then map[] else map[ps[0].0 := ps[0].1] + ToMap(ps[1..])
  }

  lemma ToMapOfCons(p: (string, string), ps: Pairs)
    ensures ToMap([p] + ps) == map[p.0 := p.1] + ToMap(ps)
  {
    assert ([p] + ps)[1..] == ps;
  }

  /** A later entry with the same key replaces an earlier one. */
  lemma {:induction false} LaterWins(ps: Pairs, p: (string, string))
    ensures ToMap(ps + [p]) == ToMap(ps)[p.0 := p.1]
  {
    if ps == [] {
      assert [] + [p] == [p] && [p][1..] == [];
    } else {
      LaterWins(ps[1..], p);
      assert (ps + [p])[1..] == ps[1..] + [p];
    }
  }

  lemma WithoutKey(m: map<string, string>, k: string)
    requires k in m
    ensures |m - {k}| < |m|
    ensures m == map[k := m[k]] + (m - {k})
  {
    assert (m - {k}).Keys == m.Keys - {k};
    assert |m.Keys - {k}| < |m.Keys|;
  }

  lemma {:induction false} ListingRoundTrip(m: map<string, string>)
    ensures ToMap(Listing(m)) == m
    decreases |m|
  {
    if m != map[] {
      var k := FirstKey(m.Keys);
      WithoutKey(m, k);
      ListingRoundTrip(m - {k});
      ToMapOfCons((k, m[k]), Listing(m - {k}));
    }
  }

  // ---------- the packet frame ----------

  function FrameText(m: map<string, string>, d: string): string {
    "{\"m\":" + PrintObject(Listing(m), ",\"d\":\"" + Escape(d, "}"))
  }

  function ParseFrame(s: string): Option<(map<string, string>, string)> {
    match Expect("{\"m\":", s)
    case None => None
    case Some(t) =>
      match ParseObject(t)
      case None => None
      case Some(o) =>
        match ParseQuoted(",\"d\":\"", o.1)
        case None => None
        case Some(d) => if d.1 == "}" then Some((ToMap(o.0), d.0)) else None
  }

  /** The bytes a packet is marshalled to. */
  function Marshal(m: map<string, string>, d: string): Bytes {
    Utf8.Encode(FrameText(m, d))
  }

  /** Reads a frame laid out as the printer lays it out; other layouts give `None`. */
  function Unmarshal(b: Bytes): Option<(map<string, string>, string)> {
    match Utf8.Decode(b)
    case None => None
    case Some(s) => ParseFrame(s)
  }

  lemma FrameRoundTrip(m: map<string, string>, d: string)
    ensures ParseFrame(FrameText(m, d)) == Some((m, d))
  {
    var tail := ",\"d\":\"" + Escape(d, "}");
    ExpectToken("{\"m\":", PrintObject(Listing(m), tail));
    ObjectRoundTrip(Listing(m), tail);
    QuotedRoundTrip(",\"d\":\"", d, "}");
    ListingRoundTrip(m);
  }

  // ---------- the layout of a frame ----------

  function Escaped(s: string): string {
    if s == [] then "" else EscapeChar(s[0]) + Escaped(s[1..])
  }

  function Quoted(s: string): string {
    "\"" + Escaped(s) + "\""
  }

  /** Members separated by commas. */
  function Members(ps: Pairs): string {
    if ps == [] then ""
    else Quoted(ps[0].0) + ":" + Quoted(ps[0].1) + if |ps| == 1 then "" else "," + Members(ps[1..])
  }

  lemma {:induction false} EscapeIs(s: string, rest: string)
    ensures Escape(s, rest) == Escaped(s) + "\"" + rest
  {
    if s != [] {
      EscapeIs(s[1..], rest);
    }
  }

  lemma PairIs(p: (string, string), rest: string)
    ensures PrintPair(p, rest) == Quoted(p.0) + ":" + Quoted(p.1) + rest
  {
    EscapeIs(p.0, ":\"" + Escape(p.1, rest));
    EscapeIs(p.1, rest);
  }

  lemma {:induction false} MembersAre(ps: Pairs, rest: string)
    requires ps != []
    ensures PrintPair(ps[0], PrintMore(ps[1..], rest)) == Members(ps) + "}" + rest
    decreases |ps|
  {
    PairIs(ps[0], PrintMore(ps[1..], rest));
    if |ps| > 1 {
      MembersAre(ps[1..], rest);
    }
  }

  lemma ObjectIs(ps: Pairs, rest: string)
    ensures PrintObject(ps, rest) == "{" + Members(ps) + "}" + rest
  {
    if ps != [] {
      MembersAre(ps, rest);
    }
  }

  lemma Joined(members: string, d: string)
    ensures "{\"m\":" + ("{" + members + "}" + (",\"d\":\"" + (d + "\"" + "}"))) ==
            "{\"m\":{" + members + "},\"d\":" + ("\"" + d + "\"") + "}"
  {
  }

  /** Whether one key is listed before another: by the first character in which they differ, or as its beginning. */
  lemma {:induction false} KeyBeforeIs(a: string, b: string)
    ensures KeyBefore(a, b) <==>
              a <= b || exists i :: 0 <= i < |a| && i < |b| && a[..i] == b[..i] && a[i] < b[i]
    decreases |a|
  {
    if a != [] && b != [] {
      assert a == [a[0]] + a[1..] && b == [b[0]] + b[1..];
      if a[0] == b[0] {
        KeyBeforeIs(a[1..], b[1..]);
        if i :| 0 <= i < |a| && i < |b| && a[..i] == b[..i] && a[i] < b[i] {
          assert a[1..][..i - 1] == a[..i][1..] && b[1..][..i - 1] == b[..i][1..];
        }
        if i :| 0 <= i < |a[1..]| && i < |b[1..]| && a[1..][..i] == b[1..][..i] && a[1..][i] < b[1..][i] {
          assert a[..i + 1] == [a[0]] + a[1..][..i] && b[..i + 1] == [b[0]] + b[1..][..i];
        }
      } else {
        assert a[..0] == b[..0];
        if i :| 0 <= i < |a| && i < |b| && a[..i] == b[..i] && a[i] < b[i] {
          assert i > 0 ==> a[..i][0] == b[..i][0];
        }
      }
    }
  }

  /** The entries are listed in strictly ascending order of their keys, and they are all the entries. */
  lemma {:induction false} ListingSorted(m: map<string, string>)
    ensures forall i, j :: 0 <= i < j < |Listing(m)| ==>
              KeyBefore(Listing(m)[i].0, Listing(m)[j].0) && Listing(m)[i].0 != Listing(m)[j].0
    ensures forall k, v :: (k, v) in Listing(m) <==> k in m && m[k] == v
    decreases |m|
  {
    if m != map[] {
      var k := FirstKey(m.Keys);
      WithoutKey(m, k);
      ListingSorted(m - {k});
      assert forall i :: 0 < i < |Listing(m)| ==> Listing(m)[i] == Listing(m - {k})[i - 1];
      assert forall i :: 0 < i < |Listing(m)| ==> (Listing(m)[i].0, Listing(m)[i].1) in Listing(m - {k});
    }
  }

  /** The layout of a frame: an object of the metadata, in the order of the keys, and the data text. */
  lemma FrameIs(m: map<string, string>, d: string)
    ensures Utf8.Decode(Marshal(m, d)) == Some("{\"m\":{" + Members(Listing(m)) + "},\"d\":" + Quoted(d) + "}")
  {
    EscapeIs(d, "}");
    ObjectIs(Listing(m), ",\"d\":\"" + Escape(d, "}"));
    Joined(Members(Listing(m)), Escaped(d));
    Utf8.RoundTrip(FrameText(m, d));
  }

  /** A marshalled packet is read back with the same metadata and the same data text, for every packet. */
  lemma RoundTrip(m: map<string, string>, d: string)
    ensures Unmarshal(Marshal(m, d)) == Some((m, d))
  {
    Utf8.RoundTrip(FrameText(m, d));
    FrameRoundTrip(m, d);
  }

  /** Two packets that marshal alike have the same metadata and the same data text. */
  lemma Injective(m: map<string, string>, d: string, m': map<string, string>, d': string)
    requires Marshal(m, d) == Marshal(m', d')
    ensures m == m' && d == d'
  {
    RoundTrip(m, d);
    RoundTrip(m', d');
  }

  lemma {:induction false} EscapeLength(s: string, rest: string)
    ensures |Escape(s, rest)| > |rest|
  {
    if s != [] {
      EscapeLength(s[1..], rest);
    }
  }

  lemma {:induction false} MoreLength(ps: Pairs, rest: string)
    ensures |PrintMore(ps, rest)| > |rest|
  {
    if ps != [] {
      var more := PrintMore(ps[1..], rest);
      MoreLength(ps[1..], rest);
      EscapeLength(ps[0].1, more);
      EscapeLength(ps[0].0, ":\"" + Escape(ps[0].1, more));
    }
  }

  /** A frame is longer than the nonce that a keyed receiver splits off. */
  lemma LongerThanNonce(m: map<string, string>, d: string)
    ensures |Marshal(m, d)| > 12
  {
    var ps, tail := Listing(m), ",\"d\":\"" + Escape(d, "}");
    EscapeLength(d, "}");
    MoreLength(ps, tail);
    assert ps != [] ==> PrintMore(ps, tail) == "," + PrintObject(ps, tail)[1..];
    Utf8.EncodeNotShorter(FrameText(m, d));
  }
}
