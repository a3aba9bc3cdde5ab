/** AES framing over an ideal authenticated cipher. */
module Cipher {
  import opened Bytes
  import Curve
  import Json
  import Utf8

  /** An authenticated cipher: key, nonce and text in; sealed bytes out, and back. */
  datatype Aead = Aead(seal: (Bytes, Bytes, Bytes) -> Bytes, open: (Bytes, Bytes, Bytes) -> Option<Bytes>)

  const NONCE_SIZE := 12
  const TAG_SIZE := 16

  /** The ideal cipher of section 5.1 of RFC 5116: what was sealed opens to the same text, nothing else opens, sealing
    adds the tag length, and no nonce with sealed bytes happens to be a packet frame. */
  ghost predicate Ideal(a: Aead) {
    forall k: Bytes, n: Bytes, p: Bytes :: IdealAt(a, k, n, p)
  }

  ghost predicate IdealAt(a: Aead, k: Bytes, n: Bytes, p: Bytes) {
    && a.open(k, n, a.seal(k, n, p)) == Some(p)
    && |a.seal(k, n, p)| == |p| + TAG_SIZE
    && (a.open(k, n, p).Some? ==> p == a.seal(k, n, a.open(k, n, p).value))
    && Json.Unmarshal(n + a.seal(k, n, p)).None?
  }

  /** Bytes sealed under `k` do not open under `k'`. */
  ghost predicate Separate(a: Aead, k: Bytes, k': Bytes) {
    forall n: Bytes, p: Bytes :: a.open(k', n, a.seal(k, n, p)).None?
  }

  /** The key has an AES length. */
  predicate LegalKey(key: Bytes) {
    |key| == 16 || |key| == 24 || |key| == 32
  }

  const MARKER: Bytes := [255, 255, 255, 255, 255, 255, 255, 255, 255, 255, 255, 255, 255, 255]

  /** A key of 32 bytes of which only the first is not zero. */
  predicate Round(k: Bytes) {
    |k| == 32 && forall i :: 1 <= i < 32 ==> k[i] == 0
  }

  function Tag(k: Bytes): (t: Bytes)
    ensures |t| == TAG_SIZE && t[0] == 255
  {
    MARKER + if Round(k) then [1, k[0]] else if LegalKey(k) then [0, 0] else [2, 0]
  }

  /** The laws can be met: a cipher that only appends a tag that no text contains and that tells round keys, other
    keys of an AES length and the rest apart. */
  ghost function Tagging(): Aead {
    Aead((k: Bytes, n: Bytes, p: Bytes) => p + Tag(k),
         (k: Bytes, n: Bytes, c: Bytes) =>
           if |c| >= TAG_SIZE && c[|c| - TAG_SIZE..] == Tag(k) then Some(c[..|c| - TAG_SIZE]) else None)
  }

  lemma TaggingIsIdeal()
    ensures Ideal(Tagging())
  {
    forall k: Bytes, n: Bytes, p: Bytes
      ensures IdealAt(Tagging(), k, n, p)
    {
      assert (p + Tag(k))[|p|..] == Tag(k) && (p + Tag(k))[..|p|] == p;
      Utf8.NoText(n + (p + Tag(k)), |n| + |p|);
    }
  }

  /** What is sealed under any other key does not open under a round one, or one without an AES length. */
  lemma TaggingSeparates(k: Bytes, k': Bytes)
    requires LegalKey(k) && k != k' && (Round(k') || !LegalKey(k'))
    ensures Separate(Tagging(), k, k')
  {
    assert Tag(k) != Tag(k') by {
      assert Tag(k')[14] == if Round(k') then 1 else 2;
      if Round(k) {
        assert Tag(k)[14] == 1 && Tag(k)[15] == k[0];
        if Round(k') {
          assert Tag(k')[15] == k'[0] && k[0] != k'[0];
        }
      } else {
        assert Tag(k)[14] == 0;
      }
    }
    forall n: Bytes, p: Bytes
      ensures Tagging().open(k', n, Tagging().seal(k, n, p)).None?
    {
      assert (p + Tag(k))[|p|..] == Tag(k);
    }
  }

  function KeySizeError(key: Bytes): string {
    "cipher init fail: crypto/aes: invalid key size " + Curve.Decimal(|key|)
  }

  /** The nonce goes in front of the sealed bytes; the key must have an AES length. */
  function EncryptAES(a: Aead, key: Bytes, nonce: Bytes, data: Bytes): Result<Bytes> {
    if !LegalKey(key) then Err(KeySizeError(key))
    else Ok(nonce + a.seal(key, nonce, data))
  }

  /** With a legal key the data must at least hold the nonce that is split off. */
  predicate Splittable(key: Bytes, data: Bytes) {
    LegalKey(key) ==> |data| >= NONCE_SIZE
  }

  function DecryptAES(a: Aead, key: Bytes, data: Bytes): Result<Bytes>
    requires Splittable(key, data)
  {
    if !LegalKey(key) then Err(KeySizeError(key))
    else match a.open(key, data[..NONCE_SIZE], data[NONCE_SIZE..])
         case None => Err("decrypt fail: cipher: message authentication failed")
         case Some(p) => Ok(p)
  }

  lemma DecryptOfEncrypt(a: Aead, key: Bytes, nonce: Bytes, p: Bytes)
    requires Ideal(a) && LegalKey(key) && |nonce| == 12
    ensures var c := EncryptAES(a, key, nonce, p).value;
            && |c| == |p| + 12 + 16 && c[..12] == nonce
            && Splittable(key, c)
            && DecryptAES(a, key, c) == Ok(p)
            && Json.Unmarshal(c).None?
  {
    assert IdealAt(a, key, nonce, p);
    var c := nonce + a.seal(key, nonce, p);
    assert c[..NONCE_SIZE] == nonce && c[NONCE_SIZE..] == a.seal(key, nonce, p);
  }

  /** A frame that was not sealed opens under no key. */
  lemma FrameDoesNotOpen(a: Aead, key: Bytes, frame: Bytes)
    requires Ideal(a) && Json.Unmarshal(frame).Some? && |frame| >= NONCE_SIZE
    ensures DecryptAES(a, key, frame).Err?
  {
    var n, c := frame[..NONCE_SIZE], frame[NONCE_SIZE..];
    var text := a.open(key, n, c);
    assert frame == n + c;
    assert IdealAt(a, key, n, c) && IdealAt(a, key, n, if text.Some? then text.value else []);
  }
}

/** Key stores, transport sealing and end-to-end sealing: what each operation does to a table of keys. */
module Sealing {
  import opened Bytes
  import opened Cipher
  import opened Curve
  import opened PacketState
  import Json

  const TARGET_KEX_SERVER := "crypto.kex-cs"
  const TARGET_KEX_CLIENT := "crypto.kex-cc"
  const KEY_NO_CRYPTO := "_no_crypto"

  datatype KeyInfo = KeyInfo(keySent: bool, shared: nat, public: Point)

  type Keys = map<string, KeyInfo>

  function KeyBytes(k: KeyInfo): Bytes {
    BigEndian(k.shared)
  }

  predicate Exempt(m: Meta) {
    Get(m, KEY_NO_CRYPTO) in ["true", "t", "yes", "y", "1"]
  }

  datatype Sealed = Sealed(keys: Keys, data: Bytes, err: Option<string>)

  /** The outgoing transform: exempt packets and packets to unknown addresses pass; the first other packet to an address
    passes and marks the key as sent; later ones are sealed, or fail if the shared value has no AES length. */
  function EncryptTransport(a: Aead, keys: Keys, m: Meta, dest: string, nonce: Bytes, buff: Bytes): Sealed {
    if Exempt(m) || dest !in keys then Sealed(keys, buff, None)
    else if !keys[dest].keySent then Sealed(keys[dest := keys[dest].(keySent := true)], buff, None)
    else match EncryptAES(a, KeyBytes(keys[dest]), nonce, buff)
         case Err(e) => Sealed(keys, buff, Some("encryption error: " + e))
         case Ok(c) => Sealed(keys, c, None)
  }

  predicate CanOpen(keys: Keys, from: string, buff: Bytes) {
    from in keys ==> Splittable(KeyBytes(keys[from]), buff)
  }

  /** The incoming transform: what cannot be opened passes unchanged. */
  function DecryptTransport(a: Aead, keys: Keys, from: string, buff: Bytes): Bytes
    requires CanOpen(keys, from, buff)
  {
    if from !in keys then buff
    else match DecryptAES(a, KeyBytes(keys[from]), buff)
         case Err(_) => buff
         case Ok(p) => p
  }

  function Install(g: Group, scalar: nat, keys: Keys, addr: string, pub: Point, sent: bool): Keys {
    keys[addr := KeyInfo(sent, Shared(g, scalar, pub), pub)]
  }

  function EncryptFor(a: Aead, keys: Keys, addr: string, nonce: Bytes, data: Bytes): Result<Bytes> {
    if addr !in keys then Err("keys not exchanged")
    else match EncryptAES(a, KeyBytes(keys[addr]), nonce, data)
         case Err(e) => Err("encryption error: " + e)
         case Ok(c) => Ok(c)
  }

  function DecryptFrom(a: Aead, keys: Keys, addr: string, data: Bytes): Result<Bytes>
    requires CanOpen(keys, addr, data)
  {
    if addr !in keys then Err("keys not exchanged")
    else match DecryptAES(a, KeyBytes(keys[addr]), data)
         case Err(e) => Err("encryption error: " + e)
         case Ok(p) => Ok(p)
  }

  /** The outgoing transform, case by case: exempt are exactly the packets marked with one of five words. */
  lemma SealsExactly(a: Aead, keys: Keys, m: Meta, dest: string, nonce: Bytes, buff: Bytes)
    ensures var r, exempt := EncryptTransport(a, keys, m, dest, nonce, buff),
                             Get(m, "_no_crypto") in {"true", "t", "yes", "y", "1"};
            if exempt || dest !in keys then r == Sealed(keys, buff, None)
            else if !keys[dest].keySent then
              && r.data == buff && r.err.None?
              && r.keys == keys[dest := KeyInfo(true, keys[dest].shared, keys[dest].public)]
            else
              var key := BigEndian(keys[dest].shared);
              && r.keys == keys
              && if |key| in {16, 24, 32} then r.data == nonce + a.seal(key, nonce, buff) && r.err.None?
                 else r.data == buff && r.err == Some("encryption error: " + KeySizeError(key))
  {
  }

  /** The incoming transform, case by case: what opens under the key for the sender is replaced, all else passes. */
  lemma OpensExactly(a: Aead, keys: Keys, from: string, buff: Bytes)
    requires CanOpen(keys, from, buff)
    ensures var p := DecryptTransport(a, keys, from, buff);
            if from in keys && |BigEndian(keys[from].shared)| in {16, 24, 32} then
              && |buff| >= 12
              && match a.open(BigEndian(keys[from].shared), buff[..12], buff[12..])
                 case None => p == buff
                 case Some(text) => p == text
            else p == buff
  {
  }

  // ---------- one datagram ----------

  /** Transparency of one datagram: a frame that left unsealed, or sealed under the key the receiver has for the sender,
    is recovered exactly; one that left sealed is lost, and passed on as it is, on a receiver without a key for the
    sender or with another key that is kept apart from it. */
  lemma Transparent(a: Aead, m: Meta, d: string, wire: Bytes, key: Bytes, nonce: Bytes, keys: Keys, from: string)
    requires Ideal(a) && |nonce| == NONCE_SIZE
    requires wire == Json.Marshal(m, d) || EncryptAES(a, key, nonce, Json.Marshal(m, d)) == Ok(wire)
    requires from in keys && KeyBytes(keys[from]) != key ==> Separate(a, key, KeyBytes(keys[from]))
    ensures CanOpen(keys, from, wire)
    ensures wire == Json.Marshal(m, d) ==> DecryptTransport(a, keys, from, wire) == wire
    ensures wire != Json.Marshal(m, d) && from in keys && KeyBytes(keys[from]) == key ==>
              DecryptTransport(a, keys, from, wire) == Json.Marshal(m, d)
    ensures wire != Json.Marshal(m, d) && !(from in keys && KeyBytes(keys[from]) == key) ==>
              DecryptTransport(a, keys, from, wire) == wire && Json.Unmarshal(wire).None?
  {
    var frame := Json.Marshal(m, d);
    Json.RoundTrip(m, d);
    Json.LongerThanNonce(m, d);
    if wire == frame {
      if from in keys {
        FrameDoesNotOpen(a, KeyBytes(keys[from]), frame);
      }
    } else {
      DecryptOfEncrypt(a, key, nonce, frame);
      if from in keys && KeyBytes(keys[from]) != key {
        assert wire[..NONCE_SIZE] == nonce && wire[NONCE_SIZE..] == a.seal(key, nonce, frame);
      }
    }
  }

  // ---------- many datagrams ----------

  datatype Event =
    | Sending(m: Meta, dest: string, nonce: Bytes, buff: Bytes)
    | NewStore(addr: string, info: KeyInfo)

  function AfterEvent(a: Aead, keys: Keys, e: Event): Keys {
    match e
    case Sending(m, dest, nonce, buff) => EncryptTransport(a, keys, m, dest, nonce, buff).keys
    case NewStore(addr, info) => keys[addr := info]
  }

  function AfterAll(a: Aead, keys: Keys, es: seq<Event>): Keys {
    if es == [] then keys else AfterEvent(a, AfterAll(a, keys, es[..|es| - 1]), es[|es| - 1])
  }

  predicate Replaces(e: Event, addr: string) {
    e.NewStore? && e.addr == addr
  }

  /** Until a new store is installed for an address, its keys stay what they are and a sent mark stays set. */
  lemma {:induction false} MarkStays(a: Aead, keys: Keys, es: seq<Event>, addr: string)
    requires addr in keys
    requires forall i :: 0 <= i < |es| ==> !Replaces(es[i], addr)
    ensures var keys' := AfterAll(a, keys, es);
            addr in keys' && (keys'[addr] == keys[addr] || keys'[addr] == keys[addr].(keySent := true))
  {
    if es != [] {
      MarkStays(a, keys, es[..|es| - 1], addr);
      assert !Replaces(es[|es| - 1], addr);
    }
  }

  lemma {:induction false} AfterAllSplit(a: Aead, keys: Keys, es: seq<Event>, n: nat)
    requires n <= |es|
    ensures AfterAll(a, keys, es) == AfterAll(a, AfterAll(a, keys, es[..n]), es[n..])
    decreases |es|
  {
    if n == |es| {
      assert es[..n] == es;
    } else {
      var last := |es| - 1;
      AfterAllSplit(a, keys, es[..last], n);
      assert es[..last][..n] == es[..n] && es[..last][n..] == es[n..][..last - n];
    }
  }

  /** Sealing over whole histories: of two packets to a keyed address that ask for sealing, with no new key store for
    the address in between, the later one is always sealed under the stored key, or refused if that key has no AES
    length. */
  lemma LaterPacketSealed(a: Aead, keys: Keys, es: seq<Event>, i: nat, j: nat, addr: string)
    requires i < j < |es|
    requires es[i].Sending? && es[j].Sending? && es[i].dest == es[j].dest == addr
    requires !Exempt(es[i].m) && !Exempt(es[j].m)
    requires addr in AfterAll(a, keys, es[..i])
    requires forall k :: i < k < j ==> !Replaces(es[k], addr)
    ensures var before, out := AfterAll(a, keys, es[..j]), es[j];
            var r := EncryptTransport(a, before, out.m, addr, out.nonce, out.buff);
            var key := BigEndian(AfterAll(a, keys, es[..i])[addr].shared);
            && (r.err.Some? <==> !LegalKey(key))
            && (LegalKey(key) ==> r.data == out.nonce + a.seal(key, out.nonce, out.buff))
            && r.keys == before
  {
    var before := AfterAll(a, keys, es[..i]);
    assert es[..j][..i] == es[..i];
    AfterAllSplit(a, keys, es[..j], i);
    var window := es[..j][i..];
    AfterAllSplit(a, before, window, 1);
    assert window[..1] == [es[i]];
    assert AfterAll(a, before, [es[i]]) == AfterEvent(a, AfterAll(a, before, []), es[i]);
    MarkStays(a, AfterEvent(a, before, es[i]), window[1..], addr);
  }
}

/** The crypto extension as an object: a table of key store objects, one of whose fields changes in place. */
module Crypto {
  import opened Bytes
  import opened Cipher
  import opened Curve
  import opened PacketState
  import opened Sealing
  import Base64
  import Packet

  class KeyStore {
    var keySent: bool
    const shared: nat
    const public: Point

    constructor (sent: bool, s: nat, p: Point)
      ensures keySent == sent && shared == s && public == p
    {
      keySent, shared, public := sent, s, p;
    }

    ghost function Info(): KeyInfo
      reads this
    {
      KeyInfo(keySent, shared, public)
    }
  }

  class Extension {
    const group: Group
    const aead: Aead
    const scalar: nat
    const publicKey: Bytes
    var keys: map<string, KeyStore>

    /** No two addresses share a key store, so marking one key as sent marks no other. */
    ghost predicate Valid()
      reads this
    {
      && publicKey == PrintKey(PublicOf(group, scalar))
      && (forall x, y :: x in keys && y in keys && x != y ==> keys[x] != keys[y])
    }

    ghost function Stores(): set<KeyStore>
      reads this
    {
      set x | x in keys :: keys[x]
    }

    ghost function View(): Keys
      reads this, Stores()
    {
      map x | x in keys :: keys[x].Info()
    }

    constructor (g: Group, a: Aead, s: nat)
      ensures Valid() && View() == map[] && group == g && aead == a && scalar == s
    {
      group, aead, scalar := g, a, s;
      publicKey := PrintKey(PublicOf(g, s));
      keys := map[];
    }

    method SetKeyStore(addr: string, pub: Point, sent: bool)
      requires Valid()
      modifies this
      ensures Valid() && View() == Install(group, scalar, old(View()), addr, pub, sent)
      ensures View() == old(View())[addr := KeyInfo(sent, Mul(group, scalar, pub).x, pub)]
    {
      var ks := new KeyStore(sent, Shared(group, scalar, pub), pub);
      keys := keys[addr := ks];
    }

    method Seal(m: Meta, dest: string, nonce: Bytes, buff: Bytes) returns (out: Bytes, stat: int, msg: string)
      requires Valid()
      modifies Stores()`keySent
      ensures Valid() && keys == old(keys)
      ensures var r := Sealing.EncryptTransport(aead, old(View()), m, dest, nonce, buff);
              && View() == r.keys && out == r.data
              && stat == (if r.err.Some? then -1 else 0)
              && msg == (if r.err.Some? then r.err.value else "")
    {
      stat, msg, out := 0, "", buff;
      if Exempt(m) || dest !in keys {
        return;
      }
      var ks := keys[dest];
      if !ks.keySent {
        ks.keySent := true;
        return;
      }
      var c := EncryptAES(aead, BigEndian(ks.shared), nonce, buff);
      match c
      case Err(e) => stat, msg := -1, "encryption error: " + e;
      case Ok(sealed) => out := sealed;
    }

    method Open(from: string, buff: Bytes) returns (out: Bytes)
      requires Valid() && CanOpen(View(), from, buff)
      ensures out == DecryptTransport(aead, View(), from, buff)
    {
      out := buff;
      if from in keys {
        assert View()[from] == keys[from].Info();
        var p := DecryptAES(aead, BigEndian(keys[from].shared), buff);
        if p.Ok? {
          out := p.value;
        }
      }
    }

    /** Stores the sender's key and answers with the own key; what is not a key changes nothing; and an object without
      both coordinates ends the program. `other` is what a JSON decoder makes of data in another layout. */
    method KeyExchangeServer(from: string, data: Bytes, other: KeyReading) returns (reply: Result<Bytes>, ended: bool)
      requires Valid()
      modifies this
      ensures Valid()
      ensures match ReadKey(data, other)
              case NoKey => !ended && reply == Err("malformed packet") && View() == old(View())
              case Incomplete => ended && View() == old(View())
              case Complete(pub) =>
                && !ended && reply == Ok(PrintKey(PublicOf(group, scalar)))
                && View() == Install(group, scalar, old(View()), from, pub, false)
    {
      reply, ended := Err("malformed packet"), false;
      match ReadKey(data, other)
      case NoKey =>
      case Incomplete => ended := true;
      case Complete(pub) =>
        SetKeyStore(from, pub, false);
        reply := Ok(publicKey);
    }

    method KeyExchangeClient(data: Bytes, other: Option<string>) returns (reply: Result<Bytes>)
      requires Valid()
      ensures var addr := ReadAddr(data, other);
              reply == if addr.None? then Err("malformed packet")
                       else if addr.value !in View() then Err("client non-existent")
                       else Ok(PrintKey(View()[addr.value].public))
    {
      var addr := ReadAddr(data, other);
      if addr.None? {
        reply := Err("malformed packet");
      } else if addr.value !in keys {
        reply := Err("client non-existent");
      } else {
        reply := Ok(PrintKey(keys[addr.value].public));
      }
    }

    /** The key from a response is stored as already sent; an object without both coordinates ends the program. */
    method ProcessKeyExResp(addr: string, data: Bytes, other: KeyReading) returns (ok: bool, ended: bool)
      requires Valid()
      modifies this
      ensures Valid()
      ensures match ReadKey(data, other)
              case NoKey => !ok && !ended && View() == old(View())
              case Incomplete => ended && View() == old(View())
              case Complete(pub) => ok && !ended && View() == Install(group, scalar, old(View()), addr, pub, true)
    {
      ok, ended := false, false;
      match ReadKey(data, other)
      case NoKey =>
      case Incomplete => ended := true;
      case Complete(pub) =>
        SetKeyStore(addr, pub, true);
        ok := true;
    }

    /** Seals the packet's data for another client and commits it; without a key, or with one of no AES length, the
      packet stays as it is. */
    method EncryptE2E(to: string, pkt: Packet.JSONPkt, nonce: Bytes) returns (ok: bool)
      requires Valid()
      modifies pkt`buff, pkt.wire
      ensures Valid() && View() == old(View()) && pkt.wire.meta == old(pkt.wire.meta)
      ensures var c := EncryptFor(aead, View(), to, nonce, old(pkt.View().buff));
              && ok == c.Ok?
              && pkt.View() == (if ok then RunOps(old(pkt.View()), [Clear, Write(c.value), Close]) else old(pkt.View()))
      ensures ok <==> to in View() && |BigEndian(View()[to].shared)| in {16, 24, 32}
      ensures ok ==>
                && pkt.buff == nonce + aead.seal(BigEndian(View()[to].shared), nonce, old(pkt.buff))
                && Base64.Decode(pkt.wire.data) == Some(pkt.buff)
                && pkt.View().meta == old(pkt.View().meta) && pkt.dest == old(pkt.dest)
      ensures !ok ==> pkt.View() == old(pkt.View())
    {
      ok := false;
      if to in keys {
        assert View()[to] == keys[to].Info();
        var c := EncryptAES(aead, BigEndian(keys[to].shared), nonce, pkt.buff);
        if c.Ok? {
          ok := true;
          Replace(pkt, c.value);
        }
      }
    }

    /** Opens the packet's data and commits the plain data; what cannot be opened is left as it is. */
    method DecryptE2E(sender: string, pkt: Packet.JSONPkt) returns (ok: bool)
      requires Valid() && CanOpen(View(), sender, pkt.buff)
      modifies pkt`buff, pkt.wire
      ensures Valid() && View() == old(View()) && pkt.wire.meta == old(pkt.wire.meta)
      ensures var p := DecryptFrom(aead, View(), sender, old(pkt.View().buff));
              && ok == p.Ok?
              && pkt.View() == (if ok then RunOps(old(pkt.View()), [Clear, Write(p.value), Close]) else old(pkt.View()))
      ensures ok <==>
                && sender in View() && |BigEndian(View()[sender].shared)| in {16, 24, 32} && |old(pkt.buff)| >= 12
                && aead.open(BigEndian(View()[sender].shared), old(pkt.buff)[..12], old(pkt.buff)[12..]).Some?
      ensures ok ==>
                && Some(pkt.buff) ==
                   aead.open(BigEndian(View()[sender].shared), old(pkt.buff)[..12], old(pkt.buff)[12..])
                && Base64.Decode(pkt.wire.data) == Some(pkt.buff)
                && pkt.View().meta == old(pkt.View().meta) && pkt.dest == old(pkt.dest)
      ensures !ok ==> pkt.View() == old(pkt.View())
    {
      ok := false;
      if sender in keys {
        assert View()[sender] == keys[sender].Info();
        var p := DecryptAES(aead, BigEndian(keys[sender].shared), pkt.buff);
        if p.Ok? {
          ok := true;
          Replace(pkt, p.value);
        }
      }
    }

    /** The request for the server's key: metadata the packet already had is kept. */
    method ConfigureKeyExServerPkt(pkt: Packet.JSONPkt)
      requires Valid() && pkt.Valid()
      modifies pkt`buff, pkt.wire, pkt.wire.meta
      ensures pkt.Valid()
      ensures var data := PrintKey(PublicOf(group, scalar));
              && pkt.View() == RunOps(old(pkt.View()), [Clear, Add(KEY_TARGET, TARGET_KEX_SERVER), Write(data), Close])
              && pkt.buff == data && Base64.Decode(pkt.wire.data) == Some(data) && pkt.dest == old(pkt.dest)
              && pkt.wire.meta.entries == old(pkt.wire.meta.entries)["_tgt" := "crypto.kex-cs"]
    {
      Configure(pkt, TARGET_KEX_SERVER, publicKey);
    }

    method ConfigureKeyExClientPkt(addr: string, pkt: Packet.JSONPkt)
      requires pkt.Valid()
      modifies pkt`buff, pkt.wire, pkt.wire.meta
      ensures pkt.Valid()
      ensures var data := PrintAddr(addr);
              && pkt.View() == RunOps(old(pkt.View()), [Clear, Add(KEY_TARGET, TARGET_KEX_CLIENT), Write(data), Close])
              && pkt.buff == data && Base64.Decode(pkt.wire.data) == Some(data) && pkt.dest == old(pkt.dest)
              && pkt.wire.meta.entries == old(pkt.wire.meta.entries)["_tgt" := "crypto.kex-cc"]
    {
      Configure(pkt, TARGET_KEX_CLIENT, PrintAddr(addr));
    }
  }

  /** Replaces the data of a packet and commits it. */
  method Replace(pkt: Packet.JSONPkt, data: Bytes)
    modifies pkt`buff, pkt.wire
    ensures pkt.wire.meta == old(pkt.wire.meta) && pkt.View().meta == old(pkt.View().meta) && pkt.dest == old(pkt.dest)
    ensures pkt.buff == data && Base64.Decode(pkt.wire.data) == Some(data)
    ensures pkt.View() == RunOps(old(pkt.View()), [Clear, Write(data), Close])
  {
    ghost var s := pkt.View();
    pkt.ClearBuffer();
    pkt.WriteBytes(data);
    pkt.Commit();
    RunThree(s, Clear, Write(data), Close);
  }

  method Configure(pkt: Packet.JSONPkt, target: string, data: Bytes)
    requires pkt.Valid()
    modifies pkt`buff, pkt.wire, pkt.wire.meta
    ensures pkt.Valid()
    ensures pkt.buff == data && Base64.Decode(pkt.wire.data) == Some(data) && pkt.dest == old(pkt.dest)
    ensures pkt.wire.meta.entries == old(pkt.wire.meta.entries)["_tgt" := target]
    ensures pkt.View() == RunOps(old(pkt.View()), [Clear, Add(KEY_TARGET, target), Write(data), Close])
  {
    ghost var s := pkt.View();
    pkt.ClearBuffer();
    pkt.AddMeta(KEY_TARGET, target);
    pkt.WriteBytes(data);
    pkt.Commit();
    RunThree(Apply(s, Clear), Add(KEY_TARGET, target), Write(data), Close);
    assert [Clear, Add(KEY_TARGET, target), Write(data), Close][1..] == [Add(KEY_TARGET, target), Write(data), Close];
  }

  lemma RunThree(s: PktState, a: Op, b: Op, c: Op)
    ensures RunOps(s, [a, b, c]) == Apply(Apply(Apply(s, a), b), c)
  {
    assert [a, b, c][1..] == [b, c] && [b, c][1..] == [c] && [c][1..] == [];
    assert RunOps(s, [a, b, c]) == RunOps(Apply(s, a), [b, c]);
    assert RunOps(Apply(s, a), [b, c]) == RunOps(Apply(Apply(s, a), b), [c]);
  }

  /** Sealing a packet's data for a peer and opening it there, between tables that have the same value for each other,
    gives the data back: in the buffer, and in the text that is sent. Nothing else of the packet changes. */
  lemma E2ERoundTrip(a: Aead, keysA: Keys, keysB: Keys, from: string, to: string, nonce: Bytes, s: PktState)
    requires Ideal(a) && |nonce| == 12 && to in keysA && from in keysB && keysA[to].shared == keysB[from].shared
    requires LegalKey(BigEndian(keysA[to].shared))
    ensures var c := EncryptFor(a, keysA, to, nonce, s.buff);
            && c.Ok? && c.value != s.buff
            && var s1 := RunOps(s, [Clear, Write(c.value), Close]);
               && s1.buff == c.value && Base64.Decode(s1.committed) == Some(c.value)
               && CanOpen(keysB, from, s1.buff)
               && var p := DecryptFrom(a, keysB, from, s1.buff);
                  && p == Ok(s.buff)
                  && var s2 := RunOps(s1, [Clear, Write(p.value), Close]);
                     && s2.buff == s.buff && Base64.Decode(s2.committed) == Some(s.buff)
                     && s2.meta == s.meta && s2.dest == s.dest
  {
    var key := BigEndian(keysA[to].shared);
    DecryptOfEncrypt(a, key, nonce, s.buff);
    var c := EncryptFor(a, keysA, to, nonce, s.buff).value;
    Replaced(s, c);
    Replaced(RunOps(s, [Clear, Write(c), Close]), s.buff);
  }

  lemma Replaced(s: PktState, data: Bytes)
    ensures var s' := RunOps(s, [Clear, Write(data), Close]);
            && s'.buff == data && Base64.Decode(s'.committed) == Some(data) && s'.meta == s.meta && s'.dest == s.dest
  {
    RunThree(s, Clear, Write(data), Close);
    assert [] + data == data;
    Base64.RoundTrip(data);
  }
}
