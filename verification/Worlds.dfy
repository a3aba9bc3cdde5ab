/** Worlds that meet all the laws, so that the guarantees are about something. */
module Worlds {
  import opened Bytes
  import opened Cipher
  import opened Curve
  import opened Protocol
  import opened Guarantees

  function Pow16(n: nat): nat {
    if n == 0 then 1 else 16 * Pow16(n - 1)
  }

  lemma {:induction false} PowSquare(n: nat)
    ensures Pow16(n) * Pow16(n) == Pow256(n)
  {
    if n > 0 {
      PowSquare(n - 1);
      var p := Pow16(n - 1);
      assert (16 * p) * (16 * p) == 256 * (p * p);
    }
  }

  lemma {:induction false} MulNumbers(k: nat, p: Point)
    ensures Mul(Numbers(), k, p).x == k * p.x
  {
    if k > 0 {
      MulNumbers(k - 1, p);
      assert k * p.x == p.x + (k - 1) * p.x;
    }
  }

  /** The bytes of a small number times a power of 256: the number, then zeros. */
  lemma {:induction false} BigEndianShift(m: nat, n: nat)
    requires 0 < m < 256
    ensures var b := BigEndian(m * Pow256(n)); |b| == n + 1 && b[0] == m && forall i :: 1 <= i <= n ==> b[i] == 0
  {
    if n == 0 {
      assert BigEndian(0) == [];
    } else {
      BigEndianShift(m, n - 1);
      var p := Pow256(n - 1);
      assert m * (256 * p) == 256 * (m * p);
      assert (256 * (m * p)) / 256 == m * p && (256 * (m * p)) % 256 == 0;
    }
  }

  /** Even and odd lives of clients and of the server differ. */
  function Weight(server: string, p: Party): (n: nat)
    ensures n == 1 || n == 2 || n == 3 || n == 12
  {
    if p.addr == server then (if p.life % 2 == 0 then 3 else 12) else (if p.life % 2 == 0 then 1 else 2)
  }

  /** What a JSON decoder makes of bytes in another layout. */
  datatype Other = Other(key: Bytes -> KeyReading, addr: Bytes -> Option<string>)

  ghost function Weighted(server: string, other: Other, n: nat): World {
    World(Numbers(), Tagging(), server, (p: Party) => Weight(server, p) * Pow16(n), other.key, other.addr)
  }

  lemma Rearrange(a: nat, b: nat, x: nat)
    ensures (a * x) * (b * x) == (a * b) * (x * x)
  {
    assert (a * x) * (b * x) == a * (x * (b * x)) == a * (b * (x * x)) == (a * b) * (x * x);
  }

  lemma WeightedShares(server: string, other: Other, n: nat, p: Party, q: Party)
    ensures var w := Weighted(server, other, n);
            SharedWith(w, p, Pub(w, q)) == (Weight(server, p) * Weight(server, q)) * Pow256(n)
  {
    var w := Weighted(server, other, n);
    MulNumbers(w.scalar(q), Numbers().base);
    MulNumbers(w.scalar(p), Pub(w, q));
    PowSquare(n);
    Rearrange(Weight(server, p), Weight(server, q), Pow16(n));
  }

  lemma Product(a: nat, b: nat)
    requires (a == 1 || a == 2 || a == 3 || a == 12) && (b == 1 || b == 2 || b == 3 || b == 12)
    ensures 0 < a * b < 256
  {
  }

  /** The first byte of a key is the product of the weights; the other bytes are zero. */
  lemma WeightedKey(server: string, other: Other, n: nat, p: Party, q: Party)
    ensures var k := KeyOf(Weighted(server, other, n), p, q);
            && |k| == n + 1 && (n == 31 ==> Round(k) && LegalKey(k))
            && k[0] == Weight(server, p) * Weight(server, q)
  {
    WeightedShares(server, other, n, p, q);
    Product(Weight(server, p), Weight(server, q));
    BigEndianShift(Weight(server, p) * Weight(server, q), n);
  }

  lemma WeightedApart(server: string, other: Other, n: nat, k: Bytes, p: Party, life: nat)
    requires n == 31 || n == 1
    ensures Apart(Weighted(server, other, n), k, p, life)
  {
    var k' := KeyOf(Weighted(server, other, n), p, Party(server, life));
    WeightedKey(server, other, n, p, Party(server, life));
    if LegalKey(k) && k != k' {
      TaggingSeparates(k, k');
    }
  }

  lemma WeightedSound(server: string, other: Other, n: nat)
    requires n == 31 || n == 1
    ensures Sound(Weighted(server, other, n))
  {
    NumbersAreLawful();
    TaggingIsIdeal();
    forall k, p, life
      ensures Apart(Weighted(server, other, n), k, p, life)
    {
      WeightedApart(server, other, n, k, p, life);
    }
  }

  lemma WeightedTellsApart(server: string, other: Other, n: nat, p: Party, q: Party, life: nat)
    requires n == 31
    ensures TellsApart(Weighted(server, other, n), p, q, life)
  {
    WeightedKey(server, other, n, p, q);
    WeightedKey(server, other, n, p, Party(server, life));
  }

  lemma WeightedLives(server: string, other: Other, n: nat, x: string, i: nat, i': nat, j: nat, j': nat)
    requires n == 31 && x != server && i < 2 && i' < 2 && j < 2 && j' < 2
    ensures DifferentLives(Weighted(server, other, n), x, i, i', j, j')
  {
    var p, p', q, q' := Party(x, i), Party(x, i'), Party(server, j), Party(server, j');
    WeightedKey(server, other, n, p, q);
    WeightedKey(server, other, n, p', q');
    Products(Weight(server, p), Weight(server, p'), Weight(server, q), Weight(server, q'));
  }

  lemma Products(a: nat, a': nat, b: nat, b': nat)
    requires (a == 1 || a == 2) && (a' == 1 || a' == 2) && (b == 3 || b == 12) && (b' == 3 || b' == 12)
    ensures a * b == a' * b' ==> a == a' && b == b'
  {
  }

  /** A sound world, whatever a JSON decoder makes of other layouts, in which every two parties share a value of an AES
    length, the first two lives of every client and of the server share different values, and no client shares the same
    value with the server and with another client. */
  lemma SomeWorld(server: string, other: Other) returns (w: World)
    ensures Sound(w) && w.server == server && w.otherKey == other.key && w.otherAddr == other.addr && Sharp(w, 2)
    ensures forall p, q :: LegalKey(KeyOf(w, p, q))
    ensures forall p, q, life :: TellsApart(w, p, q, life)
  {
    var n := 31;
    w := Weighted(server, other, n);
    WeightedSound(server, other, n);
    forall p, q
      ensures LegalKey(KeyOf(w, p, q))
    {
      WeightedKey(server, other, n, p, q);
    }
    forall p, q, life
      ensures TellsApart(w, p, q, life)
    {
      WeightedTellsApart(server, other, n, p, q, life);
    }
    forall x, i, i', j, j' | x != server && 0 <= i < 2 && 0 <= i' < 2 && 0 <= j < 2 && 0 <= j' < 2
      ensures DifferentLives(w, x, i, i', j, j')
    {
      WeightedLives(server, other, n, x, i, i', j, j');
    }
  }

  /** A sound world in which no two parties share a value of an AES length. */
  lemma ShortWorld(server: string, other: Other) returns (w: World)
    ensures Sound(w) && w.server == server && w.otherKey == other.key && w.otherAddr == other.addr
    ensures forall p, q :: !LegalKey(KeyOf(w, p, q))
  {
    var n := 1;
    w := Weighted(server, other, n);
    WeightedSound(server, other, n);
    forall p, q
      ensures !LegalKey(KeyOf(w, p, q))
    {
      WeightedKey(server, other, n, p, q);
    }
  }
}
