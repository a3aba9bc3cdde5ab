/** What every run of the protocol guarantees about keys and about single datagrams. */
module Guarantees {
  import opened Bytes
  import opened Curve
  import opened PacketState
  import opened Relay
  import opened Sealing
  import opened Protocol
  import opened Runs
  import Json

  // ---------- key agreement ----------

  function KeysAt(w: World, s: State, x: string): Keys {
    if x == w.server then s.serverKeys else ClientOf(s, x).keys
  }

  /** Key agreement in every reachable state, whatever was lost, repeated, reordered or restarted: every stored shared
    value is the owner's current scalar times the stored point; two parties that hold each other's current point hold
    the same value, that of the product of their scalars; and the points that the server holds, and that clients hold
    for the server, are points of the right address, from its current life or an earlier one. */
  lemma KeyAgreement(w: World, steps: seq<Step>, x: string, y: string)
    requires Sound(w) && y in KeysAt(w, After(w, steps), x)
    ensures var s := After(w, steps);
            var k := KeysAt(w, s, x)[y];
            && k.shared == Mul(w.group, w.scalar(Now(s, x)), k.public).x
            && (x == w.server || y == w.server ==> exists life ::
                  0 <= life <= Now(s, y).life && k.public == Pub(w, Party(y, life)))
            && (&& x in KeysAt(w, s, y)
                && k.public == Pub(w, Now(s, y)) && KeysAt(w, s, y)[x].public == Pub(w, Now(s, x)) ==>
                  && k.shared == Mul(w.group, w.scalar(Now(s, x)) * w.scalar(Now(s, y)), w.group.base).x
                  && k.shared == KeysAt(w, s, y)[x].shared)
  {
    var s := After(w, steps);
    Agreement(w.group, w.scalar(Now(s, x)), w.scalar(Now(s, y)));
    ReachableOk(w, steps);
    assert ClientOk(w, s, x) && ClientOk(w, s, y);
    SharedSymmetric(w, Now(s, x), Now(s, y));
    if x == w.server || y == w.server {
      var life :| PointOf(w, s.lives, y, life, KeysAt(w, s, x)[y].public);
      assert 0 <= life;
    }
  }

  // ---------- single datagrams ----------

  /** The receiver's stored value for the sender is the one the datagram was sealed under. */
  predicate SameValue(w: World, d: Datagram, keys: Keys, from: string) {
    d.against.Some? && from in keys && keys[from].shared == SharedWith(w, d.from, d.against.value)
  }

  lemma FitsIs(w: World, d: Datagram, keys: Keys, from: string)
    ensures Fits(w, d, keys, from) <==> d.against.None? || SameValue(w, d, keys, from)
  {
    if d.against.Some? && from in keys {
      BigEndianRoundTrip(keys[from].shared);
      BigEndianRoundTrip(SharedWith(w, d.from, d.against.value));
    }
  }

  /** Client to server, in every run: the server never fails to split off a nonce, and it recovers exactly the
    marshalled bytes of a datagram, early or late, if and only if the datagram left unsealed or the value that the
    server now holds for the sender's address is the one it was sealed under; otherwise the bytes pass unchanged and
    nothing can be decoded. */
  lemma ToServer(w: World, steps: seq<Step>, d: Datagram, pooled: PktState)
    requires Sound(w) && d in After(w, steps).net && d.to == w.server
    ensures var s := After(w, steps);
            && CanOpen(s.serverKeys, d.from.addr, d.wire)
            && var bin := DecryptTransport(w.aead, s.serverKeys, d.from.addr, d.wire);
               && (bin == Json.Marshal(d.meta, d.text) <==>
                     d.against.None? || SameValue(w, d, s.serverKeys, d.from.addr))
               && (bin != Json.Marshal(d.meta, d.text) ==> bin == d.wire && Receive(pooled, bin, Reject) == None)
  {
    ReachableOk(w, steps);
    ServerRecovers(w, After(w, steps), d, pooled);
    FitsIs(w, d, After(w, steps).serverKeys, d.from.addr);
  }

  /** Server to client, in every run: the same with the keys that the client's installed transforms use. */
  lemma ToClient(w: World, steps: seq<Step>, d: Datagram, pooled: PktState)
    requires Sound(w) && d in After(w, steps).net && d.to != w.server
    ensures var cl := ClientOf(After(w, steps), d.to);
            && CanOpen(InUse(cl), w.server, d.wire)
            && var bin := ClientOpen(w, cl, d.wire);
               && (bin == Json.Marshal(d.meta, d.text) <==>
                     d.against.None? || (cl.extended && SameValue(w, d, cl.keys, w.server)))
               && (bin != Json.Marshal(d.meta, d.text) ==> bin == d.wire && Receive(pooled, bin, Reject) == None)
  {
    ReachableOk(w, steps);
    ClientRecovers(w, After(w, steps), d, pooled);
    FitsIs(w, d, InUse(ClientOf(After(w, steps), d.to)), w.server);
  }

  // ---------- in terms of destinations ----------

  /** The value a client shares with another client is none that it shares with the server. */
  predicate TellsApart(w: World, p: Party, q: Party, life: nat) {
    p.addr != w.server && q.addr != w.server ==> KeyOf(w, p, q) != KeyOf(w, p, Party(w.server, life))
  }

  /** The destination that an application sets on a packet decides: a packet that was sealed against a point `q` of its
    destination is recovered by a server that has the sender's point exactly if the destination is the server. */
  lemma ToServerByDestination(w: World, steps: seq<Step>, d: Datagram, q: Party)
    requires Sound(w) && d in After(w, steps).net && d.to == w.server && d.from.addr != w.server
    requires d.against == Some(Pub(w, q)) && q.addr == d.dest
    requires var s := After(w, steps);
             && d.from.addr in s.serverKeys && s.serverKeys[d.from.addr].public == Pub(w, d.from)
             && (d.dest == w.server ==> q == Now(s, w.server)) && TellsApart(w, d.from, q, Now(s, w.server).life)
    ensures var s := After(w, steps);
            && CanOpen(s.serverKeys, d.from.addr, d.wire)
            && (DecryptTransport(w.aead, s.serverKeys, d.from.addr, d.wire) == Json.Marshal(d.meta, d.text) <==>
                  d.dest == w.server)
  {
    var s := After(w, steps);
    ReachableOk(w, steps);
    ServerRecovers(w, s, d, FRESH);
    SharedSymmetric(w, d.from, Now(s, w.server));
    assert EntryOk(w, s.lives, d.from.addr, s.serverKeys[d.from.addr]);
  }

  // ---------- in terms of points ----------

  /** The first `n` lives of each client and of the server share different values. */
  ghost predicate Sharp(w: World, n: nat) {
    forall x, i, i', j, j' :: x != w.server && 0 <= i < n && 0 <= i' < n && 0 <= j < n && 0 <= j' < n ==>
      DifferentLives(w, x, i, i', j, j')
  }

  predicate DifferentLives(w: World, x: string, i: nat, i': nat, j: nat, j': nat) {
    KeyOf(w, Party(x, i), Party(w.server, j)) == KeyOf(w, Party(x, i'), Party(w.server, j')) ==> i == i' && j == j'
  }

  predicate Below(s: State, x: string, n: nat) {
    Now(s, x).life < n
  }

  /** Two pairs of lives share a value exactly if they are the same, and so exactly if their points are. */
  lemma SharpPoints(w: World, n: nat, x: string, i: nat, i': nat, j: nat, j': nat)
    requires Sound(w) && Sharp(w, n) && x != w.server && i < n && i' < n && j < n && j' < n
    ensures var p, p', q, q' := Party(x, i), Party(x, i'), Party(w.server, j), Party(w.server, j');
            var same := Pub(w, p) == Pub(w, p') && Pub(w, q) == Pub(w, q');
            && (SharedWith(w, p, Pub(w, q)) == SharedWith(w, q', Pub(w, p')) <==> same)
            && (SharedWith(w, q, Pub(w, p)) == SharedWith(w, p', Pub(w, q')) <==> same)
  {
    var p, p', q, q' := Party(x, i), Party(x, i'), Party(w.server, j), Party(w.server, j');
    assert DifferentLives(w, x, i, i', j, j');
    assert DifferentLives(w, x, i, i', j, j);
    assert DifferentLives(w, x, i, i, j, j');
    SharedSymmetric(w, p, q);
    SharedSymmetric(w, p', q');
    SharedSymmetric(w, p', q);
    SharedSymmetric(w, p, q');
  }

  /** If different lives share different values, a sealed datagram for the server is recovered exactly when the server's
    point for the sender's address is the point of the life that sealed it, and the point it was sealed against is the
    server's. */
  lemma ToServerExactly(w: World, steps: seq<Step>, d: Datagram, n: nat)
    requires Sound(w) && Sharp(w, n) && Below(After(w, steps), d.from.addr, n) && Below(After(w, steps), w.server, n)
    requires d in After(w, steps).net && d.to == w.server && d.dest == w.server && d.from.addr != w.server
    requires d.against.Some?
    ensures var s := After(w, steps);
            && CanOpen(s.serverKeys, d.from.addr, d.wire)
            && (DecryptTransport(w.aead, s.serverKeys, d.from.addr, d.wire) == Json.Marshal(d.meta, d.text) <==>
                  && d.from.addr in s.serverKeys && s.serverKeys[d.from.addr].public == Pub(w, d.from)
                  && d.against.value == Pub(w, Now(s, w.server)))
  {
    var s, x := After(w, steps), d.from.addr;
    ToServer(w, steps, d, FRESH);
    ReachableOk(w, steps);
    assert DatagramOk(w, s, d);
    var j :| PointOf(w, s.lives, w.server, j, d.against.value);
    if x in s.serverKeys {
      assert EntryOk(w, s.lives, x, s.serverKeys[x]);
      var i :| PointOf(w, s.lives, x, i, s.serverKeys[x].public);
      SharpPoints(w, n, x, d.from.life, i, j, Now(s, w.server).life);
    }
  }

  /** The same for a sealed datagram to a client: the client's point for the server is that of the life that sealed
    it, and the point it was sealed against is the client's. */
  lemma ToClientExactly(w: World, steps: seq<Step>, d: Datagram, n: nat)
    requires Sound(w) && Sharp(w, n) && Below(After(w, steps), d.to, n) && Below(After(w, steps), w.server, n)
    requires d in After(w, steps).net && d.to != w.server && d.against.Some?
    ensures var s := After(w, steps); var cl := ClientOf(s, d.to);
            && CanOpen(InUse(cl), w.server, d.wire)
            && (ClientOpen(w, cl, d.wire) == Json.Marshal(d.meta, d.text) <==>
                  && cl.extended && w.server in cl.keys && cl.keys[w.server].public == Pub(w, d.from)
                  && d.against.value == Pub(w, Now(s, d.to)))
  {
    var s := After(w, steps);
    var keys := ClientOf(s, d.to).keys;
    ToClient(w, steps, d, FRESH);
    ReachableOk(w, steps);
    assert DatagramOk(w, s, d) && ClientOk(w, s, d.to);
    var i :| PointOf(w, s.lives, d.to, i, d.against.value);
    if w.server in keys {
      var j :| PointOf(w, s.lives, w.server, j, keys[w.server].public);
      SharpPoints(w, n, d.to, i, Now(s, d.to).life, d.from.life, j);
    }
  }
}
