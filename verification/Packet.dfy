/** What a packet holds and what each packet operation does to it, as values. */
module PacketState {
  import opened Bytes
  import Base64
  import Json

  const KEY_STATUS := "_stat"
  const KEY_MSG := "_msg"
  const KEY_REF := "_ref"
  const KEY_TARGET := "_tgt"

  type Meta = map<string, string>

  /** A missing key reads as the empty string. */
  function Get(m: Meta, k: string): string {
    if k in m then m[k] else ""
  }

  /** `buff` is what has been written, `committed` the data text that marshalling sends; the two are out of
    step until the packet is closed. */
  datatype PktState = PktState(meta: Meta, buff: Bytes, committed: string, dest: string)

  const FRESH := PktState(map[], [], "", "")

  function Marshal(s: PktState): Bytes {
    Json.Marshal(s.meta, s.committed)
  }

  ghost predicate Closed(s: PktState) {
    s.committed == Base64.Encode(s.buff)
  }

  /** What decoding a text yields: `Reject` for a syntax error, which changes nothing, or the metadata entries to
    merge and the data text, if the frame has one; `complete` is false when some member had the wrong type,
    which is reported only after the other members have been stored. */
  datatype Decoded = Reject | Accept(m: Meta, d: Option<string>, complete: bool)

  /** Frames as the printer lays them out are decoded here; `other` is the answer for any other text. */
  function Decoding(bin: Bytes, other: Decoded): Decoded {
    match Json.Unmarshal(bin)
    case None => other
    case Some(f) => Accept(f.0, Some(f.1), true)
  }

  /** The data text a decode leaves behind: absent from the frame, it stays what it was. */
  function TextAfter(s: PktState, o: Decoded): string {
    if o.Accept? && o.d.Some? then o.d.value else s.committed
  }

  predicate DecodeSucceeds(s: PktState, o: Decoded) {
    o.Accept? && o.complete && Base64.Decode(TextAfter(s, o)).Some?
  }

  function AfterDecode(s: PktState, o: Decoded): PktState {
    match o
    case Reject => s
    case Accept(m, d, complete) =>
      var s' := s.(meta := s.meta + m, committed := TextAfter(s, o));
      if DecodeSucceeds(s, o) then s'.(buff := Base64.Decode(s'.committed).value) else s'
  }

  /** What the pool hands out: everything reset except the committed data text. */
  function Recycled(s: PktState, ref: string, dest: string): PktState {
    PktState(map[KEY_REF := ref], [], s.committed, dest)
  }

  function ErrorPkt(s: PktState, ref: string, dest: string, msg: string): PktState {
    PktState(map[KEY_REF := ref][KEY_STATUS := "-1"][KEY_MSG := msg], [], s.committed, dest)
  }

  datatype Op =
    | Add(key: string, val: string)
    | Write(data: Bytes)
    | Clear
    | Close
    | SetDest(dest: string)
    | Decode(outcome: Decoded)

  function Apply(s: PktState, op: Op): PktState {
    match op
    case Add(k, v) => s.(meta := s.meta[k := v])
    case Write(b) => s.(buff := s.buff + b)
    case Clear => s.(buff := [])
    case Close => s.(committed := Base64.Encode(s.buff))
    case SetDest(d) => s.(dest := d)
    case Decode(o) => AfterDecode(s, o)
  }

  function RunOps(s: PktState, ops: seq<Op>): PktState
    decreases |ops|
  {
    if ops == [] then s else RunOps(Apply(s, ops[0]), ops[1..])
  }

  // ---------- what any sequence of operations leaves ----------

  lemma {:induction false} RunOpsSplit(s: PktState, ops: seq<Op>, n: nat)
    requires n <= |ops|
    ensures RunOps(s, ops) == RunOps(RunOps(s, ops[..n]), ops[n..])
    decreases n
  {
    if n > 0 {
      RunOpsSplit(Apply(s, ops[0]), ops[1..], n - 1);
      assert ops[1..][..n - 1] == ops[..n][1..] && ops[1..][n - 1..] == ops[n..];
    }
  }

  lemma RunOpsNext(s: PktState, ops: seq<Op>, n: nat)
    requires n < |ops|
    ensures RunOps(s, ops[..n + 1]) == Apply(RunOps(s, ops[..n]), ops[n])
  {
    RunOpsSplit(s, ops[..n + 1], n);
    assert ops[..n + 1][..n] == ops[..n] && ops[..n + 1][n..] == [ops[n]];
    assert RunOps(RunOps(s, ops[..n]), [ops[n]]) == RunOps(Apply(RunOps(s, ops[..n]), ops[n]), []);
  }

  /** All that is written, in order. */
  function Writes(ops: seq<Op>): Bytes
    decreases |ops|
  {
    if ops == [] then [] else (if ops[0].Write? then ops[0].data else []) + Writes(ops[1..])
  }

  /** The operation gives the buffer new contents, whatever it held: none, or the data of a frame. */
  predicate Resets(s: PktState, op: Op) {
    op.Clear? || (op.Decode? && DecodeSucceeds(s, op.outcome))
  }

  predicate NeverResets(s: PktState, ops: seq<Op>)
    decreases |ops|
  {
    ops == [] || (!Resets(s, ops[0]) && NeverResets(Apply(s, ops[0]), ops[1..]))
  }

  lemma {:induction false} OnlyWrites(s: PktState, ops: seq<Op>)
    requires NeverResets(s, ops)
    ensures RunOps(s, ops).buff == s.buff + Writes(ops)
    decreases |ops|
  {
    if ops != [] {
      OnlyWrites(Apply(s, ops[0]), ops[1..]);
    }
  }

  /** What a packet's buffer holds after any operations: all that was written since step `n`, where it was last reset,
    in order, after what it was reset to: nothing if it was cleared, the data of the frame if one was decoded. */
  lemma BufferIs(s: PktState, ops: seq<Op>, n: nat)
    requires n <= |ops| && NeverResets(RunOps(s, ops[..n]), ops[n..])
    requires n > 0 ==> Resets(RunOps(s, ops[..n - 1]), ops[n - 1])
    ensures RunOps(s, ops).buff ==
            (if n == 0 then s.buff
             else if ops[n - 1].Clear? then []
             else Base64.Decode(TextAfter(RunOps(s, ops[..n - 1]), ops[n - 1].outcome)).value) + Writes(ops[n..])
  {
    RunOpsSplit(s, ops, n);
    OnlyWrites(RunOps(s, ops[..n]), ops[n..]);
    if n > 0 {
      RunOpsNext(s, ops, n - 1);
    }
  }

  /** An operation that replaces the committed text. */
  predicate Commits(op: Op) {
    op.Close? || (op.Decode? && op.outcome.Accept? && op.outcome.d.Some?)
  }

  lemma {:induction false} TextStays(s: PktState, ops: seq<Op>)
    requires forall op :: op in ops ==> !Commits(op)
    ensures RunOps(s, ops).committed == s.committed
    decreases |ops|
  {
    if ops != [] {
      assert !Commits(ops[0]);
      TextStays(Apply(s, ops[0]), ops[1..]);
    }
  }

  /** What a packet sends after any operations: the text that was committed last. When it was closed, that text
    decodes to what the buffer held then; when a frame with data was decoded, it is the text of the frame. */
  lemma TextIs(s: PktState, ops: seq<Op>, n: nat)
    requires n <= |ops| && (forall op :: op in ops[n..] ==> !Commits(op)) && (n > 0 ==> Commits(ops[n - 1]))
    ensures var text := RunOps(s, ops).committed;
            if n == 0 then text == s.committed
            else if ops[n - 1].Close? then Base64.Decode(text) == Some(RunOps(s, ops[..n - 1]).buff)
            else text == ops[n - 1].outcome.d.value
  {
    RunOpsSplit(s, ops, n);
    TextStays(RunOps(s, ops[..n]), ops[n..]);
    if n > 0 {
      RunOpsNext(s, ops, n - 1);
      Base64.RoundTrip(RunOps(s, ops[..n - 1]).buff);
    }
  }

  /** The operation sets the metadata entry. */
  predicate Sets(op: Op, k: string) {
    (op.Add? && op.key == k) || (op.Decode? && op.outcome.Accept? && k in op.outcome.m)
  }

  lemma {:induction false} EntryStays(s: PktState, ops: seq<Op>, k: string)
    requires forall op :: op in ops ==> !Sets(op, k)
    ensures var m := RunOps(s, ops).meta; (k in m <==> k in s.meta) && (k in m ==> m[k] == s.meta[k])
    decreases |ops|
  {
    if ops != [] {
      assert !Sets(ops[0], k);
      EntryStays(Apply(s, ops[0]), ops[1..], k);
    }
  }

  /** A packet's metadata entry after any operations: the value that was set last, by an addition or a frame. */
  lemma MetaIs(s: PktState, ops: seq<Op>, n: nat, k: string)
    requires n <= |ops| && (forall op :: op in ops[n..] ==> !Sets(op, k)) && (n > 0 ==> Sets(ops[n - 1], k))
    ensures var m := RunOps(s, ops).meta;
            if n == 0 then (k in m <==> k in s.meta) && (k in m ==> m[k] == s.meta[k])
            else k in m && m[k] == if ops[n - 1].Add? then ops[n - 1].val else ops[n - 1].outcome.m[k]
  {
    RunOpsSplit(s, ops, n);
    EntryStays(RunOps(s, ops[..n]), ops[n..], k);
    if n > 0 {
      RunOpsNext(s, ops, n - 1);
    }
  }

  lemma {:induction false} DestStays(s: PktState, ops: seq<Op>)
    requires forall op :: op in ops ==> !op.SetDest?
    ensures RunOps(s, ops).dest == s.dest
    decreases |ops|
  {
    if ops != [] {
      assert ops[0] in ops;
      DestStays(Apply(s, ops[0]), ops[1..]);
    }
  }

  /** A packet's destination after any operations: the one that was set last. */
  lemma DestIs(s: PktState, ops: seq<Op>, n: nat)
    requires n <= |ops| && (forall op :: op in ops[n..] ==> !op.SetDest?) && (n > 0 ==> ops[n - 1].SetDest?)
    ensures RunOps(s, ops).dest == if n == 0 then s.dest else ops[n - 1].dest
  {
    RunOpsSplit(s, ops, n);
    DestStays(RunOps(s, ops[..n]), ops[n..]);
    if n > 0 {
      RunOpsNext(s, ops, n - 1);
    }
  }

  // ---------- a recycled packet against a fresh one ----------

  /** An operation that reads the committed text: decoding a frame without a data member. */
  predicate ReadsCommitted(op: Op) {
    op.Decode? && op.outcome.Accept? && op.outcome.d.None? && op.outcome.complete
  }

  predicate EverCommits(ops: seq<Op>) {
    exists i :: 0 <= i < |ops| && Commits(ops[i])
  }

  /** Nothing reads the committed text before something in `ops` has replaced it. */
  predicate CommitsFirst(ops: seq<Op>)
    decreases |ops|
  {
    ops == [] || Commits(ops[0]) || (!ReadsCommitted(ops[0]) && CommitsFirst(ops[1..]))
  }

  predicate SameButCommitted(p: PktState, q: PktState) {
    p.meta == q.meta && p.buff == q.buff && p.dest == q.dest
  }

  lemma EverCommitsCons(ops: seq<Op>)
    requires ops != []
    ensures EverCommits(ops) <==> Commits(ops[0]) || EverCommits(ops[1..])
  {
    if i :| 0 <= i < |ops| && Commits(ops[i]) {
      assert i > 0 ==> Commits(ops[1..][i - 1]);
    }
    if i :| 0 <= i < |ops[1..]| && Commits(ops[1..][i]) {
      assert Commits(ops[i + 1]);
    }
  }

  lemma OneOpAgrees(p: PktState, q: PktState, op: Op)
    requires SameButCommitted(p, q)
    ensures Commits(op) ==> Apply(p, op) == Apply(q, op)
    ensures !Commits(op) && !ReadsCommitted(op) ==>
              && SameButCommitted(Apply(p, op), Apply(q, op))
              && Apply(p, op).committed == p.committed && Apply(q, op).committed == q.committed
  {
  }

  lemma {:induction false} RunsAgree(p: PktState, q: PktState, ops: seq<Op>)
    requires SameButCommitted(p, q)
    requires CommitsFirst(ops)
    ensures SameButCommitted(RunOps(p, ops), RunOps(q, ops))
    ensures if EverCommits(ops) then RunOps(p, ops).committed == RunOps(q, ops).committed
            else RunOps(p, ops).committed == p.committed && RunOps(q, ops).committed == q.committed
    decreases |ops|
  {
    if ops != [] {
      EverCommitsCons(ops);
      OneOpAgrees(p, q, ops[0]);
      if !Commits(ops[0]) {
        RunsAgree(Apply(p, ops[0]), Apply(q, ops[0]), ops[1..]);
      }
    }
  }

  /** Pool transparency. Whatever happened to a packet before (`p` is any state at all), once it has been handed
    out again it behaves like a fresh one under every further use that does not decode a data-less frame first:
    same metadata, same written bytes, same destination; and it marshals like the fresh one if and only if
    something commits, or the text left over from its past is empty. */
  lemma PoolTransparency(p: PktState, ref: string, dest: string, ops: seq<Op>)
    requires CommitsFirst(ops)
    ensures var used, anew := RunOps(Recycled(p, ref, dest), ops), RunOps(Recycled(FRESH, ref, dest), ops);
            && SameButCommitted(used, anew)
            && (Marshal(used) == Marshal(anew) <==> EverCommits(ops) || p.committed == "")
  {
    var used, anew := Recycled(p, ref, dest), Recycled(FRESH, ref, dest);
    RunsAgree(used, anew, ops);
    var used', anew' := RunOps(used, ops), RunOps(anew, ops);
    if Marshal(used') == Marshal(anew') {
      Json.Injective(used'.meta, used'.committed, anew'.meta, anew'.committed);
    }
  }

  /** The side condition is needed: a frame without a data member, decoded by a recycled packet, yields the data
    of the packet's previous life. */
  lemma DatalessFrameReadsPast(p: PktState, past: Bytes)
    requires p.committed == Base64.Encode(past)
    ensures RunOps(Recycled(p, "", ""), [Decode(Accept(map[], None, true))]).buff == past
    ensures RunOps(Recycled(FRESH, "", ""), [Decode(Accept(map[], None, true))]).buff == []
  {
    Base64.RoundTrip(past);
    var ops := [Decode(Accept(map[], None, true))];
    assert RunOps(Recycled(p, "", ""), ops) == RunOps(Apply(Recycled(p, "", ""), ops[0]), []);
    assert RunOps(Recycled(FRESH, "", ""), ops) == RunOps(Apply(Recycled(FRESH, "", ""), ops[0]), []);
    assert Base64.DecodeQuads("") == Some([]);
  }

  /** What any frame, sent with metadata `m` and data text `d`, becomes in a recycled packet. */
  lemma Reception(m: Meta, d: string, receiver: PktState, other: Decoded)
    ensures var start, o := Recycled(receiver, "", ""), Decoding(Json.Marshal(m, d), other);
            && (DecodeSucceeds(start, o) <==> Base64.Decode(d).Some?)
            && (DecodeSucceeds(start, o) ==> AfterDecode(start, o).buff == Base64.Decode(d).value)
            && AfterDecode(start, o).meta == map["_ref" := ""] + m
            && (AfterDecode(start, o).meta == m <==> "_ref" in m)
            && AfterDecode(start, o).committed == d && AfterDecode(start, o).dest == ""
  {
    Json.RoundTrip(m, d);
    if KEY_REF in m {
      assert map[KEY_REF := ""] + m == m;
    } else {
      assert KEY_REF in map[KEY_REF := ""] + m;
    }
  }

  /** An error packet is never closed: its metadata always arrives, it marshals like a fresh error packet exactly
    when no text is left over, and its receiver can decode it exactly when the left-over text is base64. */
  lemma ErrorPktOnWire(p: PktState, ref: string, dest: string, msg: string, receiver: PktState, other: Decoded)
    ensures var e := ErrorPkt(p, ref, dest, msg);
            var o := Decoding(Marshal(e), other);
            && (Marshal(e) == Marshal(ErrorPkt(FRESH, ref, dest, msg)) <==> p.committed == "")
            && AfterDecode(Recycled(receiver, "", ""), o).meta == map["_ref" := ref, "_stat" := "-1", "_msg" := msg]
            && (DecodeSucceeds(Recycled(receiver, "", ""), o) <==> Base64.Decode(p.committed).Some?)
  {
    var e, e' := ErrorPkt(p, ref, dest, msg), ErrorPkt(FRESH, ref, dest, msg);
    if Marshal(e) == Marshal(e') {
      Json.Injective(e.meta, e.committed, e'.meta, e'.committed);
    }
    Reception(e.meta, e.committed, receiver, other);
  }

  /** Wire round trip: a closed packet, unmarshalled into any recycled packet, arrives with the bytes written to it
    and its metadata merged over the empty reference every packet starts with; so the metadata arrives unchanged
    if and only if the packet carries a reference. */
  lemma WireRoundTrip(s: PktState, receiver: PktState, other: Decoded)
    requires Closed(s)
    ensures var start, o := Recycled(receiver, "", ""), Decoding(Marshal(s), other);
            && DecodeSucceeds(start, o)
            && AfterDecode(start, o).buff == s.buff
            && AfterDecode(start, o).meta == map[KEY_REF := ""] + s.meta
            && (AfterDecode(start, o).meta == s.meta <==> KEY_REF in s.meta)
  {
    Base64.RoundTrip(s.buff);
    Reception(s.meta, s.committed, receiver, other);
  }
}

/** The mutable packet: its metadata object, its wire frame, and the pool it is taken from and put back into. */
module Packet {
  import opened Bytes
  import opened PacketState
  import Base64
  import Json

  /** A map on the heap, shared by whoever holds it. */
  class StringMap {
    var entries: Meta

    constructor ()
      ensures entries == map[]
    {
      entries := map[];
    }
  }

  class KVMeta {
    var meta: StringMap

    constructor ()
      ensures fresh(meta) && meta.entries == map[]
    {
      meta := new StringMap();
    }

    method Add(key: string, val: string)
      modifies meta
      ensures meta.entries == old(meta.entries)[key := val]
    {
      meta.entries := meta.entries[key := val];
    }

    method Lookup(key: string) returns (val: string)
      ensures val == Get(meta.entries, key)
    {
      val := if key in meta.entries then meta.entries[key] else "";
    }

    method SetMeta(m: StringMap)
      modifies this
      ensures meta == m
    {
      meta := m;
    }

    method Clear()
      modifies meta
      ensures meta.entries == map[]
    {
      var todo := meta.entries.Keys;
      while todo != {}
        invariant meta.entries.Keys == todo
        decreases |todo|
      {
        var k :| k in todo;
        meta.entries := meta.entries - {k};
        todo := todo - {k};
      }
    }
  }

  /** The object that is encoded to and decoded from the wire. */
  class WireFrame {
    var meta: StringMap
    var data: string

    constructor (m: StringMap)
      ensures meta == m && data == ""
    {
      meta, data := m, "";
    }
  }

  class JSONPkt {
    const wire: WireFrame
    const kv: KVMeta
    var buff: Bytes
    var dest: string

    /** The map seen through the metadata accessor and the map that is marshalled are one object. */
    ghost predicate Valid()
      reads wire, kv
    {
      kv.meta == wire.meta
    }

    ghost function View(): PktState
      reads this, wire, wire.meta
    {
      PktState(wire.meta.entries, buff, wire.data, dest)
    }

    ghost function Footprint(): set<object>
      reads wire
    {
      {this, wire, kv, wire.meta}
    }

    constructor ()
      ensures Valid() && View() == FRESH
      ensures fresh(Footprint())
    {
      var m := new StringMap();
      var w := new WireFrame(m);
      var k := new KVMeta();
      k.SetMeta(w.meta);
      wire, kv := w, k;
      buff, dest := [], "";
    }

    method SetDestination(d: string)
      modifies `dest
      ensures dest == d && View() == Apply(old(View()), SetDest(d))
    {
      dest := d;
    }

    method AddMeta(key: string, val: string)
      requires Valid()
      modifies wire.meta
      ensures Valid() && kv.meta.entries == old(kv.meta.entries)[key := val]
      ensures View() == Apply(old(View()), Add(key, val))
    {
      kv.Add(key, val);
    }

    method MarkError(msg: string)
      requires Valid()
      modifies wire.meta
      ensures Valid() && kv.meta.entries == old(kv.meta.entries)["_stat" := "-1"]["_msg" := msg]
      ensures View() == Apply(Apply(old(View()), Add(KEY_STATUS, "-1")), Add(KEY_MSG, msg))
    {
      AddMeta(KEY_STATUS, "-1");
      AddMeta(KEY_MSG, msg);
    }

    method Data() returns (b: Bytes)
      ensures b == buff
    {
      b := buff;
    }

    /** What a decoder reads from the bytes is the map seen through the accessor, which is the one marshalled, and the
      committed text, whatever has been written since. */
    method MarshalTo() returns (bin: Bytes)
      requires Valid()
      ensures bin == Marshal(View())
      ensures Json.Unmarshal(bin) == Some((kv.meta.entries, View().committed))
    {
      bin := Json.Marshal(wire.meta.entries, wire.data);
      Json.RoundTrip(wire.meta.entries, wire.data);
    }

    /** Decoding merges into the map the frame already has, so the sharing survives, also when the frame has a
      member of the wrong type or its data text is not base64. */
    method Unmarshal(bin: Bytes, other: Decoded) returns (ok: bool)
      requires Valid()
      modifies this, wire, kv, wire.meta
      ensures Valid() && wire.meta == old(wire.meta)
      ensures View() == Apply(old(View()), Decode(Decoding(bin, other)))
      ensures ok == DecodeSucceeds(old(View()), Decoding(bin, other))
      ensures dest == old(dest)
      ensures match Decoding(bin, other)
              case Reject => !ok && View() == old(View())
              case Accept(m, d, complete) =>
                && wire.meta.entries == old(wire.meta.entries) + m
                && wire.data == (if d.Some? then d.value else old(wire.data))
                && (ok <==> complete && Base64.Decode(wire.data).Some?)
                && buff == if ok then Base64.Decode(wire.data).value else old(buff)
    {
      var o := Decoding(bin, other);
      if o.Reject? {
        return false;
      }
      wire.meta.entries := wire.meta.entries + o.m;
      if o.d.Some? {
        wire.data := o.d.value;
      }
      if !o.complete {
        return false;
      }
      kv.SetMeta(wire.meta);
      var decoded := Base64.Decode(wire.data);
      if decoded.None? {
        return false;
      }
      buff := decoded.value;
      ok := true;
    }

    method ClearBuffer()
      modifies `buff
      ensures buff == [] && View() == Apply(old(View()), Clear)
    {
      buff := [];
    }

    method WriteBytes(data: Bytes)
      modifies `buff
      ensures buff == old(buff) + data && View() == Apply(old(View()), Write(data))
    {
      buff := buff + data;
    }

    method Commit()
      modifies wire
      ensures wire.meta == old(wire.meta)
      ensures Base64.Decode(wire.data) == Some(buff) && View() == Apply(old(View()), Close)
    {
      Base64.RoundTrip(buff);
      wire.data := Base64.Encode(buff);
    }
  }

  /** Packets that share no part of their state. */
  ghost predicate Separate(p: JSONPkt, q: JSONPkt)
    reads p.wire, q.wire
  {
    p.wire != q.wire && p.kv != q.kv && p.wire.meta != q.wire.meta
  }

  class JSONPktCreator {
    var pool: set<JSONPkt>

    ghost function Wires(): set<WireFrame>
      reads this
    {
      set p | p in pool :: p.wire
    }

    ghost function Kvs(): set<KVMeta>
      reads this
    {
      set p | p in pool :: p.kv
    }

    ghost function Metas(): set<StringMap>
      reads this, Wires()
    {
      set p | p in pool :: p.wire.meta
    }

    ghost predicate Valid()
      reads this, Wires(), Kvs()
    {
      && (forall p :: p in pool ==> p.Valid())
      && (forall p, q :: p in pool && q in pool && p != q ==> Separate(p, q))
    }

    constructor (numPkts: nat)
      ensures Valid() && |pool| == numPkts && fresh(pool)
      ensures forall p :: p in pool ==> p.View() == FRESH
    {
      pool := {};
      new;
      Warmup(numPkts);
    }

    method Grow()
      requires Valid()
      modifies this
      ensures Valid() && old(pool) <= pool && |pool| == |old(pool)| + 1
      ensures fresh(pool - old(pool))
      ensures forall p :: p in pool - old(pool) ==> p.View() == FRESH
    {
      var p := new JSONPkt();
      pool := pool + {p};
    }

    method Warmup(numPkts: nat)
      requires Valid()
      modifies this
      ensures Valid() && old(pool) <= pool && |pool| == |old(pool)| + numPkts
      ensures fresh(pool - old(pool))
      ensures forall p :: p in pool - old(pool) ==> p.View() == FRESH
    {
      for i := 0 to numPkts
        invariant Valid() && old(pool) <= pool && |pool| == |old(pool)| + i
        invariant fresh(pool - old(pool))
        invariant forall p :: p in pool - old(pool) ==> p.View() == FRESH
      {
        Grow();
      }
    }

    method PutBack(p: JSONPkt)
      requires Valid() && p.Valid() && p !in pool
      requires forall q :: q in pool ==> Separate(p, q)
      modifies this
      ensures Valid() && pool == old(pool) + {p}
    {
      pool := pool + {p};
    }

    /** A pooled packet, or a new one: the pool may always allocate instead. */
    method Take() returns (p: JSONPkt)
      requires Valid()
      modifies this
      ensures Valid() && p.Valid() && p !in pool
      ensures forall q :: q in pool ==> Separate(p, q)
      ensures (p in old(pool) && pool == old(pool) - {p})
           || (fresh(p.Footprint()) && pool == old(pool) && p.View() == FRESH)
      ensures p in old(pool) ==> p.View() == old(p.View())
    {
      if * {
        p := new JSONPkt();
      } else if pool == {} {
        p := new JSONPkt();
      } else {
        p :| p in pool;
        pool := pool - {p};
      }
    }

    method NewPkt(ref: string, dest: string) returns (p: JSONPkt)
      requires Valid()
      modifies this, pool, Metas()
      ensures Valid() && p.Valid() && p !in pool
      ensures forall q :: q in pool ==> q in old(pool) && Separate(p, q) && q.View() == old(q.View())
      ensures if p in old(pool) then pool == old(pool) - {p} && p.View() == Recycled(old(p.View()), ref, dest)
              else fresh(p.Footprint()) && pool == old(pool) && p.View() == Recycled(FRESH, ref, dest)
      ensures p.kv.meta.entries == map["_ref" := ref] && p.buff == [] && p.dest == dest
    {
      p := Take();
      p.kv.Clear();
      p.ClearBuffer();
      p.SetDestination(dest);
      p.AddMeta(KEY_REF, ref);
    }

    method NewErrPkt(ref: string, dest: string, msg: string) returns (p: JSONPkt)
      requires Valid()
      modifies this, pool, Metas()
      ensures Valid() && p.Valid() && p !in pool
      ensures forall q :: q in pool ==> q in old(pool) && Separate(p, q) && q.View() == old(q.View())
      ensures if p in old(pool) then pool == old(pool) - {p} && p.View() == ErrorPkt(old(p.View()), ref, dest, msg)
              else fresh(p.Footprint()) && pool == old(pool) && p.View() == ErrorPkt(FRESH, ref, dest, msg)
      ensures p.kv.meta.entries == map["_ref" := ref, "_stat" := "-1", "_msg" := msg] && p.buff == [] && p.dest == dest
    {
      p := NewPkt(ref, dest);
      p.MarkError(msg);
    }
  }
}
