/**
 * Partial reads and writes over a byte channel, and the buffered reader.
 *
 * The other end of the channel is another coroutine: around every operation it may write, close or read as it
 * likes.  How much one operation transfers is arbitrary as well, and it may throw (a time out, an error).
 */
module Streams {
  import opened Basics
  import opened Lines

  type Deadline = Option<int>

  /** One read_some or write_some: what it was given, and how much it moved; None when it threw. */
  datatype Op =
    | Read(room: nat, deadline: Deadline, got: Option<nat>)
    | Write(offered: seq<Byte>, deadline: Deadline, got: Option<nat>)

  class Channel {
    var buffered: seq<Byte>
    var closed: bool
    ghost var sent: seq<Byte>
    ghost var received: seq<Byte>
    ghost var ops: seq<Op>                    // every read_some and write_some issued here
    const faultless: bool                     // no operation here fails or times out while it could go on

    ghost predicate Valid()
      reads this
    {
      sent == received + buffered
    }

    constructor (faultless: bool)
      ensures Valid() && sent == [] && received == [] && ops == [] && !closed && this.faultless == faultless
    {
      this.faultless := faultless;
      buffered, closed := [], false;
      sent, received, ops := [], [], [];
    }

    method PeerWrites()
      requires Valid()
      modifies this`buffered, this`closed, this`sent
      ensures Valid() && old(sent) <= sent
      ensures old(closed) ==> closed && sent == old(sent)
    {
      if !closed {
        var more: seq<Byte>, eof: bool := *, *;
        buffered, sent, closed := buffered + more, sent + more, eof;
      }
    }

    method PeerReads()
      requires Valid()
      modifies this`buffered, this`received
      ensures Valid() && old(received) <= received
    {
      var n: nat :| n <= |buffered|;
      received := received + buffered[..n];
      buffered := buffered[n..];
    }

    /** What the kernel gives a reader right now; None when it throws. */
    method ReadNow(dst: array<Byte>, off: nat, len: nat, deadline: Deadline) returns (r: Option<nat>)
      requires Valid() && off + len <= dst.Length
      modifies this`buffered, this`received, this`ops, dst
      ensures ops == old(ops) + [Read(len, deadline, r)]
      ensures Valid() && Taken(old(received), old(dst[..]), dst, off, len, r)
      ensures old(buffered) == (if r.Some? then dst[off..off + r.value] else []) + buffered
      ensures faultless && r.None? ==> len > 0 && buffered == [] && !closed
    {
      r := None;
      var fails: bool := *;
      if faultless || !fails {
        if len == 0 || (buffered == [] && closed) {
          r := Some(0);
        } else if buffered != [] {
          var n: nat :| 1 <= n <= len && n <= |buffered|;
          forall i | 0 <= i < n {
            dst[off + i] := buffered[i];
          }
          assert dst[off..off + n] == buffered[..n];
          received := received + buffered[..n];
          buffered := buffered[n..];
          r := Some(n);
        }
      }
      ops := ops + [Read(len, deadline, r)];
    }

    /** What the kernel takes from a writer right now; None when it throws. */
    method WriteNow(src: seq<Byte>, deadline: Deadline) returns (r: Option<nat>)
      requires Valid()
      modifies this`buffered, this`sent, this`ops
      ensures Valid() && ops == old(ops) + [Write(src, deadline, r)]
      ensures r.None? ==> sent == old(sent) && buffered == old(buffered)
      ensures r.Some? ==> r.value <= |src|
                          && sent == old(sent) + src[..r.value] && buffered == old(buffered) + src[..r.value]
      ensures faultless ==> r.Some?
    {
      r := None;
      var fails: bool := *;
      if faultless || !fails {
        var n: nat :| n <= |src|;
        sent, buffered := sent + src[..n], buffered + src[..n];
        r := Some(n);
      }
      ops := ops + [Write(src, deadline, r)];
    }

    /** A read moved r bytes into dst[off..off + len], and none only at the end of the stream. */
    ghost predicate Taken(before: seq<Byte>, was: seq<Byte>, dst: array<Byte>, off: nat, len: nat, r: Option<nat>)
      requires off + len <= dst.Length == |was|
      reads this, dst
    {
      match r
      case None => received == before && dst[..] == was
      case Some(n) =>
        && n <= len
        && received == before + dst[off..off + n]
        && dst[..off] == was[..off] && dst[off + n..] == was[off + n..]
        && (n == 0 ==> len == 0 || (closed && buffered == []))
    }

    /** co_await read_some into dst[off..off + len]; None when it throws. */
    method ReadSome(dst: array<Byte>, off: nat, len: nat, deadline: Deadline) returns (r: Option<nat>)
      requires Valid() && off + len <= dst.Length
      modifies this, dst
      ensures Valid() && old(sent) <= sent
      ensures old(closed) ==> closed && sent == old(sent)
      ensures ops == old(ops) + [Read(len, deadline, r)]
      ensures Taken(old(received), old(dst[..]), dst, off, len, r)
      ensures faultless && r.None? ==> len > 0 && buffered == [] && !closed
    {
      PeerWrites();
      r := ReadNow(dst, off, len, deadline);
    }

    /** co_await write_some; None when it throws. */
    method WriteSome(src: seq<Byte>, deadline: Deadline) returns (r: Option<nat>)
      requires Valid()
      modifies this
      ensures Valid() && old(received) <= received && closed == old(closed)
      ensures ops == old(ops) + [Write(src, deadline, r)]
      ensures r.None? ==> sent == old(sent)
      ensures r.Some? ==> r.value <= |src| && sent == old(sent) + src[..r.value]
      ensures faultless ==> r.Some?
    {
      PeerReads();
      r := WriteNow(src, deadline);
    }
  }

  // ----- What the two loops are to do, told from the operations they issue -----

  ghost function Transferred(ops: seq<Op>): nat {
    if ops == [] then 0
    else
      var n := |ops| - 1;
      Transferred(ops[..n]) + match ops[n].got case Some(k) => k case None => 0
  }

  /** After `before`, op offers all that is left of s. */
  ghost predicate WritesRest(s: seq<Byte>, d: Deadline, before: seq<Op>, op: Op) {
    Transferred(before) < |s| && op.Write? && op.offered == s[Transferred(before)..] && op.deadline == d
  }

  /** Each write so far offered all that was left, and took something. */
  ghost predicate Writing(s: seq<Byte>, d: Deadline, ops: seq<Op>) {
    ops == [] ||
    (var n := |ops| - 1;
     Writing(s, d, ops[..n]) && WritesRest(s, d, ops[..n], ops[n]) && ops[n].got.Some? && ops[n].got.value > 0)
  }

  /** write_all goes on until all is written or one write takes nothing or throws. */
  ghost predicate WroteAll(s: seq<Byte>, d: Deadline, ops: seq<Op>, r: Option<nat>) {
    || (Writing(s, d, ops) && Transferred(ops) == |s| && r == Some(|s|))
    || (ops != [] &&
        var n := |ops| - 1;
        Writing(s, d, ops[..n]) && WritesRest(s, d, ops[..n], ops[n]) && EndsWith(ops[n].got, Transferred(ops[..n]), r))
  }

  ghost predicate EndsWith(got: Option<nat>, done: nat, r: Option<nat>) {
    if got.None? then r.None? else got.value == 0 && r == Some(done)
  }

  ghost predicate ReadsRest(size: nat, d: Deadline, before: seq<Op>, op: Op) {
    Transferred(before) < size && op.Read? && op.room == size - Transferred(before) && op.deadline == d
  }

  ghost predicate Reading(size: nat, d: Deadline, ops: seq<Op>) {
    ops == [] ||
    (var n := |ops| - 1;
     Reading(size, d, ops[..n]) && ReadsRest(size, d, ops[..n], ops[n]) && ops[n].got.Some? && ops[n].got.value > 0)
  }

  /** read_exactly goes on until the buffer is full or one read brings nothing or throws. */
  ghost predicate ReadAll(size: nat, d: Deadline, ops: seq<Op>, r: Option<nat>) {
    || (Reading(size, d, ops) && Transferred(ops) == size && r == Some(size))
    || (ops != [] &&
        var n := |ops| - 1;
        Reading(size, d, ops[..n]) && ReadsRest(size, d, ops[..n], ops[n]) && EndsWith(ops[n].got, Transferred(ops[..n]), r))
  }

  lemma OneMoreOp(ops: seq<Op>, op: Op)
    ensures (ops + [op])[..|ops + [op]| - 1] == ops && (ops + [op])[|ops + [op]| - 1] == op
    ensures Transferred(ops + [op]) == Transferred(ops) + if op.got.Some? then op.got.value else 0
  {
    assert (ops + [op])[..|ops|] == ops;
  }

  /** One more write of all that is left: the loop goes on iff it took something. */
  lemma WriteStep(s: seq<Byte>, d: Deadline, ws: seq<Op>, op: Op)
    requires Writing(s, d, ws) && WritesRest(s, d, ws, op)
    ensures op.got.Some? && op.got.value > 0 ==> Writing(s, d, ws + [op])
    ensures op.got == Some(0) ==> WroteAll(s, d, ws + [op], Some(Transferred(ws)))
    ensures op.got == None ==> WroteAll(s, d, ws + [op], None)
    ensures Transferred(ws + [op]) == Transferred(ws) + if op.got.Some? then op.got.value else 0
  {
    OneMoreOp(ws, op);
  }

  lemma ReadStep(size: nat, d: Deadline, rs: seq<Op>, op: Op)
    requires Reading(size, d, rs) && ReadsRest(size, d, rs, op)
    ensures op.got.Some? && op.got.value > 0 ==> Reading(size, d, rs + [op])
    ensures op.got == Some(0) ==> ReadAll(size, d, rs + [op], Some(Transferred(rs)))
    ensures op.got == None ==> ReadAll(size, d, rs + [op], None)
    ensures Transferred(rs + [op]) == Transferred(rs) + if op.got.Some? then op.got.value else 0
  {
    OneMoreOp(rs, op);
  }

  lemma Advanced(base: seq<Byte>, s: seq<Byte>, put: nat, k: nat)
    requires put + k <= |s|
    ensures base + s[..put] + s[put..][..k] == base + s[..put + k]
    ensures s[put..][k..] == s[put + k..]
  {
  }

  lemma OpsRegroup(a: seq<Op>, b: seq<Op>, c: seq<Op>)
    ensures a + b + c == a + (b + c)
  {
  }

  /** One more write of what is left of s after `put` bytes. */
  method WriteRest(ch: Channel, out: seq<Byte>, deadline: Deadline, ghost s: seq<Byte>, ghost put: nat, ghost sent: seq<Byte>)
    returns (bytes: Option<nat>)
    requires ch.Valid() && put <= |s| && out == s[put..] && ch.sent == sent + s[..put]
    modifies ch
    ensures ch.Valid() && old(ch.received) <= ch.received
    ensures bytes.Some? ==> put + bytes.value <= |s| && s[put + bytes.value..] == out[bytes.value..]
    ensures ch.sent == sent + s[..put + if bytes.Some? then bytes.value else 0]
    ensures ch.ops == old(ch.ops) + [Write(out, deadline, bytes)]
    ensures ch.faultless ==> bytes.Some?
  {
    bytes := ch.WriteSome(out, deadline);
    if bytes.Some? {
      Advanced(sent, s, put, bytes.value);
    }
  }

  /** Returns how many bytes of s the channel took; None when a write threw after taking a prefix. */
  method WriteAll(ch: Channel, s: seq<Byte>, deadline: Deadline) returns (r: Option<nat>, ghost ops: seq<Op>)
    requires ch.Valid()
    modifies ch
    ensures ch.Valid() && old(ch.received) <= ch.received
    ensures r.Some? ==> r.value <= |s| && ch.sent == old(ch.sent) + s[..r.value]
    ensures r.None? ==> !ch.faultless && exists k :: 0 <= k < |s| && ch.sent == old(ch.sent) + s[..k]
    ensures ch.ops == old(ch.ops) + ops && WroteAll(s, deadline, ops, r)
  {
    var out := s;
    ops := [];
    ghost var put: nat := 0;
    while out != []
      invariant ch.Valid() && old(ch.received) <= ch.received
      invariant put <= |s| && out == s[put..]
      invariant ch.sent == old(ch.sent) + s[..put]
      invariant ch.ops == old(ch.ops) + ops && Writing(s, deadline, ops) && Transferred(ops) == put
      decreases |out|
    {
      var bytes := WriteRest(ch, out, deadline, s, put, old(ch.sent));
      WriteStep(s, deadline, ops, Write(out, deadline, bytes));
      OpsRegroup(old(ch.ops), ops, [Write(out, deadline, bytes)]);
      ops := ops + [Write(out, deadline, bytes)];
      if bytes.None? {
        return None, ops;
      }
      if bytes.value == 0 {
        return Some(|s| - |out|), ops;
      }
      out := out[bytes.value..];
      put := put + bytes.value;
    }
    r := Some(|s|);
  }

  /** What was received went to the front of b, and the last `size` bytes are as they were. */
  ghost predicate FilledTo(ch: Channel, b: array<Byte>, was: seq<Byte>, received: seq<Byte>, size: nat)
    reads ch, b
  {
    && ch.Valid() && size <= b.Length == |was|
    && ch.received == received + b[..b.Length - size] && b[b.Length - size..] == was[b.Length - size..]
  }

  /** One more read into the last `size` bytes of b. */
  method ReadRest(ch: Channel, b: array<Byte>, size: nat, deadline: Deadline, ghost was: seq<Byte>, ghost received: seq<Byte>)
    returns (bytes: Option<nat>)
    requires 0 < size && FilledTo(ch, b, was, received, size)
    modifies ch, b
    ensures bytes.Some? ==> bytes.value <= size
    ensures FilledTo(ch, b, was, received, size - if bytes.Some? then bytes.value else 0)
    ensures old(ch.sent) <= ch.sent && ch.ops == old(ch.ops) + [Read(size, deadline, bytes)]
    ensures bytes == Some(0) ==> ch.closed && ch.buffered == []
    ensures ch.faultless && bytes.None? ==> !ch.closed && ch.buffered == []
  {
    ghost var at, before := b.Length - size, b[..];
    bytes := ch.ReadSome(b, b.Length - size, size, deadline);
    if bytes.None? {
      assert b[..at] == before[..at] && b[at..] == before[at..];
    } else {
      Stored(before, b[..], at, bytes.value);
      assert was[at..][bytes.value..] == was[at + bytes.value..];
    }
  }

  /** Fills b with the next bytes of the stream; falls short only at the end of the stream. */
  method ReadExactly(ch: Channel, b: array<Byte>, deadline: Deadline)
    returns (r: Option<nat>, ghost got: nat, ghost ops: seq<Op>)
    requires ch.Valid()
    modifies ch, b
    ensures ch.Valid() && old(ch.sent) <= ch.sent
    ensures got <= b.Length && ch.received == old(ch.received) + b[..got] && b[got..] == old(b[..])[got..]
    ensures r.Some? ==> r.value == got && (got < b.Length ==> ch.closed && ch.buffered == [])
    ensures ch.faultless && r.None? ==> !ch.closed && ch.buffered == []
    ensures ch.ops == old(ch.ops) + ops && ReadAll(b.Length, deadline, ops, r) && Transferred(ops) == got
  {
    got, ops := 0, [];
    var size: nat := b.Length;                    // of `in`, the part of b still to be filled
    while size > 0
      invariant FilledTo(ch, b, old(b[..]), old(ch.received), size)
      invariant old(ch.sent) <= ch.sent && got == b.Length - size
      invariant ch.ops == old(ch.ops) + ops && Reading(b.Length, deadline, ops) && Transferred(ops) == got
    {
      var bytes := ReadRest(ch, b, size, deadline, old(b[..]), old(ch.received));
      ReadStep(b.Length, deadline, ops, Read(size, deadline, bytes));
      OpsRegroup(old(ch.ops), ops, [Read(size, deadline, bytes)]);
      ops := ops + [Read(size, deadline, bytes)];
      if bytes.None? {
        return None, got, ops;
      }
      if bytes.value == 0 {
        return Some(b.Length - size), got, ops;
      }
      size := size - bytes.value;
      got := got + bytes.value;
    }
    r := Some(b.Length);
  }

  /** n bytes more were stored at `at`. */
  lemma Stored(before: seq<Byte>, now: seq<Byte>, at: nat, n: nat)
    requires |before| == |now| && at + n <= |now| && now[..at] == before[..at] && now[at + n..] == before[at + n..]
    ensures now[..at + n] == before[..at] + now[at..at + n] && now[at + n..] == before[at..][n..]
  {
    assert now[..at + n] == now[..at] + now[at..at + n];
  }

  // ----- Both loops over one channel -----

  /** How far a coroutine has come: still in its loop, returned a count, or threw. */
  datatype Progress = Looping | Finished(count: nat) | Thrown

  /** put bytes of s went into the channel, got of them came out into b; the others are on their way. */
  ghost predicate InTransit(ch: Channel, s: seq<Byte>, b: array<Byte>, was: seq<Byte>, put: nat, got: nat)
    reads ch, b
  {
    && ch.Valid() && got <= put <= |s| && got <= b.Length == |was|
    && ch.buffered == s[got..put]
    && b[..] == s[..got] + was[got..]
  }

  lemma TakeMore(s: seq<Byte>, lo: nat, mid: nat, hi: nat)
    requires lo <= mid <= hi <= |s|
    ensures s[lo..mid] + s[mid..hi] == s[lo..hi]
  {
  }

  /** write_all, once round its loop, after the operations `ws`. */
  method WriterTurn(ch: Channel, s: seq<Byte>, put: nat, deadline: Deadline,
                    ghost b: array<Byte>, ghost was: seq<Byte>, ghost got: nat, ghost ws: seq<Op>)
    returns (p: Progress, put': nat, ghost issued: seq<Op>)
    requires InTransit(ch, s, b, was, put, got) && WriterDid(Looping, s, deadline, ws, put)
    modifies ch`buffered, ch`sent, ch`ops
    ensures InTransit(ch, s, b, was, put', got)
    ensures ch.ops == old(ch.ops) + issued && Single(issued, true)
    ensures WriterDid(p, s, deadline, ws + issued, put') && (ch.faultless ==> !p.Thrown?)
  {
    put', issued := put, [];
    assert ws + [] == ws;
    if put == |s| {
      return Finished(|s|), put, [];
    }
    var bytes := ch.WriteNow(s[put..], deadline);
    issued := [Write(s[put..], deadline, bytes)];
    WriteStep(s, deadline, ws, issued[0]);
    if bytes.None? {
      return Thrown, put, issued;
    }
    put' := put + bytes.value;
    assert s[put..][..bytes.value] == s[put..put'];
    TakeMore(s, got, put, put');
    p := if bytes.value == 0 then Finished(put) else Looping;
  }

  /** At most one operation, and of this sort. */
  ghost predicate Single(ops: seq<Op>, write: bool) {
    |ops| <= 1 && forall op :: op in ops ==> op.Write? == write
  }

  /** The writes among ops, or the reads. */
  ghost function Only(ops: seq<Op>, write: bool): seq<Op> {
    if ops == [] then []
    else
      var n := |ops| - 1;
      Only(ops[..n], write) + if ops[n].Write? == write then [ops[n]] else []
  }

  lemma OnlyMore(ops: seq<Op>, issued: seq<Op>, write: bool)
    requires Single(issued, write)
    ensures Only(ops + issued, write) == Only(ops, write) + issued
    ensures Only(ops + issued, !write) == Only(ops, !write)
  {
    if issued == [] {
      assert ops + issued == ops;
    } else {
      assert issued == [issued[0]] && issued[0] in issued;
      OneMoreOp(ops, issued[0]);
    }
  }

  /** `more` bytes of s, which were next in the channel, were stored in b behind those already there. */
  lemma Filled(prior: seq<Byte>, now: seq<Byte>, s: seq<Byte>, was: seq<Byte>, put: nat, got: nat, more: nat, left: seq<Byte>)
    requires got <= put <= |s| && |now| == |prior| == |was| && got + more <= |now| && prior == s[..got] + was[got..]
    requires now[..got] == prior[..got] && now[got + more..] == prior[got + more..]
    requires s[got..put] == now[got..got + more] + left
    ensures got + more <= put && left == s[got + more..put]
    ensures now == s[..got + more] + was[got + more..]
  {
    assert |s[got..put]| == more + |left|;
    assert left == s[got..put][more..];
    assert now[got..got + more] == s[got..put][..more];
    assert now == now[..got] + now[got..got + more] + now[got + more..];
    assert prior[got + more..] == was[got + more..];
    assert s[got..put][..more] == s[got..got + more];
    TakeMore(s, 0, got, got + more);
    assert s[0..got] == s[..got] && s[0..got + more] == s[..got + more];
  }

  /** What comes out of the channel goes behind what is in b already. */
  method TakeOut(ch: Channel, b: array<Byte>, got: nat, deadline: Deadline,
                 ghost s: seq<Byte>, ghost was: seq<Byte>, ghost put: nat)
    returns (bytes: Option<nat>)
    requires InTransit(ch, s, b, was, put, got) && got < b.Length
    modifies ch`buffered, ch`received, ch`ops, b
    ensures InTransit(ch, s, b, was, put, got + if bytes.Some? then bytes.value else 0)
    ensures ch.ops == old(ch.ops) + [Read(b.Length - got, deadline, bytes)]
    ensures bytes == Some(0) ==> ch.closed && got == put
  {
    ghost var prior := b[..];
    bytes := ch.ReadNow(b, got, b.Length - got, deadline);
    if bytes.Some? {
      Filled(prior, b[..], s, was, put, got, bytes.value, ch.buffered);
    }
  }

  /** read_exactly, once round its loop, after the operations `rs`. */
  method ReaderTurn(ch: Channel, b: array<Byte>, got: nat, deadline: Deadline,
                    ghost s: seq<Byte>, ghost was: seq<Byte>, ghost put: nat, ghost rs: seq<Op>)
    returns (p: Progress, got': nat, ghost issued: seq<Op>)
    requires InTransit(ch, s, b, was, put, got) && ReaderDid(Looping, b.Length, deadline, rs, got)
    modifies ch`buffered, ch`received, ch`ops, b
    ensures InTransit(ch, s, b, was, put, got')
    ensures ch.ops == old(ch.ops) + issued && Single(issued, false)
    ensures p.Finished? && got' < b.Length ==> ch.closed && got' == put
    ensures ReaderDid(p, b.Length, deadline, rs + issued, got')
  {
    got', issued := got, [];
    assert rs + [] == rs;
    if got == b.Length {
      return Finished(b.Length), got, [];
    }
    var bytes := TakeOut(ch, b, got, deadline, s, was, put);
    issued := [Read(b.Length - got, deadline, bytes)];
    ReadStep(b.Length, deadline, rs, issued[0]);
    if bytes.None? {
      return Thrown, got, issued;
    }
    got' := got + bytes.value;
    p := if bytes.value == 0 then Finished(got) else Looping;
  }

  /** The coroutine did what write_all is to do, as far as it has come. */
  ghost predicate WriterDid(p: Progress, s: seq<Byte>, d: Deadline, ws: seq<Op>, put: nat) {
    && Transferred(ws) == put
    && match p
      case Looping => Writing(s, d, ws)
      case Finished(count) => count == put && WroteAll(s, d, ws, Some(count))
      case Thrown => WroteAll(s, d, ws, None)
  }

  ghost predicate ReaderDid(p: Progress, size: nat, d: Deadline, rs: seq<Op>, got: nat) {
    && Transferred(rs) == got
    && match p
      case Looping => Reading(size, d, rs)
      case Finished(count) => count == got && ReadAll(size, d, rs, Some(count))
      case Thrown => ReadAll(size, d, rs, None)
  }

  /** Where the two are after the operations ops. */
  ghost predicate Going(ch: Channel, s: seq<Byte>, b: array<Byte>, was: seq<Byte>, dw: Deadline, dr: Deadline,
                        writer: Progress, reader: Progress, put: nat, got: nat, before: seq<Op>, ops: seq<Op>)
    reads ch, b
  {
    && InTransit(ch, s, b, was, put, got)
    && (ch.closed ==> !writer.Looping?)
    && ch.ops == before + ops
    && WriterDid(writer, s, dw, Only(ops, true), put) && ReaderDid(reader, b.Length, dr, Only(ops, false), got)
    && (reader.Finished? && got < b.Length ==> ch.closed && got == put)
  }

  lemma ReaderAdvanced(writer: Progress, s: seq<Byte>, dw: Deadline, put: nat, reader: Progress, size: nat, dr: Deadline,
                       got: nat, ops: seq<Op>, issued: seq<Op>)
    requires WriterDid(writer, s, dw, Only(ops, true), put)
    requires ReaderDid(reader, size, dr, Only(ops, false) + issued, got) && Single(issued, false)
    ensures WriterDid(writer, s, dw, Only(ops + issued, true), put)
    ensures ReaderDid(reader, size, dr, Only(ops + issued, false), got)
  {
    OnlyMore(ops, issued, false);
  }

  method WriterGoes(ch: Channel, s: seq<Byte>, ghost b: array<Byte>, ghost was: seq<Byte>, dw: Deadline, ghost dr: Deadline,
                    ghost reader: Progress, put: nat, ghost got: nat, ghost before: seq<Op>, ghost ops: seq<Op>)
    returns (writer: Progress, put': nat, ghost ops': seq<Op>)
    requires Going(ch, s, b, was, dw, dr, Looping, reader, put, got, before, ops)
    modifies ch`buffered, ch`sent, ch`ops
    ensures Going(ch, s, b, was, dw, dr, writer, reader, put', got, before, ops')
  {
    ghost var issued;
    writer, put', issued := WriterTurn(ch, s, put, dw, b, was, got, Only(ops, true));
    OnlyMore(ops, issued, true);
    OpsRegroup(before, ops, issued);
    ops' := ops + issued;
  }

  method ReaderGoes(ch: Channel, ghost s: seq<Byte>, b: array<Byte>, ghost was: seq<Byte>, ghost dw: Deadline, dr: Deadline,
                    ghost writer: Progress, ghost put: nat, got: nat, ghost before: seq<Op>, ghost ops: seq<Op>)
    returns (reader: Progress, got': nat, ghost ops': seq<Op>)
    requires Going(ch, s, b, was, dw, dr, writer, Looping, put, got, before, ops)
    modifies ch`buffered, ch`received, ch`ops, b
    ensures Going(ch, s, b, was, dw, dr, writer, reader, put, got', before, ops')
  {
    ghost var issued;
    reader, got', issued := ReaderTurn(ch, b, got, dr, s, was, put, Only(ops, false));
    OpsRegroup(before, ops, issued);
    ops' := ops + issued;
    ReaderAdvanced(writer, s, dw, put, reader, b.Length, dr, got', ops, issued);
  }

  /**
   * write_all of s at one end of a channel with nothing in it, read_exactly into b at the other, turn by turn under
   * any schedule; the writing end may be closed once write_all is done.
   */
  method TransferRoundTrip(ch: Channel, s: seq<Byte>, b: array<Byte>, dw: Deadline, dr: Deadline, turns: nat)
    returns (writer: Progress, reader: Progress, put: nat, got: nat, ghost ops: seq<Op>)
    requires ch.Valid() && ch.buffered == [] && !ch.closed
    modifies ch`buffered, ch`sent, ch`received, ch`closed, ch`ops, b
    ensures got <= put <= |s| && got <= b.Length
    ensures b[..] == s[..got] + old(b[..])[got..]
    ensures ch.ops == old(ch.ops) + ops
    ensures WriterDid(writer, s, dw, Only(ops, true), put) && ReaderDid(reader, b.Length, dr, Only(ops, false), got)
    ensures reader.Finished? && got < b.Length ==> !writer.Looping? && got == put
    ensures writer == Finished(|s|) && reader.Finished? ==> got == if |s| <= b.Length then |s| else b.Length
  {
    writer, reader, put, got, ops := Looping, Looping, 0, 0, [];
    ghost var was, before := b[..], ch.ops;
    for k := 0 to turns
      invariant Going(ch, s, b, was, dw, dr, writer, reader, put, got, before, ops)
    {
      if * {
        if writer.Looping? {
          writer, put, ops := WriterGoes(ch, s, b, was, dw, dr, reader, put, got, before, ops);
        }
      } else if * {
        if reader.Looping? {
          reader, got, ops := ReaderGoes(ch, s, b, was, dw, dr, writer, put, got, before, ops);
        }
      } else if !writer.Looping? {
        ch.closed := true;
      }
    }
  }

  // ----- read_buffer -----

  lemma Regroup(a: seq<Byte>, b: seq<Byte>, c: seq<Byte>)
    ensures a + b + c == a + (b + c)
  {
  }

  lemma SamePart(was: seq<Byte>, now: seq<Byte>, lo: nat, hi: nat)
    requires lo <= hi <= |was| && hi <= |now| && now[..hi] == was[..hi]
    ensures now[lo..hi] == was[lo..hi]
  {
    assert now[lo..hi] == now[..hi][lo..] && was[lo..hi] == was[..hi][lo..];
  }

  /** What the first bytes of a stream say about its first line. */
  lemma LineOfPrefix(data: seq<Byte>, news: seq<Byte>, ahead: seq<Byte>, left: seq<Byte>)
    requires ahead == news + left
    ensures var t := data + ahead; var u := data + news; var k := FirstLf(u);
      && t == u + left
      && (if k < |u| then FirstLf(t) == k && t[..k] == u[..k] && t[k + 1..] == u[k + 1..] + left
          else FirstLf(t) >= |u|)
  {
    assert data + ahead == data + news + left;
    FirstLfOfPrefix(data + news, left);
  }

  lemma SplitAt(a: seq<Byte>, d: seq<Byte>, n: nat)
    requires n <= |d|
    ensures a + d == a + d[..n] + d[n..]
  {
    assert d == d[..n] + d[n..];
  }

  // ----- What the reader is to do, told from the reads it issues -----

  /**
   * A stream of which `size` bytes are buffered, with its first LF at `first`: after `before` a read is due, because
   * no LF is buffered, and goes into all of the storage left.
   */
  ghost predicate SeeksMore(size: nat, first: nat, room: nat, d: Deadline, before: seq<Op>, op: Op) {
    && size + Transferred(before) <= first && Transferred(before) <= room
    && op.Read? && op.room == room - Transferred(before) && op.deadline == d
  }

  /** Each read so far was due and brought something. */
  ghost predicate Seeking(size: nat, first: nat, room: nat, d: Deadline, ops: seq<Op>) {
    ops == [] ||
    (var n := |ops| - 1;
     && Seeking(size, first, room, d, ops[..n]) && SeeksMore(size, first, room, d, ops[..n], ops[n])
     && ops[n].got.Some? && ops[n].got.value > 0)
  }

  /** The reader goes on until an LF is among the `total` bytes or one read brings nothing or throws. */
  ghost predicate Sought(size: nat, first: nat, total: nat, room: nat, d: Deadline, ops: seq<Op>, threw: bool) {
    if first < total then Seeking(size, first, room, d, ops) && size + Transferred(ops) == total && !threw
    else
      && ops != []
      && var n := |ops| - 1;
        && Seeking(size, first, room, d, ops[..n]) && SeeksMore(size, first, room, d, ops[..n], ops[n])
        && size + Transferred(ops[..n]) == total
        && if ops[n].got.None? then threw else ops[n].got.value == 0 && !threw
  }

  lemma {:induction false} SeekingFurther(size: nat, first: nat, first': nat, room: nat, d: Deadline, ops: seq<Op>)
    requires Seeking(size, first, room, d, ops) && first <= first'
    ensures Seeking(size, first', room, d, ops)
  {
    if ops != [] { SeekingFurther(size, first, first', room, d, ops[..|ops| - 1]); }
  }

  /** One more read while no LF was there; `first` is where one is now, if at all. */
  lemma SeekStep(size: nat, was: nat, first: nat, room: nat, d: Deadline, ops: seq<Op>, op: Op)
    requires Seeking(size, was, room, d, ops) && was <= first && size + Transferred(ops) <= first
    requires Transferred(ops) <= room && op.Read? && op.room == room - Transferred(ops) && op.deadline == d
    ensures Transferred(ops + [op]) == Transferred(ops) + if op.got.Some? then op.got.value else 0
    ensures op.got.Some? && op.got.value > 0 ==> Seeking(size, first, room, d, ops + [op])
    ensures op.got.None? || op.got.value == 0 ==>
              Sought(size, size + Transferred(ops), size + Transferred(ops), room, d, ops + [op], op.got.None?)
  {
    OneMoreOp(ops, op);
    SeekingFurther(size, was, first, room, d, ops);
    if was <= size + Transferred(ops) {
      SeekingFurther(size, was, size + Transferred(ops), room, d, ops);
    } else {
      SeekingShort(size, was, room, d, ops);
    }
  }

  /** No read so far needed to know more of the stream than it had brought. */
  lemma {:induction false} SeekingShort(size: nat, first: nat, room: nat, d: Deadline, ops: seq<Op>)
    requires Seeking(size, first, room, d, ops)
    ensures Seeking(size, size + Transferred(ops), room, d, ops)
  {
    if ops != [] {
      var n := |ops| - 1;
      SeekingShort(size, first, room, d, ops[..n]);
      SeekingFurther(size, size + Transferred(ops[..n]), size + Transferred(ops), room, d, ops[..n]);
    }
  }

  /** The same, told from the bytes. */
  lemma SeekOnce(data: seq<Byte>, news: seq<Byte>, chunk: seq<Byte>, room: nat, d: Deadline, ops: seq<Op>, op: Op)
    requires FirstLf(data + news) == |data| + |news| && Transferred(ops) == |news| <= room
    requires Seeking(|data|, |data| + |news|, room, d, ops)
    requires op.Read? && op.room == room - |news| && op.deadline == d
    requires |chunk| == if op.got.Some? then op.got.value else 0
    ensures chunk != [] ==>
      && Transferred(ops + [op]) == |news + chunk|
      && Seeking(|data|, FirstLf(data + (news + chunk)), room, d, ops + [op])
    ensures chunk == [] ==>
      news + chunk == news && Sought(|data|, |data| + |news|, |data| + |news|, room, d, ops + [op], op.got.None?)
  {
    NoLfYet(data + news);
    FirstLfBeyond(data + news, chunk);
    Regroup(data, news, chunk);
    SeekStep(|data|, |data| + |news|, FirstLf(data + news + chunk), room, d, ops, op);
  }

  /** What read_until_lf_strip_cr comes back with; at the API both Line(_, 0) and Stopped are an empty span. */
  datatype LineResult = Line(at: nat, len: nat) | Stopped | Threw

  class ReadBuffer {
    var storage: array<Byte>
    var dataStart: nat                  // data_read
    var dataLen: nat
    var emptyStart: nat                 // empty_buffer
    var emptyLen: nat
    ghost var consumed: seq<Byte>
    ghost var arrived: seq<Byte>        // everything ever read into this buffer

    ghost predicate Valid()
      reads this, storage
    {
      && dataStart + dataLen == emptyStart
      && emptyStart + emptyLen == storage.Length
      && arrived == consumed + Data()
    }

    function Data(): seq<Byte>
      requires dataStart + dataLen <= storage.Length
      reads this`storage, this`dataStart, this`dataLen, storage
    {
      storage[dataStart..dataStart + dataLen]
    }

    constructor (size: nat)
      ensures Valid() && fresh(storage) && storage.Length == size
      ensures Data() == [] && emptyLen == size && arrived == []
    {
      storage := new Byte[size];
      dataStart, dataLen, emptyStart, emptyLen := 0, 0, 0, size;
      consumed, arrived := [], [];
    }

    /** The move constructor copies the array and keeps both spans at their offsets. */
    constructor Move(rb: ReadBuffer)
      requires rb.Valid()
      ensures Valid() && fresh(storage) && storage[..] == rb.storage[..]
      ensures Data() == rb.Data() && dataStart == rb.dataStart && emptyLen == rb.emptyLen
      ensures consumed == rb.consumed && arrived == rb.arrived
    {
      storage := new Byte[rb.storage.Length](i requires 0 <= i < rb.storage.Length reads rb, rb.storage => rb.storage[i]);
      dataStart, dataLen := rb.dataStart, rb.dataLen;
      emptyStart, emptyLen := rb.emptyStart, rb.emptyLen;
      consumed, arrived := rb.consumed, rb.arrived;
      new;
      assert storage[..] == rb.storage[..];
      assert Data() == storage[..][dataStart..dataStart + dataLen];
      assert rb.Data() == rb.storage[..][dataStart..dataStart + dataLen];
    }

    /** The bytes stored at the front of empty_buffer become the back of data_read. */
    method Extend(bytes: nat)
      requires Valid() && bytes <= emptyLen
      modifies this`dataLen, this`emptyStart, this`emptyLen, this`arrived
      ensures Valid() && emptyLen == old(emptyLen) - bytes
      ensures Data() == old(Data()) + storage[old(emptyStart)..old(emptyStart) + bytes]
      ensures arrived == old(arrived) + storage[old(emptyStart)..old(emptyStart) + bytes]
    {
      ghost var chunk := storage[emptyStart..emptyStart + bytes];
      Regroup(consumed, Data(), chunk);
      arrived := arrived + chunk;
      dataLen := dataLen + bytes;
      emptyStart, emptyLen := emptyStart + bytes, emptyLen - bytes;
    }

    /** Move assignment, which copies over the array this buffer already has, also from itself. */
    method MoveAssign(rb: ReadBuffer)
      requires rb.Valid() && rb.storage.Length == storage.Length && (rb.storage == storage ==> rb == this)
      modifies this, storage
      ensures Valid() && storage == old(storage) && storage[..] == old(rb.storage[..])
      ensures Data() == old(rb.Data()) && dataStart == old(rb.dataStart) && emptyLen == old(rb.emptyLen)
      ensures consumed == old(rb.consumed) && arrived == old(rb.arrived)
    {
      forall i | 0 <= i < storage.Length {
        storage[i] := rb.storage[i];
      }
      dataStart, dataLen := rb.dataStart, rb.dataLen;
      emptyStart, emptyLen := rb.emptyStart, rb.emptyLen;
      consumed, arrived := rb.consumed, rb.arrived;
      assert storage[..] == old(rb.storage[..]);
      assert Data() == storage[..][dataStart..dataStart + dataLen];
      assert old(rb.Data()) == old(rb.storage[..])[dataStart..dataStart + dataLen];
    }

    /** Data goes on as before with the new bytes behind it. */
    method DoReadSome(ch: Channel, deadline: Deadline) returns (r: Option<nat>, ghost chunk: seq<Byte>)
      requires Valid() && ch.Valid() && ch as object != this
      modifies this`dataLen, this`emptyStart, this`emptyLen, this`arrived, storage, ch
      ensures Valid() && ch.Valid() && consumed == old(consumed)
      ensures old(ch.sent) <= ch.sent && (old(ch.closed) ==> ch.closed && ch.sent == old(ch.sent))
      ensures |chunk| == if r.Some? then r.value else 0
      ensures ch.received == old(ch.received) + chunk && Data() == old(Data()) + chunk
      ensures arrived == old(arrived) + chunk && emptyLen == old(emptyLen) - |chunk|
      ensures r == Some(0) ==> emptyLen == 0 || (ch.closed && ch.buffered == [])
      ensures ch.faultless && r.None? ==> !ch.closed
      ensures ch.ops == old(ch.ops) + [Read(old(emptyLen), deadline, r)]
    {
      ghost var was := storage[..];
      r := ch.ReadSome(storage, emptyStart, emptyLen, deadline);
      SamePart(was, storage[..], dataStart, emptyStart);
      chunk := [];
      if r.Some? && r.value != 0 {
        chunk := storage[emptyStart..emptyStart + r.value];
        Extend(r.value);
      }
    }

    /** Takes the first bytes off; consuming everything starts the storage afresh. */
    method Consume(bytes: nat) returns (at: nat)
      requires Valid() && bytes <= dataLen
      modifies this`dataStart, this`dataLen, this`emptyStart, this`emptyLen, this`consumed
      ensures Valid() && arrived == old(arrived)
      ensures at + bytes <= storage.Length && storage[at..at + bytes] == old(Data())[..bytes]
      ensures consumed == old(consumed) + old(Data())[..bytes] && Data() == old(Data())[bytes..]
      ensures emptyLen == if bytes == old(dataLen) then storage.Length else old(emptyLen)
    {
      ghost var d := Data();
      at := dataStart;
      SplitAt(consumed, d, bytes);
      consumed := consumed + d[..bytes];
      if bytes == dataLen {
        dataStart, dataLen := 0, 0;
        emptyStart, emptyLen := 0, storage.Length;
      } else {
        dataStart, dataLen := dataStart + bytes, dataLen - bytes;
      }
      assert Data() == d[bytes..];
      assert storage[at..at + bytes] == d[..bytes];
    }

    /** std::find over the data read */
    method Find(v: Byte) returns (k: nat)
      requires dataStart + dataLen <= storage.Length
      ensures k <= dataLen && v !in Data()[..k] && (k < dataLen ==> Data()[k] == v)
    {
      k := 0;
      while k < dataLen && storage[dataStart + k] != v
        invariant k <= dataLen && v !in Data()[..k]
      {
        assert Data()[..k + 1] == Data()[..k] + [storage[dataStart + k]];
        k := k + 1;
      }
    }

    /** The bytes a result stands for. */
    function Span(r: LineResult): seq<Byte>
      requires r.Line? ==> r.at + r.len <= storage.Length
      reads this`storage, storage
    {
      match r
      case Line(at, len) => storage[at..at + len]
      case _ => []
    }

    method FindLf() returns (cr: nat)
      requires Valid()
      ensures cr == FirstLf(Data())
    {
      cr := Find(LF);
      FirstLfIs(Data(), cr);
    }

    /** The reads `ops` have brought `news` since the buffer held `data`. */
    ghost predicate Brought(ch: Channel, data: seq<Byte>, received: seq<Byte>, room: nat, before: seq<Op>,
                            news: seq<Byte>, ops: seq<Op>)
      reads this, storage, ch
    {
      && Valid() && ch.Valid() && Data() == data + news && ch.received == received + news
      && room == emptyLen + |news| && ch.ops == before + ops
    }

    /** One more read while no LF is buffered. */
    method ReadMore(ch: Channel, deadline: Deadline, ghost data: seq<Byte>, ghost received: seq<Byte>, ghost room: nat,
                    ghost before: seq<Op>, ghost news: seq<Byte>, ghost ops: seq<Op>)
      returns (r: Option<nat>, ghost news': seq<Byte>, ghost ops': seq<Op>)
      requires ch as object != this && Brought(ch, data, received, room, before, news, ops)
      requires FirstLf(data + news) == |data| + |news| && Transferred(ops) == |news|
      requires Seeking(|data|, |data| + |news|, room, deadline, ops)
      modifies this`dataLen, this`emptyStart, this`emptyLen, this`arrived, storage, ch
      ensures Brought(ch, data, received, room, before, news', ops') && consumed == old(consumed)
      ensures old(ch.sent) <= ch.sent && (old(ch.closed) ==> ch.closed && ch.sent == old(ch.sent))
      ensures |news'| == |news| + if r.Some? then r.value else 0
      ensures r == Some(0) ==> emptyLen == 0 || (ch.closed && ch.buffered == [])
      ensures ch.faultless && r.None? ==> !ch.closed
      ensures |news'| > |news| ==> Transferred(ops') == |news'| && Seeking(|data|, FirstLf(data + news'), room, deadline, ops')
      ensures |news'| == |news| ==>
        news' == news && Sought(|data|, |data| + |news|, |data| + |news|, room, deadline, ops', r.None?)
    {
      ghost var chunk;
      ghost var left := emptyLen;
      r, chunk := DoReadSome(ch, deadline);
      ghost var op := Read(left, deadline, r);
      news', ops' := news + chunk, ops + [op];
      Regroup(data, news, chunk);
      Regroup(received, news, chunk);
      OpsRegroup(before, ops, [op]);
      SeekOnce(data, news, chunk, room, deadline, ops, op);
    }

    /** One more read and another look for the LF. */
    method LookFurther(ch: Channel, deadline: Deadline, ghost data: seq<Byte>, ghost received: seq<Byte>, ghost room: nat,
                       ghost before: seq<Op>, ghost news: seq<Byte>, ghost ops: seq<Op>)
      returns (r: Option<nat>, cr: nat, ghost news': seq<Byte>, ghost ops': seq<Op>)
      requires ch as object != this && Brought(ch, data, received, room, before, news, ops)
      requires FirstLf(data + news) == |data| + |news| && Transferred(ops) == |news|
      requires Seeking(|data|, |data| + |news|, room, deadline, ops)
      modifies this`dataLen, this`emptyStart, this`emptyLen, this`arrived, storage, ch
      ensures Brought(ch, data, received, room, before, news', ops') && consumed == old(consumed)
      ensures old(ch.sent) <= ch.sent && (old(ch.closed) ==> ch.closed && ch.sent == old(ch.sent))
      ensures |news'| == |news| + (if r.Some? then r.value else 0) && cr == FirstLf(data + news')
      ensures r == Some(0) ==> emptyLen == 0 || (ch.closed && ch.buffered == [])
      ensures ch.faultless && r.None? ==> !ch.closed
      ensures |news'| > |news| ==> Transferred(ops') == |news'| && Seeking(|data|, cr, room, deadline, ops')
      ensures |news'| == |news| ==>
        cr == |data| + |news'| && Sought(|data|, cr, cr, room, deadline, ops', r.None?)
    {
      r, news', ops' := ReadMore(ch, deadline, data, received, room, before, news, ops);
      cr := FindLf();
    }

    /** Reads until an LF is buffered: its index, or dataLen after a zero read or a throw. */
    method FillUntilLf(ch: Channel, deadline: Deadline)
      returns (cr: nat, threw: bool, ghost news: seq<Byte>, ghost ops: seq<Op>)
      requires Valid() && ch.Valid() && ch as object != this
      modifies this`dataLen, this`emptyStart, this`emptyLen, this`arrived, storage, ch
      ensures Valid() && ch.Valid() && ch.received == old(ch.received) + news
      ensures old(ch.sent) <= ch.sent && (old(ch.closed) ==> ch.closed && ch.sent == old(ch.sent))
      ensures Data() == old(Data()) + news && emptyLen == old(emptyLen) - |news| && consumed == old(consumed)
      ensures cr == FirstLf(Data()) && (threw ==> cr == |Data()|)
      ensures cr == |Data()| && !threw ==> emptyLen == 0 || (ch.closed && ch.buffered == [])
      ensures ch.faultless && threw ==> !ch.closed
      ensures ch.ops == old(ch.ops) + ops
      ensures Sought(|old(Data())|, cr, |old(Data())| + |news|, old(emptyLen), deadline, ops, threw)
    {
      ghost var data, received, room, before := Data(), ch.received, emptyLen, ch.ops;
      news, ops := [], [];
      threw := false;
      cr := FindLf();
      while cr == dataLen
        invariant Brought(ch, data, received, room, before, news, ops) && consumed == old(consumed)
        invariant old(ch.sent) <= ch.sent && (old(ch.closed) ==> ch.closed && ch.sent == old(ch.sent))
        invariant cr == FirstLf(data + news)
        invariant Transferred(ops) == |news| && Seeking(|data|, cr, room, deadline, ops)
        decreases emptyLen
      {
        var bytes;
        bytes, cr, news, ops := LookFurther(ch, deadline, data, received, room, before, news, ops);
        if bytes.None? || bytes.value == 0 {
          threw := bytes.None?;
          return;
        }
      }
    }

    /** Consumes the line and its LF, and leaves one final CR out of the span. */
    method TakeLine(cr: nat) returns (r: LineResult)
      requires Valid() && cr < dataLen
      modifies this`dataStart, this`dataLen, this`emptyStart, this`emptyLen, this`consumed
      ensures Valid() && arrived == old(arrived)
      ensures r.Line? && r.at + r.len <= storage.Length && Span(r) == StripCr(old(Data())[..cr])
      ensures Data() == old(Data())[cr + 1..] && consumed == old(consumed) + old(Data())[..cr + 1]
      ensures emptyLen == if Data() == [] then storage.Length else old(emptyLen)
    {
      ghost var d := Data();
      var at := Consume(cr + 1);
      Stripped(storage[..], at, cr, d);
      r := Line(at, if cr > 0 && storage[at + cr - 1] == CR then cr - 1 else cr);
    }

    /** read_until_lf_strip_cr.  The line is cut from what was buffered and the `news` that arrived meanwhile. */
    method ReadUntilLfStripCr(ch: Channel, deadline: Deadline)
      returns (r: LineResult, ghost news: seq<Byte>, ghost ops: seq<Op>)
      requires Valid() && ch.Valid() && ch as object != this
      modifies this`dataStart, this`dataLen, this`emptyStart, this`emptyLen, this`consumed, this`arrived, storage, ch
      ensures Valid() && ch.Valid() && ch.received == old(ch.received) + news && |news| <= old(emptyLen)
      ensures old(ch.sent) <= ch.sent && (old(ch.closed) ==> ch.closed && ch.sent == old(ch.sent))
      ensures var t := old(Data()) + news; var k := FirstLf(t);
        if r.Line? then
          && k < |t| && r.at + r.len <= storage.Length
          && Span(r) == StripCr(t[..k]) && Data() == t[k + 1..] && consumed == old(consumed) + t[..k + 1]
          && emptyLen == if Data() == [] then storage.Length else old(emptyLen) - |news|
        else
          k == |t| && Data() == t && consumed == old(consumed) && emptyLen == old(emptyLen) - |news|
      ensures r.Stopped? ==> emptyLen == 0 || (ch.closed && ch.buffered == [])
      ensures ch.faultless && ch.closed ==> !r.Threw?
      ensures ch.ops == old(ch.ops) + ops
      ensures Sought(|old(Data())|, FirstLf(old(Data()) + news), |old(Data()) + news|, old(emptyLen), deadline, ops, r.Threw?)
    {
      var cr, threw;
      cr, threw, news, ops := FillUntilLf(ch, deadline);
      if cr == dataLen {
        r := if threw then Threw else Stopped;
      } else {
        r := TakeLine(cr);
      }
    }

    /**
     * The reader on a stream whose end has been sent: a line comes back iff its LF is within reach of the storage
     * that is left.  Otherwise the empty span reports a close that has not happened.
     */
    method ReadLineOfFiniteStream(ch: Channel, deadline: Deadline) returns (r: LineResult)
      requires Valid() && ch.Valid() && ch as object != this && ch.closed
      modifies this`dataStart, this`dataLen, this`emptyStart, this`emptyLen, this`consumed, this`arrived, storage, ch
      ensures Valid() && ch.Valid() && ch.closed
      ensures var t := old(Data() + ch.buffered); var k := FirstLf(t);
        if r.Line? then
          && k < |t| && k < old(dataLen + emptyLen)
          && r.at + r.len <= storage.Length && Span(r) == StripCr(t[..k])
          && Data() + ch.buffered == t[k + 1..]
        else Data() + ch.buffered == t && (r.Stopped? ==> k == |t| || k >= old(dataLen + emptyLen))
      ensures old(|ch.buffered| <= emptyLen) ==> |ch.buffered| <= emptyLen
      ensures ch.faultless ==> !r.Threw?
    {
      ghost var data, ahead := Data(), ch.buffered;
      ghost var news, ops;
      r, news, ops := ReadUntilLfStripCr(ch, deadline);
      assert ahead == news + ch.buffered by {
        SameTail(old(ch.received), ahead, news, ch.buffered);
      }
      FiniteLine(data, news, ch.buffered, r.Line?, Span(r), Data());
    }

    /**
     * What the caller sees of any call: a span, or None when it throws; `ahead` is all that was sent by then and not
     * yet buffered before.  The span is empty iff no line was there or the first line hides itself; so it tells the
     * two apart iff the first line does not, and with storage to spare an empty span without a line means closed.
     */
    method ReadSpan(ch: Channel, deadline: Deadline) returns (span: Option<seq<Byte>>, ghost ahead: seq<Byte>)
      requires Valid() && ch.Valid() && ch as object != this
      modifies this`dataStart, this`dataLen, this`emptyStart, this`emptyLen, this`consumed, this`arrived, storage, ch
      ensures Valid() && ch.Valid() && ch.sent == old(ch.received) + ahead
      ensures span.Some? ==> SpanTells(span.value, old(Data()) + ahead, old(dataLen + emptyLen), ch.closed)
      ensures ch.faultless && ch.closed ==> span.Some?
    {
      ghost var data := Data();
      ghost var news, ops;
      var r;
      r, news, ops := ReadUntilLfStripCr(ch, deadline);
      ahead := news + ch.buffered;
      Regroup(old(ch.received), news, ch.buffered);
      if r.Threw? {
        span := None;
      } else {
        span := Some(Span(r));
        EmptySpanMeans(data, news, ch.buffered, Span(r), old(dataLen + emptyLen), ch.closed);
      }
    }

    /**
     * Lines from repeated calls, until a call does not find one.  However the reads cut up the stream, they are
     * the lines of the stream, provided all of it fits the storage that is left.
     */
    method ReadEveryLine(ch: Channel, deadline: Deadline) returns (lines: seq<seq<Byte>>, threw: bool)
      requires Valid() && ch.Valid() && ch as object != this && ch.closed && |ch.buffered| <= emptyLen
      modifies this`dataStart, this`dataLen, this`emptyStart, this`emptyLen, this`consumed, this`arrived, storage, ch
      ensures Valid() && ch.Valid()
      ensures var t := old(Data() + ch.buffered);
        if threw then SplitLines(t) == lines + SplitLines(Data() + ch.buffered)
        else lines == SplitLines(t) && Data() + ch.buffered == Rest(t)
      ensures ch.faultless ==> !threw
    {
      ghost var t := Data() + ch.buffered;
      ghost var u := t;
      lines, threw := [], false;
      var more := true;
      while more
        invariant Valid() && ch.Valid() && ch.closed && |ch.buffered| <= emptyLen
        invariant u == Data() + ch.buffered
        invariant SplitLines(t) == lines + SplitLines(u) && Rest(t) == Rest(u)
        invariant !more && !threw ==> FirstLf(u) == |u|
        invariant ch.faultless ==> !threw
        decreases |u|, more
      {
        var r := ReadLineOfFiniteStream(ch, deadline);
        if r.Line? {
          SplitStep(lines, u, Span(r));
          u := u[FirstLf(u) + 1..];
          lines := lines + [Span(r)];
        } else {
          more, threw := false, r.Threw?;
        }
      }
    }
  }

  lemma NoLfYet(t: seq<Byte>)
    requires FirstLf(t) == |t|
    ensures LF !in t
  {
    assert t[..|t|] == t;
  }

  lemma Stripped(all: seq<Byte>, at: nat, cr: nat, d: seq<Byte>)
    requires at + cr + 1 <= |all| && cr < |d| && all[at..at + (cr + 1)] == d[..cr + 1]
    ensures StripCr(d[..cr]) == all[at..at + if cr > 0 && all[at + cr - 1] == CR then cr - 1 else cr]
  {
    assert all[at..at + cr] == all[at..at + (cr + 1)][..cr] && d[..cr] == d[..cr + 1][..cr];
    if cr > 0 { assert all[at..at + cr][cr - 1] == all[at + cr - 1]; }
  }

  lemma FirstLfBeyond(a: seq<Byte>, b: seq<Byte>)
    requires LF !in a
    ensures FirstLf(a + b) >= |a|
  {
    assert a[..|a|] == a;
    FirstLfIs(a, |a|);
    FirstLfOfPrefix(a, b);
  }

  lemma SplitStep(lines: seq<seq<Byte>>, u: seq<Byte>, span: seq<Byte>)
    requires FirstLf(u) < |u| && span == StripCr(u[..FirstLf(u)])
    ensures var v := u[FirstLf(u) + 1..];
      lines + SplitLines(u) == lines + [span] + SplitLines(v) && Rest(u) == Rest(v)
  {
  }

  lemma SameTail(a: seq<Byte>, x: seq<Byte>, y: seq<Byte>, z: seq<Byte>)
    requires a + x == a + y + z
    ensures x == y + z
  {
    assert (a + x)[|a|..] == x;
    assert (a + y + z)[|a|..] == y + z;
  }

  /** The stream t has a first line, yet the reader's span for it is empty: blank, or its LF is out of reach. */
  predicate HidesFirstLine(t: seq<Byte>, reach: nat) {
    var k := FirstLf(t);
    k < |t| && (k >= reach || t[..k] == [] || t[..k] == [CR])
  }

  lemma OneLine()
    ensures FirstLf([97, 98, 99, LF]) == 3 && SplitLines([97, 98, 99, LF]) == [[97, 98, 99]]
  {
    var text: seq<Byte> := [97, 98, 99, LF];
    FirstLfIs(text, 3);
    assert text[..3] == [97, 98, 99] && text[4..] == [];
  }

  /** Two bytes of storage and the stream "abc\n": an empty span, with the line still to come. */
  method EmptySpanMidStream(deadline: Deadline)
    returns (ch: Channel, rb: ReadBuffer, span: Option<seq<Byte>>)
    ensures rb.Valid() && ch.Valid()
    ensures span == Some([]) && SplitLines(rb.Data() + ch.buffered) == [[97, 98, 99]]
  {
    var text: seq<Byte> := [97, 98, 99, LF];
    ch := new Channel(true);
    rb := new ReadBuffer(2);
    ch.buffered, ch.sent, ch.closed := text, text, true;
    OneLine();
    assert rb.Data() + ch.buffered == text;
    var r := rb.ReadLineOfFiniteStream(ch, deadline);
    span := Some(rb.Span(r));
  }

  /**
   * What a span says of the stream t: it is empty iff no line is there or the first one hides; it tells the two apart
   * iff the first line does not hide; and exactly when an empty one means closed with no line left.
   */
  predicate SpanTells(span: seq<Byte>, t: seq<Byte>, reach: nat, closed: bool) {
    && (span == [] <==> FirstLf(t) == |t| || HidesFirstLine(t, reach))
    && ((span == [] <==> FirstLf(t) == |t|) <==> !HidesFirstLine(t, reach))
    && (FirstLf(t) == |t| && |t| < reach ==> closed)
    && ((span == [] ==> closed && FirstLf(t) == |t|)
        <==> !HidesFirstLine(t, reach) && (FirstLf(t) == |t| && |t| >= reach ==> closed))
  }

  /** A line cut from data + news, or all of it without one, while `left` was still in the channel. */
  lemma FiniteLine(data: seq<Byte>, news: seq<Byte>, left: seq<Byte>, line: bool, span: seq<Byte>, rest: seq<Byte>)
    requires var u := data + news; var k := FirstLf(u);
      if line then k < |u| && span == StripCr(u[..k]) && rest == u[k + 1..] else k == |u| && rest == u
    ensures var t := data + (news + left); var k := FirstLf(t);
      if line then k < |t| && k < |data + news| && span == StripCr(t[..k]) && rest + left == t[k + 1..]
      else rest + left == t && k >= |data + news|
  {
    LineOfPrefix(data, news, news + left, left);
  }

  /** A span cut from data + news, while `left` was still in the channel: what it says. */
  lemma EmptySpanMeans(data: seq<Byte>, news: seq<Byte>, left: seq<Byte>, span: seq<Byte>, reach: nat, closed: bool)
    requires |data + news| <= reach
    requires var u := data + news; var k := FirstLf(u);
      if k < |u| then span == StripCr(u[..k]) else span == [] && (|u| == reach || (left == [] && closed))
    ensures SpanTells(span, data + (news + left), reach, closed)
  {
    LineOfPrefix(data, news, news + left, left);
    var u := data + news;
    if FirstLf(u) < |u| { EmptySpanIff(u[..FirstLf(u)]); }
  }

  lemma EmptySpanIff(line: seq<Byte>)
    ensures StripCr(line) == [] <==> line == [] || line == [CR]
  {
    if line != [] && StripCr(line) == [] {
      assert line == [line[0]];
    }
  }
}
