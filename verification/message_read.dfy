/** The message as the remote side reads and writes it, knowing only its bytes; the read-back
    of `put_args`; and the round trip through both. */
module MessageRead {
  import opened Wrappers
  import opened Wire
  import opened Layout
  import opened Marshal
  import opened MessageFill

  // ---------------------------------------------------------------- the remote's view

  function AttrsAt(msg: seq<Byte>, i: nat): nat
    requires DescAt(i + 1) <= |msg|
  {
    Field(msg, DescAt(i), 4)
  }

  function BufLenAt(msg: seq<Byte>, i: nat): nat
    requires DescAt(i + 1) <= |msg|
  {
    Field(msg, DescAt(i) + 16, 8)
  }

  function PayloadLenAt(msg: seq<Byte>, i: nat): nat
    requires DescAt(i + 1) <= |msg|
  {
    Field(msg, DescAt(i) + 32, 8)
  }

  /** Where slot `n` starts, adding up the payload lengths in the descriptors. */
  function WireSlot(msg: seq<Byte>, total: nat, n: nat): nat
    requires DescAt(n) <= |msg|
  {
    if n == 0 then PayloadStart(total) else WireSlot(msg, total, n - 1) + PayloadLenAt(msg, n - 1)
  }

  /** The bytes of buffer `i` as its descriptor says where they are: in an internal buffer or
      inline. */
  function RemoteBytes(msg: seq<Byte>, mem: seq<seq<Byte>>, total: nat, i: nat): Option<seq<Byte>> {
    if DescAt(i + 1) > |msg| || i >= |mem| then None
    else
      var len, at := BufLenAt(msg, i), WireSlot(msg, total, i);
      if AttrsAt(msg, i) == ATTR_INTERNAL then
        if len <= |mem[i]| then Some(mem[i][..len]) else None
      else if at + len <= |msg| then Some(msg[at..at + len]) else None
  }

  /** `s` with `bytes` written at `at`. */
  function Splice(s: seq<Byte>, at: nat, bytes: seq<Byte>): (r: seq<Byte>)
    requires at + |bytes| <= |s|
    ensures Holds(r, at, bytes)
    ensures Agree(s, r, 0, at) && Agree(s, r, at + |bytes|, |s|)
  {
    var r := seq(|s|, k requires 0 <= k < |s| => if at <= k < at + |bytes| then bytes[k - at] else s[k]);
    assert r[at..at + |bytes|] == bytes;
    r
  }

  /** The remote writes `bytes` as buffer `i`. */
  function RemoteWrite(msg: seq<Byte>, mem: seq<seq<Byte>>, total: nat, i: nat, bytes: seq<Byte>)
    : (seq<Byte>, seq<seq<Byte>>)
  {
    if DescAt(i + 1) > |msg| || i >= |mem| then (msg, mem)
    else if AttrsAt(msg, i) == ATTR_INTERNAL then
      if |bytes| <= |mem[i]| then (msg, mem[i := Splice(mem[i], 0, bytes)]) else (msg, mem)
    else
      var at := WireSlot(msg, total, i);
      if at + |bytes| <= |msg| then (Splice(msg, at, bytes), mem) else (msg, mem)
  }

  /** The descriptors of the buffers stand in the message as they were laid out. */
  ghost predicate DescsKept(msg: seq<Byte>, c: Call, moved: seq<Option<Internal>>) {
    && |moved| == |c.args|
    && SlotAt(c, moved, Total(c)) <= |msg| < U64_LIMIT
    && forall i :: 0 <= i < |c.args| ==> Holds(msg, DescAt(i), RpraBytes(BufDesc(c, moved, i)))
  }

  function BufDesc(c: Call, moved: seq<Option<Internal>>, i: nat): Rpra
    requires i < |c.args| == |moved|
  {
    BufPiece(c.args[i], moved[i], i < c.inbufs).desc.value
  }

  lemma FieldOf(msg: seq<Byte>, at: nat, n: nat, k: nat)
    requires Holds(msg, at, LittleEndian(n, k)) && n < Power256(k)
    ensures Field(msg, at, k) == n
  {
    LittleEndianRoundTrip(n, k);
  }

  lemma DescFields(msg: seq<Byte>, i: nat, d: Rpra)
    requires Holds(msg, DescAt(i), RpraBytes(d))
    requires d.attrs < U32_LIMIT && d.bufLen < U64_LIMIT && d.payloadLen < U64_LIMIT
    ensures DescAt(i + 1) <= |msg|
    ensures AttrsAt(msg, i) == d.attrs && BufLenAt(msg, i) == d.bufLen && PayloadLenAt(msg, i) == d.payloadLen
  {
    hide LittleEndian, FromLittleEndian, Power256, Holds;
    Power256Of8();
    var a, crc, pv := LittleEndian(d.attrs, 4), LittleEndian(d.crc, 4), LittleEndian(d.pv, 8);
    var len, off, pay := LittleEndian(d.bufLen, 8), LittleEndian(d.offset, 8), LittleEndian(d.payloadLen, 8);
    assert Holds(msg, DescAt(i), a) by {
      assert RpraBytes(d) == [] + a + (crc + pv + len + off + pay);
      HoldsPart(msg, DescAt(i), [], a, crc + pv + len + off + pay);
    }
    assert Holds(msg, DescAt(i) + 16, len) by {
      assert RpraBytes(d) == (a + crc + pv) + len + (off + pay);
      HoldsPart(msg, DescAt(i), a + crc + pv, len, off + pay);
    }
    assert Holds(msg, DescAt(i) + 32, pay) by {
      assert RpraBytes(d) == (a + crc + pv + len + off) + pay + [];
      HoldsPart(msg, DescAt(i), a + crc + pv + len + off, pay, []);
    }
    FieldOf(msg, DescAt(i), d.attrs, 4);
    FieldOf(msg, DescAt(i) + 16, d.bufLen, 8);
    FieldOf(msg, DescAt(i) + 32, d.payloadLen, 8);
    HoldsLength(msg, DescAt(i), RpraBytes(d));
  }

  lemma HoldsLength(msg: seq<Byte>, at: nat, bytes: seq<Byte>)
    requires Holds(msg, at, bytes)
    ensures at + |bytes| <= |msg|
  {
  }

  /** What the wire says about buffer `i` is what was laid out. */
  lemma WireFields(msg: seq<Byte>, c: Call, moved: seq<Option<Internal>>, i: nat)
    requires DescsKept(msg, c, moved) && i < |c.args|
    ensures DescAt(i + 1) <= |msg|
    ensures BufLenAt(msg, i) == c.args[i].len
    ensures PayloadLenAt(msg, i) == PieceOf(c, moved, i).len
    ensures AttrsAt(msg, i) == ATTR_INTERNAL <==> !IsIon(c.args[i]) && moved[i].Some?
  {
    hide RpraBytes, Holds, Offset, MappingBytes, AttrsAt, BufLenAt, PayloadLenAt;
    SlotsInOrder(c, moved, i, Total(c));
    DescFields(msg, i, BufDesc(c, moved, i));
  }

  /** Adding up the descriptors gives the offsets the fill pass used. */
  lemma {:induction false} WireSlotIsSlot(msg: seq<Byte>, c: Call, moved: seq<Option<Internal>>, n: nat)
    requires DescsKept(msg, c, moved) && n <= |c.args|
    ensures DescAt(n) <= |msg| && WireSlot(msg, Total(c), n) == SlotAt(c, moved, n)
  {
    hide RpraBytes, Holds, DescsKept, BufPiece, HandlePiece, PayloadLenAt;
    if n > 0 {
      WireSlotIsSlot(msg, c, moved, n - 1);
      WireFields(msg, c, moved, n - 1);
    } else {
      assert DescAt(0) <= |msg| by { DescsKeptSize(msg, c, moved); }
    }
  }

  lemma DescsKeptSize(msg: seq<Byte>, c: Call, moved: seq<Option<Internal>>)
    requires DescsKept(msg, c, moved)
    ensures DescAt(Total(c)) <= PayloadStart(Total(c)) <= |msg| < U64_LIMIT
  {
  }

  // ---------------------------------------------------------------- inputs

  lemma MessageKeepsDescs(was: seq<Byte>, tx: seq<Byte>, h: Header, c: Call, l: Laid)
    requires CallOk(c) && Message(was, tx, h, c, l) && |tx| < U64_LIMIT
    ensures DescsKept(tx, c, l.moved)
  {
    hide RpraBytes, Holds, Offset, MappingBytes, HeaderBytes, Agree, MemOf, MovedSeq, TooBig;
    forall i | 0 <= i < |c.args| ensures Holds(tx, DescAt(i), RpraBytes(BufDesc(c, l.moved, i))) {
      assert Placed(was, tx, c, l.moved, i);
    }
  }

  /** Internal buffers are large enough for their arguments. */
  ghost predicate MemFits(c: Call, moved: seq<Option<Internal>>, mem: seq<seq<Byte>>) {
    && |mem| == |c.args| == |moved|
    && forall i :: 0 <= i < |c.args| && moved[i].Some? ==> |mem[i]| >= c.args[i].len
  }

  /** Where the remote finds a plain buffer. */
  lemma RemoteFinds(msg: seq<Byte>, mem: seq<seq<Byte>>, c: Call, moved: seq<Option<Internal>>, i: nat)
    requires DescsKept(msg, c, moved) && MemFits(c, moved, mem) && i < |c.args| && !IsIon(c.args[i])
    ensures var len, at := c.args[i].len, SlotAt(c, moved, i);
            && (moved[i].None? ==> at + len == SlotAt(c, moved, i + 1) <= |msg|)
            && (moved[i].Some? ==> len <= |mem[i]|)
            && RemoteBytes(msg, mem, Total(c), i) ==
               Some(if moved[i].Some? then mem[i][..len] else msg[at..at + len])
  {
    hide RpraBytes, Holds, DescsKept, MappingBytes, AttrsAt, BufLenAt, PayloadLenAt, Offset, PayloadStart, WireSlot;
    WireFields(msg, c, moved, i);
    WireSlotIsSlot(msg, c, moved, i);
    SlotsInOrder(c, moved, i, i + 1);
    SlotsUpTo(c, moved, i + 1);
    assert SlotAt(c, moved, Total(c)) <= |msg| by { DescsKeptEnd(msg, c, moved); }
  }

  lemma DescsKeptEnd(msg: seq<Byte>, c: Call, moved: seq<Option<Internal>>)
    requires DescsKept(msg, c, moved)
    ensures SlotAt(c, moved, Total(c)) <= |msg|
  {
  }

  /** Every plain input reaches the remote unchanged, inline or through an internal buffer. */
  lemma RemoteSeesInputs(was: seq<Byte>, tx: seq<Byte>, h: Header, c: Call, l: Laid, i: nat)
    requires CallOk(c) && Message(was, tx, h, c, l) && |tx| < U64_LIMIT
    requires i < c.inbufs && !IsIon(c.args[i])
    ensures RemoteBytes(tx, l.mem, Total(c), i) == Some(c.args[i].data)
  {
    hide RpraBytes, Offset, MappingBytes, HeaderBytes, Agree, MovedSeq, TooBig, RemoteBytes, DescsKept, DescAt, PayloadStart;
    MessageKeepsDescs(was, tx, h, c, l);
    assert MemFits(c, l.moved, l.mem);
    RemoteFinds(tx, l.mem, c, l.moved, i);
    assert Placed(was, tx, c, l.moved, i) && MemOf(c, l.moved, l.mem[i], i);
  }

  // ---------------------------------------------------------------- outputs

  /** Bytes outside the descriptors do not matter to them. */
  lemma DescsKeptBy(a: seq<Byte>, b: seq<Byte>, c: Call, moved: seq<Option<Internal>>)
    requires DescsKept(a, c, moved) && Agree(a, b, DescAt(0), DescAt(|c.args|))
    ensures DescsKept(b, c, moved)
  {
    hide RpraBytes, Holds, Offset, BufDesc;
    forall i | 0 <= i < |c.args| ensures Holds(b, DescAt(i), RpraBytes(BufDesc(c, moved, i))) {
      HoldsKept(a, b, DescAt(i), RpraBytes(BufDesc(c, moved, i)));
    }
  }

  /** A write by the remote reads back, and disturbs no other buffer. */
  lemma WriteReadsBack(msg: seq<Byte>, mem: seq<seq<Byte>>, c: Call, moved: seq<Option<Internal>>, i: nat, bytes: seq<Byte>)
    requires DescsKept(msg, c, moved) && MemFits(c, moved, mem)
    requires i < |c.args| && !IsIon(c.args[i]) && |bytes| == c.args[i].len
    ensures var (msg', mem') := RemoteWrite(msg, mem, Total(c), i, bytes);
            && DescsKept(msg', c, moved) && MemFits(c, moved, mem')
            && RemoteBytes(msg', mem', Total(c), i) == Some(bytes)
  {
    hide RpraBytes, Holds, DescsKept, MappingBytes, AttrsAt, BufLenAt, PayloadLenAt, Offset, RemoteBytes, WireSlot, PayloadStart;
    var (msg', mem') := RemoteWrite(msg, mem, Total(c), i, bytes);
    RemoteFinds(msg, mem, c, moved, i);
    WireFields(msg, c, moved, i);
    WireSlotIsSlot(msg, c, moved, i);
    RoomBeforePayload(c, moved, i);
    DescsKeptSize(msg, c, moved);
    assert DescAt(|c.args|) <= DescAt(Total(c)) <= SlotAt(c, moved, i);
    assert Agree(msg, msg', DescAt(0), DescAt(|c.args|));
    DescsKeptBy(msg, msg', c, moved);
    RemoteFinds(msg', mem', c, moved, i);
    if moved[i].Some? {
      assert mem' == mem[i := Splice(mem[i], 0, bytes)];
      HoldsIs(mem'[i], 0, bytes);
    } else {
      assert msg' == Splice(msg, SlotAt(c, moved, i), bytes);
      HoldsIs(msg', SlotAt(c, moved, i), bytes);
    }
  }

  lemma HoldsIs(s: seq<Byte>, at: nat, bytes: seq<Byte>)
    requires Holds(s, at, bytes)
    ensures at + |bytes| <= |s| && s[at..at + |bytes|] == bytes
  {
  }

  lemma AgreeSlice(a: seq<Byte>, b: seq<Byte>, lo: nat, hi: nat)
    requires lo <= hi && Agree(a, b, lo, hi)
    ensures a[lo..hi] == b[lo..hi]
  {
  }

  lemma WriteLeavesOthers(msg: seq<Byte>, mem: seq<seq<Byte>>, c: Call, moved: seq<Option<Internal>>, i: nat, j: nat, bytes: seq<Byte>)
    requires DescsKept(msg, c, moved) && MemFits(c, moved, mem)
    requires i < |c.args| && !IsIon(c.args[i]) && |bytes| == c.args[i].len
    requires j < |c.args| && !IsIon(c.args[j]) && j != i
    ensures var (msg', mem') := RemoteWrite(msg, mem, Total(c), i, bytes);
            RemoteBytes(msg', mem', Total(c), j) == RemoteBytes(msg, mem, Total(c), j)
  {
    hide RpraBytes, Holds, DescsKept, MappingBytes, AttrsAt, BufLenAt, PayloadLenAt, Offset, RemoteBytes, WireSlot, PayloadStart;
    var (msg', mem') := RemoteWrite(msg, mem, Total(c), i, bytes);
    WriteReadsBack(msg, mem, c, moved, i, bytes);
    RemoteFinds(msg, mem, c, moved, j);
    RemoteFinds(msg', mem', c, moved, j);
    RemoteFinds(msg, mem, c, moved, i);
    WireFields(msg, c, moved, i);
    WireSlotIsSlot(msg, c, moved, i);
    if moved[i].None? && moved[j].None? {
      if i < j { SlotsInOrder(c, moved, i, j); } else { SlotsInOrder(c, moved, j, i); }
      AgreeSlice(msg, msg', SlotAt(c, moved, j), SlotAt(c, moved, j + 1));
    }
  }

  /** The remote writes the outputs `inbufs .. k`. */
  function RemoteRun(msg: seq<Byte>, mem: seq<seq<Byte>>, c: Call, results: seq<seq<Byte>>, k: nat)
    : (seq<Byte>, seq<seq<Byte>>)
    requires c.inbufs <= k <= |c.args| == |results|
  {
    if k == c.inbufs then (msg, mem)
    else
      var (msg', mem') := RemoteRun(msg, mem, c, results, k - 1);
      if IsIon(c.args[k - 1]) then (msg', mem') else RemoteWrite(msg', mem', Total(c), k - 1, results[k - 1])
  }

  ghost predicate ResultsFit(c: Call, results: seq<seq<Byte>>) {
    |results| == |c.args| && forall i :: 0 <= i < |c.args| ==> |results[i]| == c.args[i].len
  }

  lemma {:induction false} RunReadsBack(msg: seq<Byte>, mem: seq<seq<Byte>>, c: Call, moved: seq<Option<Internal>>, results: seq<seq<Byte>>, k: nat, i: nat)
    requires DescsKept(msg, c, moved) && MemFits(c, moved, mem) && ResultsFit(c, results)
    requires c.inbufs <= k <= |c.args|
    ensures var (msg', mem') := RemoteRun(msg, mem, c, results, k);
            && DescsKept(msg', c, moved) && MemFits(c, moved, mem')
            && (c.inbufs <= i < k && !IsIon(c.args[i]) ==>
                  RemoteBytes(msg', mem', Total(c), i) == Some(results[i]))
  {
    hide DescsKept, MemFits, RemoteBytes, RemoteWrite;
    if k > c.inbufs {
      var (msg0, mem0) := RemoteRun(msg, mem, c, results, k - 1);
      RunReadsBack(msg, mem, c, moved, results, k - 1, i);
      if !IsIon(c.args[k - 1]) {
        WriteReadsBack(msg0, mem0, c, moved, k - 1, results[k - 1]);
        if c.inbufs <= i < k - 1 && !IsIon(c.args[i]) {
          WriteLeavesOthers(msg0, mem0, c, moved, k - 1, i, results[k - 1]);
        }
      }
    }
  }

  // ---------------------------------------------------------------- put_args

  /** Where `put_args` stands before output `i`, adding up the payload lengths it reads from the
      response, whatever they are. */
  function ReadAt(msg: seq<Byte>, start: nat, inbufs: nat, i: nat): nat
    requires inbufs <= i && DescAt(i) <= |msg|
  {
    if i == inbufs then start else ReadAt(msg, start, inbufs, i - 1) + PayloadLenAt(msg, i - 1)
  }

  /** The bytes it copies for a plain output, if they are inside the buffer. */
  function OutBytes(c: Call, moved: seq<Option<Internal>>, start: nat, msg: seq<Byte>, mem: seq<seq<Byte>>, i: nat): Option<seq<Byte>>
    requires c.inbufs <= i < |c.args| == |moved| == |mem| && DescAt(i + 1) <= |msg|
  {
    if moved[i].Some? then
      if c.args[i].len <= |mem[i]| then Some(mem[i][..c.args[i].len]) else None
    else
      var at, len := ReadAt(msg, start, c.inbufs, i), BufLenAt(msg, i);
      if at + len <= |msg| then Some(msg[at..at + len]) else None
  }

  ghost predicate CopiesOk(c: Call, copyOk: seq<bool>, n: nat)
    requires n <= |c.args| == |copyOk|
  {
    forall i :: c.inbufs <= i < n && !IsIon(c.args[i]) ==> copyOk[i]
  }

  /** Every plain output so far lies inside the buffer. */
  ghost predicate InBuffer(c: Call, moved: seq<Option<Internal>>, start: nat, msg: seq<Byte>, mem: seq<seq<Byte>>, n: nat)
    requires n <= |c.args| == |moved| == |mem| && DescAt(n) <= |msg|
  {
    forall i :: c.inbufs <= i < n && !IsIon(c.args[i]) ==> OutBytes(c, moved, start, msg, mem, i).Some?
  }

  /** What the user gets for output `i`: nothing is copied for an ION buffer. */
  ghost predicate OutputRight(c: Call, moved: seq<Option<Internal>>, start: nat, msg: seq<Byte>, mem: seq<seq<Byte>>, i: nat, out: seq<Byte>)
    requires c.inbufs <= i < |c.args| == |moved| == |mem| && DescAt(i + 1) <= |msg|
  {
    if IsIon(c.args[i]) then out == [] else OutBytes(c, moved, start, msg, mem, i) == Some(out)
  }

  lemma DescWithin(n: nat, i: nat)
    requires i <= n
    ensures DescAt(i) <= DescAt(n)
  {
  }

  /** The read-back pass on any response: it walks the payload by the lengths it finds there and
      copies out the plain outputs. It succeeds exactly when there is a response with result
      0, every copy succeeds, and no length leads it out of the buffer. */
  method PutArgs(c: Call, l: Laid, rsp: Option<seq<Byte>>, mem: seq<seq<Byte>>, copyOk: seq<bool>)
    returns (r: Result<seq<seq<Byte>>, Errno>)
    requires CallOk(c) && |copyOk| == |c.args| == |l.moved| && MemFits(c, l.moved, mem)
    requires rsp.Some? ==> DescAt(|c.args|) <= |rsp.value|
    ensures rsp.None? ==> r == Err(EINVAL)
    ensures rsp.Some? && Field(rsp.value, RESULT_AT, 4) != 0 ==> r == Err(Remote(Field(rsp.value, RESULT_AT, 4)))
    ensures var start := PayloadStart(Total(c)) + l.outOffset;
            rsp.Some? && Field(rsp.value, RESULT_AT, 4) == 0 ==>
              && (r.Ok? <==> CopiesOk(c, copyOk, |c.args|) && InBuffer(c, l.moved, start, rsp.value, mem, |c.args|))
              && (r.Ok? ==> |r.value| == |c.args| - c.inbufs)
              && (r.Ok? ==> forall k :: 0 <= k < |r.value| ==>
                    DescAt(c.inbufs + k + 1) <= |rsp.value|
                    && OutputRight(c, l.moved, start, rsp.value, mem, c.inbufs + k, r.value[k]))
    ensures r.Ok? ==> rsp.Some? && Field(rsp.value, RESULT_AT, 4) == 0
    ensures rsp.Some? && Field(rsp.value, RESULT_AT, 4) == 0 && r.Err? ==>
              || (r.error == CopyFault && !CopiesOk(c, copyOk, |c.args|))
              || (r.error == Overrun && !InBuffer(c, l.moved, PayloadStart(Total(c)) + l.outOffset, rsp.value, mem, |c.args|))
  {
    hide AttrsAt, BufLenAt, PayloadLenAt, PayloadStart, DescAt, Field, OutBytes, OutputRight, ReadAt;
    if rsp.None? { return Err(EINVAL); }
    var msg := rsp.value;
    assert RESULT_AT + 4 <= |msg| by { HeaderWithin(msg, |c.args|); }
    var result := Field(msg, RESULT_AT, 4);
    if result != 0 { return Err(Remote(result)); }
    var start := PayloadStart(Total(c)) + l.outOffset;
    var payload := start;
    assert payload == ReadAt(msg, start, c.inbufs, c.inbufs) by { ReadStarts(msg, start, c.inbufs, |c.args|); }
    forall i | 0 <= i <= |c.args| ensures DescAt(i) <= |msg| { DescWithin(|c.args|, i); }
    var outs := [];
    var i := c.inbufs;
    while i < |c.args|
      invariant c.inbufs <= i <= |c.args| && |outs| == i - c.inbufs
      invariant payload == ReadAt(msg, start, c.inbufs, i)
      invariant CopiesOk(c, copyOk, i) && InBuffer(c, l.moved, start, msg, mem, i)
      invariant forall k :: 0 <= k < |outs| ==> OutputRight(c, l.moved, start, msg, mem, c.inbufs + k, outs[k])
    {
      var out := [];
      ReadStep(c, l.moved, start, msg, mem, i);
      if !IsIon(c.args[i]) {
        if l.moved[i].Some? {
          out := mem[i][..c.args[i].len];
        } else {
          var len := BufLenAt(msg, i);
          if payload + len > |msg| { return Err(Overrun); }
          out := msg[payload..payload + len];
        }
        if !copyOk[i] { return Err(CopyFault); }
      }
      OutputIs(c, l.moved, start, msg, mem, i, out);
      outs := outs + [out];
      payload := payload + PayloadLenAt(msg, i);
      i := i + 1;
    }
    r := Ok(outs);
  }

  lemma HeaderWithin(msg: seq<Byte>, n: nat)
    requires DescAt(n) <= |msg|
    ensures SIZEOF_INVOKE_MSG <= |msg|
  {
  }

  lemma ReadStarts(msg: seq<Byte>, start: nat, inbufs: nat, n: nat)
    requires inbufs <= n && DescAt(n) <= |msg|
    ensures DescAt(inbufs) <= |msg| && ReadAt(msg, start, inbufs, inbufs) == start
  {
  }

  /** One turn of the loop. */
  lemma ReadStep(c: Call, moved: seq<Option<Internal>>, start: nat, msg: seq<Byte>, mem: seq<seq<Byte>>, i: nat)
    requires c.inbufs <= i < |c.args| && MemFits(c, moved, mem) && DescAt(i + 1) <= |msg|
    ensures DescAt(i) <= |msg| && ReadAt(msg, start, c.inbufs, i + 1) == ReadAt(msg, start, c.inbufs, i) + PayloadLenAt(msg, i)
    ensures var at, len := ReadAt(msg, start, c.inbufs, i), BufLenAt(msg, i);
            OutBytes(c, moved, start, msg, mem, i) ==
            if moved[i].Some? then Some(mem[i][..c.args[i].len])
            else if at + len <= |msg| then Some(msg[at..at + len]) else None
  {
    hide BufLenAt, PayloadLenAt;
  }

  lemma OutputIs(c: Call, moved: seq<Option<Internal>>, start: nat, msg: seq<Byte>, mem: seq<seq<Byte>>, i: nat, out: seq<Byte>)
    requires c.inbufs <= i < |c.args| == |moved| == |mem| && DescAt(i + 1) <= |msg|
    requires if IsIon(c.args[i]) then out == [] else OutBytes(c, moved, start, msg, mem, i) == Some(out)
    ensures OutputRight(c, moved, start, msg, mem, i, out)
  {
  }

  /** With the descriptors as they were sent, the walk meets the slots of the fill pass ... */
  lemma {:induction false} ReadAtIsSlot(c: Call, moved: seq<Option<Internal>>, msg: seq<Byte>, i: nat)
    requires DescsKept(msg, c, moved) && c.inbufs <= i <= |c.args|
    ensures DescAt(i) <= |msg|
    ensures ReadAt(msg, SlotAt(c, moved, c.inbufs), c.inbufs, i) == SlotAt(c, moved, i)
  {
    hide RpraBytes, Holds, BufPiece, HandlePiece, PayloadLenAt;
    DescsKeptSize(msg, c, moved);
    DescWithin(Total(c), i);
    if i > c.inbufs {
      ReadAtIsSlot(c, moved, msg, i - 1);
      WireFields(msg, c, moved, i - 1);
      Advance(c, moved, i - 1);
    }
  }

  /** ... so every plain output lies inside the buffer and is what the remote side left. */
  lemma OutIsRemote(c: Call, moved: seq<Option<Internal>>, msg: seq<Byte>, mem: seq<seq<Byte>>, i: nat)
    requires DescsKept(msg, c, moved) && MemFits(c, moved, mem) && c.inbufs <= i < |c.args| && !IsIon(c.args[i])
    ensures DescAt(i + 1) <= |msg|
    ensures OutBytes(c, moved, SlotAt(c, moved, c.inbufs), msg, mem, i) == RemoteBytes(msg, mem, Total(c), i)
    ensures RemoteBytes(msg, mem, Total(c), i).Some?
  {
    hide RpraBytes, Holds, BufPiece, HandlePiece, PayloadLenAt, BufLenAt, AttrsAt, DescsKept, RemoteBytes, SlotAt;
    ReadAtIsSlot(c, moved, msg, i);
    WireFields(msg, c, moved, i);
    RemoteFinds(msg, mem, c, moved, i);
  }

  /** What the remote answers: the outputs in their places and result 0. */
  function Response(msg: seq<Byte>, mem: seq<seq<Byte>>, c: Call, results: seq<seq<Byte>>): (seq<Byte>, seq<seq<Byte>>)
    requires c.inbufs <= |c.args| == |results|
  {
    var (rx, mem') := RemoteRun(msg, mem, c, results, |c.args|);
    if RESULT_AT + 4 <= |rx| then (Splice(rx, RESULT_AT, LittleEndian(0, 4)), mem') else (rx, mem')
  }

  /** The response is well formed, and every plain output is found in it. */
  lemma ResponseIsRight(msg: seq<Byte>, mem: seq<seq<Byte>>, c: Call, moved: seq<Option<Internal>>, results: seq<seq<Byte>>)
    requires c.inbufs <= |c.args|
    requires DescsKept(msg, c, moved) && MemFits(c, moved, mem) && ResultsFit(c, results)
    ensures var (rx, mem') := Response(msg, mem, c, results);
            && DescsKept(rx, c, moved) && MemFits(c, moved, mem')
            && |rx| >= SIZEOF_INVOKE_MSG && Field(rx, RESULT_AT, 4) == 0
            && forall i :: c.inbufs <= i < |c.args| && !IsIon(c.args[i]) ==>
                 RemoteBytes(rx, mem', Total(c), i) == Some(results[i])
  {
    hide DescsKept, MemFits, RemoteBytes, RemoteRun, Holds, LittleEndian, Field, PayloadStart, Offset;
    var (mid, mem') := RemoteRun(msg, mem, c, results, |c.args|);
    RunReadsBack(msg, mem, c, moved, results, |c.args|, 0);
    DescsKeptSize(mid, c, moved);
    var (rx, _) := Response(msg, mem, c, results);
    assert rx == Splice(mid, RESULT_AT, LittleEndian(0, 4));
    Power256Of8();
    FieldOf(rx, RESULT_AT, 0, 4);
    assert DescAt(|c.args|) <= DescAt(Total(c));
    DescsKeptBy(mid, rx, c, moved);
    forall i | c.inbufs <= i < |c.args| && !IsIon(c.args[i])
      ensures RemoteBytes(rx, mem', Total(c), i) == Some(results[i])
    {
      RunReadsBack(msg, mem, c, moved, results, |c.args|, i);
      SameBehindHeader(mid, rx, mem', c, moved, i);
    }
  }

  lemma SameBehindHeader(a: seq<Byte>, b: seq<Byte>, mem: seq<seq<Byte>>, c: Call, moved: seq<Option<Internal>>, i: nat)
    requires DescsKept(a, c, moved) && DescsKept(b, c, moved) && MemFits(c, moved, mem)
    requires i < |c.args| && !IsIon(c.args[i]) && Agree(a, b, SIZEOF_INVOKE_MSG, |a|)
    ensures RemoteBytes(a, mem, Total(c), i) == RemoteBytes(b, mem, Total(c), i)
  {
    hide DescsKept, RemoteBytes, Offset;
    RemoteFinds(a, mem, c, moved, i);
    RemoteFinds(b, mem, c, moved, i);
    RoomBeforePayload(c, moved, i);
    if moved[i].None? {
      var lo, hi := SlotAt(c, moved, i), SlotAt(c, moved, i + 1);
      AgreeSlice(a, b, lo, hi);
    }
  }

  /** One invoke, end to end: whatever the buffer size, and so whichever path the arguments
      took, the plain outputs are exactly what the remote produced. */
  method RoundTrip(h: Header, c: Call, descOk: bool, msgOk: bool, tx: array<Byte>,
                   results: seq<seq<Byte>>, copyOk: seq<bool>)
    returns (r: Result<seq<seq<Byte>>, Errno>)
    requires CallOk(c) && ResultsFit(c, results) && |copyOk| == |c.args| && tx.Length < U64_LIMIT
    modifies tx
    ensures r.Ok? <==> Succeeds(c, descOk, msgOk, tx.Length) && CopiesOk(c, copyOk, |c.args|)
    ensures r.Ok? ==> |r.value| == |c.args| - c.inbufs
    ensures r.Ok? ==> forall i :: c.inbufs <= i < |c.args| ==>
                        r.value[i - c.inbufs] == if IsIon(c.args[i]) then [] else results[i]
  {
    hide DescsKept, RemoteBytes, RemoteRun, Response, Succeeds, CopiesOk, Offset, Placed, Holds, Agree, HeaderBytes, PayloadStart, TooBig, MovedSeq, OutBytes, InBuffer, Field, DescAt;
    ghost var was := tx[..];
    var laid := GetArgs(h, c, descOk, msgOk, tx);
    if laid.Err? { return Err(laid.error); }
    var l := laid.value;
    MessageKeepsDescs(was, tx[..], h, c, l);
    assert MemFits(c, l.moved, l.mem);
    ResponseIsRight(tx[..], l.mem, c, l.moved, results);
    var (rx, mem) := Response(tx[..], l.mem, c, results);
    AllInBuffer(c, l.moved, rx, mem);
    r := PutArgs(c, l, Some(rx), mem, copyOk);
    if r.Ok? {
      forall i | c.inbufs <= i < |c.args|
        ensures r.value[i - c.inbufs] == if IsIon(c.args[i]) then [] else results[i]
      {
        if !IsIon(c.args[i]) { OutIsRemote(c, l.moved, rx, mem, i); }
        var k := i - c.inbufs;
        assert OutputRight(c, l.moved, SlotAt(c, l.moved, c.inbufs), rx, mem, c.inbufs + k, r.value[k]);
      }
    }
  }

  lemma AllInBuffer(c: Call, moved: seq<Option<Internal>>, msg: seq<Byte>, mem: seq<seq<Byte>>)
    requires c.inbufs <= |c.args| && DescsKept(msg, c, moved) && MemFits(c, moved, mem)
    ensures DescAt(|c.args|) <= |msg| && InBuffer(c, moved, SlotAt(c, moved, c.inbufs), msg, mem, |c.args|)
  {
    hide OutBytes, RemoteBytes, DescsKept, SlotAt;
    ReadAtIsSlot(c, moved, msg, |c.args|);
    forall i | c.inbufs <= i < |c.args| && !IsIon(c.args[i])
      ensures DescAt(i + 1) <= |msg| && OutBytes(c, moved, SlotAt(c, moved, c.inbufs), msg, mem, i).Some?
    {
      OutIsRemote(c, moved, msg, mem, i);
    }
  }
}
