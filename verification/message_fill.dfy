/** The fill pass of `get_args`, and the whole of it. */
module MessageFill {
  import opened Wrappers
  import opened Wire
  import opened Layout
  import opened Marshal

  /** Writes one descriptor and one payload slot, where there is something to write. */
  method WritePiece(tx: array<Byte>, i: nat, desc: Option<Rpra>, at: nat, len: nat, image: Option<seq<Byte>>)
    requires DescAt(i + 1) <= at && at + len <= tx.Length
    requires image.Some? ==> |image.value| == len
    modifies tx
    ensures desc.Some? ==> Holds(tx[..], DescAt(i), RpraBytes(desc.value))
    ensures desc.None? ==> Agree(old(tx[..]), tx[..], DescAt(i), DescAt(i + 1))
    ensures image.Some? ==> Holds(tx[..], at, image.value)
    ensures image.None? ==> Agree(old(tx[..]), tx[..], at, at + len)
    ensures Agree(old(tx[..]), tx[..], 0, DescAt(i))
    ensures Agree(old(tx[..]), tx[..], DescAt(i + 1), at)
    ensures Agree(old(tx[..]), tx[..], at + len, tx.Length)
  {
    hide RpraBytes, Holds;
    ghost var was := tx[..];
    if desc.Some? { CopyIn(tx, DescAt(i), RpraBytes(desc.value)); }
    ghost var mid := tx[..];
    if image.Some? { CopyIn(tx, at, image.value); }
    if desc.Some? { HoldsKept(mid, tx[..], DescAt(i), RpraBytes(desc.value)); }
  }

  lemma RoomBeforePayload(c: Call, moved: seq<Option<Internal>>, i: nat)
    requires i < Total(c) && |moved| == |c.args|
    ensures DescAt(i + 1) <= DescAt(Total(c)) <= PayloadStart(Total(c)) <= SlotAt(c, moved, i)
  {
  }

  /** Writing argument `i` keeps the arguments before it. */
  lemma PlacedKept(was: seq<Byte>, a: seq<Byte>, b: seq<Byte>, c: Call, moved: seq<Option<Internal>>, i: nat, j: nat)
    requires CallOk(c) && j < i < Total(c) && |moved| == |c.args|
    requires Placed(was, a, c, moved, j)
    requires Agree(a, b, 0, DescAt(i)) && Agree(a, b, DescAt(i + 1), SlotAt(c, moved, i))
    ensures Placed(was, b, c, moved, j)
  {
    hide BufPiece, HandlePiece, Offset, RpraBytes, Holds;
    SlotsInOrder(c, moved, j, i);
    RoomBeforePayload(c, moved, i);
    RoomBeforePayload(c, moved, j);
    var p := PieceOf(c, moved, j);
    if p.desc.Some? { HoldsKept(a, b, DescAt(j), RpraBytes(p.desc.value)); }
    if p.image.Some? {
      ImageFits(c, moved, j);
      HoldsKept(a, b, SlotAt(c, moved, j), p.image.value);
    }
  }

  lemma ImageFits(c: Call, moved: seq<Option<Internal>>, i: nat)
    requires CallOk(c) && i < Total(c) && |moved| == |c.args|
    ensures PieceOf(c, moved, i).image.Some? ==> |PieceOf(c, moved, i).image.value| == PieceOf(c, moved, i).len
  {
  }

  /** The first `i` arguments are placed and nothing else has been written. */
  ghost predicate FilledTo(was: seq<Byte>, tx: seq<Byte>, c: Call, moved: seq<Option<Internal>>, i: nat)
    requires i <= Total(c) && |moved| == |c.args|
  {
    && SlotAt(c, moved, i) <= |tx|
    && (forall j :: 0 <= j < i ==> Placed(was, tx, c, moved, j))
    && Agree(was, tx, 0, DescAt(0))
    && Agree(was, tx, DescAt(i), PayloadStart(Total(c)))
    && Agree(was, tx, SlotAt(c, moved, i), |tx|)
  }

  lemma PlacedOne(was: seq<Byte>, a: seq<Byte>, b: seq<Byte>, c: Call, moved: seq<Option<Internal>>, i: nat)
    requires CallOk(c) && i < Total(c) && |moved| == |c.args|
    requires FilledTo(was, a, c, moved, i)
    requires Agree(a, b, 0, DescAt(i)) && Agree(a, b, DescAt(i + 1), SlotAt(c, moved, i))
    requires SlotAt(c, moved, i + 1) <= |b| && Agree(a, b, SlotAt(c, moved, i + 1), |b|)
    requires var p := PieceOf(c, moved, i);
             && (p.desc.Some? ==> Holds(b, DescAt(i), RpraBytes(p.desc.value)))
             && (p.desc.None? ==> Agree(a, b, DescAt(i), DescAt(i + 1)))
             && (p.image.Some? ==> Holds(b, SlotAt(c, moved, i), p.image.value))
             && (p.image.None? ==> Agree(a, b, SlotAt(c, moved, i), SlotAt(c, moved, i + 1)))
    ensures FilledTo(was, b, c, moved, i + 1)
  {
    hide BufPiece, HandlePiece, Offset, RpraBytes, Holds;
    SlotsInOrder(c, moved, i, i + 1);
    RoomBeforePayload(c, moved, i);
    assert Placed(was, b, c, moved, i) by { hide Placed; PlacedHere(was, a, b, c, moved, i); }
    forall j | 0 <= j < i ensures Placed(was, b, c, moved, j) {
      hide Placed;
      PlacedKept(was, a, b, c, moved, i, j);
    }
  }

  lemma PlacedHere(was: seq<Byte>, a: seq<Byte>, b: seq<Byte>, c: Call, moved: seq<Option<Internal>>, i: nat)
    requires i < Total(c) && |moved| == |c.args|
    requires SlotAt(c, moved, i) <= |a| && DescAt(i + 1) <= PayloadStart(Total(c))
    requires Agree(was, a, DescAt(i), PayloadStart(Total(c))) && Agree(was, a, SlotAt(c, moved, i), |a|)
    requires SlotAt(c, moved, i + 1) == SlotAt(c, moved, i) + PieceOf(c, moved, i).len <= |b|
    requires var p := PieceOf(c, moved, i);
             && (p.desc.Some? ==> Holds(b, DescAt(i), RpraBytes(p.desc.value)))
             && (p.desc.None? ==> Agree(a, b, DescAt(i), DescAt(i + 1)))
             && (p.image.Some? ==> Holds(b, SlotAt(c, moved, i), p.image.value))
             && (p.image.None? ==> Agree(a, b, SlotAt(c, moved, i), SlotAt(c, moved, i + 1)))
    ensures Placed(was, b, c, moved, i)
  {
    hide BufPiece, HandlePiece, Offset, RpraBytes, Holds;
  }

  /** Copying an input over the start of its internal buffer. */
  function CopiedOver(mem: seq<Byte>, data: seq<Byte>): seq<Byte>
    requires |data| <= |mem|
  {
    data + mem[|data|..]
  }

  ghost predicate MovedOk(c: Call, moved: seq<Option<Internal>>) {
    && |moved| == |c.args|
    && forall i :: 0 <= i < |moved| && moved[i].Some? ==> !IsIon(c.args[i]) && |moved[i].value.mem| >= c.args[i].len
  }

  /** The fill pass on one buffer argument; returns the contents of its internal buffer and
      the payload pointer after it. */
  method FillBuffer(c: Call, moved: seq<Option<Internal>>, i: nat, payload: nat, tx: array<Byte>, ghost was: seq<Byte>)
    returns (err: Option<Errno>, mem: seq<Byte>, next: nat)
    requires CallOk(c) && MovedOk(c, moved) && i < |c.args|
    requires payload == SlotAt(c, moved, i) && SlotAt(c, moved, i + 1) <= tx.Length
    requires FilledTo(was, tx[..], c, moved, i)
    modifies tx
    ensures err.None? <==> FillOk(c, i)
    ensures err.Some? ==> err.value == FillError(c.args[i])
    ensures err.None? ==> next == SlotAt(c, moved, i + 1) && FilledTo(was, tx[..], c, moved, i + 1)
    ensures err.None? ==>
              match moved[i]
              case None => mem == []
              case Some(b) => |mem| == |b.mem| && if i < c.inbufs then mem[..c.args[i].len] == c.args[i].data else mem == b.mem
  {
    hide SlotAt, FilledTo, Holds, Agree, RpraBytes, MappingBytes, DescAt, PayloadStart, SizeOfMapping;
    var a := c.args[i];
    err, mem, next := None, [], payload;
    var rpra: Rpra, image: Option<seq<Byte>>;
    assert PieceOf(c, moved, i) == BufPiece(a, moved[i], i < c.inbufs);
    if IsIon(a) {
      var m := a.ion.value;
      if a.fate.vmStart.None? { err := Some(NoArea); return; }
      var offset := (a.pv - a.fate.vmStart.value) % U64_LIMIT;
      if (offset + a.len) % U64_LIMIT > m.size { err := Some(EFAULT); return; }
      var attrs := if a.keepMap then ATTR_ION + ATTR_KEEP_MAP else ATTR_ION;
      rpra := Rpra(attrs, 0, a.pv, a.len, offset, SizeOfMapping(|m.sgl|));
      image := Some(MappingBytes(m.fd, m.refs, m.va, m.len, m.sgl));
    } else if moved[i].Some? {
      var b := moved[i].value;
      rpra := Rpra(ATTR_INTERNAL, 0, a.pv, a.len, 0, SizeOfMapping(|b.sgl|));
      image := Some(MappingBytes(-1, 1, b.va, |b.mem|, b.sgl));
      mem := b.mem;
      if i < c.inbufs && a.len > 0 {
        if !a.fate.copyOk { err := Some(CopyFault); return; }
        mem := CopiedOver(mem, a.data);
      }
    } else {
      rpra, image := Rpra(0, 0, a.pv, a.len, 0, a.len), None;
      if i < c.inbufs {
        if a.len > 0 && !a.fate.copyOk { err := Some(CopyFault); return; }
        image := Some(a.data);
      }
    }
    Advance(c, moved, i);
    ghost var before := tx[..];
    WritePiece(tx, i, Some(rpra), payload, rpra.payloadLen, image);
    next := payload + rpra.payloadLen;
    PlacedOne(was, before, tx[..], c, moved, i);
  }

  lemma Advance(c: Call, moved: seq<Option<Internal>>, i: nat)
    requires i < Total(c) && |moved| == |c.args|
    ensures SlotAt(c, moved, i + 1) == SlotAt(c, moved, i) + PieceOf(c, moved, i).len
    ensures DescAt(i + 1) <= SlotAt(c, moved, i)
  {
    hide BufPiece, HandlePiece;
    SlotsInOrder(c, moved, i, i + 1);
    RoomBeforePayload(c, moved, i);
  }

  /** The fill pass on one handle. */
  method FillHandle(c: Call, moved: seq<Option<Internal>>, i: nat, payload: nat, tx: array<Byte>, ghost was: seq<Byte>)
    returns (next: nat)
    requires CallOk(c) && MovedOk(c, moved) && |c.args| <= i < Total(c)
    requires payload == SlotAt(c, moved, i) && SlotAt(c, moved, i + 1) <= tx.Length
    requires FilledTo(was, tx[..], c, moved, i)
    modifies tx
    ensures next == SlotAt(c, moved, i + 1) && FilledTo(was, tx[..], c, moved, i + 1)
  {
    hide SlotAt, FilledTo, Holds, Agree, RpraBytes, MappingBytes, DescAt, PayloadStart, SizeOfMapping;
    var h := c.handles[i - |c.args|];
    var desc: Option<Rpra>, image: Option<seq<Byte>>, len: nat := None, None, 0;
    if h.mapping.Some? {
      var m := h.mapping.value;
      len := SizeOfMapping(|m.sgl|);
      desc := Some(Rpra(ATTR_ION, 0, 0, h.len, h.pv, len));
      image := Some(MappingBytes(m.fd, m.refs, m.va, h.len, m.sgl));
    }
    assert PieceOf(c, moved, i) == Piece(desc, len, image);
    Advance(c, moved, i);
    ghost var before := tx[..];
    WritePiece(tx, i, desc, payload, len, image);
    next := payload + len;
    PlacedOne(was, before, tx[..], c, moved, i);
  }

  /** The whole fill pass: it ends exactly at the end of the last slot. */
  method FillPass(c: Call, moved: seq<Option<Internal>>, tx: array<Byte>)
    returns (err: Option<Errno>, mem: seq<seq<Byte>>, payload: nat)
    requires CallOk(c) && MovedOk(c, moved) && SlotAt(c, moved, Total(c)) <= tx.Length
    modifies tx
    ensures err.None? <==> forall i :: 0 <= i < |c.args| ==> FillOk(c, i)
    ensures err.Some? ==> exists i: nat :: FirstBad(c, i) && err.value == FillError(c.args[i])
    ensures err.None? ==> payload == SlotAt(c, moved, Total(c)) && FilledTo(old(tx[..]), tx[..], c, moved, Total(c))
    ensures err.None? ==> |mem| == |c.args| && forall i :: 0 <= i < |c.args| ==> MemOf(c, moved, mem[i], i)
  {
    hide Placed, PieceOf, FillOk, Offset, Holds;
    ghost var was := tx[..];
    mem, payload := [], PayloadStart(Total(c));
    assert SlotAt(c, moved, 0) == payload by { OffsetOfNone(c, moved); }
    SlotsUpTo(c, moved, 0);
    var i := 0;
    while i < |c.args|
      invariant 0 <= i <= |c.args| && |mem| == i
      invariant payload == SlotAt(c, moved, i) && FilledTo(was, tx[..], c, moved, i)
      invariant forall j :: 0 <= j < i ==> FillOk(c, j)
      invariant forall j :: 0 <= j < i ==> MemOf(c, moved, mem[j], j)
    {
      hide SlotAt, FilledTo;
      SlotsUpTo(c, moved, i + 1);
      var one: seq<Byte>;
      err, one, payload := FillBuffer(c, moved, i, payload, tx, was);
      if err.Some? { assert FirstBad(c, i); return; }
      mem := mem + [one];
      i := i + 1;
    }
    while i < Total(c)
      invariant |c.args| <= i <= Total(c)
      invariant payload == SlotAt(c, moved, i) && FilledTo(was, tx[..], c, moved, i)
    {
      hide SlotAt, FilledTo;
      SlotsUpTo(c, moved, i + 1);
      payload := FillHandle(c, moved, i, payload, tx, was);
      i := i + 1;
    }
    err := None;
  }

  lemma SlotsUpTo(c: Call, moved: seq<Option<Internal>>, i: nat)
    requires i <= Total(c) && |moved| == |c.args|
    ensures SlotAt(c, moved, i) <= SlotAt(c, moved, Total(c))
  {
    hide BufPiece, HandlePiece;
    if i < Total(c) { SlotsInOrder(c, moved, i, Total(c)); }
  }

  lemma MovedSeqOk(c: Call, big: bool)
    requires CallOk(c)
    ensures MovedOk(c, MovedSeq(c, big))
  {
    hide PageAlign;
    forall i | 0 <= i < |c.args| ensures c.args[i].len <= PageAlign(c.args[i].len) { AlignedFits(c.args[i].len); }
  }

  /** `get_args`: it succeeds exactly when every test does, and then leaves the message. */
  method GetArgs(h: Header, c: Call, descOk: bool, msgOk: bool, tx: array<Byte>) returns (r: Result<Laid, Errno>)
    requires CallOk(c)
    modifies tx
    ensures r.Ok? <==> Succeeds(c, descOk, msgOk, tx.Length)
    ensures r.Err? ==>
              if MapsFail(c) then r.error == MapFailed
              else if NoRoom(c, descOk, msgOk, tx.Length) then r.error == ENOMEM
              else exists i: nat :: FirstBad(c, i) && r.error == FillError(c.args[i])
    ensures r.Ok? ==> Message(old(tx[..]), tx[..], h, c, r.value)
  {
    hide Placed, PieceOf, FillOk, Offset, Holds, Agree, Moves, SlotAt, FilledTo, MemOf, MovedOk;
    var bufs, total := |c.args|, Total(c);
    var ok, copylen, outOffset := SizePass(c);
    if !ok { return Err(MapFailed); }
    var handlesOk, handlelen := HandlePass(c);
    if !handlesOk { return Err(MapFailed); }
    var metalen := SIZEOF_INVOKE_MSG + total * SIZEOF_RPRA + 8 * M_FDLIST + 4 * M_CRCLIST + 4 + 8 * M_DSP_PERF_LIST;
    var size := metalen + copylen + handlelen;
    var moved := NoneMoved(bufs);
    ghost var big := TooBig(c, tx.Length);
    if size > tx.Length {
      if !descOk { return Err(ENOMEM); }
      ok, moved, copylen, outOffset := ResizePass(c);
      if !ok { return Err(ENOMEM); }
      size := metalen + copylen + handlelen;
    }
    assert moved == MovedSeq(c, big);
    MovedSeqOk(c, big);
    HandleRoom(c, NoneMoved(bufs), moved, total);
    if !msgOk || size > tx.Length { return Err(ENOMEM); }
    var e, mem, _ := WriteMessage(h, c, moved, size, tx);
    if e.Some? { return Err(e.value); }
    r := Ok(Laid(size, outOffset, moved, mem));
  }

  /** Header, cleared lists and fill pass: the payload starts where `metalen` ends, and the pass
      ends exactly at `size`. */
  method WriteMessage(h: Header, c: Call, moved: seq<Option<Internal>>, size: nat, tx: array<Byte>)
    returns (err: Option<Errno>, mem: seq<seq<Byte>>, payload: nat)
    requires CallOk(c) && MovedOk(c, moved)
    requires size == MetaLen(Total(c)) + Offset(c, moved, Total(c)) <= tx.Length
    modifies tx
    ensures err.None? <==> forall i :: 0 <= i < |c.args| ==> FillOk(c, i)
    ensures err.Some? ==> exists i: nat :: FirstBad(c, i) && err.value == FillError(c.args[i])
    ensures err.None? ==> forall i :: 0 <= i < Total(c) ==> Placed(old(tx[..]), tx[..], c, moved, i)
    ensures err.None? ==> Holds(tx[..], 0, HeaderBytes(h, size)) && Holds(tx[..], DescAt(Total(c)), Zeros(LISTS_LEN))
    ensures err.None? ==> payload == size && Agree(old(tx[..]), tx[..], size, tx.Length)
    ensures err.None? ==> |mem| == |c.args| && forall i :: 0 <= i < |c.args| ==> MemOf(c, moved, mem[i], i)
  {
    hide Placed, PieceOf, FillOk, Offset, Holds, MemOf, HeaderBytes;
    ghost var was := tx[..];
    CopyIn(tx, 0, HeaderBytes(h, size));
    ghost var one := tx[..];
    CopyIn(tx, DescAt(Total(c)), Zeros(LISTS_LEN));
    ghost var two := tx[..];
    HoldsKept(one, two, 0, HeaderBytes(h, size));
    err, mem, payload := FillPass(c, moved, tx);
    if err.None? {
      HoldsKept(two, tx[..], 0, HeaderBytes(h, size));
      HoldsKept(two, tx[..], DescAt(Total(c)), Zeros(LISTS_LEN));
      forall i | 0 <= i < Total(c) ensures Placed(was, tx[..], c, moved, i) {
        PlacedFromEarlier(was, two, tx[..], c, moved, i);
      }
    }
  }

  /** The untouched bytes of a slot are those from before the header was written. */
  lemma PlacedFromEarlier(was: seq<Byte>, a: seq<Byte>, b: seq<Byte>, c: Call, moved: seq<Option<Internal>>, i: nat)
    requires i < Total(c) && |moved| == |c.args|
    requires Placed(a, b, c, moved, i)
    requires Agree(was, a, DescAt(0), DescAt(Total(c))) && Agree(was, a, PayloadStart(Total(c)), |a|)
    ensures Placed(was, b, c, moved, i)
  {
    hide BufPiece, HandlePiece, Offset, RpraBytes, Holds;
    RoomBeforePayload(c, moved, i);
  }
}
