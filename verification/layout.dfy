/** The layout of an invoke message: which bytes each argument takes and what they are. */
module Layout {
  import opened Wrappers
  import opened Wire

  const PAGE_SIZE := 4096
  const M_FDLIST := 16
  const M_CRCLIST := 64
  const M_DSP_PERF_LIST := 12

  // Sizes of the packed structures on the wire.
  const SIZEOF_INVOKE_MSG := 46
  const SIZEOF_RPRA := 40
  const SIZEOF_MAPPING := 32
  const SIZEOF_SGL := 16

  const ATTR_ION := 1
  const ATTR_INTERNAL := 2
  const ATTR_KEEP_MAP := 4
  const MAP_ATTR_CACHED := 1

  datatype Sg = Sg(pv: U64, len: U64)

  /** A mapping as it is described to the backend; `size` is the size of its dma-buf. */
  datatype MapInfo = MapInfo(fd: int, refs: int, va: U64, len: U64, size: U64, sgl: seq<Sg>)

  /** An internal buffer; `mem` is what it holds when it is allocated. */
  datatype Internal = Internal(va: U64, mem: seq<Byte>, sgl: seq<Sg>)

  /** What the calls made for one buffer argument answer: creating its mapping, allocating an
      internal buffer, finding the area of its mapping, copying from the user. */
  datatype Fate = Fate(mapOk: bool, offer: Option<Internal>, vmStart: Option<U64>, copyOk: bool)

  /** A buffer argument. `ion` is the mapping of the buffer passed with it, `data` the bytes in
      the user's memory. */
  datatype Arg = Arg(len: U64, pv: U64, keepMap: bool, ion: Option<MapInfo>, data: seq<Byte>, fate: Fate)

  /** A DMA handle argument. */
  datatype Handle = Handle(len: U64, pv: U64, mapping: Option<MapInfo>, mapOk: bool)

  datatype Call = Call(args: seq<Arg>, inbufs: nat, handles: seq<Handle>)

  /** A descriptor (`struct virt_fastrpc_buf`). */
  datatype Rpra = Rpra(attrs: nat, crc: nat, pv: nat, bufLen: nat, offset: nat, payloadLen: nat)

  /** What the fill pass does for one argument: its descriptor, the bytes it takes in the
      payload, and what it writes there. */
  datatype Piece = Piece(desc: Option<Rpra>, len: nat, image: Option<seq<Byte>>)

  /** The size that is asked of an internal buffer; one from the cache may be larger. */
  function PageAlign(n: nat): nat { (n + PAGE_SIZE - 1) / PAGE_SIZE * PAGE_SIZE }

  function SizeOfMapping(nents: nat): nat { SIZEOF_MAPPING + nents * SIZEOF_SGL }

  function Total(c: Call): nat { |c.args| + |c.handles| }

  ghost predicate CallOk(c: Call) {
    && c.inbufs <= |c.args|
    && (forall i :: 0 <= i < |c.args| ==> |c.args[i].data| == c.args[i].len)
    && (forall i :: 0 <= i < |c.args| && c.args[i].fate.offer.Some? ==>
          |c.args[i].fate.offer.value.mem| >= PageAlign(c.args[i].len))
  }

  /** Rounding up to pages makes room for the argument, and wastes less than a page. */
  lemma AlignedFits(n: nat)
    ensures n <= PageAlign(n) < n + PAGE_SIZE && PageAlign(n) % PAGE_SIZE == 0
  {
  }

  /** A mapping is created only for a non-empty argument. */
  predicate IsIon(a: Arg) { a.len > 0 && a.ion.Some? }

  /** Large plain arguments move to internal buffers when the message would be too big. */
  predicate Moves(a: Arg) { !IsIon(a) && a.len >= PAGE_SIZE }

  // ---------------------------------------------------------------- wire images

  function SglBytes(sgl: seq<Sg>): (r: seq<Byte>)
    ensures |r| == |sgl| * SIZEOF_SGL
  {
    if sgl == [] then []
    else SglBytes(sgl[..|sgl| - 1]) + LittleEndian(sgl[|sgl| - 1].pv, 8) + LittleEndian(sgl[|sgl| - 1].len, 8)
  }

  function MappingBytes(fd: int, refs: int, va: U64, len: nat, sgl: seq<Sg>): (r: seq<Byte>)
    ensures |r| == SizeOfMapping(|sgl|)
  {
    LittleEndian(Unsigned32(fd), 4) + LittleEndian(Unsigned32(refs), 4) + LittleEndian(va, 8) + LittleEndian(len, 8)
    + LittleEndian(MAP_ATTR_CACHED, 4) + LittleEndian(|sgl|, 4) + SglBytes(sgl)
  }

  function RpraBytes(r: Rpra): (b: seq<Byte>)
    ensures |b| == SIZEOF_RPRA
  {
    LittleEndian(r.attrs, 4) + LittleEndian(r.crc, 4) + LittleEndian(r.pv, 8)
    + LittleEndian(r.bufLen, 8) + LittleEndian(r.offset, 8) + LittleEndian(r.payloadLen, 8)
  }

  // ---------------------------------------------------------------- the pieces

  /** Distance of an argument from the start of the area its mapping was found in, as the
      unsigned subtraction gives it. */
  function OffsetInArea(a: Arg): U64
    requires a.fate.vmStart.Some?
  {
    (a.pv - a.fate.vmStart.value) % U64_LIMIT
  }

  /** The range test, on unsigned sums. */
  predicate RangeOk(a: Arg)
    requires IsIon(a)
  {
    a.fate.vmStart.Some? && (OffsetInArea(a) + a.len) % U64_LIMIT <= a.ion.value.size
  }

  function BufPiece(a: Arg, moved: Option<Internal>, input: bool): Piece {
    if IsIon(a) then
      var m := a.ion.value;
      Piece(Some(Rpra(if a.keepMap then ATTR_ION + ATTR_KEEP_MAP else ATTR_ION, 0, a.pv, a.len,
                      if a.fate.vmStart.Some? then OffsetInArea(a) else 0, SizeOfMapping(|m.sgl|))),
            SizeOfMapping(|m.sgl|), Some(MappingBytes(m.fd, m.refs, m.va, m.len, m.sgl)))
    else if moved.Some? then
      var b := moved.value;
      Piece(Some(Rpra(ATTR_INTERNAL, 0, a.pv, a.len, 0, SizeOfMapping(|b.sgl|))),
            SizeOfMapping(|b.sgl|), Some(MappingBytes(-1, 1, b.va, |b.mem|, b.sgl)))
    else
      Piece(Some(Rpra(0, 0, a.pv, a.len, 0, a.len)), a.len, if input then Some(a.data) else None)
  }

  /** A handle without a mapping gets no descriptor and no room. */
  function HandlePiece(h: Handle): Piece {
    if h.mapping.None? then Piece(None, 0, None)
    else
      var m := h.mapping.value;
      Piece(Some(Rpra(ATTR_ION, 0, 0, h.len, h.pv, SizeOfMapping(|m.sgl|))),
            SizeOfMapping(|m.sgl|), Some(MappingBytes(m.fd, m.refs, m.va, h.len, m.sgl)))
  }

  function PieceOf(c: Call, moved: seq<Option<Internal>>, i: nat): Piece
    requires i < Total(c) && |moved| == |c.args|
  {
    if i < |c.args| then BufPiece(c.args[i], moved[i], i < c.inbufs) else HandlePiece(c.handles[i - |c.args|])
  }

  /** Payload bytes taken by the first `n` arguments. */
  function Offset(c: Call, moved: seq<Option<Internal>>, n: nat): nat
    requires n <= Total(c) && |moved| == |c.args|
  {
    if n == 0 then 0 else Offset(c, moved, n - 1) + PieceOf(c, moved, n - 1).len
  }

  // ---------------------------------------------------------------- the whole message

  function DescAt(i: nat): nat { SIZEOF_INVOKE_MSG + i * SIZEOF_RPRA }

  /** Where the payload starts, following the pointers through the message. */
  function PayloadStart(total: nat): nat {
    var fdlist := DescAt(total);
    var crclist := fdlist + 8 * M_FDLIST;
    var earlyHint := crclist + 4 * M_CRCLIST;
    var perfList := earlyHint + 4;
    perfList + 8 * M_DSP_PERF_LIST
  }

  /** `metalen` as the sizing pass adds it up. */
  function MetaLen(total: nat): nat {
    SIZEOF_INVOKE_MSG + total * SIZEOF_RPRA + 8 * M_FDLIST + 4 * M_CRCLIST + 4 + 8 * M_DSP_PERF_LIST
  }

  const LISTS_LEN := 8 * M_FDLIST + 4 * M_CRCLIST + 8 * M_DSP_PERF_LIST + 4

  function SlotAt(c: Call, moved: seq<Option<Internal>>, i: nat): nat
    requires i <= Total(c) && |moved| == |c.args|
  {
    PayloadStart(Total(c)) + Offset(c, moved, i)
  }

  function NoneMoved(n: nat): (r: seq<Option<Internal>>)
    ensures |r| == n
  {
    seq(n, _ => None)
  }

  /** The inline message would not fit into a buffer of `bufSize` bytes. */
  predicate TooBig(c: Call, bufSize: nat) {
    MetaLen(Total(c)) + Offset(c, NoneMoved(|c.args|), Total(c)) > bufSize
  }

  /** Which arguments are moved, and to what. */
  function MovedTo(c: Call, big: bool, i: nat): Option<Internal>
    requires i < |c.args|
  {
    if big && Moves(c.args[i]) then c.args[i].fate.offer else None
  }

  /** The slots follow each other without gap or overlap. */
  lemma {:induction false} SlotsInOrder(c: Call, moved: seq<Option<Internal>>, i: nat, j: nat)
    requires i < j <= Total(c) && |moved| == |c.args|
    ensures SlotAt(c, moved, i) + PieceOf(c, moved, i).len == SlotAt(c, moved, i + 1) <= SlotAt(c, moved, j)
  {
    hide BufPiece, HandlePiece, PayloadStart;
    if i + 1 < j { SlotsInOrder(c, moved, i, j - 1); }
  }

  lemma {:induction false} OffsetIgnoresLater(c: Call, a: seq<Option<Internal>>, b: seq<Option<Internal>>, n: nat)
    requires |a| == |b| == |c.args| && n <= |c.args|
    requires forall j :: 0 <= j < n ==> a[j] == b[j]
    ensures Offset(c, a, n) == Offset(c, b, n)
  {
    hide BufPiece, HandlePiece, PayloadStart;
    if n > 0 { OffsetIgnoresLater(c, a, b, n - 1); }
  }

  /** Handles take the same room whatever was moved. */
  lemma {:induction false} HandleRoom(c: Call, a: seq<Option<Internal>>, b: seq<Option<Internal>>, n: nat)
    requires |a| == |b| == |c.args| <= n <= Total(c)
    ensures Offset(c, a, n) - Offset(c, a, |c.args|) == Offset(c, b, n) - Offset(c, b, |c.args|)
  {
    hide BufPiece, HandlePiece, PayloadStart;
    if n > |c.args| { HandleRoom(c, a, b, n - 1); }
  }
}
