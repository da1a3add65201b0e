/** The polling coordinator: it reads the three register spaces in blocks,
    keeps the catalogue's addresses, derives COP, heat output and delta-T,
    and writes single holding registers.

    The Modbus transport is a `Link`: the outcome of connecting, a function
    from a block request `(start, count)` to the outcome of that read for each
    space, and a function from `(register, value)` to the outcome of a write.
    Each method returns, besides its result, the sequence of transport
    operations it performed, so that the order of connect, reads, writes,
    refresh requests and close can be stated. */
module Poller {
  import opened Wrappers
  import opened Registers
  import opened RegisterFacts
  import opened Words

  /** Addresses per block request. */
  const ChunkSize: nat := 20

  /** The fetch as a whole must finish within this many seconds. */
  const FetchTimeout: real := 30.0

  /** The flow rate (litres per minute) the coordinator assumes when the
      configuration gives none. */
  const DefaultFlowRateLpm: real := 10.0

  /** The outcome of reading one block: the words (or coil bits) returned, or
      a failure.  An error response and a raised exception are handled alike
      (logged and skipped), so both are `Failed`. */
  datatype ReadOutcome<W> = Delivered(items: seq<W>) | Failed

  datatype ConnectOutcome = Connected | Refused | ConnectRaised

  datatype WriteOutcome = WriteAccepted | WriteRejected | WriteRaised

  datatype Link = Link(
    connect: ConnectOutcome,
    readInput: (int, int) -> ReadOutcome<Word>,
    readHolding: (int, int) -> ReadOutcome<Word>,
    readCoils: (int, int) -> ReadOutcome<bool>,
    write: (int, int) -> WriteOutcome,
    /** Whether requesting a refresh after an accepted write raises. */
    refreshRaises: bool)

  /** One holding-register write an entity asks the coordinator for. */
  datatype WriteRequest = WriteRequest(register: int, value: int)

  datatype Space = InputSpace | HoldingSpace | CoilSpace

  datatype Op =
    | Connect
    | Read(space: Space, start: int, count: int)
    | WriteOp(register: int, value: int)
    | RequestRefresh
    | Close

  /** Why a refresh failed. */
  datatype UpdateFailed = NotConnected | ConnectError | TimedOut

  /** What one successful fetch yields.  `calculated` holds the derived values
      keyed `"cop"`, `"heat_output_w"` and `"delta_t"`. */
  datatype Snapshot = Snapshot(
    inputRegisters: map<int, int>,
    holdingRegisters: map<int, int>,
    coilRegisters: map<int, bool>,
    lastUpdate: real,
    calculated: map<string, real>)

  // ---------------------------------------------------------------------
  // Block partitioning

  /** Python's `min` of a non-empty list. */
  function Min(s: seq<int>): (m: int)
    requires |s| > 0
    ensures m in s && forall x :: x in s ==> m <= x
  {
    if |s| == 1 then s[0]
    else
      var rest := Min(s[1..]);
      assert forall x :: x in s ==> x == s[0] || x in s[1..];
      if s[0] <= rest then s[0] else rest
  }

  /** Python's `max` of a non-empty list. */
  function Max(s: seq<int>): (m: int)
    requires |s| > 0
    ensures m in s && forall x :: x in s ==> x <= m
  {
    if |s| == 1 then s[0]
    else
      var rest := Max(s[1..]);
      assert forall x :: x in s ==> x == s[0] || x in s[1..];
      if s[0] >= rest then s[0] else rest
  }

  /** The end of the chunk that starts at `i`. */
  function ChunkEnd(ids: seq<int>, i: nat): (e: nat)
    ensures e <= |ids|
    ensures i < |ids| ==> i < e
  {
    if i + ChunkSize <= |ids| then i + ChunkSize else |ids|
  }

  /** `register_ids[i:i + chunk_size]`. */
  function Chunk(ids: seq<int>, i: nat): (c: seq<int>)
    requires i < |ids|
    ensures 0 < |c| <= ChunkSize
  {
    ids[i .. ChunkEnd(ids, i)]
  }

  /** The block read for the chunk at `i`: from its least to its greatest
      address, inclusive, as `(start, count)`. */
  function BlockRequest(ids: seq<int>, i: nat): (r: (int, int))
    requires i < |ids|
  {
    var c := Chunk(ids, i);
    (Min(c), Max(c) - Min(c) + 1)
  }

  /** A chunk's block starts and ends at ids of the chunk, is never empty and
      covers every id of the chunk. */
  lemma BlockSpan(ids: seq<int>, i: nat)
    requires i < |ids|
    ensures var r := BlockRequest(ids, i);
      && r.1 >= 1 && r.0 in Chunk(ids, i) && r.0 + r.1 - 1 in Chunk(ids, i)
      && forall x :: x in Chunk(ids, i) ==> r.0 <= x <= r.0 + r.1 - 1
  {
  }

  /** How many chunks an id list splits into. */
  function NumChunks(ids: seq<int>): nat
  {
    (|ids| + ChunkSize - 1) / ChunkSize
  }

  /** The block requests for the first `k` chunks, in order. */
  function Requests(ids: seq<int>, k: nat): (rs: seq<(int, int)>)
    requires k <= NumChunks(ids)
    ensures |rs| == k
    ensures forall j :: 0 <= j < k ==> j * ChunkSize < |ids| && rs[j] == BlockRequest(ids, j * ChunkSize)
  {
    if k == 0 then [] else Requests(ids, k - 1) + [BlockRequest(ids, (k - 1) * ChunkSize)]
  }

  // ---------------------------------------------------------------------
  // What a block contributes

  /** The values stored from the first `j` positions of a delivered block
      that starts at `start`: a position is kept when its address is a
      catalogue key and the block returned an item for it. */
  function Partial<W, V>(start: int, j: int, items: seq<W>, isKey: int -> bool, decode: W -> V): map<int, V>
  {
    map r | start <= r < start + j && isKey(r) && r - start < |items| :: decode(items[r - start])
  }

  /** The values one block read contributes; nothing when it failed. */
  function BlockValues<W, V>(start: int, count: int, outcome: ReadOutcome<W>, isKey: int -> bool, decode: W -> V): (m: map<int, V>)
    ensures outcome.Failed? ==> m == map[]
  {
    match outcome
    case Failed => map[]
    case Delivered(items) => Partial(start, count, items, isKey, decode)
  }

  /** The maps merged in order, a later one overriding an earlier one at the
      same address, as successive dictionary assignments do. */
  function Merge<V>(parts: seq<map<int, V>>): map<int, V>
  {
    if |parts| == 0 then map[] else Merge(parts[..|parts| - 1]) + parts[|parts| - 1]
  }

  /** The values the block of chunk `j` contributes. */
  function ChunkValues<W, V>(ids: seq<int>, j: nat, read: (int, int) -> ReadOutcome<W>, isKey: int -> bool, decode: W -> V): map<int, V>
    requires j < NumChunks(ids)
  {
    var (start, count) := BlockRequest(ids, j * ChunkSize);
    BlockValues(start, count, read(start, count), isKey, decode)
  }

  /** The blocks' values for the first `k` chunks, in order. */
  function Blocks<W, V>(ids: seq<int>, k: nat, read: (int, int) -> ReadOutcome<W>, isKey: int -> bool, decode: W -> V): (bs: seq<map<int, V>>)
    requires k <= NumChunks(ids)
    ensures |bs| == k
    ensures forall j :: 0 <= j < k ==> bs[j] == ChunkValues(ids, j, read, isKey, decode)
  {
    if k == 0 then [] else Blocks(ids, k - 1, read, isKey, decode) + [ChunkValues(ids, k - 1, read, isKey, decode)]
  }

  /** The values collected from the first `k` chunks. */
  function Polled<W, V>(ids: seq<int>, k: nat, read: (int, int) -> ReadOutcome<W>, isKey: int -> bool, decode: W -> V): map<int, V>
    requires k <= NumChunks(ids)
  {
    Merge(Blocks(ids, k, read, isKey, decode))
  }

  lemma MergeStep<V>(parts: seq<map<int, V>>, m: map<int, V>)
    ensures Merge(parts + [m]) == Merge(parts) + m
  {
    assert (parts + [m])[..|parts|] == parts;
  }

  /** Reading chunk `k` adds its request and its block's values. */
  lemma ChunkStep<W, V>(ids: seq<int>, k: nat, read: (int, int) -> ReadOutcome<W>, isKey: int -> bool, decode: W -> V,
                        start: int, count: int)
    requires k < NumChunks(ids) && k * ChunkSize < |ids|
    requires (start, count) == BlockRequest(ids, k * ChunkSize)
    ensures Polled(ids, k + 1, read, isKey, decode) == Polled(ids, k, read, isKey, decode) + BlockValues(start, count, read(start, count), isKey, decode)
    ensures Requests(ids, k + 1) == Requests(ids, k) + [(start, count)]
  {
    assert (k + 1 - 1) * ChunkSize == k * ChunkSize;
    MergeStep(Blocks(ids, k, read, isKey, decode), ChunkValues(ids, k, read, isKey, decode));
  }

  lemma PartialStep<W, V>(start: int, j: int, items: seq<W>, isKey: int -> bool, decode: W -> V)
    requires 0 <= j
    ensures Partial(start, j + 1, items, isKey, decode) ==
      if isKey(start + j) && j < |items| then Partial(start, j, items, isKey, decode)[start + j := decode(items[j])]
      else Partial(start, j, items, isKey, decode)
  {
  }

  lemma UnionUpdate<V>(a: map<int, V>, b: map<int, V>, r: int, v: V)
    ensures (a + b)[r := v] == a + b[r := v]
  {
  }

  /** The inner loop over one delivered block: position `j` holds address
      `start + j`, stored when it is a catalogue key and the block returned an
      item for it. */
  method StoreBlock<W, V>(values: map<int, V>, start: int, count: int, items: seq<W>, isKey: int -> bool, decode: W -> V)
    returns (stored: map<int, V>)
    requires 0 <= count
    ensures stored == values + Partial(start, count, items, isKey, decode)
  {
    stored := values;
    var j := 0;
    while j < count
      invariant 0 <= j <= count
      invariant stored == values + Partial(start, j, items, isKey, decode)
    {
      var r := start + j;
      ghost var before := Partial(start, j, items, isKey, decode);
      PartialStep(start, j, items, isKey, decode);
      if isKey(r) && j < |items| {
        var v := decode(items[j]);
        UnionUpdate(values, before, r, v);
        assert Partial(start, j + 1, items, isKey, decode) == before[r := v];
        stored := stored[r := v];
      } else {
        assert Partial(start, j + 1, items, isKey, decode) == before;
      }
      j := j + 1;
    }
  }

  /** Chunk starts advance by the chunk size until they pass the end. */
  lemma ChunkCount(n: nat, k: nat)
    requires k * ChunkSize < n
    ensures k < (n + ChunkSize - 1) / ChunkSize
    ensures (k + 1) * ChunkSize >= n ==> k + 1 == (n + ChunkSize - 1) / ChunkSize
  {
  }

  lemma UnionEmpty<V>(a: map<int, V>)
    ensures a + map[] == a
  {
  }

  /** One chunk's block read: the request made and the values it adds. */
  method ReadChunk<W, V>(ids: seq<int>, k: nat, values: map<int, V>, isKey: int -> bool, read: (int, int) -> ReadOutcome<W>, decode: W -> V)
    returns (next: map<int, V>, request: (int, int))
    requires k < NumChunks(ids) && k * ChunkSize < |ids|
    requires values == Polled(ids, k, read, isKey, decode)
    ensures next == Polled(ids, k + 1, read, isKey, decode)
    ensures Requests(ids, k + 1) == Requests(ids, k) + [request]
  {
    var (start, count) := BlockRequest(ids, k * ChunkSize);
    ChunkStep(ids, k, read, isKey, decode, start, count);
    request := (start, count);
    var outcome := read(start, count);
    match outcome {
      case Delivered(items) =>
        next := StoreBlock(values, start, count, items, isKey, decode);
      case Failed =>
        UnionEmpty(values);
        next := values;
    }
  }

  /** One Modbus space read chunk by chunk: each chunk of at most 20 ids
      becomes one block request, every request is made whatever became of the
      earlier ones, and the values of the delivered blocks are collected. */
  method ReadSpace<W, V>(ids: seq<int>, isKey: int -> bool, read: (int, int) -> ReadOutcome<W>, decode: W -> V)
    returns (values: map<int, V>, requests: seq<(int, int)>)
    ensures values == Polled(ids, NumChunks(ids), read, isKey, decode)
    ensures requests == Requests(ids, NumChunks(ids))
  {
    values := map[];
    requests := [];
    var k: nat := 0;
    while k * ChunkSize < |ids|
      invariant k <= NumChunks(ids)
      invariant k * ChunkSize >= |ids| ==> k == NumChunks(ids)
      invariant values == Polled(ids, k, read, isKey, decode)
      invariant requests == Requests(ids, k)
      decreases |ids| - k * ChunkSize
    {
      ChunkCount(|ids|, k);
      var request;
      values, request := ReadChunk(ids, k, values, isKey, read, decode);
      requests := requests + [request];
      k := k + 1;
    }
  }

  // ---------------------------------------------------------------------
  // Properties of merging

  /** What every part's keys satisfy, the merged keys satisfy. */
  lemma {:induction false} MergeKeys<V>(parts: seq<map<int, V>>, P: int -> bool)
    requires forall j, r :: 0 <= j < |parts| && r in parts[j] ==> P(r)
    ensures forall r :: r in Merge(parts) ==> P(r)
  {
    if |parts| > 0 {
      MergeKeys(parts[..|parts| - 1], P);
    }
  }

  /** What every part's values satisfy, the merged values satisfy. */
  lemma {:induction false} MergeValues<V>(parts: seq<map<int, V>>, P: V -> bool)
    requires forall j, r :: 0 <= j < |parts| && r in parts[j] ==> P(parts[j][r])
    ensures forall r :: r in Merge(parts) ==> P(Merge(parts)[r])
  {
    if |parts| > 0 {
      var init := parts[..|parts| - 1];
      MergeValues(init, P);
      forall r | r in Merge(parts)
        ensures P(Merge(parts)[r])
      {
        if r !in parts[|parts| - 1] {
          assert Merge(parts)[r] == Merge(init)[r];
        }
      }
    }
  }

  /** An address that only part `c` can hold is merged exactly when part `c`
      exists and holds it, with that part's value. */
  lemma {:induction false} MergeMember<V>(parts: seq<map<int, V>>, x: int, c: int)
    requires forall j :: 0 <= j < |parts| && x in parts[j] ==> j == c
    ensures x in Merge(parts) <==> 0 <= c < |parts| && x in parts[c]
    ensures x in Merge(parts) ==> Merge(parts)[x] == parts[c][x]
  {
    if |parts| > 0 {
      var init := parts[..|parts| - 1];
      MergeMember(init, x, c);
      if 0 <= c < |parts| - 1 {
        assert init[c] == parts[c];
      }
    }
  }

  // ---------------------------------------------------------------------
  // Properties of the poll

  /** Only catalogue addresses are ever stored. */
  lemma PolledKeys<W, V>(ids: seq<int>, k: nat, read: (int, int) -> ReadOutcome<W>, isKey: int -> bool, decode: W -> V)
    requires k <= NumChunks(ids)
    ensures forall r :: r in Polled(ids, k, read, isKey, decode) ==> isKey(r)
  {
    MergeKeys(Blocks(ids, k, read, isKey, decode), isKey);
  }

  /** Whatever holds of every decoded word holds of every stored value. */
  lemma PolledValues<W, V>(ids: seq<int>, k: nat, read: (int, int) -> ReadOutcome<W>, isKey: int -> bool, decode: W -> V, P: V -> bool)
    requires k <= NumChunks(ids)
    requires forall w :: P(decode(w))
    ensures forall r :: r in Polled(ids, k, read, isKey, decode) ==> P(Polled(ids, k, read, isKey, decode)[r])
  {
    var bs := Blocks(ids, k, read, isKey, decode);
    forall j | 0 <= j < |bs|
      ensures forall r :: r in bs[j] ==> P(bs[j][r])
    {
      var req := BlockRequest(ids, j * ChunkSize);
      BlockValuesHold(req.0, req.1, read(req.0, req.1), isKey, decode, P);
    }
    MergeValues(bs, P);
  }

  /** Every value a block contributes is a decoded word. */
  lemma BlockValuesHold<W, V>(start: int, count: int, outcome: ReadOutcome<W>, isKey: int -> bool, decode: W -> V, P: V -> bool)
    requires forall w :: P(decode(w))
    ensures forall r :: r in BlockValues(start, count, outcome, isKey, decode) ==> P(BlockValues(start, count, outcome, isKey, decode)[r])
  {
  }

  /** For ascending ids a chunk's block runs from its first to its last id. */
  lemma AscendingBlock(ids: seq<int>, i: nat)
    requires Ascending(ids) && i < |ids|
    ensures BlockRequest(ids, i) == (ids[i], ids[ChunkEnd(ids, i) - 1] - ids[i] + 1)
  {
    var c := Chunk(ids, i);
    var e := ChunkEnd(ids, i);
    assert |c| == e - i;
    var lo :| 0 <= lo < |c| && c[lo] == Min(c);
    var hi :| 0 <= hi < |c| && c[hi] == Max(c);
    assert c[lo] == ids[i + lo] && c[hi] == ids[i + hi];
    assert c[0] == ids[i] && c[|c| - 1] == ids[e - 1];
    assert c[0] in c && c[|c| - 1] in c;
  }

  /** For ascending ids, an id falls inside the block of chunk `k` exactly
      when it belongs to that chunk. */
  lemma AscendingBlockMembers(ids: seq<int>, k: nat, p: nat)
    requires Ascending(ids) && k * ChunkSize < |ids| && p < |ids|
    ensures var req := BlockRequest(ids, k * ChunkSize);
      req.0 <= ids[p] < req.0 + req.1 <==> p / ChunkSize == k
  {
    var i := k * ChunkSize;
    var e := ChunkEnd(ids, i);
    AscendingBlock(ids, i);
    assert i <= p < e <==> p / ChunkSize == k;
  }

  /** Where the id at position `p` comes from: the block of its chunk. */
  function ChunkRequestOf(ids: seq<int>, p: nat): (req: (int, int))
    requires p < |ids|
    ensures req.0 <= ids[p]
  {
    var i := (p / ChunkSize) * ChunkSize;
    assert i <= p < i + ChunkSize;
    assert ids[p] in Chunk(ids, i) by { assert Chunk(ids, i)[p - i] == ids[p]; }
    BlockRequest(ids, i)
  }

  /** The block of the id at position `p` was delivered and long enough to
      hold that id's word. */
  predicate Stored<W>(ids: seq<int>, p: nat, read: (int, int) -> ReadOutcome<W>)
    requires p < |ids|
  {
    var req := ChunkRequestOf(ids, p);
    var outcome := read(req.0, req.1);
    outcome.Delivered? && ids[p] - req.0 < |outcome.items|
  }

  /** An address that is a catalogue key is in a block's values exactly when
      the block was delivered and covers it with an item. */
  lemma BlockMember<W, V>(start: int, count: int, outcome: ReadOutcome<W>, isKey: int -> bool, decode: W -> V, x: int)
    requires isKey(x)
    ensures x in BlockValues(start, count, outcome, isKey, decode) <==>
      start <= x < start + count && outcome.Delivered? && x - start < |outcome.items|
    ensures x in BlockValues(start, count, outcome, isKey, decode) ==>
      BlockValues(start, count, outcome, isKey, decode)[x] == decode(outcome.items[x - start])
  {
  }

  /** For ascending catalogue ids, the block of chunk `j` holds the id at
      position `p` exactly when `j` is that id's chunk and the block supplied
      it, and then holds its word. */
  lemma ChunkMember<W, V>(ids: seq<int>, j: nat, read: (int, int) -> ReadOutcome<W>, isKey: int -> bool, decode: W -> V, p: nat)
    requires Ascending(ids) && j < NumChunks(ids) && p < |ids| && isKey(ids[p])
    ensures ids[p] in ChunkValues(ids, j, read, isKey, decode) <==> j == p / ChunkSize && Stored(ids, p, read)
    ensures ids[p] in ChunkValues(ids, j, read, isKey, decode) ==>
      var req := ChunkRequestOf(ids, p);
      ChunkValues(ids, j, read, isKey, decode)[ids[p]] == decode(read(req.0, req.1).items[ids[p] - req.0])
  {
    var i := j * ChunkSize;
    assert i < |ids|;
    AscendingBlockMembers(ids, j, p);
    var req := BlockRequest(ids, i);
    BlockMember(req.0, req.1, read(req.0, req.1), isKey, decode, ids[p]);
    if j == p / ChunkSize {
      assert ChunkRequestOf(ids, p) == req;
    }
  }

  /** For ascending catalogue ids, after `k` chunks the id at position `p` has
      a value exactly when its chunk is among the first `k` and its block
      supplied it; the value is then that block's word for it.  So a failed
      block leaves out exactly its own ids and nothing else. */
  lemma PolledMembers<W, V>(ids: seq<int>, k: nat, read: (int, int) -> ReadOutcome<W>, isKey: int -> bool, decode: W -> V, p: nat)
    requires Ascending(ids) && forall q :: 0 <= q < |ids| ==> isKey(ids[q])
    requires k <= NumChunks(ids) && p < |ids|
    ensures ids[p] in Polled(ids, k, read, isKey, decode) <==> p / ChunkSize < k && Stored(ids, p, read)
    ensures ids[p] in Polled(ids, k, read, isKey, decode) ==>
      var req := ChunkRequestOf(ids, p);
      Polled(ids, k, read, isKey, decode)[ids[p]] == decode(read(req.0, req.1).items[ids[p] - req.0])
  {
    assert isKey(ids[p]);
    var bs := Blocks(ids, k, read, isKey, decode);
    var c := p / ChunkSize;
    forall j | 0 <= j < |bs| && ids[p] in bs[j]
      ensures j == c
    {
      ChunkMember(ids, j, read, isKey, decode, p);
    }
    MergeMember(bs, ids[p], c);
    ChunkMember(ids, c, read, isKey, decode, p);
  }

  // ---------------------------------------------------------------------
  // The three spaces

  predicate IsInputKey(r: int) { InputRegister(r).Some? }

  predicate IsHoldingKey(r: int) { HoldingRegister(r).Some? }

  predicate IsCoilKey(r: int) { Coil(r).Some? }

  /** Coil bits are stored as they come. */
  function CoilBit(b: bool): bool { b }

  /** The input-register values a poll collects, given the device's answers. */
  function InputValues(read: (int, int) -> ReadOutcome<Word>): map<int, int>
  {
    Polled(InputRegisterIds, NumChunks(InputRegisterIds), read, IsInputKey, Signed16)
  }

  function HoldingValues(read: (int, int) -> ReadOutcome<Word>): map<int, int>
  {
    Polled(HoldingRegisterIds, NumChunks(HoldingRegisterIds), read, IsHoldingKey, Signed16)
  }

  function CoilValues(read: (int, int) -> ReadOutcome<bool>): map<int, bool>
  {
    Polled(CoilRegisterIds, NumChunks(CoilRegisterIds), read, IsCoilKey, CoilBit)
  }

  /** Requests for a list shaped like the input ids. */
  lemma InputShapedRequests(ids: seq<int>)
    requires |ids| == 21 && Ascending(ids)
    requires forall i :: 0 <= i < 20 ==> ids[i] == i
    requires ids[20] == 32
    ensures NumChunks(ids) == 2
    ensures Requests(ids, 2) == [(0, 20), (32, 1)]
  {
    AscendingBlock(ids, 0);
    AscendingBlock(ids, 20);
    assert Requests(ids, 1) == [(0, 20)];
  }

  /** The input catalogue is read as addresses 0 to 19 in one block and 32 alone. */
  lemma InputRequests()
    ensures NumChunks(InputRegisterIds) == 2
    ensures Requests(InputRegisterIds, 2) == [(0, 20), (32, 1)]
  {
    InputIdsShape();
    InputShapedRequests(InputRegisterIds);
  }

  /** The first three blocks of a list shaped like the holding ids. */
  lemma HoldingShapedBlocksLow(ids: seq<int>)
    requires |ids| == 97 && Ascending(ids)
    requires forall i :: 0 <= i < 95 ==> ids[i] == i + 2
    ensures BlockRequest(ids, 0) == (2, 20) && BlockRequest(ids, 20) == (22, 20) && BlockRequest(ids, 40) == (42, 20)
  {
    assert ChunkEnd(ids, 0) == 20 && ids[0] == 2 && ids[19] == 21;
    AscendingBlock(ids, 0);
    assert ChunkEnd(ids, 20) == 40 && ids[20] == 22 && ids[39] == 41;
    AscendingBlock(ids, 20);
    assert ChunkEnd(ids, 40) == 60 && ids[40] == 42 && ids[59] == 61;
    AscendingBlock(ids, 40);
  }

  /** The last two blocks of a list shaped like the holding ids. */
  lemma HoldingShapedBlocksHigh(ids: seq<int>)
    requires |ids| == 97 && Ascending(ids)
    requires forall i :: 0 <= i < 95 ==> ids[i] == i + 2
    requires ids[95] == 99 && ids[96] == 100
    ensures BlockRequest(ids, 60) == (62, 20) && BlockRequest(ids, 80) == (82, 19)
  {
    assert ChunkEnd(ids, 60) == 80 && ids[60] == 62 && ids[79] == 81;
    AscendingBlock(ids, 60);
    assert ChunkEnd(ids, 80) == 97;
    AscendingBlock(ids, 80);
  }

  /** Requests for a list of 97 ids with the holding ids' blocks. */
  lemma HoldingShapedRequests(ids: seq<int>)
    requires |ids| == 97
    requires BlockRequest(ids, 0) == (2, 20) && BlockRequest(ids, 20) == (22, 20) && BlockRequest(ids, 40) == (42, 20)
    requires BlockRequest(ids, 60) == (62, 20) && BlockRequest(ids, 80) == (82, 19)
    ensures NumChunks(ids) == 5
    ensures Requests(ids, 5) == [(2, 20), (22, 20), (42, 20), (62, 20), (82, 19)]
  {
    assert Requests(ids, 1) == [(2, 20)];
    assert Requests(ids, 2) == [(2, 20), (22, 20)];
    assert Requests(ids, 3) == [(2, 20), (22, 20), (42, 20)];
    assert Requests(ids, 4) == [(2, 20), (22, 20), (42, 20), (62, 20)];
  }

  /** The holding catalogue is read in five blocks, the last spanning the gap
      at 97 and 98. */
  lemma HoldingRequests()
    ensures NumChunks(HoldingRegisterIds) == 5
    ensures Requests(HoldingRegisterIds, 5) == [(2, 20), (22, 20), (42, 20), (62, 20), (82, 19)]
  {
    HoldingIdsShape();
    HoldingShapedBlocksLow(HoldingRegisterIds);
    HoldingShapedBlocksHigh(HoldingRegisterIds);
    HoldingShapedRequests(HoldingRegisterIds);
  }

  /** Requests for a list shaped like the coil ids. */
  lemma CoilShapedRequests(ids: seq<int>)
    requires |ids| == 32 && Ascending(ids)
    requires forall i :: 0 <= i < 32 ==> ids[i] == i + 1
    ensures NumChunks(ids) == 2
    ensures Requests(ids, 2) == [(1, 20), (21, 12)]
  {
    AscendingBlock(ids, 0);
    AscendingBlock(ids, 20);
    assert Requests(ids, 1) == [(1, 20)];
  }

  /** The coils are read as 1 to 20 and 21 to 32. */
  lemma CoilRequests()
    ensures NumChunks(CoilRegisterIds) == 2
    ensures Requests(CoilRegisterIds, 2) == [(1, 20), (21, 12)]
  {
    CoilIdsShape();
    CoilShapedRequests(CoilRegisterIds);
  }

  /** Polled input values are catalogue addresses with signed 16-bit values. */
  lemma InputValuesInRange(read: (int, int) -> ReadOutcome<Word>)
    ensures forall r :: r in InputValues(read) ==> InputRegister(r).Some? && InSigned16(InputValues(read)[r])
  {
    var ids := InputRegisterIds;
    PolledKeys(ids, NumChunks(ids), read, IsInputKey, Signed16);
    PolledValues(ids, NumChunks(ids), read, IsInputKey, Signed16, InSigned16);
  }

  /** Polled holding values are catalogue addresses (never the gap at 97 and
      98) with signed 16-bit values. */
  lemma HoldingValuesInRange(read: (int, int) -> ReadOutcome<Word>)
    ensures forall r :: r in HoldingValues(read) ==> HoldingRegister(r).Some? && InSigned16(HoldingValues(read)[r])
    ensures 97 !in HoldingValues(read) && 98 !in HoldingValues(read)
  {
    var ids := HoldingRegisterIds;
    PolledKeys(ids, NumChunks(ids), read, IsHoldingKey, Signed16);
    PolledValues(ids, NumChunks(ids), read, IsHoldingKey, Signed16, InSigned16);
    HoldingKeys();
  }

  /** Polled coils are catalogue addresses. */
  lemma CoilValuesKeys(read: (int, int) -> ReadOutcome<bool>)
    ensures forall r :: r in CoilValues(read) ==> Coil(r).Some?
  {
    PolledKeys(CoilRegisterIds, NumChunks(CoilRegisterIds), read, IsCoilKey, CoilBit);
  }

  /** For a list shaped like the input ids, addresses 0 to 19 depend on the
      first block alone. */
  lemma InputShapedLow(ids: seq<int>, read: (int, int) -> ReadOutcome<Word>, r: int)
    requires |ids| == 21 && Ascending(ids)
    requires forall i :: 0 <= i < 20 ==> ids[i] == i
    requires forall q :: 0 <= q < |ids| ==> IsInputKey(ids[q])
    requires 0 <= r <= 19
    ensures var values := Polled(ids, 2, read, IsInputKey, Signed16);
      && (r in values <==> read(0, 20).Delivered? && r < |read(0, 20).items|)
      && (r in values ==> values[r] == Signed16(read(0, 20).items[r]))
  {
    assert NumChunks(ids) == 2;
    assert ids[r] == r && r / ChunkSize == 0;
    assert ChunkRequestOf(ids, r) == (0, 20) by { AscendingBlock(ids, 0); }
    assert Stored(ids, r, read) <==> read(0, 20).Delivered? && r < |read(0, 20).items|;
    PolledMembers(ids, 2, read, IsInputKey, Signed16, r);
  }

  /** For a list shaped like the input ids, address 32 depends on the second
      block alone. */
  lemma InputShapedHigh(ids: seq<int>, read: (int, int) -> ReadOutcome<Word>)
    requires |ids| == 21 && Ascending(ids)
    requires ids[20] == 32
    requires forall q :: 0 <= q < |ids| ==> IsInputKey(ids[q])
    ensures 32 in Polled(ids, 2, read, IsInputKey, Signed16) <==> read(32, 1).Delivered? && 0 < |read(32, 1).items|
  {
    assert NumChunks(ids) == 2;
    assert ChunkRequestOf(ids, 20) == (32, 1) by { AscendingBlock(ids, 20); }
    PolledMembers(ids, 2, read, IsInputKey, Signed16, 20);
  }

  /** An input register at addresses 0 to 19 has a value exactly when the
      device delivered the first block with a word for it, and 32 exactly
      when the second block came back non-empty: a failed first block loses
      0 to 19 and nothing else. */
  lemma InputBlocksIndependent(read: (int, int) -> ReadOutcome<Word>, r: int)
    requires 0 <= r <= 19
    ensures r in InputValues(read) <==> read(0, 20).Delivered? && r < |read(0, 20).items|
    ensures r in InputValues(read) ==> InputValues(read)[r] == Signed16(read(0, 20).items[r])
    ensures 32 in InputValues(read) <==> read(32, 1).Delivered? && 0 < |read(32, 1).items|
  {
    InputIdsShape();
    InputRequests();
    InputKeys();
    InputShapedLow(InputRegisterIds, read, r);
    InputShapedHigh(InputRegisterIds, read);
  }

  // ---------------------------------------------------------------------
  // Derived values

  /** Heat output per litre per hour and kelvin, in watts. */
  const WattsPerLitreHourKelvin: real := 1.16

  /** The derivation's guard: flow (9) and return (0) temperatures present,
      positive electrical power (register 3 in units of 100 W, absent read as
      0) and a positive flow rate. */
  predicate CanDerive(inputs: map<int, int>, flowRateLpm: real)
  {
    9 in inputs && 0 in inputs && GetOr(inputs, 3, 0) * 100 > 0 && flowRateLpm * 60.0 > 0.0
  }

  /** COP, heat output and delta-T from the raw input words.  With the guard
      unmet nothing is derived. */
  function CalculateDerivedValues(inputs: map<int, int>, flowRateLpm: real): (r: map<string, real>)
    ensures CanDerive(inputs, flowRateLpm) <==> r.Keys == {"cop", "heat_output_w", "delta_t"}
    ensures !CanDerive(inputs, flowRateLpm) ==> r == map[]
    ensures CanDerive(inputs, flowRateLpm) ==>
      && r["delta_t"] == (inputs[9] - inputs[0]) as real
      && r["heat_output_w"] == flowRateLpm * 60.0 * WattsPerLitreHourKelvin * r["delta_t"]
      && r["cop"] * (inputs[3] * 100) as real == r["heat_output_w"]
  {
    var flowTemp := Get(inputs, 9);
    var returnTemp := Get(inputs, 0);
    var powerW := GetOr(inputs, 3, 0) * 100;
    var flowRateLph := flowRateLpm * 60.0;
    if flowTemp.Some? && returnTemp.Some? && powerW > 0 && flowRateLph > 0.0 then
      var deltaT := (flowTemp.value - returnTemp.value) as real;
      var heatOutputW := flowRateLph * WattsPerLitreHourKelvin * deltaT;
      var cop := heatOutputW / powerW as real;
      assert cop * powerW as real == heatOutputW;
      map["cop" := cop, "heat_output_w" := heatOutputW, "delta_t" := deltaT]
    else
      map[]
  }

  /** When derived, the COP, the heat output and delta-T all have the sign of
      flow minus return temperature: the COP is positive exactly when the flow
      is warmer than the return. */
  lemma DerivedSigns(inputs: map<int, int>, flowRateLpm: real)
    requires CanDerive(inputs, flowRateLpm)
    ensures var r := CalculateDerivedValues(inputs, flowRateLpm);
      && (r["cop"] > 0.0 <==> inputs[9] > inputs[0])
      && (r["heat_output_w"] > 0.0 <==> inputs[9] > inputs[0])
      && (r["cop"] == 0.0 <==> inputs[9] == inputs[0])
  {
    var r := CalculateDerivedValues(inputs, flowRateLpm);
    var power := (inputs[3] * 100) as real;
    var k := flowRateLpm * 60.0 * WattsPerLitreHourKelvin;
    assert power > 0.0 && k > 0.0;
    assert r["heat_output_w"] == k * r["delta_t"];
    SignOfProduct(k, r["delta_t"]);
    SignOfProduct(power, r["cop"]);
  }

  lemma SignOfProduct(a: real, b: real)
    requires a > 0.0
    ensures a * b > 0.0 <==> b > 0.0
    ensures a * b == 0.0 <==> b == 0.0
  {
    if b > 0.0 {
      assert a * b > 0.0;
    } else if b < 0.0 {
      assert a * -b > 0.0;
    }
  }

  // ---------------------------------------------------------------------
  // Fetching

  /** The transport operations that read the given block requests, in order. */
  function ReadOps(space: Space, rs: seq<(int, int)>): (ops: seq<Op>)
    ensures |ops| == |rs|
    ensures forall i :: 0 <= i < |rs| ==> ops[i] == Read(space, rs[i].0, rs[i].1)
  {
    if |rs| == 0 then [] else ReadOps(space, rs[..|rs| - 1]) + [Read(space, rs[|rs| - 1].0, rs[|rs| - 1].1)]
  }

  /** The block requests of the three spaces, in the order they are read. */
  const InputBlockRequests: seq<(int, int)> := [(0, 20), (32, 1)]
  const HoldingBlockRequests: seq<(int, int)> := [(2, 20), (22, 20), (42, 20), (62, 20), (82, 19)]
  const CoilBlockRequests: seq<(int, int)> := [(1, 20), (21, 12)]

  /** What a fetch returns: connection problems are errors; otherwise the
      three spaces' values, the time the fetch started and the derived values
      of the input registers. */
  function FetchResult(link: Link, flowRateLpm: real, now: real): (r: Result<Snapshot, UpdateFailed>)
  {
    match link.connect
    case Refused => Err(NotConnected)
    case ConnectRaised => Err(ConnectError)
    case Connected =>
      var inputs := InputValues(link.readInput);
      Ok(Snapshot(inputs, HoldingValues(link.readHolding), CoilValues(link.readCoils), now,
                  CalculateDerivedValues(inputs, flowRateLpm)))
  }

  /** The operations of a fetch: connect, the nine block reads when
      connected, and close whatever happened. */
  function FetchOps(link: Link): (ops: seq<Op>)
  {
    if link.connect.Connected? then
      [Connect] + ReadOps(InputSpace, InputBlockRequests) + ReadOps(HoldingSpace, HoldingBlockRequests)
        + ReadOps(CoilSpace, CoilBlockRequests) + [Close]
    else [Connect, Close]
  }

  /** A fetch succeeds exactly when the connection is made, and its snapshot
      holds only catalogue addresses with signed 16-bit words. */
  lemma FetchOutcome(link: Link, flowRateLpm: real, now: real)
    ensures FetchResult(link, flowRateLpm, now).Ok? <==> link.connect == Connected
    ensures link.connect == Refused ==> FetchResult(link, flowRateLpm, now) == Err(NotConnected)
    ensures link.connect == ConnectRaised ==> FetchResult(link, flowRateLpm, now) == Err(ConnectError)
    ensures FetchResult(link, flowRateLpm, now).Ok? ==>
      var snap := FetchResult(link, flowRateLpm, now).value;
      && snap.lastUpdate == now
      && (forall r :: r in snap.inputRegisters ==> InputRegister(r).Some? && InSigned16(snap.inputRegisters[r]))
      && (forall r :: r in snap.holdingRegisters ==> HoldingRegister(r).Some? && InSigned16(snap.holdingRegisters[r]))
      && (forall r :: r in snap.coilRegisters ==> Coil(r).Some?)
      && snap.calculated == CalculateDerivedValues(snap.inputRegisters, flowRateLpm)
  {
    InputValuesInRange(link.readInput);
    HoldingValuesInRange(link.readHolding);
    CoilValuesKeys(link.readCoils);
  }

  /** A connected fetch is eleven operations: connect, two input blocks,
      five holding blocks, two coil blocks, close; a failed connection is
      connect and close only. */
  lemma FetchOpsShape(link: Link)
    ensures link.connect.Connected? ==> FetchOps(link) == [
      Connect,
      Read(InputSpace, 0, 20), Read(InputSpace, 32, 1),
      Read(HoldingSpace, 2, 20), Read(HoldingSpace, 22, 20), Read(HoldingSpace, 42, 20),
      Read(HoldingSpace, 62, 20), Read(HoldingSpace, 82, 19),
      Read(CoilSpace, 1, 20), Read(CoilSpace, 21, 12),
      Close]
    ensures !link.connect.Connected? ==> FetchOps(link) == [Connect, Close]
  {
    if link.connect.Connected? {
      var a := ReadOps(InputSpace, InputBlockRequests);
      var b := ReadOps(HoldingSpace, HoldingBlockRequests);
      var c := ReadOps(CoilSpace, CoilBlockRequests);
      assert a == [Read(InputSpace, 0, 20), Read(InputSpace, 32, 1)];
      assert b == [Read(HoldingSpace, 2, 20), Read(HoldingSpace, 22, 20), Read(HoldingSpace, 42, 20),
                   Read(HoldingSpace, 62, 20), Read(HoldingSpace, 82, 19)];
      assert c == [Read(CoilSpace, 1, 20), Read(CoilSpace, 21, 12)];
    }
  }

  /** What a refresh under the 30-second limit yields. */
  function UpdateResult(link: Link, flowRateLpm: real, now: real, elapsed: real): (r: Result<Snapshot, UpdateFailed>)
  {
    if elapsed > FetchTimeout then Err(TimedOut) else FetchResult(link, flowRateLpm, now)
  }

  /** A fetch that overruns the limit fails as timed out whatever the device
      did; within the limit the fetch's own result stands. */
  lemma UpdateTimeout(link: Link, flowRateLpm: real, now: real, elapsed: real)
    ensures elapsed > FetchTimeout ==> UpdateResult(link, flowRateLpm, now, elapsed) == Err(TimedOut)
    ensures UpdateResult(link, flowRateLpm, now, elapsed).Ok? <==> elapsed <= FetchTimeout && link.connect == Connected
  {
  }

  /** The configured value: the options' one when set, else the entry data's,
      else the default. */
  function Configured<T>(options: Option<T>, data: Option<T>, default: T): (r: T)
    ensures options.Some? ==> r == options.value
    ensures options.None? && data.Some? ==> r == data.value
    ensures options.None? && data.None? ==> r == default
  {
    if options.Some? then options.value else data.GetOr(default)
  }

  /** Whether the device takes the write: connected and the write accepted. */
  predicate WriteTaken(link: Link, register: int, value: int)
  {
    link.connect == Connected && link.write(register, value) == WriteAccepted
  }

  /** The outcome of writing one holding register: success exactly when the
      device takes the write and the refresh request that follows does not
      raise (it sits inside the same `try`). */
  function WriteSucceeds(link: Link, register: int, value: int): (ok: bool)
  {
    WriteTaken(link, register, value) && !link.refreshRaises
  }

  /** The operations of a write: connect, the write when connected, a refresh
      request once the write is taken, and close whatever happened. */
  function WriteOps(link: Link, register: int, value: int): (ops: seq<Op>)
  {
    [Connect]
      + (if link.connect == Connected then [WriteOp(register, value)] else [])
      + (if WriteTaken(link, register, value) then [RequestRefresh] else [])
      + [Close]
  }

  /** A refresh is requested exactly after the device takes the write, the
      write is attempted exactly when connected, the connection is closed
      last, and the write reports success exactly when its refresh request
      was made and did not raise. */
  lemma WriteProtocol(link: Link, register: int, value: int)
    ensures var ops := WriteOps(link, register, value);
      && ops[0] == Connect && ops[|ops| - 1] == Close
      && (RequestRefresh in ops <==> WriteTaken(link, register, value))
      && (WriteSucceeds(link, register, value) <==> RequestRefresh in ops && !link.refreshRaises)
      && (WriteOp(register, value) in ops <==> link.connect == Connected)
      && (WriteTaken(link, register, value) ==> ops == [Connect, WriteOp(register, value), RequestRefresh, Close])
      && (link.connect != Connected ==> ops == [Connect, Close])
  {
    var ops := WriteOps(link, register, value);
    if link.connect == Connected && !WriteTaken(link, register, value) {
      assert ops == [Connect, WriteOp(register, value), Close];
    }
  }

  // ---------------------------------------------------------------------
  // The coordinator

  class Coordinator {
    /** The flow rate used for the derived values, litres per minute. */
    var flowRateLpm: real
    /** Seconds between refreshes. */
    var scanInterval: nat
    /** The last successful snapshot, if any. */
    var data: Option<Snapshot>
    var lastUpdateSuccess: bool
    /** An attribute only the flow-rate number entity sets; nothing reads it. */
    var flowRate: Option<real>

    /** Flow rate and scan interval come from the options, else the entry
        data, else their defaults. */
    constructor(optionsFlowRate: Option<real>, dataFlowRate: Option<real>, optionsScan: Option<nat>, dataScan: Option<nat>)
      ensures flowRateLpm == Configured(optionsFlowRate, dataFlowRate, DefaultFlowRateLpm)
      ensures scanInterval == Configured(optionsScan, dataScan, DefaultScanInterval)
      ensures data == None && !lastUpdateSuccess && flowRate == None
    {
      flowRateLpm := Configured(optionsFlowRate, dataFlowRate, DefaultFlowRateLpm);
      scanInterval := Configured(optionsScan, dataScan, DefaultScanInterval);
      data := None;
      lastUpdateSuccess := false;
      flowRate := None;
    }

    /** Reads the input registers block by block. */
    method ReadInputRegisters(link: Link) returns (values: map<int, int>, requests: seq<(int, int)>)
      ensures values == InputValues(link.readInput)
      ensures requests == InputBlockRequests
    {
      InputRequests();
      values, requests := ReadSpace(InputRegisterIds, IsInputKey, link.readInput, Signed16);
    }

    method ReadHoldingRegisters(link: Link) returns (values: map<int, int>, requests: seq<(int, int)>)
      ensures values == HoldingValues(link.readHolding)
      ensures requests == HoldingBlockRequests
    {
      HoldingRequests();
      values, requests := ReadSpace(HoldingRegisterIds, IsHoldingKey, link.readHolding, Signed16);
    }

    method ReadCoilRegisters(link: Link) returns (values: map<int, bool>, requests: seq<(int, int)>)
      ensures values == CoilValues(link.readCoils)
      ensures requests == CoilBlockRequests
    {
      CoilRequests();
      values, requests := ReadSpace(CoilRegisterIds, IsCoilKey, link.readCoils, CoilBit);
    }

    /** One fetch: connect, read the three spaces, derive, close. */
    method FetchData(link: Link, now: real) returns (result: Result<Snapshot, UpdateFailed>, ops: seq<Op>)
      ensures result == FetchResult(link, flowRateLpm, now)
      ensures ops == FetchOps(link)
    {
      ops := [Connect];
      match link.connect {
        case Refused =>
          result := Err(NotConnected);
        case ConnectRaised =>
          result := Err(ConnectError);
        case Connected =>
          var inputs, inputRequests := ReadInputRegisters(link);
          var holding, holdingRequests := ReadHoldingRegisters(link);
          var coils, coilRequests := ReadCoilRegisters(link);
          ops := ops + ReadOps(InputSpace, inputRequests) + ReadOps(HoldingSpace, holdingRequests) + ReadOps(CoilSpace, coilRequests);
          var calculated := CalculateDerivedValues(inputs, flowRateLpm);
          result := Ok(Snapshot(inputs, holding, coils, now, calculated));
      }
      ops := ops + [Close];
    }

    /** A fetch under the time limit; `elapsed` is how long the fetch took. */
    method UpdateData(link: Link, now: real, elapsed: real) returns (result: Result<Snapshot, UpdateFailed>)
      ensures result == UpdateResult(link, flowRateLpm, now, elapsed)
    {
      var fetched, _ := FetchData(link, now);
      if elapsed > FetchTimeout {
        result := Err(TimedOut);
      } else {
        result := fetched;
      }
    }

    /** A scheduled refresh: a success replaces the snapshot, a failure keeps
        the previous one and only marks the update as failed. */
    method Refresh(link: Link, now: real, elapsed: real) returns (result: Result<Snapshot, UpdateFailed>)
      modifies this
      ensures result == UpdateResult(link, old(flowRateLpm), now, elapsed)
      ensures data == (if result.Ok? then Some(result.value) else old(data))
      ensures lastUpdateSuccess == result.Ok?
      ensures flowRateLpm == old(flowRateLpm) && scanInterval == old(scanInterval) && flowRate == old(flowRate)
    {
      result := UpdateData(link, now, elapsed);
      if result.Ok? {
        data := Some(result.value);
      }
      lastUpdateSuccess := result.Ok?;
    }

    /** Writes one holding register and requests a refresh once the device
        takes it; true when that request does not raise. */
    method WriteRegister(link: Link, register: int, value: int) returns (ok: bool, ops: seq<Op>)
      ensures ok == WriteSucceeds(link, register, value)
      ensures ops == WriteOps(link, register, value)
    {
      ops := [Connect];
      ok := false;
      if link.connect == Connected {
        ops := ops + [WriteOp(register, value)];
        var outcome := link.write(register, value);
        if outcome == WriteAccepted {
          ops := ops + [RequestRefresh];
          ok := !link.refreshRaises;
        }
      }
      ops := ops + [Close];
    }
  }
}
