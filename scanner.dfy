/** The register discovery scanner: it walks an address range in batches,
    reads each batch from the device and records every non-zero word (or every
    set coil) under its address.  The device read is a parameter. */
module Scanner {
  import opened Wrappers
  import opened Words
  import opened Poller

  /** The readings offered for one word. */
  datatype Interpretations = Interpretations(
    tempDiv10: real,
    tempDiv100: real,
    pressureDiv10: real,
    percentage: Option<real>)

  /** A recorded register: the word, its signed reading and its
      interpretations. */
  datatype ScanEntry = ScanEntry(value: Word, signed: int, interpretation: Interpretations)

  /** Tenths, hundredths, tenths again as a pressure, and a percentage for
      words up to 10000. */
  function TryFloatConversion(value: int): (i: Interpretations)
    ensures i.tempDiv10 * 10.0 == value as real && i.tempDiv100 * 100.0 == value as real
    ensures i.pressureDiv10 == i.tempDiv10
    ensures i.percentage.Some? <==> value <= 10000
    ensures i.percentage.Some? ==> i.percentage.value == i.tempDiv100
  {
    Interpretations(value as real / 10.0, value as real / 100.0, value as real / 10.0,
                    if value <= 10000 then Some(value as real / 100.0) else None)
  }

  /** The entry recorded for a word; its signed field is the word read as a
      two's-complement 16-bit value. */
  function Entry(value: Word): (e: ScanEntry)
    ensures e.value == value && e.signed == Signed16(value)
    ensures e.interpretation == TryFloatConversion(value)
  {
    ScanEntry(value, if value < 32768 then value else value - 65536, TryFloatConversion(value))
  }

  /** The number of words asked for at `addr`: a full batch, or what is left
      up to `end`. */
  function BatchCount(addr: int, end: int, batch: int): (c: int)
    ensures addr <= end && batch > 0 ==> 1 <= c <= batch && addr + c <= end + 1
    ensures addr <= end && batch > 0 && addr + batch <= end + 1 ==> c == batch
  {
    if batch <= end - addr + 1 then batch else end - addr + 1
  }

  /** The batch addresses from `addr`: `addr`, `addr + batch`, ... up to
      `end`. */
  function BatchStarts(addr: int, end: int, batch: int): (s: seq<int>)
    requires batch > 0
    decreases end + 1 - addr
    ensures forall a :: a in s ==> addr <= a <= end
    ensures |s| > 0 <==> addr <= end
    ensures |s| > 0 ==> s[0] == addr
    ensures forall i :: 0 <= i < |s| - 1 ==> s[i + 1] == s[i] + batch
  {
    if addr > end then [] else [addr] + BatchStarts(addr + batch, end, batch)
  }

  /** The batch address whose batch holds `x`. */
  function BatchFor(addr: int, batch: int, x: int): (a: int)
    requires batch > 0 && addr <= x
    decreases x - addr
    ensures a <= x < a + batch && addr <= a
  {
    if x < addr + batch then addr else BatchFor(addr + batch, batch, x)
  }

  /** The batches cover the range exactly once: every address between
      `addr` and `end` lies in the batch of `BatchFor`, which is one of the
      batches, and in no other batch. */
  lemma {:induction false} BatchesPartition(addr: int, end: int, batch: int, x: int)
    requires batch > 0 && addr <= x <= end
    decreases x - addr
    ensures BatchFor(addr, batch, x) in BatchStarts(addr, end, batch)
    ensures var a := BatchFor(addr, batch, x); a <= x < a + BatchCount(a, end, batch)
    ensures forall b :: b in BatchStarts(addr, end, batch) && b <= x < b + BatchCount(b, end, batch) ==> b == BatchFor(addr, batch, x)
  {
    var tail := BatchStarts(addr + batch, end, batch);
    assert BatchStarts(addr, end, batch) == [addr] + tail;
    assert forall b :: b in tail ==> b >= addr + batch;
    if x < addr + batch {
      assert BatchFor(addr, batch, x) == addr;
    } else {
      assert BatchFor(addr, batch, x) == BatchFor(addr + batch, batch, x);
      assert BatchCount(addr, end, batch) <= batch;
      BatchesPartition(addr + batch, end, batch, x);
    }
  }

  // ---------------------------------------------------------------------
  // Recording

  /** The map after recording the non-zero words of a delivered batch, word
      by word. */
  function RecordWords(acc: map<int, ScanEntry>, addr: int, items: seq<Word>): map<int, ScanEntry>
    decreases |items|
  {
    if |items| == 0 then acc
    else
      var prior := RecordWords(acc, addr, items[..|items| - 1]);
      var w := items[|items| - 1];
      if w != 0 then prior[addr + |items| - 1 := Entry(w)] else prior
  }

  /** Recording a batch adds exactly its non-zero words, each as its entry,
      and keeps every other entry. */
  lemma {:induction false} RecordWordsMeaning(acc: map<int, ScanEntry>, addr: int, items: seq<Word>)
    decreases |items|
    ensures var r := RecordWords(acc, addr, items);
      && (forall x :: x in r <==> x in acc || (addr <= x < addr + |items| && items[x - addr] != 0))
      && (forall x :: addr <= x < addr + |items| && items[x - addr] != 0 ==> r[x] == Entry(items[x - addr]))
      && (forall x :: x in acc && !(addr <= x < addr + |items| && items[x - addr] != 0) ==> r[x] == acc[x])
  {
    if |items| > 0 {
      var n := |items| - 1;
      var prior := RecordWords(acc, addr, items[..n]);
      assert RecordWords(acc, addr, items) == if items[n] != 0 then prior[addr + n := Entry(items[n])] else prior;
      RecordWordsMeaning(acc, addr, items[..n]);
      assert forall j :: 0 <= j < n ==> items[..n][j] == items[j];
    }
  }

  /** Recording one more word extends the map by that word's entry when it
      is non-zero. */
  lemma RecordWordsStep(acc: map<int, ScanEntry>, addr: int, items: seq<Word>, i: nat)
    requires i < |items|
    ensures RecordWords(acc, addr, items[..i + 1]) ==
      if items[i] != 0 then RecordWords(acc, addr, items[..i])[addr + i := Entry(items[i])] else RecordWords(acc, addr, items[..i])
  {
    assert items[..i + 1][..i] == items[..i];
  }

  /** A failed batch records nothing. */
  function RecordBatch(acc: map<int, ScanEntry>, addr: int, outcome: ReadOutcome<Word>): (r: map<int, ScanEntry>)
    ensures outcome.Failed? ==> r == acc
  {
    match outcome
    case Failed => acc
    case Delivered(items) => RecordWords(acc, addr, items)
  }

  /** The map after scanning from `addr` to `end`. */
  function Scanned(acc: map<int, ScanEntry>, read: (int, int) -> ReadOutcome<Word>, addr: int, end: int, batch: int): map<int, ScanEntry>
    requires batch > 0
    decreases end + 1 - addr
  {
    if addr > end then acc
    else Scanned(RecordBatch(acc, addr, read(addr, BatchCount(addr, end, batch))), read, addr + batch, end, batch)
  }

  /** One batch records only non-zero words at its own addresses and keeps
      every entry below them. */
  lemma RecordBatchNonZero(acc: map<int, ScanEntry>, addr: int, outcome: ReadOutcome<Word>)
    ensures var next := RecordBatch(acc, addr, outcome);
      (forall x :: x in next ==> (x in acc && next[x] == acc[x]) || (x >= addr && next[x].value != 0)) &&
      (forall x :: x in acc && x < addr ==> x in next && next[x] == acc[x])
  {
    if outcome.Delivered? {
      RecordWordsMeaning(acc, addr, outcome.items);
    }
  }

  /** Scanning from `addr` is recording its batch, then scanning on. */
  lemma ScannedStep(acc: map<int, ScanEntry>, read: (int, int) -> ReadOutcome<Word>, addr: int, end: int, batch: int)
    requires batch > 0 && addr <= end
    ensures Scanned(acc, read, addr, end, batch) ==
      Scanned(RecordBatch(acc, addr, read(addr, BatchCount(addr, end, batch))), read, addr + batch, end, batch)
  {
  }

  /** Only non-zero words are ever recorded, at addresses from the scan's
      start on; every other entry is the one there before, and the entries
      below the scan's start are all kept. */
  lemma {:induction false} ScannedRecordsNonZero(acc: map<int, ScanEntry>, read: (int, int) -> ReadOutcome<Word>, addr: int, end: int, batch: int)
    requires batch > 0
    decreases end + 1 - addr
    ensures var r := Scanned(acc, read, addr, end, batch);
      (forall x :: x in r ==> (x in acc && r[x] == acc[x]) || (x >= addr && r[x].value != 0)) &&
      (forall x :: x in acc && x < addr ==> x in r && r[x] == acc[x])
  {
    if addr <= end {
      var next := RecordBatch(acc, addr, read(addr, BatchCount(addr, end, batch)));
      RecordBatchNonZero(acc, addr, read(addr, BatchCount(addr, end, batch)));
      ScannedRecordsNonZero(next, read, addr + batch, end, batch);
      assert Scanned(acc, read, addr, end, batch) == Scanned(next, read, addr + batch, end, batch);
    }
  }

  /** The device answers every read it does not fail with exactly the words
      asked for. */
  ghost predicate ExactDevice(read: (int, int) -> ReadOutcome<Word>)
  {
    forall a, c :: read(a, c).Delivered? ==> |read(a, c).items| == c
  }

  /** With an exact device, the first batch records an address of its own
      exactly when it was delivered with a non-zero word there, and only at
      or above `addr`. */
  lemma FirstBatch(acc: map<int, ScanEntry>, read: (int, int) -> ReadOutcome<Word>, addr: int, end: int, batch: int, x: int)
    requires batch > 0 && ExactDevice(read) && addr <= end
    requires forall k :: k in acc ==> k < addr
    ensures var outcome := read(addr, BatchCount(addr, end, batch));
      var next := RecordBatch(acc, addr, outcome);
      && (forall k :: k in next ==> k < addr + batch)
      && (addr <= x < addr + batch && x <= end ==>
            (x in next <==> outcome.Delivered? && outcome.items[x - addr] != 0) &&
            (x in next ==> next[x] == Entry(outcome.items[x - addr])))
  {
    var outcome := read(addr, BatchCount(addr, end, batch));
    if outcome.Delivered? {
      assert |outcome.items| == BatchCount(addr, end, batch);
      RecordWordsMeaning(acc, addr, outcome.items);
    }
  }

  /** With an exact device, a scan from `addr` over a result holding only
      lower addresses records an address of the range exactly when its batch
      was delivered with a non-zero word there; the entry is that word's. */
  lemma {:induction false} ScannedMeaning(acc: map<int, ScanEntry>, read: (int, int) -> ReadOutcome<Word>, addr: int, end: int, batch: int, x: int)
    requires batch > 0 && ExactDevice(read) && addr <= x <= end
    requires forall k :: k in acc ==> k < addr
    decreases end + 1 - addr
    ensures var a := BatchFor(addr, batch, x);
      var outcome := read(a, BatchCount(a, end, batch));
      var r := Scanned(acc, read, addr, end, batch);
      (x in r <==> outcome.Delivered? && outcome.items[x - a] != 0) &&
      (x in r ==> r[x] == Entry(outcome.items[x - a]))
  {
    var next := RecordBatch(acc, addr, read(addr, BatchCount(addr, end, batch)));
    FirstBatch(acc, read, addr, end, batch, x);
    ScannedStep(acc, read, addr, end, batch);
    if x < addr + batch {
      assert BatchFor(addr, batch, x) == addr;
      ScannedRecordsNonZero(next, read, addr + batch, end, batch);
    } else {
      assert BatchFor(addr, batch, x) == BatchFor(addr + batch, batch, x);
      ScannedMeaning(next, read, addr + batch, end, batch, x);
    }
  }

  /** Recording the set bits of a coil read at `start`: every true bit
      becomes a `true` entry at its address. */
  function RecordBits(acc: map<int, bool>, start: int, bits: seq<bool>): (r: map<int, bool>)
    decreases |bits|
    ensures forall x :: x in r <==> x in acc || (start <= x < start + |bits| && bits[x - start])
    ensures forall x :: start <= x < start + |bits| && bits[x - start] ==> r[x]
    ensures forall x :: x in acc && !(start <= x < start + |bits| && bits[x - start]) ==> r[x] == acc[x]
  {
    if |bits| == 0 then acc
    else
      var prior := RecordBits(acc, start, bits[..|bits| - 1]);
      if bits[|bits| - 1] then prior[start + |bits| - 1 := true] else prior
  }

  /** Recording one more bit sets its address when the bit is set. */
  lemma RecordBitsStep(acc: map<int, bool>, start: int, bits: seq<bool>, i: nat)
    requires i < |bits|
    ensures RecordBits(acc, start, bits[..i + 1]) ==
      if bits[i] then RecordBits(acc, start, bits[..i])[start + i := true] else RecordBits(acc, start, bits[..i])
  {
    assert bits[..i + 1][..i] == bits[..i];
  }

  /** The coil map after one coil scan from `start` to `end`. */
  function CoilsScanned(acc: map<int, bool>, read: (int, int) -> ReadOutcome<bool>, start: int, end: int): (r: map<int, bool>)
  {
    match read(start, end - start + 1)
    case Failed => acc
    case Delivered(bits) => RecordBits(acc, start, bits)
  }

  /** A coil scan over an empty map records only `true`, exactly at the
      addresses of the set bits, and nothing when the read fails. */
  lemma CoilScanMeaning(read: (int, int) -> ReadOutcome<bool>, start: int, end: int, x: int)
    ensures var r := CoilsScanned(map[], read, start, end);
      var outcome := read(start, end - start + 1);
      (x in r <==> outcome.Delivered? && start <= x < start + |outcome.items| && outcome.items[x - start]) &&
      (x in r ==> r[x])
  {
  }

  // ---------------------------------------------------------------------
  // The scanner

  /** Records the non-zero words of one delivered batch, word by word. */
  method RecordDelivered(acc: map<int, ScanEntry>, addr: int, items: seq<Word>) returns (result: map<int, ScanEntry>)
    ensures result == RecordWords(acc, addr, items)
  {
    result := acc;
    var i := 0;
    while i < |items|
      invariant 0 <= i <= |items|
      invariant result == RecordWords(acc, addr, items[..i])
    {
      RecordWordsStep(acc, addr, items, i);
      if items[i] != 0 {
        result := result[addr + i := Entry(items[i])];
      }
      i := i + 1;
    }
    assert items[..|items|] == items;
  }

  /** Scans `start` to `end` in batches of `batch`, recording into `acc`;
      a failed batch is skipped and the scan goes on with the next one. */
  method ScanRegisters(read: (int, int) -> ReadOutcome<Word>, start: int, end: int, batch: int, acc: map<int, ScanEntry>)
    returns (result: map<int, ScanEntry>)
    requires batch > 0
    ensures result == Scanned(acc, read, start, end, batch)
  {
    result := acc;
    var addr := start;
    while addr <= end
      invariant Scanned(result, read, addr, end, batch) == Scanned(acc, read, start, end, batch)
      decreases end + 1 - addr
    {
      var count := if batch <= end - addr + 1 then batch else end - addr + 1;
      var outcome := read(addr, count);
      ghost var next := RecordBatch(result, addr, outcome);
      ScannedStep(result, read, addr, end, batch);
      if outcome.Delivered? {
        result := RecordDelivered(result, addr, outcome.items);
      }
      assert result == next;
      addr := addr + batch;
    }
  }

  /** Records the set bits of a delivered coil read, bit by bit. */
  method RecordSetBits(acc: map<int, bool>, start: int, bits: seq<bool>) returns (result: map<int, bool>)
    ensures result == RecordBits(acc, start, bits)
  {
    result := acc;
    var i := 0;
    while i < |bits|
      invariant 0 <= i <= |bits|
      invariant result == RecordBits(acc, start, bits[..i])
    {
      RecordBitsStep(acc, start, bits, i);
      if bits[i] {
        result := result[start + i := true];
      }
      i := i + 1;
    }
    assert bits[..|bits|] == bits;
  }

  class RegisterScanner {
    var holdingRegisters: map<int, ScanEntry>
    var inputRegisters: map<int, ScanEntry>
    var coils: map<int, bool>

    constructor()
      ensures holdingRegisters == map[] && inputRegisters == map[] && coils == map[]
    {
      holdingRegisters := map[];
      inputRegisters := map[];
      coils := map[];
    }

    method ScanHoldingRegisters(read: (int, int) -> ReadOutcome<Word>, start: int, end: int, batch: int)
      requires batch > 0
      modifies this
      ensures holdingRegisters == Scanned(old(holdingRegisters), read, start, end, batch)
      ensures inputRegisters == old(inputRegisters) && coils == old(coils)
    {
      holdingRegisters := ScanRegisters(read, start, end, batch, holdingRegisters);
    }

    method ScanInputRegisters(read: (int, int) -> ReadOutcome<Word>, start: int, end: int, batch: int)
      requires batch > 0
      modifies this
      ensures inputRegisters == Scanned(old(inputRegisters), read, start, end, batch)
      ensures holdingRegisters == old(holdingRegisters) && coils == old(coils)
    {
      inputRegisters := ScanRegisters(read, start, end, batch, inputRegisters);
    }

    /** One read of the whole coil range; every set bit is recorded. */
    method ScanCoils(read: (int, int) -> ReadOutcome<bool>, start: int, end: int)
      modifies this
      ensures coils == CoilsScanned(old(coils), read, start, end)
      ensures holdingRegisters == old(holdingRegisters) && inputRegisters == old(inputRegisters)
    {
      var outcome := read(start, end - start + 1);
      if outcome.Delivered? {
        coils := RecordSetBits(coils, start, outcome.items);
      }
    }
  }
}
