/**
 * The parts database of the lab program: a contiguous block of `PartRecord`
 * values reached through the `database` pointer, and the `recordCount` that
 * says how many of them are valid. `AddRecord` grows the block by one slot at
 * the tail and `DeleteRecord` shrinks it by one from the tail. Whether
 * `realloc` succeeds is an input of each operation.
 */
module RecordStore {
  import opened PartRecords

  /** Largest value of the C `int` that holds `recordCount`. */
  const IntMax: int := 0x7fff_ffff

  /** `unsigned long` arithmetic is modulo 2^64 (LP64 data model). */
  const ULongModulus: int := 0x1_0000_0000_0000_0000

  /**
   * `sizeof(PartRecord)`. Its value depends on the compiler's struct layout
   * (76 bytes with 4-byte `int`/`float` alignment), so it is a parameter here;
   * any struct of these five fields is far smaller than 2^32 bytes.
   */
  type RecordSize = n: int | 0 < n < 0x1_0000_0000 witness 76

  /** The `database` pointer: NULL, or a block of records. */
  datatype Block = Null | Allocated(slots: seq<PartRecord>)

  /** The state `main` keeps: the `database` pointer and `recordCount`. */
  datatype Database = Database(block: Block, recordCount: int)

  /**
   * How an add or delete ended. Each message those functions print matches one
   * outcome; the two `Ok` messages of `DeleteRecord` are told apart by the
   * state left behind (empty or not).
   */
  datatype Outcome =
    | Ok           // the operation did what it was asked
    | AllocFailed  // `realloc` returned NULL; nothing was changed
    | WasEmpty     // there was no record to delete

  datatype Transition = Transition(outcome: Outcome, after: Database)

  /**
   * The consistency the program keeps between pointer and count: the pointer
   * is NULL exactly when there are no records, and otherwise the block holds
   * exactly `recordCount` records.
   */
  predicate Valid(d: Database) {
    && 0 <= d.recordCount <= IntMax
    && (d.block.Null? <==> d.recordCount == 0)
    && (d.block.Allocated? ==> |d.block.slots| == d.recordCount)
  }

  /** The records the database holds, in insertion order. */
  function Records(d: Database): seq<PartRecord> {
    if d.block.Null? then [] else d.block.slots
  }

  /** Bytes held by the block, as requested from `realloc` when it was last resized. */
  function AllocatedBytes(b: Block, size: RecordSize): nat {
    if b.Null? then 0 else |b.slots| * size
  }

  /** The state `main` starts from: a NULL pointer and no records. */
  function EmptyDatabase(): (d: Database)
    ensures Valid(d)
    ensures Records(d) == [] && d.block.Null?
  {
    Database(Null, 0)
  }

  /** Stands for the indeterminate contents of a slot `realloc` has just added. */
  const Indeterminate: PartRecord := PartRecord(0, [], 0.0, [], 0.0)

  /**
   * A successful `realloc(p, n * sizeof(PartRecord))`, per section 7.22.3.5 of
   * ISO C11: a block of `n` slots whose leading slots keep the old contents
   * (`realloc(NULL, ...)` behaves like `malloc`).
   */
  function Realloc(b: Block, n: nat): (slots: seq<PartRecord>)
    ensures |slots| == n
    ensures b.Allocated? ==> forall i :: 0 <= i < n && i < |b.slots| ==> slots[i] == b.slots[i]
  {
    var kept := if b.Null? then [] else b.slots;
    if n <= |kept| then kept[..n] else kept + seq(n - |kept|, _ => Indeterminate)
  }

  /**
   * `AddRecord` with the new record already read in: grow the block to hold
   * one more slot and write `rec` into the new last slot. A failed `realloc`
   * returns before anything is changed.
   */
  function AddRecord(d: Database, rec: PartRecord, allocSucceeds: bool): (t: Transition)
    requires Valid(d)
    requires d.recordCount < IntMax
    ensures Valid(t.after)
    ensures t.outcome == Ok <==> allocSucceeds
    ensures !allocSucceeds ==> t.outcome == AllocFailed && t.after == d
    ensures allocSucceeds ==> t.after.recordCount == d.recordCount + 1
    ensures allocSucceeds ==> Records(t.after) == Records(d) + [rec]
  {
    var newCount := d.recordCount + 1;
    if !allocSucceeds then Transition(AllocFailed, d)
    else
      var slots := Realloc(d.block, newCount)[newCount - 1 := rec];
      Transition(Ok, Database(Allocated(slots), newCount))
  }

  /**
   * `DeleteRecord`: nothing to do on an empty database; the only record is
   * deleted by freeing the block; otherwise the block is shrunk by one slot,
   * and a failed `realloc` keeps the old block and count.
   */
  function DeleteRecord(d: Database, allocSucceeds: bool): (t: Transition)
    requires Valid(d)
    ensures Valid(t.after)
    ensures d.recordCount == 0 ==> t.outcome == WasEmpty && t.after == d
    ensures d.recordCount == 1 ==> t.outcome == Ok && t.after == EmptyDatabase()
    ensures d.recordCount > 1 && !allocSucceeds ==> t.outcome == AllocFailed && t.after == d
    ensures d.recordCount > 1 && allocSucceeds ==>
      && t.outcome == Ok
      && t.after.recordCount == d.recordCount - 1
      && Records(t.after) == Records(d)[..d.recordCount - 1]
  {
    if d.recordCount == 0 then Transition(WasEmpty, d)
    else
      var newCount := d.recordCount - 1;
      if newCount == 0 then Transition(Ok, Database(Null, 0))
      else if !allocSucceeds then Transition(AllocFailed, d)
      else Transition(Ok, Database(Allocated(Realloc(d.block, newCount)), newCount))
  }

  /** `PrintNumRecords`: the count reported is the number of records held. */
  function NumRecords(d: Database): (n: int)
    requires Valid(d)
    ensures n == |Records(d)|
    ensures n == 0 <==> d.block.Null?
  {
    d.recordCount
  }

  /**
   * `PrintDatabaseSize`: `recordCount * sizeof(PartRecord)` as an
   * `unsigned long`. The product never wraps, so the figure is exactly the
   * size of the block held, and zero exactly when the pointer is NULL.
   */
  function DatabaseSize(d: Database, size: RecordSize): (bytes: int)
    requires Valid(d)
    ensures 0 <= bytes < ULongModulus
    ensures bytes == |Records(d)| * size
    ensures bytes == AllocatedBytes(d.block, size)
    ensures bytes == 0 <==> d.block.Null?
  {
    ProductFitsULong(d.recordCount, size);
    (d.recordCount * size) % ULongModulus
  }

  lemma ProductFitsULong(count: int, size: RecordSize)
    requires 0 <= count <= IntMax
    ensures 0 <= count * size < ULongModulus
    ensures count * size == 0 <==> count == 0
  {
    assert count * size <= IntMax * size;
    assert IntMax * size < 0x8000_0000 * 0x1_0000_0000;
  }

  /** One numbered entry of the `PrintAllRecords` listing. */
  datatype Entry = Entry(number: int, rec: PartRecord)

  /**
   * `PrintAllRecords`: every record once, in insertion order, numbered from 1.
   * An empty database lists nothing.
   */
  method AllRecords(d: Database) returns (listing: seq<Entry>)
    requires Valid(d)
    ensures |listing| == |Records(d)|
    ensures forall i :: 0 <= i < |listing| ==> listing[i] == Entry(i + 1, Records(d)[i])
  {
    listing := [];
    if d.recordCount == 0 {
      return;
    }
    var i := 0;
    while i < d.recordCount
      invariant 0 <= i <= d.recordCount
      invariant |listing| == i
      invariant forall j :: 0 <= j < i ==> listing[j] == Entry(j + 1, d.block.slots[j])
    {
      listing := listing + [Entry(i + 1, d.block.slots[i])];
      i := i + 1;
    }
  }
}
