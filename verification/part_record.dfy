/**
 * One entry of the in-memory parts database: the `PartRecord` struct.
 * The two float fields are carried as opaque values; nothing in the store
 * computes with them.
 */
module PartRecords {
  import opened BoundedText

  /** A C `int`. */
  newtype Int32 = x: int | -0x8000_0000 <= x < 0x8000_0000

  /**
   * The store is generic in the field contents: it keeps whatever record it is
   * given. `EnterRecord` is what guarantees that the text fields fit their
   * character arrays (`FitsBuffers`).
   */
  datatype PartRecord = PartRecord(
    partNumber: Int32,
    partName: string,     // held in `char partName[50]`
    partSize: real,       // a C `float`, not computed with
    sizeMetric: string,   // held in `char sizeMetric[10]`
    partCost: real        // a C `float`, not computed with
  )

  /** The text fields fit their character arrays, terminator included, as read from the console. */
  predicate FitsBuffers(r: PartRecord) {
    && |r.partName| < NameBufferSize && '\n' !in r.partName && NoNul(r.partName)
    && |r.sizeMetric| < MetricBufferSize && '\n' !in r.sizeMetric && NoNul(r.sizeMetric)
  }

  /**
   * The record assembled from a part name and a size metric read off the
   * console, with the already-parsed numeric fields.
   */
  function EnterRecord(partNumber: Int32, nameInput: seq<char>, partSize: real,
                       metricInput: seq<char>, partCost: real): (r: PartRecord)
    requires |nameInput| > 0 && |metricInput| > 0
    ensures FitsBuffers(r)
    ensures r.partNumber == partNumber && r.partSize == partSize && r.partCost == partCost
    ensures r.partName <= nameInput && r.sizeMetric <= metricInput
  {
    var name := ReadPartName(nameInput);
    var metric := ReadSizeMetric(metricInput);
    PartRecord(partNumber, name.text, partSize, metric.text, partCost)
  }

  /**
   * Lines typed within the buffer sizes and ended by a newline are what the
   * record holds, without their newlines.
   */
  lemma EnterTypedLines(partNumber: Int32, name: string, nameRest: seq<char>, partSize: real,
                        metric: string, metricRest: seq<char>, partCost: real)
    requires |name| <= NameBufferSize - 2 && '\n' !in name && NoNul(name)
    requires |metric| <= MetricBufferSize - 2 && '\n' !in metric && NoNul(metric)
    ensures EnterRecord(partNumber, name + ['\n'] + nameRest, partSize, metric + ['\n'] + metricRest, partCost)
            == PartRecord(partNumber, name, partSize, metric, partCost)
  {
    ShortLineReadWhole(name, nameRest, NameBufferSize);
    ShortLineReadWhole(metric, metricRest, MetricBufferSize);
  }
}
