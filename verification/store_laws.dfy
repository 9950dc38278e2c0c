/**
 * Laws of the parts database over whole runs of the menu: every `AddRecord`
 * and `DeleteRecord` agrees with a reference semantics on a plain list of
 * records, a failed call changes nothing, an add is undone by a delete, and
 * the count tracks the successful adds.
 */
module StoreLaws {
  import opened PartRecords
  import opened RecordStore

  /** Menu choices 4 and 5, with the outcome of the `realloc` they may call. */
  datatype Command =
    | Add(rec: PartRecord, allocSucceeds: bool)
    | DeleteLast(allocSucceeds: bool)

  /** What a command does to a list of records, and how it reports it. */
  datatype ListStep = ListStep(outcome: Outcome, records: seq<PartRecord>)

  /**
   * The reference semantics: an append or a remove-last on a list, where a
   * failed allocation leaves the list alone and removing from an empty list
   * is a distinguished no-op. Removing the only record needs no allocation.
   */
  function Apply(s: seq<PartRecord>, c: Command): ListStep {
    match c
    case Add(rec, ok) =>
      if ok then ListStep(Ok, s + [rec]) else ListStep(AllocFailed, s)
    case DeleteLast(ok) =>
      if |s| == 0 then ListStep(WasEmpty, s)
      else if |s| == 1 || ok then ListStep(Ok, s[..|s| - 1])
      else ListStep(AllocFailed, s)
  }

  function ApplyAll(s: seq<PartRecord>, cmds: seq<Command>): seq<PartRecord>
    decreases |cmds|
  {
    if |cmds| == 0 then s else ApplyAll(Apply(s, cmds[0]).records, cmds[1..])
  }

  /**
   * The `switch` in `main` for choices 4 and 5. The database operation agrees
   * with the reference semantics on both the records and the outcome.
   */
  function Execute(d: Database, c: Command): (t: Transition)
    requires Valid(d)
    requires c.Add? ==> d.recordCount < IntMax
    ensures Valid(t.after)
    ensures t.outcome == Apply(Records(d), c).outcome
    ensures Records(t.after) == Apply(Records(d), c).records
    ensures t.outcome != Ok ==> t.after == d
  {
    match c
    case Add(rec, ok) => AddRecord(d, rec, ok)
    case DeleteLast(ok) => DeleteRecord(d, ok)
  }

  /**
   * The database after a run of menu choices. The pointer/count invariant
   * holds throughout, and the records are those of the reference semantics.
   */
  function Run(d: Database, cmds: seq<Command>): (r: Database)
    requires Valid(d)
    requires d.recordCount + |cmds| <= IntMax
    ensures Valid(r)
    ensures Records(r) == ApplyAll(Records(d), cmds)
    decreases |cmds|
  {
    if |cmds| == 0 then d
    else
      var t := Execute(d, cmds[0]);
      assert t.after.recordCount <= d.recordCount + 1 by {
        assert |Records(t.after)| <= |Records(d)| + 1;
      }
      Run(t.after, cmds[1..])
  }

  /** A valid database is determined by its records: the pointer and count carry nothing more. */
  lemma RecordsDetermineDatabase(d1: Database, d2: Database)
    requires Valid(d1) && Valid(d2)
    ensures Records(d1) == Records(d2) <==> d1 == d2
  {
    if Records(d1) == Records(d2) {
      assert d1.recordCount == |Records(d1)| == d2.recordCount;
      if d1.recordCount > 0 {
        assert d1.block.slots == Records(d1);
      }
    }
  }

  /**
   * Adding a record and then deleting the last one gives back exactly the
   * database before the add, pointer and count included.
   */
  lemma AddThenDeleteRestores(d: Database, rec: PartRecord, shrinkSucceeds: bool)
    requires Valid(d) && d.recordCount < IntMax
    requires d.recordCount == 0 || shrinkSucceeds
    ensures AddRecord(d, rec, true).outcome == Ok
    ensures DeleteRecord(AddRecord(d, rec, true).after, shrinkSucceeds) == Transition(Ok, d)
  {
    var added := AddRecord(d, rec, true).after;
    var removed := DeleteRecord(added, shrinkSucceeds).after;
    assert Records(added)[..|Records(d)|] == Records(d);
    RecordsDetermineDatabase(removed, d);
  }

  /** The number of adds in a run whose allocation succeeded. */
  function SuccessfulAdds(cmds: seq<Command>): nat
    decreases |cmds|
  {
    if |cmds| == 0 then 0
    else (if cmds[0].Add? && cmds[0].allocSucceeds then 1 else 0) + SuccessfulAdds(cmds[1..])
  }

  /** The records of the successful adds of a run, in order. */
  function AddedRecords(cmds: seq<Command>): seq<PartRecord>
    decreases |cmds|
  {
    if |cmds| == 0 then []
    else (if cmds[0].Add? && cmds[0].allocSucceeds then [cmds[0].rec] else []) + AddedRecords(cmds[1..])
  }

  /** On a list, a run of adds alone appends exactly the records whose allocation succeeded. */
  lemma {:induction false} ApplyAddsAppends(s: seq<PartRecord>, cmds: seq<Command>)
    requires forall i :: 0 <= i < |cmds| ==> cmds[i].Add?
    ensures ApplyAll(s, cmds) == s + AddedRecords(cmds)
    ensures |AddedRecords(cmds)| == SuccessfulAdds(cmds)
    decreases |cmds|
  {
    if |cmds| > 0 {
      ApplyAddsAppends(Apply(s, cmds[0]).records, cmds[1..]);
      if cmds[0].allocSucceeds {
        assert s + AddedRecords(cmds) == s + [cmds[0].rec] + AddedRecords(cmds[1..]);
      } else {
        assert AddedRecords(cmds) == AddedRecords(cmds[1..]);
      }
    }
  }

  /**
   * A run of adds alone appends exactly the records whose allocation
   * succeeded, in order; so N successful adds leave N more records and
   * N more record sizes of storage.
   */
  lemma AddsAppendSuccesses(d: Database, cmds: seq<Command>, size: RecordSize)
    requires Valid(d)
    requires d.recordCount + |cmds| <= IntMax
    requires forall i :: 0 <= i < |cmds| ==> cmds[i].Add?
    ensures Records(Run(d, cmds)) == Records(d) + AddedRecords(cmds)
    ensures NumRecords(Run(d, cmds)) == d.recordCount + SuccessfulAdds(cmds)
    ensures DatabaseSize(Run(d, cmds), size) == (d.recordCount + SuccessfulAdds(cmds)) * size
  {
    ApplyAddsAppends(Records(d), cmds);
  }

  /** From the empty database, N successful adds give N records and N record sizes. */
  lemma AddsFromEmpty(cmds: seq<Command>, size: RecordSize)
    requires |cmds| <= IntMax
    requires forall i :: 0 <= i < |cmds| ==> cmds[i].Add?
    ensures NumRecords(Run(EmptyDatabase(), cmds)) == SuccessfulAdds(cmds)
    ensures DatabaseSize(Run(EmptyDatabase(), cmds), size) == SuccessfulAdds(cmds) * size
    ensures Records(Run(EmptyDatabase(), cmds)) == AddedRecords(cmds)
  {
    AddsAppendSuccesses(EmptyDatabase(), cmds, size);
  }

  /** Deleting from an empty database, any number of times, leaves it exactly as it was. */
  lemma {:induction false} DeletesOnEmptyAreNoOps(cmds: seq<Command>)
    requires |cmds| <= IntMax
    requires forall i :: 0 <= i < |cmds| ==> cmds[i].DeleteLast?
    ensures Run(EmptyDatabase(), cmds) == EmptyDatabase()
    decreases |cmds|
  {
    if |cmds| > 0 {
      assert Execute(EmptyDatabase(), cmds[0]) == Transition(WasEmpty, EmptyDatabase());
      DeletesOnEmptyAreNoOps(cmds[1..]);
    }
  }

  /** Deleting the only record leaves nothing to list and a size of zero. */
  lemma DeleteOnlyRecordEmpties(d: Database, allocSucceeds: bool, size: RecordSize)
    requires Valid(d) && d.recordCount == 1
    ensures Records(DeleteRecord(d, allocSucceeds).after) == []
    ensures DatabaseSize(DeleteRecord(d, allocSucceeds).after, size) == 0
    ensures DeleteRecord(d, allocSucceeds).after.block.Null?
  {
  }

  /**
   * Start empty, add a bolt, add a nut, delete the last record: one record
   * is left, and it is the bolt.
   */
  lemma BoltNutScenario(size: RecordSize)
    ensures
      var bolt := PartRecord(111, "Bolt", 5.0, "mm", 0.25);
      var nut := PartRecord(222, "Nut", 3.0, "mm", 0.10);
      var d1 := AddRecord(EmptyDatabase(), bolt, true).after;
      var d2 := AddRecord(d1, nut, true).after;
      var d3 := DeleteRecord(d2, true).after;
      && NumRecords(d1) == 1 && DatabaseSize(d1, size) == size
      && NumRecords(d2) == 2
      && NumRecords(d3) == 1 && Records(d3) == [bolt]
  {
    var bolt := PartRecord(111, "Bolt", 5.0, "mm", 0.25);
    var nut := PartRecord(222, "Nut", 3.0, "mm", 0.10);
    var d1 := AddRecord(EmptyDatabase(), bolt, true).after;
    var d2 := AddRecord(d1, nut, true).after;
    assert Records(d2) == [bolt, nut];
    assert Records(d2)[..1] == [bolt];
  }
}
