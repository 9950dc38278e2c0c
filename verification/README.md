# Parts database of INET3101 Lab 2, in Dafny

The lab program keeps an in-memory "database" of part records. Each record has a
part number, a name of up to 49 characters, a size, a size metric of up to 9
characters, and a cost. `main` holds the database as two variables: the `database`
pointer to a contiguous block of `PartRecord` values, and `recordCount`.
`AddRecord` grows the block by one slot with `realloc`. It then fills the new last
slot from the console. `DeleteRecord` shrinks the block by one slot. When the only
record is deleted, it frees the block and resets the pointer to NULL.
`PrintDatabaseSize` reports `recordCount * sizeof(PartRecord)`. `PrintAllRecords`
lists the records in order.

The model has four modules:

- `BoundedText` (`bounded_text.dfy`) models the two text-field reads. Each one is
  `fgets` into a fixed buffer, then `strlen`, then removal of one trailing newline.
  The console is the sequence of characters still waiting to be read. Each
  character stands for one byte, a C `char`.
- `PartRecords` (`part_record.dfy`) holds the `PartRecord` value and the record
  assembled from console input.
- `RecordStore` (`record_store.dfy`) holds the pointer/count state as
  `Database(block, recordCount)`, where the block is `Null` or `Allocated(slots)`.
  It has the consistency predicate `Valid`: the pointer is NULL exactly when the
  count is 0, and the block holds exactly `recordCount` records. It also has the
  store operations. Each mutating operation takes a flag saying whether `realloc`
  succeeds, and returns an outcome (`Ok`, `AllocFailed`, `WasEmpty`) with the new
  state.
- `StoreLaws` (`store_laws.dfy`) gives a reference semantics on a plain list of
  records. It proves that every operation, and every run of menu choices, agrees
  with that semantics. It also proves the round-trip and counting laws.

`realloc` is modelled by its contract in section 7.22.3.5 of ISO C11. It returns
a block of the requested length whose leading slots keep the old contents. The
slot added by a grow is indeterminate; the model fills it with a placeholder that
`AddRecord` then overwrites. `sizeof(PartRecord)` is a parameter, because it
depends on the compiler's struct layout. It is 76 bytes with 4-byte `int`/`float`
alignment, and it is assumed to be below 2^32. The byte size is computed as an
`unsigned long` under the LP64 data model (modulo 2^64), and is proved never to
wrap.

## Model

| member | source | states |
|---|---|---|
| BoundedText.LineSpan | Lab2.c:145 | `fgets` takes at most `limit` characters, at least one if any input is left and `limit > 0` (here `limit` is always `bufSize - 1 >= 1`), and no newline except as the last character taken; it stops short of the limit and the input only just after a newline |
| BoundedText.CString | Lab2.c:147 | `strlen` sees exactly the characters before the first NUL of the buffer: a NUL-free prefix of it, followed in the buffer by a NUL whenever it is shorter |
| BoundedText.StripNewline | Lab2.c:148-150 | a string ending in a newline loses exactly that one character, and any other string is left as it is |
| BoundedText.ReadField | Lab2.c:145-150 | the outcome is `EndOfInput` exactly when no input is left, and an empty line is stored as empty text; otherwise `fgets` takes exactly the `LineSpan` count: up to and including the first newline, at most `bufSize - 1` characters, at most what is left; when they hold no NUL, the stored text is exactly what was taken less at most one trailing newline, and when they do, it is everything before the first NUL; the stored text never holds a newline or a NUL |
| BoundedText.EmbeddedNulEndsField | Lab2.c:145-150 | the input `ab`, NUL, `cd`, newline is consumed whole, and `ab` is stored |
| BoundedText.ReadPartName | Lab2.c:144-150 | the part name stored in `char partName[50]` holds at most 49 characters, no newline and no NUL, and is a prefix of the input line |
| BoundedText.ReadSizeMetric | Lab2.c:157-162 | the size metric stored in `char sizeMetric[10]` holds at most 9 characters, no newline and no NUL, and is a prefix of the input line |
| BoundedText.ShortLineReadWhole | Lab2.c:145-150 | a NUL-free line that fits the buffer with its newline is stored exactly, without the newline, and the newline is consumed |
| BoundedText.FinalLineReadWhole | Lab2.c:145-150 | a NUL-free last input line with no newline that fits the buffer is stored exactly |
| BoundedText.LongLineTruncated | Lab2.c:145-150 | a line whose first `bufSize - 1` characters are NUL-free and hold no newline is cut silently at `bufSize - 1` characters, and the rest stays unread |
| PartRecords.EnterRecord | Lab2.c:138-165 | a record built from console input fits both character arrays, holds no newline in its text fields, keeps the numeric fields given, and keeps text fields that are prefixes of what was typed |
| PartRecords.EnterTypedLines | Lab2.c:144-162 | a name and a metric typed within their buffers and ended by a newline are exactly what the record holds, without the newlines, alongside the numeric fields given |
| RecordStore.EmptyDatabase | Lab2.c:37-39 | the initial NULL pointer with count 0 satisfies the pointer/count invariant and holds no records |
| RecordStore.Realloc | Lab2.c:122 | a resized block has the requested number of slots and keeps the old contents of every slot that survives |
| RecordStore.AddRecord | Lab2.c:118-133 | on success the count rises by exactly one, the new record is in the last slot, and all earlier records are unchanged; on `realloc` failure the outcome is `AllocFailed` and pointer, count and records are unchanged; the invariant holds afterwards |
| RecordStore.DeleteRecord | Lab2.c:171-199 | on an empty database it reports `WasEmpty` and changes nothing; with one record it frees the block and yields the NULL/0 state whatever the allocator would do; with more, a successful shrink drops exactly the last record and keeps the others in order, and a failed shrink reports `AllocFailed` and keeps everything, including the last record; the invariant holds afterwards |
| RecordStore.NumRecords | Lab2.c:107-109 | the count reported is the number of records held, and it is zero exactly when the pointer is NULL |
| RecordStore.DatabaseSize | Lab2.c:112-115 | the reported size is the number of records times the record size, equals the bytes of the block held, does not wrap as an `unsigned long`, and is zero exactly when the pointer is NULL |
| RecordStore.ProductFitsULong | Lab2.c:114 | a record count that fits an `int`, times a record size below 2^32, fits an `unsigned long`, and is zero only for a zero count |
| RecordStore.AllRecords | Lab2.c:90-104 | the listing has one entry per record, in insertion order, numbered from 1; an empty database lists nothing |
| StoreLaws.Execute | Lab2.c:70-75 | menu choices 4 and 5 agree with the reference list semantics on both the records and the outcome, and any outcome other than `Ok` leaves the database exactly as it was |
| StoreLaws.Run | Lab2.c:42-82 | after any run of add and delete choices, the pointer/count invariant holds, and the records are those the reference list semantics gives |
| StoreLaws.RecordsDetermineDatabase | Lab2.c:37-39 | two consistent databases are equal exactly when they hold the same records, so the pointer and count carry no hidden state |
| StoreLaws.AddThenDeleteRestores | Lab2.c:118-199 | a successful add followed by a delete gives back exactly the database before the add, pointer and count included, whenever the shrink succeeds or the database started empty |
| StoreLaws.ApplyAddsAppends | Lab2.c:119-133 | in the list semantics, a run of adds appends exactly the records whose allocation succeeded, in order, and their number is the number of successful adds |
| StoreLaws.AddsAppendSuccesses | Lab2.c:119-130 | on the database, a run of adds appends exactly the successfully allocated records; the count rises by the number of successes, and the reported size by that many record sizes |
| StoreLaws.AddsFromEmpty | Lab2.c:112-130 | from the empty database, N successful adds give a count of N and a size of N record sizes |
| StoreLaws.DeletesOnEmptyAreNoOps | Lab2.c:172-175 | any number of deletes on the empty database leave it exactly as it was |
| StoreLaws.DeleteOnlyRecordEmpties | Lab2.c:179-186 | deleting the only record leaves a NULL pointer, nothing to list, and a reported size of 0 |
| StoreLaws.BoltNutScenario | Lab2.c:118-199 | start empty, add part 111 "Bolt", add part 222 "Nut", delete: the counts are 1, 2, 1, the size after the first add is one record size, and the remaining record is the bolt |

## Left out

- The menu loop's printing, the `scanf` of the menu choice, and invalid-choice handling (Lab2.c:42-86) are console I/O. `Run` models only the effect of choices 4 and 5 on the database. Choices 1 to 3 and 6 do not change the database.
- All `printf` output. Each message of `AddRecord` and `DeleteRecord` matches an `Outcome`: both `realloc`-failure messages (Lab2.c:124, 192) are `AllocFailed`, and `DeleteRecord`'s two success messages (Lab2.c:184, 198) are both `Ok`, told apart by the state left behind. The listing, count and size lines (Lab2.c:92-102, 108, 114) match `AllRecords`, `NumRecords` and `DatabaseSize`.
- `getchar` buffer flushing, and the parsing of `partNumber`, `partSize` and `partCost` with `scanf`. `AddRecord` takes the record fully populated. `EnterRecord` takes the numeric fields already parsed.
- The indeterminate fields left behind when a `scanf` fails, or when `fgets` meets end of input before reading anything. `ReadField` reports that case as `EndOfInput`. `EnterRecord` requires non-empty input for both text fields, because the program stores nothing defined in that case.
- What happens to the unread remainder of an over-long line is left out. It stays in the input, and the next prompt's `scanf` reads it. `ReadField` reports how many characters it consumed, but the model does not chain reads.
- Character encoding is left out. Each `char` of the input stands for one byte, a C `char`. A multi-byte UTF-8 character counts as several, and a cut at the buffer bound can split one. The 49- and 9-character bounds, and `ShortLineReadWhole` and `EnterTypedLines`, are about bytes in this sense.
- Record contents are not checked by the store. `AddRecord` stores any record it is given. Only records built by `EnterRecord` are guaranteed to satisfy `FitsBuffers`.
- The float fields are opaque `real` values. No float arithmetic happens in the store.
- The concrete value of `sizeof(PartRecord)` is left out. It is a parameter that must be positive and below 2^32.
- `unsigned long` is taken to be 64 bits wide (LP64). On an LLP64 platform the cast at Lab2.c:114 would reduce modulo 2^32, which is not modelled.
- RecordStore.AddRecord: requires `recordCount < INT_MAX`. `*count + 1` overflowing a C `int` is undefined behaviour, and the model does not describe it.
- StoreLaws.Run: requires the start count plus the number of choices to be at most `INT_MAX`. That is enough for no add to overflow. Runs that would reach `INT_MAX` through intervening deletes are not covered.
- The actual memory behaviour of `realloc` and `free` is left out: addresses, moving blocks, and freeing the old block. Allocation success is an input flag. The final `free(database)` at exit (Lab2.c:85) releases storage at process end and is not modelled.
