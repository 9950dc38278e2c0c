/**
 * The bounded text read used for the two character-array fields of a part
 * record: `fgets` into a fixed buffer, `strlen` on the result, and removal of
 * one trailing newline. The console stream is modelled as the sequence of
 * characters still waiting to be read. Each `char` of the input stands for
 * one byte, a C `char`: a multi-byte UTF-8 character counts as several, and a
 * cut at the buffer bound can split one.
 */
module BoundedText {

  /** What one bounded read leaves in the record field. */
  datatype FieldRead =
    | EndOfInput                          // `fgets` hit end of input before reading anything
    | Read(text: string, consumed: nat)   // the stored C string, and how many characters `fgets` took

  /** A C string never contains its terminator. */
  predicate NoNul(s: string) {
    '\0' !in s
  }

  /**
   * The number of characters `fgets` takes from `input` when it may store at
   * most `limit` of them: it stops after the first newline, at the limit, or
   * at the end of the input.
   */
  function LineSpan(input: seq<char>, limit: nat): (n: nat)
    ensures n <= limit && n <= |input|
    ensures limit > 0 && |input| > 0 ==> n > 0
    ensures forall i :: 0 <= i < n - 1 ==> input[i] != '\n'
    ensures n < limit && n < |input| ==> n > 0 && input[n - 1] == '\n'
    decreases limit
  {
    if limit == 0 || |input| == 0 then 0
    else if input[0] == '\n' then 1
    else 1 + LineSpan(input[1..], limit - 1)
  }

  /** The characters `strlen` sees: everything before the first NUL. */
  function CString(buf: seq<char>): (s: string)
    ensures s <= buf
    ensures NoNul(s)
    ensures |s| < |buf| ==> buf[|s|] == '\0'
  {
    if |buf| == 0 || buf[0] == '\0' then []
    else [buf[0]] + CString(buf[1..])
  }

  /** Overwrite a trailing newline with the terminator, as the caller of `fgets` does. */
  function StripNewline(s: string): (t: string)
    ensures t <= s
    ensures |s| > 0 && s[|s| - 1] == '\n' ==> |t| == |s| - 1
    ensures !(|s| > 0 && s[|s| - 1] == '\n') ==> t == s
  {
    if |s| > 0 && s[|s| - 1] == '\n' then s[..|s| - 1] else s
  }

  /**
   * `fgets(buf, bufSize, stdin)` followed by the strip of one trailing
   * newline. The stored text fits the buffer with its terminator, never holds
   * a newline, and is what `fgets` took less one trailing newline; a NUL
   * among the characters taken ends the stored text early.
   */
  function ReadField(input: seq<char>, bufSize: nat): (r: FieldRead)
    requires bufSize >= 2
    ensures r.EndOfInput? <==> |input| == 0
    ensures r.Read? ==> r.consumed == LineSpan(input, bufSize - 1)
    ensures r.Read? ==> 1 <= r.consumed <= bufSize - 1 && r.consumed <= |input|
    ensures r.Read? ==> |r.text| <= bufSize - 1
    ensures r.Read? ==> r.text <= input[..r.consumed]
    ensures r.Read? ==> '\n' !in r.text && NoNul(r.text)
    ensures r.Read? && NoNul(input[..r.consumed]) ==>
      input[..r.consumed] == r.text || input[..r.consumed] == r.text + ['\n']
    ensures r.Read? && !NoNul(input[..r.consumed]) ==>
      |r.text| < r.consumed && input[|r.text|] == '\0'
  {
    if |input| == 0 then EndOfInput
    else
      var n := LineSpan(input, bufSize - 1);
      var raw := input[..n];
      var s := CString(raw);
      StrippedLineShape(raw);
      Read(StripNewline(s), n)
  }

  /**
   * For the characters `fgets` took, which hold a newline at most at the end,
   * what is stored holds no newline: it is what was taken less one trailing
   * newline or, when a NUL was taken, everything before the first NUL.
   */
  lemma StrippedLineShape(raw: seq<char>)
    requires forall i :: 0 <= i < |raw| - 1 ==> raw[i] != '\n'
    ensures '\n' !in StripNewline(CString(raw))
    ensures NoNul(raw) ==> raw == StripNewline(CString(raw)) || raw == StripNewline(CString(raw)) + ['\n']
    ensures !NoNul(raw) ==> |StripNewline(CString(raw))| < |raw| && raw[|StripNewline(CString(raw))|] == '\0'
  {
  }

  /** Size of the `partName` buffer, `char partName[50]`. */
  const NameBufferSize: nat := 50

  /** Size of the `sizeMetric` buffer, `char sizeMetric[10]`. */
  const MetricBufferSize: nat := 10

  /** Reading the part name stores at most 49 characters and no newline. */
  function ReadPartName(input: seq<char>): (r: FieldRead)
    ensures r.EndOfInput? <==> |input| == 0
    ensures r.Read? ==> |r.text| < NameBufferSize && '\n' !in r.text && NoNul(r.text) && r.text <= input
  {
    ReadField(input, NameBufferSize)
  }

  /** Reading the size metric stores at most 9 characters and no newline. */
  function ReadSizeMetric(input: seq<char>): (r: FieldRead)
    ensures r.EndOfInput? <==> |input| == 0
    ensures r.Read? ==> |r.text| < MetricBufferSize && '\n' !in r.text && NoNul(r.text) && r.text <= input
  {
    ReadField(input, MetricBufferSize)
  }

  /** A line shorter than the buffer is taken with its newline, and stored without it. */
  lemma {:induction false} ShortLineReadWhole(line: string, tail: seq<char>, bufSize: nat)
    requires bufSize >= 2
    requires |line| <= bufSize - 2
    requires '\n' !in line && NoNul(line)
    ensures ReadField(line + ['\n'] + tail, bufSize) == Read(line, |line| + 1)
  {
    var input := line + ['\n'] + tail;
    LineSpanStopsAtNewline(line, tail, bufSize - 1);
    assert input[..|line| + 1] == line + ['\n'];
    CStringWithoutNul(line + ['\n']);
    assert (line + ['\n'])[..|line|] == line;
  }

  /** The last line of the input, with no newline after it, is stored whole when it fits. */
  lemma FinalLineReadWhole(line: string, bufSize: nat)
    requires bufSize >= 2
    requires 0 < |line| <= bufSize - 1
    requires '\n' !in line && NoNul(line)
    ensures ReadField(line, bufSize) == Read(line, |line|)
  {
  }

  /** A line too long for the buffer is silently cut at `bufSize - 1` characters. */
  lemma LongLineTruncated(input: seq<char>, bufSize: nat)
    requires bufSize >= 2
    requires |input| >= bufSize - 1
    requires '\n' !in input[..bufSize - 1] && NoNul(input[..bufSize - 1])
    ensures ReadField(input, bufSize) == Read(input[..bufSize - 1], bufSize - 1)
  {
  }

  /** A NUL typed into a field ends the stored text, though `fgets` reads on to the newline. */
  lemma EmbeddedNulEndsField()
    ensures ReadField("ab\0cd\n", NameBufferSize) == Read("ab", 6)
  {

  }

  lemma {:induction false} LineSpanStopsAtNewline(line: string, tail: seq<char>, limit: nat)
    requires '\n' !in line && |line| < limit
    ensures LineSpan(line + ['\n'] + tail, limit) == |line| + 1
    decreases |line|
  {
    var input := line + ['\n'] + tail;
    if |line| == 0 {
      assert input[0] == '\n';
    } else {
      assert input[0] == line[0];
      assert input[1..] == line[1..] + ['\n'] + tail;
      LineSpanStopsAtNewline(line[1..], tail, limit - 1);
    }
  }

  /** A buffer holding no NUL is seen whole by `strlen`. */
  lemma CStringWithoutNul(s: seq<char>)
    requires NoNul(s)
    ensures CString(s) == s
  {
  }
}
