/**
 * plmfit/shared_utils/data_explore.py: `parse_fasta`, the single-record FASTA reader.
 * Unlike `read_fasta` it tests for a header on the raw line, remembers only the last
 * header, and joins every other line (blank ones included, which add nothing).
 */
module DataExplore {
  import opened PyText

  /** A header line for `parse_fasta`: the raw line starts with '>'. */
  predicate IsRawHeader(line: string) {
    StartsWith(line, ">")
  }

  /** The id `parse_fasta` reports: the stripped text after '>' of the last header line, or
      the empty string when the file has no header line. */
  function LastHeaderId(lines: seq<string>): string {
    if lines == [] then ""
    else if IsRawHeader(lines[|lines| - 1]) then Strip(lines[|lines| - 1][1..])
    else LastHeaderId(lines[..|lines| - 1])
  }

  /** The sequence `parse_fasta` reports: every non-header line, stripped, joined in order. */
  function DataConcat(lines: seq<string>): string {
    if lines == [] then ""
    else if IsRawHeader(lines[|lines| - 1]) then DataConcat(lines[..|lines| - 1])
    else DataConcat(lines[..|lines| - 1]) + Strip(lines[|lines| - 1])
  }

  /** `parse_fasta(fasta_file, log)` over the file's lines; `log` only prints. */
  method ParseFasta(lines: seq<string>, log: bool) returns (sequenceId: string, sequence: string)
    ensures sequenceId == LastHeaderId(lines)
    ensures sequence == DataConcat(lines)
  {
    sequenceId := "";
    sequence := "";
    var n := 0;
    while n < |lines|
      invariant 0 <= n <= |lines|
      invariant sequenceId == LastHeaderId(lines[..n])
      invariant sequence == DataConcat(lines[..n])
    {
      var line := lines[n];
      assert lines[..n + 1][..n] == lines[..n];
      if StartsWith(line, ">") {
        sequenceId := Strip(line[1..]);
      } else {
        sequence := sequence + Strip(line);
      }
      n := n + 1;
    }
    assert lines[..n] == lines;
  }

  /** Without a header line the id is the empty string. */
  lemma {:induction false} NoHeaderNoId(lines: seq<string>)
    requires forall i :: 0 <= i < |lines| ==> !IsRawHeader(lines[i])
    ensures LastHeaderId(lines) == ""
    decreases |lines|
  {
    if lines != [] {
      var front := lines[..|lines| - 1];
      assert forall i :: 0 <= i < |front| ==> front[i] == lines[i];
      NoHeaderNoId(front);
    }
  }

  /** The id is the one of the last header line, wherever the data lines after it are. */
  lemma {:induction false} LastHeaderIdIsLast(lines: seq<string>, j: nat)
    requires j < |lines| && IsRawHeader(lines[j])
    requires forall i :: j < i < |lines| ==> !IsRawHeader(lines[i])
    ensures LastHeaderId(lines) == Strip(lines[j][1..])
    decreases |lines|
  {
    var front := lines[..|lines| - 1];
    if j < |front| {
      assert !IsRawHeader(lines[|lines| - 1]);
      forall i | j < i < |front| ensures !IsRawHeader(front[i]) {
        assert front[i] == lines[i];
      }
      assert front[j] == lines[j];
      LastHeaderIdIsLast(front, j);
    }
  }

  /** An empty file gives the pair ('', ''). */
  lemma ParseFastaOfEmpty()
    ensures LastHeaderId([]) == "" && DataConcat([]) == ""
  {
  }

  /** Files are read line by line: the sequence of a longer file extends the sequence of its
      first part by the stripped data lines of the rest. */
  lemma {:induction false} DataConcatAppend(a: seq<string>, b: seq<string>)
    ensures DataConcat(a + b) == DataConcat(a) + DataConcat(b)
    decreases |b|
  {
    if b == [] {
      assert a + b == a;
    } else {
      var front := b[..|b| - 1];
      assert (a + b)[..|a + b| - 1] == a + front;
      assert (a + b)[|a + b| - 1] == b[|b| - 1];
      DataConcatAppend(a, front);
    }
  }

  /** A line with white space before its '>' is not a header: it is stripped and appended to
      the sequence, '>' included, and the id stays as it was. */
  lemma IndentedHeaderIsData(lines: seq<string>, line: string)
    requires |line| > 1 && IsSpace(line[0]) && line[1] == '>'
    ensures LastHeaderId(lines + [line]) == LastHeaderId(lines)
    ensures DataConcat(lines + [line]) == DataConcat(lines) + Strip(line)
  {
    assert !IsRawHeader(line);
    assert (lines + [line])[..|lines|] == lines;
  }
}
