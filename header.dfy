/** Repair of the country reference file, which may carry a repeated header line
    (data_preparation.py:9-17, prepare_dashboard_data.py:9-17, prepare_growth_data.py:10-18). */
module HeaderRepair {
  import opened Wrappers

  /** The header line of the country reference file, end of line included. */
  const CountryHeader: string := "id,text,reporterCodeIsoAlpha3,world_part\n"

  /** Python's `lines.index(x, start)`: the first position at or after `start` holding `x`;
      None where Python raises ValueError. */
  function IndexFrom(lines: seq<string>, x: string, start: nat): (r: Option<nat>)
    ensures r.Some? ==> start <= r.value < |lines| && lines[r.value] == x
    ensures r.Some? ==> forall j :: start <= j < r.value ==> lines[j] != x
    ensures r.None? <==> forall j :: start <= j < |lines| ==> lines[j] != x
    decreases |lines| - start
  {
    if start >= |lines| then None
    else if lines[start] == x then Some(start)
    else IndexFrom(lines, x, start + 1)
  }

  /** True when line `i` (never the first line) is the first repeat of the header. */
  ghost predicate IsFirstRepeat(lines: seq<string>, i: int) {
    && 1 <= i < |lines|
    && lines[i] == CountryHeader
    && forall j :: 1 <= j < i ==> lines[j] != CountryHeader
  }

  /** Drop the first line after line 0 that equals the header; every other line stays,
      in order. Without such a line the file is unchanged. */
  function RepairHeader(lines: seq<string>): (r: seq<string>)
    ensures forall i :: IsFirstRepeat(lines, i) ==> r == lines[..i] + lines[i + 1..]
    ensures (forall j :: 1 <= j < |lines| ==> lines[j] != CountryHeader) ==> r == lines
    ensures |lines| > 0 ==> |r| > 0 && r[0] == lines[0]
  {
    match IndexFrom(lines, CountryHeader, 1)
    case Some(i) => lines[..i] + lines[i + 1..]
    case None => lines
  }

  /** A repaired file is one line shorter exactly when the header was repeated, and the
      lines it keeps are the original ones less one copy of the header. */
  lemma RepairRemovesOneHeader(lines: seq<string>)
    ensures (exists i :: 1 <= i < |lines| && lines[i] == CountryHeader) ==>
              |RepairHeader(lines)| == |lines| - 1
              && multiset(RepairHeader(lines)) + multiset{CountryHeader} == multiset(lines)
    ensures (forall i :: 1 <= i < |lines| ==> lines[i] != CountryHeader) ==>
              RepairHeader(lines) == lines
  {
    match IndexFrom(lines, CountryHeader, 1)
    case Some(i) =>
      assert lines == lines[..i] + [lines[i]] + lines[i + 1..];
    case None =>
  }
}
