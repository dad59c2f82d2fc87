/** The line comparisons of the CLI differential harness
    (crates/interop-tests/src/clidiff.rs, diff_lines and check_one_extra_line). */
module CliDiff {
  import opened Helpers

  type Line = string

  datatype Problem =
    | LineDiffers(what: string, line: nat, go: Option<Line>, ours: Option<Line>)
    | FurtherNotShown(what: string, goLines: nat, ourLines: nat)
    | NotOneMore(goLines: nat, ourLines: nat)
    | WrongExtraLine(expected: Line, got: Line)

  const MAX_REPORTED := 5

  function Get(lines: seq<Line>, i: nat): Option<Line> {
    if i < |lines| then Some(lines[i]) else None
  }

  // ---------------------------------------------------------------------------------------
  // diff_lines
  // ---------------------------------------------------------------------------------------

  predicate Differ(go: seq<Line>, ours: seq<Line>, i: nat) { Get(go, i) != Get(ours, i) }

  function Entry(what: string, go: seq<Line>, ours: seq<Line>, i: nat): Problem {
    LineDiffers(what, i + 1, Get(go, i), Get(ours, i))
  }

  /** One entry for every position below n at which the two streams differ, in order. */
  function Differences(what: string, go: seq<Line>, ours: seq<Line>, n: nat): seq<Problem> {
    if n == 0 then []
    else Differences(what, go, ours, n - 1) + if Differ(go, ours, n - 1) then [Entry(what, go, ours, n - 1)] else []
  }

  /** The first five differences, and a last line once there are five. */
  function Report(what: string, go: seq<Line>, ours: seq<Line>): seq<Problem> {
    var d := Differences(what, go, ours, Max(|go|, |ours|));
    if |d| < MAX_REPORTED then d else d[..MAX_REPORTED] + [FurtherNotShown(what, |go|, |ours|)]
  }

  lemma {:induction false} DifferencesExact(what: string, go: seq<Line>, ours: seq<Line>, n: nat, i: nat)
    ensures Entry(what, go, ours, i) in Differences(what, go, ours, n) <==> i < n && Differ(go, ours, i)
  {
    if n > 0 { DifferencesExact(what, go, ours, n - 1, i); }
  }

  lemma {:induction false} DifferencesPrefix(what: string, go: seq<Line>, ours: seq<Line>, m: nat, n: nat)
    requires m <= n
    ensures |Differences(what, go, ours, m)| <= |Differences(what, go, ours, n)|
    ensures Differences(what, go, ours, n)[..|Differences(what, go, ours, m)|] == Differences(what, go, ours, m)
  {
    if m < n { DifferencesPrefix(what, go, ours, m, n - 1); }
  }

  lemma {:induction false} NoDifferences(what: string, go: seq<Line>, n: nat)
    ensures Differences(what, go, go, n) == []
  {
    if n > 0 { NoDifferences(what, go, n - 1); }
  }

  /** Stream position i read out: the line there, or none past the end. */
  ghost predicate ReadsAt(lines: seq<Line>, i: nat, line: Option<Line>) {
    line == if i < |lines| then Some(lines[i]) else None
  }

  /** One entry for each of these positions: its line number, Go's line there and ours, which differ. */
  ghost predicate EntriesAt(what: string, go: seq<Line>, ours: seq<Line>, at: seq<nat>, entries: seq<Problem>) {
    && |entries| == |at|
    && (forall k :: 0 <= k < |at| ==>
          && entries[k].LineDiffers? && entries[k].what == what && entries[k].line == at[k] + 1
          && ReadsAt(go, at[k], entries[k].go) && ReadsAt(ours, at[k], entries[k].ours)
          && entries[k].go != entries[k].ours)
    && (forall j, k :: 0 <= j < k < |at| ==> at[j] < at[k])
  }

  /** The positions are the first at which the streams differ: all of them, or the first five. */
  ghost predicate FirstFive(go: seq<Line>, ours: seq<Line>, at: seq<nat>) {
    && |at| <= 5
    && (forall i: nat {:trigger Get(go, i)} :: Get(go, i) != Get(ours, i) ==> i in at || (|at| == 5 && i > at[4]))
  }

  /** What is reported: the first five differences in order, and after a fifth one more entry with both lengths. */
  ghost predicate ReportsFirstFive(what: string, go: seq<Line>, ours: seq<Line>, report: seq<Problem>) {
    exists at :: FirstFive(go, ours, at) && |at| <= |report| && EntriesAt(what, go, ours, at, report[..|at|])
                 && report[|at|..] == if |at| == 5 then [FurtherNotShown(what, |go|, |ours|)] else []
  }

  /** The positions below n at which the streams differ. */
  function DiffersAt(go: seq<Line>, ours: seq<Line>, n: nat): seq<nat> {
    if n == 0 then [] else DiffersAt(go, ours, n - 1) + if Get(go, n - 1) != Get(ours, n - 1) then [n - 1] else []
  }

  lemma EntriesSnoc(what: string, go: seq<Line>, ours: seq<Line>, at: seq<nat>, entries: seq<Problem>, i: nat)
    requires EntriesAt(what, go, ours, at, entries) && Differ(go, ours, i)
    requires forall k :: 0 <= k < |at| ==> at[k] < i
    ensures EntriesAt(what, go, ours, at + [i], entries + [Entry(what, go, ours, i)])
  {
  }

  lemma {:induction false} DifferencesAt(what: string, go: seq<Line>, ours: seq<Line>, n: nat)
    ensures EntriesAt(what, go, ours, DiffersAt(go, ours, n), Differences(what, go, ours, n))
    ensures forall k :: 0 <= k < |DiffersAt(go, ours, n)| ==> DiffersAt(go, ours, n)[k] < n
    ensures forall i: nat :: i in DiffersAt(go, ours, n) <==> i < n && Get(go, i) != Get(ours, i)
  {
    if n > 0 {
      DifferencesAt(what, go, ours, n - 1);
      if Differ(go, ours, n - 1) {
        EntriesSnoc(what, go, ours, DiffersAt(go, ours, n - 1), Differences(what, go, ours, n - 1), n - 1);
      }
    }
  }

  lemma ReportIsFirstFive(what: string, go: seq<Line>, ours: seq<Line>)
    ensures ReportsFirstFive(what, go, ours, Report(what, go, ours))
  {
    var n := Max(|go|, |ours|);
    var all, d, report := DiffersAt(go, ours, n), Differences(what, go, ours, n), Report(what, go, ours);
    DifferencesAt(what, go, ours, n);
    var at := if |all| < 5 then all else all[..5];
    forall i: nat | Get(go, i) != Get(ours, i) ensures i in at || (|at| == 5 && i > at[4]) {
      var k :| 0 <= k < |all| && all[k] == i;
      if k < 5 { assert at[k] == i; }
    }
    assert report[..|at|] == d[..|at|];
    assert FirstFive(go, ours, at) && EntriesAt(what, go, ours, at, report[..|at|]);
  }

  /** Nothing is reported exactly for equal streams. */
  lemma ReportEmpty(what: string, go: seq<Line>, ours: seq<Line>)
    ensures Report(what, go, ours) == [] <==> go == ours
  {
    var n := Max(|go|, |ours|);
    if go == ours {
      NoDifferences(what, go, n);
    } else {
      var i: nat := if |go| != |ours| then n - 1 else var i :| 0 <= i < n && go[i] != ours[i]; i;
      DifferencesExact(what, go, ours, n, i);
      assert Differ(go, ours, i);
    }
  }

  method DiffLines(what: string, go: seq<Line>, ours: seq<Line>, problems: seq<Problem>)
    returns (after: seq<Problem>)
    ensures after == problems + Report(what, go, ours)
    ensures after == problems <==> go == ours
  {
    ReportEmpty(what, go, ours);
    after := problems;
    if go != ours { after := ListDifferences(what, go, ours, problems); }
  }

  /** The loop of diff_lines, for streams that are not equal. */
  method ListDifferences(what: string, go: seq<Line>, ours: seq<Line>, problems: seq<Problem>)
    returns (after: seq<Problem>)
    ensures after == problems + Report(what, go, ours)
  {
    after := problems;
    var reported := 0;
    var n := Max(|go|, |ours|);
    for i := 0 to n
      invariant reported == |Differences(what, go, ours, i)| < MAX_REPORTED
      invariant after == problems + Differences(what, go, ours, i)
    {
      var (a, b) := (Get(go, i), Get(ours, i));
      if a == b { continue; }
      after := after + [LineDiffers(what, i + 1, a, b)];
      reported := reported + 1;
      if reported == MAX_REPORTED {
        DifferencesPrefix(what, go, ours, i + 1, n);
        after := after + [FurtherNotShown(what, |go|, |ours|)];
        return;
      }
    }
  }

  // ---------------------------------------------------------------------------------------
  // check_one_extra_line
  // ---------------------------------------------------------------------------------------

  /** Our lines are Go's with the extra one somewhere among them. */
  ghost predicate InsertedAt(extra: Line, go: seq<Line>, ours: seq<Line>, k: nat) {
    k <= |go| && ours == go[..k] + [extra] + go[k..]
  }

  ghost predicate OneLineInserted(extra: Line, go: seq<Line>, ours: seq<Line>) {
    exists k :: InsertedAt(extra, go, ours, k)
  }

  /** The first position at which the two disagree, or the end of Go's lines. */
  ghost predicate IsFirstMismatch(go: seq<Line>, ours: seq<Line>, at: nat) {
    && |ours| == |go| + 1 && at <= |go|
    && (forall i :: 0 <= i < at ==> ours[i] == go[i])
    && (at < |go| ==> ours[at] != go[at])
  }

  /** Wherever the line went in, taking out the first mismatch takes it out again: between the
      two lies a run of lines equal to it. */
  lemma FirstMismatchIsEnough(extra: Line, go: seq<Line>, ours: seq<Line>, at: nat)
    requires IsFirstMismatch(go, ours, at)
    ensures OneLineInserted(extra, go, ours) <==> ours[at] == extra && ours[..at] + ours[at + 1..] == go
  {
    if k: nat :| InsertedAt(extra, go, ours, k) {
      assert ours[k] == extra;
      assert at >= k;
      RunOfEqualLines(extra, go, ours, k, at);
      forall i | 0 <= i < |go| ensures (ours[..at] + ours[at + 1..])[i] == go[i] {
        if i >= at { assert ours[i + 1] == go[i]; }
      }
    }
    if ours[at] == extra && ours[..at] + ours[at + 1..] == go {
      assert go[..at] == ours[..at] && go[at..] == ours[at + 1..];
      assert InsertedAt(extra, go, ours, at);
    }
  }

  lemma {:induction false} RunOfEqualLines(extra: Line, go: seq<Line>, ours: seq<Line>, k: nat, at: nat)
    requires InsertedAt(extra, go, ours, k) && k <= at <= |go|
    requires forall i :: 0 <= i < at ==> ours[i] == go[i]
    ensures ours[at] == extra
  {
    if at > k {
      RunOfEqualLines(extra, go, ours, k, at - 1);
      assert ours[at] == go[at - 1];
    }
  }

  method CheckOneExtraLine(extra: Line, go: seq<Line>, ours: seq<Line>, problems: seq<Problem>)
    returns (after: seq<Problem>)
    ensures problems <= after
    ensures after == problems <==> OneLineInserted(extra, go, ours)
    ensures |ours| != |go| + 1 ==>
              after == problems + [NotOneMore(|go|, |ours|)] + Report("stderr", go, ours)
    ensures |ours| == |go| + 1 ==>
              exists at: nat :: IsFirstMismatch(go, ours, at)
                && after == problems + (if ours[at] != extra then [WrongExtraLine(extra, ours[at])] else [])
                            + Report("stderr (without the extra line)", go, ours[..at] + ours[at + 1..])
  {
    if |ours| != |go| + 1 {
      assert !OneLineInserted(extra, go, ours);
      after := DiffLines("stderr", go, ours, problems + [NotOneMore(|go|, |ours|)]);
      return;
    }
    var at := 0;
    while at < |go| && ours[at] == go[at]
      invariant at <= |go| && (forall i :: 0 <= i < at ==> ours[i] == go[i])
    {
      at := at + 1;
    }
    FirstMismatchIsEnough(extra, go, ours, at);
    var without := ours[..at] + ours[at + 1..];
    after := problems;
    if ours[at] != extra {
      after := after + [WrongExtraLine(extra, ours[at])];
    }
    after := DiffLines("stderr (without the extra line)", go, without, after);
    assert IsFirstMismatch(go, ours, at);
  }
}
