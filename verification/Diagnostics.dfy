/** diagnostics.py: the record of a session, and the bounded history file it is kept in. */
module Diagnostics {
  import opened Mail
  import opened Protocol
  import opened Runs

  const MAX_DIAGNOSTIC_RECORDS := 200

  datatype Status = Completed | FailedStatus | Cancelled

  datatype Phase =
    | Unspecified | Startup | Classification | ThreatProtection | GraphPhase | ProofPhase | MailboxActions
    | PostScan | CompletedPhase

  datatype Diagnostic = Diagnostic(status: Status, phase: Phase, processed: int, applied: int, outcome: MailboxOutcome)
  {
    // What the dataclass checks when it is built.
    predicate Valid() { (status == Completed <==> phase == CompletedPhase) && processed >= 0 && applied >= 0 }
  }

  // diagnostic_from_summary
  function DiagnosticFromSummary(r: Report): (d: Diagnostic)
    ensures d.Valid()
  {
    Diagnostic(Completed, CompletedPhase, r.processed, r.applied,
               if r.changes || r.applied > 0 then Changed else Unchanged)
  }

  // diagnostic_for_terminal_status, of a session that failed or was cancelled in some phase.
  function TerminalDiagnostic(status: Status, phase: Phase, processed: int,
                              outcome: MailboxOutcome): (r: Result<Diagnostic>)
    ensures r.Ok? <==> (status == Completed <==> phase == CompletedPhase) && processed >= 0
    ensures r.Ok? ==> r.value.Valid() && r.value.applied == 0
  {
    var d := Diagnostic(status, phase, processed, 0, outcome);
    if d.Valid() then Ok(d) else Rejected
  }

  // ---- older records ----

  // A line of the file.  The phase and the outcome were added after the first records were written.
  datatype Line = Line(status: Status, processed: int, applied: int, phase: Option<Phase>,
                       outcome: Option<MailboxOutcome>)

  function Write(d: Diagnostic): Line { Line(d.status, d.processed, d.applied, Some(d.phase), Some(d.outcome)) }

  // The same record as the first versions wrote it.
  function Legacy(d: Diagnostic): Line { Write(d).(phase := None, outcome := None) }

  function FallbackPhase(line: Line): Phase { if line.status == Completed then CompletedPhase else Unspecified }

  function FallbackOutcome(line: Line): MailboxOutcome {
    if line.status != Completed then Unknown else if line.applied > 0 then Changed else Unchanged
  }

  // latest_diagnostic: what the record has wins over the fallback.
  function Read(line: Line): Diagnostic {
    Diagnostic(line.status, if line.phase.Some? then line.phase.value else FallbackPhase(line),
               line.processed, line.applied, if line.outcome.Some? then line.outcome.value else FallbackOutcome(line))
  }

  // An older record of a completed run is read as the newer one exactly when the change of the mailbox shows
  // in the applied count: a run that only marked messages is read as unchanged.
  lemma LegacyAgreesExactlyWhen(r: Report)
    ensures Read(Legacy(DiagnosticFromSummary(r))) == DiagnosticFromSummary(r) <==> (r.changes ==> r.applied > 0)
    ensures r.changes && r.applied == 0 ==>
      Read(Legacy(DiagnosticFromSummary(r))).outcome == Unchanged && DiagnosticFromSummary(r).outcome == Changed
  {
  }

  // ---- the file ----

  function LastOf<T>(s: seq<T>, n: nat): (r: seq<T>)
    ensures |r| == if |s| <= n then |s| else n
  {
    if |s| <= n then s else s[|s| - n..]
  }

  function AppendAll(lines: seq<Line>, records: seq<Diagnostic>): seq<Line> {
    if records == [] then lines
    else
      LastOf(AppendAll(lines, records[..|records| - 1]), MAX_DIAGNOSTIC_RECORDS - 1) + [Write(records[|records| - 1])]
  }

  function WriteAll(records: seq<Diagnostic>): (lines: seq<Line>)
    ensures |lines| == |records|
  {
    seq(|records|, i requires 0 <= i < |records| => Write(records[i]))
  }

  // After any number of appends to any file: the last records of all, in order, and never more than the bound.
  lemma {:induction false} FileKeepsTheLatest(lines: seq<Line>, records: seq<Diagnostic>)
    requires records != []
    ensures AppendAll(lines, records) == LastOf(lines + WriteAll(records), 200)
    ensures Read(AppendAll(lines, records)[|AppendAll(lines, records)| - 1]) == records[|records| - 1]
  {
    var n := |records| - 1;
    var before, last := records[..n], Write(records[n]);
    var all := lines + WriteAll(before);
    assert WriteAll(records) == WriteAll(before) + [last];
    assert lines + WriteAll(records) == all + [last];
    if before == [] {
      assert all == lines;
    } else {
      FileKeepsTheLatest(lines, before);
    }
    assert LastOf(LastOf(all, MAX_DIAGNOSTIC_RECORDS), MAX_DIAGNOSTIC_RECORDS - 1)
      == LastOf(all, MAX_DIAGNOSTIC_RECORDS - 1);
    assert LastOf(all, MAX_DIAGNOSTIC_RECORDS - 1) + [last] == LastOf(all + [last], MAX_DIAGNOSTIC_RECORDS);
  }

  class DiagnosticFile {
    var lines: seq<Line>

    constructor ()
      ensures lines == []
    {
      lines := [];
    }

    // _append_diagnostic_unlocked: the file is replaced as a whole.
    method Append(record: Diagnostic)
      requires record.Valid()
      modifies this
      ensures lines == AppendAll(old(lines), [record])
      ensures |lines| <= MAX_DIAGNOSTIC_RECORDS && Read(lines[|lines| - 1]) == record
    {
      var prior := if |lines| <= MAX_DIAGNOSTIC_RECORDS - 1 then lines
        else lines[|lines| - (MAX_DIAGNOSTIC_RECORDS - 1)..];
      assert [record][..0] == [];
      lines := prior + [Write(record)];
    }
  }
}
