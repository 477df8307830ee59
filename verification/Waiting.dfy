/** The operator's client follows one command until its outcome is known. */
module Waiting {
  import opened Messages
  import opened Receipts
  import opened Outcomes
  import opened Histories
  import opened Requests

  // What one poll of the coordinator brings; the deadline may pass instead of any of them.
  datatype Poll = Polled(record: Record) | NoRecord | TransportError | DeadlinePassed

  // What a lifecycle record may become; the answers about other commands are not compared.
  predicate RecordAdvances(a: Record, b: Record) {
    IsLifecycle(a.command.body) ==>
      && a.command == b.command
      && (b.receipt.None? ==> a.receipt.None?)
      && (b.receipt.Some? ==> Advance(a.receipt, b.receipt.value, a.command))
  }

  lemma RecordAdvancesTransitive(a: Record, b: Record, c: Record)
    requires RecordAdvances(a, b) && RecordAdvances(b, c)
    ensures RecordAdvances(a, c)
  {
    if IsLifecycle(a.command.body) && a.receipt.Some? {
      ExtendsTransitive(a.receipt.value, b.receipt.value, c.receipt.value);
    }
  }

  // The checks made on a lifecycle record before it is examined.
  predicate ReadableRecord(r: Record) {
    IsLifecycle(r.command.body) ==> ValidCommand(r.command, r.command.target) && DurableReceipt(r.receipt, r.command)
  }

  // A terminal record that is shown as an outcome: a lifecycle one is supported by its receipt.
  predicate Conclusive(r: Record) {
    && ReadableRecord(r) && Terminal(r.status)
    && (IsLifecycle(r.command.body) && r.status != Unavailable ==> ValidResult(RecordResult(r), r.command))
  }

  /** control.waitCommand.  Every lifecycle record that was examined extends all the earlier ones, so
      the operator sees one growing history; and a terminal record is only returned as success when
      its result is supported by its receipt. */
  method WaitCommand(first: Record, polls: seq<Poll>) returns (record: Record, ok: bool, seen: seq<Record>)
    ensures |seen| > 0 && seen[0] == first && record == seen[|seen| - 1]
    ensures |seen| <= |polls| + 1 && forall i | 0 < i < |seen| :: polls[i - 1] == Polled(seen[i])
    ensures forall i, j | 0 <= i <= j < |seen| :: i < j ==> RecordAdvances(seen[i], seen[j])
    ensures forall i | 0 <= i < |seen| - 1 :: ReadableRecord(seen[i]) && !Terminal(seen[i].status)
    ensures ReadableRecord(record) && !Terminal(record.status) ==>
              || |seen| > |polls| || !polls[|seen| - 1].Polled?
              || !RecordAdvances(record, polls[|seen| - 1].record)
    ensures ok <==> Conclusive(record)
  {
    hide ValidReceipt, ValidResult, Extends, ValidCommand;
    record, seen := first, [first];
    var next := 0;
    while true
      invariant next <= |polls| && |seen| == next + 1
      invariant forall i | 0 < i < |seen| :: polls[i - 1] == Polled(seen[i])
      invariant |seen| > 0 && seen[0] == first && record == seen[|seen| - 1]
      invariant forall i, j | 0 <= i <= j < |seen| :: i < j ==> RecordAdvances(seen[i], seen[j])
      invariant forall i | 0 <= i < |seen| - 1 :: ReadableRecord(seen[i]) && !Terminal(seen[i].status)
      decreases |polls| - next
    {
      var lifecycle := IsLifecycle(record.command.body);
      if lifecycle {
        if !ValidCommand(record.command, record.command.target) {
          return record, false, seen;
        }
        if record.receipt.Some? {
          var valid := ValidateReceipt(record.receipt.value, record.command);
          if !valid {
            return record, false, seen;
          }
        }
      }
      if Terminal(record.status) {
        ok := !lifecycle || record.status == Unavailable || ValidResult(RecordResult(record), record.command);
        return;
      }
      if next == |polls| || !polls[next].Polled? {
        return record, false, seen;
      }
      var answer := polls[next].record;
      if lifecycle {
        if answer.command != record.command {
          return record, false, seen;
        }
        if answer.receipt.Some? {
          var advances := ValidateAdvance(record.receipt, answer.receipt.value, record.command);
          if !advances {
            return record, false, seen;
          }
        } else if record.receipt.Some? {
          return record, false, seen;
        }
      }
      assert RecordAdvances(record, answer);
      forall i | 0 <= i < |seen| ensures RecordAdvances(seen[i], answer) {
        if i < |seen| - 1 { RecordAdvancesTransitive(seen[i], record, answer); }
      }
      record, seen, next := answer, seen + [answer], next + 1;
    }
  }
}
