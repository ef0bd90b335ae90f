/** The conversion log: the user enters an amount, a date, two currencies and a note;
    "Save Log" fetches that day's rate and, when the rate is present, appends an entry,
    saves the log and clears the form. The history lists the entries newest first. */
module Logs {
  import opened Common
  import Sorting

  datatype LogEntry = LogEntry(
    id: Uuid,
    timestamp: Instant,
    base: string,
    target: string,
    amount: real,
    convertedAmount: real,
    rate: real,
    note: string)

  /** The entry a response yields: it needs data, a decode, and the target among the
      rates; the converted amount is the amount times the rate. */
  function NewEntry(amount: real, result: Fetch<RateTable>, base: string, target: string, note: string,
                    timestamp: Instant, id: Uuid): (r: Option<LogEntry>)
    ensures r.Some? <==> result.Decoded? && target in result.body
    ensures r.Some? ==>
      && r.value.base == base && r.value.target == target && r.value.note == note
      && r.value.amount == amount && r.value.rate == result.body[target]
      && r.value.convertedAmount == amount * r.value.rate
      && r.value.timestamp == timestamp && r.value.id == id
  {
    match result
    case Decoded(rates) =>
      if target in rates
      then
        var rate := rates[target];
        Some(LogEntry(id, timestamp, base, target, amount, amount * rate, rate, note))
      else None
    case _ => None
  }

  function NegatedTimestamp(e: LogEntry): real {
    -e.timestamp
  }

  /** `logs.sorted(by: { $0.timestamp > $1.timestamp })`: the history, newest first. */
  function History(logs: seq<LogEntry>): (r: seq<LogEntry>)
    ensures forall i, j :: 0 <= i < j < |r| ==> r[i].timestamp >= r[j].timestamp
    ensures multiset(r) == multiset(logs)
  {
    var r := Sorting.SortBy(logs, NegatedTimestamp);
    assert forall i, j :: 0 <= i < j < |r| ==> NegatedTimestamp(r[i]) <= NegatedTimestamp(r[j]);
    r
  }

  class LogView {
    var logHistoryData: Stored<seq<LogEntry>>
    var logs: seq<LogEntry>
    var date: Instant
    var base: string
    var target: string
    var amount: string
    var note: string
    var isLoading: bool

    /** The view as created: the `@AppStorage` slot holds whatever a previous launch
        stored (`Unreadable` on first launch); the form has its defaults. */
    constructor (now: Instant, stored: Stored<seq<LogEntry>>)
      ensures logHistoryData == stored && logs == []
      ensures date == now && base == "USD" && target == "JPY" && amount == "" && note == "" && !isLoading
    {
      logHistoryData, logs := stored, [];
      date, base, target, amount, note, isLoading := now, "USD", "JPY", "", "", false;
    }

    /** The synchronous part of `fetchAndLog`: an amount that does not parse, or parses
        to NaN, returns at once with nothing changed; otherwise the flag is raised and
        the request is issued, carrying the parsed amount. */
    method FetchAndLog(parse: string -> Option<FloatValue>) returns (issued: Option<real>)
      modifies this`isLoading
      ensures issued.Some? <==> parse(amount).Some? && parse(amount).value.Finite?
      ensures issued.Some? ==> issued.value == parse(amount).value.value && isLoading
      ensures issued.None? ==> isLoading == old(isLoading)
    {
      var parsed := parse(amount);
      if !(parsed.Some? && parsed.value.Finite?) {
        return None;
      }
      isLoading := true;
      issued := Some(parsed.value.value);
    }

    /** The request's completion. On every path the flag goes down. When the rate is
        present one entry built from the form as it is now is appended at the end, the
        log is saved and the form is cleared; on every failure path (no data, a decode
        error, no rate for the target) the log, the storage and the form are unchanged. */
    method RateArrived(amountValue: real, result: Fetch<RateTable>, timestamp: Instant, now: Instant, id: Uuid)
      modifies this
      ensures !isLoading
      ensures base == old(base) && target == old(target)
      ensures var entry := NewEntry(amountValue, result, old(base), old(target), old(note), timestamp, id);
        && logs == old(logs) + entry.ToSeq()
        && (entry.None? ==>
              logHistoryData == old(logHistoryData) && amount == old(amount) && note == old(note) && date == old(date))
        && (entry.Some? ==>
              logHistoryData == Encoded(logs) && amount == "" && note == "" && date == now)
    {
      if result.NoData? {
        isLoading := false;
        return;
      }
      if result.Decoded? && target in result.body {
        var rate := result.body[target];
        var converted := amountValue * rate;
        var entry := LogEntry(id, timestamp, base, target, amountValue, converted, rate, note);
        var expected := NewEntry(amountValue, result, base, target, note, timestamp, id);
        assert expected.value.convertedAmount == converted;
        assert expected.ToSeq() == [entry];
        logs := logs + [entry];
        SaveLogs();
        ClearForm(now);
        isLoading := false;
      } else {
        isLoading := false;
      }
    }

    /** `saveLogs`: the log is encoded into the storage slot. */
    method SaveLogs()
      modifies this`logHistoryData
      ensures logHistoryData == Encoded(logs)
    {
      logHistoryData := Encoded(logs);
    }

    /** `loadLogs`: the stored log replaces the current one when it decodes; otherwise
        the current log is kept. */
    method LoadLogs()
      modifies this`logs
      ensures logs == (if logHistoryData.Encoded? then logHistoryData.value else old(logs))
    {
      if logHistoryData.Encoded? {
        logs := logHistoryData.value;
      }
    }

    /** `clearForm`: empty amount and note, and the date reset to now. */
    method ClearForm(now: Instant)
      modifies this`amount, this`note, this`date
      ensures amount == "" && note == "" && date == now
    {
      amount := "";
      note := "";
      date := now;
    }
  }
}
