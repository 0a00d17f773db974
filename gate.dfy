/** The staleness gate `fetch_gs20_if_needed`: compares the stored month with
    the last completed month, fetches the monthly series only when they
    differ, and persists a truthy fetched value under that month.

    The remote series fetch is the parameter `remote`: `Some(v)` is the
    latest value the fetch would return, `None` means the fetch raises
    (an empty series, a transport error). `fetches` counts the calls made. */
module StalenessGate {
  import opened Values
  import opened Calendar
  import opened Gs20Store

  /** One gate call: the value it returns (or the exception it raises), the
      file afterwards, and how many remote fetches it made. */
  datatype GateStep = GateStep(result: Result<PyVal>, file: Option<Record>, fetches: nat)

  /** Python truthiness of `value and date` for a fetched number and a label. */
  predicate ShouldSave(value: real, date: string) {
    value != 0.0 && date != []
  }

  /** The gate as a function of the file, the clock and the remote answer. */
  function Gate(file: Option<Record>, now: Date, remote: Option<real>): GateStep
    requires ValidDate(now)
  {
    match LastCompletedMonthLabel(now)
    case Err(e) => GateStep(Err(e), file, 0)
    case Ok(previous) =>
      if ReadField(file, LastUpdatedKey) != Some(PyStr(previous)) then
        match remote
        case None => GateStep(Err(SeriesUnavailable), file, 1)
        case Some(v) =>
          GateStep(Ok(PyNum(v)), if ShouldSave(v, previous) then Some(SavedRecord(v, previous)) else file, 1)
      else
        GateStep(Ok(ReadField(file, ValueKey).value), file, 0)
  }

  /** `fetch_gs20_if_needed`, step by step over the store. Both calls to
      `get_last_completed_month` see the same clock `now`. */
  method FetchGs20IfNeeded(store: Store, now: Date, remote: Option<real>)
      returns (value: Result<PyVal>, fetches: nat)
    requires ValidDate(now)
    modifies store
    ensures GateStep(value, store.file, fetches) == Gate(old(store.file), now, remote)
  {
    fetches := 0;
    var previousMonth := LastCompletedMonthLabel(now);
    if previousMonth.Err? {
      return Err(previousMonth.error), fetches;
    }
    var lastUpdatedMonth := store.LastUpdatedMonth();
    var saved := store.LastSavedValue();
    if lastUpdatedMonth != Some(PyStr(previousMonth.value)) {
      fetches := fetches + 1;
      if remote.None? {
        return Err(SeriesUnavailable), fetches;
      }
      var fetched := remote.value;
      var date := LastCompletedMonthLabel(now).value;
      if ShouldSave(fetched, date) {
        store.SaveData(fetched, date);
      }
      value := Ok(PyNum(fetched));
    } else {
      value := Ok(saved.value);
    }
  }

  /** Whether the gate fetches depends only on the stored month: a stored
      label naming period `stored` is skipped exactly when `stored` is the
      last completed month. */
  lemma GateSkipsExactlyOnPreviousMonth(file: Option<Record>, now: Date, remote: Option<real>, stored: Period)
    requires ValidDate(now) && ValidPeriod(stored)
    requires LastCompletedMonth(now).Ok?
    requires file.Some? && LastUpdatedKey in file.value && file.value[LastUpdatedKey] == PyStr(Format(stored))
    ensures Gate(file, now, remote).fetches == 0 <==> stored == LastCompletedMonth(now).value
  {
    FormatInjective(stored, LastCompletedMonth(now).value);
  }

  /** Month transition: a file recorded under any other month than the last
      completed one (the clock has moved on) is fetched once and, for a
      nonzero value, rewritten under the new month. */
  lemma GateTransition(file: Option<Record>, now: Date, v: real, stored: Period)
    requires ValidDate(now) && ValidPeriod(stored)
    requires LastCompletedMonth(now).Ok? && stored != LastCompletedMonth(now).value
    requires file.Some? && LastUpdatedKey in file.value && file.value[LastUpdatedKey] == PyStr(Format(stored))
    requires v != 0.0
    ensures Gate(file, now, Some(v))
         == GateStep(Ok(PyNum(v)), Some(SavedRecord(v, Format(LastCompletedMonth(now).value))), 1)
  {
    FormatInjective(stored, LastCompletedMonth(now).value);
  }

  /** Skip branch: when the stored month is the last completed month, no
      fetch and no save happen, the file is unchanged and the stored value
      is returned as it is. */
  lemma GateSkip(file: Option<Record>, now: Date, remote: Option<real>)
    requires ValidDate(now)
    requires LastCompletedMonthLabel(now).Ok?
    requires ReadField(file, LastUpdatedKey) == Some(PyStr(LastCompletedMonthLabel(now).value))
    ensures file.Some?
    ensures Gate(file, now, remote) == GateStep(Ok(Lookup(file.value, ValueKey)), file, 0)
  {
  }

  /** Refresh branch: when the stored month differs, or there is no file,
      exactly one fetch happens; a truthy value replaces the whole file with
      `{value, last_updated: last completed month}`, a falsy one (zero)
      leaves the file alone, and the fetched value is returned either way.
      A fetch that raises leaves the file alone and propagates. */
  lemma GateRefresh(file: Option<Record>, now: Date, remote: Option<real>)
    requires ValidDate(now)
    requires LastCompletedMonthLabel(now).Ok?
    requires ReadField(file, LastUpdatedKey) != Some(PyStr(LastCompletedMonthLabel(now).value))
    ensures Gate(file, now, remote).fetches == 1
    ensures remote.None? ==> Gate(file, now, remote) == GateStep(Err(SeriesUnavailable), file, 1)
    ensures remote.Some? ==> Gate(file, now, remote).result == Ok(PyNum(remote.value))
    ensures remote.Some? && remote.value != 0.0 ==>
      Gate(file, now, remote).file == Some(SavedRecord(remote.value, LastCompletedMonthLabel(now).value))
    ensures remote == Some(0.0) ==> Gate(file, now, remote).file == file
  {
  }

  /** With no file on disk the gate always fetches. */
  lemma GateEmptyStoreFetches(now: Date, remote: Option<real>)
    requires ValidDate(now)
    requires LastCompletedMonth(now).Ok?
    ensures Gate(None, now, remote).fetches == 1
    ensures remote.Some? ==> Gate(None, now, remote).result == Ok(PyNum(remote.value))
  {
  }

  /** Idempotence: after a gate call that succeeded and did not leave a
      falsy fetched value unsaved, a second call on any day of the same
      calendar month makes no fetch, keeps the file and returns the same
      value. Over both calls at most one fetch happens. */
  lemma GateIdempotent(file: Option<Record>, now: Date, later: Date, first: Option<real>, second: Option<real>)
    requires ValidDate(now) && ValidDate(later)
    requires now.year == later.year && now.month == later.month
    requires Gate(file, now, first).result.Ok?
    requires Gate(file, now, first).fetches == 1 ==> first != Some(0.0)
    ensures Gate(Gate(file, now, first).file, later, second)
         == GateStep(Gate(file, now, first).result, Gate(file, now, first).file, 0)
    ensures Gate(file, now, first).fetches + Gate(Gate(file, now, first).file, later, second).fetches <= 1
  {
  }

  /** Whatever the gate writes is labelled with a completed month, never the
      current one: the file is either untouched or holds the last completed
      month's label. */
  lemma GateNeverRecordsCurrentMonth(file: Option<Record>, now: Date, remote: Option<real>)
    requires ValidDate(now)
    ensures Gate(file, now, remote).file == file ||
      (LastCompletedMonthLabel(now).Ok? && remote.Some? &&
       Gate(file, now, remote).file == Some(SavedRecord(remote.value, LastCompletedMonthLabel(now).value)) &&
       LastCompletedMonthLabel(now).value != CurrentMonthLabel(now))
  {
    LastCompletedIsNotCurrentLabel(now);
  }
}
