/** One run of `main`: fetch the instrument prices and the exchange rate,
    pass the staleness gate, build the body and attempt every recipient.
    The clock `now`, the timestamp text and every remote answer are
    parameters, so all month computations of one run see the same "now". */
module Invocation {
  import opened Values
  import opened Calendar
  import opened Gs20Store
  import opened StalenessGate
  import opened Report

  /** What a run leaves behind: the send attempts (or the exception that
      stopped it), the record file, and the count of monthly-series fetches. */
  datatype Run = Run(outcome: Result<seq<Attempt>>, file: Option<Record>, fetches: nat)

  predicate WellFormedInputs(now: Date, opens: seq<Option<real>>, recipients: seq<string>, transport: seq<bool>) {
    ValidDate(now) && |opens| == |Tickers| && |transport| == |recipients|
  }

  /** `main` as a function of the file and the run's inputs. `rate` is the
      exchange-rate answer (`None`: a non-200 status raised). */
  function RunSpec(file: Option<Record>, now: Date, timestamp: string, opens: seq<Option<real>>,
                   rate: Option<real>, remote: Option<real>, recipients: seq<string>, transport: seq<bool>, fmt: Fmt)
    : Run
    requires WellFormedInputs(now, opens, recipients, transport)
  {
    match FinancialData(opens)
    case Err(e) => Run(Err(e), file, 0)
    case Ok(quotes) =>
      match rate
      case None => Run(Err(RateUnavailable), file, 0)
      case Some(fx) =>
        match LastCompletedMonthLabel(now)
        case Err(e) => Run(Err(e), file, 0)
        case Ok(month) =>
          var gate := Gate(file, now, remote);
          match gate.result
          case Err(e) => Run(Err(e), gate.file, gate.fetches)
          case Ok(gs20) =>
            match Body(timestamp, quotes, fx, month, gs20, fmt)
            case Err(e) => Run(Err(e), gate.file, gate.fetches)
            case Ok(body) => Run(Ok(Attempts(Subject, body, recipients, transport)), gate.file, gate.fetches)
  }

  /** `main`, step by step. The GS20 month label is computed before the gate
      rather than after it: with one clock the label is the same, and its
      one failure (year-1 January) is raised by the gate's own first step
      before the gate touches anything. */
  method RunReport(store: Store, now: Date, timestamp: string, opens: seq<Option<real>>, rate: Option<real>,
                   remote: Option<real>, recipients: seq<string>, transport: seq<bool>, fmt: Fmt)
      returns (outcome: Result<seq<Attempt>>, fetches: nat)
    requires WellFormedInputs(now, opens, recipients, transport)
    modifies store
    ensures Run(outcome, store.file, fetches)
         == RunSpec(old(store.file), now, timestamp, opens, rate, remote, recipients, transport, fmt)
  {
    fetches := 0;
    var financialData := FinancialData(opens);
    if financialData.Err? {
      return Err(financialData.error), fetches;
    }
    if rate.None? {
      return Err(RateUnavailable), fetches;
    }
    var month := LastCompletedMonthLabel(now);
    if month.Err? {
      return Err(month.error), fetches;
    }
    var gs20;
    gs20, fetches := FetchGs20IfNeeded(store, now, remote);
    if gs20.Err? {
      return Err(gs20.error), fetches;
    }
    var body := ComposeBody(timestamp, financialData.value, rate.value, month.value, gs20.value, fmt);
    if body.Err? {
      return Err(body.error), fetches;
    }
    var log := SendAll(Subject, body.value, recipients, transport);
    assert log == Attempts(Subject, body.value, recipients, transport);
    outcome := Ok(log);
  }

  /** A missing instrument price or exchange rate stops the run before the
      gate: no monthly fetch, the file untouched, nothing sent. */
  lemma RunStopsBeforeGate(file: Option<Record>, now: Date, timestamp: string, opens: seq<Option<real>>,
                           rate: Option<real>, remote: Option<real>, recipients: seq<string>, transport: seq<bool>, fmt: Fmt)
    requires WellFormedInputs(now, opens, recipients, transport)
    requires (exists i :: 0 <= i < |opens| && opens[i].None?) || rate.None?
    ensures RunSpec(file, now, timestamp, opens, rate, remote, recipients, transport, fmt) == Run(
      Err(if FinancialData(opens).Err? then SnapshotUnavailable else RateUnavailable), file, 0)
  {
  }

  /** A run succeeds exactly when every price and the rate are present, the
      gate yields a number; then every recipient gets one attempt, in list
      order, all with the same body, which opens with the timestamp header
      and closes with the GS20 line labelled with the last completed month,
      never the current one. */
  lemma RunDelivers(file: Option<Record>, now: Date, timestamp: string, opens: seq<Option<real>>,
                    rate: Option<real>, remote: Option<real>, recipients: seq<string>, transport: seq<bool>, fmt: Fmt)
    requires WellFormedInputs(now, opens, recipients, transport)
    ensures RunSpec(file, now, timestamp, opens, rate, remote, recipients, transport, fmt).outcome.Ok?
      <==> (forall i :: 0 <= i < |opens| ==> opens[i].Some?) && rate.Some? && LastCompletedMonth(now).Ok? &&
           Gate(file, now, remote).result.Ok? && Gate(file, now, remote).result.value.PyNum?
    ensures RunSpec(file, now, timestamp, opens, rate, remote, recipients, transport, fmt).outcome.Ok? ==>
      var log := RunSpec(file, now, timestamp, opens, rate, remote, recipients, transport, fmt).outcome.value;
      var month := LastCompletedMonthLabel(now).value;
      var last := Gs20Line(month, fmt(Gate(file, now, remote).result.value.x, 2));
      && |log| == |recipients|
      && (forall i :: 0 <= i < |log| ==> log[i].to == recipients[i] && log[i].delivered == transport[i])
      && (forall i :: 0 <= i < |log| ==> log[i].body == log[0].body && log[i].subject == Subject)
      && (|log| > 0 ==>
            Header(timestamp) <= log[0].body && |last| <= |log[0].body| &&
            log[0].body[|log[0].body| - |last|..] == last)
      && month != CurrentMonthLabel(now)
  {
    var run := RunSpec(file, now, timestamp, opens, rate, remote, recipients, transport, fmt);
    if run.outcome.Ok? {
      var gs20 := Gate(file, now, remote).result.value;
      BodyShape(timestamp, FinancialData(opens).value, rate.value, LastCompletedMonthLabel(now).value, gs20, fmt);
      LastCompletedIsNotCurrentLabel(now);
    }
  }

  /** A worked run: on 15 July 2024 with no file, a monthly value of 4.05,
      three prices, a rate of 1.3 and three recipients of whom the second
      fails, the file ends up holding 4.05 under `2024-06`, one fetch was
      made, all three recipients were attempted, and the body is JulyBody. */
  lemma July2024Run(fmt: Fmt, a: string, b: string, c: string)
    ensures RunSpec(None, Date(2024, 7, 15), JulyStamp, JulyOpens, Some(1.3), Some(4.05),
                    [a, b, c], [true, false, true], fmt)
         == Run(Ok([Attempt(a, Subject, JulyBody(fmt), true),
                    Attempt(b, Subject, JulyBody(fmt), false),
                    Attempt(c, Subject, JulyBody(fmt), true)]),
                Some(SavedRecord(4.05, "2024-06")), 1)
  {
    JulyLabel(15);
    JulySnapshot();
    JulyGate();
    JulyComposition(fmt);
    var log := Attempts(Subject, JulyBody(fmt), [a, b, c], [true, false, true]);
    var expected := [Attempt(a, Subject, JulyBody(fmt), true),
                     Attempt(b, Subject, JulyBody(fmt), false),
                     Attempt(c, Subject, JulyBody(fmt), true)];
    forall i | 0 <= i < 3
      ensures log[i] == expected[i]
    {
      if i == 0 {
      } else if i == 1 {
      } else {
      }
    }
    assert log == expected;
  }

  const JulyStamp := "2024-07-15 06:00:00 PDT-0700"
  const JulyOpens: seq<Option<real>> := [Some(5500.12), Some(18000.55), Some(4.25)]
  const JulyQuotes := [Quote("S&P 500", 5500.12), Quote("Nasdaq Composite", 18000.55),
                       Quote("US 10 Year Treasury Yield", 4.25)]

  lemma JulySnapshot()
    ensures FinancialData(JulyOpens) == Ok(JulyQuotes)
  {
    assert forall i :: 0 <= i < |JulyOpens| ==> JulyOpens[i].Some?;
    var data := FinancialData(JulyOpens).value;
    assert |data| == |Tickers| == 3;
    forall i | 0 <= i < 3
      ensures data[i] == JulyQuotes[i]
    {
      if i == 0 {
      } else if i == 1 {
      } else {
      }
    }
    assert data == JulyQuotes;
  }

  lemma JulyGate()
    ensures Gate(None, Date(2024, 7, 15), Some(4.05))
         == GateStep(Ok(PyNum(4.05)), Some(SavedRecord(4.05, "2024-06")), 1)
  {
    JulyLabel(15);
  }

  lemma JulyComposition(fmt: Fmt)
    ensures Body(JulyStamp, JulyQuotes, 1.3, "2024-06", PyNum(4.05), fmt) == Ok(JulyBody(fmt))
  {
    BodyAfterOpening(JulyStamp, JulyQuotes, 1.3, "2024-06", PyNum(4.05), fmt);
    var lines := [Header(JulyStamp)] + QuoteLines(JulyQuotes, fmt);
    assert lines == [lines[0], lines[1], lines[2], lines[3]];
    ConcatSnoc([], lines[0]);
    assert [] + [lines[0]] == [lines[0]];
    ConcatSnoc([lines[0]], lines[1]);
    assert [lines[0]] + [lines[1]] == [lines[0], lines[1]];
    ConcatSnoc([lines[0], lines[1]], lines[2]);
    assert [lines[0], lines[1]] + [lines[2]] == [lines[0], lines[1], lines[2]];
    ConcatSnoc([lines[0], lines[1], lines[2]], lines[3]);
    assert [lines[0], lines[1], lines[2]] + [lines[3]] == lines;
    assert Concat(lines) == lines[0] + lines[1] + lines[2] + lines[3];
  }

  /** The body of the worked run, line by line. */
  function JulyBody(fmt: Fmt): string {
    Header(JulyStamp)
    + QuoteLine(Quote("S&P 500", 5500.12), fmt)
    + QuoteLine(Quote("Nasdaq Composite", 18000.55), fmt)
    + QuoteLine(Quote("US 10 Year Treasury Yield", 4.25), fmt)
    + RateLine(1.3, fmt)
    + Gs20Line("2024-06", fmt(4.05, 2))
  }
}
