/** Report assembly and fan-out from `main`: the opening prices of the fixed
    instruments, the body built line by line, and one send attempt per
    recipient. Number rendering is the abstract `fmt(x, digits)`, standing
    for Python's `f"{x:.<digits>f}"`. */
module Report {
  import opened Values

  /** Renders a number with a fixed count of decimals. */
  type Fmt = (real, nat) -> string

  /** One instrument's opening price, under its human-readable name. */
  datatype Quote = Quote(name: string, open: real)

  /** The instrument table of `fetch_financial_data`, in insertion order:
      (name, provider symbol). */
  const Tickers: seq<(string, string)> := [
    ("S&P 500", "^GSPC"),
    ("Nasdaq Composite", "^IXIC"),
    ("US 10 Year Treasury Yield", "^TNX")
  ]

  /** `fetch_financial_data` over the remote answers: `opens[i]` is the last
      opening price the one-day history of `Tickers[i]` holds, `None` when
      that history is empty and `iloc[-1]` raises. One missing price fails
      the whole snapshot; otherwise the prices come back in ticker order. */
  function FinancialData(opens: seq<Option<real>>): (r: Result<seq<Quote>>)
    requires |opens| == |Tickers|
    ensures r.Ok? <==> forall i :: 0 <= i < |opens| ==> opens[i].Some?
    ensures r.Ok? ==> |r.value| == |Tickers|
    ensures r.Ok? ==> forall i :: 0 <= i < |Tickers| ==> r.value[i] == Quote(Tickers[i].0, opens[i].value)
  {
    if forall i :: 0 <= i < |opens| ==> opens[i].Some? then
      Ok(seq(|opens|, i requires 0 <= i < |opens| => Quote(Tickers[i].0, opens[i].value)))
    else
      Err(SnapshotUnavailable)
  }

  function Header(timestamp: string): string {
    "Data for " + timestamp + ":\n\n"
  }

  function QuoteLine(q: Quote, fmt: Fmt): string {
    q.name + " Open: " + fmt(q.open, 2) + "\n"
  }

  function RateLine(rate: real, fmt: Fmt): string {
    "Exchange rate for GBP to USD: " + fmt(rate, 4) + "\n"
  }

  function Gs20Line(month: string, gs20: string): string {
    "FRED GS20 for " + month + ": " + gs20 + "\n"
  }

  /** `f"{gs20:.2f}"` on the gate's value: a number renders with two
      decimals; the empty string of a missing key raises ValueError and
      `None` raises TypeError. */
  function FormatGs20(gs20: PyVal, fmt: Fmt): (r: Result<string>)
    ensures r.Ok? <==> gs20.PyNum?
    ensures r.Ok? ==> r.value == fmt(gs20.x, 2)
  {
    match gs20
    case PyNum(x) => Ok(fmt(x, 2))
    case _ => Err(FormatError)
  }

  function QuoteLines(quotes: seq<Quote>, fmt: Fmt): (lines: seq<string>)
    ensures |lines| == |quotes|
    ensures forall i :: 0 <= i < |quotes| ==> lines[i] == QuoteLine(quotes[i], fmt)
  {
    seq(|quotes|, i requires 0 <= i < |quotes| => QuoteLine(quotes[i], fmt))
  }

  /** The report's lines in order: the timestamp header, one "Open" line per
      instrument in ticker order at two decimals, the FX line at four
      decimals, and last the GS20 line under the month label it is given. */
  function ReportLines(timestamp: string, quotes: seq<Quote>, rate: real, month: string, gs20: string, fmt: Fmt)
    : (lines: seq<string>)
    ensures |lines| == |quotes| + 3
    ensures lines[0] == Header(timestamp)
    ensures forall i :: 0 <= i < |quotes| ==> lines[i + 1] == QuoteLine(quotes[i], fmt)
    ensures lines[|quotes| + 1] == RateLine(rate, fmt)
    ensures lines[|quotes| + 2] == Gs20Line(month, gs20)
  {
    [Header(timestamp)] + QuoteLines(quotes, fmt) + [RateLine(rate, fmt), Gs20Line(month, gs20)]
  }

  /** The lines joined into one string. */
  function Concat(lines: seq<string>): string {
    if lines == [] then [] else Concat(lines[..|lines| - 1]) + lines[|lines| - 1]
  }

  lemma ConcatSnoc(lines: seq<string>, line: string)
    ensures Concat(lines + [line]) == Concat(lines) + line
  {
  }

  lemma {:induction false} ConcatCons(line: string, lines: seq<string>)
    ensures Concat([line] + lines) == line + Concat(lines)
  {
    if lines == [] {
      assert [line] + lines == [] + [line];
      ConcatSnoc([], line);
    } else {
      var init, last := lines[..|lines| - 1], lines[|lines| - 1];
      assert lines == init + [last];
      assert [line] + lines == ([line] + init) + [last];
      ConcatSnoc([line] + init, last);
      ConcatCons(line, init);
      ConcatSnoc(init, last);
    }
  }

  /** The body `main` sends, or the exception raised while building it. */
  function Body(timestamp: string, quotes: seq<Quote>, rate: real, month: string, gs20: PyVal, fmt: Fmt)
    : Result<string>
  {
    match FormatGs20(gs20, fmt)
    case Ok(g) => Ok(Concat(ReportLines(timestamp, quotes, rate, month, g, fmt)))
    case Err(e) => Err(e)
  }

  /** The body starts with the timestamp header and ends with the GS20 line;
      it fails exactly when the GS20 value is not a number. */
  lemma BodyShape(timestamp: string, quotes: seq<Quote>, rate: real, month: string, gs20: PyVal, fmt: Fmt)
    ensures Body(timestamp, quotes, rate, month, gs20, fmt).Ok? <==> gs20.PyNum?
    ensures gs20.PyNum? ==>
      var b := Body(timestamp, quotes, rate, month, gs20, fmt).value;
      var last := Gs20Line(month, fmt(gs20.x, 2));
      Header(timestamp) <= b && |last| <= |b| && b[|b| - |last|..] == last
  {
    if gs20.PyNum? {
      var g := fmt(gs20.x, 2);
      var lines := ReportLines(timestamp, quotes, rate, month, g, fmt);
      var last := Gs20Line(month, g);
      assert lines == [Header(timestamp)] + lines[1..];
      ConcatCons(Header(timestamp), lines[1..]);
      assert lines == lines[..|lines| - 1] + [last];
      ConcatSnoc(lines[..|lines| - 1], last);
    }
  }

  lemma QuoteLinesSnoc(quotes: seq<Quote>, i: nat, fmt: Fmt)
    requires i < |quotes|
    ensures QuoteLines(quotes[..i + 1], fmt) == QuoteLines(quotes[..i], fmt) + [QuoteLine(quotes[i], fmt)]
  {
  }

  /** The header and instrument lines joined, as the loop builds them. */
  function OpeningText(timestamp: string, quotes: seq<Quote>, fmt: Fmt): string {
    Concat([Header(timestamp)] + QuoteLines(quotes, fmt))
  }

  /** The body is the opening text, then the FX line, then the GS20 line. */
  lemma BodyAfterOpening(timestamp: string, quotes: seq<Quote>, rate: real, month: string, gs20: PyVal, fmt: Fmt)
    requires gs20.PyNum?
    ensures Body(timestamp, quotes, rate, month, gs20, fmt)
         == Ok(OpeningText(timestamp, quotes, fmt) + RateLine(rate, fmt) + Gs20Line(month, fmt(gs20.x, 2)))
  {
    var head := [Header(timestamp)] + QuoteLines(quotes, fmt);
    var last := Gs20Line(month, fmt(gs20.x, 2));
    assert ReportLines(timestamp, quotes, rate, month, fmt(gs20.x, 2), fmt) == (head + [RateLine(rate, fmt)]) + [last];
    ConcatSnoc(head + [RateLine(rate, fmt)], last);
    ConcatSnoc(head, RateLine(rate, fmt));
  }

  /** One more instrument line extends the opening text by that line. */
  lemma OpeningTextSnoc(timestamp: string, quotes: seq<Quote>, i: nat, fmt: Fmt)
    requires i < |quotes|
    ensures OpeningText(timestamp, quotes[..i + 1], fmt)
         == OpeningText(timestamp, quotes[..i], fmt) + QuoteLine(quotes[i], fmt)
  {
    QuoteLinesSnoc(quotes, i, fmt);
    assert [Header(timestamp)] + QuoteLines(quotes[..i + 1], fmt)
        == ([Header(timestamp)] + QuoteLines(quotes[..i], fmt)) + [QuoteLine(quotes[i], fmt)];
    ConcatSnoc([Header(timestamp)] + QuoteLines(quotes[..i], fmt), QuoteLine(quotes[i], fmt));
  }

  /** The body-building part of `main`: grows the text with `+=`, one line
      at a time, in the order ReportLines gives. */
  method ComposeBody(timestamp: string, quotes: seq<Quote>, rate: real, month: string, gs20: PyVal, fmt: Fmt)
      returns (body: Result<string>)
    ensures body == Body(timestamp, quotes, rate, month, gs20, fmt)
  {
    var text := Header(timestamp);
    assert text == OpeningText(timestamp, quotes[..0], fmt) by {
      assert [Header(timestamp)] + QuoteLines(quotes[..0], fmt) == [] + [Header(timestamp)];
      ConcatSnoc([], Header(timestamp));
    }
    for i := 0 to |quotes|
      invariant text == OpeningText(timestamp, quotes[..i], fmt)
    {
      OpeningTextSnoc(timestamp, quotes, i, fmt);
      text := text + QuoteLine(quotes[i], fmt);
    }
    assert quotes[..|quotes|] == quotes;
    text := text + RateLine(rate, fmt);
    var g := FormatGs20(gs20, fmt);
    if g.Err? {
      return Err(g.error);
    }
    text := text + Gs20Line(month, g.value);
    BodyAfterOpening(timestamp, quotes, rate, month, gs20, fmt);
    body := Ok(text);
  }

  const Subject := "Financial Data Update"

  /** What one call of `send_email` leaves behind: the message it tried to
      deliver and whether the transport accepted it. */
  datatype Attempt = Attempt(to: string, subject: string, body: string, delivered: bool)

  /** `send_email`: every transport failure is caught inside, so a send
      always returns normally; `accepted` is the transport's answer. */
  function SendEmail(subject: string, body: string, to: string, accepted: bool): (a: Attempt)
    ensures a.to == to && a.subject == subject && a.body == body && a.delivered == accepted
  {
    Attempt(to, subject, body, accepted)
  }

  /** The attempts the recipient loop makes, as a sequence. */
  function Attempts(subject: string, body: string, recipients: seq<string>, transport: seq<bool>): seq<Attempt>
    requires |transport| == |recipients|
  {
    seq(|recipients|, i requires 0 <= i < |recipients| => SendEmail(subject, body, recipients[i], transport[i]))
  }

  /** The recipient loop of `main`: every address gets exactly one attempt
      with the same subject and body, in list order, and a failed attempt
      does not stop the ones after it. `transport[i]` is the transport's
      answer to the i-th attempt. */
  method SendAll(subject: string, body: string, recipients: seq<string>, transport: seq<bool>)
      returns (log: seq<Attempt>)
    requires |transport| == |recipients|
    ensures |log| == |recipients|
    ensures forall i :: 0 <= i < |recipients| ==>
      log[i] == Attempt(recipients[i], subject, body, transport[i])
  {
    log := [];
    for i := 0 to |recipients|
      invariant |log| == i
      invariant forall k :: 0 <= k < i ==> log[k] == Attempt(recipients[k], subject, body, transport[k])
    {
      var attempt := SendEmail(subject, body, recipients[i], transport[i]);
      log := log + [attempt];
    }
  }
}
