/**
 * The `/analyze` request: normalise the two query parameters, reject a
 * missing or malformed symbol, download the bars, reject an empty or short
 * history, then report the snapshot, the score, the signal, the levels and
 * the position plan. The download is a parameter of the model.
 */
module Pipeline {
  import opened Wrappers
  import opened Text
  import opened Inputs
  import opened Indicators
  import opened Classifier
  import opened Planner

  /** The error responses, in the order the request checks for them. */
  datatype Failure =
    | NoSymbol
    | InvalidSymbol
    | DownloadFailed(detail: string)
    | EmptyData
    | InsufficientData

  /** The HTTP status sent with each error. */
  function StatusCode(f: Failure): (code: nat)
    ensures code == 500 <==> f.DownloadFailed?
    ensures code == 404 <==> f == EmptyData
    ensures code == 400 <==> f == NoSymbol || f == InvalidSymbol || f == InsufficientData
  {
    match f
    case NoSymbol => 400
    case InvalidSymbol => 400
    case DownloadFailed(_) => 500
    case EmptyData => 404
    case InsufficientData => 400
  }

  /**
   * The outcome of downloading the daily bars of a code: the bars in
   * ascending date order, or the text of the exception raised.
   */
  datatype Download = Bars(bars: seq<Bar>) | Raised(detail: string)

  /** The successful response. */
  datatype Report = Report(
    symbolInput: string,
    symbolUsed: string,
    snapshot: Snapshot,
    score: nat,
    signal: Signal,
    reasons: seq<Reason>,
    levels: Levels,
    capital: Option<real>,
    plan: Option<Plan>)

  /** Whether a download is a history too short for the 20-day average. */
  predicate ShortHistory(d: Download)
  {
    d.Bars? && 0 < |d.bars| < MinBars
  }

  /**
   * The request handler. The symbol and the capital are stripped first;
   * the download is asked for the six-digit code only once the symbol is
   * known to be valid.
   */
  function Analyze(rawSymbol: string, rawCapital: string, download: string -> Download)
    : (r: Result<Report, Failure>)
    ensures r == Failure(NoSymbol) <==> Strip(rawSymbol) == []
    ensures r == Failure(InvalidSymbol) <==> Strip(rawSymbol) != [] && |Digits(rawSymbol)| < 6
    ensures r.Failure? && r.error.DownloadFailed? <==>
              Strip(rawSymbol) != [] && |Digits(rawSymbol)| >= 6 &&
              download(BuildSymbol(rawSymbol)).Raised?
    ensures r.Failure? && r.error.DownloadFailed? ==>
              r.error == DownloadFailed(download(BuildSymbol(rawSymbol)).detail)
    ensures r == Failure(EmptyData) <==>
              Strip(rawSymbol) != [] && |Digits(rawSymbol)| >= 6 &&
              download(BuildSymbol(rawSymbol)) == Bars([])
    ensures r == Failure(InsufficientData) <==>
              Strip(rawSymbol) != [] && |Digits(rawSymbol)| >= 6 &&
              ShortHistory(download(BuildSymbol(rawSymbol)))
    ensures r.Success? ==>
              r.value.symbolUsed == BuildSymbol(rawSymbol) && r.value.symbolUsed != [] &&
              download(r.value.symbolUsed).Bars? && |download(r.value.symbolUsed).bars| >= MinBars &&
              r.value == ReportOf(Strip(rawSymbol), r.value.symbolUsed,
                                  SnapshotOf(download(r.value.symbolUsed).bars),
                                  ParseCapital(Strip(rawCapital)))
  {
    StripKeepsDecimals(rawSymbol);
    var symbolInput := Strip(rawSymbol);
    if symbolInput == [] then Failure(NoSymbol)
    else
      var symbol := BuildSymbol(symbolInput);
      assert symbol == BuildSymbol(rawSymbol) by {
        SymbolFromDigits(symbolInput, rawSymbol);
      }
      if symbol == [] then Failure(InvalidSymbol)
      else
        var capital := ParseCapital(Strip(rawCapital));
        match download(symbol)
        case Raised(detail) => Failure(DownloadFailed(detail))
        case Bars(bars) =>
          if bars == [] then Failure(EmptyData)
          else if |bars| < MinBars then Failure(InsufficientData)
          else Success(ReportOf(symbolInput, symbol, SnapshotOf(bars), capital))
  }

  /**
   * The report on the indicators of a long enough history. Its score and
   * reasons are those the four rules give the snapshot: the score counts
   * the positive reasons, of which there are two to four, and picks the
   * signal; its levels and plan are those of its close.
   */
  function ReportOf(symbolInput: string, symbol: string, s: Snapshot, capital: Option<real>)
    : (rep: Report)
    ensures rep.symbolInput == symbolInput && rep.symbolUsed == symbol
    ensures rep.capital == capital && rep.snapshot == s
    ensures rep.score == Points(s) && rep.reasons == Explain(s)
    ensures rep.score == CountPositive(rep.reasons) <= 4 && 2 <= |rep.reasons| <= 4
    ensures rep.signal == SignalOf(rep.score)
    ensures rep.levels == LevelsOf(s.close) && rep.plan == PlanOf(s.close, capital)
  {
    ScoreCountsPositiveReasons(s);
    var score := Points(s);
    Report(symbolInput, symbol, s, score, SignalOf(score), Explain(s),
           LevelsOf(s.close), capital, PlanOf(s.close, capital))
  }

  /** The code depends only on the digits of the input. */
  lemma SymbolFromDigits(a: string, b: string)
    requires Digits(a) == Digits(b)
    ensures BuildSymbol(a) == BuildSymbol(b)
  {
    if a == [] || b == [] {
      assert |Digits(a)| < 6 && |Digits(b)| < 6;
    }
  }

  /** The capital depends only on the digits and dots of the input. */
  lemma CapitalFromCleaned(a: string, b: string)
    requires Cleaned(a) == Cleaned(b)
    ensures ParseCapital(a) == ParseCapital(b)
  {
    if a == [] || b == [] {
      assert Cleaned(a) == [] && Cleaned(b) == [];
    }
  }

  /** Surrounding whitespace never changes how the capital reads. */
  lemma CapitalIgnoresWhitespace(raw: string)
    ensures ParseCapital(Strip(raw)) == ParseCapital(raw)
  {
    StripKeepsDecimals(raw);
    CapitalFromCleaned(Strip(raw), raw);
  }

  /** A symbol without six digits is rejected before any download. */
  lemma NoDownloadForInvalidSymbol(rawSymbol: string, rawCapital: string,
                                   d1: string -> Download, d2: string -> Download)
    requires |Digits(rawSymbol)| < 6
    ensures Analyze(rawSymbol, rawCapital, d1) == Analyze(rawSymbol, rawCapital, d2)
    ensures Analyze(rawSymbol, rawCapital, d1).Failure?
  {
    StripKeepsDecimals(rawSymbol);
    SymbolFromDigits(Strip(rawSymbol), rawSymbol);
  }

  /** Only the download of the code itself matters. */
  lemma DownloadsOnlyTheCode(rawSymbol: string, rawCapital: string,
                             d1: string -> Download, d2: string -> Download)
    requires d1(BuildSymbol(rawSymbol)) == d2(BuildSymbol(rawSymbol))
    ensures Analyze(rawSymbol, rawCapital, d1) == Analyze(rawSymbol, rawCapital, d2)
  {
    StripKeepsDecimals(rawSymbol);
    SymbolFromDigits(Strip(rawSymbol), rawSymbol);
  }

  /**
   * The capital never causes an error: an unreadable capital means no
   * position plan, and whether and how the request fails does not depend
   * on it.
   */
  lemma CapitalNeverRejects(rawSymbol: string, c1: string, c2: string, download: string -> Download)
    ensures Analyze(rawSymbol, c1, download).Failure? <==> Analyze(rawSymbol, c2, download).Failure?
    ensures Analyze(rawSymbol, c1, download).Failure? ==>
              Analyze(rawSymbol, c1, download) == Analyze(rawSymbol, c2, download)
  {
    StripKeepsDecimals(rawSymbol);
    SymbolFromDigits(Strip(rawSymbol), rawSymbol);
  }
}
