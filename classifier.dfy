/**
 * The four-rule short-term scorer of `analyze`: each rule looks at one
 * indicator of the snapshot, may add a point, and may add a reason; the
 * total score then picks the signal.
 */
module Classifier {
  import opened Wrappers
  import opened Indicators

  /** The reasons the scorer can give, one constructor per message. */
  datatype Reason =
    | AboveMa20       // close above the 20-day line: safe
    | BelowMa20       // close at or below the 20-day line: risky
    | ShortAboveLong  // the 5-day line is above the 20-day line
    | VolumeSurge     // volume more than 1.5 times the previous day's
    | VolumeFlat      // volume ordinary or falling
    | RsiHealthy      // RSI within [45, 60]
    | RsiOverheated   // RSI above 70
    | RsiOversold     // RSI below 30

  /** The recommendation reported as BUY_STRONG, WATCH or AVOID. */
  datatype Signal = BuyStrong | Watch | Avoid

  /** The four rules, in the order the scorer applies them. */
  datatype Rule = Trend | Cross | Volume | Momentum

  /** Position of a rule in the scoring order, from 1 to 4. */
  function Order(rule: Rule): nat
  {
    match rule
    case Trend => 1
    case Cross => 2
    case Volume => 3
    case Momentum => 4
  }

  /** The rule that gives a reason. */
  function RuleOf(r: Reason): Rule
  {
    match r
    case AboveMa20 | BelowMa20 => Trend
    case ShortAboveLong => Cross
    case VolumeSurge | VolumeFlat => Volume
    case RsiHealthy | RsiOverheated | RsiOversold => Momentum
  }

  /** The reasons that come with a point. */
  predicate Positive(r: Reason)
  {
    r == AboveMa20 || r == ShortAboveLong || r == VolumeSurge || r == RsiHealthy
  }

  // ---------------------------------------------------------------------
  // Specification: what each rule decides
  // ---------------------------------------------------------------------

  /**
   * Whether a rule scores on a snapshot. A healthy RSI is neither
   * overheated nor oversold, and a volume surge is a rise in volume.
   */
  predicate Holds(rule: Rule, s: Snapshot): (b: bool)
    ensures rule == Momentum && b ==> s.rsi.Some? && 30.0 <= s.rsi.value <= 70.0
    ensures rule == Volume && b && s.volumePrev >= 0.0 ==> s.volumeToday > s.volumePrev
  {
    match rule
    case Trend => s.close > s.ma20
    case Cross => s.ma5 > s.ma20
    case Volume => s.volumeToday > s.volumePrev * 1.5
    case Momentum => s.rsi.Some? && 45.0 <= s.rsi.value <= 60.0
  }

  /** What a rule says about a snapshot: no reason or one. */
  function Said(rule: Rule, s: Snapshot): (rs: seq<Reason>)
    ensures |rs| <= 1
    ensures forall r :: r in rs ==> RuleOf(r) == rule
    ensures forall r :: r in rs ==> (Positive(r) <==> Holds(rule, s))
    ensures Holds(rule, s) ==> |rs| == 1
  {
    match rule
    case Trend => if Holds(Trend, s) then [AboveMa20] else [BelowMa20]
    case Cross => if Holds(Cross, s) then [ShortAboveLong] else []
    case Volume => if Holds(Volume, s) then [VolumeSurge] else [VolumeFlat]
    case Momentum =>
      if Holds(Momentum, s) then [RsiHealthy]
      else if s.rsi.Some? && s.rsi.value > 70.0 then [RsiOverheated]
      else if s.rsi.Some? && s.rsi.value < 30.0 then [RsiOversold]
      else []
  }

  /** One point for a rule that holds, none otherwise. */
  function Point(rule: Rule, s: Snapshot): (p: nat)
    ensures p <= 1
    ensures p == 1 <==> Holds(rule, s)
  {
    if Holds(rule, s) then 1 else 0
  }

  /** The score: the number of rules that hold. */
  function Points(s: Snapshot): (n: nat)
    ensures n <= 4
    ensures n == 4 <==> forall rule: Rule :: Holds(rule, s)
    ensures n == 0 <==> forall rule: Rule :: !Holds(rule, s)
  {
    Point(Trend, s) + Point(Cross, s) + Point(Volume, s) + Point(Momentum, s)
  }

  /** The reasons, rule by rule in scoring order. */
  function Explain(s: Snapshot): (rs: seq<Reason>)
    ensures 2 <= |rs| <= 4
  {
    Said(Trend, s) + Said(Cross, s) + Said(Volume, s) + Said(Momentum, s)
  }

  /** The signal a score selects. */
  function SignalOf(score: int): (sig: Signal)
    ensures sig == BuyStrong <==> score >= 3
    ensures sig == Watch <==> score == 2
    ensures sig == Avoid <==> score <= 1
  {
    if score >= 3 then BuyStrong
    else if score == 2 then Watch
    else Avoid
  }

  // ---------------------------------------------------------------------
  // The scorer as `analyze` runs it
  // ---------------------------------------------------------------------

  /**
   * Applies the four rules in order, accumulating a score and a list of
   * reasons, then picks the signal from the score.
   */
  method Classify(s: Snapshot) returns (score: nat, reasons: seq<Reason>, signal: Signal)
    ensures score == Points(s)
    ensures reasons == Explain(s)
    ensures signal == SignalOf(score)
  {
    score := 0;
    reasons := [];

    if s.close > s.ma20 {
      score := score + 1;
      reasons := reasons + [AboveMa20];
    } else {
      reasons := reasons + [BelowMa20];
    }
    assert score == Point(Trend, s) && reasons == Said(Trend, s);

    if s.ma5 > s.ma20 {
      score := score + 1;
      reasons := reasons + [ShortAboveLong];
    }
    assert score == Point(Trend, s) + Point(Cross, s);
    assert reasons == Said(Trend, s) + Said(Cross, s);

    if s.volumeToday > s.volumePrev * 1.5 {
      score := score + 1;
      reasons := reasons + [VolumeSurge];
    } else {
      reasons := reasons + [VolumeFlat];
    }
    assert score == Point(Trend, s) + Point(Cross, s) + Point(Volume, s);
    assert reasons == Said(Trend, s) + Said(Cross, s) + Said(Volume, s);

    // An undefined RSI passes none of the three comparisons.
    if s.rsi.Some? {
      var rsi := s.rsi.value;
      if 45.0 <= rsi <= 60.0 {
        score := score + 1;
        reasons := reasons + [RsiHealthy];
      } else if rsi > 70.0 {
        reasons := reasons + [RsiOverheated];
      } else if rsi < 30.0 {
        reasons := reasons + [RsiOversold];
      }
    }

    if score >= 3 {
      signal := BuyStrong;
    } else if score == 2 {
      signal := Watch;
    } else {
      signal := Avoid;
    }
  }

  // ---------------------------------------------------------------------
  // Properties of the score and the reasons
  // ---------------------------------------------------------------------

  /** The number of reasons that come with a point. */
  function CountPositive(rs: seq<Reason>): (n: nat)
    ensures n <= |rs|
  {
    if rs == [] then 0
    else (if Positive(rs[0]) then 1 else 0) + CountPositive(rs[1..])
  }

  lemma {:induction false} CountPositiveAppend(a: seq<Reason>, b: seq<Reason>)
    ensures CountPositive(a + b) == CountPositive(a) + CountPositive(b)
    decreases |a|
  {
    if a == [] {
      assert a + b == b;
    } else {
      assert (a + b)[1..] == a[1..] + b;
      CountPositiveAppend(a[1..], b);
    }
  }

  /** Each rule's reasons carry exactly the point that rule scores. */
  lemma SaidCarriesPoint(rule: Rule, s: Snapshot)
    ensures CountPositive(Said(rule, s)) == Point(rule, s)
  {
    var rs := Said(rule, s);
    if rs != [] {
      assert rs == [rs[0]];
      assert rs[1..] == [];
    }
  }

  /**
   * The score is the number of positive reasons: a point is never given
   * without its reason, and no reason claims a point not given. Hence
   * the score never exceeds the number of reasons.
   */
  lemma ScoreCountsPositiveReasons(s: Snapshot)
    ensures Points(s) == CountPositive(Explain(s))
    ensures Points(s) <= |Explain(s)|
  {
    var a, b, c, d := Said(Trend, s), Said(Cross, s), Said(Volume, s), Said(Momentum, s);
    CountPositiveAppend(a, b);
    CountPositiveAppend(a + b, c);
    CountPositiveAppend(a + b + c, d);
    SaidCarriesPoint(Trend, s);
    SaidCarriesPoint(Cross, s);
    SaidCarriesPoint(Volume, s);
    SaidCarriesPoint(Momentum, s);
  }

  /**
   * The reasons follow the rule order: each rule speaks at most once, and
   * no reason comes before one of an earlier rule.
   */
  lemma ReasonsInRuleOrder(s: Snapshot)
    ensures var rs := Explain(s);
      forall i, j :: 0 <= i < j < |rs| ==> Order(RuleOf(rs[i])) < Order(RuleOf(rs[j]))
  {
    var a, b, c, d := Said(Trend, s), Said(Cross, s), Said(Volume, s), Said(Momentum, s);
    var rs := a + b + c + d;
    forall i | 0 <= i < |rs|
      ensures Order(RuleOf(rs[i])) == if i < |a| then 1
                                     else if i < |a| + |b| then 2
                                     else if i < |a| + |b| + |c| then 3
                                     else 4
    {
      if i < |a| {
        assert rs[i] == a[i] && a[i] in a;
      } else if i < |a| + |b| {
        assert rs[i] == b[i - |a|] && b[i - |a|] in b;
      } else if i < |a| + |b| + |c| {
        assert rs[i] == c[i - |a| - |b|] && c[i - |a| - |b|] in c;
      } else {
        assert rs[i] == d[i - |a| - |b| - |c|] && d[i - |a| - |b| - |c|] in d;
      }
    }
  }

  /** Rule 1 and rule 3 always give exactly one reason; rule 2 only when it scores. */
  lemma RulesThatAlwaysSpeak(s: Snapshot)
    ensures |Said(Trend, s)| == 1
    ensures |Said(Volume, s)| == 1
    ensures |Said(Cross, s)| == Point(Cross, s)
  {
  }

  /** Each reason appears exactly when its test on the snapshot passes. */
  lemma ReasonsMatchTests(s: Snapshot)
    ensures AboveMa20 in Explain(s) <==> s.close > s.ma20
    ensures BelowMa20 in Explain(s) <==> s.close <= s.ma20
    ensures ShortAboveLong in Explain(s) <==> s.ma5 > s.ma20
    ensures VolumeSurge in Explain(s) <==> s.volumeToday > s.volumePrev * 1.5
    ensures VolumeFlat in Explain(s) <==> s.volumeToday <= s.volumePrev * 1.5
    ensures RsiHealthy in Explain(s) <==> s.rsi.Some? && 45.0 <= s.rsi.value <= 60.0
    ensures RsiOverheated in Explain(s) <==> s.rsi.Some? && s.rsi.value > 70.0
    ensures RsiOversold in Explain(s) <==> s.rsi.Some? && s.rsi.value < 30.0
  {
    var a, b, c, d := Said(Trend, s), Said(Cross, s), Said(Volume, s), Said(Momentum, s);
    forall r: Reason
      ensures r in Explain(s) <==> r in Said(RuleOf(r), s)
    {
      assert Explain(s) == a + b + c + d;
    }
  }

  /**
   * An undefined RSI, or one in the dead bands (60, 70] and [30, 45), adds
   * neither a point nor a reason.
   */
  lemma QuietMomentum(s: Snapshot)
    requires s.rsi.None? || 60.0 < s.rsi.value <= 70.0 || 30.0 <= s.rsi.value < 45.0
    ensures Point(Momentum, s) == 0
    ensures forall r :: r in Explain(s) ==> RuleOf(r) != Momentum
    ensures |Explain(s)| == 2 + Point(Cross, s)
  {
    assert Said(Momentum, s) == [];
    assert Explain(s) == Said(Trend, s) + Said(Cross, s) + Said(Volume, s);
  }

  /** Ranking of signals: AVOID below WATCH below BUY_STRONG. */
  function Rank(sig: Signal): nat
  {
    match sig
    case Avoid => 0
    case Watch => 1
    case BuyStrong => 2
  }

  /** A higher score never gives a weaker signal. */
  lemma SignalMonotone(x: int, y: int)
    requires x <= y
    ensures Rank(SignalOf(x)) <= Rank(SignalOf(y))
  {
  }

  /** Passing one more rule never weakens the signal. */
  lemma MoreRulesStrongerSignal(s: Snapshot, t: Snapshot)
    requires forall rule: Rule :: Holds(rule, s) ==> Holds(rule, t)
    ensures Points(s) <= Points(t)
    ensures Rank(SignalOf(Points(s))) <= Rank(SignalOf(Points(t)))
  {
    assert Point(Trend, s) <= Point(Trend, t);
    assert Point(Cross, s) <= Point(Cross, t);
    assert Point(Volume, s) <= Point(Volume, t);
    assert Point(Momentum, s) <= Point(Momentum, t);
    SignalMonotone(Points(s), Points(t));
  }

  /**
   * A close above both averages, a short average above the long one,
   * volume doubled and an RSI of 50 pass all four rules: BUY_STRONG.
   */
  lemma AllRulesPassExample()
    ensures var s := Snapshot(103.0, 102.0, 100.0, 1000000.0, 500000.0, Some(50.0));
      Points(s) == 4 && SignalOf(Points(s)) == BuyStrong &&
      Explain(s) == [AboveMa20, ShortAboveLong, VolumeSurge, RsiHealthy]
  {
  }
}
