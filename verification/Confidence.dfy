/** Scoring answers over the reals: the softmax and expected score of
    decision/systemone.go, and the confidence that it and decision/kev.go compute. */
module Confidence {
  import opened Results
  import Permutations

  /** What is known of the exponential function: positive and increasing. */
  ghost predicate Exponential(exp: real -> real) {
    (forall x :: exp(x) > 0.0) && forall x, y | x < y :: exp(x) < exp(y)
  }

  function Sum(s: seq<real>): real {
    if s == [] then 0.0 else Sum(s[..|s| - 1]) + s[|s| - 1]
  }

  lemma SumSnoc(s: seq<real>, x: real)
    ensures Sum(s + [x]) == Sum(s) + x
  {
    assert (s + [x])[..|s|] == s;
  }

  /** Quotients and products under a name, so that proofs need not look into them. */
  function Ratio(a: real, d: real): real
    requires d != 0.0
  {
    a / d
  }

  function Product(a: real, b: real): real { a * b }

  function Abs(x: real): real { if x < 0.0 then -x else x }

  /** Position k holds the largest value, and no earlier one does. */
  predicate FirstMax(s: seq<real>, k: nat) {
    k < |s| && (forall i | 0 <= i < |s| :: s[i] <= s[k]) && forall i | 0 <= i < k :: s[i] < s[k]
  }

  lemma FirstMaxUnique(s: seq<real>, j: nat, k: nat)
    requires FirstMax(s, j) && FirstMax(s, k)
    ensures j == k
  {
    assert s[j] <= s[k] && s[k] <= s[j];
  }

  method Max(s: seq<real>) returns (peak: real)
    requires s != []
    ensures peak in s && forall i | 0 <= i < |s| :: s[i] <= peak
  {
    peak := s[0];
    for i := 1 to |s|
      invariant peak in s && forall k | 0 <= k < i :: s[k] <= peak
    {
      if s[i] > peak { peak := s[i]; }
    }
  }

  /** The first position of the largest value: find the value, then where it is. */
  method IndexOfMax(s: seq<real>) returns (k: nat)
    requires s != []
    ensures FirstMax(s, k)
  {
    var peak := Max(s);
    k := 0;
    while s[k] != peak
      invariant k < |s| && (forall i | 0 <= i < k :: s[i] != peak) && exists i | k <= i < |s| :: s[i] == peak
      decreases |s| - k
    {
      k := k + 1;
    }
  }

  // ---- Softmax ------------------------------------------------------------

  /** Logits scored in another order, back in the order of the choices. */
  method Reordered(order: seq<int>, logits: seq<real>) returns (ordered: seq<real>)
    requires order == [] || Permutations.IsPermutation(order, |logits|)
    ensures |ordered| == |logits|
    ensures order == [] ==> ordered == logits
    ensures forall j | 0 <= j < |order| :: 0 <= order[j] < |logits| && ordered[order[j]] == logits[j]
  {
    if |order| == 0 { return logits; }
    var out := new real[|logits|](_ => 0.0);
    for j := 0 to |order|
      invariant forall k | 0 <= k < j :: out[order[k]] == logits[k]
    {
      out[order[j]] := logits[j];
    }
    ordered := out[..];
  }

  /** Weights over their sum. */
  function Shares(w: seq<real>): (p: seq<real>)
    requires Sum(w) > 0.0
    ensures |p| == |w| && forall i | 0 <= i < |w| :: p[i] == Ratio(w[i], Sum(w))
  {
    seq(|w|, i requires 0 <= i < |w| => Ratio(w[i], Sum(w)))
  }

  function Weights(exp: real -> real, logits: seq<real>, peak: real): (w: seq<real>)
    ensures |w| == |logits| && forall i | 0 <= i < |w| :: w[i] == exp(logits[i] - peak)
  {
    seq(|logits|, i requires 0 <= i < |logits| => exp(logits[i] - peak))
  }

  /** The expected position. */
  function Expected(p: seq<real>): real {
    if p == [] then 0.0 else Expected(p[..|p| - 1]) + Product((|p| - 1) as real, p[|p| - 1])
  }

  /** Positive numbers that add up to one. */
  ghost predicate Distribution(p: seq<real>) {
    p != [] && (forall i | 0 <= i < |p| :: p[i] > 0.0) && Sum(p) == 1.0
  }

  lemma {:induction false} SumPositive(w: seq<real>)
    requires w != [] && forall i | 0 <= i < |w| :: w[i] > 0.0
    ensures Sum(w) > 0.0
  {
    if |w| == 1 {
      assert w[..0] == [] && Sum(w) == 0.0 + w[0];
    } else {
      SumPositive(w[..|w| - 1]);
    }
  }

  lemma {:induction false} SumScaled(w: seq<real>, p: seq<real>, d: real)
    requires |w| == |p| && d != 0.0 && forall i | 0 <= i < |w| :: p[i] == Ratio(w[i], d)
    ensures Sum(p) == Ratio(Sum(w), d)
  {
    RatioFacts(0.0, 0.0, d);
    if w != [] {
      hide Ratio;
      var n := |w| - 1;
      SumScaled(w[..n], p[..n], d);
      RatioFacts(Sum(w[..n]), w[n], d);
    }
  }

  lemma RatioFacts(a: real, b: real, d: real)
    requires d != 0.0
    ensures Ratio(a, d) + Ratio(b, d) == Ratio(a + b, d) && Ratio(0.0, d) == 0.0 && Ratio(d, d) == 1.0
  {}

  lemma RatioPositive(a: real, d: real)
    requires a > 0.0 && d > 0.0
    ensures Ratio(a, d) > 0.0
  {}

  /** Weights are shared out as a distribution. */
  lemma SharesAdd(w: seq<real>)
    requires w != [] && forall i | 0 <= i < |w| :: w[i] > 0.0
    ensures Sum(w) > 0.0 && Distribution(Shares(w))
  {
    hide Ratio, Sum;
    SumPositive(w);
    var p, d := Shares(w), Sum(w);
    SumScaled(w, p, d);
    RatioFacts(0.0, 0.0, d);
    forall i | 0 <= i < |p| ensures p[i] > 0.0 { RatioPositive(w[i], d); }
  }

  /** Each logit's weight, and the sum of them. */
  method Weigh(exp: real -> real, logits: seq<real>, peak: real, q: array<real>) returns (sum: real)
    requires q.Length == |logits|
    modifies q
    ensures q[..] == Weights(exp, logits, peak) && sum == Sum(Weights(exp, logits, peak))
  {
    hide Sum;
    ghost var w := Weights(exp, logits, peak);
    sum := 0.0;
    NoSum();
    for j := 0 to |logits|
      invariant q[..j] == w[..j] && sum == Sum(w[..j])
    {
      assert w[..j + 1] == w[..j] + [w[j]];
      SumSnoc(w[..j], w[j]);
      q[j] := exp(logits[j] - peak);
      sum := sum + q[j];
      assert q[..j + 1] == q[..j] + [w[j]];
    }
    assert w[..|logits|] == w && q[..|logits|] == q[..];
  }

  /** Divides each weight by the sum, and takes the expected position. */
  method Share(q: array<real>, sum: real) returns (score: real)
    requires sum == Sum(q[..]) > 0.0
    modifies q
    ensures q[..] == Shares(old(q[..])) && score == Expected(Shares(old(q[..])))
  {
    hide Sum, Expected, Ratio, Product;
    ghost var w, s := q[..], Shares(q[..]);
    NoSum();
    score := 0.0;
    for j := 0 to q.Length
      invariant q[..j] == s[..j] && q[j..] == w[j..] && score == Expected(s[..j])
    {
      assert q[j] == q[j..][0];
      q[j] := Ratio(q[j], sum);
      score := score + Product(j as real, q[j]);
      ExpectedSnoc(s, j);
      assert q[..j + 1] == q[..j] + [s[j]];
    }
    assert s[..q.Length] == s && q[..q.Length] == q[..];
  }

  /** The probabilities of the choices and their expected position: a distribution, and
      the shares of weights that grow with the logit. */
  method Probabilities(exp: real -> real, logits: seq<real>) returns (p: seq<real>, score: real, ghost peak: real)
    requires Exponential(exp) && logits != []
    ensures peak in logits && forall i | 0 <= i < |logits| :: logits[i] <= peak
    ensures Sum(Weights(exp, logits, peak)) > 0.0 && p == Shares(Weights(exp, logits, peak))
    ensures Distribution(p) && score == Expected(p)
  {
    hide Sum, Expected, Ratio, Distribution;
    var top := Max(logits);
    peak := top;
    SharesAdd(Weights(exp, logits, peak));
    var q := new real[|logits|](_ => 0.0);
    var sum := Weigh(exp, logits, top, q);
    score := Share(q, sum);
    p := q[..];
  }

  lemma NoSum()
    ensures Sum([]) == 0.0 && Expected([]) == 0.0
  {}

  lemma ExpectedSnoc(s: seq<real>, j: nat)
    requires j < |s|
    ensures Expected(s[..j + 1]) == Expected(s[..j]) + Product(j as real, s[j])
  {
    assert s[..j + 1][..j] == s[..j];
  }

  /** The most likely choice is the first one with the largest logit. */
  lemma WinnerIsTopLogit(exp: real -> real, logits: seq<real>, peak: real, k: nat)
    requires Exponential(exp) && Sum(Weights(exp, logits, peak)) > 0.0
    ensures FirstMax(Shares(Weights(exp, logits, peak)), k) <==> FirstMax(logits, k)
  {
    hide Ratio, Sum;
    var w := Weights(exp, logits, peak);
    var p, d := Shares(w), Sum(w);
    forall i, j | 0 <= i < |p| && 0 <= j < |p| ensures p[i] < p[j] <==> logits[i] < logits[j] {
      if logits[i] < logits[j] { Quotients(w[i], w[j], d); }
      if logits[j] < logits[i] { Quotients(w[j], w[i], d); }
      if logits[i] == logits[j] { assert w[i] == w[j]; }
    }
  }

  lemma Quotients(a: real, b: real, d: real)
    requires a < b && d > 0.0
    ensures Ratio(a, d) < Ratio(b, d)
  {}

  lemma {:induction false} ExpectedBound(p: seq<real>, top: nat)
    requires forall i | 0 <= i < |p| :: p[i] >= 0.0
    requires |p| <= top + 1
    ensures 0.0 <= Expected(p) <= Product(top as real, Sum(p))
  {
    ProductFacts(0.0, top as real, 0.0, 0.0);
    if p != [] {
      hide Product;
      var n := |p| - 1;
      ExpectedBound(p[..n], top);
      ProductFacts(n as real, top as real, Sum(p[..n]), p[n]);
    }
  }

  lemma ProductFacts(a: real, b: real, x: real, y: real)
    requires 0.0 <= a <= b && y >= 0.0
    ensures 0.0 <= Product(a, y) <= Product(b, y) && Product(b, x + y) == Product(b, x) + Product(b, y) &&
              Product(b, 0.0) == 0.0
  {}

  /** The score lies on the scale 0 to n - 1. */
  lemma ScoreInRange(p: seq<real>)
    requires Distribution(p)
    ensures 0.0 <= Expected(p) <= (|p| - 1) as real
  {
    ExpectedBound(p, |p| - 1);
  }

  // ---- Confidence ---------------------------------------------------------

  /** How far the distribution lies from position k, on average. */
  function Spread(p: seq<real>, k: nat): real {
    if p == [] then 0.0 else Spread(p[..|p| - 1], k) + Product(p[|p| - 1], Abs((|p| - 1) as real - k as real))
  }

  /** How far positions 0 to n - 1 lie from c, in total. */
  function Deviation(n: nat, c: real): real {
    if n == 0 then 0.0 else Deviation(n - 1, c) + Abs((n - 1) as real - c)
  }

  lemma SpreadSnoc(p: seq<real>, i: nat, k: nat)
    requires i < |p|
    ensures Spread(p[..i + 1], k) == Spread(p[..i], k) + Product(p[i], Abs(i as real - k as real))
  {
    assert p[..i + 1][..i] == p[..i];
  }

  function Center(n: nat): real { (n - 1) as real / 2.0 }

  /** The spread around a position, and the mean deviation from the center. */
  method SpreadAndDeviation(p: seq<real>, k: nat) returns (spread: real, deviation: real)
    requires p != []
    ensures spread == Spread(p, k) && deviation == Ratio(Deviation(|p|, Center(|p|)), |p| as real)
  {
    hide Product, Abs, Ratio, Center;
    var center := Center(|p|);
    spread, deviation := 0.0, 0.0;
    for i := 0 to |p|
      invariant spread == Spread(p[..i], k) && deviation == Deviation(i, center)
    {
      SpreadSnoc(p, i, k);
      spread := spread + Product(p[i], Abs(i as real - k as real));
      deviation := deviation + Abs(i as real - center);
    }
    assert p[..|p|] == p;
    deviation := Ratio(deviation, |p| as real);
  }

  /** The first largest position, by comparing as it goes. */
  method Mode(p: seq<real>) returns (mode: nat)
    requires p != []
    ensures FirstMax(p, mode)
  {
    mode := 0;
    for i := 1 to |p|
      invariant 0 <= mode < i && FirstMax(p[..i], mode)
    {
      assert p[..i + 1] == p[..i] + [p[i]];
      if p[i] > p[mode] { mode := i; }
    }
    assert p[..|p|] == p;
  }

  function Floor0(x: real): real { if x > 0.0 then x else 0.0 }

  function Clamp(x: real): real { if x < 0.0 then 0.0 else if x > 1.0 then 1.0 else x }

  function Uniform(n: nat): (u: real)
    requires n > 0
  {
    Ratio(1.0, n as real)
  }

  lemma UniformBelowOne(n: nat)
    requires n > 1
    ensures 0.0 < Uniform(n) < 1.0
  {}

  /** How far the mode's probability lies between uniform and certain. */
  function Lead(p: seq<real>, mode: nat): real
    requires |p| > 1 && mode < |p|
  {
    UniformBelowOne(|p|);
    Ratio(p[mode] - Uniform(|p|), 1.0 - Uniform(|p|))
  }

  lemma {:induction false} DeviationPositive(n: nat, c: real)
    requires n > 1
    ensures Deviation(n, c) > 0.0
  {
    if n == 2 {
      assert Deviation(2, c) == Deviation(1, c) + Abs(1.0 - c) && Deviation(1, c) == Deviation(0, c) + Abs(0.0 - c);
    } else {
      DeviationPositive(n - 1, c);
    }
  }

  lemma MeanDeviation(n: nat)
    requires n > 0
    ensures Ratio(Deviation(n, Center(n)), n as real) == 0.0 <==> n == 1
    ensures n > 1 ==> Ratio(Deviation(n, Center(n)), n as real) > 0.0
  {
    if n > 1 {
      DeviationPositive(n, Center(n));
      RatioPositive(Deviation(n, Center(n)), n as real);
    } else {
      assert Center(1) == 0.0 && Deviation(1, 0.0) == Deviation(0, 0.0) + Abs(0.0);
    }
  }

  /** How far the distribution is from as spread out as uniform. */
  function Focus(p: seq<real>, mode: nat): real
    requires |p| > 1
  {
    MeanDeviation(|p|);
    Floor0(1.0 - Ratio(Spread(p, mode), Ratio(Deviation(|p|, Center(|p|)), |p| as real)))
  }

  /** The confidence that kev answers come with. */
  method KevConfidence(p: seq<real>, choice: bool) returns (confidence: real)
    requires p != []
    ensures |p| == 1 ==> confidence == 1.0
    ensures |p| > 1 ==>
              exists mode: nat :: FirstMax(p, mode) && confidence == if choice then Lead(p, mode) else Focus(p, mode)
  {
    hide Ratio, Spread, Deviation, Center, FirstMax;
    if |p| == 1 { return 1.0; }
    var mode := Mode(p);
    ModeInRange(p, mode);
    if choice {
      var uniform := Uniform(|p|);
      UniformBelowOne(|p|);
      return Ratio(p[mode] - uniform, 1.0 - uniform);
    }
    var spread, deviation := SpreadAndDeviation(p, mode);
    MeanDeviation(|p|);
    confidence := Floor0(1.0 - Ratio(spread, deviation));
  }

  lemma ModeInRange(p: seq<real>, mode: nat)
    requires FirstMax(p, mode)
    ensures mode < |p|
  {}

  /** How many options a pplx question may have. Fewer levels than two are refused both
      when a request's limits are checked and when its questions are encoded. */
  predicate PplxAccepts(n: nat, choice: bool) {
    1 <= n <= 255 && (choice || 2 <= n <= 10)
  }

  /** The confidence that pplx answers come with. As a formula it is no number for a
      score with one level, because it divides zero by zero; no accepted request has
      one. */
  method PplxConfidence(p: seq<real>, choice: bool) returns (confidence: Option<real>)
    requires p != []
    ensures |p| == 1 ==> confidence == if choice then Some(1.0) else None
    ensures |p| > 1 ==>
              exists winner: nat ::
                FirstMax(p, winner) && confidence == Some(if choice then Clamp(Lead(p, winner)) else Focus(p, winner))
  {
    hide Ratio, Spread, Deviation, Center, FirstMax;
    var winner := IndexOfMax(p);
    ModeInRange(p, winner);
    if choice {
      if |p| == 1 { return Some(1.0); }
      var baseline := Uniform(|p|);
      UniformBelowOne(|p|);
      return Some(Clamp(Ratio(p[winner] - baseline, 1.0 - baseline)));
    }
    var distance, baseline := SpreadAndDeviation(p, winner);
    MeanDeviation(|p|);
    if baseline == 0.0 { return None; }
    confidence := Some(Floor0(1.0 - Ratio(distance, baseline)));
  }

  // ---- Agreement ----------------------------------------------------------

  lemma {:induction false} SumBelow(p: seq<real>, top: real)
    requires forall i | 0 <= i < |p| :: p[i] <= top
    ensures Sum(p) <= Product(|p| as real, top)
  {
    if p == [] {
      assert Product(0.0, top) == 0.0;
    } else {
      var n := |p| - 1;
      SumBelow(p[..n], top);
      OneMore(n, top);
    }
  }

  lemma OneMore(n: nat, x: real)
    ensures Product((n + 1) as real, x) == Product(n as real, x) + x
  {}

  lemma {:induction false} PartBelowSum(p: seq<real>, k: nat)
    requires k < |p| && forall i | 0 <= i < |p| :: p[i] >= 0.0
    ensures p[k] <= Sum(p)
  {
    var n := |p| - 1;
    SumNonnegative(p[..n]);
    if k < n { PartBelowSum(p[..n], k); }
  }

  lemma {:induction false} SumNonnegative(p: seq<real>)
    requires forall i | 0 <= i < |p| :: p[i] >= 0.0
    ensures Sum(p) >= 0.0
  {
    if p != [] { SumNonnegative(p[..|p| - 1]); }
  }

  /** The most likely of n choices has at least probability 1 / n. */
  lemma ModeAboveUniform(p: seq<real>, mode: nat)
    requires Distribution(p) && FirstMax(p, mode)
    ensures Uniform(|p|) <= p[mode] <= 1.0
  {
    SumBelow(p, p[mode]);
    PartBelowSum(p, mode);
    AtLeast(|p|, p[mode]);
  }

  lemma AtLeast(n: nat, x: real)
    requires n > 0 && Product(n as real, x) >= 1.0
    ensures Uniform(n) <= x
  {
    if Uniform(n) > x { Grows(n as real, x, Uniform(n)); }
  }

  lemma Grows(n: real, x: real, y: real)
    requires n > 0.0 && x < y
    ensures Product(n, x) < Product(n, y)
  {}

  lemma LeadInRange(p: seq<real>, mode: nat)
    requires Distribution(p) && |p| > 1 && FirstMax(p, mode)
    ensures 0.0 <= Lead(p, mode) <= 1.0
  {
    ModeAboveUniform(p, mode);
    UniformBelowOne(|p|);
    Between(p[mode] - Uniform(|p|), 1.0 - Uniform(|p|));
  }

  lemma Between(a: real, d: real)
    requires 0.0 <= a <= d && d > 0.0
    ensures 0.0 <= Ratio(a, d) <= 1.0
  {}

  lemma {:induction false} SpreadNonnegative(p: seq<real>, k: nat)
    requires forall i | 0 <= i < |p| :: p[i] >= 0.0
    ensures Spread(p, k) >= 0.0
  {
    if p != [] {
      var n := |p| - 1;
      SpreadNonnegative(p[..n], k);
      ProductFacts(p[n], p[n], 0.0, Abs(n as real - k as real));
    }
  }

  lemma FocusInRange(p: seq<real>, mode: nat)
    requires Distribution(p) && |p| > 1
    ensures 0.0 <= Focus(p, mode) <= 1.0
  {
    SpreadNonnegative(p, mode);
    MeanDeviation(|p|);
    Nonnegative(Spread(p, mode), Ratio(Deviation(|p|, Center(|p|)), |p| as real));
  }

  lemma Nonnegative(a: real, d: real)
    requires a >= 0.0 && d > 0.0
    ensures Ratio(a, d) >= 0.0
  {}

  /** On every accepted request the two confidences are the same number between 0 and
      1; as formulas they differ only for a score with one level. */
  method BothConfidences(p: seq<real>, choice: bool) returns (kev: real, pplx: Option<real>)
    requires Distribution(p)
    ensures 0.0 <= kev <= 1.0
    ensures PplxAccepts(|p|, choice) ==> pplx == Some(kev)
    ensures pplx == Some(kev) <==> choice || |p| > 1
  {
    hide Lead, Focus, Ratio, Distribution;
    Nonempty(p);
    kev := KevConfidence(p, choice);
    pplx := PplxConfidence(p, choice);
    if |p| > 1 {
      ghost var mode: nat :| FirstMax(p, mode) && kev == if choice then Lead(p, mode) else Focus(p, mode);
      ghost var winner: nat :|
        FirstMax(p, winner) && pplx == Some(if choice then Clamp(Lead(p, winner)) else Focus(p, winner));
      FirstMaxUnique(p, mode, winner);
      if choice { LeadInRange(p, mode); } else { FocusInRange(p, mode); }
    }
  }

  lemma Nonempty(p: seq<real>)
    requires Distribution(p)
    ensures p != []
  {}
}
