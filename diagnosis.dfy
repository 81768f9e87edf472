/** The diagnosis interpreter of display_diagnosis (ui.py): the classifier's
    top-1 confidence is rounded to three decimals and scaled to a percentage,
    and the top-1 class name together with that percentage selects exactly one
    clinical message. */
module Diagnosis {
  import opened Outcomes

  /** The class names the classifier reports. */
  const DiagnosedClass := "optdiagnosed"
  const HealthyClass := "opthealthy"

  /** The threshold "conf > 85", with conf measured in tenths of a percent. */
  const ThresholdTenths := 850

  /** The three clinical outcomes. */
  datatype Verdict = Detected | NotDetected | NotDetectedAdvised

  /** Python's round(x, 0) on an exact value: the nearest integer, a tie going
      to the even neighbour. */
  function RoundHalfEven(x: real): (n: int)
    ensures x - 1.0 / 2.0 <= n as real <= x + 1.0 / 2.0
    ensures n as real - x == 1.0 / 2.0 || x - n as real == 1.0 / 2.0 ==> n % 2 == 0
  {
    var f := x.Floor;
    var frac := x - f as real;
    if frac < 1.0 / 2.0 then f
    else if frac > 1.0 / 2.0 then f + 1
    else if f % 2 == 0 then f
    else f + 1
  }

  /** No integer lies closer to x than its rounding. */
  lemma RoundIsNearest(x: real, m: int)
    ensures Dist(RoundHalfEven(x) as real, x) <= Dist(m as real, x)
  {
    var n := RoundHalfEven(x);
    if m < n {
      assert m as real <= n as real - 1.0;
    } else if m > n {
      assert m as real >= n as real + 1.0;
    }
  }

  function Dist(a: real, b: real): real { if a < b then b - a else a - b }

  /** conf = round(top1conf, 3) * 100, in tenths of a percent: round(c, 3) is
      a whole number k of thousandths, and k thousandths are k tenths of a
      percent. */
  function ScaledConfidence(top1conf: real): (tenths: int)
    ensures Dist(tenths as real, top1conf * 1000.0) <= 1.0 / 2.0
  {
    RoundHalfEven(top1conf * 1000.0)
  }

  /** A top-1 confidence in [0, 1] becomes a percentage in [0, 100]. */
  lemma ScaledConfidenceInRange(top1conf: real)
    requires 0.0 <= top1conf <= 1.0
    ensures 0 <= ScaledConfidence(top1conf) <= 1000
  {
  }

  /** The if/elif chain on the class name and the scaled confidence. Any other
      class name leaves the message unbound, modelled as UnrecognizedLabel. */
  function Interpret(className: string, tenths: int): (r: Result<Verdict>)
    ensures r.Err? <==> className != DiagnosedClass && className != HealthyClass
    ensures r.Err? ==> r.error == UnrecognizedLabel(className)
    ensures r == Ok(Detected) <==> className == DiagnosedClass
    ensures r == Ok(NotDetected) <==> className == HealthyClass && tenths > ThresholdTenths
    ensures r == Ok(NotDetectedAdvised) <==> className == HealthyClass && tenths <= ThresholdTenths
  {
    if className == DiagnosedClass then Ok(Detected)
    else if className == HealthyClass then
      if tenths > ThresholdTenths then Ok(NotDetected) else Ok(NotDetectedAdvised)
    else Err(UnrecognizedLabel(className))
  }

  /** From the classifier's raw output to the verdict. For the healthy class
      the plain negative verdict is chosen exactly when the raw confidence is
      above 0.8505: at 0.8505 itself round(c, 3) is 0.85 (the tie goes to the
      even neighbour) and 85 is not above 85. */
  function Analyze(className: string, top1conf: real): (r: Result<Verdict>)
    ensures r.Err? <==> className != DiagnosedClass && className != HealthyClass
    ensures r.Err? ==> r.error == UnrecognizedLabel(className)
    ensures className == DiagnosedClass ==> r == Ok(Detected)
    ensures className == HealthyClass ==> (r == Ok(NotDetected) <==> top1conf > 0.8505)
    ensures className == HealthyClass ==> (r == Ok(NotDetectedAdvised) <==> top1conf <= 0.8505)
  {
    Interpret(className, ScaledConfidence(top1conf))
  }

  /** A positive finding is reported whatever the confidence. */
  lemma DetectedIgnoresConfidence(c1: real, c2: real)
    ensures Analyze(DiagnosedClass, c1) == Analyze(DiagnosedClass, c2) == Ok(Detected)
  {
  }

  /** Raising the confidence never turns the plain negative message into the
      advisory one. */
  lemma HealthyMonotone(c1: real, c2: real)
    requires c1 <= c2
    requires Analyze(HealthyClass, c1) == Ok(NotDetected)
    ensures Analyze(HealthyClass, c2) == Ok(NotDetected)
  {
  }

  /** The boundary cases: exactly 85% is advisory, 85.1% is not. */
  lemma ThresholdBoundary()
    ensures Analyze(HealthyClass, 0.85) == Ok(NotDetectedAdvised)
    ensures Analyze(HealthyClass, 0.851) == Ok(NotDetected)
    ensures Analyze(HealthyClass, 0.849) == Ok(NotDetectedAdvised)
  {
  }

  /** Three end-to-end cases, from raw classifier output to verdict. */
  lemma Scenarios()
    ensures ScaledConfidence(0.932) == 932 && Analyze(DiagnosedClass, 0.932) == Ok(Detected)
    ensures ScaledConfidence(0.90) == 900 && Analyze(HealthyClass, 0.90) == Ok(NotDetected)
    ensures ScaledConfidence(0.70) == 700 && Analyze(HealthyClass, 0.70) == Ok(NotDetectedAdvised)
    ensures Analyze("optunknown", 0.99) == Err(UnrecognizedLabel("optunknown"))
  {
  }

  const DetectedPrefix := "Hypertensive Retinopathy detected with "
  const NotDetectedPrefix := "No Hypertensive Retinopathy detected with "
  const CertaintySuffix := "% certainty"
  const AdvisoryClause := ", but a closer examination and subsequent consultation is advised."

  /** The message for a verdict, with the confidence rendered as conf. Only
      the advisory message ends with a period. */
  function MessageText(v: Verdict, conf: string): (s: string)
    ensures |s| > 0 && (s[|s| - 1] == '.' <==> v == NotDetectedAdvised)
    ensures s[0] == 'H' <==> v == Detected
  {
    var s := MessagePrefix(v) + conf + MessageSuffix(v);
    assert s[0] == MessagePrefix(v)[0];
    s
  }

  function MessagePrefix(v: Verdict): string
  {
    if v == Detected then DetectedPrefix else NotDetectedPrefix
  }

  function MessageSuffix(v: Verdict): string
  {
    if v == NotDetectedAdvised then CertaintySuffix + AdvisoryClause else CertaintySuffix
  }

  /** The text of a message determines both its verdict and the rendered
      confidence: no two outcomes share a message. */
  lemma MessageTextInjective(v1: Verdict, c1: string, v2: Verdict, c2: string)
    requires MessageText(v1, c1) == MessageText(v2, c2)
    ensures v1 == v2 && c1 == c2
  {
    var s := MessageText(v1, c1);
    assert v1 == v2;
    var p, q := MessagePrefix(v1), MessageSuffix(v1);
    assert s == p + c1 + q == p + c2 + q;
    assert c1 == s[|p|..|s| - |q|];
    assert c2 == s[|p|..|s| - |q|];
  }
}
