/**
 * The "issue diamonds for order" form: the weight deviation from the order's requirement,
 * rounded to hundredths of a carat, classified as no alert, a note, or an error beyond 10%,
 * and the issued record.
 */
module IssueDiamonds {

  function Abs(x: real): (a: real)
    ensures a >= 0.0 && (a == x || a == -x)
  {
    if x < 0.0 then -x else x
  }

  /** The number of hundredths nearest to `m`, halves rounded up. */
  function Hundredths(m: real): (n: int)
    requires m >= 0.0
    ensures n >= 0
    ensures n as real <= m * 100.0 + 0.5 < n as real + 1.0
  {
    (m * 100.0 + 0.5).Floor
  }

  /** `Number(x.toFixed(2))` on exact numbers: the nearest hundredth, halves rounded away from zero. */
  function RoundCents(x: real): (r: real)
    ensures Abs(r - x) <= 0.005
    ensures (r * 100.0).Floor as real == r * 100.0
    ensures r == 0.0 <==> Abs(x) < 0.005
    ensures (x >= 0.0 ==> r >= 0.0) && (x <= 0.0 ==> r <= 0.0)
  {
    var n := if x >= 0.0 then Hundredths(x) else -Hundredths(-x);
    var r := n as real / 100.0;
    assert r * 100.0 == n as real;
    r
  }

  /** Rounding treats a deviation and its opposite alike. */
  lemma RoundCentsOdd(x: real)
    ensures RoundCents(-x) == -RoundCents(x)
  {
  }

  /** A value already in hundredths is kept. */
  lemma RoundCentsKeepsCents(n: int)
    ensures RoundCents(n as real / 100.0) == n as real / 100.0
  {
    var x := n as real / 100.0;
    if n >= 0 {
      assert x * 100.0 + 0.5 == n as real + 0.5;
      assert (x * 100.0 + 0.5).Floor == n;
    } else {
      assert (-x) * 100.0 + 0.5 == (-n) as real + 0.5;
      assert ((-x) * 100.0 + 0.5).Floor == -n;
    }
  }

  datatype AlertType = Warning | Error

  /** An error when the deviation exceeds a tenth of the required weight, else a warning. */
  function Severity(diff: real, requiredWeight: real): (t: AlertType)
    ensures t == Error <==> Abs(diff) > requiredWeight * 0.1
  {
    if Abs(diff) > requiredWeight * 0.1 then Error else Warning
  }

  /**
   * The alert text's content: the kind of message, the carats off and the percentage off;
   * the percentage is absent when the required weight is 0 (the division has no finite value).
   */
  datatype AlertMessage = NoMessage | DeviationMessage(severity: AlertType, caratsOff: real, percentOff: PercentOff)
  datatype PercentOff = Percent(p: real) | NoFiniteRatio

  function PercentOf(diff: real, requiredWeight: real): PercentOff {
    if requiredWeight == 0.0 then NoFiniteRatio else Percent(Abs(diff / requiredWeight * 100.0))
  }

  /** The record handed to `onIssue`. */
  datatype DiamondIssue = DiamondIssue(orderId: string, actualWeight: real, quality: string, weightDifference: real,
    issueDate: int)

  datatype Effect = OnIssue(issue: DiamondIssue) | OnClose

  /** The form for one order. */
  class IssueDiamondsForm {
    const orderId: string
    const requiredWeight: real
    var actualWeight: real
    var quality: string
    var weightDifference: real
    var showAlert: bool
    var alertType: AlertType
    var alertMessage: AlertMessage

    /** The effect on the actual weight has run. */
    predicate Valid()
      reads this
    {
      && weightDifference == RoundCents(actualWeight - requiredWeight)
      && (showAlert <==> weightDifference != 0.0)
      && (showAlert ==> alertType == Severity(weightDifference, requiredWeight))
      && (showAlert ==> alertMessage == DeviationMessage(alertType, Abs(weightDifference),
            PercentOf(weightDifference, requiredWeight)))
    }

    /** The form opens with the required weight and quality, so no alert is shown. */
    constructor (orderId: string, requiredWeight: real, requiredQuality: string)
      ensures this.orderId == orderId && this.requiredWeight == requiredWeight
      ensures actualWeight == requiredWeight && quality == requiredQuality
      ensures weightDifference == 0.0 && !showAlert
      ensures Valid()
    {
      this.orderId := orderId;
      this.requiredWeight := requiredWeight;
      actualWeight := requiredWeight;
      quality := requiredQuality;
      weightDifference := 0.0;
      showAlert := false;
      alertType := Warning;
      alertMessage := NoMessage;
    }

    /** The weight input followed by the effect; a zero deviation hides the alert and keeps its last type and text. */
    method SetActualWeight(w: real)
      requires Valid()
      modifies this
      ensures actualWeight == w && quality == old(quality)
      ensures weightDifference == RoundCents(w - requiredWeight)
      ensures showAlert <==> weightDifference != 0.0
      ensures showAlert ==> alertType == Severity(weightDifference, requiredWeight)
      ensures !showAlert ==> alertType == old(alertType) && alertMessage == old(alertMessage)
      ensures Valid()
    {
      actualWeight := w;
      var diff := RoundCents(actualWeight - requiredWeight);
      weightDifference := diff;
      if diff != 0.0 {
        showAlert := true;
        if Abs(diff) > requiredWeight * 0.1 {
          alertType := Error;
        } else {
          alertType := Warning;
        }
        alertMessage := DeviationMessage(alertType, Abs(diff), PercentOf(diff, requiredWeight));
      } else {
        showAlert := false;
      }
    }

    method SetQuality(q: string)
      modifies this
      ensures quality == q
      ensures actualWeight == old(actualWeight) && weightDifference == old(weightDifference)
      ensures showAlert == old(showAlert) && alertType == old(alertType) && alertMessage == old(alertMessage)
    {
      quality := q;
    }

    /** `handleIssue`: `onIssue` with the order, the weight, the quality and the deviation, then `onClose`. */
    method Issue(now: int) returns (effects: seq<Effect>)
      requires Valid()
      ensures effects == [OnIssue(DiamondIssue(orderId, actualWeight, quality, weightDifference, now)), OnClose]
      ensures effects[0].issue.weightDifference == RoundCents(effects[0].issue.actualWeight - requiredWeight)
    {
      effects := [OnIssue(DiamondIssue(orderId, actualWeight, quality, weightDifference, now)), OnClose];
    }
  }

  /** The alert shows exactly when the weights differ by at least half a hundredth of a carat. */
  lemma AlertShownIff(actual: real, required: real)
    ensures RoundCents(actual - required) != 0.0 <==> Abs(actual - required) >= 0.005
  {
  }

  /** Within a tenth of the requirement the alert is only a note; beyond a tenth plus the rounding, an error. */
  lemma SeverityBounds(actual: real, required: real)
    ensures Abs(actual - required) + 0.005 <= required * 0.1 ==> Severity(RoundCents(actual - required), required) == Warning
    ensures Abs(actual - required) > required * 0.1 + 0.005 ==> Severity(RoundCents(actual - required), required) == Error
  {
    var d := actual - required;
    var r := RoundCents(d);
    assert Abs(r) <= Abs(d) + 0.005 && Abs(d) <= Abs(r) + 0.005;
  }
}
