/**
 * The lucky-draw wheel: numbers 1..75 on equal segments; a spin picks a number, turns the
 * wheel so that number's segment ends at the pointer, and when the animation ends shows the
 * number and reports it to the page.
 */
module LuckyDrawWheel {
  import opened Wrappers

  /** `allNumbers`: 1 to 75. */
  function AllNumbers(): (r: seq<int>)
    ensures |r| == 75 && forall i :: 0 <= i < 75 ==> r[i] == i + 1
  {
    seq(75, i requires 0 <= i < 75 => i + 1)
  }

  /** The wheel carries exactly the numbers 1..75, each once. */
  lemma WheelNumbers(n: int)
    ensures n in AllNumbers() <==> 1 <= n <= 75
  {
    if 1 <= n <= 75 {
      assert AllNumbers()[n - 1] == n;
    }
  }

  /** `360 / 75` degrees, exactly. */
  const SegmentAngle: real := 24.0 / 5.0

  /** `7200 + (360 - winnerIndex * segmentAngle)`: twenty full turns plus the winner's offset. */
  function SpinAngle(winnerIndex: int): (angle: real)
    requires 0 <= winnerIndex < 75
    ensures 7200.0 < angle <= 7560.0
  {
    7200.0 + (360.0 - winnerIndex as real * SegmentAngle)
  }

  /** Reading the winner's index back from the final angle. */
  function IndexAtAngle(angle: real): int {
    ((7560.0 - angle) * 5.0 / 24.0).Floor
  }

  /** The final angle determines the winner: different winners give different angles. */
  lemma SpinAngleRoundTrip(winnerIndex: int)
    requires 0 <= winnerIndex < 75
    ensures IndexAtAngle(SpinAngle(winnerIndex)) == winnerIndex
  {
    assert (7560.0 - SpinAngle(winnerIndex)) * 5.0 / 24.0 == winnerIndex as real;
  }

  /** The note under the winner: whether the drawn number is one of the participants. */
  function ParticipantNote(participants: seq<int>, winner: int): (note: string)
    ensures note == "Active participant wins!" <==> winner in participants
    ensures note == "Number selected - check if participant exists" <==> winner !in participants
  {
    if winner in participants then "Active participant wins!"
    else "Number selected - check if participant exists"
  }

  /** The wheel's state; `pending` is the number the running animation's timer will reveal. */
  class Wheel {
    var spinning: bool
    var winner: Option<int>
    var rotation: real
    var pending: Option<int>
    var reported: seq<int>     // the calls to `onWinnerSelected`, in order

    /**
     * A timer is pending exactly while spinning; every number drawn is on the wheel; the shown
     * winner is the last one reported.
     */
    predicate Valid()
      reads this
    {
      (spinning <==> pending.Some?)
      && (pending.Some? ==> 1 <= pending.value <= 75 && winner.None?)
      && (winner.Some? ==> 1 <= winner.value <= 75 && reported != [] && reported[|reported| - 1] == winner.value)
      && (forall i :: 0 <= i < |reported| ==> 1 <= reported[i] <= 75)
    }

    constructor ()
      ensures Valid() && !spinning && winner == None && rotation == 0.0 && reported == []
    {
      spinning := false;
      winner := None;
      rotation := 0.0;
      pending := None;
      reported := [];
    }

    /**
     * `spinWheel`, with `roll` the value of `Math.floor(Math.random() * 75)`: ignored while
     * spinning; otherwise start spinning, clear the winner and turn to the drawn number.
     */
    method Spin(roll: nat)
      requires Valid() && roll < 75
      modifies this
      ensures Valid()
      ensures old(spinning) ==> spinning && winner == old(winner) && rotation == old(rotation) && pending == old(pending)
      ensures !old(spinning) ==> (spinning && winner == None && pending == Some(roll + 1)
        && rotation == SpinAngle(roll) && IndexAtAngle(rotation) == roll)
      ensures reported == old(reported)
    {
      if spinning {
        return;
      }
      spinning := true;
      winner := None;
      var randomWinner := roll + 1;
      var winnerIndex := randomWinner - 1;
      rotation := SpinAngle(winnerIndex);
      SpinAngleRoundTrip(winnerIndex);
      pending := Some(randomWinner);
    }

    /** The timer at the end of the animation: stop, show the number, and report that same number. */
    method Reveal()
      requires Valid() && spinning
      modifies this
      ensures Valid()
      ensures !spinning && winner == old(pending) && pending == None
      ensures reported == old(reported) + [old(pending).value]
      ensures rotation == old(rotation)
    {
      var w := pending.value;
      spinning := false;
      winner := Some(w);
      reported := reported + [w];
      pending := None;
    }
  }
}
