/** The action adjuster of the experiment driver: the first-match-wins rule
    that revises a car's action after it reads the other car's message. */
module Adjuster {
  import opened Text
  import opened Sides

  /** The revised action. `action`, the car's own proposal, is never read.
      The message is matched case-insensitively; the rule for messages
      mentioning "slow down" or "maintain" returns the same value as the
      fall-through, and both are kept. */
  function AdjustAction(action: string, receivedMessage: string, ambulanceSide: string, carSide: string): (r: string)
    ensures r == TargetSide(ambulanceSide) || r == SlowDown
    ensures carSide == ambulanceSide ==> r == TargetSide(ambulanceSide)
    ensures (carSide != ambulanceSide && Contains(Lower(receivedMessage), TargetSide(ambulanceSide)))
              ==> r == TargetSide(ambulanceSide)
    ensures r == SlowDown <==>
              carSide != ambulanceSide
              && !Contains(Lower(receivedMessage), TargetSide(ambulanceSide))
              && Contains(Lower(receivedMessage), ambulanceSide)
  {
    var msg := Lower(receivedMessage);
    var target := TargetSide(ambulanceSide);
    if carSide == ambulanceSide then target
    else if Contains(msg, target) then target
    else if Contains(msg, ambulanceSide) then SlowDown
    else if Contains(msg, SlowDown) || Contains(msg, "maintain") then target
    else target
  }

  /** On a real ambulance side the adjuster never steers into the ambulance's lane. */
  lemma NeverAmbulanceSide(action: string, receivedMessage: string, ambulanceSide: string, carSide: string)
    requires IsSide(ambulanceSide)
    ensures AdjustAction(action, receivedMessage, ambulanceSide, carSide) != ambulanceSide
  {
  }

  /** Two calls that differ only in the proposed action agree. */
  lemma IgnoresProposedAction(a1: string, a2: string, receivedMessage: string, ambulanceSide: string, carSide: string)
    ensures AdjustAction(a1, receivedMessage, ambulanceSide, carSide)
         == AdjustAction(a2, receivedMessage, ambulanceSide, carSide)
  {
  }

  /** A message and its lower-cased form lead to the same action. */
  lemma CaseInsensitive(action: string, receivedMessage: string, ambulanceSide: string, carSide: string)
    ensures AdjustAction(action, receivedMessage, ambulanceSide, carSide)
         == AdjustAction(action, Lower(receivedMessage), ambulanceSide, carSide)
  {
    LowerIdempotent(receivedMessage);
  }

  /** A car outside the ambulance's lane told about the target side, in any
      letter case, moves there. */
  lemma TargetMentionedExample()
    ensures AdjustAction("straight", "go LEFT", Right, Left) == Left
  {
    var m := "go LEFT";
    assert Lower(m)[3..7] == "left";
    assert OccursAt(Lower(m), Left, 3);
  }

  /** A car outside the ambulance's lane told only about the ambulance's
      side slows down. */
  lemma AmbulanceMentionedExample()
    ensures AdjustAction("straight", "LEFT", Left, Right) == SlowDown
  {
    var m := "LEFT";
    assert Lower(m) == Left by {
      assert Lower(m)[0] == 'l' && Lower(m)[1] == 'e' && Lower(m)[2] == 'f' && Lower(m)[3] == 't';
    }
    assert OccursAt(Left, Left, 0);
    AbsentFirstChar(Left, Right);
  }
}
