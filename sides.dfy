/** Lane sides and the action labels shared by the action adjuster and the
    failure evaluator. Both compare raw strings, so sides and actions stay
    strings here; `IsSide` names the two values the harness actually uses. */
module Sides {

  const Left: string := "left"
  const Right: string := "right"
  const SlowDown: string := "slow down"

  /** One of the two lanes of the road. */
  predicate IsSide(s: string) {
    s == Left || s == Right
  }

  /** The lane opposite the ambulance: "left" when the ambulance comes from
      "right", and "right" for every other string. */
  function TargetSide(ambulanceSide: string): (t: string)
    ensures IsSide(t)
    ensures t != ambulanceSide
    ensures t != SlowDown
    ensures ambulanceSide != Right ==> t == Right
  {
    if ambulanceSide == Right then Left else Right
  }

  /** On a real side, the target side is the complement: taking it twice
      gives back the side one started from. */
  lemma TargetSideInvolution(s: string)
    requires IsSide(s)
    ensures TargetSide(TargetSide(s)) == s
  {
  }
}
