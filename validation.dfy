/** The failure evaluator: did the two cars' final actions leave the
    ambulance's lane blocked? */
module Validation {
  import opened Sides

  /** `car1` and `car2` are the cars' final actions, `car1Side` and
      `car2Side` their starting lanes. When both cars start in the
      ambulance's lane, both must move to the target side. Otherwise a car
      blocks when it starts in the ambulance's lane and its action names
      that lane, and the outcome fails when a car blocks while the other
      does not move to the target side. */
  function Failure(car1: string, car2: string, ambulance: string, car1Side: string, car2Side: string): (r: bool)
    ensures car1Side == ambulance && car2Side == ambulance ==>
              (r <==> !(car1 == TargetSide(ambulance) && car2 == TargetSide(ambulance)))
    ensures car1Side != ambulance && car2Side != ambulance ==> !r
    ensures car1 == TargetSide(ambulance) && car2 == TargetSide(ambulance) ==> !r
    ensures car1Side == ambulance && car2Side != ambulance ==>
              (r <==> car1 == ambulance && car2 != TargetSide(ambulance))
    ensures car2Side == ambulance && car1Side != ambulance ==>
              (r <==> car2 == ambulance && car1 != TargetSide(ambulance))
  {
    var targetSide := TargetSide(ambulance);
    var car1Blocks := car1 == ambulance && car1Side == ambulance;
    var car2Blocks := car2 == ambulance && car2Side == ambulance;
    var car1Clears := car1 == targetSide;
    var car2Clears := car2 == targetSide;
    if car1Side == ambulance && car2Side == ambulance then
      !(car1Clears && car2Clears)
    else
      (car1Blocks && !car2Clears) || (car2Blocks && !car1Clears)
  }

  /** Swapping the two cars (action and starting lane together) does not
      change the verdict. */
  lemma FailureSymmetric(car1: string, car2: string, ambulance: string, car1Side: string, car2Side: string)
    ensures Failure(car1, car2, ambulance, car1Side, car2Side)
         == Failure(car2, car1, ambulance, car2Side, car1Side)
  {
  }

  /** In the mixed layout a car in the ambulance's lane that does not name
      the ambulance's side (it slows down or goes straight) blocks nothing. */
  lemma MixedLayoutNoBlock(car1: string, car2: string, ambulance: string, car1Side: string, car2Side: string)
    requires car1Side == ambulance && car2Side != ambulance
    requires car1 != ambulance
    ensures !Failure(car1, car2, ambulance, car1Side, car2Side)
  {
  }

  /** Four concrete layouts: both cars clear, one stays in the ambulance's
      lane, one blocks while the other does not clear, one slows down. */
  lemma FailureExamples()
    ensures !Failure(Left, Left, Right, Right, Right)
    ensures Failure(Left, Right, Right, Right, Right)
    ensures Failure(Left, Left, Left, Left, Right)
    ensures !Failure(SlowDown, "straight", Left, Left, Right)
  {
  }
}
