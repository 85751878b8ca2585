# Rule logic of a two-car ambulance-yielding experiment

This project models the rule logic of an experiment harness. In the
experiment, two cars on a two-lane road must clear the way for an ambulance.
It has three parts:

- **the action adjuster** (`adjust_action`). After a car reads the other
  car's message, this first-match-wins rule decides whether the car moves to
  the target side (the lane opposite the ambulance) or slows down.
- **the failure evaluator** (`failure`). It decides from both cars' final
  actions and starting lanes whether the ambulance's lane was left blocked.
- **the car kinematics** (`Car`). A lane change moves x by 5 per frame
  toward the target lane's x (100 or 500). It snaps to the target on arrival
  and ends the lane change there. `y` goes down by the car's speed every frame.

The source compares sides and actions as raw strings, and so does the model
(`string` = `seq<char>`). `TargetSide` gives `"left"` when the ambulance
comes from `"right"` and `"right"` for any other string, just like the
source's conditional expression. Properties that only hold for a real side
require `IsSide`. Message matching uses ASCII lower-casing (`Text.Lower`) and
a recursive substring search (`Text.Contains`). The search is proved equal
to the definition by position (`OccursAt`).

Modules: `Text` (lower-casing, substring search), `Sides` (side constants and
the target side), `Adjuster` (`run_experiment.py`, `adjust_action`),
`Validation` (`validation.py`, `failure`), `Kinematics` (`run_experiment.py`,
class `Car`). The pure rules are functions with case lemmas. `Car` is a class
with a `Valid()` invariant. Its methods change fields in place, and their
postconditions tie the new state to the old one. The pure function `Step`
gives one move's horizontal update. `Moves` gives the result of `n` moves.
The invariant says a car that is not switching is at its target x, but not
the converse. The program can reach a state where the car is switching and
already at its target: `update_position("right")` followed by
`update_position("left")` before any `move` does this
(run_experiment.py:42-49). After that, `move` never clears `switching`
(run_experiment.py:57-67).

## Model

| member | source | states |
|---|---|---|
| Text.LowerChar | run_experiment.py:189 | the result is never an ASCII capital; non-capitals are kept; a capital moves by the fixed 'a'-'A' offset |
| Text.Lower | run_experiment.py:189 | lower-casing keeps the length, maps each character by `LowerChar`, and leaves no ASCII capital |
| Text.LowerIdempotent | run_experiment.py:189 | lower-casing an already lower-cased message changes nothing |
| Text.Contains | run_experiment.py:193-197 | substring search is true exactly when the pattern occurs at some index of the text |
| Text.AbsentFirstChar | run_experiment.py:195 | a pattern whose first character is nowhere in the text is not contained in it |
| Sides.TargetSide | run_experiment.py:190 | the target side is always "left" or "right", never the ambulance's side and never "slow down"; every string other than "right" maps to "right" |
| Sides.TargetSideInvolution | validation.py:17 | on a real side, taking the target side twice gives back the side |
| Adjuster.AdjustAction | run_experiment.py:188-199 | the result is the target side or "slow down"; a car in the ambulance's lane always gets the target side; a car outside it whose lower-cased message names the target side gets the target side; the result is "slow down" exactly when the car is outside the ambulance's lane and the lower-cased message names the ambulance's side but not the target side |
| Adjuster.NeverAmbulanceSide | run_experiment.py:188-199 | for a real ambulance side the adjusted action never names the ambulance's side |
| Adjuster.IgnoresProposedAction | run_experiment.py:188 | two calls that differ only in the proposed action give the same result |
| Adjuster.CaseInsensitive | run_experiment.py:189 | a message and its lower-cased form give the same result |
| Adjuster.TargetMentionedExample | run_experiment.py:193-194 | a car in the left lane, ambulance on the right, told "go LEFT", goes left |
| Adjuster.AmbulanceMentionedExample | run_experiment.py:195-196 | a car in the right lane, ambulance on the left, told "LEFT", slows down |
| Validation.Failure | validation.py:16-28 | both cars in the ambulance's lane: failure iff not both move to the target side; neither in it: never a failure; both moving to the target side: never a failure; exactly one in it: failure iff that car's action is the ambulance's side and the other's is not the target side |
| Validation.FailureSymmetric | validation.py:19-28 | swapping the two cars (action with starting lane) gives the same verdict |
| Validation.MixedLayoutNoBlock | validation.py:19-20 | in the mixed layout, a car in the ambulance's lane whose action is not the ambulance's side blocks nothing, so there is no failure |
| Validation.FailureExamples | validation.py:16-28 | four concrete layouts: both clear, one stays, one blocks while the other does not clear, one slows down |
| Kinematics.LaneX | run_experiment.py:26 | the starting x is 100 or 500, and 100 exactly for "left" |
| Kinematics.Step | run_experiment.py:57-67 | when not switching x is unchanged; while switching x moves strictly toward the target, by exactly 5 and still switching when the target is more than 5 away, otherwise landing on it, never past it, and switching stays on exactly while x has not reached the target; a switching car already at its target stays put and keeps switching |
| Kinematics.MovesThenStep | run_experiment.py:102-103 | n+1 moves are n moves followed by one `Step` |
| Kinematics.Approach | run_experiment.py:57-67 | from k lane steps away, n <= k moves bring the car n steps closer, and it is still switching exactly when n < k |
| Kinematics.LaneChangeTakes80Moves | run_experiment.py:42-49 | a lane change between x = 100 and x = 500 is still under way after each of the first 79 moves and arrives, switching cleared, after exactly 80 |
| Kinematics.Car.constructor | run_experiment.py:24-33 | x is 100 for "left" and 500 otherwise, target x equals x, speed is 2, no lane change, lane and original lane are the starting lane; the invariant holds |
| Kinematics.Car.UpdatePosition | run_experiment.py:41-53 | "left" from "right" (or "right" from "left") sets lane, target x 100 (500) and switching, speed unchanged; otherwise "slow down" sets speed 1, anything else speed 2, and lane, target x and switching are unchanged; x and y never change; the invariant is kept |
| Kinematics.Car.Move | run_experiment.py:55-67 | y decreases by the speed; x and switching become `Step` of the old ones; lane, target x and speed are unchanged; the invariant (x in [100, 500] on the 5-grid, target x is the lane's centre, at the target when not switching) is kept |
| Kinematics.Car.MoveFrames | run_experiment.py:88-122 | after `frames` moves the horizontal state is `Moves` of the old one and y has dropped by frames times the speed |

## Left out

- Text.Lower: models ASCII lower-casing only. Python's `str.lower` also lower-cases non-ASCII letters, and the model keeps those unchanged.
- Kinematics.Car.MoveFrames: models only the part of the frame loop in `run_pygame_iteration` that calls `move`. The loop's rendering, event handling, 50 ms delays, 150-frame timeout and ambulance motion are not modelled.
- `Car.draw`, `Car.rect` and the car's `color` and `label` fields: they only serve drawing and collision boxes through pygame, a foreign library.
- `run_pygame_iteration`'s collision test (`colliderect`): a pygame call.
- `discrete_distill`: a call to an external text-generation service. Its output is an arbitrary string, which the model represents by leaving the action parameters of `Failure` and `UpdatePosition` unconstrained.
- `experiment`: the driver uses random numbers, external service requests, printing and a module that is not part of this model (`gpt4_vision_outputs`). This includes the substitution of the car's own side for a `"straight"` baseline answer.
- `main` and the module-level pygame initialisation: command-line parsing, printing and global display state.
- Integer width: Python integers are unbounded, like Dafny's `int`, so no wrap-around applies.
