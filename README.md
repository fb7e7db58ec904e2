# smart-road: traffic light controller and car kinematics

A Dafny model of the two self-contained decision units of the smart-road
intersection simulator:

- **`lights.dfy`, module `Lights`**: the adaptive traffic light of
  `src/lights.rs`. One approach is green at a time. When its timer runs out,
  the controller picks the next approach from the per-lane vehicle counts and
  shows ALL_RED for a 0.5 s clearing interval. When that runs out, the chosen
  approach turns green for 2.0, 1.0 or 0.5 s, depending on how full its lane is.
  - The object is the class `TrafficLight`. Its fields are `state`,
    `nextState`, `timer` and `clearing`.
  - `UpdateWithCongestion` is proved equal to the pure step function `Step`.
  - `CalculatePriority` keeps the source's push loop (in its helper
    `FilterCounts`), the in-place sort and the scan with break. It is proved
    equal to the pure choice `Priority`.
  - The properties are proved about `Step`, `Priority` and `Run`, the
    sequence of controllers over a sequence of frames:
    - the invariant holds after every update: clearing exactly when ALL_RED,
      pending phase always green, timer positive;
    - there is never more than one green;
    - every change between two different greens passes through ALL_RED.
- **`cars.dfy`, module `Cars`**: one car of `src/cars.rs`.
  - The route tag is read into a closed datatype `Route(approach, turn)`. Any
    other string becomes `Unknown`. The source spells the tags `*_stright`.
  - `Heading` is the car's direction of travel. It is the approach lane's
    heading before the route's turning line and the exit lane's heading
    after it. The exit heading is the approach heading turned a quarter
    clockwise for right turns and counter-clockwise for left turns.
  - `BodyRect` is the body rectangle. `Radar` is the 70-long rectangle that
    abuts the body on its heading side.
  - `NextSpeed` is the asymmetric speed ramp: +400·dt or −800·dt, clamped at
    the target speed.
  - The class `Car` has a mutating `Update`. It ramps the speed, moves
    `speed * dt` along the heading at the old position and turns the sprite.

All floating-point quantities are modelled as `real`. The screen centre
`(cx, cy)` is a parameter, and so is the car's initial speed.

Where the design description and the code disagree, the model follows the code:

- The design says the next green is chosen "excluding the current one". The
  code only leaves the current lane out when it computes the maximum count.
  It then takes the first lane in the order down, left, up, right whose count
  equals that maximum, and that can be the current lane. With all counts
  equal, the light goes from down through ALL_RED back to down
  (`Lights.PriorityMayRepeatCurrent`). The alternation through ALL_RED still
  holds.
- The design keeps `0 ≤ speed ≤ max_speed` at all times. The code keeps it
  only when the target speed lies in `[0, max_speed]` and `dt ≥ 0`.
  `Cars.Car.Update` states it under exactly those conditions.

## Model

| member | source | states |
|---|---|---|
| `Lights.CurrentIndex` | src/lights.rs:75 | a green phase's position in LIGHTS is that phase; a state not in LIGHTS (ALL_RED) is taken as position 0 |
| `Lights.CountFor` | src/lights.rs:42-48 | the count matched by phase name equals the entry at that phase's position in the count array laid out as down, left, up, right (src/lights.rs:73); ALL_RED gets 0 |
| `Lights.Others` | src/lights.rs:76-83 | the counts with the current lane's entry skipped, the others in their original order |
| `Lights.Max` | src/lights.rs:84-87 | the value compared against is an element of the filtered counts and no filtered count exceeds it |
| `Lights.FirstIndex` | src/lights.rs:85-91 | the scan stops at the first position holding the value; every earlier position differs from it |
| `Lights.Choose` | src/lights.rs:75-91 | the chosen position is a position of the count array |
| `Lights.ChooseIsBusiestOther` | src/lights.rs:76-91 | the count at the chosen position is at least every count except the current one and equals one of them; no earlier position holds it |
| `Lights.Priority` | src/lights.rs:72-93 | the chosen phase is always one of the four green phases |
| `Lights.PriorityIsBusiestOther` | src/lights.rs:72-93 | the chosen lane's count is at least every count other than the current lane's and equals one of them; no lane earlier in the order down, left, up, right has that count (ties go to the lowest position) |
| `Lights.PriorityMayRepeatCurrent` | src/lights.rs:85-91 | with every count equal, down is chosen, even when down is the phase that just ended |
| `Lights.FilterCounts` | src/lights.rs:76-83 | the push loop yields exactly the counts without the current lane's, in their original order |
| `Lights.SortInPlace` | src/lights.rs:84 | the vector is sorted ascending in place and is a permutation of its old contents |
| `Lights.SortedLastIsMax` | src/lights.rs:84-87 | the last element of the sorted filtered counts is their maximum |
| `Lights.GreenDuration` | src/lights.rs:50-58 | the green time is 2.0, 1.0 or 0.5; 0.5 exactly for an empty lane; 2.0 exactly when count/capacity > 0.4, i.e. 5·count > 2·capacity; with capacity 0, 2.0 exactly for a non-empty lane (the floating-point ratio is infinite) |
| `Lights.Step` | src/lights.rs:23-70 | preserves the invariant; never switches directly from one green to another; a green that runs out becomes ALL_RED for 0.5 with the chosen next phase pending; a clearing interval that runs out turns the pending phase green for its lane's duration and leaves the pending phase as it was; until the decremented timer runs out only the timer changes, by −dt |
| `Lights.Run` | src/lights.rs:23-70 | a run holds one controller per frame plus the start, each obtained from the previous one by one update |
| `Lights.RunKeepsInv` | src/lights.rs:33-69 | every controller in a run from a valid controller is valid: clearing exactly when ALL_RED, pending phase green, timer positive |
| `Lights.GreenChangePassesAllRed` | src/lights.rs:37-69 | between two points of a run that show different green phases there is a point that shows ALL_RED |
| `Lights.InitialRunsKeepInv` | src/lights.rs:14-21 | every controller reachable from a newly built light satisfies the invariant |
| `Lights.TrafficLight.constructor` | src/lights.rs:14-21 | a new light shows down with left pending, timer 1.0, not clearing, and satisfies the invariant |
| `Lights.TrafficLight.UpdateWithCongestion` | src/lights.rs:23-70 | the new fields are those `Step` gives for the old fields and the frame's dt, counts and capacity; a valid light stays valid |
| `Lights.TrafficLight.CalculatePriority` | src/lights.rs:72-93 | the push loop, in-place sort and scan with break return exactly `Priority` of the current state and counts |
| `Lights.TrafficLight.GetState` | src/lights.rs:95-97 | reports the current phase, which on a valid light is ALL_RED exactly while clearing |
| `Cars.ParseDirection` | src/cars.rs:45-58 | a recognised tag is the tag of the route it yields; Unknown is yielded exactly for strings that are no route's tag |
| `Cars.ParseTag` | src/cars.rs:45-58 | each of the twelve routes is read back from its own tag |
| `Cars.Heading` | src/cars.rs:37-61 | (0,0) exactly for an unknown tag; otherwise one component is ±1 and the other 0, equal to the approach heading or the exit heading (approach turned a quarter clockwise for right turns, counter-clockwise for left turns); straight routes always have the approach heading |
| `Cars.StraightHeadingIsConstant` | src/cars.rs:47-56 | a straight route's heading depends on neither position nor screen size |
| `Cars.Advance` | src/cars.rs:94-171 | one frame's move changes at most one coordinate and leaves a car with an unknown tag in place |
| `Cars.TurnIsReached` | src/cars.rs:46-57 | every turning route does turn: from any position some forward move along the heading brings the car past its turning line, where its heading is the exit heading |
| `Cars.TurnIsFinal` | src/cars.rs:46-57 | a car that has turned into its exit lane still has the exit heading after moving any distance along it |
| `Cars.BodyRect` | src/cars.rs:64-66 | the body's top-left corner is the car's position and its extent is width by height |
| `Cars.Radar` | src/cars.rs:69-81 | the radar starts at the body's leading edge on the heading side, reaches 70 further, spans the body's cross-extent, and is the zero-size rectangle at the car's position exactly for an unknown tag |
| `Cars.NextSpeed` | src/cars.rs:84-92 | unchanged at the target; with dt ≥ 0 never overshoots (the new speed lies between old speed and target); when unclamped rises by exactly 400·dt or falls by exactly 800·dt; a step that would pass the target ends exactly on it |
| `Cars.NextRotation` | src/cars.rs:98-169 | the angle is kept or set to one of 0, 90, 180, 270; straight routes and unknown tags keep it |
| `Cars.Car.constructor` | src/cars.rs:16-34 | the tag is parsed, and speed, target speed and maximum speed all equal the initial speed drawn from [150, 250), so the speed bounds hold |
| `Cars.Car.Update` | src/cars.rs:83-172 | speed becomes `NextSpeed` of the old speed and target; position moves by the new speed · dt along the heading reported at the old position; rotation becomes `NextRotation`; other fields unchanged; with dt ≥ 0, 0 ≤ target ≤ max and 0 ≤ speed ≤ max are preserved |
| `Cars.Car.Ramp` | src/cars.rs:84-92 | the speed becomes `NextSpeed` of the old speed and the target speed |
| `Cars.Car.Move` | src/cars.rs:94-171 | the per-tag match moves the position by the step along `Heading` at the old position and sets the rotation to `NextRotation` |

## Left out

- Drawing: `TrafficLight::draw_lights` (src/lights.rs:99-141), src/draw_road.rs and src/dashed.rs only issue draw calls and text.
- src/main.rs is window setup, keyboard input, random spawning, textures and the render loop. The hazard negotiation, collision checks and arc turning it calls live in a `car` module that is not part of this model, and so does the `stats` module.
- Randomness in `Car::new`: the initial speed is a parameter in [150, 250) instead of a `gen_range` draw.
- `screen_width()` and `screen_height()`: the screen centre (cx, cy) is a parameter.
- f32 arithmetic: all quantities are `real`. The rounding of `count as f32 / capacity as f32` and of the constant 0.4 is not modelled. With capacity 0 the IEEE outcome is modelled: an infinite ratio for a non-empty lane, NaN for an empty one.
- `_is_intersection_clear` is unused by `update_with_congestion` and is not a parameter of the model.
- String states: the light's state and the car's direction are strings in the source. Here they are the datatypes `Light` and `Direction`. `GetState` returns a `Light`, not its string.
- `target_speed` is a public field that code outside these files sets. The model has no setter for it.
- `Car::update` is written as `Update` calling `Ramp` (the speed ramp) and then `Move` (the per-tag match). The order of effects is the source's.
- `#[derive(Clone)]` copies of both structs are not modelled.
