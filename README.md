# Team Brocket robot controller (Student Robotics 2014), modelled in Dafny

This project models the control logic of a Python 2 robot for a
pick-and-place match. The robot fetches its own tokens and carries them to
slots, and it steers by camera markers. The model covers six parts:

- **The state machine** (`state_utils.dfy`, module `StateUtils`). It has named
  states with listener lists and success/error/interrupt counters, a register
  of states, and an observer. The observer holds the single active state and
  notifies `change`, `finish`, `error` and `interrupt` events. A listener call
  ends in one of three ways: it returns, it raises a `StateInterrupt`, or it
  raises another exception. The model gives this as an `Outcome`. The
  `set_state` calls a listener makes on the observer while it runs are
  given as a sequence of `SetStateCall`s, so `action`'s end is decided on
  the state the listeners left active.
- **Move instructions and the drive executor** (`motion.dfy`, module
  `Motion`). `Distance`, `Time` and the `Left`/`Right` rotations are
  datatypes. Each instruction's `action` becomes a plan: a sequence of
  wheel commands and sleeps (`Cmd`), plus the exception it raises, if any.
- **The I/O interface** (`io.dfy`, module `IoInterface`). This is the class
  `Io`, which holds two wheel controllers, two servo controllers, the token
  sensors and the camera. What it has done is its `Snapshot`:
  - the trace of commands;
  - the camera scans still to come;
  - the sensor reads taken;
  - the installed marker callback.

  Every operation has a reference function from one snapshot to the next,
  for example `MoveF`, `ScanF`, `GotoF` and `NavigateF`. The methods of
  `Io` are proved to follow these functions, one call at a time. The
  marker-pursuit loop `goto_marker` has three results, `True`, `False` and
  `0`, modelled as `Reached`, `Lost` and `Stuck`.
- **The match strategy** (`game.dfy`, module `Game`). This is the class
  `PlayGame` with its nine states. Its fields are the token flag, the two
  search counters, the start flag, the tokens done, the pending `on_interrupt`
  continuation and the active state. Each state's listener is a function
  `...F(fields, snapshot)`, and its method is proved to follow that function.
  Invariant: a state that needs a token runs only while one is held, and the
  reverse. Every listener keeps this invariant, so `startup`'s loop never fails
  a `has_token` assertion and keeps a state active until an exception
  (`GameKeepsGoing`).
- **Supporting logic**:
  - marker filters, closest-marker and nearest-rotation selection, marker
    geometry and token classification (`vision.dfy`);
  - the wheel's `opp_dir` brake and the time/distance conversions
    (`motor.dfy`);
  - servo range checks and clamping (`servo.dfy`);
  - the corner code tables (`game_map.dfy`).
- **Shared definitions** (`util.dfy`): `Option`/`Result`, the Python
  exception kinds, ASCII upper-casing, and an abstract positive constant `Pi`.

Arithmetic is on `real`. `math.pi` is the abstract constant `Pi`. `math.sqrt`
and `math.cos` are function parameters of `Io`: `sqrt` is only required to
return a non-negative root, and `cos` is unconstrained. The camera is an
oracle, a finite sequence of scans given when the interface is built. The token
sensors are an oracle too, giving the reading of the k-th read on each sensor.
Sleeps and servo writes are trace entries.

Python semantics the model keeps as the code has them:

- `navigate_to_marker` drops the result of its recursive call, so every pass
  after the first yields `None`.
- In `handle_markers`, `itrpt()` is called at once (IOInterface-side turn and
  `set_state("SEARCH_TOKEN")`), so `on_interrupt` gets `None`.
- An exception inside `state_interrupted`'s continuation is swallowed by
  `notify_handler`, so the continuation stays set.
- `face_marker*` take the orientation in absolute value, so their `< 0`
  branches never run.

Two places where the code differs from what its own text says it means.
The model follows the code in both:

- In `goto_marker`, the small-bearing amplification (add 0.7 below 1, double
  below 2) acts on the signed `rot_y`, although the comment at
  IOInterface.py:106 ("rotation < 1 is too subtle") is about the size of the
  turn. A leftward bearing of −5 is therefore turned by 8.6 degrees, not 5
  (`IoInterface.AimFacts`).
- `Time.setup` defaults `speed` to `None` (IOInterface.py:344), as if a
  move without a speed were allowed, but such a move computes `None - 3` in
  `drive_motors`. That
  is a TypeError before any command, not a move without effect
  (`Motion.TimePlanFacts`).

## Model

| member | source | states |
|---|---|---|
| Util.Upper | servo_controller.py:25 | `.upper()` keeps the length and upper-cases each ASCII letter, leaving other characters alone |
| GameMap.RangeShape | game_map.py:18-20 | `range(lo, hi, step)` lists lo + i·step for each position i, all within [lo, hi) |
| GameMap.SpanMembers | game_map.py:22-30 | `range(lo, hi)` holds exactly the integers in [lo, hi), hi − lo of them |
| GameMap.OurTokensAre | game_map.py:18-20 | `get_our_tokens(c)` is [40+c, 44+c, 48+c] |
| GameMap.OurTokensStep | game_map.py:18-20 | three codes, each 4 above the previous |
| GameMap.OurTokensResidue | game_map.py:19 | for a corner 0..3 every token code is congruent to the corner mod 4 |
| GameMap.OurTokensDisjoint | game_map.py:19 | different corners own no common token code |
| GameMap.ArenaCodes | game_map.py:22-30 | a code list exists exactly for corners 0..3; any other corner falls through to None |
| GameMap.ArenaCodeSets | game_map.py:22-30 | corner 0: {0,1,2,25,26,27}; 1: 18..23; 2: 11..16; 3: 4..9 |
| GameMap.ArenaCodeCount | game_map.py:22-30 | each corner has six arena codes |
| GameMap.ArenaCodesDisjoint | game_map.py:22-30 | the arena codes of different corners are disjoint |
| GameMap.ClosestSlot | game_map.py:32-36 | a slot exists exactly for corners 0..3, None otherwise |
| GameMap.ClosestSlotDistinct | game_map.py:32-36 | the slots lie in 32..39 and differ between corners |
| Motor.Configure | motor_controller.py:24-37 | a type other than 'wheel' or an id not in MOTOR_MAP is a TypeError; otherwise rpm = 87 + the id's offset, the id's channel, diameter 0.1013 |
| Motor.WheelTable | motor_controller.py:8-21 | LEFT is channel 0 at 95 rpm, RIGHT channel 1 at 87; 'WHEEL' and 'left' are rejected (case-sensitive) |
| Motor.Apply | motor_controller.py:44-56 | every wheel call makes exactly one power write and keeps earlier writes; opp_dir stays in [−1, 1] |
| Motor.BrakeOpposesDrive | motor_controller.py:44-56 | after forward/backward at a non-zero speed, stop writes a unit power opposing the drive and resets opp_dir to 0 |
| Motor.SecondStopWritesZero | motor_controller.py:54-56 | two stops write opp_dir then 0 |
| Motor.ZeroSpeedIsStop | motor_controller.py:44-52 | forward(0) and backward(0) are stop |
| Motor.MotorController.constructor | motor_controller.py:24-37 | the controller takes the configured channel, rpm and diameter, with opp_dir 0 and no writes |
| Motor.MotorController.Create | motor_controller.py:24-37 | fails exactly when Configure does, with its error; otherwise a fresh controller in the initial state |
| Motor.MotorController.Forward | motor_controller.py:44-47 | the new wheel state is Apply(old, forward(speed)): power \|s\|, opp_dir −1 |
| Motor.MotorController.Backward | motor_controller.py:49-52 | the new wheel state is Apply(old, backward(speed)): power −\|s\|, opp_dir 1 |
| Motor.MotorController.Stop | motor_controller.py:54-56 | the new wheel state is Apply(old, stop): power opp_dir, then opp_dir 0 |
| Motor.MotorController.CalcWaitTime | motor_controller.py:75-78 | ZeroDivisionError exactly for speed 0; otherwise non-negative, and positive for a non-zero distance |
| Motor.MotorController.CalcRpm | motor_controller.py:80-90 | fails (a division by zero) exactly when the duration or the speed is 0 |
| Motor.MotorController.WaitTimeIgnoresSigns | motor_controller.py:75-78 | the wait time depends only on \|dist\| and \|speed\| |
| Motor.MotorController.DistanceOfWaitTime | motor_controller.py:58-78 | for speed > 0, calc_distance(calc_wait_time(d, s), s) = \|d\| |
| Motor.MotorController.RpmOfWaitTime | motor_controller.py:58-90 | for d, s > 0, calc_rpm(calc_wait_time(d, s), d, s) is the wheel's RPM |
| Servo.Configure | servo_controller.py:18-36 | unknown upper-cased type: TypeError; board index past the boards or slot outside 0..7: IndexError; otherwise the SERVO_MAP row |
| Servo.ServoBounds | servo_controller.py:18-21 | grabber [1, 50] on board 0 slot 6, arm [1, 81] on slot 0, in any case; 'wheel' is a TypeError; no boards is an IndexError |
| Servo.Clamp | servo_controller.py:43-51 | the result is within [lo, hi], equals x inside, and is the nearer bound outside |
| Servo.ReadEffect | servo_controller.py:43-51 | the angle read is within [MIN, MAX]; a write-back happens exactly when the stored angle is outside, and writes the angle reported |
| Servo.ReadIdempotent | servo_controller.py:43-51 | reading again after a read gives the same angle and writes nothing |
| Servo.ServoBoard.constructor | servo_controller.py:24-36 | a board with the given eight outputs and no writes |
| Servo.ServoBoard.Write | servo_controller.py:38-41 | only the written output changes, and the write is logged |
| Servo.ServoController.constructor | servo_controller.py:24-36 | the controller is bound to the board, slot and bounds of its table row |
| Servo.ServoController.Create | servo_controller.py:24-36 | fails exactly when Configure does, with its error; otherwise bound to the row's board, slot and bounds |
| Servo.ServoController.SetAngle | servo_controller.py:38-41 | ValueError exactly outside [MIN, MAX], with nothing written; otherwise exactly this slot gets the angle |
| Servo.ServoController.GetAngle | servo_controller.py:43-51 | returns ReadEffect's angle and writes the bound back only when the stored angle was out of range |
| Motion.WheelAppend | IOInterface.py:307-317 | a wheel's state after two command runs is the second applied to the state after the first |
| Motion.WheelStep | IOInterface.py:307-317 | a drive command on this wheel is one Apply; any other command leaves it alone |
| Motion.WheelIgnoresOthers | IOInterface.py:307-317 | commands for the other wheel, sleeps and servo writes do not change a wheel |
| Motion.Distance | IOInterface.py:319-328 | meters = \|m\|, reverse exactly when m < 0, speed and stop kept |
| Motion.Time | IOInterface.py:343-353 | reverse exactly when a speed is given and negative; the signed speed is kept |
| Motion.ArcLengthFacts | IOInterface.py:34 | the wheel path is pi·0.378·\|d\|/360, doubled for a WHEEL pivot, non-negative and even in d |
| Motion.Turn | IOInterface.py:367-424 | `Right`/`Left(d, Speed(s))` keep \|d\| and the speed, and use the wheels' own times |
| Motion.Rotation | IOInterface.py:367-389 | the bare Rotation class, or a measure other than Speed/Time, is a TypeError; Time over 0 s is a ZeroDivisionError; otherwise degree = \|d\| and dist = calc_dist(pivot); a Time measure gives speed (dist/seconds)·100 and both wheel times the seconds, a Speed measure its own speed and the wheels' calc_wait_time |
| Motion.TurnWheelActions | IOInterface.py:377-424 | Right drives left forward and right backward (right idle on WHEEL), Left the mirror; a negative Speed makes both backward; Right and Left share the arc, the speed and the timing |
| Motion.TotalSleepAppend | IOInterface.py:330-341 | the sleeps of two plans add up |
| Motion.ActionPlan | IOInterface.py:307-402 | an action raises only ZeroDivisionError or TypeError |
| Motion.DistancePlanFacts | IOInterface.py:307-341 | ZeroDivisionError exactly for speed 0, after the drive commands; otherwise the total sleep is max(t_left, t_right), and both wheels stop at the end exactly when `stop` |
| Motion.DistanceWaitSuffices | IOInterface.py:330-341 | for a positive speed each wheel's distance in the total sleep is at least \|meters\| |
| Motion.CalcDistanceMonotone | motor_controller.py:68-73 | a longer time covers at least as much distance |
| Motion.TimePlanFacts | IOInterface.py:307-359 | no speed: TypeError with no command; otherwise the drive commands, one sleep of the given seconds, and a stop exactly when `stop` |
| Motion.RotationPlanFacts | IOInterface.py:390-402 | wait min(t1, t2), stop only the wheel with the shorter time, wait \|t1 − t2\|, stop both: the total sleep is max(t1, t2) |
| Motion.RotationSleeps | IOInterface.py:390-402 | the rotation commands sleep max(t1, t2) in total |
| Motion.MinPlusGap | IOInterface.py:398-400 | min(t1, t2) + \|t1 − t2\| = max(t1, t2) |
| Motion.RotationHalts | IOInterface.py:395-402 | the plan ends by stopping both wheels; the right wheel is stopped early exactly when t1 > t2, the left exactly when t2 > t1 |
| Motion.NoSleeps | IOInterface.py:307-317 | drive commands take no time |
| Motion.PlanWritesNoServo | IOInterface.py:307-402 | an instruction's action touches only the wheels |
| Vision.FilterTable | vision_controller.py:17-22 | every MARKER_FILTERS entry is a non-empty list |
| Vision.TableByCategory | vision_controller.py:17-22 | an entry lists exactly the marker types of its category, none twice |
| Vision.Include | vision_controller.py:103-109 | the loop builds Included(names): the table lists of the recognised names, concatenated in argument order; unknown names add nothing |
| Vision.IncludedMembers | vision_controller.py:103-109 | a type is included exactly when some argument names, case-insensitively, a known filter of its category |
| Vision.RemoveFirst | vision_controller.py:118 | `list.remove`: succeeds exactly when present and removes one occurrence; ValueError otherwise |
| Vision.Exclude | vision_controller.py:111-119 | the loop computes Excluded(names) |
| Vision.ErrorPersists | vision_controller.py:111-119 | once a removal fails, later names do not matter |
| Vision.RemoveAll | vision_controller.py:117-118 | the inner removal loop computes RemoveEach |
| Vision.ExcludedMeaning | vision_controller.py:111-119 | succeeds exactly when no known filter is named twice (case-insensitively), and then leaves all types minus the included ones; otherwise ValueError |
| Vision.DistinctExtend | vision_controller.py:111-119 | distinct names stay distinct when the last is dropped, and the last is fresh among them |
| Vision.RepeatFails | vision_controller.py:111-119 | naming a filter again fails on its removal |
| Vision.TakenType | vision_controller.py:111-119 | a type already excluded is gone from the list |
| Vision.UntakenType | vision_controller.py:111-119 | a type not yet excluded is still there exactly once |
| Vision.FreshSucceeds | vision_controller.py:111-119 | removing a fresh filter succeeds and keeps the list equal to all types minus the included ones |
| Vision.FreshOnce | vision_controller.py:111-119 | each type of a fresh filter is still present exactly once |
| Vision.CountInAll | vision_controller.py:113-114 | every type occurs once in the full list |
| Vision.RemoveDistinct | vision_controller.py:117-118 | removing distinct types, each present once, succeeds and removes their multiset |
| Vision.FilterKinds | IOInterface.py:246-247 | the markers kept are exactly those of the scan whose type is in the filter, no more of them than scanned |
| Vision.FilterKindsAppend | IOInterface.py:246-247 | `filter` distributes over concatenation, so the kept markers stay in scan order with their multiplicity |
| Vision.FilterKindsOne | IOInterface.py:246-247 | a single marker is kept exactly when its type is in the filter |
| Vision.ScanBestResult | vision_controller.py:73-75 | the running-best loop ends on the earliest minimum when something beats the start, else on the start |
| Vision.ClosestIndex | vision_controller.py:70-76 | an index of minimal dist, the earliest on ties |
| Vision.GetClosest | vision_controller.py:70-76 | None exactly for an empty list; otherwise the earliest marker of minimal dist |
| Vision.AngleDiffs | vision_controller.py:82-87 | each marker's difference is \|target − radians(\|rot_y − 180\|)\| |
| Vision.RotationNearestCases | vision_controller.py:79-90 | as written: the earliest minimal difference when some difference is below pi, else the first marker whatever its difference |
| Vision.GetRotationNearest | vision_controller.py:79-90 | None exactly for an empty list; otherwise the marker RotationNearestIndex picks |
| Vision.RotationSentinelCounterexample | vision_controller.py:85 | for degree −180 and markers at rot_y 180 then 170 the first is returned although the second is nearer |
| Vision.NearestIndex | vision_controller.py:79-90 | corrected: an index of minimal difference, the earliest on ties |
| Vision.GetRotationNearestCorrected | vision_controller.py:79-90 | None exactly for an empty list; otherwise the earliest nearest marker |
| Vision.CenterHeightTable | vision_controller.py:24-150 | size/2 plus 0.05 for arena, 0.02 for slot, 0.25 for robot markers and nothing for tokens; vertical height = 0.376 − centre height |
| Vision.HorizontalDist | vision_controller.py:141-145 | never negative; 0 when dist² − vh² < 0, otherwise its square is dist² − vh² |
| Vision.HorizontalWithinLineOfSight | vision_controller.py:141-145 | the ground distance is at most the line-of-sight distance |
| Vision.VisionController.constructor | vision_controller.py:27-34 | the resolution starts at (960, 720) |
| Vision.VisionController.ChangeResolution | vision_controller.py:62-67 | True exactly for a pair of ints, which becomes `res`; otherwise `res` is unchanged |
| Vision.LastOfKindMeaning | vision_controller.py:159-170 | the marker kept for a face is the last of that face, None if there is none |
| Vision.OfKindMeaning | vision_controller.py:159-170 | the sides kept are exactly the side markers |
| Vision.OfKindAppend | vision_controller.py:165-170 | collecting sides distributes over concatenation, so the input order is kept |
| Vision.NewToken | vision_controller.py:159-170 | among the token markers only: the last top, the last bottom and all sides in order |
| StateUtils.ParseEvent | state_utils.py:64-66 | a recognised name is the name of the event kind it gives |
| StateUtils.ParseEventNames | state_utils.py:65 | each of the four names is recognised as its own kind; other names (case matters) are not |
| StateUtils.Bump | state_utils.py:20-30 | each listener adds exactly one to the counters |
| StateUtils.TallyCounts | state_utils.py:20-30 | successes grow by the returned calls, interrupts by the interrupted ones, errors by the rest |
| StateUtils.ErrorsExist | state_utils.py:28-31 | errors are collected exactly when some listener raised a non-interrupt exception |
| StateUtils.Invocations | state_utils.py:20-22 | one call per listener, in bind order, each with the same arguments |
| StateUtils.ConclusionCases | state_utils.py:31-94 | an error run notifies one error event and clears the active state; an error-free run notifies finish and clears it exactly when the state is active and not interrupted; an interrupted state stays active |
| StateUtils.SetStatesLast | state_utils.py:82-89 | after a listener's set_state calls the active state and args are those of the last call with a registered name |
| StateUtils.SetStatesUnknown | state_utils.py:82-83 | calls that all name unregistered states (KeyError) change nothing |
| StateUtils.SetStatesGrow | state_utils.py:82-89 | set_state only appends events |
| StateUtils.QuietRun | state_utils.py:17-30 | with no set_state calls the listener loop keeps the active state and args and notifies only the interrupts, in listener order |
| StateUtils.HandOver | state_utils.py:31-94 | a run whose listeners left another state active notifies no finish for this state and, without errors, leaves that state active |
| StateUtils.DispatchMeaning | state_utils.py:71-77 | a handler is called for an event exactly when it was bound to that event's name |
| StateUtils.DispatchAppend | state_utils.py:71-77 | handlers bound later are called later |
| StateUtils.State.constructor | state_utils.py:7-11 | no listeners, counters (0, 0, 0), not interrupted |
| StateUtils.State.Bind | state_utils.py:12-16 | a callable is appended; anything else is a TypeError and changes nothing |
| StateUtils.State.Begin | state_utils.py:18 | the interrupt flag is reset and nothing else changes |
| StateUtils.State.Record | state_utils.py:21-30 | one call: one counter bumped, the flag set on an interrupt (with an interrupt event), an error record on other exceptions |
| StateUtils.State.Conclude | state_utils.py:31-35 | the end of action notifies Conclusion and leaves ConcludedActive |
| StateUtils.State.Action | state_utils.py:17-35 | every listener runs in bind order with the same args, making its set_state calls before it ends; counters follow the outcomes; the flag is set iff some call was interrupted; notified = the set_state and interrupt events of the run (AfterRun), then one error event or the finish, both decided on the state the listeners left active |
| StateUtils.State.RunListeners | state_utils.py:20-30 | the loop makes every call whatever earlier calls raised; counters, flag and errors as above; the observer's active state, arguments and events are AfterRun of the listeners' set_state calls and interrupts |
| StateUtils.ActionStep | state_utils.py:20-30 | each quantity the loop keeps grows by exactly the current listener's contribution |
| StateUtils.IndexOf | state_utils.py:53 | `list.index`: the first position of the element, None when absent |
| StateUtils.StateRegister.constructor | state_utils.py:44-45 | an empty list and an empty index |
| StateUtils.StateRegister.RegisterState | state_utils.py:46-49 | a State is appended and indexed by name (a later one replaces an earlier in the index); anything else is ignored |
| StateUtils.StateRegister.GetState | state_utils.py:50-51 | KeyError exactly for an unregistered name; otherwise the indexed state |
| StateUtils.StateRegister.StateIdMeaning | state_utils.py:52-53 | the id is the first registration index of get_state(name); KeyError for an unknown name |
| StateUtils.StateRegister.BindStates | state_utils.py:54-56 | binds each entry in order; stops at the first unknown name (KeyError) or uncallable (TypeError), keeping exactly the bindings before it |
| StateUtils.StateRegister.BindEntry | state_utils.py:55-56 | one entry: bound when before the first failure, else the failure's error with nothing bound |
| StateUtils.StateRegister.FirstFailure | state_utils.py:54-56 | the first entry with an unknown name or an uncallable function, all before it good |
| StateUtils.StateRegister.Bindings | state_utils.py:54-56 | the listener table has one entry per registered name |
| StateUtils.StateRegister.BoundListeners | state_utils.py:54-56 | the table after a prefix is each state's old listeners plus the functions bound to its name |
| StateUtils.WithBound | state_utils.py:54-56 | each name's list gains exactly the functions bound to it, in order |
| StateUtils.WithBoundStep | state_utils.py:55-56 | binding one more entry appends to its name only |
| StateUtils.BoundToStep | state_utils.py:55-56 | one more entry appends at most its own function |
| StateUtils.StateObserver.constructor | state_utils.py:59-62 | no handlers and no active state |
| StateUtils.StateObserver.Bind | state_utils.py:64-66 | the four event names are appended with the callback, any other is ignored |
| StateUtils.StateObserver.NotifyHandler | state_utils.py:71-77 | the calls made are Dispatch(handlers, event) (exceptions swallowed), and nothing else changes |
| StateUtils.StateObserver.SetState | state_utils.py:82-89 | unknown name: KeyError before any event or change; otherwise change(old, new), then finish(old) iff a state was active, then the new state and args |
| StateUtils.StateObserver.SetStates | state_utils.py:82-89 | a listener's set_state calls in order leave the observer as AfterSetStates says |
| StateUtils.StateObserver.StateFinished | state_utils.py:91-94 | finish is notified and the state cleared exactly when it is active and not interrupted |
| StateUtils.StateObserver.ChangeState | state_utils.py:79-80 | AttributeError before any set_state, with nothing changed; otherwise the state's action with the last args: its counters, and the conclusion decided on the state its listeners left active |
| StateUtils.StateCursor.constructor | state_utils.py:99-101 | a new generator is not exhausted |
| StateUtils.StateCursor.Next | state_utils.py:99-101 | yields the active state while there is one; once none is found the generator stays exhausted |
| StateUtils.StateMachine | state_utils.py:111-115 | TypeError exactly when an entry is not callable; otherwise one state per entry, registered under its name, with that entry's function as its only listener, and nothing active |
| IoInterface.ObstacleFilter | gamelogic.py:89 | include('ROBOTS', 'WALLS') is exactly the robot and wall types |
| IoInterface.SlotAndTokenFilters | gamelogic.py:100 | include('SLOTS') and include('TOKENS') are the slot and token types |
| IoInterface.UpperOfUpper | vision_controller.py:106 | a name without lower-case letters is its own upper-casing |
| IoInterface.FirstAlarmMeaning | gamelogic.py:87-107 | a scan interrupts exactly when one of its markers does, with the alarm of the earliest such marker |
| IoInterface.SlotAlarmOnlyWhileSearchingToken | gamelogic.py:89-107 | outside SEARCH_TOKEN a slot never interrupts; an obstacle closer than 0.5 always does |
| IoInterface.AimFacts | IOInterface.py:100-108 | Left exactly for a negative rot_y; the signed bearing gains 0.7 below 1 and is doubled below 2; the speed is speed / 3 |
| IoInterface.Matching | IOInterface.py:113-116 | the candidates are exactly the scan's markers the comparator pairs with the target |
| IoInterface.MatchingAppend | IOInterface.py:113-116 | the comprehension distributes over concatenation, so candidates stay in scan order with their multiplicity |
| IoInterface.MatchingOne | IOInterface.py:113-116 | a single marker is a candidate exactly when it pairs with the target |
| IoInterface.FirstWithCode | IOInterface.py:191-195 | the first marker of the scan with the code, None exactly when none has it |
| IoInterface.FaceScript | IOInterface.py:142-184 | the first call is a Right turn (the `< 0` branch is dead); variants 1 and 3 raise ZeroDivisionError exactly when cos(orientation) = 0; otherwise the last call is a Left turn |
| IoInterface.Io.constructor | IOInterface.py:38-62 | the interface holds its controllers and oracles, with an empty trace and no marker callback |
| IoInterface.Io.Setup | IOInterface.py:38-77 | IndexError exactly without a servo board; otherwise wheels at 95 and 87 rpm, arm [1, 81], grabber [1, 50] |
| IoInterface.Io.Wheels | IOInterface.py:64-70 | the LEFT and RIGHT controllers, distinct and idle |
| IoInterface.Io.Servos | IOInterface.py:71-77 | the grabber and arm controllers with their table bounds |
| IoInterface.Io.RunCalls | IOInterface.py:85-269 | calls raise only TypeError, ValueError or ZeroDivisionError; the scans, readings and callback are untouched and the trace only grows |
| IoInterface.Io.RunCallsStuck | IOInterface.py:85-89 | after a call raises, the later ones do not run |
| IoInterface.Io.ScanF | IOInterface.py:242-248 | NoScan exactly when no scan is left; an interrupt only under the marker callback, with the scan's first alarm; an undisturbed scan leaves the trace alone and is filtered by type |
| IoInterface.Io.GotoF | IOInterface.py:91-140 | the loop consumes scans and extends the trace without touching the callback; a failure is an interface exception |
| IoInterface.Io.GotoAfter | IOInterface.py:110-139 | the same bounds for the rest of a pass |
| IoInterface.Io.GotoDecide | IOInterface.py:113-139 | the same bounds for the decision on a rescan |
| IoInterface.Io.ReachedPassOnlyDrives | IOInterface.py:104-112 | once `reached` is set a pass makes no turn and no scan: it drives half the way and reports Reached |
| IoInterface.Io.GotoDecisions | IOInterface.py:113-139 | no match and travel < 0.66: one more drive, then True; no match otherwise: False; a match not nearer than expected: 0; a token target: True when the left sensor or, failing it, the right sensor reads a token (one or two readings consumed), otherwise the pursuit continues on the match after both readings |
| IoInterface.Io.NavigateF | IOInterface.py:186-210 | consumes scans without touching the callback |
| IoInterface.Io.NavigateAgain | IOInterface.py:201-210 | the same bounds for the rescan and the recursion |
| IoInterface.Io.NavigateTrueOnlyFirstPass | IOInterface.py:199-210 | after a failed pursuit the result is None (or an exception), never True |
| IoInterface.Io.RescanLossIgnored | IOInterface.py:201-210 | as written, a rescan without the marker does not return False: it navigates to the stale marker again and ends in None or an exception |
| IoInterface.Io.RescanLossDetected | IOInterface.py:201-209 | corrected, that rescan returns False and does nothing more |
| IoInterface.Io.Exec | IOInterface.py:307-317 | one wheel command or sleep, appended to the trace, with the wheels in step |
| IoInterface.Io.Record | IOInterface.py:226-238 | a servo write is appended to the trace and leaves the wheels alone |
| IoInterface.Io.Actuate | IOInterface.py:307-317 | the wheel's forward/backward/stop, i.e. one Apply |
| IoInterface.Io.Perform | IOInterface.py:307-402 | a command sequence is appended to the trace, with the wheels in step |
| IoInterface.Io.Move | IOInterface.py:85-89 | a non-instruction is a TypeError with nothing done; an instruction runs its action (MoveF) |
| IoInterface.Io.Wait | IOInterface.py:267-269 | one sleep of the given seconds |
| IoInterface.Io.MoveArm | IOInterface.py:216-228 | an unknown position is a TypeError; UP, DOWN and MIDDLE give MIN, MAX and MAX / 2 on the arm's slot, then 0.5 s if asked |
| IoInterface.Io.Grab | IOInterface.py:230-240 | MIN to open, MAX to close, on the grabber's slot, then 0.7 s if asked |
| IoInterface.Io.OpenGrabber | IOInterface.py:230-234 | the grabber goes to MIN |
| IoInterface.Io.CloseGrabber | IOInterface.py:236-240 | the grabber goes to MAX |
| IoInterface.Io.Call | IOInterface.py:85-240 | one interface call, as CallF |
| IoInterface.Io.Run | IOInterface.py:85-240 | calls in order until one raises, as RunCalls |
| IoInterface.Io.SetMarkerHandler | IOInterface.py:274-275 | only the marker callback changes |
| IoInterface.Io.HandleMarkers | gamelogic.py:87-107 | the callback's loop finds the first marker that interrupts |
| IoInterface.Io.StopOperation | IOInterface.py:258-265 | stop the right wheel, then the left, and raise the 'stop' interrupt |
| IoInterface.Io.GetMarkers | IOInterface.py:242-248 | the next scan, as ScanF |
| IoInterface.Io.IsHoldingToken | IOInterface.py:213-214 | true exactly when the left sensor reads true, or else the right one; the right is read only after a false left |
| IoInterface.Io.CollectMatching | IOInterface.py:113-116 | the loop collects Matching |
| IoInterface.Io.GotoPass | IOInterface.py:97-139 | one pass of the loop: the result, or the marker and flag the next pass starts from, as GotoF |
| IoInterface.Io.GotoFinish | IOInterface.py:110-139 | the rest of a pass after its moves |
| IoInterface.Io.GotoMove | IOInterface.py:98-109 | the turn (unless reached) and the half-way drive |
| IoInterface.Io.GotoRescan | IOInterface.py:113-139 | the decision on a rescan, or the next pass's start |
| IoInterface.Io.GotoMarker | IOInterface.py:91-140 | goto_marker follows GotoF from a fresh start |
| IoInterface.Io.FaceMarkerMove | IOInterface.py:142-184 | a face_marker variant makes FaceScript's calls and raises its error |
| IoInterface.Io.FindByCode | IOInterface.py:191-195 | the loop finds FirstWithCode |
| IoInterface.Io.NavigateToMarker | IOInterface.py:186-210 | navigate_to_marker as written follows NavigateF |
| IoInterface.Io.NavigateOnceMore | IOInterface.py:201-210 | the rescan and the recursion with its result dropped |
| Game.PhaseNamesDistinct | gamelogic.py:38-46 | the nine states have distinct names |
| Game.EndingOf | gamelogic.py:116-253 | an exception ends the listener as a failure, no exception as finished |
| Game.AdjDir | gamelogic.py:31-35 | corners 0 and 2 keep the direction, others swap Left and Right |
| Game.AdjDirInvolution | gamelogic.py:31-35 | adjusting twice gives the direction back |
| Game.SlotSift | gamelogic.py:129-134 | outside the start run the scan as it is; in it, just the first marker with the closest slot code, or the whole scan if none |
| Game.OwnTokens | gamelogic.py:204-205 | exactly the markers with one of our codes, no more of them than scanned |
| Game.Near | gamelogic.py:258 | exactly the markers closer than 0.5, no more of them than scanned |
| Game.OwnTokensAppend | gamelogic.py:204-205 | the filter distributes over concatenation, so our tokens stay in scan order with their multiplicity, and get_closest's earliest minimum is taken over that order |
| Game.OwnTokensOne | gamelogic.py:204-205 | a single marker survives exactly when its code is one of ours |
| Game.NearAppend | gamelogic.py:258 | the comprehension distributes over concatenation, keeping order and multiplicity |
| Game.NearOne | gamelogic.py:258 | a single marker survives exactly when it is closer than 0.5 |
| Game.NearOwnTokens | gamelogic.py:256-259 | some marker survives both filters exactly when one of ours is closer than 0.5 |
| Game.Decisions | gamelogic.py:148-160 | one decision per empty scan: fallback when rotation > max_rot (resetting it), else a 17-degree turn |
| Game.DecisionsFrom | gamelogic.py:148-160 | from rotation 17·j, the i-th decision is a fallback exactly when (i + j) mod (Sweep + 1) = Sweep |
| Game.SweepArithmetic | gamelogic.py:155-160 | the rotation first exceeds max_rot after max_rot / 17 + 1 turns |
| Game.FallbackSchedule | gamelogic.py:135-160 | slots: 16 turns between fallbacks (270); tokens: 12 (200, first exceeded at 204) |
| Game.PlayGame.constructor | gamelogic.py:23-28 | keeps the interface and corner, `our_tokens` = `get_our_tokens(corner)`, no token, zero counters, no continuation, nothing active |
| Game.PlayGame.SearchF | gamelogic.py:148-160 | a found marker is of the searched type; the trace only grows; a failure is an interface exception; the fallbacks and turns taken are Decisions from the start rotation |
| Game.PlayGame.SearchFoundClosest | gamelogic.py:148-161 | a search that finds a marker consumed scans up to the first whose filter keeps any, every earlier one keeping none, and hands on the closest kept marker of that scan (the earliest on ties) |
| Game.PlayGame.SearchOnFoundClosest | gamelogic.py:148-161 | the same from the step after an empty scan |
| Game.PlayGame.FoundAfterEmptyScan | gamelogic.py:148-161 | a scan the filter left empty extends what a later successful search found |
| Game.PlayGame.SearchHitsFirstScan | gamelogic.py:151-161 | a first scan whose filter keeps a marker ends the search with the closest one it kept, consuming only that scan |
| Game.PlayGame.SearchOn | gamelogic.py:155-160 | the same after an empty scan |
| Game.PlayGame.SiftedKinds | gamelogic.py:129-205 | both filters keep only markers of the scan |
| Game.PlayGame.SearchSchedule | gamelogic.py:135-160 | in any search the fallback runs exactly at every 17th (slots) or 13th (tokens) empty scan |
| Game.PlayGame.SearchListenerFacts | gamelogic.py:128-206 | one search counted; on success the drive state gets the closest kept marker (of the searched type) of the first scan whose filter keeps any, as SearchFoundClosest says; nothing else changes |
| Game.PlayGame.CheckHasTokenF | gamelogic.py:255-261 | the marker callback is untouched, and a slot interrupt can stop the check only while searching for a token |
| Game.PlayGame.DriveToSlotDecisions | gamelogic.py:163-177 | reached, then the start run (after a 0.1 m nudge), then two or more searches: PLACE_TOKEN; otherwise SEARCH_SLOT |
| Game.PlayGame.DriveToSlotNeedsToken | gamelogic.py:164 | without a token the assertion fails before any move |
| Game.PlayGame.PlaceTokenEffect | gamelogic.py:179-188 | start flag and slot searches cleared; on success no token, done_count + 1, TURN_TO_TOKEN, and the servo writes arm up, 0.5 s, grabber open, arm down |
| Game.PlayGame.DriveToTokenOutcomes | gamelogic.py:208-219 | reached: PICK_TOKEN; lost: SEARCH_TOKEN; stuck (0): reverse 0.7 m and turn 90 about a wheel, then SEARCH_TOKEN |
| Game.PlayGame.DriveToTokenNeedsFreeGrabber | gamelogic.py:209 | with a token the assertion fails before any move |
| Game.PlayGame.CheckHasTokenMeaning | gamelogic.py:255-261 | with the marker callback off, or on and raising no alarm on the scan, check_has_token is true exactly when a near token of ours is seen or else a sensor reads true; the sensors are read only when no such token is seen |
| Game.PlayGame.InterruptRunsOnce | gamelogic.py:67-71 | a pending continuation runs once and is cleared after a clean run; with none pending nothing happens |
| Game.PlayGame.ActivationConclusions | state_utils.py:17-35 | an exception clears the active state; a return clears it only when the listener left its own state active; a slot interrupt keeps SEARCH_TOKEN active with no continuation; an obstacle keeps the state and runs the move-away once |
| Game.PlayGame.ConcludeIsStateMachine | state_utils.py:31-94 | over a register giving each phase its own State, the game's active state after a return or an exception is ConcludedActive of the state the listener left active |
| Game.PlayGame.PresetStartSound | gamelogic.py:116-126 | preset_start keeps the state invariant |
| Game.PlayGame.SearchSound | gamelogic.py:128-206 | both searches keep the state invariant |
| Game.PlayGame.DriveToSlotSound | gamelogic.py:163-177 | drive_to_slot keeps the state invariant |
| Game.PlayGame.PlaceTokenSound | gamelogic.py:179-188 | place_token keeps the state invariant |
| Game.PlayGame.NextTokenSound | gamelogic.py:190-201 | next_token keeps the state invariant |
| Game.PlayGame.DriveToTokenSound | gamelogic.py:208-219 | drive_to_token keeps the state invariant |
| Game.PlayGame.PickupTokenSound | gamelogic.py:221-233 | pickup_token keeps the state invariant |
| Game.PlayGame.NextSlotSound | gamelogic.py:235-253 | next_slot keeps the state invariant |
| Game.PlayGame.NextSlotCheckedSound | gamelogic.py:237-253 | both branches of next_slot keep it |
| Game.PlayGame.DispatchSound | gamelogic.py:38-46 | every well-formed request runs a listener that keeps it |
| Game.PlayGame.ActivationKeepsInvariant | gamelogic.py:54-55 | an activation keeps the invariant, never fails a has_token assertion, and leaves no state active only after an exception |
| Game.PlayGame.ConcludeSound | state_utils.py:31-35 | concluding a sound run keeps the invariant |
| Game.PlayGame.GameKeepsGoing | gamelogic.py:54-55 | startup's loop keeps the invariant, never fails a has_token assertion, and never runs out of states except by an exception |
| Game.PlayGame.StartupKeepsGoing | gamelogic.py:37-82 | after a clean reset the game starts in START without a token, and then keeps going as above |
| Game.PlayGame.Reset | gamelogic.py:73-82 | follows ResetF: watch, open, lower the arm, clear the fields, START |
| Game.PlayGame.PresetStart | gamelogic.py:116-126 | follows PresetStartF |
| Game.PlayGame.Sift | gamelogic.py:129-205 | computes the search filter |
| Game.PlayGame.ScanMove | gamelogic.py:263-268 | a 17-degree turn, one second, and 17 returned |
| Game.PlayGame.SearchFunc | gamelogic.py:138-161 | follows SearchListenerF |
| Game.PlayGame.SearchLoop | gamelogic.py:148-160 | follows SearchF from rotation 0 |
| Game.PlayGame.SearchStep | gamelogic.py:149-160 | one pass of the loop, as SearchF |
| Game.PlayGame.SearchScan | gamelogic.py:149-154 | the scan of one pass |
| Game.PlayGame.SearchMove | gamelogic.py:155-160 | the fallback or the scan turn, as SearchOn |
| Game.PlayGame.DriveToSlot | gamelogic.py:163-177 | follows DriveToSlotF |
| Game.PlayGame.PlaceToken | gamelogic.py:179-188 | follows PlaceTokenF |
| Game.PlayGame.NextToken | gamelogic.py:190-201 | follows NextTokenF |
| Game.PlayGame.DriveToToken | gamelogic.py:208-219 | follows DriveToTokenF |
| Game.PlayGame.PickupToken | gamelogic.py:221-233 | follows PickupTokenF |
| Game.PlayGame.CheckHasToken | gamelogic.py:255-261 | follows CheckHasTokenF |
| Game.PlayGame.NextSlot | gamelogic.py:235-253 | follows NextSlotF |
| Game.PlayGame.NextSlotWith | gamelogic.py:238-253 | next_slot after the check |
| Game.PlayGame.StateInterrupted | gamelogic.py:67-71 | follows InterruptedF |
| Game.PlayGame.Dispatch | gamelogic.py:38-46 | calls the active state's listener, as DispatchF |
| Game.PlayGame.Activate | gamelogic.py:55 | one change_state, as ActivateF |
| Game.PlayGame.Settle | state_utils.py:17-35 | State.action's conclusion with the game's interrupt handling, as Conclude |
| Game.PlayGame.Startup | gamelogic.py:37-55 | follows StartupF |
| Game.PlayGame.Play | gamelogic.py:54-55 | follows RunF |
| Game.PlayGame.Round | gamelogic.py:54-55 | one round towards the run RunF promises: it ends the run with that result, or leaves a state whose remaining rounds give the same run |

## Left out

- Game.PlayGame.Play, Game.PlayGame.Startup and Game.PlayGame.GameKeepsGoing: `startup`'s loop is bounded by a `rounds` argument, and a run that uses it up ends in `RoundsExhausted`. The source loop is unbounded.
- IoInterface.Io.GotoF, IoInterface.Io.NavigateF, Game.PlayGame.SearchF: the camera is a finite list of scans. A routine that needs a scan after the last one stops with `OutOfScans`, or the game with `CameraExhausted`. The robot's camera never runs out.
- Game.PlayGame.Activate: the marker callback is installed by `reset` and reads the active state's name. The model fixes it for each activation as "watching, searching for a token exactly when the active state is SEARCH_TOKEN". It applies the callback's effects on the game's fields (`on_interrupt` and the SEARCH_TOKEN request) when the interrupt reaches the listener boundary. Nothing runs in between in the source.
- The `WALLS` branch of `handle_markers` (gamelogic.py:108-113) only logs and continues, and it has no effect to model.
- The bump handler (`onbump`, `set_bump_handler`, `bumped`, the bump thread and `ThreadRegister`): the thread is disabled and the handler only logs.
- Logging, `print_stat`, `fmt_markers`, `_record_timings`, `find_markers`: these are output and camera I/O. Scans are given to the model as values.
- `Token`'s getters and `create_token_obj` are plain accessors. `get_closest_marker_rotation` is not called by the game.
- Motor.MotorController.Create: the board lookup `robot.motors[...]` and `_get_channel` (motor_controller.py:33-42) are not modelled, so their KeyError, IndexError and "Unknown channel" TypeError are absent. The controller records its power writes instead of holding a board channel, and it fails exactly when Configure does.
- StateUtils.State.Action, StateUtils.State.RunListeners, StateUtils.StateObserver.ChangeState: a listener's effect on the observer is limited to its `set_state` calls, which are the only observer calls the game's listeners make. A listener that binds handlers, notifies events or runs `change_state` itself is not modelled. Handlers called by `notify_handler` change nothing in the observer.
- The motor and servo hardware: power writes and servo angles are recorded (the `writes` logs and the trace of `SetServo` commands), not sent to boards.
- `_setup_switch_sources` and the Ruggeduino pin wrapper: the token sensors are the oracle `sensor`, which gives the k-th reading of each sensor.
- `time.sleep` is a `Sleep` entry in the trace, and the clock is not modelled.
- IoInterface.FaceScript: the geometry of the `face_marker*` turns (`math.cos`, `math.radians`) is kept symbolic. `cos` is an unconstrained parameter, and the middle drive's distance is computed from it but not bounded.
- `math.sqrt` is a parameter assumed only to give a non-negative square root. `math.pi` is an abstract positive constant. Floating-point rounding is not modelled: all arithmetic is on `real`.
- Game.PlayGame.PickupToken: the creep forward that depends on the sensors is bundled into `PickupCalls(holding)`, after one `is_holding_token` read.
- Game.PlayGame.constructor: `PlayGame.__init__` ends by calling `startup`. The model constructs the object and runs `Startup` as a separate call.
- Dict iteration order (`StateMachine`, `bind_states`, and `exclude`, which starts from `MARKER_FILTERS.values()`) is a fixed order: the given sequence of entries, and `Vision.AllTypes` for `exclude`. Python 2 dict order is not modelled. No contract depends on `exclude`'s order, as `Vision.ExcludedMeaning` is stated as a multiset.
- StateUtils.StateRegister.StateIdMeaning: `get_state_id`'s ValueError cannot arise when a state was registered. The model's index is kept in step with the list, so the lemma shows the id always exists for a registered name.
- `get_register`, `get_active_state`, `get_states`, `State.__str__`: direct field reads and formatting.
- robot.py, threads.py, watchers.py, tests.py and ruggeduino_controller.py are not part of this model. They are process startup, threading, an unfinished stub, hardware smoke scripts, and a pin wrapper.

## Findings

| source | as written | input that shows it | evidently intended | confidence | as-written member | corrected member |
|---|---|---|---|---|---|---|
| vision_controller.py:85 | the running best starts at the sentinel `math.pi`, so a marker whose difference is not below pi never replaces `markers[0]` | `degree = -180` (target 2·pi), markers with `rot_y` 180 then 170: differences 2·pi and 2·pi − pi/18, and the first is returned | return the marker with the smallest difference, the earliest on ties | not executed | Vision.RotationSentinelCounterexample | Vision.GetRotationNearestCorrected |
| IOInterface.py:207 | `marker is old_marker` after the second rescan compares against the marker found by the first rescan, which is never `old_marker`, so the "marker got lost" branch cannot run | a first rescan that finds the marker, a failed `goto_marker`, then a rescan without the marker's code: navigation recurses on the stale marker instead of returning False | return False when the second rescan does not show the marker | not executed | IoInterface.Io.RescanLossIgnored | IoInterface.Io.RescanLossDetected |
