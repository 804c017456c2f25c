# Opponent controller — a verified model

This project models the opponent character of a small Unity fighting game: the
`OpponentController` component. Each frame the engine drives it as follows:

- `Update` runs `JumpAndGravity` and then `animationAction`.
- `LateUpdate` runs `CameraRotation`.
- `OnCollisionEnter` turns a sword hit into damage, either to this opponent or to its counterpart.

The component keeps its own state:

- the camera target's yaw and pitch;
- the vertical velocity;
- three countdown timers: jump, fall and attack;
- the `blocking`, `attacking` and `jump` flags;
- two process-wide statics: the current health and `isAlive`.

It also clears request flags on its sibling input component (`NewInput`), sets animator
triggers, and shows the health on a health bar.

The model has four modules:

- `Numerics` (`numerics.dfy`) holds the engine's numeric helpers:
  - `Mathf.Clamp`;
  - the single-precision range;
  - C#'s 32-bit `int` with unchecked subtraction.
- `OpponentSpec` (`opponent_spec.dfy`) describes the handlers as functions on a value snapshot
  `Opponent`. A snapshot holds every field the handlers read or write. The calls the handlers
  make to the engine are recorded as values:
  - animator triggers, in order;
  - the value last shown on the health bar;
  - the damage handed to the counterpart.

  `ClampAngle` is a pure function here, as it is in the source.
- `Controller` (`opponent_controller.dfy`) is the component as an object. `NewInput` and
  `OpponentController` are classes whose handlers update their fields in place. Each handler
  is proved to leave `Snapshot()` equal to the matching `OpponentSpec` function applied to the
  old snapshot.
- `OpponentProperties` (`opponent_properties.dfy`) proves what the handlers promise over many
  frames and collisions:
  - gravity integration while airborne;
  - the jump cooldown;
  - health over a series of hits;
  - death being final;
  - pitch staying within its clamps.

Three behaviours of the code are worth knowing, and the model proves each of them:

- With the default settings, one `OpponentSword` hit and one `mySword` hit after `Start` leave
  the opponent at 74 health, not 40. The 34 damage of a `mySword` hit goes to the counterpart
  (`OpponentHealth.OpponentTakeDamage(34)`), not to this opponent (`DefaultDuel`). Only two
  direct `TakeDamage` calls of 26 and 34 leave 40 (`DirectDamage`).
- `_terminalVelocity` is +53, and gravity is applied only while the velocity is below it. A fall
  (negative velocity) is therefore never capped: while airborne the velocity is the start
  velocity plus Gravity times the elapsed time, without bound (`AirborneIntegratesGravity`).
- Within one `Update`, `JumpAndGravity` runs before `animationAction` and consumes a jump request
  it serves. So the "Jump" animator trigger fires only when the physical jump was refused
  because the jump timeout was still running, and it then consumes that request
  (`UpdateJumpTrigger`).

## Model

| member | source | states |
|---|---|---|
| Numerics.Clamp | Good_Game/Assets/Scripts/OpponentController.cs:330 | Mathf.Clamp: a value below min gives min; otherwise a value above max gives max; otherwise the value itself. Hence the result lies within [min, max] when min <= max |
| Numerics.Sub32 | Good_Game/Assets/Scripts/OpponentController.cs:335 | unchecked C# int subtraction: the exact difference when it fits in 32 bits, and in every case congruent to it modulo 2^32 |
| OpponentSpec.DefaultsValid | Good_Game/Assets/Scripts/OpponentController.cs:288 | with JumpHeight 1.2 and Gravity -15 the jump velocity sqrt(H * -2 * G) is 6, and the default configuration satisfies Valid |
| OpponentSpec.Initial | Good_Game/Assets/Scripts/OpponentController.cs:44 | before Start the opponent is grounded (the :44 initialiser) and every other field has its C# default: angles, velocity and timers 0, the blocking, attacking and jump flags off, not alive, health and health bar 0, no triggers fired and no damage handed on |
| OpponentSpec.Start | Good_Game/Assets/Scripts/OpponentController.cs:120-126 | Start sets health to maxHealth, isAlive to true, and re-arms the attack and jump timeouts. Nothing else changes |
| OpponentSpec.ClampAngle | Good_Game/Assets/Scripts/OpponentController.cs:326-331 | one 360 step, then Mathf.Clamp: an angle below -360 gives Clamp(angle + 360), one above 360 gives Clamp(angle - 360), and any other gives Clamp(angle). So the result lies within [min, max] whenever min <= max, is min, max or the angle shifted by at most one 360 step, and an angle already in range is returned unchanged |
| OpponentSpec.CameraRotation | Good_Game/Assets/Scripts/OpponentController.cs:244-259 | only yaw and pitch change. Each becomes ClampAngle of the old angle plus look * deltaTime when the look input reaches the threshold and the camera is not locked, and of the old angle otherwise (yaw to the float range, pitch to [BottomClamp, TopClamp]). Pitch always ends within its clamps, and yaw within the float range |
| OpponentSpec.CameraRotationMoves | Good_Game/Assets/Scripts/OpponentController.cs:247-255 | with no turn, an angle already in range keeps its value. A turn that stays within one revolution and the clamps moves the angle by exactly look * deltaTime |
| OpponentSpec.CountDown | Good_Game/Assets/Scripts/OpponentController.cs:295-299 | a timer counts down by deltaTime only while it is not negative, so it never rises for a non-negative deltaTime |
| OpponentSpec.ApplyGravity | Good_Game/Assets/Scripts/OpponentController.cs:319-322 | gravity * deltaTime is added exactly when the velocity is below terminal velocity, so the velocity never rises for a non-positive gravity |
| OpponentSpec.JumpAndGravity | Good_Game/Assets/Scripts/OpponentController.cs:261-323 | when grounded, the fall timeout is re-armed and the jump timeout counts down; when airborne, the jump timeout is re-armed and the fall timeout counts down. The velocity follows one of three cases: jump, floor at -9, or unchanged, and gravity is then applied. The jump request survives only while grounded and the jump timeout is still running. Nothing else changes |
| OpponentSpec.ServeAttack | Good_Game/Assets/Scripts/OpponentController.cs:146-153 | when not attacking, an attack request fires "Attack" and is consumed; nothing else changes |
| OpponentSpec.ServeBlock | Good_Game/Assets/Scripts/OpponentController.cs:154-161 | when not blocking, a block request fires "Attack2" and is consumed; nothing else changes |
| OpponentSpec.ServeJump | Good_Game/Assets/Scripts/OpponentController.cs:162-174 | when jump is off, a jump request fires "Jump" and is consumed, and the attack timeout keeps its value. When jump is on, the attack timeout drops by exactly deltaTime and the attack request is dropped. Nothing else changes |
| OpponentSpec.ExpireAttack | Good_Game/Assets/Scripts/OpponentController.cs:175-179 | an attack timeout at or below 0 is re-armed to AttackTimeOut and attacking ends; a positive one leaves the state unchanged |
| OpponentSpec.Fired | Good_Game/Assets/Scripts/OpponentController.cs:146-169 | the triggers one animationAction call fires: "Attack", "Attack2" and "Jump", each exactly when its request is served, in source order, and no others |
| OpponentSpec.AnimationAction | Good_Game/Assets/Scripts/OpponentController.cs:144-180 | the triggers grow by exactly Fired(...) of the served requests. The opponent never starts attacking here, and with a positive AttackTimeOut the attack timeout stays positive |
| OpponentSpec.AnimationActionConsumes | Good_Game/Assets/Scripts/OpponentController.cs:144-180 | a request is kept exactly when nothing consumed it (both directions for each of attack, block and jump). Only the triggers, the requests, the attack timeout and attacking change |
| OpponentSpec.AttackTimeout | Good_Game/Assets/Scripts/OpponentController.cs:170-179 | the attack timeout only runs down while jump is set. Once it is at or below 0 it is re-armed to AttackTimeOut and attacking ends; while it is still positive, attacking keeps its value |
| OpponentSpec.Update | Good_Game/Assets/Scripts/OpponentController.cs:130-137 | the triggers recorded before a frame remain a prefix of those after it (a frame never removes a trigger), and a frame leaves health and isAlive alone |
| OpponentSpec.TakeDamage | Good_Game/Assets/Scripts/OpponentController.cs:333-346 | health becomes Sub32(health, damage), the unchecked C# int difference, which is the exact difference when it fits in 32 bits; the health bar shows the new value. "takeDamage" always fires. The opponent stays alive exactly when it was alive and health is still positive, and "Die" fires exactly when health is at most 0 |
| OpponentSpec.OnCollisionEnter | Good_Game/Assets/Scripts/OpponentController.cs:348-362 | an "OpponentSword" hit is TakeDamage(26); a "mySword" hit hands 34 to the counterpart and changes nothing else; any other tag changes nothing |
| OpponentProperties.RunJumpAndGravity | Good_Game/Assets/Scripts/OpponentController.cs:261-323 | over repeated JumpAndGravity calls (no animationAction in between) only the velocity, the jump and fall timeouts and the jump request change |
| OpponentProperties.AirborneIntegratesGravity | Good_Game/Assets/Scripts/OpponentController.cs:302-322 | while airborne below terminal velocity, the velocity after repeated JumpAndGravity calls is the start velocity plus Gravity times the elapsed time, and it never rises. After one call the jump timeout is re-armed and no jump request is pending |
| OpponentProperties.GroundedJumpCooldown | Good_Game/Assets/Scripts/OpponentController.cs:285-299 | on the ground, over repeated JumpAndGravity calls taking less time than the remaining jump timeout, JumpAndGravity never serves a pending jump and the timeout has dropped by exactly the elapsed time |
| OpponentProperties.JumpServedAfterCooldown | Good_Game/Assets/Scripts/OpponentController.cs:285-292 | once the jump timeout has run out on the ground, a pending jump is served in that frame: the velocity is the jump velocity plus one gravity step and the request is consumed |
| OpponentProperties.UpdateJumpTrigger | Good_Game/Assets/Scripts/OpponentController.cs:130-137 | within one Update, "Jump" fires exactly when jump is off, the request is pending, and the opponent is grounded with the jump timeout still running. It never fires in the frame in which the jump is performed |
| OpponentProperties.CollisionsHealth | Good_Game/Assets/Scripts/OpponentController.cs:348-362 | over any series of collisions, health drops by 26 per "OpponentSword" hit, 34 goes to the counterpart per "mySword" hit, and the opponent stays alive exactly when no sword reached it or health is still positive |
| OpponentProperties.DefaultDuel | Good_Game/Assets/Scripts/OpponentController.cs:348-362 | with the defaults after Start, one "OpponentSword" hit and one "mySword" hit leave 74 and the opponent alive. Four "OpponentSword" hits leave -4 and the opponent dead |
| OpponentProperties.DirectDamage | Good_Game/Assets/Scripts/OpponentController.cs:333-346 | with the defaults after Start, TakeDamage(26) then TakeDamage(34) leave 40 and the opponent alive. A further hit of 41 or more brings health to at most 0, ends isAlive and fires "takeDamage" then "Die" |
| OpponentProperties.StepKeepsDeath | Good_Game/Assets/Scripts/OpponentController.cs:339-343 | no single frame, camera frame, collision or TakeDamage call sets isAlive back to true or removes triggers |
| OpponentProperties.DeathIsFinal | Good_Game/Assets/Scripts/OpponentController.cs:339-343 | after any sequence of those events, a dead opponent is still dead, and the triggers recorded so far are kept as a prefix |
| OpponentProperties.ClampAngleSingleStep | Good_Game/Assets/Scripts/OpponentController.cs:326-331 | ClampAngle corrects by one 360 step rather than a modulo: 370 gives 10 but 730 gives 370. With the default pitch clamps, 400 gives 40 and 100 gives 70 |
| OpponentProperties.PitchStaysClamped | Good_Game/Assets/Scripts/OpponentController.cs:244-259 | over any run of camera frames the pitch stays within [BottomClamp, TopClamp], whatever the look input and frame times |
| Controller.OpponentController.constructor | Good_Game/Assets/Scripts/OpponentController.cs:44 | a new component is in the Initial state over its input component |
| Controller.OpponentController.Start | Good_Game/Assets/Scripts/OpponentController.cs:114-127 | the object's new state is Start of its old state |
| Controller.OpponentController.Update | Good_Game/Assets/Scripts/OpponentController.cs:130-137 | the new state is Update of the old one |
| Controller.OpponentController.AnimationAction | Good_Game/Assets/Scripts/OpponentController.cs:144-180 | the new state, including the cleared input flags, is AnimationAction of the old one |
| Controller.OpponentController.ServeAttack | Good_Game/Assets/Scripts/OpponentController.cs:146-153 | the new state is ServeAttack of the old one |
| Controller.OpponentController.ServeBlock | Good_Game/Assets/Scripts/OpponentController.cs:154-161 | the new state is ServeBlock of the old one |
| Controller.OpponentController.ServeJump | Good_Game/Assets/Scripts/OpponentController.cs:162-174 | the new state is ServeJump of the old one |
| Controller.OpponentController.CameraRotation | Good_Game/Assets/Scripts/OpponentController.cs:244-259 | the new state is CameraRotation of the old one |
| Controller.OpponentController.Turn | Good_Game/Assets/Scripts/OpponentController.cs:247-251 | the accumulation step in place: look * deltaTime added to both angles exactly when turning |
| Controller.OpponentController.ClampRotations | Good_Game/Assets/Scripts/OpponentController.cs:254-255 | the two ClampAngle assignments in place; nothing else changes |
| Controller.OpponentController.JumpAndGravity | Good_Game/Assets/Scripts/OpponentController.cs:261-323 | the new state is JumpAndGravity of the old one |
| Controller.OpponentController.GroundedBranch | Good_Game/Assets/Scripts/OpponentController.cs:263-300 | the grounded branch, before gravity, in place |
| Controller.OpponentController.AirborneBranch | Good_Game/Assets/Scripts/OpponentController.cs:302-316 | the airborne branch, before gravity, in place |
| Controller.OpponentController.TakeDamage | Good_Game/Assets/Scripts/OpponentController.cs:333-346 | the new state is TakeDamage of the old one |
| Controller.OpponentController.OnCollisionEnter | Good_Game/Assets/Scripts/OpponentController.cs:348-362 | the new state is OnCollisionEnter of the old one |
| Controller.DefaultDuel | Good_Game/Assets/Scripts/OpponentController.cs:348-362 | on a real object with the defaults, after Start: "OpponentSword" then "mySword" leave 74, two more sword hits leave 22, and a fourth leaves -4 with the opponent dead |

## Left out

- `Move`: the horizontal movement, speed smoothing, rotation and the `CharacterController.Move` call. This also leaves out `ThirdPersonMovement1.cs` and `TomatoTrigger.cs`.
- Floating point: `float` fields are modelled as exact reals, so rounding, NaN and infinity are not modelled. `threshold` (0.01f) is the real 0.01. float.MinValue and float.MaxValue are the exact single-precision extremes.
- `Mathf.Sqrt` in the jump: the velocity is a configuration value tied to its square by `Config.Valid` (non-negative, and its square is JumpHeight * -2 * Gravity). A configuration without a real square root is not modelled.
- `Time.deltaTime` is a parameter of each frame handler. The properties that need it non-negative say so in their hypotheses.
- The engine side is recorded, not modelled:
  - animator triggers are a list;
  - `hasAnimator`, `GetComponent` and `TryGetComponent` are not modelled;
  - `Debug.Log` calls are not modelled;
  - the Cinemachine target's `Quaternion.Euler` rotation and `CameraAngleOverride` are not modelled;
  - `healthBar.SetHealth` is a field holding the last value shown.
- `OpponentHealth` is not part of this model: a `mySword` hit only records the 34 it hands on.
- `NewInput` is not part of this model beyond the four members the controller uses (`attack`, `block`, `jump`, `look`).
- The two statics (health and `isAlive`) are fields of the one object, so sharing them between several opponent instances is not modelled. Neither is calling handlers concurrently.
- `Grounded` is written only by its initialiser (line 44), the inspector or another script; the file has no ground check. Runs of JumpAndGravity calls therefore stay in one branch.
- `Awake` (camera lookup) is not modelled.
- Missing components: the model assumes the Animator and the health bar are present. `animationAction` and `TakeDamage` call `SetTrigger` without checking `hasAnimator`, and the static `healthBar` is never assigned in the file. Without them the source throws part-way through a handler: before an input flag is cleared, or after health, isAlive and the triggers have changed. The model always runs each handler to the end.
- OpponentProperties.CollisionsHealth: stated only for hit series whose health stays within C#'s int range. Beyond that, `Sub32` wraps and the lemma says nothing.
