/** What the opponent's handlers promise over several frames and collisions: gravity integration
    while airborne, the jump cooldown after landing, health arithmetic over a series of hits,
    and that nothing but Start brings the opponent back to life. */
module OpponentProperties {
  import opened Numerics
  import opened OpponentSpec

  /** Total elapsed time of a run of frames. */
  function Total(dts: seq<real>): real
  {
    if dts == [] then 0.0 else dts[0] + Total(dts[1..])
  }

  predicate NonNegative(dts: seq<real>) {
    forall i :: 0 <= i < |dts| ==> dts[i] >= 0.0
  }

  /** Repeated JumpAndGravity calls, one per frame time, with nothing else in between (a real
      frame also runs animationAction, see UpdateJumpTrigger). Grounded is written by none of the
      modelled handlers, only by its initialiser, the inspector or another script, so a run stays
      in one branch; only the vertical velocity, the jump and fall timeouts and the jump request
      can change. */
  function RunJumpAndGravity(c: Config, s: Opponent, dts: seq<real>): (r: Opponent)
    ensures r == s.(verticalVelocity := r.verticalVelocity,
                    jumpTimeoutDelta := r.jumpTimeoutDelta, fallTimeoutDelta := r.fallTimeoutDelta,
                    input := s.input.(jump := r.input.jump))
    decreases |dts|
  {
    if dts == [] then s else RunJumpAndGravity(c, JumpAndGravity(c, s, dts[0]), dts[1..])
  }

  /** While airborne and below terminal velocity, the vertical velocity integrates gravity exactly:
      after any run of JumpAndGravity calls it has changed by Gravity times the elapsed time, and
      never rises. Since TerminalVelocity is +53, it never caps a fall.
      After at least one frame the jump timeout is re-armed and no jump request is pending. */
  lemma {:induction false} AirborneIntegratesGravity(c: Config, s: Opponent, dts: seq<real>)
    requires !s.grounded && c.gravity <= 0.0 && s.verticalVelocity < TerminalVelocity
    requires NonNegative(dts)
    decreases |dts|
    ensures RunJumpAndGravity(c, s, dts).verticalVelocity == s.verticalVelocity + c.gravity * Total(dts)
    ensures RunJumpAndGravity(c, s, dts).verticalVelocity <= s.verticalVelocity
    ensures dts != [] ==>
              RunJumpAndGravity(c, s, dts).jumpTimeoutDelta == c.jumpTimeout &&
              !RunJumpAndGravity(c, s, dts).input.jump
  {
    if dts != [] {
      var next := JumpAndGravity(c, s, dts[0]);
      var rest := dts[1..];
      assert dts[0] >= 0.0;
      assert next.verticalVelocity == s.verticalVelocity + c.gravity * dts[0];
      assert next.verticalVelocity <= s.verticalVelocity;
      assert NonNegative(rest) by {
        forall i | 0 <= i < |rest| ensures rest[i] >= 0.0 { assert rest[i] == dts[i + 1]; }
      }
      AirborneIntegratesGravity(c, next, rest);
      var run := RunJumpAndGravity(c, next, rest);
      assert RunJumpAndGravity(c, s, dts) == run;
      assert Total(dts) == dts[0] + Total(rest);
      assert c.gravity * Total(dts) == c.gravity * (dts[0] + Total(rest));
      Distribute(c.gravity, dts[0], Total(rest));
      assert run.verticalVelocity == next.verticalVelocity + c.gravity * Total(rest);
      if rest == [] {
        assert run == next;
      }
    }
  }

  lemma Distribute(g: real, a: real, b: real)
    ensures g * (a + b) == g * a + g * b
  {
  }

  /** The jump cooldown: on the ground, over repeated JumpAndGravity calls taking less time than
      the jump timeout had left, JumpAndGravity never serves a pending jump request (it is still
      pending afterwards) and the timeout has counted down by exactly the elapsed time. Because every airborne frame re-arms the timeout
      to JumpTimeout, this bounds how soon after landing the opponent can jump again. */
  lemma {:induction false} GroundedJumpCooldown(c: Config, s: Opponent, dts: seq<real>)
    requires s.grounded && NonNegative(dts) && Total(dts) < s.jumpTimeoutDelta
    decreases |dts|
    ensures RunJumpAndGravity(c, s, dts).input.jump == s.input.jump
    ensures RunJumpAndGravity(c, s, dts).jumpTimeoutDelta == s.jumpTimeoutDelta - Total(dts)
    ensures dts != [] ==> RunJumpAndGravity(c, s, dts).fallTimeoutDelta == c.fallTimeout
  {
    if dts != [] {
      var next := JumpAndGravity(c, s, dts[0]);
      assert Total(dts[1..]) >= 0.0 by { TotalNonNegative(dts[1..]); }
      assert NonNegative(dts[1..]) by {
        forall i | 0 <= i < |dts[1..]| ensures dts[1..][i] >= 0.0 { assert dts[1..][i] == dts[i + 1]; }
      }
      assert !JumpFires(s) && next.jumpTimeoutDelta == s.jumpTimeoutDelta - dts[0];
      GroundedJumpCooldown(c, next, dts[1..]);
      if dts[1..] == [] {
        assert RunJumpAndGravity(c, next, []) == next;
      }
    }
  }

  lemma {:induction false} TotalNonNegative(dts: seq<real>)
    requires NonNegative(dts)
    ensures Total(dts) >= 0.0
  {
    if dts != [] {
      assert NonNegative(dts[1..]) by {
        forall i | 0 <= i < |dts[1..]| ensures dts[1..][i] >= 0.0 { assert dts[1..][i] == dts[i + 1]; }
      }
      TotalNonNegative(dts[1..]);
    }
  }

  /** Once the jump timeout has run out on the ground, a pending request is served in that very
      frame: the velocity becomes the jump velocity (plus one gravity step) and the request is
      consumed. */
  lemma JumpServedAfterCooldown(c: Config, s: Opponent, dt: real)
    requires c.jumpVelocity < TerminalVelocity
    requires s.grounded && s.input.jump && s.jumpTimeoutDelta <= 0.0
    ensures JumpAndGravity(c, s, dt).verticalVelocity == c.jumpVelocity + c.gravity * dt
    ensures !JumpAndGravity(c, s, dt).input.jump
  {
  }

  /** Within one Update, JumpAndGravity runs first and consumes a jump request it serves, so the
      "Jump" trigger of animationAction fires exactly when the request reached it: the flag `jump`
      is off, the request is pending and the opponent is grounded with the jump timeout still
      running. In particular it never fires in the frame in which the jump is performed. */
  lemma UpdateJumpTrigger(c: Config, s: Opponent, dt: real)
    ensures var r := Update(c, s, dt);
            (Jump in r.triggers[|s.triggers|..] <==>
               !s.jump && s.input.jump && s.grounded && s.jumpTimeoutDelta > 0.0) &&
            (JumpFires(s) ==> Jump !in r.triggers[|s.triggers|..])
  {
    var m := JumpAndGravity(c, s, dt);
    var r := AnimationAction(c, m, dt);
    assert m.triggers == s.triggers && m.jump == s.jump;
    assert r.triggers[|s.triggers|..] ==
           Fired(!m.attacking && m.input.attack, !m.blocking && m.input.block, !m.jump && m.input.jump);
  }

  // ---------------------------------------------------------------- collisions

  /** OnCollisionEnter once per collision, in order. */
  function RunCollisions(s: Opponent, tags: seq<string>): (r: Opponent)
    decreases |tags|
  {
    if tags == [] then s else RunCollisions(OnCollisionEnter(s, tags[0]), tags[1..])
  }

  function Count(tags: seq<string>, tag: string): nat
  {
    if tags == [] then 0 else (if tags[0] == tag then 1 else 0) + Count(tags[1..], tag)
  }

  /** A series of collisions costs SwordDamage health per OpponentSword hit and nothing for the
      others, hands CounterpartDamage to the counterpart per mySword hit, and leaves the opponent
      alive exactly when it was alive and either no sword reached it or its health is still
      positive (so isAlive turns false at most once, at the first hit that brings health to 0
      or below). Stated for health that stays within C#'s int range. */
  lemma {:induction false} CollisionsHealth(s: Opponent, tags: seq<string>)
    requires MinInt32 <= s.health as int - SwordDamage as int * Count(tags, OpponentSwordTag)
    decreases |tags|
    ensures RunCollisions(s, tags).health as int ==
              s.health as int - SwordDamage as int * Count(tags, OpponentSwordTag)
    ensures RunCollisions(s, tags).isAlive <==>
              s.isAlive && (Count(tags, OpponentSwordTag) == 0 || RunCollisions(s, tags).health > 0)
    ensures RunCollisions(s, tags).counterpartHits ==
              s.counterpartHits + seq(Count(tags, MySwordTag), _ => CounterpartDamage)
  {
    if tags != [] {
      var next := OnCollisionEnter(s, tags[0]);
      var n := Count(tags[1..], OpponentSwordTag);
      if tags[0] == OpponentSwordTag {
        assert next.health as int == s.health as int - SwordDamage as int;
        assert tags[0] != MySwordTag;
      } else {
        assert next.health == s.health && next.isAlive == s.isAlive;
      }
      CollisionsHealth(next, tags[1..]);
      var k := Count(tags[1..], MySwordTag);
      if tags[0] == MySwordTag {
        assert next.counterpartHits == s.counterpartHits + [CounterpartDamage];
        assert [CounterpartDamage] + seq(k, _ => CounterpartDamage) == seq(k + 1, _ => CounterpartDamage);
      } else {
        assert next.counterpartHits == s.counterpartHits;
      }
    }
  }

  /** With the default settings, after Start a hit from OpponentSword and one from mySword leave
      74 health (the 34 goes to the counterpart), and four OpponentSword hits leave -4 and a dead
      opponent. */
  lemma DefaultDuel(i: Input)
    ensures var s := Start(Defaults, Initial(i));
            var r := RunCollisions(s, [OpponentSwordTag, MySwordTag]);
            r.health == 74 && r.isAlive && r.counterpartHits == [CounterpartDamage]
    ensures var s := Start(Defaults, Initial(i));
            var r := RunCollisions(s, [OpponentSwordTag, OpponentSwordTag, OpponentSwordTag, OpponentSwordTag]);
            r.health == -4 && !r.isAlive
  {
    var s := Start(Defaults, Initial(i));
    assert OpponentSwordTag != MySwordTag by { assert OpponentSwordTag[0] != MySwordTag[0]; }
    var duel := [OpponentSwordTag, MySwordTag];
    assert duel[1..] == [MySwordTag];
    var mine := [MySwordTag];
    assert Count(mine[1..], OpponentSwordTag) == 0 && Count(mine[1..], MySwordTag) == 0;
    assert Count(mine, OpponentSwordTag) == 0 && Count(mine, MySwordTag) == 1;
    assert Count(duel, OpponentSwordTag) == 1 && Count(duel, MySwordTag) == 1;
    CollisionsHealth(s, duel);
    var four := [OpponentSwordTag, OpponentSwordTag, OpponentSwordTag, OpponentSwordTag];
    var one := [OpponentSwordTag];
    assert one[1..] == [] && Count(one, OpponentSwordTag) == 1;
    assert four[1..][1..][1..] == one && [OpponentSwordTag] + one == four[1..][1..];
    assert Count(four[1..][1..], OpponentSwordTag) == 2;
    assert Count(four[1..], OpponentSwordTag) == 3;
    assert Count(four, OpponentSwordTag) == 4;
    CollisionsHealth(s, four);
  }

  /** Direct TakeDamage calls after Start with the defaults: 26 then 34 leave 40 and the opponent
      alive; any further hit of 41 or more brings health to 0 or below, turns isAlive off and
      fires "takeDamage" then "Die". */
  lemma DirectDamage(i: Input, last: int32)
    requires last >= 41
    ensures var s := TakeDamage(TakeDamage(Start(Defaults, Initial(i)), 26), 34);
            s.health == 40 && s.isAlive
    ensures var s := TakeDamage(TakeDamage(Start(Defaults, Initial(i)), 26), 34);
            var r := TakeDamage(s, last);
            r.health <= 0 && !r.isAlive && r.triggers == s.triggers + [TakeDamageCue, Die]
  {
    var s := TakeDamage(TakeDamage(Start(Defaults, Initial(i)), 26), 34);
    assert s.health == 40;
    var r := TakeDamage(s, last);
    assert r.health as int == 40 - last as int;
  }

  // ---------------------------------------------------------------- life

  /** The things that can happen to a started opponent: a frame (Update), a camera frame
      (LateUpdate), a collision, or a direct TakeDamage call. */
  datatype Event = Frame(dt: real) | CameraFrame(dt: real) | Collision(tag: string) | Damage(amount: int32)

  function Step(c: Config, s: Opponent, e: Event): Opponent
  {
    match e
    case Frame(dt) => Update(c, s, dt)
    case CameraFrame(dt) => CameraRotation(c, s, dt)
    case Collision(tag) => OnCollisionEnter(s, tag)
    case Damage(d) => TakeDamage(s, d)
  }

  function Run(c: Config, s: Opponent, events: seq<Event>): Opponent
    decreases |events|
  {
    if events == [] then s else Run(c, Step(c, s, events[0]), events[1..])
  }

  /** One event never revives the opponent and only appends animator triggers. */
  lemma StepKeepsDeath(c: Config, s: Opponent, e: Event)
    ensures Step(c, s, e).isAlive ==> s.isAlive
    ensures |s.triggers| <= |Step(c, s, e).triggers|
    ensures Step(c, s, e).triggers[..|s.triggers|] == s.triggers
  {
    match e
    case Frame(dt) =>
    case CameraFrame(dt) =>
    case Collision(tag) =>
    case Damage(d) =>
  }

  /** isAlive is never set back to true: whatever happens after Start, a dead opponent stays dead,
      and the animator triggers recorded so far are never taken back. */
  lemma {:induction false} DeathIsFinal(c: Config, s: Opponent, events: seq<Event>)
    decreases |events|
    ensures Run(c, s, events).isAlive ==> s.isAlive
    ensures |s.triggers| <= |Run(c, s, events).triggers|
    ensures Run(c, s, events).triggers[..|s.triggers|] == s.triggers
  {
    if events != [] {
      var next := Step(c, s, events[0]);
      StepKeepsDeath(c, s, events[0]);
      DeathIsFinal(c, next, events[1..]);
      var r := Run(c, s, events);
      assert r == Run(c, next, events[1..]);
      assert r.triggers[..|s.triggers|] == r.triggers[..|next.triggers|][..|s.triggers|];
    }
  }

  // ---------------------------------------------------------------- camera

  /** ClampAngle corrects by a single 360 step rather than reducing modulo 360: with the yaw's
      float-range bounds 370 becomes 10 but 730 only becomes 370; pitch is clamped afterwards. */
  lemma ClampAngleSingleStep()
    ensures ClampAngle(370.0, -FloatMax, FloatMax) == 10.0
    ensures ClampAngle(730.0, -FloatMax, FloatMax) == 370.0
    ensures ClampAngle(-730.0, -FloatMax, FloatMax) == -370.0
    ensures ClampAngle(400.0, Defaults.bottomClamp, Defaults.topClamp) == 40.0
    ensures ClampAngle(100.0, Defaults.bottomClamp, Defaults.topClamp) == 70.0
  {
  }

  /** Over any run of camera frames the pitch stays within [BottomClamp, TopClamp], whatever the
      look input and frame times. */
  lemma {:induction false} PitchStaysClamped(c: Config, s: Opponent, dts: seq<real>)
    requires c.bottomClamp <= c.topClamp
    requires c.bottomClamp <= s.pitch <= c.topClamp
    decreases |dts|
    ensures var r := Run(c, s, seq(|dts|, i requires 0 <= i < |dts| => CameraFrame(dts[i])));
            c.bottomClamp <= r.pitch <= c.topClamp
  {
    var events := seq(|dts|, i requires 0 <= i < |dts| => CameraFrame(dts[i]));
    if dts != [] {
      var next := CameraRotation(c, s, dts[0]);
      assert Step(c, s, events[0]) == next;
      var rest := seq(|dts[1..]|, i requires 0 <= i < |dts[1..]| => CameraFrame(dts[1..][i]));
      assert events[1..] == rest;
      PitchStaysClamped(c, next, dts[1..]);
    }
  }
}
