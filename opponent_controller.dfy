/** The opponent controller as the engine drives it: an object whose frame handlers update its
    fields in place and clear flags on its sibling input component. Each handler is proved to
    leave the object in the state the matching function of OpponentSpec describes, so everything
    proved in OpponentProperties holds of the object as well. */
module Controller {
  import opened Numerics
  import S = OpponentSpec

  /** The sibling input component: requests set by the input system, cleared by the controller. */
  class NewInput {
    var attack: bool
    var block: bool
    var jump: bool
    var look: S.Look

    constructor ()
      ensures !attack && !block && !jump && look == S.Look(0.0, 0.0)
    {
      attack, block, jump := false, false, false;
      look := S.Look(0.0, 0.0);
    }

    function State(): S.Input
      reads this
    {
      S.Input(attack, block, jump, look)
    }
  }

  class OpponentController {
    /** The inspector-set tuning fields (JumpHeight, Gravity, timeouts, clamps, maxHealth, ...). */
    const cfg: S.Config
    const input: NewInput

    var grounded: bool                // Grounded
    var yaw: real                     // _cinemachineTargetYaw
    var pitch: real                   // _cinemachineTargetPitch
    var verticalVelocity: real        // _verticalVelocity
    var jumpTimeoutDelta: real        // _jumpTimeoutDelta
    var fallTimeoutDelta: real        // _fallTimeoutDelta
    var attackTimeOutDelta: real      // _attackTimeOutDelta
    var blocking: bool
    var attacking: bool
    var jump: bool
    var health: int32                 // static currenOpponentHealth
    var isAlive: bool                 // static isAlive
    var healthBar: int32              // the value last passed to healthBar.SetHealth
    var triggers: seq<S.Trigger>      // animator triggers set so far, in order
    var counterpartHits: seq<int>     // damage passed to OpponentHealth.OpponentTakeDamage

    /** The object's state as a value. */
    function Snapshot(): S.Opponent
      reads this, input
    {
      S.Opponent(grounded, yaw, pitch, verticalVelocity,
                 jumpTimeoutDelta, fallTimeoutDelta, attackTimeOutDelta,
                 blocking, attacking, jump, health, isAlive, healthBar,
                 input.State(), triggers, counterpartHits)
    }

    /** The field initialisers; the jump velocity must be the square root it stands for. */
    constructor (cfg: S.Config, input: NewInput)
      requires cfg.Valid()
      ensures this.cfg == cfg && this.input == input
      ensures Snapshot() == S.Initial(input.State())
    {
      this.cfg, this.input := cfg, input;
      grounded := true;
      yaw, pitch, verticalVelocity := 0.0, 0.0, 0.0;
      jumpTimeoutDelta, fallTimeoutDelta, attackTimeOutDelta := 0.0, 0.0, 0.0;
      blocking, attacking, jump := false, false, false;
      health, isAlive, healthBar := 0, false, 0;
      triggers, counterpartHits := [], [];
    }

    method Start()
      modifies this
      ensures Snapshot() == S.Start(cfg, old(Snapshot()))
    {
      health := cfg.maxHealth;
      isAlive := true;
      attackTimeOutDelta := cfg.attackTimeOut;
      jumpTimeoutDelta := cfg.jumpTimeout;
    }

    /** Update, without Move. */
    method Update(dt: real)
      modifies this, input
      ensures Snapshot() == S.Update(cfg, old(Snapshot()), dt)
    {
      JumpAndGravity(dt);
      AnimationAction(dt);
    }

    method AnimationAction(dt: real)
      modifies this, input
      ensures Snapshot() == S.AnimationAction(cfg, old(Snapshot()), dt)
    {
      ServeAttack();
      ServeBlock();
      ServeJump(dt);
      if attackTimeOutDelta <= 0.0 {
        attackTimeOutDelta := cfg.attackTimeOut;
        attacking := false;
      }
    }

    method ServeAttack()
      modifies this, input
      ensures Snapshot() == S.ServeAttack(old(Snapshot()))
    {
      if !attacking {
        if input.attack {
          triggers := triggers + [S.Attack];
          input.attack := false;
        }
      }
    }

    method ServeBlock()
      modifies this, input
      ensures Snapshot() == S.ServeBlock(old(Snapshot()))
    {
      if !blocking {
        if input.block {
          triggers := triggers + [S.Attack2];
          input.block := false;
        }
      }
    }

    method ServeJump(dt: real)
      modifies this, input
      ensures Snapshot() == S.ServeJump(old(Snapshot()), dt)
    {
      if !jump {
        if input.jump {
          triggers := triggers + [S.Jump];
          input.jump := false;
        }
      } else {
        attackTimeOutDelta := attackTimeOutDelta - dt;
        input.attack := false;
      }
    }

    /** LateUpdate. */
    method CameraRotation(dt: real)
      modifies this
      ensures Snapshot() == S.CameraRotation(cfg, old(Snapshot()), dt)
    {
      ghost var s0 := Snapshot();
      Turn(dt);
      S.CameraRotationFrom(cfg, s0, dt, yaw, pitch);
      ClampRotations();
    }

    /** The accumulation that starts CameraRotation: look * dt added while turning. */
    method Turn(dt: real)
      modifies this
      ensures var s := old(Snapshot());
              Snapshot() == s.(yaw := if S.Turning(cfg, s) then s.yaw + s.input.look.x * dt else s.yaw,
                               pitch := if S.Turning(cfg, s) then s.pitch + s.input.look.y * dt else s.pitch)
    {
      if input.look.SqrMagnitude() >= S.LookThreshold && !cfg.lockCameraPosition {
        yaw := yaw + input.look.x * dt;
        pitch := pitch + input.look.y * dt;
      }
    }

    /** The two clamping assignments that end CameraRotation. */
    method ClampRotations()
      modifies this
      ensures Snapshot() == old(Snapshot()).(yaw := S.ClampAngle(old(yaw), -FloatMax, FloatMax),
                                             pitch := S.ClampAngle(old(pitch), cfg.bottomClamp, cfg.topClamp))
    {
      yaw := S.ClampAngle(yaw, -FloatMax, FloatMax);
      pitch := S.ClampAngle(pitch, cfg.bottomClamp, cfg.topClamp);
    }

    method JumpAndGravity(dt: real)
      modifies this, input
      ensures Snapshot() == S.JumpAndGravity(cfg, old(Snapshot()), dt)
    {
      if grounded {
        GroundedBranch(dt);
      } else {
        AirborneBranch(dt);
      }
      if verticalVelocity < S.TerminalVelocity {
        verticalVelocity := verticalVelocity + cfg.gravity * dt;
      }
    }

    method GroundedBranch(dt: real)
      modifies this, input
      ensures Snapshot() == S.GroundedBranch(cfg, old(Snapshot()), dt)
    {
      fallTimeoutDelta := cfg.fallTimeout;
      if verticalVelocity < 0.0 {
        verticalVelocity := S.GroundedVelocity;
      }
      if input.jump && jumpTimeoutDelta <= 0.0 {
        verticalVelocity := cfg.jumpVelocity;
        input.jump := false;
      }
      if jumpTimeoutDelta >= 0.0 {
        jumpTimeoutDelta := jumpTimeoutDelta - dt;
      }
    }

    method AirborneBranch(dt: real)
      modifies this, input
      ensures Snapshot() == S.AirborneBranch(cfg, old(Snapshot()), dt)
    {
      jumpTimeoutDelta := cfg.jumpTimeout;
      if fallTimeoutDelta >= 0.0 {
        fallTimeoutDelta := fallTimeoutDelta - dt;
      }
      input.jump := false;
    }

    method TakeDamage(damage: int32)
      modifies this
      ensures Snapshot() == S.TakeDamage(old(Snapshot()), damage)
    {
      health := Sub32(health, damage);
      triggers := triggers + [S.TakeDamageCue];
      if health <= 0 {
        isAlive := false;
        triggers := triggers + [S.Die];
      }
      healthBar := health;
    }

    method OnCollisionEnter(tag: string)
      modifies this
      ensures Snapshot() == S.OnCollisionEnter(old(Snapshot()), tag)
    {
      if tag == S.OpponentSwordTag {
        TakeDamage(S.SwordDamage);
      }
      if tag == S.MySwordTag {
        counterpartHits := counterpartHits + [S.CounterpartDamage];
      }
    }
  }

  /** A client of the object: with the default settings, after Start a hit from OpponentSword and
      one from mySword leave 74 health and the opponent alive; two more OpponentSword hits leave
      22; a fourth kills it. */
  method DefaultDuel() returns (afterDuel: int32, afterThree: int32, afterFour: int32, alive: bool)
    ensures afterDuel == 74 && afterThree == 22 && afterFour == -4 && !alive
  {
    S.DefaultsValid();
    var input := new NewInput();
    var opponent := new OpponentController(S.Defaults, input);
    opponent.Start();
    opponent.OnCollisionEnter(S.OpponentSwordTag);
    opponent.OnCollisionEnter(S.MySwordTag);
    afterDuel := opponent.health;
    opponent.OnCollisionEnter(S.OpponentSwordTag);
    opponent.OnCollisionEnter(S.OpponentSwordTag);
    afterThree := opponent.health;
    opponent.OnCollisionEnter(S.OpponentSwordTag);
    afterFour := opponent.health;
    alive := opponent.isAlive;
  }
}
