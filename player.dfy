// The discrete state of a Player (src/objects/Player.ts): death, victory, coins,
// the jump hold and the animation state. Forces, velocities and orientation are
// physics and are not part of this model; the ground test (canJump) and the
// body's height are inputs.

module Players {
  import opened Common
  import opened Appearance
  import Rigging

  /** MAX_JUMP_TIME: seconds during which a held jump keeps adding force. */
  const MaxJumpTime: real := 0.3
  /** The jump-hold timer advances by one frame of a 60 Hz loop per call. */
  const FrameTime: real := 1.0 / 60.0
  /** Below this height the player counts as fallen off the level. */
  const DeathHeight: real := -5.0

  /** Everything about a player that the game logic reads or writes. */
  datatype Flags = Flags(
    isJumping: bool,
    jumpTime: real,
    isDead: bool,
    hasWon: bool,
    score: nat,
    animState: AnimState,
    lastHitBy: Option<string>)

  const Fresh := Flags(false, 0.0, false, false, 0, Idle, None)

  /** Tags whose contact kills the player. */
  predicate IsHazard(tag: Option<string>)
  {
    tag == Some("trap") || tag == Some("black_hole") || tag == Some("turret")
  }

  /**
   * The collide listener, for a contact body carrying user data with the given
   * tag, owner and coin flag; returns the player's new flags and the contact's
   * new coin flag.
   */
  function Collide(f: Flags, tag: Option<string>, owner: Option<string>, collected: bool): (Flags, bool)
  {
    if IsHazard(tag) then (f.(isDead := true, animState := Dead, lastHitBy := owner), collected)
    else if tag == Some("goal") then (f.(hasWon := true), collected)
    else if tag == Some("spring") then (f.(isJumping := true), collected)
    else if tag == Some("coin") then
      (if !collected then (f.(score := f.score + 1), true) else (f, collected))
    else (f, collected)
  }

  /** A hazard kills; a contact never revives, never un-wins and never takes coins away. */
  lemma CollideEffects(f: Flags, tag: Option<string>, owner: Option<string>, collected: bool)
    ensures var (g, c) := Collide(f, tag, owner, collected);
      (IsHazard(tag) ==> g.isDead && g.animState == Dead && g.lastHitBy == owner)
      && (f.isDead ==> g.isDead) && (f.hasWon ==> g.hasWon)
      && (tag == Some("goal") ==> g.hasWon)
      && g.score >= f.score
      && (g.score != f.score ==> tag == Some("coin") && !collected && c && g.score == f.score + 1)
  {
  }

  /** A coin is counted once: touching the same coin twice adds exactly one point. */
  lemma CoinCountedOnce(f: Flags, owner: Option<string>)
    ensures var (g, c) := Collide(f, Some("coin"), owner, false);
      var (h, c2) := Collide(g, Some("coin"), owner, c);
      h.score == f.score + 1 && c2
  {
  }

  /** Either axis beyond the 0.1 dead zone counts as moving. */
  predicate Moving(x: real, y: real)
  {
    x > 0.1 || x < -0.1 || y > 0.1 || y < -0.1
  }

  /**
   * setInput's effect on the flags: nothing once dead or won; otherwise the
   * movement animation, the jump hold and the falling animation.
   */
  function InputEffect(f: Flags, x: real, y: real, jump: bool, grounded: bool): Flags
  {
    if f.isDead || f.hasWon then f
    else
      var moved :=
        if grounded then f.(animState := if Moving(x, y) then Run else Idle)
        else if Moving(x, y) then f.(animState := Jump)
        else f;
      var jumped :=
        if jump then
          if grounded then moved.(isJumping := true, jumpTime := 0.0)
          else if moved.isJumping && moved.jumpTime < MaxJumpTime then moved.(jumpTime := moved.jumpTime + FrameTime)
          else moved
        else moved.(isJumping := false);
      if !grounded && !jumped.isJumping then jumped.(animState := Fall) else jumped
  }

  /** The rules of setInput stated case by case. */
  lemma SetInputRules(f: Flags, x: real, y: real, jump: bool, grounded: bool)
    ensures var g := InputEffect(f, x, y, jump, grounded);
      (f.isDead || f.hasWon ==> g == f)
      && (!(f.isDead || f.hasWon) ==>
            (!jump ==> !g.isJumping)
            && (jump && grounded ==> g.isJumping && g.jumpTime == 0.0)
            && (!grounded && !g.isJumping ==> g.animState == Fall)
            && (grounded ==> g.animState == (if Moving(x, y) then Run else Idle))
            && (!grounded && g.isJumping && Moving(x, y) ==> g.animState == Jump))
      && g.isDead == f.isDead && g.hasWon == f.hasWon && g.score == f.score && g.lastHitBy == f.lastHitBy
  {
  }

  /**
   * The jump hold is bounded: the timer only advances while below
   * MaxJumpTime, so it never passes MaxJumpTime plus one frame.
   */
  lemma JumpTimeBounded(f: Flags, x: real, y: real, jump: bool, grounded: bool)
    requires 0.0 <= f.jumpTime <= MaxJumpTime + FrameTime
    ensures 0.0 <= InputEffect(f, x, y, jump, grounded).jumpTime <= MaxJumpTime + FrameTime
  {
  }

  /** checkDeath: already dead, or now below the death height (which makes it dead). */
  function DeathCheck(f: Flags, height: real): (bool, Flags)
  {
    if f.isDead then (true, f)
    else if height < DeathHeight then (true, f.(isDead := true))
    else (false, f)
  }

  /** checkDeath answers whether the player is dead afterwards, and changes nothing else. */
  lemma CheckDeathAgrees(f: Flags, height: real)
    ensures var (dead, g) := DeathCheck(f, height);
      dead == g.isDead && dead == (f.isDead || height < DeathHeight)
      && g == f.(isDead := dead)
  {
  }

  /** resetPosition: alive, not won, idle; coins and the jump hold are kept. */
  function Reset(f: Flags): Flags
  {
    f.(isDead := false, hasWon := false, animState := Idle)
  }

  /** Resetting twice is resetting once, and a reset player can move again. */
  lemma ResetIdempotent(f: Flags)
    ensures Reset(Reset(f)) == Reset(f)
    ensures !Reset(f).isDead && !Reset(f).hasWon && Reset(f).score == f.score
  {
  }

  /** The user data of a physics body a player can touch; only a coin's flag ever changes. */
  class BodyUserData {
    const tag: Option<string>
    const owner: Option<string>
    var collected: bool

    constructor(tag: Option<string>, owner: Option<string>)
      ensures this.tag == tag && this.owner == owner && !collected
    {
      this.tag := tag;
      this.owner := owner;
      collected := false;
    }
  }

  class Player {
    var isJumping: bool
    var jumpTime: real
    var isDead: bool
    var hasWon: bool
    var score: nat
    var animState: AnimState
    var lastHitBy: Option<string>
    /** The rig that draws this player. */
    const rig: Rigging.CharacterRig

    function State(): Flags
      reads this
    {
      Flags(isJumping, jumpTime, isDead, hasWon, score, animState, lastHitBy)
    }

    constructor(rig: Rigging.CharacterRig)
      ensures State() == Fresh && this.rig == rig
    {
      isJumping := false;
      jumpTime := 0.0;
      isDead := false;
      hasWon := false;
      score := 0;
      animState := Idle;
      lastHitBy := None;
      this.rig := rig;
    }

    /** The collide listener; a contact body without user data (null) has no effect. */
    method OnCollide(contact: BodyUserData?)
      modifies this, contact
      ensures contact == null ==> State() == old(State())
      ensures contact != null ==>
        (State(), contact.collected) == Collide(old(State()), contact.tag, contact.owner, old(contact.collected))
    {
      if contact != null {
        var tag := contact.tag;
        if tag == Some("trap") || tag == Some("black_hole") || tag == Some("turret") {
          isDead := true;
          animState := Dead;
          lastHitBy := contact.owner;
        } else if tag == Some("goal") {
          hasWon := true;
        } else if tag == Some("spring") {
          isJumping := true;
        } else if tag == Some("coin") {
          if !contact.collected {
            score := score + 1;
            contact.collected := true;
          }
        }
      }
    }

    /** setInput for movement input (x, y), the jump key and the ground test canJump. */
    method SetInput(x: real, y: real, jump: bool, grounded: bool)
      modifies this
      ensures State() == InputEffect(old(State()), x, y, jump, grounded)
    {
      if isDead || hasWon {
        return;
      }
      if grounded {
        if Moving(x, y) {
          animState := Run;
        } else {
          animState := Idle;
        }
      } else if Moving(x, y) {
        animState := Jump;
      }
      if jump {
        if grounded {
          isJumping := true;
          jumpTime := 0.0;
        } else if isJumping && jumpTime < MaxJumpTime {
          jumpTime := jumpTime + FrameTime;
        }
      } else {
        isJumping := false;
      }
      if !grounded && !isJumping {
        animState := Fall;
      }
    }

    /** checkDeath, given the height of the player's body. */
    method CheckDeath(height: real) returns (dead: bool)
      modifies this
      ensures (dead, State()) == DeathCheck(old(State()), height)
    {
      if isDead {
        return true;
      }
      if height < DeathHeight {
        isDead := true;
        return true;
      }
      return false;
    }

    /** resetPosition; the body's position and velocities are physics. */
    method ResetPosition()
      modifies this
      ensures State() == Reset(old(State()))
    {
      isDead := false;
      hasWon := false;
      animState := Idle;
    }

    /** update: hand the current animation state to the rig. */
    method Update(delta: real)
      requires rig.Valid()
      modifies rig`time, rig`currentAction
      ensures rig.Valid()
      ensures rig.time == old(rig.time) + delta
      ensures rig.hasMixer && Rigging.TargetAction(rig.actions, animState).Some? ==>
        rig.currentAction == Rigging.TargetAction(rig.actions, animState)
      ensures !(rig.hasMixer && Rigging.TargetAction(rig.actions, animState).Some?) ==>
        rig.currentAction == old(rig.currentAction)
    {
      rig.UpdateAnimation(delta, animState);
    }
  }
}
