// The animation side of src/objects/character/CharacterRig.ts: which clip actions a
// rig registers under which names, whether it falls back to procedural parts, and
// which action updateAnimation switches to for each animation state.

module Rigging {
  import opened Common
  import opened Appearance

  // ---------------------------------------------------------------------------
  // Text helpers: String.prototype.toLowerCase and includes, for ASCII text.

  function LowerChar(c: char): (r: char)
    ensures 'A' <= c <= 'Z' ==> r as int == c as int + 32
    ensures !('A' <= c <= 'Z') ==> r == c
  {
    if 'A' <= c <= 'Z' then (c as int + 32) as char else c
  }

  function Lower(s: string): (r: string)
    ensures |r| == |s|
    ensures forall i :: 0 <= i < |s| ==> r[i] == LowerChar(s[i])
  {
    seq(|s|, i requires 0 <= i < |s| => LowerChar(s[i]))
  }

  predicate OccursAt(s: string, sub: string, i: int)
  {
    0 <= i && i + |sub| <= |s| && s[i..i + |sub|] == sub
  }

  /** `s.includes(sub)`. */
  predicate Contains(s: string, sub: string)
  {
    exists i :: 0 <= i <= |s| - |sub| && OccursAt(s, sub, i)
  }

  // ---------------------------------------------------------------------------
  // Registering clip actions (createFromAppearance, lines 74-90).

  /** Which of the common aliases a lower-cased clip name mentions. */
  datatype Aliases = Aliases(run: bool, walk: bool, jump: bool, idle: bool, death: bool)

  function AliasesOf(l: string): Aliases
  {
    Aliases(Contains(l, "run"), Contains(l, "walk"), Contains(l, "jump"), Contains(l, "idle"),
            Contains(l, "die") || Contains(l, "death"))
  }

  /** x is among the names a clip with lower-cased name l and aliases a is stored under. */
  predicate IsKey(l: string, a: Aliases, x: string)
  {
    x == l || (a.run && x == "run") || (a.walk && x == "walk") || (a.jump && x == "jump")
    || (a.idle && x == "idle") || (a.death && x == "death")
  }

  /**
   * The names a clip's action is stored under: its lower-cased name, plus the
   * common aliases "run", "walk", "jump", "idle" and "death" that its
   * lower-cased name mentions ("die" also selects "death").
   */
  predicate ClipKey(name: string, x: string)
  {
    IsKey(Lower(name), AliasesOf(Lower(name)), x)
  }

  /** `if (cond) actions.set(key, k)`. */
  function SetIf(actions: map<string, nat>, cond: bool, key: string, k: nat): (r: map<string, nat>)
    ensures forall x :: x in r <==> x in actions || (cond && x == key)
    ensures forall x :: x in r ==> r[x] == if cond && x == key then k else actions[x]
  {
    if cond then actions[key := k] else actions
  }

  /**
   * The body of the registration loop for clip number k with lower-cased name l:
   * store under l, then under each alias the name mentions, in the source's order.
   */
  function Register(actions: map<string, nat>, l: string, a: Aliases, k: nat): (r: map<string, nat>)
    ensures forall key :: key in r <==> key in actions || IsKey(l, a, key)
    ensures forall key :: IsKey(l, a, key) ==> r[key] == k
    ensures forall key :: key in actions && !IsKey(l, a, key) ==> r[key] == actions[key]
  {
    var m0 := actions[l := k];
    var m1 := SetIf(m0, a.run, "run", k);
    var m2 := SetIf(m1, a.walk, "walk", k);
    var m3 := SetIf(m2, a.jump, "jump", k);
    var m4 := SetIf(m3, a.idle, "idle", k);
    SetIf(m4, a.death, "death", k)
  }

  /** Registering clip number k: every one of its keys now names it; other entries are kept. */
  function AddClip(actions: map<string, nat>, name: string, k: nat): (r: map<string, nat>)
    ensures forall key :: key in r <==> key in actions || ClipKey(name, key)
    ensures forall key :: ClipKey(name, key) ==> r[key] == k
    ensures forall key :: key in actions && !ClipKey(name, key) ==> r[key] == actions[key]
  {
    Register(actions, Lower(name), AliasesOf(Lower(name)), k)
  }

  /** The action map after registering the clips in order; actions are identified by clip index. */
  function Actions(clips: seq<string>): map<string, nat>
  {
    if |clips| == 0 then map[]
    else AddClip(Actions(clips[..|clips| - 1]), clips[|clips| - 1], |clips| - 1)
  }

  /** Clip j registers key and no later clip does: the clip whose action key ends up naming. */
  predicate LastWithKey(clips: seq<string>, key: string, j: int)
  {
    0 <= j < |clips| && ClipKey(clips[j], key)
    && forall j' :: j < j' < |clips| ==> !ClipKey(clips[j'], key)
  }

  /**
   * A name is registered exactly when some clip has it among its keys, and it
   * then names the action of the LAST such clip: later clips overwrite.
   */
  lemma {:induction false} ActionsLastWins(clips: seq<string>, key: string)
    ensures key in Actions(clips) <==> exists j :: 0 <= j < |clips| && ClipKey(clips[j], key)
    ensures key in Actions(clips) ==> LastWithKey(clips, key, Actions(clips)[key])
  {
    if |clips| > 0 {
      var n := |clips| - 1;
      var init := clips[..n];
      ActionsLastWins(init, key);
      assert Actions(clips) == AddClip(Actions(init), clips[n], n);
      assert forall j :: 0 <= j < n ==> init[j] == clips[j];
      if ClipKey(clips[n], key) {
        assert Actions(clips)[key] == n;
        assert LastWithKey(clips, key, n);
      } else if key in Actions(init) {
        var j := Actions(init)[key];
        assert LastWithKey(init, key, j);
        assert Actions(clips)[key] == j;
        assert LastWithKey(clips, key, j);
      } else {
        assert key !in Actions(clips);
        forall j | 0 <= j < |clips|
          ensures !ClipKey(clips[j], key)
        {
          if j < n {
            assert init[j] == clips[j];
          }
        }
      }
    }
  }

  /**
   * The registration loop of createFromAppearance: each clip's action is stored
   * under its lower-cased name and then under the aliases its name mentions.
   */
  method RegisterClipActions(clips: seq<string>) returns (actions: map<string, nat>)
    ensures actions == Actions(clips)
    ensures forall key :: key in actions <==> exists j :: 0 <= j < |clips| && ClipKey(clips[j], key)
    ensures forall key :: key in actions ==> LastWithKey(clips, key, actions[key])
  {
    actions := map[];
    var i := 0;
    while i < |clips|
      invariant 0 <= i <= |clips|
      invariant actions == Actions(clips[..i])
    {
      var l := Lower(clips[i]);
      actions := actions[l := i];
      actions := SetIf(actions, Contains(l, "run"), "run", i);
      actions := SetIf(actions, Contains(l, "walk"), "walk", i);
      actions := SetIf(actions, Contains(l, "jump"), "jump", i);
      actions := SetIf(actions, Contains(l, "idle"), "idle", i);
      actions := SetIf(actions, Contains(l, "die") || Contains(l, "death"), "death", i);
      assert clips[..i + 1][..i] == clips[..i];
      i := i + 1;
    }
    assert clips[..i] == clips;
    forall key
      ensures key in actions <==> exists j :: 0 <= j < |clips| && ClipKey(clips[j], key)
      ensures key in actions ==> LastWithKey(clips, key, actions[key])
    {
      ActionsLastWins(clips, key);
    }
  }

  /** A model node whose lower-cased name mentions "body" is used as the body part. */
  predicate HasBodyNode(nodeNames: seq<string>)
  {
    exists i :: 0 <= i < |nodeNames| && Contains(Lower(nodeNames[i]), "body")
  }

  // ---------------------------------------------------------------------------
  // Choosing the action for a state (updateAnimation, lines 207-221).

  /** The fallback chain of the source for each state, ending in the state's own name. */
  function Candidates(s: AnimState): (c: seq<string>)
    ensures |c| > 0 && c[|c| - 1] == StateName(s)
  {
    match s
    case Run => ["run", "walk", "run"]
    case Idle => ["idle", "walk", "idle"]
    case Jump => ["jump", "jump"]
    case Fall => ["jump", "fall"]
    case Dead => ["death", "idle", "dead"]
    case Win => ["jump", "run", "win"]
  }

  /** The action under the first of keys that is registered. */
  function FirstPresent(actions: map<string, nat>, keys: seq<string>): (r: Option<nat>)
    ensures r.None? <==> forall i :: 0 <= i < |keys| ==> keys[i] !in actions
    ensures r.Some? ==> exists i :: 0 <= i < |keys| && keys[i] in actions && actions[keys[i]] == r.value
                                   && forall j :: 0 <= j < i ==> keys[j] !in actions
  {
    if |keys| == 0 then None
    else if keys[0] in actions then Some(actions[keys[0]])
    else
      var r := FirstPresent(actions, keys[1..]);
      assert forall i :: 1 <= i < |keys| ==> keys[i] == keys[1..][i - 1];
      r
  }

  function Get(actions: map<string, nat>, key: string): Option<nat>
  {
    if key in actions then Some(actions[key]) else None
  }

  function Or(a: Option<nat>, b: Option<nat>): Option<nat>
  {
    if a.Some? then a else b
  }

  /** The target action of updateAnimation: the state's own chain, then the action named by the state. */
  function TargetAction(actions: map<string, nat>, s: AnimState): Option<nat>
  {
    var specific :=
      match s
      case Run => Or(Get(actions, "run"), Get(actions, "walk"))
      case Idle => Or(Get(actions, "idle"), Get(actions, "walk"))
      case Jump => Get(actions, "jump")
      case Fall => Get(actions, "jump")
      case Dead => Or(Get(actions, "death"), Get(actions, "idle"))
      case Win => Or(Get(actions, "jump"), Get(actions, "run"));
    if specific.None? then Get(actions, StateName(s)) else specific
  }

  /**
   * The cascade picks the first registered name of the state's fallback chain;
   * there is no target exactly when none of those names is registered.
   */
  lemma TargetIsFirstOfChain(actions: map<string, nat>, s: AnimState)
    ensures TargetAction(actions, s) == FirstPresent(actions, Candidates(s))
    ensures TargetAction(actions, s).Some? ==> TargetAction(actions, s).value in actions.Values
  {
    var c := Candidates(s);
    assert c[1..][1..] == c[2..];
    assert StateName(s) == c[|c| - 1];
    match s
    case Run =>
    case Idle =>
    case Jump =>
    case Fall =>
    case Dead =>
      assert c == ["death", "idle", "dead"];
      assert c[1..] == ["idle", "dead"] && c[2..] == ["dead"];
    case Win =>
  }
  /** A rig that registered an action under a state's own name always has a target for that state. */
  lemma OwnNameFound(actions: map<string, nat>, s: AnimState)
    requires StateName(s) in actions
    ensures TargetAction(actions, s).Some?
  {
    TargetIsFirstOfChain(actions, s);
    var c := Candidates(s);
    assert c[|c| - 1] in actions;
  }


  // ---------------------------------------------------------------------------
  // The rig object.

  class CharacterRig {
    /** Seconds of animation time accumulated so far. */
    var time: real
    /** Whether an AnimationMixer drives the model. */
    const hasMixer: bool
    /** Clip actions by name; an action is identified by its clip's index. */
    const actions: map<string, nat>
    /** The action currently faded in, if any. */
    var currentAction: Option<nat>
    /** Whether the placeholder body, head, wings and legs were built. */
    const procedural: bool

    ghost predicate Valid()
      reads this
    {
      (!hasMixer ==> actions == map[])
      && (currentAction.Some? ==> currentAction.value in actions.Values)
    }

    /**
     * createFromAppearance. model holds the names of the nodes of the model
     * stored under the appearance's modelKey (None when no model is loaded);
     * animations holds the names of its clips (None when none are stored).
     */
    constructor CreateFromAppearance(model: Option<seq<string>>, animations: Option<seq<string>>)
      ensures Valid()
      ensures hasMixer <==> model.Some? && animations.Some? && |animations.value| > 0
      ensures hasMixer ==> actions == Actions(animations.value)
      ensures procedural <==> !hasMixer && !(model.Some? && HasBodyNode(model.value))
      ensures time == 0.0 && currentAction == None
    {
      var mixer := false;
      var registered: map<string, nat> := map[];
      var body := false;
      if model.Some? {
        if animations.Some? && |animations.value| > 0 {
          mixer := true;
          registered := RegisterClipActions(animations.value);
        }
        body := HasBodyNode(model.value);
      }
      time := 0.0;
      hasMixer := mixer;
      actions := registered;
      currentAction := None;
      procedural := !body && !mixer;
    }

    /**
     * updateAnimation: advance time; with a mixer, switch to the state's target
     * action when there is one and it is not already playing.
     */
    method UpdateAnimation(delta: real, state: AnimState)
      requires Valid()
      modifies this`time, this`currentAction
      ensures Valid()
      ensures time == old(time) + delta
      ensures hasMixer && TargetAction(actions, state).Some? ==> currentAction == TargetAction(actions, state)
      ensures !(hasMixer && TargetAction(actions, state).Some?) ==> currentAction == old(currentAction)
    {
      time := time + delta;
      if hasMixer {
        var target := TargetAction(actions, state);
        TargetIsFirstOfChain(actions, state);
        if target.Some? && currentAction != target {
          currentAction := target;
        }
      }
    }
  }
}
