/**
 * The fox's animation controller: the clip table, the selected key, the
 * mixer and the current action of the component, and how selecting a key
 * stops the old action and starts the new one.
 *
 * three.js objects are opaque handles. An action is identified by its mixer
 * and its clip, because `mixer.clipAction(clip)` hands out one action per
 * clip and mixer. What plays is a set of actions that only the `Stopped` and
 * `Played` steps change; every step is also recorded in an event log.
 */
module Animation {
  import opened Optional

  /** The three animations of the fox asset (`FoxAnimation` in the component). */
  datatype FoxAnimation = Idle | Walk | Run

  /** Handle of a three.js `AnimationClip`. */
  type ClipId = nat

  /** Handle of a three.js `AnimationMixer`. */
  type MixerId = nat

  /** An `AnimationAction`: one clip bound to one mixer. */
  datatype Action = Action(mixer: MixerId, clip: ClipId)

  /** One call of `action.stop()` or `action.play()`. */
  datatype Event = Stopped(action: Action) | Played(action: Action)

  /**
   * The component's `foxAnimationClips`: every key is present, and its value
   * is undefined when the asset had no clip at that position.
   */
  type ClipTable = map<FoxAnimation, Option<ClipId>>

  /** The debug panel's initial `selectedAnimationTitle`. */
  const DefaultSelection: Option<FoxAnimation> := Some(Walk)

  /** Position of a key's clip in the asset's animation list. */
  function ClipIndex(k: FoxAnimation): nat {
    match k
    case Idle => 0
    case Walk => 1
    case Run => 2
  }

  /** TypeScript indexing `animations[i]`: undefined past the end. */
  function ElementAt(animations: seq<ClipId>, i: nat): Option<ClipId> {
    if i < |animations| then Some(animations[i]) else None
  }

  /** The clip table that `createFox` builds from the asset's animation list. */
  function BuildClipTable(animations: seq<ClipId>): (t: ClipTable)
    ensures forall k :: k in t
    ensures forall k :: t[k] == ElementAt(animations, ClipIndex(k))
    ensures forall k :: t[k].Some? <==> ClipIndex(k) < |animations|
    ensures |animations| >= 3 ==>
      t[Idle] == Some(animations[0]) && t[Walk] == Some(animations[1]) && t[Run] == Some(animations[2])
  {
    var t := map[Idle := ElementAt(animations, 0), Walk := ElementAt(animations, 1), Run := ElementAt(animations, 2)];
    assert forall k :: k in t by {
      forall k ensures k in t {
        if k.Idle? {} else if k.Walk? {} else { assert k.Run?; }
      }
    }
    t
  }

  /** The `selectedAnimation` getter: the clip of the selected key, if any. */
  function SelectedClip(selected: Option<FoxAnimation>, clips: Option<ClipTable>): (r: Option<ClipId>)
    ensures selected.None? || clips.None? ==> r.None?
    ensures r.Some? <==>
      selected.Some? && clips.Some? && selected.value in clips.value && clips.value[selected.value].Some?
    ensures r.Some? ==> r == clips.value[selected.value]
  {
    if selected.None? then None
    else if clips.None? then None
    else if selected.value in clips.value then clips.value[selected.value]
    else None
  }

  /** The controller's state: the component's fields plus what plays and the event log. */
  datatype Controller = Controller(
    mixer: Option<MixerId>,
    action: Option<Action>,
    clips: Option<ClipTable>,
    selected: Option<FoxAnimation>,
    playing: set<Action>,
    log: seq<Event>)

  /** The component as constructed: no mixer, no action, no clip table, `walk` selected. */
  const Init: Controller := Controller(None, None, None, DefaultSelection, {}, [])

  /** The effect of one event on the set of playing actions. */
  function Apply(playing: set<Action>, e: Event): set<Action> {
    match e
    case Stopped(a) => playing - {a}
    case Played(a) => playing + {a}
  }

  /** The actions playing after the events of `log`, starting from none. */
  function PlayingAfter(log: seq<Event>): set<Action> {
    if log == [] then {} else Apply(PlayingAfter(log[..|log| - 1]), log[|log| - 1])
  }

  /**
   * The invariant of the controller: what plays is exactly what the log of
   * play and stop steps leaves playing, and that is nothing or the current
   * action alone.
   */
  predicate Consistent(c: Controller) {
    c.playing == PlayingAfter(c.log) &&
    (c.playing == {} || (c.action.Some? && c.playing == {c.action.value}))
  }

  /** The action that the current selection asks for, when a mixer and a clip exist. */
  function Target(c: Controller): Option<Action> {
    var clip := SelectedClip(c.selected, c.clips);
    if c.mixer.Some? && clip.Some? then Some(Action(c.mixer.value, clip.value)) else None
  }

  /** `Target` as the set of actions that ought to be playing. */
  function TargetSet(c: Controller): set<Action> {
    if Target(c).Some? then {Target(c).value} else {}
  }

  /** One play or stop step: what plays changes by `Apply` and the step is logged. */
  function Emit(c: Controller, e: Event): (r: Controller)
    ensures r.mixer == c.mixer && r.action == c.action && r.clips == c.clips && r.selected == c.selected
    ensures r.log == c.log + [e]
    // `stop()` takes the action out of what plays, `play()` adds it
    ensures e.Stopped? ==> r.playing == c.playing - {e.action} && e.action !in r.playing
    ensures e.Played? ==> r.playing == c.playing + {e.action} && e.action in r.playing
    ensures Consistent(c) ==> r.playing == PlayingAfter(r.log)
  {
    assert (c.log + [e])[..|c.log|] == c.log;
    c.(playing := Apply(c.playing, e), log := c.log + [e])
  }

  /** `setAnimationAction`. */
  function ActionStep(c: Controller): (r: Controller)
    ensures r.mixer == c.mixer && r.clips == c.clips && r.selected == c.selected
    ensures Target(r) == Target(c)
    // the log only grows, by one stop when there was an action and one play when there is a target
    ensures c.log <= r.log
    ensures |r.log| == |c.log| + (if c.action.Some? then 1 else 0) + (if Target(c).Some? then 1 else 0)
    // the old action is stopped first, whatever is selected
    ensures c.action.Some? ==> r.log[|c.log|] == Stopped(c.action.value)
    // a new action is played, and becomes current, only for a target
    ensures Target(c).Some? ==> r.log[|r.log| - 1] == Played(Target(c).value) && r.action == Target(c)
    // without a target the field still names the old, stopped action
    ensures Target(c).None? ==> r.action == c.action
    ensures Consistent(c) ==> Consistent(r) && r.playing == TargetSet(c)
  {
    var stopped := if c.action.Some? then Emit(c, Stopped(c.action.value)) else c;
    match Target(c)
    case Some(a) => Emit(stopped, Played(a)).(action := Some(a))
    case None => stopped
  }

  /** `setFoxAnimation`: bind a new mixer, then select. */
  function FoxStep(c: Controller, m: MixerId): (r: Controller)
    ensures r.mixer == Some(m) && r.clips == c.clips && r.selected == c.selected
    ensures Consistent(c) ==> Consistent(r)
    ensures Consistent(c) ==>
      r.playing == match SelectedClip(c.selected, c.clips)
                   case Some(clip) => {Action(m, clip)}
                   case None => {}
  {
    ActionStep(c.(mixer := Some(m)))
  }

  /** `createFox`, as far as animation goes: build the clip table, then `setFoxAnimation`. */
  function CreateFoxStep(c: Controller, animations: seq<ClipId>, m: MixerId): (r: Controller)
    ensures r.mixer == Some(m) && r.clips == Some(BuildClipTable(animations)) && r.selected == c.selected
    ensures Consistent(c) ==> Consistent(r)
    ensures Consistent(c) ==>
      r.playing == match c.selected
                   case Some(k) => if ClipIndex(k) < |animations| then {Action(m, animations[ClipIndex(k)])} else {}
                   case None => {}
  {
    FoxStep(c.(clips := Some(BuildClipTable(animations))), m)
  }

  /** The debug panel's `onChange` for the animation selector: set the key, then `setAnimationAction`. */
  function SelectStep(c: Controller, key: Option<FoxAnimation>): (r: Controller)
    ensures r.mixer == c.mixer && r.clips == c.clips && r.selected == key
    ensures Consistent(c) ==> Consistent(r)
    ensures Consistent(c) ==>
      r.playing == if c.mixer.Some? && SelectedClip(key, c.clips).Some?
                   then {Action(c.mixer.value, SelectedClip(key, c.clips).value)} else {}
  {
    ActionStep(c.(selected := key))
  }

  /** What can happen to the controller from outside. */
  datatype Op = CreateFox(animations: seq<ClipId>, mixer: MixerId) | Select(key: Option<FoxAnimation>)

  function Step(c: Controller, op: Op): Controller {
    match op
    case CreateFox(animations, m) => CreateFoxStep(c, animations, m)
    case Select(key) => SelectStep(c, key)
  }

  /** The controller after the operations of `ops`, in order. */
  function RunOps(c: Controller, ops: seq<Op>): Controller
    decreases |ops|
  {
    if ops == [] then c else RunOps(Step(c, ops[0]), ops[1..])
  }

  /** The key selected after the operations of `ops`, starting from `s`: the last `Select`'s key. */
  function LastSelection(s: Option<FoxAnimation>, ops: seq<Op>): Option<FoxAnimation>
    decreases |ops|
  {
    if ops == [] then s else LastSelection(if ops[0].Select? then ops[0].key else s, ops[1..])
  }

  /** Every operation ends in `setAnimationAction`, so afterwards exactly the target plays. */
  lemma StepPlaysTarget(c: Controller, op: Op)
    requires Consistent(c)
    ensures Consistent(Step(c, op)) && Step(c, op).playing == TargetSet(Step(c, op))
  {
  }

  /**
   * After any sequence of operations at most one action plays; after a
   * nonempty one it is exactly the target of the final state, whose key is
   * that of the last selection; no other action plays.
   */
  lemma {:induction false} RunOpsPlaysLastTarget(c: Controller, ops: seq<Op>)
    requires Consistent(c)
    ensures Consistent(RunOps(c, ops))
    ensures |RunOps(c, ops).playing| <= 1
    ensures ops != [] ==> RunOps(c, ops).playing == TargetSet(RunOps(c, ops))
    ensures RunOps(c, ops).selected == LastSelection(c.selected, ops)
    decreases |ops|
  {
    if ops == [] {
      if c.playing != {} {
        assert c.playing == {c.action.value};
      }
    } else {
      StepPlaysTarget(c, ops[0]);
      RunOpsPlaysLastTarget(Step(c, ops[0]), ops[1..]);
    }
  }

  /**
   * Before `createFox` there is no clip table and no mixer: selections stop
   * and play nothing, so what plays and the log stay as they were, and only
   * the key changes.
   */
  lemma {:induction false} SelectionsBeforeFox(c: Controller, ops: seq<Op>)
    requires c.mixer.None? && c.action.None? && c.clips.None?
    requires forall i :: 0 <= i < |ops| ==> ops[i].Select?
    ensures RunOps(c, ops).playing == c.playing && RunOps(c, ops).log == c.log
    ensures RunOps(c, ops).action.None? && RunOps(c, ops).mixer.None? && RunOps(c, ops).clips.None?
    ensures RunOps(c, ops).selected == if ops == [] then c.selected else ops[|ops| - 1].key
    decreases |ops|
  {
    if ops != [] {
      var d := Step(c, ops[0]);
      assert d == c.(selected := ops[0].key);
      SelectionsBeforeFox(d, ops[1..]);
      if |ops| > 1 {
        assert ops[1..][|ops[1..]| - 1] == ops[|ops| - 1];
      }
    }
  }

  /**
   * Default start-up: after `createFox` the walk clip, `animations[1]`, alone
   * plays. Only the walk clip has to exist for this.
   */
  lemma DefaultPlaysWalk(animations: seq<ClipId>, m: MixerId)
    requires |animations| >= 2
    ensures CreateFoxStep(Init, animations, m).playing == {Action(m, animations[1])}
    ensures CreateFoxStep(Init, animations, m).action == Some(Action(m, animations[1]))
    ensures CreateFoxStep(Init, animations, m).log == [Played(Action(m, animations[1]))]
  {
  }

  /**
   * Switching from walk to run to idle: the idle clip, `animations[0]`, alone
   * plays, and the run action was played and then stopped.
   */
  lemma WalkRunIdle(animations: seq<ClipId>, m: MixerId)
    requires |animations| >= 3
    ensures var c := RunOps(Init, [CreateFox(animations, m), Select(Some(Run)), Select(Some(Idle))]);
      c.playing == {Action(m, animations[0])} && c.action == Some(Action(m, animations[0])) &&
      c.log == [Played(Action(m, animations[1])), Stopped(Action(m, animations[1])),
                Played(Action(m, animations[2])), Stopped(Action(m, animations[2])),
                Played(Action(m, animations[0]))]
  {
    var c1 := CreateFoxStep(Init, animations, m);
    var c2 := SelectStep(c1, Some(Run));
    var c3 := SelectStep(c2, Some(Idle));
    var ops := [CreateFox(animations, m), Select(Some(Run)), Select(Some(Idle))];
    assert ops[1..] == [Select(Some(Run)), Select(Some(Idle))];
    assert ops[1..][1..] == [Select(Some(Idle))];
    assert RunOps(c3, []) == c3;
    assert RunOps(c2, [Select(Some(Idle))]) == c3;
    assert RunOps(c1, ops[1..]) == c3;
  }

  /** Clearing the key stops the current action and plays nothing; the field keeps the stopped action. */
  lemma ClearingStopsAll(c: Controller)
    requires Consistent(c)
    ensures SelectStep(c, None).playing == {}
    ensures SelectStep(c, None).action == c.action
    ensures c.action.Some? ==> SelectStep(c, None).log == c.log + [Stopped(c.action.value)]
  {
  }

  /** The number of `stop()` calls in a log. */
  function CountStops(log: seq<Event>): nat {
    if log == [] then 0 else CountStops(log[..|log| - 1]) + (if log[|log| - 1].Stopped? then 1 else 0)
  }

  /** The number of `play()` calls in a log. */
  function CountPlays(log: seq<Event>): nat {
    if log == [] then 0 else CountPlays(log[..|log| - 1]) + (if log[|log| - 1].Played? then 1 else 0)
  }

  /**
   * One switch while an action is current and the new key has a clip: the
   * log gains exactly one stop of the old action and then one play of the
   * new one, and the new action is current.
   */
  lemma SwitchLogsStopThenPlay(c: Controller, key: Option<FoxAnimation>)
    requires c.action.Some? && c.mixer.Some? && SelectedClip(key, c.clips).Some?
    ensures var r := SelectStep(c, key);
      r.log == c.log + [Stopped(c.action.value), Played(Action(c.mixer.value, SelectedClip(key, c.clips).value))] &&
      r.action == Some(Action(c.mixer.value, SelectedClip(key, c.clips).value))
  {
    var r := SelectStep(c, key);
    assert r.log[..|c.log|] == c.log;
  }

  /**
   * Once an action is current, every one of N selections whose key has a
   * clip stops the old action exactly once and plays the new one exactly
   * once: N stops, N plays and 2 * N log entries.
   */
  lemma {:induction false} SwitchesStopOncePerSelection(c: Controller, ops: seq<Op>)
    requires c.action.Some? && c.mixer.Some?
    requires forall i :: 0 <= i < |ops| ==> ops[i].Select? && SelectedClip(ops[i].key, c.clips).Some?
    ensures c.log <= RunOps(c, ops).log
    ensures |RunOps(c, ops).log| == |c.log| + 2 * |ops|
    ensures CountStops(RunOps(c, ops).log) == CountStops(c.log) + |ops|
    ensures CountPlays(RunOps(c, ops).log) == CountPlays(c.log) + |ops|
    decreases |ops|
  {
    if ops != [] {
      var d := Step(c, ops[0]);
      SwitchLogsStopThenPlay(c, ops[0].key);
      var mid := c.log + [Stopped(c.action.value)];
      assert d.log[..|d.log| - 1] == mid;
      assert mid[..|mid| - 1] == c.log;
      assert forall i :: 0 <= i < |ops[1..]| ==> ops[1..][i] == ops[i + 1];
      SwitchesStopOncePerSelection(d, ops[1..]);
    }
  }

  /**
   * Start-up with all three clips, then N selections of a key: the log holds
   * exactly N stops and N + 1 plays, one play from `createFox` and one stop
   * and one play per switch.
   */
  lemma FoxThenSwitches(animations: seq<ClipId>, m: MixerId, ops: seq<Op>)
    requires |animations| >= 3
    requires forall i :: 0 <= i < |ops| ==> ops[i].Select? && ops[i].key.Some?
    ensures CountStops(RunOps(Init, [CreateFox(animations, m)] + ops).log) == |ops|
    ensures CountPlays(RunOps(Init, [CreateFox(animations, m)] + ops).log) == |ops| + 1
  {
    var c := CreateFoxStep(Init, animations, m);
    DefaultPlaysWalk(animations, m);
    assert ([CreateFox(animations, m)] + ops)[1..] == ops;
    assert c.log[..0] == [];
    SwitchesStopOncePerSelection(c, ops);
  }

  /** The component's animation fields, updated in place. */
  class AnimationController {
    var mixer: Option<MixerId>
    var action: Option<Action>
    var clips: Option<ClipTable>
    var selected: Option<FoxAnimation>
    var playing: set<Action>
    /** The record of `stop()` and `play()` calls; not a field of the component. */
    ghost var log: seq<Event>

    ghost function State(): Controller
      reads this
    {
      Controller(mixer, action, clips, selected, playing, log)
    }

    ghost predicate Valid()
      reads this
    {
      Consistent(State())
    }

    constructor ()
      ensures State() == Init && Valid()
    {
      mixer, action, clips, selected := None, None, None, DefaultSelection;
      playing, log := {}, [];
    }

    /** `action.stop()`. */
    method Stop(a: Action)
      modifies this`playing, this`log
      ensures playing == old(playing) - {a} && log == old(log) + [Stopped(a)]
    {
      playing := playing - {a};
      log := log + [Stopped(a)];
    }

    /** `action.play()`. */
    method Play(a: Action)
      modifies this`playing, this`log
      ensures playing == old(playing) + {a} && log == old(log) + [Played(a)]
    {
      playing := playing + {a};
      log := log + [Played(a)];
    }

    /** `setAnimationAction`. */
    method SetAnimationAction()
      requires Valid()
      modifies this
      ensures Valid()
      ensures State() == ActionStep(old(State()))
      ensures playing == TargetSet(old(State()))
    {
      ghost var before := State();
      if action.Some? {
        Stop(action.value);
      }
      ghost var stopped := State();
      assert stopped == if before.action.Some? then Emit(before, Stopped(before.action.value)) else before;
      var clip := SelectedClip(selected, clips);
      if mixer.Some? && clip.Some? {
        action := Some(Action(mixer.value, clip.value));
        Play(action.value);
        assert State() == Emit(stopped, Played(action.value)).(action := Target(before));
      }
    }

    /** `setFoxAnimation`, with `m` the newly created mixer. */
    method SetFoxAnimation(m: MixerId)
      requires Valid()
      modifies this
      ensures Valid()
      ensures State() == FoxStep(old(State()), m)
    {
      mixer := Some(m);
      SetAnimationAction();
    }

    /** `createFox`, given the asset's animation list and the new mixer. */
    method CreateFox(animations: seq<ClipId>, m: MixerId)
      requires Valid()
      modifies this
      ensures Valid()
      ensures State() == CreateFoxStep(old(State()), animations, m)
    {
      clips := Some(BuildClipTable(animations));
      SetFoxAnimation(m);
    }

    /** The animation selector's `onChange(value)`. */
    method SelectAnimation(key: Option<FoxAnimation>)
      requires Valid()
      modifies this
      ensures Valid()
      ensures State() == SelectStep(old(State()), key)
    {
      selected := key;
      SetAnimationAction();
    }
  }
}
