/** The animation controller of src/animationController.js: one playback
    action per clip of the loaded model, keyed by the lower-cased clip name,
    and at most one active action that `play` cross-fades away from. */
module Animation {
  import opened Wrappers
  import opened Text

  /** An action is identified by the index of its clip in the model's
      `animations` list (the mixer creates one action per clip object). */
  type ActionId = nat

  const FadeSeconds := 0.2

  /** The engine calls `play` makes on actions, in the order it makes them. */
  datatype ActionCall = FadeOut(action: ActionId, seconds: real)
                      | Reset(action: ActionId)
                      | FadeIn(action: ActionId, seconds: real)
                      | Start(action: ActionId)

  /** The `actions` dictionary the constructor's `forEach` builds from the
      clip names: each clip is stored under its lower-cased name, a later clip
      overwriting an earlier one with the same lower-cased name. */
  function ActionsFor(clipNames: seq<string>): (m: map<string, ActionId>)
    ensures forall k :: k in m ==> m[k] < |clipNames|
  {
    if clipNames == [] then map[]
    else
      var n := |clipNames| - 1;
      ActionsFor(clipNames[..n])[Lower(clipNames[n]) := n]
  }

  /** The keys of `actions` are exactly the lower-cased clip names, and each
      key holds the LAST clip with that lower-cased name. */
  lemma {:induction false} ActionsForKeys(clipNames: seq<string>, key: string)
    ensures key in ActionsFor(clipNames) <==> exists i :: 0 <= i < |clipNames| && Lower(clipNames[i]) == key
    ensures key in ActionsFor(clipNames) ==>
      var i := ActionsFor(clipNames)[key];
      Lower(clipNames[i]) == key &&
      forall j :: i < j < |clipNames| ==> Lower(clipNames[j]) != key
  {
    if clipNames != [] {
      var n := |clipNames| - 1;
      var prefix := clipNames[..n];
      ActionsForKeys(prefix, key);
      assert forall i :: 0 <= i < n ==> prefix[i] == clipNames[i];
      assert ActionsFor(clipNames) == ActionsFor(prefix)[Lower(clipNames[n]) := n];
      if Lower(clipNames[n]) == key {
        assert ActionsFor(clipNames)[key] == n;
      } else if key in ActionsFor(prefix) {
        assert ActionsFor(clipNames)[key] == ActionsFor(prefix)[key];
      }
    }
  }

  /** The action `play(name)` would pick: the one stored under the
      lower-cased name, if there is a mixer and such a clip. The lookup
      ignores case. */
  function Lookup(hasMixer: bool, actions: map<string, ActionId>, name: string): (r: Option<ActionId>)
    ensures r.Some? <==> hasMixer && Lower(name) in actions
    ensures r.Some? ==> r.value in actions.Values
  {
    if hasMixer && Lower(name) in actions then Some(actions[Lower(name)]) else None
  }

  /** Looking up a lower-cased name finds the same action. */
  lemma LookupIgnoresCase(hasMixer: bool, actions: map<string, ActionId>, name: string)
    ensures Lookup(hasMixer, actions, Lower(name)) == Lookup(hasMixer, actions, name)
  {
    LowerIdempotent(name);
  }

  /** The calls `play` makes when it switches from `active` to `next`: fade
      the previous action out (if there is one), then reset, fade in and
      start the new one. */
  function SwitchCalls(active: Option<ActionId>, next: ActionId): (calls: seq<ActionCall>)
    ensures |calls| == if active.Some? then 4 else 3
    ensures active.Some? ==> calls[0] == FadeOut(active.value, FadeSeconds)
    ensures calls[|calls| - 3..] == [Reset(next), FadeIn(next, FadeSeconds), Start(next)]
    ensures forall c :: c in calls && c.FadeOut? ==> active == Some(c.action)
    ensures forall c :: c in calls && !c.FadeOut? ==> c.action == next
  {
    (if active.Some? then [FadeOut(active.value, FadeSeconds)] else [])
      + [Reset(next), FadeIn(next, FadeSeconds), Start(next)]
  }

  class AnimationController {
    /** Whether an `AnimationMixer` was created (the model had clips). */
    var hasMixer: bool
    var actions: map<string, ActionId>
    var activeAction: Option<ActionId>
    /** Every call made on an action so far. */
    var calls: seq<ActionCall>

    /** Without a mixer the dictionary stays empty; the active action, when
        there is one, is one of the dictionary's actions. */
    ghost predicate Valid()
      reads this
    {
      && (!hasMixer ==> actions == map[] && activeAction == None)
      && (activeAction.Some? ==> activeAction.value in actions.Values)
    }

    /** The state `new AnimationController(model)` followed by
        `play(first)` leaves (`first` is `None` when nothing is played): a
        mixer exactly with clips, one action per lower-cased clip name, the
        named action active, and the calls of that one switch. */
    ghost predicate StartedWith(clipNames: seq<string>, first: Option<string>)
      reads this
    {
      && (hasMixer <==> |clipNames| > 0)
      && actions == ActionsFor(clipNames)
      && activeAction == (if first.Some? then Lookup(hasMixer, actions, first.value) else None)
      && calls == (if activeAction.Some? then SwitchCalls(None, activeAction.value) else [])
    }

    /** `clipNames` are the names of `model.animations`; a missing model or
        animation list is the empty sequence. */
    constructor (clipNames: seq<string>)
      ensures hasMixer <==> |clipNames| > 0
      ensures actions == ActionsFor(clipNames)
      ensures activeAction == None && calls == []
      ensures Valid()
    {
      hasMixer := false;
      actions := map[];
      activeAction := None;
      calls := [];
      new;
      if |clipNames| > 0 {
        hasMixer := true;
        var i := 0;
        while i < |clipNames|
          invariant 0 <= i <= |clipNames|
          invariant actions == ActionsFor(clipNames[..i])
          invariant hasMixer && activeAction == None && calls == []
        {
          assert clipNames[..i + 1][..i] == clipNames[..i];
          actions := actions[Lower(clipNames[i]) := i];
          i := i + 1;
        }
        assert clipNames[..i] == clipNames;
      }
    }

    /** `play(name)`: ignored without a mixer, for an unknown name, and for
        the action that is already active; otherwise the previous action is
        faded out and the named one reset, faded in, started and made active. */
    method Play(name: string)
      requires Valid()
      modifies this
      ensures Valid()
      ensures hasMixer == old(hasMixer) && actions == old(actions)
      ensures var next := Lookup(old(hasMixer), old(actions), name);
        if next.None? || next == old(activeAction) then
          activeAction == old(activeAction) && calls == old(calls)
        else
          activeAction == next && calls == old(calls) + SwitchCalls(old(activeAction), next.value)
    {
      if !hasMixer {
        return;
      }
      var key := Lower(name);
      if key !in actions {
        return;
      }
      var action := actions[key];
      if activeAction != Some(action) {
        if activeAction.Some? {
          calls := calls + [FadeOut(activeAction.value, FadeSeconds)];
        }
        calls := calls + [Reset(action), FadeIn(action, FadeSeconds), Start(action)];
        activeAction := Some(action);
      }
    }
  }
}
