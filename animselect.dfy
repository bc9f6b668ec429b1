/** How src/characterController.js chooses clips: `load` maps the three
    roles idle, walk and aim to clip names by substring search over the
    lower-cased names, and every `update` plays the role the input asks for. */
module AnimSelect {
  import opened Wrappers
  import opened Text
  import opened Input
  import Animation

  /** `animMap`; a role is `None` (`undefined`) only when there are no clips. */
  datatype AnimMap = AnimMap(idle: Option<string>, walk: Option<string>, aim: Option<string>)

  /** `animations.map(a => a.name.toLowerCase())`. */
  function LowerAll(names: seq<string>): (r: seq<string>)
    ensures |r| == |names|
    ensures forall i :: 0 <= i < |names| ==> r[i] == Lower(names[i])
  {
    if names == [] then [] else [Lower(names[0])] + LowerAll(names[1..])
  }

  /** The `find` callback: the name contains one of the words. */
  predicate Mentions(name: string, words: seq<string>) {
    exists w :: w in words && Contains(name, w)
  }

  /** `names.find(...)`: the first name containing one of the words. */
  function FirstMentioning(names: seq<string>, words: seq<string>): (r: Option<string>)
    ensures r.Some? ==> r.value in names && Mentions(r.value, words)
    ensures r.None? ==> forall n :: n in names ==> !Mentions(n, words)
  {
    if names == [] then None
    else if Mentions(names[0], words) then Some(names[0])
    else FirstMentioning(names[1..], words)
  }

  /** `find` returns nothing exactly when no name matches, and otherwise a
      matching name with no match before it. */
  lemma {:induction false} FirstMentioningIsFirst(names: seq<string>, words: seq<string>)
    ensures var r := FirstMentioning(names, words);
      && (r.None? <==> forall i :: 0 <= i < |names| ==> !Mentions(names[i], words))
      && (r.Some? ==>
            exists i :: 0 <= i < |names| && names[i] == r.value && Mentions(r.value, words)
              && forall j :: 0 <= j < i ==> !Mentions(names[j], words))
  {
    if names != [] && !Mentions(names[0], words) {
      FirstMentioningIsFirst(names[1..], words);
      var r := FirstMentioning(names[1..], words);
      assert forall i :: 1 <= i < |names| ==> names[i] == names[1..][i - 1];
      if r.Some? {
        var i :| 0 <= i < |names[1..]| && names[1..][i] == r.value && Mentions(r.value, words)
          && forall j :: 0 <= j < i ==> !Mentions(names[1..][j], words);
        assert names[i + 1] == r.value;
      }
    }
  }

  /** JavaScript's `a || b` on a name that may be `undefined`: the empty
      string is falsy too. */
  function OrElse(a: Option<string>, b: Option<string>): (r: Option<string>)
    ensures a.Some? && a.value != "" ==> r == a
    ensures !(a.Some? && a.value != "") ==> r == b
  {
    if a.Some? && a.value != "" then a else b
  }

  /** The heuristic of `load`. */
  function BuildAnimMap(clipNames: seq<string>): (m: AnimMap)
    ensures m.idle.None? <==> clipNames == []
    ensures m.idle.None? ==> m.walk.None? && m.aim.None?
  {
    var names := LowerAll(clipNames);
    var first := if names == [] then None else Some(names[0]);
    var idle := OrElse(FirstMentioning(names, ["idle"]), first);
    AnimMap(idle,
            OrElse(FirstMentioning(names, ["walk", "run"]), idle),
            OrElse(FirstMentioning(names, ["aim"]), idle))
  }

  /** "The first of `a` and `b` that is defined." */
  function Either(a: Option<string>, b: Option<string>): (r: Option<string>)
    ensures a.Some? ==> r == a
    ensures a.None? ==> r == b
  {
    if a.Some? then a else b
  }

  /** A name found by a search for non-empty words is itself non-empty, so
      `||` falls back exactly when the search finds nothing. */
  lemma FoundIsTruthy(names: seq<string>, words: seq<string>, b: Option<string>)
    requires forall w :: w in words ==> w != ""
    ensures OrElse(FirstMentioning(names, words), b) == Either(FirstMentioning(names, words), b)
  {
    var r := FirstMentioning(names, words);
    FirstMentioningIsFirst(names, words);
    if r.Some? {
      var w :| w in words && Contains(r.value, w);
      var k :| 0 <= k <= |r.value| - |w| && IsPrefix(w, r.value[k..]);
      assert |r.value| >= |w| > 0;
    }
  }

  /** The roles as the heuristic means them, over the lower-cased names:
      idle is the first name containing "idle", else the first name; walk
      the first containing "walk" or "run", else idle; aim the first
      containing "aim", else idle. With no clips every role is undefined,
      and with clips every role is defined. */
  lemma AnimMapRoles(clipNames: seq<string>)
    ensures var m, names := BuildAnimMap(clipNames), LowerAll(clipNames);
      && m.idle == Either(FirstMentioning(names, ["idle"]), if names == [] then None else Some(names[0]))
      && m.walk == Either(FirstMentioning(names, ["walk", "run"]), m.idle)
      && m.aim == Either(FirstMentioning(names, ["aim"]), m.idle)
      && (clipNames == [] <==> m.idle.None?)
      && (m.idle.None? ==> m.walk.None? && m.aim.None?)
  {
    var names := LowerAll(clipNames);
    var first := if names == [] then None else Some(names[0]);
    FoundIsTruthy(names, ["idle"], first);
    var idle := Either(FirstMentioning(names, ["idle"]), first);
    FoundIsTruthy(names, ["walk", "run"], idle);
    FoundIsTruthy(names, ["aim"], idle);

  }

  /** Every role is one of the lower-cased clip names. */
  lemma RolesAreClipNames(clipNames: seq<string>)
    ensures var m := BuildAnimMap(clipNames);
      forall role :: role in [m.idle, m.walk, m.aim] && role.Some? ==>
        exists i :: 0 <= i < |clipNames| && role.value == Lower(clipNames[i])
  {
    var names := LowerAll(clipNames);
    AnimMapRoles(clipNames);
    FirstMentioningIsFirst(names, ["idle"]);
    FirstMentioningIsFirst(names, ["walk", "run"]);
    FirstMentioningIsFirst(names, ["aim"]);
  }

  /** So the names `update` plays always find an action: `play` is never
      ignored for an unknown name once the model has clips. */
  lemma RolesArePlayable(clipNames: seq<string>)
    ensures var m := BuildAnimMap(clipNames);
      forall role :: role in [m.idle, m.walk, m.aim] && role.Some? ==>
        Animation.Lookup(|clipNames| > 0, Animation.ActionsFor(clipNames), role.value).Some?
  {
    var m := BuildAnimMap(clipNames);
    RolesAreClipNames(clipNames);
    forall role | role in [m.idle, m.walk, m.aim] && role.Some?
      ensures Animation.Lookup(|clipNames| > 0, Animation.ActionsFor(clipNames), role.value).Some?
    {
      var i :| 0 <= i < |clipNames| && role.value == Lower(clipNames[i]);
      LowerIdempotent(clipNames[i]);
      Animation.ActionsForKeys(clipNames, role.value);
    }
  }

  /** What the player needs of its anim map: every defined role is a key of
      the controller's actions, and the roles are defined exactly when the
      model has clips (and so a mixer). */
  lemma MapFitsController(clipNames: seq<string>)
    ensures var m := BuildAnimMap(clipNames);
      && (m.idle.Some? <==> |clipNames| > 0)
      && forall role :: role in [m.idle, m.walk, m.aim] && role.Some? ==>
           Lower(role.value) in Animation.ActionsFor(clipNames)
  {
    AnimMapRoles(clipNames);
    RolesArePlayable(clipNames);
  }

  /** The clip `update` asks for: aim while the right button is held, else
      walk while W, A, S or D is held, else idle. */
  function ChooseClip(m: AnimMap, keys: Keys, mouse: Mouse): (r: Option<string>)
    ensures r in [m.idle, m.walk, m.aim]
    ensures mouse.rightButton ==> r == m.aim
    ensures !mouse.rightButton && keys.AnyMoveKey() ==> r == m.walk
    ensures !mouse.rightButton && !keys.AnyMoveKey() ==> r == m.idle
  {
    if mouse.rightButton then m.aim
    else if keys.w || keys.s || keys.a || keys.d then m.walk
    else m.idle
  }
}
