/** The animation selector: the selected action name, the clips loaded so far
    (each playing or stopped), and the log of stop/play calls issued to them. */
module Animation {

  /** The asset names, in the order the keyboard shortcuts Z, X, C, V, B, N select them. */
  const Assets: seq<string> := ["Idle", "Walking", "animacion1", "animacion2", "animacion3", "animacion4"]

  /** The selection the program starts with. */
  const InitialAction: string := "Idle"

  /** The one asset that starts playing as soon as it is loaded. */
  const AutoPlayed: string := "animacion2"

  /** A loaded clip, abstracted to whether it is playing. */
  datatype Clip = Clip(playing: bool)

  /** A call the program makes on a loaded clip. */
  datatype Call = Stop(clip: string) | Play(clip: string)

  /** `action` is the selected name, `actions` the loaded clips by name and
      `calls` every stop/play call made so far, oldest first. */
  datatype Selector = Selector(action: string, actions: map<string, Clip>, calls: seq<Call>)

  const Initial: Selector := Selector(InitialAction, map[], [])

  /** Stops the clip `name` if it is loaded, and logs the call. */
  function StopIfLoaded(s: Selector, name: string): (r: Selector)
    ensures r.action == s.action && r.actions.Keys == s.actions.Keys
    ensures name in s.actions ==> !r.actions[name].playing && r.calls == s.calls + [Stop(name)]
    ensures name !in s.actions ==> r == s
    ensures forall c :: c in s.actions && c != name ==> r.actions[c] == s.actions[c]
  {
    if name in s.actions then
      s.(actions := s.actions[name := Clip(false)], calls := s.calls + [Stop(name)])
    else s
  }

  /** Plays the clip `name` if it is loaded, and logs the call. */
  function PlayIfLoaded(s: Selector, name: string): (r: Selector)
    ensures r.action == s.action && r.actions.Keys == s.actions.Keys
    ensures name in s.actions ==> r.actions[name].playing && r.calls == s.calls + [Play(name)]
    ensures name !in s.actions ==> r == s
    ensures forall c :: c in s.actions && c != name ==> r.actions[c] == s.actions[c]
  {
    if name in s.actions then
      s.(actions := s.actions[name := Clip(true)], calls := s.calls + [Play(name)])
    else s
  }

  /** The keyboard's transition: nothing happens when `n` is already selected;
      otherwise the old clip is stopped if loaded, `n` is selected, and `n` is
      played if loaded. */
  function Change(s: Selector, n: string): (r: Selector)
    ensures s.action == n ==> r == s
    ensures s.action != n ==> r.action == n
    ensures r.actions.Keys == s.actions.Keys
    ensures s.action != n && s.action in s.actions ==> !r.actions[s.action].playing
    ensures n in s.actions ==> r.actions[n].playing == (s.action != n || s.actions[n].playing)
    ensures forall c :: c in s.actions && c != s.action && c != n ==> r.actions[c] == s.actions[c]
    ensures s.action != n ==> r.calls == s.calls + (if s.action in s.actions then [Stop(s.action)] else [])
                                                 + (if n in s.actions then [Play(n)] else [])
  {
    if s.action != n then PlayIfLoaded(StopIfLoaded(s, s.action).(action := n), n) else s
  }

  /** The inspector panel's handler: the same steps as Change without the
      equality test, so choosing the selected clip stops and restarts it. */
  function GuiChange(s: Selector, v: string): (r: Selector)
    ensures r.action == v
    ensures r.actions.Keys == s.actions.Keys
    ensures v in s.actions ==> r.actions[v].playing
    ensures s.action != v && s.action in s.actions ==> !r.actions[s.action].playing
    ensures forall c :: c in s.actions && c != s.action && c != v ==> r.actions[c] == s.actions[c]
    ensures r.calls == s.calls + (if s.action in s.actions then [Stop(s.action)] else [])
                               + (if v in s.actions then [Play(v)] else [])
  {
    PlayIfLoaded(StopIfLoaded(s, s.action).(action := v), v)
  }

  /** The load callback of asset `a`: the new clip is registered under `a` and
      plays at once only when `a` is the auto-played asset; the selection and
      every other clip are untouched. */
  function Register(s: Selector, a: string): (r: Selector)
    ensures r.action == s.action
    ensures r.actions.Keys == s.actions.Keys + {a}
    ensures r.actions[a].playing <==> a == AutoPlayed
    ensures forall c :: c in s.actions && c != a ==> r.actions[c] == s.actions[c]
    ensures r.calls == s.calls + (if a == AutoPlayed then [Play(a)] else [])
  {
    var registered := s.(actions := s.actions[a := Clip(false)]);
    if a == AutoPlayed then PlayIfLoaded(registered, a) else registered
  }

  /** The names of the loaded clips that are playing. */
  function Playing(s: Selector): set<string>
  {
    set c | c in s.actions && s.actions[c].playing
  }

  /** Every playing clip is the selected one or the auto-played one. The
      keyboard, the load callback and the panel handler called before the
      selection is assigned keep this; a panel choice as lil-gui delivers it
      (assignment first) does not. */
  predicate PlayingIsSelectedOrAutoPlayed(s: Selector)
  {
    forall c :: c in s.actions && s.actions[c].playing ==> c == s.action || c == AutoPlayed
  }

  lemma InitialKeepsInvariant()
    ensures PlayingIsSelectedOrAutoPlayed(Initial) && Initial.action in Assets
  {
  }

  /** The keyboard transition, the load callback and the panel handler called
      before the selection is assigned keep the invariant. */
  lemma TransitionsKeepInvariant(s: Selector, n: string)
    requires PlayingIsSelectedOrAutoPlayed(s)
    ensures PlayingIsSelectedOrAutoPlayed(Change(s, n))
    ensures PlayingIsSelectedOrAutoPlayed(GuiChange(s, n))
    ensures PlayingIsSelectedOrAutoPlayed(Register(s, n))
  {
  }

  /** Under the invariant at most two clips play at once. */
  lemma AtMostTwoPlaying(s: Selector)
    requires PlayingIsSelectedOrAutoPlayed(s)
    ensures |Playing(s)| <= 2
  {
    var bound := {s.action, AutoPlayed};
    assert Playing(s) <= bound;
    SubsetCardinality(Playing(s), bound);
  }

  lemma {:induction false} SubsetCardinality(a: set<string>, b: set<string>)
    requires a <= b
    ensures |a| <= |b|
  {
    if a != {} {
      var x :| x in a;
      SubsetCardinality(a - {x}, b - {x});
    }
  }

  /** A repeated keyboard transition to the same name changes nothing and makes no call. */
  lemma ChangeIdempotent(s: Selector, n: string)
    ensures Change(Change(s, n), n) == Change(s, n)
  {
  }

  /** The two entry points agree except on re-selection. */
  lemma GuiAgreesWithChange(s: Selector, v: string)
    ensures s.action != v ==> GuiChange(s, v) == Change(s, v)
  {
  }

  /** Re-selecting a loaded clip from the panel stops it and starts it again. */
  lemma GuiReselectRestarts(s: Selector)
    requires s.action in s.actions
    ensures GuiChange(s, s.action).calls == s.calls + [Stop(s.action), Play(s.action)]
    ensures GuiChange(s, s.action).actions == s.actions[s.action := Clip(true)]
  {
  }

  /** Switching from A to B with both loaded stops A once and then plays B once. */
  lemma SwitchStopsThenPlays(s: Selector, a: string, b: string)
    requires s.action == a && a != b && a in s.actions && b in s.actions
    ensures Change(s, b).calls == s.calls + [Stop(a), Play(b)]
    ensures Change(s, b).action == b
    ensures !Change(s, b).actions[a].playing && Change(s, b).actions[b].playing
  {
  }

  /** A clip selected before it has loaded stays stopped when it loads, unless it is the auto-played one. */
  lemma DeferredSelectionStaysStopped(s: Selector, a: string)
    requires s.action == a && a != AutoPlayed
    ensures Register(s, a).action == a && !Register(s, a).actions[a].playing
  {
  }

  /** The selected clip can be loaded and stopped, and two clips can play at once. */
  lemma SelectionNeedNotPlay()
    ensures var s := Register(Initial, InitialAction);
            s.action in s.actions && !s.actions[s.action].playing
    ensures var s := Change(Register(Register(Initial, AutoPlayed), "animacion4"), "animacion4");
            |Playing(s)| == 2
  {
    var s := Change(Register(Register(Initial, AutoPlayed), "animacion4"), "animacion4");
    assert Playing(s) == {AutoPlayed, "animacion4"};
  }
}
