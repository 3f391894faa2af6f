/** The whole state of the page as a value, the events that change it, and
    what the program keeps true across any sequence of events. */
module Scene {
  import opened Wrappers
  import opened Keyboard
  import opened Movement
  import Animation

  /** `character` is the character body's position once the character has
      loaded, and None before. */
  datatype State = State(keys: KeyMap, anim: Animation.Selector, character: Option<Vec3>, camera: Vec3)

  const Initial: State := State(InitialKeys, Animation.Initial, None, CameraStart)

  /** Everything that can happen between two frames, and the frame itself. */
  datatype Event =
    | Down(key: string)
    | Up(key: string)
    | Pick(value: string)
    | PanelPick(value: string)
    | CharacterArrived
    | ClipArrived(asset: string)
    | Tick

  /** The key-down handler: a recognised key becomes held, and each of Z, X,
      C, V, B, N also selects its asset; every other key is ignored. */
  function KeyDown(s: State, k: string): (r: State)
    ensures r.keys == Press(s.keys, k)
    ensures r.character == s.character && r.camera == s.camera
    ensures k !in KeyNames ==> r == s
    ensures k in MovementKeys ==> r.anim == s.anim
    ensures forall i :: 0 <= i < |AnimationKeys| && AnimationKeys[i] == k ==>
              r.anim == Animation.Change(s.anim, Animation.Assets[i]) && r.anim.action == Animation.Assets[i]
  {
    match AnimationKeyIndex(k)
    case Some(i) => s.(keys := Press(s.keys, k), anim := Animation.Change(s.anim, Animation.Assets[i]))
    case None => s.(keys := Press(s.keys, k))
  }

  /** The key-up handler: a recognised key stops being held; nothing else changes. */
  function KeyUp(s: State, k: string): (r: State)
    ensures r.keys == Release(s.keys, k)
    ensures r.anim == s.anim && r.character == s.character && r.camera == s.camera
  {
    s.(keys := Release(s.keys, k))
  }

  /** The inspector panel's handler, called with the chosen asset name while
      the selection still holds the previous name. */
  function GuiSelect(s: State, v: string): (r: State)
    ensures r.anim == Animation.GuiChange(s.anim, v)
    ensures r.keys == s.keys && r.character == s.character && r.camera == s.camera
  {
    s.(anim := Animation.GuiChange(s.anim, v))
  }

  /** A choice in the inspector panel as the panel delivers it: the panel
      first assigns `v` to the selection and then calls the handler, so the
      handler stops and restarts `v` and never touches the previous clip. */
  function PanelPicked(s: State, v: string): (r: State)
    ensures r.anim.action == v
    ensures r.anim.actions.Keys == s.anim.actions.Keys
    ensures v in s.anim.actions ==> r.anim.actions[v].playing
    ensures forall c :: c in s.anim.actions && c != v ==> r.anim.actions[c] == s.anim.actions[c]
    ensures r.anim.calls == s.anim.calls + (if v in s.anim.actions then [Animation.Stop(v), Animation.Play(v)] else [])
    ensures r.keys == s.keys && r.character == s.character && r.camera == s.camera
  {
    GuiSelect(s.(anim := s.anim.(action := v)), v)
  }

  /** The character's load callback: its body appears at the spawn point. */
  function CharacterLoaded(s: State): (r: State)
    ensures r.character == Some(CharacterSpawn)
    ensures r.keys == s.keys && r.anim == s.anim && r.camera == s.camera
  {
    s.(character := Some(CharacterSpawn))
  }

  /** The load callback of one animation asset. */
  function ClipLoaded(s: State, a: string): (r: State)
    ensures r.anim == Animation.Register(s.anim, a)
    ensures r.keys == s.keys && r.character == s.character && r.camera == s.camera
  {
    s.(anim := Animation.Register(s.anim, a))
  }

  /** One frame: the character moves only once it has loaded; the camera moves every frame. */
  function Animate(s: State): (r: State)
    ensures r.keys == s.keys && r.anim == s.anim
    ensures r.character.Some? <==> s.character.Some?
    ensures s.character.Some? ==> r.character.value == MoveCharacter(s.character.value, s.keys)
    ensures r.camera == MoveCamera(s.camera, s.keys)
  {
    var moved := match s.character
      case Some(body) => Some(MoveCharacter(body, s.keys))
      case None => None;
    s.(character := moved, camera := MoveCamera(s.camera, s.keys))
  }

  function Step(s: State, e: Event): State
  {
    match e
    case Down(k) => KeyDown(s, k)
    case Up(k) => KeyUp(s, k)
    case Pick(v) => GuiSelect(s, v)
    case PanelPick(v) => PanelPicked(s, v)
    case CharacterArrived => CharacterLoaded(s)
    case ClipArrived(a) => ClipLoaded(s, a)
    case Tick => Animate(s)
  }

  /** The state after the events `es`, oldest first. */
  function Run(s: State, es: seq<Event>): State
    decreases |es|
  {
    if es == [] then s else Step(Run(s, es[..|es| - 1]), es[|es| - 1])
  }

  /** Whether `k` is held according to the last key event on `k` in `es`, or `before` if there is none. */
  function LastWrite(es: seq<Event>, k: string, before: bool): bool
    decreases |es|
  {
    if es == [] then before
    else
      match es[|es| - 1]
      case Down(j) => if j == k then true else LastWrite(es[..|es| - 1], k, before)
      case Up(j) => if j == k then false else LastWrite(es[..|es| - 1], k, before)
      case _ => LastWrite(es[..|es| - 1], k, before)
  }

  /** Key state is last-write-wins: a recognised key is held exactly when its
      latest key event was a key-down. */
  lemma {:induction false} LastWriteWins(s: State, es: seq<Event>, k: string)
    requires k in KeyNames
    ensures Held(Run(s, es).keys, k) == LastWrite(es, k, Held(s.keys, k))
  {
    if es != [] {
      LastWriteWins(s, es[..|es| - 1], k);
    }
  }

  /** The inspector panel only offers the asset names. */
  predicate PicksFromAssets(es: seq<Event>)
  {
    forall i :: 0 <= i < |es| && (es[i].Pick? || es[i].PanelPick?) ==> es[i].value in Animation.Assets
  }

  /** Every panel choice in `es` reaches the handler before the selection is assigned. */
  predicate HandlerBeforeAssignment(es: seq<Event>)
  {
    forall i :: 0 <= i < |es| ==> !es[i].PanelPick?
  }

  /** What every event keeps: the key map has exactly the twelve names and an asset is selected. */
  predicate WellFormed(s: State)
  {
    s.keys.Keys == KeyNames && s.anim.action in Animation.Assets
  }

  /** What the keyboard, the load callbacks and the handler called before the
      assignment keep: in addition, every playing clip is the selected one or
      the auto-played one. */
  predicate Valid(s: State)
  {
    WellFormed(s) && Animation.PlayingIsSelectedOrAutoPlayed(s.anim)
  }

  lemma StepKeepsWellFormed(s: State, e: Event)
    requires WellFormed(s)
    requires (e.Pick? || e.PanelPick?) ==> e.value in Animation.Assets
    ensures WellFormed(Step(s, e))
  {
    match e
    case Down(k) =>
      if i :| AnimationKeyIndex(k) == Some(i) {
        assert Step(s, e).anim.action in {s.anim.action, Animation.Assets[i]};
      }
    case _ =>
  }

  lemma {:induction false} RunKeepsWellFormed(s: State, es: seq<Event>)
    requires WellFormed(s) && PicksFromAssets(es)
    ensures WellFormed(Run(s, es))
  {
    if es != [] {
      var prefix := es[..|es| - 1];
      assert PicksFromAssets(prefix) by {
        forall i | 0 <= i < |prefix| && (prefix[i].Pick? || prefix[i].PanelPick?)
          ensures prefix[i].value in Animation.Assets
        {
          assert prefix[i] == es[i];
        }
      }
      RunKeepsWellFormed(s, prefix);
      StepKeepsWellFormed(Run(s, prefix), es[|es| - 1]);
    }
  }

  lemma InitialValid()
    ensures Valid(Initial)
  {
    Animation.InitialKeepsInvariant();
  }

  lemma KeyDownKeepsValid(s: State, k: string)
    requires Valid(s)
    ensures Valid(KeyDown(s, k))
  {
    if i :| AnimationKeyIndex(k) == Some(i) {
      Animation.TransitionsKeepInvariant(s.anim, Animation.Assets[i]);
    }
  }

  lemma GuiSelectKeepsValid(s: State, v: string)
    requires Valid(s) && v in Animation.Assets
    ensures Valid(GuiSelect(s, v))
  {
    Animation.TransitionsKeepInvariant(s.anim, v);
  }

  lemma ClipLoadedKeepsValid(s: State, a: string)
    requires Valid(s)
    ensures Valid(ClipLoaded(s, a))
  {
    Animation.TransitionsKeepInvariant(s.anim, a);
  }

  lemma StepKeepsValid(s: State, e: Event)
    requires Valid(s)
    requires e.Pick? ==> e.value in Animation.Assets
    requires !e.PanelPick?
    ensures Valid(Step(s, e))
  {
    match e
    case Down(k) => KeyDownKeepsValid(s, k);
    case Pick(v) => GuiSelectKeepsValid(s, v);
    case ClipArrived(a) => ClipLoadedKeepsValid(s, a);
    case _ =>
  }

  lemma {:induction false} RunKeepsValid(s: State, es: seq<Event>)
    requires Valid(s) && PicksFromAssets(es) && HandlerBeforeAssignment(es)
    ensures Valid(Run(s, es))
  {
    if es != [] {
      var prefix := es[..|es| - 1];
      assert PicksFromAssets(prefix) && HandlerBeforeAssignment(prefix) by {
        forall i | 0 <= i < |prefix| ensures prefix[i] == es[i] {
        }
      }
      RunKeepsValid(s, prefix);
      StepKeepsValid(Run(s, prefix), es[|es| - 1]);
    }
  }

  /** At most two clips play after any events whose panel choices reach the
      handler before the selection is assigned. */
  lemma ReachableAtMostTwoPlaying(es: seq<Event>)
    requires PicksFromAssets(es) && HandlerBeforeAssignment(es)
    ensures |Animation.Playing(Run(Initial, es).anim)| <= 2
  {
    InitialValid();
    RunKeepsValid(Initial, es);
    Animation.AtMostTwoPlaying(Run(Initial, es).anim);
  }

  /** If the character never loads, no frame ever moves it, whatever else happens. */
  lemma {:induction false} NoCharacterNoMovement(s: State, es: seq<Event>)
    requires s.character == None
    requires forall i :: 0 <= i < |es| ==> es[i] != CharacterArrived
    ensures Run(s, es).character == None
  {
    if es != [] {
      var prefix := es[..|es| - 1];
      assert forall i :: 0 <= i < |prefix| ==> prefix[i] == es[i];
      NoCharacterNoMovement(s, prefix);
    }
  }

  /** Repeated key-downs (keyboard auto-repeat) act like one. */
  lemma KeyDownIdempotent(s: State, k: string)
    ensures KeyDown(KeyDown(s, k), k) == KeyDown(s, k)
  {
    match AnimationKeyIndex(k)
    case Some(i) => Animation.ChangeIdempotent(s.anim, Animation.Assets[i]);
    case None =>
  }

  /** Holding S alone with the character loaded moves its body back by exactly 2 along z. */
  lemma HoldingSStepsBack(s: State)
    requires s.character.Some?
    requires Held(s.keys, "S") && !Held(s.keys, "W") && !Held(s.keys, "D") && !Held(s.keys, "A")
    ensures Animate(s).character == Some(s.character.value.(z := s.character.value.z - 2))
  {
  }

  /** Running one more event is one more step. */
  lemma RunSnoc(s: State, es: seq<Event>, e: Event)
    ensures Run(s, es + [e]) == Step(Run(s, es), e)
  {
    assert (es + [e])[..|es|] == es;
  }

  /** The character, animacion2 and animacion4 loaded from the start: Idle is
      selected and only animacion2 plays. */
  lemma LoadAnimacion2Animacion4()
    ensures Run(Initial, [CharacterArrived, ClipArrived("animacion2"), ClipArrived("animacion4")])
         == Initial.(character := Some(CharacterSpawn),
                     anim := Animation.Selector("Idle",
                               map["animacion2" := Animation.Clip(true), "animacion4" := Animation.Clip(false)],
                               [Animation.Play("animacion2")]))
  {
    var es := [CharacterArrived, ClipArrived("animacion2"), ClipArrived("animacion4")];
    RunSnoc(Initial, [], es[0]);
    RunSnoc(Initial, es[..1], es[1]);
    RunSnoc(Initial, es[..2], es[2]);
    assert [] + [es[0]] == es[..1] && es[..1] + [es[1]] == es[..2] && es[..2] + [es[2]] == es;
  }

  /** Pressing N after those loads selects animacion4 and plays it, with no stop
      call since Idle was never loaded. */
  lemma LoadTwoClipsThenN()
    ensures Run(Initial, [CharacterArrived, ClipArrived("animacion2"), ClipArrived("animacion4"), Down("N")]).anim
         == Animation.Selector("animacion4",
              map["animacion2" := Animation.Clip(true), "animacion4" := Animation.Clip(true)],
              [Animation.Play("animacion2"), Animation.Play("animacion4")])
  {
    var es := [CharacterArrived, ClipArrived("animacion2"), ClipArrived("animacion4"), Down("N")];
    LoadAnimacion2Animacion4();
    assert es[..3] == [CharacterArrived, ClipArrived("animacion2"), ClipArrived("animacion4")];
    RunSnoc(Initial, es[..3], es[3]);
    assert es[..3] + [es[3]] == es;
    var before := Run(Initial, es[..3]);
    assert AnimationKeyIndex("N") == Some(5) && Animation.Assets[5] == "animacion4";
    assert Run(Initial, es).anim == Animation.Change(before.anim, "animacion4");
  }

  /** From the start, loading the auto-played clip and animacion4 and pressing N leaves both playing. */
  lemma TwoClipsPlayAfterN()
    ensures var s := Run(Initial, [CharacterArrived, ClipArrived("animacion2"), ClipArrived("animacion4"), Down("N")]);
            Animation.Playing(s.anim) == {"animacion2", "animacion4"}
  {
    LoadTwoClipsThenN();
  }

  /** The character and three clips loaded from the start: only animacion2 plays. */
  lemma LoadWalkingAnimacion1Animacion2()
    ensures Run(Initial, [CharacterArrived, ClipArrived("Walking"), ClipArrived("animacion1"), ClipArrived("animacion2")])
         == Initial.(character := Some(CharacterSpawn),
                     anim := Animation.Selector("Idle",
                               map["Walking" := Animation.Clip(false), "animacion1" := Animation.Clip(false),
                                   "animacion2" := Animation.Clip(true)],
                               [Animation.Play("animacion2")]))
  {
    var es := [CharacterArrived, ClipArrived("Walking"), ClipArrived("animacion1"), ClipArrived("animacion2")];
    RunSnoc(Initial, [], es[0]);
    RunSnoc(Initial, es[..1], es[1]);
    RunSnoc(Initial, es[..2], es[2]);
    RunSnoc(Initial, es[..3], es[3]);
    assert [] + [es[0]] == es[..1] && es[..1] + [es[1]] == es[..2];
    assert es[..2] + [es[2]] == es[..3] && es[..3] + [es[3]] == es;
  }

  /** The panel choice in the three-clip witness is one the panel offers. */
  lemma PanelWitnessFromAssets()
    ensures PicksFromAssets([CharacterArrived, ClipArrived("Walking"), ClipArrived("animacion1"),
                             ClipArrived("animacion2"), Down("X"), PanelPick("animacion1")])
  {
    assert "animacion1" in Animation.Assets;
  }

  /** The three-clip trace, step by step. */
  lemma PanelPickTracePlaysThree()
    ensures var es := [CharacterArrived, ClipArrived("Walking"), ClipArrived("animacion1"),
                       ClipArrived("animacion2"), Down("X"), PanelPick("animacion1")];
            Animation.Playing(Run(Initial, es).anim) == {"Walking", "animacion1", "animacion2"}
  {
    var es := [CharacterArrived, ClipArrived("Walking"), ClipArrived("animacion1"),
               ClipArrived("animacion2"), Down("X"), PanelPick("animacion1")];
    LoadWalkingAnimacion1Animacion2();
    assert es[..4] == [CharacterArrived, ClipArrived("Walking"), ClipArrived("animacion1"), ClipArrived("animacion2")];
    var s := Run(Initial, es[..4]);
    s := KeyDown(s, "X");
    RunSnoc(Initial, es[..4], es[4]);
    assert Run(Initial, es[..5]) == s by { assert es[..4] + [es[4]] == es[..5]; }
    assert s.anim.actions == map["Walking" := Animation.Clip(true), "animacion1" := Animation.Clip(false),
                                 "animacion2" := Animation.Clip(true)];
    s := PanelPicked(s, "animacion1");
    RunSnoc(Initial, es[..5], es[5]);
    assert Run(Initial, es) == s by { assert es[..5] + [es[5]] == es; }
    assert s.anim.actions == map["Walking" := Animation.Clip(true), "animacion1" := Animation.Clip(true),
                                 "animacion2" := Animation.Clip(true)];
  }

  /** With the panel assigning before its handler runs, three clips can play:
      X starts Walking, and choosing animacion1 in the panel starts it without
      stopping Walking, while animacion2 plays from its load. The panel choice
      is one of the names the panel offers. */
  lemma ThreeClipsPlayAfterPanelPick()
    ensures var es := [CharacterArrived, ClipArrived("Walking"), ClipArrived("animacion1"),
                       ClipArrived("animacion2"), Down("X"), PanelPick("animacion1")];
            PicksFromAssets(es) &&
            Animation.Playing(Run(Initial, es).anim) == {"Walking", "animacion1", "animacion2"}
  {
    PanelWitnessFromAssets();
    PanelPickTracePlaysThree();
  }
}
