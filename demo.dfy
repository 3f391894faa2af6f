/** The page's module-level state and its event handlers, updated in place as
    the program does; each handler is proved against its value-level
    counterpart in module Scene, Animation or Movement. */
module Demo {
  import opened Wrappers
  import opened Keyboard
  import opened Movement
  import opened Animation
  import Scene

  class Session {
    /** Held flags of the twelve recognised keys. */
    var keys: KeyMap
    /** The selected action name. */
    var action: string
    /** The clips loaded so far, by asset name. */
    var actions: map<string, Clip>
    /** Every stop/play call made on a clip, oldest first. */
    ghost var calls: seq<Call>
    /** Whether the character has loaded; before that `body` means nothing. */
    var characterReady: bool
    /** The character body's position. */
    var body: Vec3
    /** The camera's position. */
    var camera: Vec3

    /** The state as a value. */
    ghost function Snapshot(): Scene.State
      reads this
    {
      Scene.State(keys, Selector(action, actions, calls), if characterReady then Some(body) else None, camera)
    }

    ghost predicate Valid()
      reads this
    {
      Scene.Valid(Snapshot())
    }

    constructor ()
      ensures Snapshot() == Scene.Initial && Valid()
    {
      keys := InitialKeys;
      action := InitialAction;
      actions := map[];
      calls := [];
      characterReady := false;
      body := Vec3(0, 0, 0);
      camera := CameraStart;
      new;
      Scene.InitialValid();
    }

    /** The guarded transition used by the keyboard shortcuts. */
    method ChangeAnimation(actionName: string)
      modifies this`action, this`actions, this`calls
      ensures Snapshot() == old(Snapshot()).(anim := Change(old(Snapshot()).anim, actionName))
    {
      if action != actionName {
        if action in actions {
          actions := actions[action := Clip(false)];
          calls := calls + [Stop(action)];
        }
        action := actionName;
        if action in actions {
          actions := actions[action := Clip(true)];
          calls := calls + [Play(action)];
        }
      }
    }

    /** The inspector panel's handler: the same steps with no equality test. */
    method OnGuiChange(value: string)
      requires value in Assets
      modifies this`action, this`actions, this`calls
      ensures Snapshot() == Scene.GuiSelect(old(Snapshot()), value)
      ensures old(Valid()) ==> Valid()
    {
      if action in actions {
        actions := actions[action := Clip(false)];
        calls := calls + [Stop(action)];
      }
      action := value;
      if action in actions {
        actions := actions[action := Clip(true)];
        calls := calls + [Play(action)];
      }
      ghost var before := old(Snapshot());
      if Scene.Valid(before) {
        Scene.GuiSelectKeepsValid(before, value);
      }
    }

    /** A choice in the inspector panel as the panel delivers it: the panel
        assigns the chosen value to the selection, then calls the handler. */
    method OnPanelPick(value: string)
      requires value in Assets
      modifies this`action, this`actions, this`calls
      ensures Snapshot() == Scene.PanelPicked(old(Snapshot()), value)
      ensures old(Scene.WellFormed(Snapshot())) ==> Scene.WellFormed(Snapshot())
    {
      action := value;
      OnGuiChange(value);
    }

    method OnKeyDown(key: string)
      modifies this`keys, this`action, this`actions, this`calls
      ensures Snapshot() == Scene.KeyDown(old(Snapshot()), key)
      ensures old(Valid()) ==> Valid()
    {
      if key == "Z" {
        assert AnimationKeyIndex(key) == Some(0);
        keys := keys[key := true];
        ChangeAnimation(Assets[0]);
      } else if key == "X" {
        assert AnimationKeyIndex(key) == Some(1);
        keys := keys[key := true];
        ChangeAnimation(Assets[1]);
      } else if key == "C" {
        assert AnimationKeyIndex(key) == Some(2);
        keys := keys[key := true];
        ChangeAnimation(Assets[2]);
      } else if key == "V" {
        assert AnimationKeyIndex(key) == Some(3);
        keys := keys[key := true];
        ChangeAnimation(Assets[3]);
      } else if key == "B" {
        assert AnimationKeyIndex(key) == Some(4);
        keys := keys[key := true];
        ChangeAnimation(Assets[4]);
      } else if key == "N" {
        assert AnimationKeyIndex(key) == Some(5);
        keys := keys[key := true];
        ChangeAnimation(Assets[5]);
      } else if key in MovementKeys {
        assert AnimationKeyIndex(key) == None;
        keys := keys[key := true];
      } else {
        assert key !in KeyNames;
      }
      ghost var before := old(Snapshot());
      if Scene.Valid(before) {
        Scene.KeyDownKeepsValid(before, key);
      }
    }

    method OnKeyUp(key: string)
      modifies this`keys
      ensures Snapshot() == Scene.KeyUp(old(Snapshot()), key)
      ensures old(Valid()) ==> Valid()
    {
      if key in KeyNames {
        keys := keys[key := false];
      }
    }

    /** The character's load callback. */
    method OnCharacterLoaded()
      modifies this`characterReady, this`body
      ensures Snapshot() == Scene.CharacterLoaded(old(Snapshot()))
      ensures old(Valid()) ==> Valid()
    {
      characterReady := true;
      body := CharacterSpawn;
    }

    /** The load callback of animation asset `asset`. */
    method OnClipLoaded(asset: string)
      modifies this`actions, this`calls
      ensures Snapshot() == Scene.ClipLoaded(old(Snapshot()), asset)
      ensures old(Valid()) ==> Valid()
    {
      actions := actions[asset := Clip(false)];
      if asset == AutoPlayed {
        actions := actions[asset := Clip(true)];
        calls := calls + [Play(asset)];
      }
      ghost var before := old(Snapshot());
      if Scene.Valid(before) {
        Scene.ClipLoadedKeepsValid(before, asset);
      }
    }

    method UpdateCharacterMovement()
      requires characterReady
      modifies this`body
      ensures body == MoveCharacter(old(body), keys)
    {
      if Held(keys, "S") {
        body := body.(z := body.z - CharacterStep);
      }
      if Held(keys, "W") {
        body := body.(z := body.z + CharacterStep);
      }
      if Held(keys, "D") {
        body := body.(x := body.x - CharacterStep);
      }
      if Held(keys, "A") {
        body := body.(x := body.x + CharacterStep);
      }
    }

    method UpdateCameraPosition()
      modifies this`camera
      ensures camera == MoveCamera(old(camera), keys)
    {
      if Held(keys, "O") {
        camera := camera.(x := camera.x + CameraStep);
      }
      if Held(keys, "P") {
        camera := camera.(x := camera.x - CameraStep);
      }
    }

    /** One frame, with the readiness gate on the character. */
    method Animate()
      modifies this`body, this`camera
      ensures Snapshot() == Scene.Animate(old(Snapshot()))
      ensures !old(characterReady) ==> body == old(body)
      ensures old(Valid()) ==> Valid()
    {
      if characterReady {
        UpdateCharacterMovement();
      }
      UpdateCameraPosition();
    }
  }

  /** A session driven through the walk-from-idle scenario: Idle is selected
      and both clips are loaded, so X stops Idle and plays Walking; `log`
      holds the calls that key-down made. */
  method WalkFromIdle() returns (selected: string, idlePlaying: bool, walkingPlaying: bool, ghost log: seq<Call>)
    ensures selected == "Walking" && !idlePlaying && walkingPlaying
    ensures log == [Stop("Idle"), Play("Walking")]
  {
    var session := new Session();
    session.OnCharacterLoaded();
    session.OnClipLoaded("Idle");
    assert session.action == "Idle" && session.actions == map["Idle" := Clip(false)];
    session.OnClipLoaded("Walking");
    assert session.actions == map["Idle" := Clip(false), "Walking" := Clip(false)];
    ghost var before := session.Snapshot().anim;
    assert before.action == "Idle" && "Idle" in before.actions && "Walking" in before.actions;
    Animation.SwitchStopsThenPlays(before, "Idle", "Walking");
    session.OnKeyDown("X");
    assert AnimationKeyIndex("X") == Some(1);
    assert session.Snapshot().anim == Change(before, "Walking");
    assert session.calls == before.calls + [Stop("Idle"), Play("Walking")];
    log := session.calls[|before.calls|..];
    selected := session.action;
    idlePlaying := session.actions["Idle"].playing;
    walkingPlaying := session.actions["Walking"].playing;
  }
}
