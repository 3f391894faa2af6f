/** The per-frame position updates driven by held keys. */
module Movement {
  import opened Keyboard

  /** An integer position; the deltas the program applies are integral. */
  datatype Vec3 = Vec3(x: int, y: int, z: int)

  /** Distance the character body moves per frame and held key. */
  const CharacterStep: int := 2
  /** Distance the camera moves per frame and held key. */
  const CameraStep: int := 5
  /** Where the character body is placed when the character loads. */
  const CharacterSpawn: Vec3 := Vec3(0, 15, 0)
  /** Where the camera starts. */
  const CameraStart: Vec3 := Vec3(100, 200, 300)

  /** `d` when `held`, otherwise 0. */
  function Contribution(held: bool, d: int): int
  {
    if held then d else 0
  }

  /** The character body after one frame: S and W move it along z, D and A along x,
      each by two units, the four tests applied one after another. */
  function MoveCharacter(p: Vec3, keys: KeyMap): (r: Vec3)
    ensures r.x == p.x - Contribution(Held(keys, "D"), 2) + Contribution(Held(keys, "A"), 2)
    ensures r.y == p.y
    ensures r.z == p.z - Contribution(Held(keys, "S"), 2) + Contribution(Held(keys, "W"), 2)
  {
    var afterS := if Held(keys, "S") then p.(z := p.z - CharacterStep) else p;
    var afterW := if Held(keys, "W") then afterS.(z := afterS.z + CharacterStep) else afterS;
    var afterD := if Held(keys, "D") then afterW.(x := afterW.x - CharacterStep) else afterW;
    if Held(keys, "A") then afterD.(x := afterD.x + CharacterStep) else afterD
  }

  /** The camera after one frame: O moves it by +5 along x, P by -5. */
  function MoveCamera(p: Vec3, keys: KeyMap): (r: Vec3)
    ensures r.x == p.x + Contribution(Held(keys, "O"), 5) - Contribution(Held(keys, "P"), 5)
    ensures r.y == p.y && r.z == p.z
  {
    var afterO := if Held(keys, "O") then p.(x := p.x + CameraStep) else p;
    if Held(keys, "P") then afterO.(x := afterO.x - CameraStep) else afterO
  }

  /** Opposite keys held together cancel, for the character and for the camera. */
  lemma OppositeKeysCancel(p: Vec3, keys: KeyMap)
    ensures Held(keys, "S") == Held(keys, "W") ==> MoveCharacter(p, keys).z == p.z
    ensures Held(keys, "D") == Held(keys, "A") ==> MoveCharacter(p, keys).x == p.x
    ensures Held(keys, "O") == Held(keys, "P") ==> MoveCamera(p, keys) == p
  {
  }

  /** Only the six movement keys matter: two maps that agree on them move alike. */
  lemma MovementReadsOnlyMovementKeys(p: Vec3, k1: KeyMap, k2: KeyMap)
    requires forall k :: k in MovementKeys ==> Held(k1, k) == Held(k2, k)
    ensures MoveCharacter(p, k1) == MoveCharacter(p, k2)
    ensures MoveCamera(p, k1) == MoveCamera(p, k2)
  {
    assert "S" in MovementKeys && "W" in MovementKeys && "D" in MovementKeys;
    assert "A" in MovementKeys && "O" in MovementKeys && "P" in MovementKeys;
  }
}
