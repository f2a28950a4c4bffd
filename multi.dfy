// The frame-update state machine of class Multi: its fields, createGeometry,
// Update and the fill-mode choice of Draw.
//
// The functions give the state after each step as a value; class Multi below
// performs the same steps on its fields and is proved to end in that state.

module MultiApp {
  import opened Transforms
  import opened Camera
  import opened Scene
  import opened Input
  import opened Editing

  /** The two pipeline states Draw clears with: pipelineState (wireframe) and pipelineStateSolid. */
  datatype Pipeline = Wireframe | Solid

  /** The fields of class Multi this model keeps; timerRunning is whether `timer` is started. */
  datatype State = State(
    scene: seq<Object>,
    objCount: int,
    selected: int,
    spinning: bool,
    pulse: bool,
    solid: bool,
    timerRunning: bool,
    cam: Orbit,
    lastMouseX: real,
    lastMouseY: real)

  /** The field initialisers of class Multi: no objects, yet `selected` is 1. */
  const Initial: State :=
    State([], 0, 1, true, true, false, false, Orbit(0.0, 0.0, 0.0), 0.0, 0.0)

  /**
   * The store invariant: objCount counts the scene and, while the scene is not
   * empty, selected indexes it.
   */
  predicate Valid(s: State)
  {
    s.objCount == |s.scene| && 0 <= s.selected && (s.objCount > 0 ==> s.selected < s.objCount)
  }

  /** The fill latch, the pulse, the camera and the remembered mouse position are the same in r as in s. */
  predicate KeepsSettings(s: State, r: State)
  {
    r.solid == s.solid && r.pulse == s.pulse && r.cam == s.cam &&
    r.lastMouseX == s.lastMouseX && r.lastMouseY == s.lastMouseY
  }

  /** r differs from s at most in the store: scene, objCount and selected. */
  predicate StoreOnly(s: State, r: State)
  {
    KeepsSettings(s, r) && r.spinning == s.spinning && r.timerRunning == s.timerRunning
  }

  /** createGeometry: append the new object and select it. */
  function Spawn(s: State, g: Geo): (r: State)
    ensures r.scene == s.scene + [NewObject(g)]
    ensures r.objCount == s.objCount + 1 && r.selected == s.objCount
    ensures Valid(s) ==> Valid(r) && r.selected == |r.scene| - 1
  {
    s.(scene := s.scene + [NewObject(g)], selected := s.objCount, objCount := s.objCount + 1)
  }

  /** One spawn test of Update: createGeometry(g) when its key is pressed. */
  function SpawnIf(s: State, pressed: bool, g: Geo): (r: State)
    ensures r.scene == s.scene + Appended(pressed, g)
    ensures r.objCount - s.objCount == |r.scene| - |s.scene|
    ensures pressed ==> r.selected == s.objCount
    ensures !pressed ==> r == s
    ensures Valid(s) ==> Valid(r)
    ensures StoreOnly(s, r)
  {
    if pressed then Spawn(s, g) else s
  }

  /** The object a spawn test appends: one new object when its key is pressed, none otherwise. */
  function Appended(pressed: bool, g: Geo): seq<Object>
  {
    if pressed then [NewObject(g)] else []
  }

  /** The objects the spawn keys of a frame append: E a Sphere, B a Box, C a Cylinder, G a Globe, P a Grid, in that order. */
  function SpawnedBy(press: set<Key>): seq<Object>
  {
    Appended(KeyE in press, Sphere) + Appended(KeyB in press, Box) + Appended(KeyC in press, Cylinder) +
    Appended(KeyG in press, Globe) + Appended(KeyP in press, Grid)
  }

  /** Appending five runs one after the other appends their concatenation. */
  lemma AppendAll<T>(s: seq<T>, a: seq<T>, b: seq<T>, c: seq<T>, d: seq<T>, e: seq<T>)
    ensures s + a + b + c + d + e == s + (a + b + c + d + e)
  {
  }

  /**
   * The five spawn tests of Update. The scene grows by the objects of the keys
   * pressed, in key order, and the last one appended is selected.
   */
  function SpawnPressed(s: State, press: set<Key>): (r: State)
    ensures r.scene == s.scene + SpawnedBy(press)
    ensures r.objCount - s.objCount == |r.scene| - |s.scene|
    ensures Valid(s) && |r.scene| > |s.scene| ==> r.selected == |r.scene| - 1
    ensures |r.scene| == |s.scene| ==> r == s
    ensures Valid(s) ==> Valid(r)
    ensures StoreOnly(s, r)
  {
    var e := SpawnIf(s, KeyE in press, Sphere);
    var b := SpawnIf(e, KeyB in press, Box);
    var c := SpawnIf(b, KeyC in press, Cylinder);
    var g := SpawnIf(c, KeyG in press, Globe);
    var p := SpawnIf(g, KeyP in press, Grid);
    assert p.scene == s.scene + SpawnedBy(press) by {
      AppendAll(s.scene, Appended(KeyE in press, Sphere), Appended(KeyB in press, Box),
                Appended(KeyC in press, Cylinder), Appended(KeyG in press, Globe), Appended(KeyP in press, Grid));
    }
    p
  }

  /** A frame pressing all five spawn keys appends a Sphere, a Box, a Cylinder, a Globe and a Grid, and selects the Grid. */
  lemma SpawnAllKeys(s: State, press: set<Key>)
    requires Valid(s) && {KeyE, KeyB, KeyC, KeyG, KeyP} <= press
    ensures var r := SpawnPressed(s, press);
      && r.scene == s.scene + [NewObject(Sphere), NewObject(Box), NewObject(Cylinder), NewObject(Globe), NewObject(Grid)]
      && r.objCount == s.objCount + 5 && r.selected == s.objCount + 4
      && r.scene[r.selected] == NewObject(Grid)
  {
  }

  /** The Delete key: erase the selected object and move the selection back one, not below zero. */
  function DeleteSelected(s: State): (r: State)
    requires Valid(s) && s.objCount > 0
    ensures Valid(r)
    ensures r.scene == Erase(s.scene, s.selected)
    ensures r.objCount == s.objCount - 1
    ensures r.selected == SelectionAfterDelete(s.selected)
  {
    s.(scene := Erase(s.scene, s.selected), objCount := s.objCount - 1,
       selected := if s.selected == 0 then 0 else s.selected - 1)
  }

  /** The S and W keys: S sets solid, then W clears it; with neither held it keeps its value. */
  function Latch(solid: bool, down: set<Key>): (r: bool)
    ensures r <==> KeyW !in down && (KeyS in down || solid)
  {
    var afterS := if KeyS in down then true else solid;
    if KeyW in down then false else afterS
  }

  /** The Tab key: select the next object, wrapping round, and toggle spinning with the timer. */
  function CycleSelection(s: State): (r: State)
    requires Valid(s) && s.objCount > 0
    ensures Valid(r)
    ensures r.selected == NextSelection(s.selected, s.objCount)
    ensures r.spinning == !s.spinning && r.timerRunning == r.spinning
  {
    var spinning := !s.spinning;
    s.(selected := (s.selected + 1) % s.objCount, spinning := spinning, timerRunning := spinning)
  }

  /** The transform drawn for the selected object, computed from its transform before this frame's edit. */
  function Animated(o: Object, pulse: bool, elapsed: real): Matrix
  {
    if o.round then Mul(Rotate(Y, elapsed), o.worldStopped)
    else Mul(Scale(if pulse then 1.015 else 1.0), o.worldStopped)
  }

  /** With pulse off, a non-round object is drawn exactly at its worldStopped: Scale(1.0) changes nothing. */
  lemma PulseOffShowsBase(o: Object, elapsed: real)
    requires !o.round
    ensures Reduce(Animated(o, false, elapsed)) == Reduce(o.worldStopped)
  {
    ScaleOneIsIdentity(o.worldStopped);
  }

  /**
   * The last block of Update: when the scene is not empty, right-multiply the
   * selected object's worldStopped by the edit and recompute its world from the
   * worldStopped it had before; a non-round object first flips pulse.
   */
  function ApplyToSelected(s: State, transform: Matrix, elapsed: real): (r: State)
    requires Valid(s)
    ensures Valid(r)
    ensures r.objCount == s.objCount && r.selected == s.selected && |r.scene| == |s.scene|
    ensures r.cam == s.cam && r.solid == s.solid && r.spinning == s.spinning && r.timerRunning == s.timerRunning
    ensures r.lastMouseX == s.lastMouseX && r.lastMouseY == s.lastMouseY
    ensures forall j :: 0 <= j < |s.scene| && j != s.selected ==> r.scene[j] == s.scene[j]
    ensures s.objCount == 0 ==> r == s
    ensures s.objCount > 0 ==>
      var o := s.scene[s.selected];
      var o' := r.scene[s.selected];
      && o'.round == o.round
      && o'.worldStopped == Mul(o.worldStopped, transform)
      && r.pulse == (if o.round then s.pulse else !s.pulse)
      && o'.world == Animated(o, r.pulse, elapsed)
  {
    if s.objCount > 0 then
      var o := s.scene[s.selected];
      var edited := o.(worldStopped := Mul(o.worldStopped, transform));
      if o.round then
        s.(scene := s.scene[s.selected := edited.(world := Mul(Rotate(Y, elapsed), o.worldStopped))])
      else
        var pulse := !s.pulse;
        var world := if pulse then Mul(Scale(1.015), o.worldStopped) else Mul(Scale(1.0), o.worldStopped);
        s.(pulse := pulse, scene := s.scene[s.selected := edited.(world := world)])
    else
      s
  }

  /**
   * What Update demands of the frame: Delete erases `scene[selected]` without
   * checking that the scene has an object, and Tab divides by objCount after
   * any delete of the same frame.
   */
  predicate FramePre(s: State, f: Sample)
  {
    (Delete in f.press ==> s.objCount > 0) &&
    (Tab in f.press ==> s.objCount > (if Delete in f.press then 1 else 0))
  }

  /** The mouse block of Update: Drag by the movement since the last frame. */
  function CameraStep(s: State, f: Sample): (r: State)
    ensures r.cam == Drag(s.cam, f.mouseX as real - s.lastMouseX, f.mouseY as real - s.lastMouseY,
                          LButton in f.down, RButton in f.down)
    ensures r.(cam := s.cam) == s
  {
    s.(cam := Drag(s.cam, f.mouseX as real - s.lastMouseX, f.mouseY as real - s.lastMouseY,
                   LButton in f.down, RButton in f.down))
  }

  /** The Delete test of Update. */
  function DeleteStep(s: State, press: set<Key>): (r: State)
    requires Valid(s) && (Delete in press ==> s.objCount > 0)
    ensures Valid(r) && StoreOnly(s, r)
    ensures Delete in press ==>
      r.scene == Erase(s.scene, s.selected) && r.objCount == s.objCount - 1 &&
      r.selected == SelectionAfterDelete(s.selected)
    ensures Delete !in press ==> r == s
  {
    if Delete in press then DeleteSelected(s) else s
  }

  /** The S and W tests of Update. */
  function FillStep(s: State, down: set<Key>): (r: State)
    ensures r.(solid := s.solid) == s
    ensures r.solid == Latch(s.solid, down)
  {
    s.(solid := Latch(s.solid, down))
  }

  /** The Tab test of Update. */
  function TabStep(s: State, press: set<Key>): (r: State)
    requires Valid(s) && (Tab in press ==> s.objCount > 0)
    ensures Valid(r) && KeepsSettings(s, r) && r.objCount == s.objCount && r.scene == s.scene
    ensures Tab in press ==>
      r.selected == NextSelection(s.selected, s.objCount) &&
      r.spinning == !s.spinning && r.timerRunning == r.spinning
    ensures Tab !in press ==> r == s
  {
    if Tab in press then CycleSelection(s) else s
  }

  /** The end of Update's input handling: the mouse position is remembered for the next frame. */
  function MouseStep(s: State, f: Sample): (r: State)
    ensures r.(lastMouseX := s.lastMouseX, lastMouseY := s.lastMouseY) == s
    ensures r.lastMouseX == f.mouseX as real && r.lastMouseY == f.mouseY as real
  {
    s.(lastMouseX := f.mouseX as real, lastMouseY := f.mouseY as real)
  }

  /** The state after one call of Update: its blocks in their order. */
  function Updated(s: State, f: Sample): (r: State)
    requires Valid(s) && FramePre(s, f)
    ensures Valid(r)
  {
    var s1 := CameraStep(s, f);
    var s2 := DeleteStep(s1, f.press);
    var s3 := FillStep(s2, f.down);
    var s4 := TabStep(s3, f.press);
    var s5 := MouseStep(SpawnPressed(s4, f.press), f);
    ApplyToSelected(s5, EditTransform(f.down, f.press), f.elapsed)
  }

  /** Multi::Init: the starting camera, the mouse position, a Grid, a Box and a Sphere, then the timer starts. */
  function Initialized(s: State, mouseX: int, mouseY: int): (r: State)
    ensures r.scene == s.scene + [NewObject(Grid), NewObject(Box), NewObject(Sphere)]
    ensures r.objCount == s.objCount + 3 && r.selected == s.objCount + 2
    ensures r.cam == Start && r.timerRunning
    ensures r.lastMouseX == mouseX as real && r.lastMouseY == mouseY as real
    ensures r.solid == s.solid && r.spinning == s.spinning && r.pulse == s.pulse
  {
    var placed := s.(cam := Start, lastMouseX := mouseX as real, lastMouseY := mouseY as real);
    Spawn(Spawn(Spawn(placed, Grid), Box), Sphere).(timerRunning := true)
  }

  /** Which pipeline Draw clears with. */
  function PipelineFor(solid: bool): (p: Pipeline)
    ensures p == Solid <==> solid
  {
    if solid then Solid else Wireframe
  }

  class Multi {
    var scene: seq<Object>
    var timerRunning: bool
    var spinning: bool
    var pulse: bool
    var solid: bool
    var theta: real
    var phi: real
    var radius: real
    var lastMousePosX: real
    var lastMousePosY: real
    var objCount: int
    var selected: int

    /** The fields as a State value. */
    function Snapshot(): State
      reads this
    {
      State(scene, objCount, selected, spinning, pulse, solid, timerRunning,
            Orbit(theta, phi, radius), lastMousePosX, lastMousePosY)
    }

    constructor ()
      ensures Snapshot() == Initial
    {
      scene := [];
      timerRunning := false;
      spinning, pulse, solid := true, true, false;
      theta, phi, radius := 0.0, 0.0, 0.0;
      lastMousePosX, lastMousePosY := 0.0, 0.0;
      objCount, selected := 0, 1;
    }

    method Init(mouseX: int, mouseY: int)
      modifies this
      ensures Snapshot() == Initialized(old(Snapshot()), mouseX, mouseY)
    {
      theta := Pi / 4.0;
      phi := 1.3;
      radius := 5.0;
      lastMousePosX := mouseX as real;
      lastMousePosY := mouseY as real;
      ghost var placed := Snapshot();
      assert placed == old(Snapshot()).(cam := Start, lastMouseX := mouseX as real, lastMouseY := mouseY as real);
      CreateGeometry(Grid);
      CreateGeometry(Box);
      CreateGeometry(Sphere);
      assert Snapshot() == Spawn(Spawn(Spawn(placed, Grid), Box), Sphere);
      timerRunning := true;
    }

    method CreateGeometry(g: Geo)
      modifies this
      ensures Snapshot() == Spawn(old(Snapshot()), g)
    {
      var obj := NewObject(g);
      scene := scene + [obj];
      selected := objCount;
      objCount := objCount + 1;
    }

    /** One frame: the blocks of Multi::Update in their order. */
    method Update(f: Sample)
      requires Valid(Snapshot()) && FramePre(Snapshot(), f)
      modifies this
      ensures Snapshot() == Updated(old(Snapshot()), f)
    {
      ghost var s0 := Snapshot();
      MoveCamera(f);
      DeleteKey(f.press);
      FillKeys(f.down);
      TabKey(f.press);
      SpawnKeys(f.press);
      var transform := ComposeEdit(f.down, f.press);
      RememberMouse(f);
      ghost var s5 := Snapshot();
      assert s5 == MouseStep(SpawnPressed(TabStep(FillStep(DeleteStep(CameraStep(s0, f), f.press), f.down), f.press), f.press), f);
      EditSelected(transform, f.elapsed);
    }

    /** The end of Update's input handling: remember the mouse position for the next frame. */
    method RememberMouse(f: Sample)
      modifies this`lastMousePosX, this`lastMousePosY
      ensures Snapshot() == MouseStep(old(Snapshot()), f)
    {
      lastMousePosX := f.mouseX as real;
      lastMousePosY := f.mouseY as real;
    }

    /** The mouse block: orbit with the left button, otherwise dolly with the right. */
    method MoveCamera(f: Sample)
      modifies this`theta, this`phi, this`radius
      ensures Snapshot() == CameraStep(old(Snapshot()), f)
    {
      var mousePosX := f.mouseX as real;
      var mousePosY := f.mouseY as real;
      if LButton in f.down {
        var dx := OrbitAngle(mousePosX - lastMousePosX);
        var dy := OrbitAngle(mousePosY - lastMousePosY);
        theta := theta + dx;
        phi := phi + dy;
        phi := Clamp(phi, PhiMin, PhiMax);
      } else if RButton in f.down {
        var dx := DollyRate * (mousePosX - lastMousePosX);
        var dy := DollyRate * (mousePosY - lastMousePosY);
        radius := radius + (dx - dy);
        radius := Clamp(radius, RadiusMin, RadiusMax);
      }
    }

    /** The Delete key: no check that the scene has an object. */
    method DeleteKey(press: set<Key>)
      requires Valid(Snapshot()) && (Delete in press ==> objCount > 0)
      modifies this`scene, this`objCount, this`selected
      ensures Snapshot() == DeleteStep(old(Snapshot()), press)
    {
      if Delete in press {
        scene := Erase(scene, selected);
        objCount := objCount - 1;
        selected := if selected == 0 then 0 else selected - 1;
      }
    }

    /** The S and W tests. */
    method FillKeys(down: set<Key>)
      modifies this`solid
      ensures Snapshot() == FillStep(old(Snapshot()), down)
    {
      if KeyS in down {
        solid := true;
      }
      if KeyW in down {
        solid := false;
      }
    }

    /** The Tab key: `% objCount` with no test for zero. */
    method TabKey(press: set<Key>)
      requires Valid(Snapshot()) && (Tab in press ==> objCount > 0)
      modifies this`selected, this`spinning, this`timerRunning
      ensures Snapshot() == TabStep(old(Snapshot()), press)
    {
      if Tab in press {
        selected := (selected + 1) % objCount;
        spinning := !spinning;
        if spinning {
          timerRunning := true;
        } else {
          timerRunning := false;
        }
      }
    }

    /** The spawn keys E, B, C, G and P. */
    method SpawnKeys(press: set<Key>)
      modifies this
      ensures Snapshot() == SpawnPressed(old(Snapshot()), press)
    {
      if KeyE in press {
        CreateGeometry(Sphere);
      }
      if KeyB in press {
        CreateGeometry(Box);
      }
      if KeyC in press {
        CreateGeometry(Cylinder);
      }
      if KeyG in press {
        CreateGeometry(Globe);
      }
      if KeyP in press {
        CreateGeometry(Grid);
      }
    }

    /** The block guarded by `objCount > 0`: edit, then animate, the selected object only. */
    method EditSelected(transform: Matrix, elapsed: real)
      requires Valid(Snapshot())
      modifies this`scene, this`pulse
      ensures Snapshot() == ApplyToSelected(old(Snapshot()), transform, elapsed)
    {
      if objCount > 0 {
        var objWorldMatrix := scene[selected].worldStopped;
        scene := scene[selected := scene[selected].(worldStopped := Mul(objWorldMatrix, transform))];
        if scene[selected].round {
          scene := scene[selected := scene[selected].(world := Mul(Rotate(Y, elapsed), objWorldMatrix))];
        } else {
          pulse := !pulse;
          if pulse {
            scene := scene[selected := scene[selected].(world := Mul(Scale(1.015), objWorldMatrix))];
          } else {
            scene := scene[selected := scene[selected].(world := Mul(Scale(1.0), objWorldMatrix))];
          }
        }
      }
    }

    /** The fill-mode choice at the top of Draw. */
    method Draw() returns (p: Pipeline)
      ensures p == PipelineFor(solid)
      ensures p == Solid <==> solid
    {
      if solid {
        p := Solid;
      } else {
        p := Wireframe;
      }
    }
  }

  /** The camera of a frame depends only on the mouse: Drag of the movement since the last frame. */
  lemma UpdatedCamera(s: State, f: Sample)
    requires Valid(s) && FramePre(s, f)
    ensures Updated(s, f).cam ==
      Drag(s.cam, f.mouseX as real - s.lastMouseX, f.mouseY as real - s.lastMouseY, LButton in f.down, RButton in f.down)
    ensures InRange(s.cam) ==> InRange(Updated(s, f).cam)
  {
    var s1 := CameraStep(s, f);
    var s4 := TabStep(FillStep(DeleteStep(s1, f.press), f.down), f.press);
    var s5 := MouseStep(SpawnPressed(s4, f.press), f);
    assert s5.cam == s4.cam == s1.cam;
    assert Updated(s, f) == ApplyToSelected(s5, EditTransform(f.down, f.press), f.elapsed);
  }
}
