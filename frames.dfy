// Properties of Multi::Update over one frame and over runs of frames.

module Frames {
  import opened Transforms
  import opened Camera
  import opened Scene
  import opened Input
  import opened Editing
  import opened MultiApp

  /** Every frame of fs meets FramePre in the state the frames before it leave. */
  predicate Runnable(s: State, fs: seq<Sample>)
    requires Valid(s)
    decreases |fs|
  {
    fs == [] || (FramePre(s, fs[0]) && Runnable(Updated(s, fs[0]), fs[1..]))
  }

  /** The state after calling Update once per frame of fs. */
  function Run(s: State, fs: seq<Sample>): (r: State)
    requires Valid(s) && Runnable(s, fs)
    ensures Valid(r)
    decreases |fs|
  {
    if fs == [] then s else Run(Updated(s, fs[0]), fs[1..])
  }

  /** The camera stays within its clamps over any run of frames. */
  lemma {:induction false} RunKeepsCameraInRange(s: State, fs: seq<Sample>)
    requires Valid(s) && Runnable(s, fs) && InRange(s.cam)
    ensures InRange(Run(s, fs).cam)
    decreases |fs|
  {
    if fs != [] {
      UpdatedCamera(s, fs[0]);
      RunKeepsCameraInRange(Updated(s, fs[0]), fs[1..]);
    }
  }

  /** The keys that change the store or the selection. */
  const StoreKeys: set<Key> := {Delete, Tab, KeyE, KeyB, KeyC, KeyG, KeyP}

  /**
   * A frame that presses none of the store keys edits the selected object by
   * right-multiplying its worldStopped with the frame's edit transform, and
   * leaves every other object and the selection as they were.
   */
  lemma EditFrame(s: State, f: Sample)
    requires Valid(s) && s.objCount > 0 && StoreKeys !! f.press
    ensures FramePre(s, f)
    ensures Updated(s, f).objCount == s.objCount && Updated(s, f).selected == s.selected
    ensures Updated(s, f).scene[s.selected].worldStopped ==
            Mul(s.scene[s.selected].worldStopped, EditTransform(f.down, f.press))
    ensures Updated(s, f).scene[s.selected].round == s.scene[s.selected].round
    ensures forall j :: 0 <= j < |s.scene| && j != s.selected ==> Updated(s, f).scene[j] == s.scene[j]
  {
  }

  /** The edit transforms of a run of frames, multiplied in frame order. */
  function Edits(fs: seq<Sample>): Matrix
    decreases |fs|
  {
    if fs == [] then Identity else Mul(EditTransform(fs[0].down, fs[0].press), Edits(fs[1..]))
  }

  /** Frames that press none of the store keys. */
  predicate EditOnly(fs: seq<Sample>)
  {
    forall i :: 0 <= i < |fs| ==> StoreKeys !! fs[i].press
  }

  lemma EditOnlyTail(fs: seq<Sample>)
    requires EditOnly(fs) && fs != []
    ensures StoreKeys !! fs[0].press && EditOnly(fs[1..])
  {
    forall i | 0 <= i < |fs[1..]|
      ensures StoreKeys !! fs[1..][i].press
    {
      assert fs[1..][i] == fs[i + 1];
    }
  }

  /** Update has no precondition on a frame that presses no store key and a non-empty store. */
  lemma {:induction false} EditOnlyRunnable(s: State, fs: seq<Sample>)
    requires Valid(s) && s.objCount > 0 && EditOnly(fs)
    ensures Runnable(s, fs)
    decreases |fs|
  {
    if fs != [] {
      EditOnlyTail(fs);
      EditFrame(s, fs[0]);
      EditOnlyRunnable(Updated(s, fs[0]), fs[1..]);
    }
  }

  /**
   * Over frames that press no store key, the selected object accumulates the
   * edits of all frames, each right-multiplied onto the product so far.
   */
  lemma {:induction false} EditsAccumulate(s: State, fs: seq<Sample>)
    requires Valid(s) && s.objCount > 0 && EditOnly(fs) && Runnable(s, fs)
    ensures Run(s, fs).selected == s.selected && Run(s, fs).objCount == s.objCount
    ensures Run(s, fs).scene[s.selected].worldStopped == Mul(s.scene[s.selected].worldStopped, Edits(fs))
    decreases |fs|
  {
    if fs != [] {
      EditOnlyTail(fs);
      EditFrame(s, fs[0]);
      var e := EditTransform(fs[0].down, fs[0].press);
      EditsAccumulate(Updated(s, fs[0]), fs[1..]);
      MulAssoc(s.scene[s.selected].worldStopped, e, Edits(fs[1..]));
    }
  }

  /** Over frames that press no store key, no object but the selected one changes. */
  lemma {:induction false} EditsTouchOnlySelected(s: State, fs: seq<Sample>)
    requires Valid(s) && s.objCount > 0 && EditOnly(fs) && Runnable(s, fs)
    ensures Run(s, fs).selected == s.selected && Run(s, fs).objCount == s.objCount
    ensures forall j :: 0 <= j < |s.scene| && j != s.selected ==> Run(s, fs).scene[j] == s.scene[j]
    decreases |fs|
  {
    if fs != [] {
      EditOnlyTail(fs);
      EditFrame(s, fs[0]);
      EditsTouchOnlySelected(Updated(s, fs[0]), fs[1..]);
    }
  }

  /** A frame that holds and presses nothing. */
  predicate AllQuiet(fs: seq<Sample>)
  {
    forall i :: 0 <= i < |fs| ==> Quiet(fs[i])
  }

  /**
   * A quiet frame only animates the selected object: a round one gets
   * RotateY(elapsed) * worldStopped, any other flips pulse and gets the scale
   * of the new pulse times worldStopped. Nothing else changes but the
   * remembered mouse position.
   */
  lemma QuietFrame(s: State, f: Sample)
    requires Valid(s) && Quiet(f)
    ensures FramePre(s, f)
    ensures var r := Updated(s, f);
      && r.objCount == s.objCount && r.selected == s.selected && |r.scene| == |s.scene|
      && r.solid == s.solid && r.spinning == s.spinning && r.timerRunning == s.timerRunning
      && r.cam == s.cam
      && (forall j :: 0 <= j < |s.scene| && j != s.selected ==> r.scene[j] == s.scene[j])
      && (s.objCount == 0 ==> r.pulse == s.pulse && r.scene == s.scene)
  {
  }

  /** What a quiet frame does to the selected object. */
  lemma QuietFrameSelected(s: State, f: Sample)
    requires Valid(s) && Quiet(f) && s.objCount > 0
    ensures FramePre(s, f)
    ensures var o := s.scene[s.selected];
      var r := Updated(s, f);
      var o' := r.scene[s.selected];
      && r.objCount == s.objCount && r.selected == s.selected
      && o'.worldStopped == o.worldStopped && o'.round == o.round
      && r.pulse == (if o.round then s.pulse else !s.pulse)
      && o'.world == (if o.round then Mul(Rotate(Y, f.elapsed), o.worldStopped)
                      else Mul(Scale(if r.pulse then 1.015 else 1.0), o.worldStopped))
  {
  }

  function Odd(n: nat): bool
  {
    n % 2 == 1
  }

  lemma OddSucc(n: nat)
    ensures Odd(n + 1) == !Odd(n)
  {
  }

  lemma AllQuietTail(fs: seq<Sample>)
    requires AllQuiet(fs) && fs != []
    ensures Quiet(fs[0]) && AllQuiet(fs[1..])
  {
    forall i | 0 <= i < |fs[1..]|
      ensures Quiet(fs[1..][i])
    {
      assert fs[1..][i] == fs[i + 1];
    }
  }

  /** Update has no precondition on a quiet frame. */
  lemma {:induction false} QuietRunnable(s: State, fs: seq<Sample>)
    requires Valid(s) && AllQuiet(fs)
    ensures Runnable(s, fs)
    decreases |fs|
  {
    if fs != [] {
      AllQuietTail(fs);
      QuietFrame(s, fs[0]);
      QuietRunnable(Updated(s, fs[0]), fs[1..]);
    }
  }

  /** Over any number of quiet frames the store, the selection and the selected object's worldStopped stay put. */
  lemma {:induction false} QuietRunKeepsSelected(s: State, fs: seq<Sample>)
    requires Valid(s) && s.objCount > 0 && AllQuiet(fs) && Runnable(s, fs)
    ensures var r := Run(s, fs);
      && r.objCount == s.objCount && r.selected == s.selected
      && r.scene[s.selected].worldStopped == s.scene[s.selected].worldStopped
      && r.scene[s.selected].round == s.scene[s.selected].round
    decreases |fs|
  {
    if fs != [] {
      AllQuietTail(fs);
      QuietFrameSelected(s, fs[0]);
      QuietRunKeepsSelected(Updated(s, fs[0]), fs[1..]);
    }
  }

  /**
   * A non-round selected object flips pulse on every quiet frame, so after n
   * of them pulse has flipped exactly when n is odd; a round one leaves pulse
   * alone.
   */
  lemma {:induction false} QuietRunPulse(s: State, fs: seq<Sample>)
    requires Valid(s) && s.objCount > 0 && AllQuiet(fs) && Runnable(s, fs)
    ensures Run(s, fs).objCount == s.objCount && Run(s, fs).selected == s.selected
    ensures Run(s, fs).pulse == (if s.scene[s.selected].round then s.pulse else s.pulse != Odd(|fs|))
    decreases |fs|
  {
    if fs != [] {
      AllQuietTail(fs);
      QuietFrameSelected(s, fs[0]);
      QuietRunPulse(Updated(s, fs[0]), fs[1..]);
      assert |fs| == |fs[1..]| + 1;
      OddSucc(|fs[1..]|);
    }
  }

  /** The fill mode is S-then-W latched every frame: W wins, and with neither held it persists. */
  lemma UpdatedFill(s: State, f: Sample)
    requires Valid(s) && FramePre(s, f)
    ensures Updated(s, f).solid <==> KeyW !in f.down && (KeyS in f.down || s.solid)
  {
  }

  /** Draw's pipeline after a frame: wireframe while W is held, solid while only S is, else as before. */
  lemma UpdatedPipeline(s: State, f: Sample)
    requires Valid(s) && FramePre(s, f)
    ensures PipelineFor(Updated(s, f).solid) == (if KeyW in f.down then Wireframe
                                                 else if KeyS in f.down then Solid
                                                 else PipelineFor(s.solid))
  {
    UpdatedFill(s, f);
  }

  /** Over frames that hold neither S nor W, Draw keeps using the same pipeline. */
  lemma {:induction false} FillPersists(s: State, fs: seq<Sample>)
    requires Valid(s) && Runnable(s, fs)
    requires forall i :: 0 <= i < |fs| ==> KeyS !in fs[i].down && KeyW !in fs[i].down
    ensures Run(s, fs).solid == s.solid
    decreases |fs|
  {
    if fs != [] {
      UpdatedFill(s, fs[0]);
      forall i | 0 <= i < |fs[1..]|
        ensures KeyS !in fs[1..][i].down && KeyW !in fs[1..][i].down
      {
        assert fs[1..][i] == fs[i + 1];
      }
      FillPersists(Updated(s, fs[0]), fs[1..]);
    }
  }

  /**
   * A frame that presses only Delete: the selected object is erased, the
   * selection steps back, and the objects after it move down one place; the
   * newly selected object is then animated in the same frame.
   */
  lemma DeleteFrame(s: State, f: Sample)
    requires Valid(s) && s.objCount > 0 && f.press == {Delete} && f.down == {}
    ensures FramePre(s, f)
    ensures var r := Updated(s, f);
      && r.objCount == s.objCount - 1
      && r.selected == SelectionAfterDelete(s.selected)
      && r.spinning == s.spinning && r.solid == s.solid
  {
  }

  /** After a Delete frame the store is the erased one, except for the newly selected object's world. */
  lemma DeleteFrameScene(s: State, f: Sample)
    requires Valid(s) && s.objCount > 0 && f.press == {Delete} && f.down == {}
    ensures FramePre(s, f)
    ensures var r := Updated(s, f);
      forall j :: 0 <= j < |r.scene| && j != r.selected ==> r.scene[j] == Erase(s.scene, s.selected)[j]
  {
  }

  /** A frame that presses only Tab: the next object is selected, spinning and the timer toggle. */
  lemma TabFrame(s: State, f: Sample)
    requires Valid(s) && s.objCount > 0 && f.press == {Tab} && f.down == {}
    ensures FramePre(s, f)
    ensures var r := Updated(s, f);
      && r.objCount == s.objCount
      && r.selected == NextSelection(s.selected, s.objCount)
      && r.spinning == !s.spinning && r.timerRunning == r.spinning
  {
  }

  /** A Tab frame changes no object's worldStopped. */
  lemma TabFrameScene(s: State, f: Sample)
    requires Valid(s) && s.objCount > 0 && f.press == {Tab} && f.down == {}
    ensures FramePre(s, f)
    ensures var r := Updated(s, f);
      forall j :: 0 <= j < |s.scene| ==> r.scene[j].worldStopped == s.scene[j].worldStopped
  {
  }

  /**
   * A frame that presses only E: a Sphere is appended and selected, and since
   * it is round it is spun by the timer's elapsed seconds at once; the objects
   * before it are untouched and pulse keeps its value.
   */
  lemma SpawnFrame(s: State, f: Sample)
    requires Valid(s) && f.press == {KeyE} && f.down == {}
    ensures FramePre(s, f)
    ensures var r := Updated(s, f);
      && r.objCount == s.objCount + 1 && r.selected == s.objCount
      && r.scene[..s.objCount] == s.scene
      && r.scene[s.objCount].round
      && r.scene[s.objCount].worldStopped == Placement
      && r.scene[s.objCount].world == Mul(Rotate(Y, f.elapsed), Placement)
      && r.pulse == s.pulse
  {
  }

  /** Multi::Init on a fresh object: a Grid, a Box and a Sphere, the Sphere selected, the camera in range. */
  lemma InitScene(mouseX: int, mouseY: int)
    ensures var s := Initialized(Initial, mouseX, mouseY);
      && Valid(s) && InRange(s.cam)
      && s.scene == [NewObject(Grid), NewObject(Box), NewObject(Sphere)]
      && s.objCount == 3 && s.selected == 2
      && s.timerRunning && s.spinning && s.pulse && !s.solid
  {
    StartInRange();
  }

  /**
   * Three Delete frames after Init empty the store; a fourth Delete, or a Tab,
   * would then erase or divide on an empty scene, which FramePre rules out.
   */
  lemma DeleteAllAfterInit(mouseX: int, mouseY: int, f: Sample)
    requires f.press == {Delete} && f.down == {}
    ensures var s := Initialized(Initial, mouseX, mouseY);
      && Valid(s) && Runnable(s, [f, f, f])
      && Run(s, [f, f, f]).objCount == 0
      && Run(s, [f, f, f]).scene == []
      && !FramePre(Run(s, [f, f, f]), f)
  {
    var s := Initialized(Initial, mouseX, mouseY);
    InitScene(mouseX, mouseY);
    DeleteFrame(s, f);
    var s1 := Updated(s, f);
    DeleteFrame(s1, f);
    var s2 := Updated(s1, f);
    DeleteFrame(s2, f);
    var s3 := Updated(s2, f);
    assert [f, f, f][1..] == [f, f] && [f, f][1..] == [f] && [f][1..] == [];
    assert Runnable(s2, [f]) && Run(s2, [f]) == s3;
    assert Runnable(s1, [f, f]) && Run(s1, [f, f]) == s3;
  }

  /** From Init on, phi stays in [0.1, pi - 0.1] and radius in [3, 15] whatever the frames. */
  lemma CameraAlwaysInRange(mouseX: int, mouseY: int, fs: seq<Sample>)
    requires Valid(Initialized(Initial, mouseX, mouseY)) && Runnable(Initialized(Initial, mouseX, mouseY), fs)
    ensures InRange(Run(Initialized(Initial, mouseX, mouseY), fs).cam)
  {
    InitScene(mouseX, mouseY);
    RunKeepsCameraInRange(Initialized(Initial, mouseX, mouseY), fs);
  }
}
