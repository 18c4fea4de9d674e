/**
 * The input handling of the mesh viewer (examples/mesh/main.cpp): dragging
 * with mouse button 1 rotates the camera, scrolling zooms it, and every frame
 * uploads the view-projection held in the uniform block to the shaders.
 * The camera is opaque: it records the calls made on it.
 */
module MeshViewer {
  import opened Wrappers

  /** GLFW_MOUSE_BUTTON_1 */
  const MouseButton1 := 0
  /** GLFW_PRESS */
  const Press := 1

  /** A cursor position or a scroll offset (glm::vec2). */
  datatype Vec2 = Vec2(x: int, y: int)

  function Minus(a: Vec2, b: Vec2): Vec2 {
    Vec2(a.x - b.x, a.y - b.y)
  }

  function Plus(a: Vec2, b: Vec2): Vec2 {
    Vec2(a.x + b.x, a.y + b.y)
  }

  /** The two kinds of GLFWMouse callback that `onMouse` tells apart. */
  datatype MouseEvent = ButtonEvent(button: int, action: int) | PositionEvent(x: int, y: int)

  /** Everything that reaches the viewer's state: mouse, scroll, and the start of a frame. */
  datatype Event = Mouse(e: MouseEvent) | Scroll(offset: Vec2) | Frame(dt: real)

  /** A state-changing call on the camera, with the frame time handed to it. */
  datatype CameraCall = RotateCall(delta: Vec2, dt: real) | ScaleCall(amount: int, dt: real)

  /**
   * The camera's view-projection matrix. Camera mathematics is not modelled:
   * the matrix is whatever the camera's set-up and the calls made on it since
   * determine.
   */
  datatype ViewProjection = ViewProjection(calls: seq<CameraCall>)

  /**
   * The viewer's state: `_isPressed`, `_isFirst`, `_prev_mouse`, `_dt`, the
   * camera's calls, `_mvpData.mvp`, and the matrices uploaded so far.
   */
  datatype Viewer = Viewer(pressed: bool, first: bool, prev: Vec2, dt: real,
                           camera: seq<CameraCall>, mvp: ViewProjection, uploads: seq<ViewProjection>)

  /** The uniform block holds the current camera's view-projection. */
  predicate InSync(s: Viewer) {
    s.mvp == ViewProjection(s.camera)
  }

  /**
   * The state `init` leaves, as written: the flags, the previous position and
   * the frame time are never initialised, so any values are possible. Creating
   * the uniform buffer copies the fresh camera's matrix into it.
   */
  function InitialAsWritten(pressed: bool, first: bool, prev: Vec2, dt: real): (s: Viewer)
    ensures InSync(s) && s.camera == [] && s.uploads == [s.mvp]
  {
    Viewer(pressed, first, prev, dt, [], ViewProjection([]), [ViewProjection([])])
  }

  /** The state `init` evidently means to leave: not pressed, no frame time yet. */
  function Initial(): (s: Viewer)
    ensures InSync(s) && !s.pressed && s.camera == [] && s.uploads == [s.mvp]
  {
    Viewer(false, false, Vec2(0, 0), 0.0, [], ViewProjection([]), [ViewProjection([])])
  }

  /** `onMouse`. */
  function MouseStep(s: Viewer, e: MouseEvent): (r: Viewer)
    // every mouse event refreshes the uniform block from the camera
    ensures InSync(r)
    ensures r.dt == s.dt && r.uploads == s.uploads
    // a press of button 1 starts a gesture
    ensures e == ButtonEvent(MouseButton1, Press) ==> r.pressed && r.first
    // any other action on button 1 ends it
    ensures e.ButtonEvent? && e.button == MouseButton1 && e.action != Press ==> !r.pressed && r.first == s.first
    // other buttons change no flag
    ensures e.ButtonEvent? && e.button != MouseButton1 ==> r.pressed == s.pressed && r.first == s.first
    ensures e.ButtonEvent? ==> r.camera == s.camera && r.prev == s.prev
    // a move while not pressed does nothing
    ensures e.PositionEvent? && !s.pressed ==>
              r.camera == s.camera && r.pressed == s.pressed && r.first == s.first && r.prev == s.prev
    // the first move after a press only seeds the previous position
    ensures e.PositionEvent? && s.pressed && s.first ==>
              r.camera == s.camera && r.pressed && !r.first && r.prev == Vec2(e.x, e.y)
    // every later move rotates by the difference from the previous position
    ensures e.PositionEvent? && s.pressed && !s.first ==>
              && r.camera == s.camera + [RotateCall(Minus(Vec2(e.x, e.y), s.prev), s.dt)]
              && r.pressed && !r.first && r.prev == Vec2(e.x, e.y)
  {
    var s' := match e
      case ButtonEvent(button, action) =>
        if button == MouseButton1 then
          if action == Press then s.(pressed := true, first := true) else s.(pressed := false)
        else s
      case PositionEvent(x, y) =>
        if s.pressed then
          var camera := if !s.first then s.camera + [RotateCall(Minus(Vec2(x, y), s.prev), s.dt)] else s.camera;
          s.(camera := camera, prev := Vec2(x, y), first := false)
        else s;
    s'.(mvp := ViewProjection(s'.camera))
  }

  /** `onScroll` as written: one zoom call, and the uniform block is left as it was. */
  function ScrollAsWritten(s: Viewer, offset: Vec2): (r: Viewer)
    ensures r.camera == s.camera + [ScaleCall(offset.y, s.dt)]
    ensures r.mvp == s.mvp
    ensures r.(camera := s.camera) == s
  {
    s.(camera := s.camera + [ScaleCall(offset.y, s.dt)])
  }

  /** `onScroll` refreshing the uniform block as `onMouse` does. */
  function ScrollStep(s: Viewer, offset: Vec2): (r: Viewer)
    ensures r.camera == s.camera + [ScaleCall(offset.y, s.dt)]
    ensures InSync(r)
    ensures r.(camera := s.camera, mvp := s.mvp) == s
  {
    var camera := s.camera + [ScaleCall(offset.y, s.dt)];
    s.(camera := camera, mvp := ViewProjection(camera))
  }

  /**
   * The part of `draw` that touches this state: the uniform block is uploaded,
   * then the frame time measured by the clock becomes `_dt`.
   */
  function FrameStep(s: Viewer, dt: real): (r: Viewer)
    ensures r.uploads == s.uploads + [s.mvp]
    ensures r.(uploads := s.uploads, dt := s.dt) == s && r.dt == dt
  {
    s.(uploads := s.uploads + [s.mvp], dt := dt)
  }

  /**
   * One event of the corrected viewer: a scroll goes to `ScrollStep`, which
   * refreshes the uniform block, not to `ScrollAsWritten`. `Run` and the
   * lemmas about it therefore describe the corrected machine.
   */
  function Step(s: Viewer, ev: Event): (r: Viewer)
    ensures InSync(r) || (ev.Frame? && !InSync(s))
    ensures ev.Frame? ==> r.uploads == s.uploads + [s.mvp]
    ensures !ev.Frame? ==> r.uploads == s.uploads && r.dt == s.dt
  {
    match ev
    case Mouse(e) => MouseStep(s, e)
    case Scroll(offset) => ScrollStep(s, offset)
    case Frame(dt) => FrameStep(s, dt)
  }

  /** How many frames a trace holds. */
  function FrameCount(evs: seq<Event>): nat
    decreases |evs|
  {
    if evs == [] then 0 else (if evs[0].Frame? then 1 else 0) + FrameCount(evs[1..])
  }

  /** The state of the corrected viewer after handling `evs` in order. */
  function Run(s: Viewer, evs: seq<Event>): (r: Viewer)
    ensures |s.uploads| <= |r.uploads| && r.uploads[..|s.uploads|] == s.uploads
    ensures |r.uploads| == |s.uploads| + FrameCount(evs)
    decreases |evs|
  {
    if evs == [] then s else Run(Step(s, evs[0]), evs[1..])
  }

  // ------------------------------------------------------------ lemmas

  lemma {:induction false} RunAppend(s: Viewer, evs: seq<Event>, ev: Event)
    ensures Run(s, evs + [ev]) == Step(Run(s, evs), ev)
    decreases |evs|
  {
    if evs == [] {
      assert [ev][1..] == [];
    } else {
      assert (evs + [ev])[1..] == evs[1..] + [ev];
      RunAppend(Step(s, evs[0]), evs[1..], ev);
    }
  }

  /**
   * In the corrected viewer, once the uniform block holds the camera's matrix,
   * every event keeps it so (as written, a scroll breaks this).
   */
  lemma {:induction false} RunKeepsInSync(s: Viewer, evs: seq<Event>)
    requires InSync(s)
    ensures InSync(Run(s, evs))
    decreases |evs|
  {
    if evs != [] {
      RunKeepsInSync(Step(s, evs[0]), evs[1..]);
    }
  }

  /**
   * The matrix uploaded at a frame is the camera's view-projection after
   * every event delivered before that frame.
   */
  lemma FrameUploadsCurrentView(s: Viewer, evs: seq<Event>, dt: real)
    requires InSync(s)
    ensures Run(s, evs + [Frame(dt)]).uploads == Run(s, evs).uploads + [ViewProjection(Run(s, evs).camera)]
  {
    RunAppend(s, evs, Frame(dt));
    RunKeepsInSync(s, evs);
  }

  /**
   * As written, a scroll leaves the previous matrix in the uniform block, so
   * the next frame uploads a view that does not include the zoom.
   */
  lemma ScrollAsWrittenUploadsStaleView(s: Viewer, offset: Vec2, dt: real)
    requires InSync(s)
    ensures var r := FrameStep(ScrollAsWritten(s, offset), dt);
            && r.uploads[|r.uploads| - 1] == ViewProjection(s.camera)
            && r.uploads[|r.uploads| - 1] != ViewProjection(r.camera)
  {
    var r := FrameStep(ScrollAsWritten(s, offset), dt);
    assert |r.uploads[|r.uploads| - 1].calls| == |s.camera| < |r.camera|;
  }

  /** As written, a move before any press can rotate the camera from a garbage previous position. */
  lemma UninitialisedFlagsRotate(dt: real)
    ensures MouseStep(InitialAsWritten(true, false, Vec2(0, 0), dt), PositionEvent(5, 5)).camera
         == [RotateCall(Vec2(5, 5), dt)]
  {
  }

  predicate NoPress(evs: seq<Event>) {
    forall k :: 0 <= k < |evs| ==> evs[k] != Mouse(ButtonEvent(MouseButton1, Press))
  }

  /** How many rotations a call log holds. */
  function RotationCount(calls: seq<CameraCall>): nat {
    if calls == [] then 0
    else RotationCount(calls[..|calls| - 1]) + (if calls[|calls| - 1].RotateCall? then 1 else 0)
  }

  /** Without a press of button 1, a released viewer never rotates the camera. */
  lemma {:induction false} NoRotationWithoutPress(s: Viewer, evs: seq<Event>)
    requires !s.pressed && NoPress(evs)
    ensures RotationCount(Run(s, evs).camera) == RotationCount(s.camera)
    ensures !Run(s, evs).pressed
    decreases |evs|
  {
    if evs != [] {
      var s' := Step(s, evs[0]);
      if evs[0].Scroll? {
        assert s'.camera[..|s'.camera| - 1] == s.camera;
      }
      assert NoPress(evs[1..]) by {
        forall k | 0 <= k < |evs[1..]| ensures evs[1..][k] != Mouse(ButtonEvent(MouseButton1, Press)) {
          assert evs[1..][k] == evs[k + 1];
        }
      }
      NoRotationWithoutPress(s', evs[1..]);
    }
  }

  /** From the intended initial state, nothing rotates the camera before button 1 is pressed. */
  lemma InitialNeverRotatesBeforePress(evs: seq<Event>)
    requires NoPress(evs)
    ensures RotationCount(Run(Initial(), evs).camera) == 0
  {
    NoRotationWithoutPress(Initial(), evs);
  }

  /** Position events at `ps`, in order. */
  function Moves(ps: seq<Vec2>): (evs: seq<Event>)
    ensures |evs| == |ps|
    ensures forall k :: 0 <= k < |ps| ==> evs[k] == Mouse(PositionEvent(ps[k].x, ps[k].y))
  {
    if ps == [] then [] else [Mouse(PositionEvent(ps[0].x, ps[0].y))] + Moves(ps[1..])
  }

  /** The rotation calls a drag through `ps` should make: one per pair of consecutive positions. */
  function DragRotations(ps: seq<Vec2>, dt: real): seq<CameraCall>
    decreases |ps|
  {
    if |ps| < 2 then [] else [RotateCall(Minus(ps[1], ps[0]), dt)] + DragRotations(ps[1..], dt)
  }

  /** While pressed and seeded, each move rotates by its difference from the one before. */
  lemma {:induction false} DragContinues(s: Viewer, ps: seq<Vec2>)
    requires s.pressed && !s.first
    ensures Run(s, Moves(ps)).camera == s.camera + DragRotations([s.prev] + ps, s.dt)
    ensures Run(s, Moves(ps)).pressed && !Run(s, Moves(ps)).first
    ensures ps != [] ==> Run(s, Moves(ps)).prev == ps[|ps| - 1]
    ensures Run(s, Moves(ps)).dt == s.dt
    decreases |ps|
  {
    if ps != [] {
      var s' := Step(s, Moves(ps)[0]);
      assert Moves(ps)[1..] == Moves(ps[1..]);
      DragContinues(s', ps[1..]);
      assert ([s.prev] + ps)[1..] == [s'.prev] + ps[1..];
      if ps[1..] != [] {
        assert ps[1..][|ps[1..]| - 1] == ps[|ps| - 1];
      }
    }
  }

  /**
   * A press of button 1 followed by moves through p0, p1, …, pn makes exactly
   * the rotations p1 - p0, …, pn - p(n-1), all with the current frame time:
   * the first move only seeds the previous position.
   */
  lemma DragRotatesByDeltas(s: Viewer, ps: seq<Vec2>)
    ensures Run(s, [Mouse(ButtonEvent(MouseButton1, Press))] + Moves(ps)).camera
         == s.camera + DragRotations(ps, s.dt)
  {
    var evs := [Mouse(ButtonEvent(MouseButton1, Press))] + Moves(ps);
    var pressed := Step(s, evs[0]);
    assert evs[1..] == Moves(ps);
    if ps != [] {
      var seeded := Step(pressed, evs[1]);
      assert seeded.camera == s.camera && seeded.prev == ps[0];
      assert Moves(ps)[1..] == Moves(ps[1..]);
      DragContinues(seeded, ps[1..]);
      assert [ps[0]] + ps[1..] == ps;
    }
  }

  /** The sum of the rotation deltas in a call log. */
  function TotalRotation(calls: seq<CameraCall>): Vec2
    decreases |calls|
  {
    if calls == [] then Vec2(0, 0)
    else Plus(if calls[0].RotateCall? then calls[0].delta else Vec2(0, 0), TotalRotation(calls[1..]))
  }

  /** The rotations of a drag add up to the last position minus the first. */
  lemma {:induction false} DragTotal(ps: seq<Vec2>, dt: real)
    requires ps != []
    ensures TotalRotation(DragRotations(ps, dt)) == Minus(ps[|ps| - 1], ps[0])
    decreases |ps|
  {
    if |ps| >= 2 {
      DragTotal(ps[1..], dt);
      assert DragRotations(ps, dt)[1..] == DragRotations(ps[1..], dt);
    }
  }

  /**
   * `main`: with fewer than two arguments it writes "Wrong arguments" to the
   * standard output and exits with -1 before creating the application;
   * otherwise the scene file is the first argument and the application runs
   * (not modelled) before exiting with 0. `output` is what reaches the
   * standard output from `main` itself.
   */
  method Launch(argv: seq<string>) returns (exitCode: int, sceneFilename: Option<string>, output: string)
    ensures |argv| < 2 <==> exitCode == -1
    ensures |argv| < 2 ==> sceneFilename == None && output == "Wrong arguments\n"
    ensures |argv| >= 2 ==> exitCode == 0 && sceneFilename == Some(argv[1]) && output == ""
  {
    if |argv| < 2 {
      return -1, None, "Wrong arguments\n";
    }
    sceneFilename := Some(argv[1]);
    exitCode := 0;
    output := "";
  }

  // ------------------------------------------------------------ classes

  /** The camera, reduced to the log of calls that change it. */
  class Camera {
    var calls: seq<CameraCall>

    constructor ()
      ensures calls == []
    {
      calls := [];
    }

    method Rotate(delta: Vec2, dt: real)
      modifies this
      ensures calls == old(calls) + [RotateCall(delta, dt)]
    {
      calls := calls + [RotateCall(delta, dt)];
    }

    method Scale(amount: int, dt: real)
      modifies this
      ensures calls == old(calls) + [ScaleCall(amount, dt)]
    {
      calls := calls + [ScaleCall(amount, dt)];
    }

    /** `getVP()` */
    function GetVP(): ViewProjection
      reads this
    {
      ViewProjection(calls)
    }
  }

  /** The `MeshApp` fields that input handling reads and writes. */
  class MeshApp {
    var isPressed: bool
    var isFirst: bool
    var prevMouse: Vec2
    var dt: real
    /** `_mvpData.mvp` */
    var mvpData: ViewProjection
    /** What the uniform buffer has received: the copy made by `_mvp.create`, then one `_mvp.set` per frame. */
    var uploaded: seq<ViewProjection>
    const camera: Camera

    function State(): Viewer
      reads this, camera
    {
      Viewer(isPressed, isFirst, prevMouse, dt, camera.calls, mvpData, uploaded)
    }

    /**
     * The constructor and the camera set-up of `init` as written: the flags,
     * the previous position and the frame time keep whatever they held.
     */
    constructor AsWritten(pressed: bool, first: bool, prev: Vec2, frameTime: real)
      ensures fresh(camera)
      ensures State() == InitialAsWritten(pressed, first, prev, frameTime)
    {
      camera := new Camera();
      isPressed, isFirst, prevMouse, dt := pressed, first, prev, frameTime;
      new;
      mvpData := camera.GetVP();
      uploaded := [mvpData];
    }

    /** The same with the state initialised: not pressed, no frame time yet. */
    constructor ()
      ensures fresh(camera)
      ensures State() == Initial()
    {
      camera := new Camera();
      isPressed, isFirst, prevMouse, dt := false, false, Vec2(0, 0), 0.0;
      new;
      mvpData := camera.GetVP();
      uploaded := [mvpData];
    }

    method OnMouse(e: MouseEvent)
      modifies this, camera
      ensures State() == MouseStep(old(State()), e)
    {
      match e {
        case ButtonEvent(button, action) =>
          if button == MouseButton1 {
            if action == Press {
              isPressed := true;
              isFirst := true;
            } else {
              isPressed := false;
            }
          }
        case PositionEvent(x, y) =>
          if isPressed {
            if !isFirst {
              var dp := Minus(Vec2(x, y), prevMouse);
              camera.Rotate(dp, dt);
            }
            prevMouse := Vec2(x, y);
            isFirst := false;
          }
      }
      mvpData := camera.GetVP();
    }

    method OnScroll(offset: Vec2)
      modifies camera
      ensures State() == ScrollAsWritten(old(State()), offset)
    {
      camera.Scale(offset.y, dt);
    }

    /** The uniform upload and the frame-time update of `draw`; the clock reading is a parameter. */
    method Draw(elapsed: real)
      modifies this
      ensures State() == FrameStep(old(State()), elapsed)
    {
      uploaded := uploaded + [mvpData];
      dt := elapsed;
    }
  }
}
