/** The input state of Camera.h / Camera.cpp: the mouse-look angles with the
    pitch clamp, the scroll zoom with the field-of-view clamp, the cursor
    bookkeeping of Inputs with its firstClick latch, the key-driven movement and
    the wireframe toggle. Floats are exact reals. The trigonometry that turns
    (pitch, yaw) into a look direction, glm::normalize and the GLFW queries are
    parameters: heading, normalize, and the cursor, button, clock and key
    values passed to Inputs. */
module CameraControl {
  import opened Glm

  // ---- Clamps ----

  const MaxPitch := 89.0
  const MinFov := 1.0
  const MaxFov := 100.0

  /** The two ifs of MouseMovement: above 89 becomes 89, then below -89 becomes -89. */
  function ClampPitch(p: real): (c: real)
    ensures -MaxPitch <= c <= MaxPitch
    ensures -MaxPitch <= p <= MaxPitch ==> c == p
    ensures p > MaxPitch ==> c == MaxPitch
    ensures p < -MaxPitch ==> c == -MaxPitch
  {
    var c := if p > MaxPitch then MaxPitch else p;
    if c < -MaxPitch then -MaxPitch else c
  }

  /** The two ifs of MouseScroll: below 1 becomes 1, then above 100 becomes 100. */
  function ClampFov(f: real): (c: real)
    ensures MinFov <= c <= MaxFov
    ensures MinFov <= f <= MaxFov ==> c == f
    ensures f < MinFov ==> c == MinFov
    ensures f > MaxFov ==> c == MaxFov
  {
    var c := if f < MinFov then MinFov else f;
    if c > MaxFov then MaxFov else c
  }

  /** One mouse-look step of an angle: the offset scaled by the sensitivity is added. */
  function Look(angle: real, offset: real, sensitivity: real): real {
    angle + offset * sensitivity
  }

  /** The field of view after MouseScroll has been called with each vertical
      offset of ys in turn. */
  function ScrollAll(fov: real, ys: seq<real>): real
    decreases |ys|
  {
    if ys == [] then fov
    else ScrollAll(ClampFov(fov - ys[0] * 2.0), ys[1..])
  }

  /** Over any sequence of scrolls the field of view stays in [1, 100] once it
      starts there, and lands there after the first scroll whatever it started at. */
  lemma {:induction false} ScrollAllInRange(fov: real, ys: seq<real>)
    requires (MinFov <= fov <= MaxFov) || ys != []
    ensures MinFov <= ScrollAll(fov, ys) <= MaxFov
    decreases |ys|
  {
    if ys != [] {
      ScrollAllInRange(ClampFov(fov - ys[0] * 2.0), ys[1..]);
    }
  }

  /** The pitch after MouseMovement has been called with each vertical offset of
      ys in turn, at sensitivity s. */
  function PitchAll(pitch: real, s: real, ys: seq<real>): real
    decreases |ys|
  {
    if ys == [] then pitch
    else PitchAll(ClampPitch(Look(pitch, ys[0], s)), s, ys[1..])
  }

  /** The yaw after the same calls: the offsets accumulate with no clamp. */
  function YawAll(yaw: real, s: real, xs: seq<real>): real
    decreases |xs|
  {
    if xs == [] then yaw
    else YawAll(Look(yaw, xs[0], s), s, xs[1..])
  }

  function Sum(xs: seq<real>): real
    decreases |xs|
  {
    if xs == [] then 0.0 else xs[0] + Sum(xs[1..])
  }

  lemma {:induction false} PitchAllInRange(pitch: real, s: real, ys: seq<real>)
    requires (-MaxPitch <= pitch <= MaxPitch) || ys != []
    ensures -MaxPitch <= PitchAll(pitch, s, ys) <= MaxPitch
    decreases |ys|
  {
    if ys != [] {
      PitchAllInRange(ClampPitch(Look(pitch, ys[0], s)), s, ys[1..]);
    }
  }

  /** Yaw is the starting yaw plus the scaled sum of the offsets: it is never
      wrapped or clamped. */
  lemma {:induction false} YawAllSum(yaw: real, s: real, xs: seq<real>)
    ensures YawAll(yaw, s, xs) == yaw + Sum(xs) * s
    decreases |xs|
  {
    if xs != [] {
      YawAllSum(yaw + xs[0] * s, s, xs[1..]);
      assert (xs[0] + Sum(xs[1..])) * s == xs[0] * s + Sum(xs[1..]) * s;
    }
  }

  // ---- Cursor ----

  /** The cursor is outside the window when it is left of, right of, above or
      below the window's width by height rectangle. */
  predicate CursorOutside(mouseX: real, mouseY: real, width: int, height: int) {
    mouseX < 0.0 || mouseX > width as real || mouseY < 0.0 || mouseY > height as real
  }

  datatype CursorShape = Hand | Arrow
  datatype CursorMode = CursorHidden | CursorNormal
  datatype PolygonMode = Fill | Line

  // ---- Movement ----

  /** The keys Inputs polls, true for GLFW_PRESS. */
  datatype Keys = Keys(w: bool, a: bool, s: bool, d: bool, q: bool, e: bool, leftShift: bool)

  /** The net step along one axis whose positive key is pos and negative key
      neg: v, -v, or nothing when both or neither are down. */
  function Axis(pos: bool, neg: bool, v: Vec3): Vec3 {
    if pos == neg then Zero else if pos then v else Neg(v)
  }

  lemma ScaleNeg(k: real, v: Vec3)
    ensures Scale(k, Neg(v)) == Neg(Scale(k, v))
  {
  }

  lemma AxisSplit(pos: bool, neg: bool, v: Vec3)
    ensures Axis(pos, neg, v) == Add(if pos then v else Zero, if neg then Neg(v) else Zero)
  {
  }

  /** `if (key down) Position += v;` */
  function Nudge(p: Vec3, down: bool, v: Vec3): (r: Vec3)
    ensures r == Add(p, if down then v else Zero)
  {
    if down then Add(p, v) else p
  }

  /** `if (key down) Position -= v;` */
  function NudgeBack(p: Vec3, down: bool, v: Vec3): (r: Vec3)
    ensures r == Add(p, if down then Neg(v) else Zero)
  {
    if down then Sub(p, v) else p
  }

  /** Six consecutive additions, regrouped by axis. */
  lemma Regroup(p: Vec3, f1: Vec3, s1: Vec3, f2: Vec3, s2: Vec3, l1: Vec3, l2: Vec3)
    ensures Add(Add(Add(Add(Add(Add(p, f1), s1), f2), s2), l1), l2)
            == Add(p, Add(Add(f1, f2), Add(Add(s1, s2), Add(l1, l2))))
  {
  }

  /** The six ifs of Inputs in order, with the steps already scaled: W adds
      forward, A adds side, S subtracts forward, D adds sideBack (the scaled
      negated side), Q adds lift and E subtracts lift. */
  function Steps(p: Vec3, keys: Keys, forward: Vec3, side: Vec3, sideBack: Vec3, lift: Vec3): (r: Vec3)
    requires sideBack == Neg(side)
    ensures r == Add(p, Add(Axis(keys.w, keys.s, forward), Add(Axis(keys.a, keys.d, side), Axis(keys.q, keys.e, lift))))
  {
    var f1, s1 := if keys.w then forward else Zero, if keys.a then side else Zero;
    var f2, s2 := if keys.s then Neg(forward) else Zero, if keys.d then Neg(side) else Zero;
    var l1, l2 := if keys.q then lift else Zero, if keys.e then Neg(lift) else Zero;
    AxisSplit(keys.w, keys.s, forward);
    AxisSplit(keys.a, keys.d, side);
    AxisSplit(keys.q, keys.e, lift);
    Regroup(p, f1, s1, f2, s2, l1, l2);
    var p1 := Nudge(p, keys.w, forward);
    var p2 := Nudge(p1, keys.a, side);
    var p3 := NudgeBack(p2, keys.s, forward);
    var p4 := Nudge(p3, keys.d, sideBack);
    var p5 := Nudge(p4, keys.q, lift);
    NudgeBack(p5, keys.e, lift)
  }

  /** Inputs' movement at the given speed, side being
      normalize(cross(orientation, up)); left shift is not read. The result is
      the start plus one net step per axis, the step being nothing when both
      keys of the axis are down. */
  function Move(p: Vec3, keys: Keys, speed: real, orientation: Vec3, up: Vec3, side: Vec3): (r: Vec3)
    ensures r == Add(p, Add(Axis(keys.w, keys.s, Scale(speed, orientation)),
                            Add(Axis(keys.a, keys.d, Scale(speed, side)),
                                Axis(keys.q, keys.e, Scale(speed, up)))))
  {
    ScaleNeg(speed, side);
    Steps(p, keys, Scale(speed, orientation), Scale(speed, side), Scale(speed, Neg(side)), Scale(speed, up))
  }

  /** With no key down the camera stays where it is. */
  lemma MoveNoKeys(p: Vec3, speed: real, orientation: Vec3, up: Vec3, side: Vec3, shift: bool)
    ensures Move(p, Keys(false, false, false, false, false, false, shift), speed, orientation, up, side) == p
  {
  }

  /** Opposite keys cancel: W with S, A with D and Q with E each move the
      camera as if neither key of the pair were down. */
  lemma MoveForwardBackCancel(p: Vec3, keys: Keys, speed: real, orientation: Vec3, up: Vec3, side: Vec3)
    ensures Move(p, keys.(w := true, s := true), speed, orientation, up, side)
            == Move(p, keys.(w := false, s := false), speed, orientation, up, side)
  {
  }

  lemma MoveLeftRightCancel(p: Vec3, keys: Keys, speed: real, orientation: Vec3, up: Vec3, side: Vec3)
    ensures Move(p, keys.(a := true, d := true), speed, orientation, up, side)
            == Move(p, keys.(a := false, d := false), speed, orientation, up, side)
  {
  }

  lemma MoveUpDownCancel(p: Vec3, keys: Keys, speed: real, orientation: Vec3, up: Vec3, side: Vec3)
    ensures Move(p, keys.(q := true, e := true), speed, orientation, up, side)
            == Move(p, keys.(q := false, e := false), speed, orientation, up, side)
  {
  }

  /** Left shift changes nothing: the base speed it sets is never read again. */
  lemma MoveIgnoresShift(p: Vec3, keys: Keys, speed: real, orientation: Vec3, up: Vec3, side: Vec3)
    ensures Move(p, keys.(leftShift := true), speed, orientation, up, side)
            == Move(p, keys.(leftShift := false), speed, orientation, up, side)
  {
  }

  /** W alone moves the camera by speed along its orientation, Q alone by speed along up. */
  lemma MoveSingleKeys(p: Vec3, speed: real, orientation: Vec3, up: Vec3, side: Vec3)
    ensures Move(p, Keys(true, false, false, false, false, false, false), speed, orientation, up, side)
            == Add(p, Scale(speed, orientation))
    ensures Move(p, Keys(false, false, false, false, true, false, false), speed, orientation, up, side)
            == Add(p, Scale(speed, up))
    ensures Move(p, Keys(false, true, false, false, false, false, false), speed, orientation, up, side)
            == Add(p, Scale(speed, side))
  {
  }

  // ---- The camera ----

  class Camera {
    var windowWidth: int
    var windowHeight: int
    var position: Vec3
    var orientation: Vec3
    var up: Vec3
    var front: Vec3
    var firstMouse: bool
    var firstClick: bool
    var lastX: real
    var lastY: real
    var pitch: real
    var yaw: real
    var fov: real
    var sensitivity: real
    var lastFrameTime: real
    var deltaTime: real
    var currentFrameTime: real
    var cursor: CursorShape
    var cursorMode: CursorMode
    /** KeyButtonCallback's function-static WireFrameEnabled and the polygon mode it sets. */
    var wireFrameEnabled: bool
    var polygonMode: PolygonMode

    /** The angles and the field of view are inside their clamps. */
    predicate InRange()
      reads this
    {
      -MaxPitch <= pitch <= MaxPitch && MinFov <= fov <= MaxFov
    }

    /** Camera(width, height, position) with the member initialisers of Camera.h. */
    constructor (width: int, height: int, pos: Vec3)
      ensures windowWidth == width && windowHeight == height && position == pos
      ensures lastX == width as real / 2.0 && lastY == height as real / 2.0
      ensures fov == 45.0 && pitch == 0.0 && yaw == -90.0 && sensitivity == 0.1
      ensures firstClick && firstMouse
      ensures orientation == Vec3(0.0, 0.0, -1.0) && up == Vec3(0.0, 1.0, 0.0) && front == Zero
      ensures lastFrameTime == 0.0 && deltaTime == 0.0 && currentFrameTime == 0.0
      ensures !wireFrameEnabled && polygonMode == Fill
      ensures InRange()
    {
      windowWidth := width;
      windowHeight := height;
      position := pos;
      orientation := Vec3(0.0, 0.0, -1.0);
      up := Vec3(0.0, 1.0, 0.0);
      front := Zero;
      firstMouse := true;
      firstClick := true;
      lastX := width as real / 2.0;
      lastY := height as real / 2.0;
      pitch := 0.0;
      yaw := -90.0;
      fov := 45.0;
      sensitivity := 0.1;
      lastFrameTime := 0.0;
      deltaTime := 0.0;
      currentFrameTime := 0.0;
      cursor := Arrow;
      cursorMode := CursorNormal;
      wireFrameEnabled := false;
      polygonMode := Fill;
    }

    /** Scales the offsets by the sensitivity, adds them to yaw and pitch,
        clamps the pitch and recomputes the look direction. heading(pitch, yaw)
        stands for the cos/sin formula of front. */
    method MouseMovement(xoffset: real, yoffset: real, heading: (real, real) -> Vec3, normalize: Vec3 -> Vec3)
      modifies this`yaw, this`pitch, this`front, this`orientation
      ensures yaw == Look(old(yaw), xoffset, sensitivity)
      ensures pitch == ClampPitch(Look(old(pitch), yoffset, sensitivity))
      ensures -MaxPitch <= pitch <= MaxPitch
      ensures front == heading(pitch, yaw) && orientation == normalize(front)
      ensures old(InRange()) ==> InRange()
    {
      var dx := xoffset * sensitivity;
      var dy := yoffset * sensitivity;
      yaw := yaw + dx;
      pitch := pitch + dy;
      if pitch > MaxPitch {
        pitch := MaxPitch;
      }
      if pitch < -MaxPitch {
        pitch := -MaxPitch;
      }
      front := heading(pitch, yaw);
      orientation := normalize(front);
    }

    /** Zooms by twice the vertical scroll offset, clamped to [1, 100]. */
    method MouseScroll(xoffset: real, yoffset: real)
      modifies this`fov
      ensures fov == ClampFov(old(fov) - yoffset * 2.0)
      ensures MinFov <= fov <= MaxFov
      ensures old(InRange()) ==> InRange()
    {
      fov := fov - yoffset * 2.0;
      if fov < MinFov {
        fov := MinFov;
      }
      if fov > MaxFov {
        fov := MaxFov;
      }
    }

    /** One call of Inputs: (mouseX, mouseY) is glfwGetCursorPos, leftPressed
        the left button state (GLFW_PRESS or GLFW_RELEASE), now glfwGetTime and
        keys the polled keys. The offsets are taken against the previous cursor
        position even on the first frame of a drag. */
    method Inputs(mouseX: real, mouseY: real, leftPressed: bool, now: real, keys: Keys,
                  heading: (real, real) -> Vec3, normalize: Vec3 -> Vec3)
      modifies this`lastX, this`lastY, this`cursor, this`cursorMode, this`firstClick
      modifies this`yaw, this`pitch, this`front, this`orientation
      modifies this`currentFrameTime, this`deltaTime, this`lastFrameTime, this`position
      ensures lastX == mouseX && lastY == mouseY
      ensures cursor == if 0.0 <= mouseX <= windowWidth as real && 0.0 <= mouseY <= windowHeight as real
                        then Hand else Arrow
      ensures firstClick == !leftPressed
      ensures cursorMode == if leftPressed then CursorHidden else CursorNormal
      ensures leftPressed ==>
                && yaw == Look(old(yaw), mouseX - old(lastX), sensitivity)
                && pitch == ClampPitch(Look(old(pitch), old(lastY) - mouseY, sensitivity))
                && front == heading(pitch, yaw) && orientation == normalize(front)
      ensures !leftPressed ==>
                yaw == old(yaw) && pitch == old(pitch) && front == old(front) && orientation == old(orientation)
      ensures currentFrameTime == now && deltaTime == now - old(lastFrameTime) && lastFrameTime == now
      ensures position == Move(old(position), keys, deltaTime, orientation, up, normalize(Cross(orientation, up)))
    {
      ghost var start := position;
      var xoffset, yoffset := TrackCursor(mouseX, mouseY);
      HandleButton(mouseX, mouseY, leftPressed, xoffset, yoffset, heading, normalize);
      Tick(now);
      assert position == start;
      Walk(keys, normalize);
    }

    /** The first part of Inputs: the offsets from the previous cursor position,
        the new previous position, and the cursor shape. */
    method TrackCursor(mouseX: real, mouseY: real) returns (xoffset: real, yoffset: real)
      modifies this`lastX, this`lastY, this`cursor
      ensures xoffset == mouseX - old(lastX) && yoffset == old(lastY) - mouseY
      ensures lastX == mouseX && lastY == mouseY
      ensures cursor == if 0.0 <= mouseX <= windowWidth as real && 0.0 <= mouseY <= windowHeight as real
                        then Hand else Arrow
    {
      xoffset := mouseX - lastX;
      yoffset := lastY - mouseY;
      lastX := mouseX;
      lastY := mouseY;
      if CursorOutside(mouseX, mouseY, windowWidth, windowHeight) {
        cursor := Arrow;
      } else {
        cursor := Hand;
      }
    }

    /** The left-button part of Inputs: a press hides the cursor, clears the
        firstClick latch (resetting the previous position to the cursor) and
        turns the camera; a release shows the cursor and sets the latch again. */
    method HandleButton(mouseX: real, mouseY: real, leftPressed: bool, xoffset: real, yoffset: real,
                        heading: (real, real) -> Vec3, normalize: Vec3 -> Vec3)
      requires lastX == mouseX && lastY == mouseY
      modifies this`lastX, this`lastY, this`cursorMode, this`firstClick
      modifies this`yaw, this`pitch, this`front, this`orientation
      ensures lastX == mouseX && lastY == mouseY
      ensures firstClick == !leftPressed
      ensures cursorMode == if leftPressed then CursorHidden else CursorNormal
      ensures leftPressed ==>
                && yaw == Look(old(yaw), xoffset, sensitivity)
                && pitch == ClampPitch(Look(old(pitch), yoffset, sensitivity))
                && front == heading(pitch, yaw) && orientation == normalize(front)
      ensures !leftPressed ==>
                yaw == old(yaw) && pitch == old(pitch) && front == old(front) && orientation == old(orientation)
    {
      if leftPressed {
        cursorMode := CursorHidden;
        if firstClick {
          lastX := mouseX;
          lastY := mouseY;
          firstClick := false;
        }
        MouseMovement(xoffset, yoffset, heading, normalize);
      } else {
        cursorMode := CursorNormal;
        firstClick := true;
      }
    }

    /** The frame clock of Inputs: deltaTime is the time since the previous call. */
    method Tick(now: real)
      modifies this`currentFrameTime, this`deltaTime, this`lastFrameTime
      ensures currentFrameTime == now && deltaTime == now - old(lastFrameTime) && lastFrameTime == now
    {
      currentFrameTime := now;
      deltaTime := currentFrameTime - lastFrameTime;
      lastFrameTime := currentFrameTime;
    }

    /** The key part of Inputs: speed is the base speed 1 times deltaTime. */
    method Walk(keys: Keys, normalize: Vec3 -> Vec3)
      modifies this`position
      ensures position == Move(old(position), keys, deltaTime, orientation, up, normalize(Cross(orientation, up)))
    {
      var baseSpeed := 1.0;
      var speed := baseSpeed * deltaTime;
      assert speed == deltaTime;
      var side := normalize(Cross(orientation, up));
      ScaleNeg(speed, side);
      position := Steps(position, keys, Scale(speed, orientation), Scale(speed, side),
                        Scale(speed, Neg(side)), Scale(speed, up));
    }

    /** GLFW_PRESS of GLFW_KEY_L flips the wireframe flag and sets the polygon
        mode to match; every other key or action changes nothing. */
    method KeyButtonCallback(key: int, scancode: int, action: int, mods: int)
      modifies this`wireFrameEnabled, this`polygonMode
      ensures wireFrameEnabled == (if action == GlfwPress && key == GlfwKeyL then !old(wireFrameEnabled) else old(wireFrameEnabled))
      ensures action == GlfwPress && key == GlfwKeyL ==> polygonMode == (if wireFrameEnabled then Line else Fill)
      ensures !(action == GlfwPress && key == GlfwKeyL) ==> polygonMode == old(polygonMode)
    {
      if action == GlfwPress {
        if key == GlfwKeyL {
          wireFrameEnabled := !wireFrameEnabled;
          if wireFrameEnabled {
            polygonMode := Line;
          } else {
            polygonMode := Fill;
          }
        }
      }
    }
  }

  const GlfwPress := 1
  const GlfwKeyL := 76
}
