/** The first-person controls of the launcher: key events set a forward
    and a strafe speed from a fixed key table, mouse motion turns the
    camera (yaw without bound, pitch only while it stays in [-1.7, 1.7]),
    and each frame moves the camera by the current speeds. Numbers are
    exact rationals. */
module CameraControls {

  /** Forward speed while "z" (forward) or "s" (backward) is held. */
  const ForwardStep: real := 0.15
  /** Strafe speed while "d" (right) or "q" (left) is held. */
  const StraffeStep: real := 0.075
  /** Bound of the pitch, on both sides, inclusive. */
  const PitchLimit: real := 1.7
  /** Mouse units per radian of rotation. */
  const MouseScale: real := 1000.0

  /** The two speeds the key handlers set. */
  datatype Speeds = Speeds(forward: real, straffe: real)

  /** A key edge, carrying the event's key name. */
  datatype KeyEvent = KeyDown(key: string) | KeyUp(key: string)

  /** Camera orientation: `yaw` is `rotation.y`, `pitch` is `rotation.x`. */
  datatype Look = Look(yaw: real, pitch: real)

  /** One mouse-motion event: `movementX`, `movementY`. */
  datatype MouseDelta = MouseDelta(dx: int, dy: int)

  /** Camera position. */
  datatype Position = Position(x: real, y: real, z: real)

  /** Speeds before any key event. */
  function Still(): Speeds
  {
    Speeds(0.0, 0.0)
  }

  /** Orientation set up before the first event. */
  function InitialLook(): Look
  {
    Look(0.2, 0.2)
  }

  /** The keys that drive the forward axis. */
  predicate ForwardKey(key: string)
  {
    key == "z" || key == "s"
  }

  /** The keys that drive the strafe axis. */
  predicate StraffeKey(key: string)
  {
    key == "q" || key == "d"
  }

  /** The values each speed can take. */
  predicate AllowedSpeeds(s: Speeds)
  {
    (s.forward == ForwardStep || s.forward == -ForwardStep || s.forward == 0.0) &&
    (s.straffe == StraffeStep || s.straffe == -StraffeStep || s.straffe == 0.0)
  }

  /** Pitch inside [-1.7, 1.7], bounds included. */
  predicate InPitchRange(pitch: real)
  {
    -PitchLimit <= pitch <= PitchLimit
  }

  /** `keyDowned`: a forward key sets only the forward speed, a strafe key
      only the strafe speed, to ±0.15 and ±0.075; any other key is ignored. */
  function OnKeyDown(s: Speeds, key: string): (r: Speeds)
    ensures !ForwardKey(key) ==> r.forward == s.forward
    ensures !StraffeKey(key) ==> r.straffe == s.straffe
    ensures ForwardKey(key) ==> r.forward == (if key == "z" then ForwardStep else -ForwardStep)
    ensures StraffeKey(key) ==> r.straffe == (if key == "d" then StraffeStep else -StraffeStep)
  {
    if key == "z" then s.(forward := ForwardStep)
    else if key == "s" then s.(forward := -ForwardStep)
    else if key == "q" then s.(straffe := -StraffeStep)
    else if key == "d" then s.(straffe := StraffeStep)
    else s
  }

  /** `keyUpped`: releasing either forward key stops the forward axis and
      releasing either strafe key stops the strafe axis, whatever the other
      key of the pair is doing; any other key is ignored. */
  function OnKeyUp(s: Speeds, key: string): (r: Speeds)
    ensures ForwardKey(key) ==> r.forward == 0.0 && r.straffe == s.straffe
    ensures StraffeKey(key) ==> r.straffe == 0.0 && r.forward == s.forward
    ensures !ForwardKey(key) && !StraffeKey(key) ==> r == s
  {
    if key == "z" || key == "s" then s.(forward := 0.0)
    else if key == "q" || key == "d" then s.(straffe := 0.0)
    else s
  }

  /** One key event. */
  function OnKey(s: Speeds, e: KeyEvent): Speeds
  {
    match e
    case KeyDown(key) => OnKeyDown(s, key)
    case KeyUp(key) => OnKeyUp(s, key)
  }

  /** The key events `events`, in order, from `s`. */
  function ReplayKeys(s: Speeds, events: seq<KeyEvent>): Speeds
  {
    if events == [] then s
    else OnKey(ReplayKeys(s, events[..|events| - 1]), events[|events| - 1])
  }

  /** The events of `events` whose key drives the forward axis. */
  function ForwardEvents(events: seq<KeyEvent>): (f: seq<KeyEvent>)
    ensures forall i :: 0 <= i < |f| ==> ForwardKey(f[i].key)
  {
    if events == [] then []
    else
      var last := events[|events| - 1];
      ForwardEvents(events[..|events| - 1]) + (if ForwardKey(last.key) then [last] else [])
  }

  /** The events of `events` whose key drives the strafe axis. */
  function StraffeEvents(events: seq<KeyEvent>): (f: seq<KeyEvent>)
    ensures forall i :: 0 <= i < |f| ==> StraffeKey(f[i].key)
  {
    if events == [] then []
    else
      var last := events[|events| - 1];
      StraffeEvents(events[..|events| - 1]) + (if StraffeKey(last.key) then [last] else [])
  }

  /** Under any sequence of key events the speeds keep to the key table's
      values, so from a standstill the forward speed is one of 0.15, -0.15,
      0 and the strafe speed one of 0.075, -0.075, 0. */
  lemma {:induction false} SpeedsStayAllowed(s: Speeds, events: seq<KeyEvent>)
    requires AllowedSpeeds(s)
    ensures AllowedSpeeds(ReplayKeys(s, events))
  {
    if events != [] {
      SpeedsStayAllowed(s, events[..|events| - 1]);
    }
  }

  /** After a forward-key event the forward speed no longer depends on the
      state before; after any other event it is the one before. */
  lemma ForwardAfterEvent(before: Speeds, other: Speeds, e: KeyEvent)
    ensures ForwardKey(e.key) ==> OnKey(before, e).forward == OnKey(other, e).forward
    ensures !ForwardKey(e.key) ==> OnKey(before, e).forward == before.forward
  {
  }

  /** The same for the strafe axis. */
  lemma StraffeAfterEvent(before: Speeds, other: Speeds, e: KeyEvent)
    ensures StraffeKey(e.key) ==> OnKey(before, e).straffe == OnKey(other, e).straffe
    ensures !StraffeKey(e.key) ==> OnKey(before, e).straffe == before.straffe
  {
  }

  /** The forward speed depends only on the forward keys' events. */
  lemma {:induction false} ForwardIndependent(s: Speeds, events: seq<KeyEvent>)
    ensures ReplayKeys(s, events).forward == ReplayKeys(s, ForwardEvents(events)).forward
  {
    if events != [] {
      var init, last := events[..|events| - 1], events[|events| - 1];
      ForwardIndependent(s, init);
      var f := ForwardEvents(init);
      ForwardAfterEvent(ReplayKeys(s, init), ReplayKeys(s, f), last);
      if ForwardKey(last.key) {
        assert ForwardEvents(events) == f + [last];
        assert (f + [last])[..|f|] == f;
      } else {
        assert ForwardEvents(events) == f;
      }
    }
  }

  /** The strafe speed depends only on the strafe keys' events. */
  lemma {:induction false} StraffeIndependent(s: Speeds, events: seq<KeyEvent>)
    ensures ReplayKeys(s, events).straffe == ReplayKeys(s, StraffeEvents(events)).straffe
  {
    if events != [] {
      var init, last := events[..|events| - 1], events[|events| - 1];
      StraffeIndependent(s, init);
      var g := StraffeEvents(init);
      StraffeAfterEvent(ReplayKeys(s, init), ReplayKeys(s, g), last);
      if StraffeKey(last.key) {
        assert StraffeEvents(events) == g + [last];
        assert (g + [last])[..|g|] == g;
      } else {
        assert StraffeEvents(events) == g;
      }
    }
  }

  /** Whatever happened before, releasing a forward key leaves the forward
      speed at 0 and releasing a strafe key leaves the strafe speed at 0,
      even when the other key of the pair was pressed later and is held. */
  lemma ReleaseStopsAxis(s: Speeds, events: seq<KeyEvent>, key: string)
    ensures ForwardKey(key) ==> ReplayKeys(s, events + [KeyUp(key)]).forward == 0.0
    ensures StraffeKey(key) ==> ReplayKeys(s, events + [KeyUp(key)]).straffe == 0.0
  {
  }

  /** "z" down, "q" down, then "z" up: forward motion stops, strafing
      to the left goes on. */
  lemma ForwardThenLeftThenReleaseForward()
    ensures ReplayKeys(Still(), [KeyDown("z"), KeyDown("q")]) == Speeds(ForwardStep, -StraffeStep)
    ensures ReplayKeys(Still(), [KeyDown("z"), KeyDown("q"), KeyUp("z")]) == Speeds(0.0, -StraffeStep)
  {
  }

  /** `mouseMoved`: yaw decreases by `dx / 1000` without bound; the pitch
      takes `pitch - dy / 1000` only when that stays in [-1.7, 1.7], and is
      otherwise left as it was. */
  function OnMouseMove(l: Look, d: MouseDelta): (r: Look)
    ensures r.yaw == l.yaw - d.dx as real / MouseScale
    ensures r.pitch == l.pitch || r.pitch == l.pitch - d.dy as real / MouseScale
    ensures InPitchRange(l.pitch) ==> InPitchRange(r.pitch)
  {
    var candidate := l.pitch - d.dy as real / MouseScale;
    Look(l.yaw - d.dx as real / MouseScale,
         if candidate <= PitchLimit && candidate >= -PitchLimit then candidate else l.pitch)
  }

  /** A rejected pitch update is dropped, not saturated: the pitch moves
      exactly when the candidate lies in range (and differs from it). */
  lemma PitchRejectedNotSaturated(l: Look, d: MouseDelta)
    ensures var candidate := l.pitch - d.dy as real / MouseScale;
      (InPitchRange(candidate) ==> OnMouseMove(l, d).pitch == candidate) &&
      (!InPitchRange(candidate) ==> OnMouseMove(l, d).pitch == l.pitch) &&
      (OnMouseMove(l, d).pitch != l.pitch <==> d.dy != 0 && InPitchRange(candidate))
  {
  }

  /** The mouse events `moves`, in order, from `l`. */
  function ReplayMouse(l: Look, moves: seq<MouseDelta>): Look
  {
    if moves == [] then l
    else OnMouseMove(ReplayMouse(l, moves[..|moves| - 1]), moves[|moves| - 1])
  }

  /** The sum of the horizontal deltas of `moves`. */
  function SumDx(moves: seq<MouseDelta>): int
  {
    if moves == [] then 0 else SumDx(moves[..|moves| - 1]) + moves[|moves| - 1].dx
  }

  /** Under any sequence of mouse events a pitch in range stays in range;
      in particular from the initial pitch 0.2. */
  lemma {:induction false} PitchStaysInRange(l: Look, moves: seq<MouseDelta>)
    requires InPitchRange(l.pitch)
    ensures InPitchRange(ReplayMouse(l, moves).pitch)
  {
    if moves != [] {
      PitchStaysInRange(l, moves[..|moves| - 1]);
    }
  }

  /** Yaw is neither clamped nor wrapped: after any sequence of mouse events
      it is the starting yaw minus the total horizontal motion / 1000. */
  lemma {:induction false} YawIsTotalMotion(l: Look, moves: seq<MouseDelta>)
    ensures ReplayMouse(l, moves).yaw == l.yaw - SumDx(moves) as real / MouseScale
  {
    if moves != [] {
      YawIsTotalMotion(l, moves[..|moves| - 1]);
    }
  }

  /** One frame of `moveCamera`, given the cosine and sine of the current
      yaw: the camera moves by the raw speeds, not scaled by elapsed time. */
  function MoveCamera(p: Position, s: Speeds, cosYaw: real, sinYaw: real): (r: Position)
    ensures r.y == p.y
  {
    Position(p.x + cosYaw * s.straffe - sinYaw * s.forward,
             p.y,
             p.z + -sinYaw * s.straffe - cosYaw * s.forward)
  }

  /** When `cosYaw` and `sinYaw` are the cosine and sine of one angle, each
      frame moves the camera, in the horizontal plane, by a distance whose
      square is `forward^2 + straffe^2`, whatever the yaw; with both speeds
      0 it does not move. */
  lemma StepLength(p: Position, s: Speeds, cosYaw: real, sinYaw: real)
    requires cosYaw * cosYaw + sinYaw * sinYaw == 1.0
    ensures var r := MoveCamera(p, s, cosYaw, sinYaw);
      (r.x - p.x) * (r.x - p.x) + (r.z - p.z) * (r.z - p.z) ==
      s.forward * s.forward + s.straffe * s.straffe
    ensures s == Still() ==> MoveCamera(p, s, cosYaw, sinYaw) == p
  {
  }

  /** The camera and the speed state the event handlers share. */
  class CameraController {
    var forwardSpeed: real
    var straffeSpeed: real
    /** `camera.rotation.y` */
    var yaw: real
    /** `camera.rotation.x` */
    var pitch: real
    /** `camera.position` */
    var x: real
    var y: real
    var z: real

    function CurrentSpeeds(): Speeds
      reads this
    {
      Speeds(forwardSpeed, straffeSpeed)
    }

    function CurrentLook(): Look
      reads this
    {
      Look(yaw, pitch)
    }

    function CurrentPosition(): Position
      reads this
    {
      Position(x, y, z)
    }

    /** Speeds keep to the key table and the pitch is in range. */
    ghost predicate Valid()
      reads this
    {
      AllowedSpeeds(CurrentSpeeds()) && InPitchRange(pitch)
    }

    /** The state `initScene` sets up: the camera at (-1.5, 1.7, 1.5) with
        yaw and pitch 0.2. The speeds are globals that start at 0 and that the
        key handlers may already have changed before the camera exists, so
        they are given; they keep to the key table. */
    constructor (speeds: Speeds)
      requires AllowedSpeeds(speeds)
      ensures Valid()
      ensures CurrentSpeeds() == speeds && CurrentLook() == InitialLook()
      ensures CurrentPosition() == Position(-1.5, 1.7, 1.5)
    {
      forwardSpeed, straffeSpeed := speeds.forward, speeds.straffe;
      x, y, z := -1.5, 1.7, 1.5;
      yaw, pitch := 0.2, 0.2;
    }

    /** `keyDowned` */
    method KeyDowned(key: string)
      modifies this
      ensures CurrentSpeeds() == OnKeyDown(old(CurrentSpeeds()), key)
      ensures CurrentLook() == old(CurrentLook()) && CurrentPosition() == old(CurrentPosition())
      ensures old(Valid()) ==> Valid()
    {
      if key == "z" {
        forwardSpeed := ForwardStep;
      } else if key == "s" {
        forwardSpeed := -ForwardStep;
      } else if key == "q" {
        straffeSpeed := -StraffeStep;
      } else if key == "d" {
        straffeSpeed := StraffeStep;
      }
    }

    /** `keyUpped` */
    method KeyUpped(key: string)
      modifies this
      ensures CurrentSpeeds() == OnKeyUp(old(CurrentSpeeds()), key)
      ensures CurrentLook() == old(CurrentLook()) && CurrentPosition() == old(CurrentPosition())
      ensures old(Valid()) ==> Valid()
    {
      if key == "z" || key == "s" {
        forwardSpeed := 0.0;
      } else if key == "q" || key == "d" {
        straffeSpeed := 0.0;
      }
    }

    /** `mouseMoved` */
    method MouseMoved(dx: int, dy: int)
      modifies this
      ensures CurrentLook() == OnMouseMove(old(CurrentLook()), MouseDelta(dx, dy))
      ensures CurrentSpeeds() == old(CurrentSpeeds()) && CurrentPosition() == old(CurrentPosition())
      ensures old(Valid()) ==> Valid()
    {
      yaw := yaw - dx as real / MouseScale;
      var next := pitch - dy as real / MouseScale;
      if next <= PitchLimit && next >= -PitchLimit {
        pitch := next;
      }
    }

    /** `moveCamera`, with the cosine and sine of the current yaw supplied
        by the caller, so that `StepLength` applies to every step. */
    method Move(cosYaw: real, sinYaw: real)
      requires cosYaw * cosYaw + sinYaw * sinYaw == 1.0
      modifies this
      ensures CurrentPosition() == MoveCamera(old(CurrentPosition()), CurrentSpeeds(), cosYaw, sinYaw)
      ensures CurrentSpeeds() == old(CurrentSpeeds()) && CurrentLook() == old(CurrentLook())
      ensures old(Valid()) ==> Valid()
    {
      x := x + cosYaw * straffeSpeed - sinYaw * forwardSpeed;
      z := z + -sinYaw * straffeSpeed - cosYaw * forwardSpeed;
    }
  }
}
