// The key handling of main.cpp's event loop: playback speed and pause, the
// zoom shown in the overlay, and the camera. Each event changes this state
// in place; the functions below say what one event does, and the class
// Session holds the state the loop mutates.
module Controls {
  import opened Graphics
  import opened Objects
  import opened Simulator

  datatype Key = Equal | Hyphen | Slash | Space | W | A | S | D | Comma | Period | OtherKey

  datatype Event = Closed | KeyReleased(key: Key) | KeyPressed(key: Key) | OtherEvent

  /** sf::View: where the camera looks and how much of the world it shows. */
  datatype Camera = Camera(center: Vec2, size: Vec2)

  /** sf::View::zoom: the view's size is multiplied by the factor. */
  function ZoomCamera(c: Camera, factor: real): Camera {
    c.(size := Scale(factor, c.size))
  }

  /** sf::View::move: the view's center is shifted. */
  function MoveCamera(c: Camera, dx: real, dy: real): Camera {
    c.(center := Add(c.center, Vec2(dx, dy)))
  }

  /** Everything the key handlers read and write. */
  datatype Playback = Playback(
    deltaTime: real,
    paused: bool,
    previousDeltaTime: real,
    zoom: real,
    camera: Camera)

  /** How far W, A, S and D move the camera. */
  const Speed: real := 100000.0

  /** The zoom main sets before the loop starts (meters per pixel). */
  const InitialZoom: real := 780625.0

  /** The state when the event loop starts, for a window of the given size. */
  function Start(window: Vec2): Playback {
    Playback(10.0, false, 10.0, InitialZoom, ZoomCamera(Camera(Zero, window), InitialZoom))
  }

  /** A key released: zoom in or out, reset the speed, or toggle pause. */
  function Released(s: Playback, k: Key): Playback {
    match k
    case Equal => s.(camera := ZoomCamera(s.camera, 0.75), zoom := s.zoom * 0.75)
    case Hyphen => s.(camera := ZoomCamera(s.camera, 1.25), zoom := s.zoom * 1.25)
    case Slash => s.(deltaTime := 0.5)
    case Space =>
      if s.paused then s.(deltaTime := s.previousDeltaTime, paused := false)
      else s.(previousDeltaTime := s.deltaTime, deltaTime := 0.0, paused := true)
    case _ => s
  }

  /** A key pressed: move the camera, or slow down or speed up by half a second. */
  function Pressed(s: Playback, k: Key): Playback {
    match k
    case W => s.(camera := MoveCamera(s.camera, 0.0, -Speed))
    case S => s.(camera := MoveCamera(s.camera, 0.0, Speed))
    case A => s.(camera := MoveCamera(s.camera, -Speed, 0.0))
    case D => s.(camera := MoveCamera(s.camera, Speed, 0.0))
    case Comma =>
      var slower := s.deltaTime - 0.5;
      s.(deltaTime := if slower < 0.5 then 0.0 else slower)
    case Period => s.(deltaTime := s.deltaTime + 0.5)
    case _ => s
  }

  /** One event of the loop. Closing the window changes none of this state. */
  function Handle(s: Playback, e: Event): Playback {
    match e
    case KeyReleased(k) => Released(s, k)
    case KeyPressed(k) => Pressed(s, k)
    case _ => s
  }

  /** A sequence of events, handled in order. */
  function Run(s: Playback, events: seq<Event>): Playback
    decreases |events|
  {
    if events == [] then s else Run(Handle(s, events[0]), events[1..])
  }

  /** A non-negative whole number of half seconds. */
  predicate OnHalfSecondGrid(t: real) {
    t >= 0.0 && (2.0 * t).Floor as real == 2.0 * t
  }

  /** The playback invariant: both speeds are non-negative multiples of 0.5. */
  predicate SpeedsOnGrid(s: Playback) {
    OnHalfSecondGrid(s.deltaTime) && OnHalfSecondGrid(s.previousDeltaTime)
  }

  /** The overlay's zoom is the factor the camera has been zoomed by. */
  predicate ZoomTracksCamera(s: Playback, window: Vec2) {
    s.camera.size == Scale(s.zoom, window)
  }

  lemma StartIsValid(window: Vec2)
    ensures SpeedsOnGrid(Start(window)) && ZoomTracksCamera(Start(window), window)
    ensures !Start(window).paused
  {
  }

  /** Half a second more or less stays on the grid. */
  lemma HalfStep(t: real)
    requires OnHalfSecondGrid(t)
    ensures OnHalfSecondGrid(t + 0.5)
    ensures t >= 0.5 ==> OnHalfSecondGrid(t - 0.5)
  {
  }

  /** Every event keeps both speeds non-negative multiples of 0.5. */
  lemma HandleKeepsSpeedsOnGrid(s: Playback, e: Event)
    requires SpeedsOnGrid(s)
    ensures SpeedsOnGrid(Handle(s, e))
  {
    HalfStep(s.deltaTime);
    assert OnHalfSecondGrid(0.5) by {
      assert (2.0 * 0.5).Floor == 1;
    }
    assert OnHalfSecondGrid(0.0) by {
      assert (2.0 * 0.0).Floor == 0;
    }
  }

  /** Every event keeps the overlay's zoom equal to the camera's zoom factor. */
  lemma HandleKeepsZoomTracking(s: Playback, e: Event, window: Vec2)
    requires ZoomTracksCamera(s, window)
    ensures ZoomTracksCamera(Handle(s, e), window)
  {
  }

  /**
   * From the start, any sequence of events leaves deltaTime (and the saved
   * previousDeltaTime) a non-negative multiple of 0.5, and the overlay's zoom
   * equal to the camera's.
   */
  lemma {:induction false} RunKeepsInvariants(s: Playback, events: seq<Event>, window: Vec2)
    requires SpeedsOnGrid(s) && ZoomTracksCamera(s, window)
    ensures SpeedsOnGrid(Run(s, events)) && ZoomTracksCamera(Run(s, events), window)
    decreases |events|
  {
    if events != [] {
      HandleKeepsSpeedsOnGrid(s, events[0]);
      HandleKeepsZoomTracking(s, events[0], window);
      RunKeepsInvariants(Handle(s, events[0]), events[1..], window);
    }
  }

  /** Comma never makes deltaTime negative: it steps down by 0.5 or stops at 0. */
  lemma CommaNeverNegative(s: Playback)
    ensures var r := Pressed(s, Comma);
      r.deltaTime >= 0.0 &&
      (r.deltaTime == 0.0 <==> s.deltaTime < 1.0) &&
      (r.deltaTime != 0.0 ==> r.deltaTime == s.deltaTime - 0.5)
  {
  }

  /** Space while running saves the speed and stops; Space while paused restores it. */
  lemma SpaceToggles(s: Playback)
    ensures var r := Released(s, Space);
      r.paused == !s.paused &&
      (s.paused ==> r.deltaTime == s.previousDeltaTime && r.previousDeltaTime == s.previousDeltaTime) &&
      (!s.paused ==> r.deltaTime == 0.0 && r.previousDeltaTime == s.deltaTime) &&
      r.zoom == s.zoom && r.camera == s.camera
  {
  }

  /**
   * Two Space releases give back the speed and pause state from before the
   * first, unless the simulation was paused while running (see below).
   */
  lemma SpaceTwiceRestores(s: Playback)
    requires !s.paused || s.deltaTime == 0.0
    ensures var r := Released(Released(s, Space), Space);
      r.deltaTime == s.deltaTime && r.paused == s.paused && r.zoom == s.zoom && r.camera == s.camera
  {
  }

  /**
   * Paused does not mean stopped: after Space, a Slash sets the speed to 0.5
   * while `paused` stays set, and the next Space brings back the speed saved
   * at the pause, not 0.5.
   */
  lemma PausedButRunning(window: Vec2)
    ensures var r := Run(Start(window), [KeyReleased(Space), KeyReleased(Slash)]);
      r.paused && r.deltaTime == 0.5 &&
      Released(r, Space).deltaTime == 10.0 && !Released(r, Space).paused &&
      Released(Released(r, Space), Space).deltaTime == 0.0
  {
  }

  /** Period and Slash change only deltaTime. */
  lemma SpeedKeysTouchOnlySpeed(s: Playback)
    ensures Pressed(s, Period) == s.(deltaTime := s.deltaTime + 0.5)
    ensures Released(s, Slash) == s.(deltaTime := 0.5)
  {
  }

  /** W, A, S and D move the camera's center by Speed along one axis and change nothing else. */
  lemma CameraKeysOnlyMoveCamera(s: Playback, k: Key)
    requires k == W || k == A || k == S || k == D
    ensures var r := Pressed(s, k);
      r.deltaTime == s.deltaTime && r.paused == s.paused &&
      r.previousDeltaTime == s.previousDeltaTime && r.zoom == s.zoom &&
      r.camera.size == s.camera.size &&
      var d := Sub(r.camera.center, s.camera.center);
      (d.x == 0.0 && (d.y == Speed || d.y == -Speed)) || (d.y == 0.0 && (d.x == Speed || d.x == -Speed))
  {
  }

  /**
   * The state main's event loop mutates: the program's speed and zoom, the
   * pause flag and saved speed, and the camera view.
   */
  class Session {
    const program: Program
    const window: Vec2
    var paused: bool
    var previousDeltaTime: real
    var camera: Camera

    function State(): Playback
      reads this, program
    {
      Playback(program.deltaTime, paused, previousDeltaTime, program.zoom, camera)
    }

    ghost predicate Valid()
      reads this, program
    {
      program.Valid() && SpeedsOnGrid(State()) && ZoomTracksCamera(State(), window)
    }

    /**
     * main's set-up: the window-sized camera at the origin, the program
     * built, its zoom set to 780625 and the camera zoomed by as much.
     */
    constructor (width: real, height: real, toString: real -> seq<Byte>)
      ensures fresh(program)
      ensures window == Vec2(width, height)
      ensures State() == Start(window)
      ensures Valid()
      ensures program.objects == InitialObjects && program.cameraFocus == None
    {
      window := Vec2(width, height);
      var view := Camera(Zero, Vec2(width, height));
      program := new Program(toString);
      paused := false;
      new;
      program.zoom := 780625.0;
      camera := ZoomCamera(view, program.zoom);
      previousDeltaTime := program.deltaTime;
      StartIsValid(window);
    }

    /** Equal, released: zoom in. */
    method ReleaseEqual()
      requires Valid()
      modifies this, program`zoom
      ensures Valid() && State() == Released(old(State()), Equal)
    {
      HandleKeepsZoomTracking(State(), KeyReleased(Equal), window);
      camera := ZoomCamera(camera, 0.75);
      program.zoom := program.zoom * 0.75;
    }

    /** Hyphen, released: zoom out. */
    method ReleaseHyphen()
      requires Valid()
      modifies this, program`zoom
      ensures Valid() && State() == Released(old(State()), Hyphen)
    {
      HandleKeepsZoomTracking(State(), KeyReleased(Hyphen), window);
      camera := ZoomCamera(camera, 1.25);
      program.zoom := program.zoom * 1.25;
    }

    /** Slash, released: half a second per frame. */
    method ReleaseSlash()
      requires Valid()
      modifies program`deltaTime
      ensures Valid() && State() == Released(old(State()), Slash)
    {
      HandleKeepsSpeedsOnGrid(State(), KeyReleased(Slash));
      program.deltaTime := 0.5;
    }

    /** Space, released: pause or resume. */
    method ReleaseSpace()
      requires Valid()
      modifies this, program`deltaTime
      ensures Valid() && State() == Released(old(State()), Space)
    {
      HandleKeepsSpeedsOnGrid(State(), KeyReleased(Space));
      if paused {
        program.deltaTime := previousDeltaTime;
        paused := false;
      } else {
        previousDeltaTime := program.deltaTime;
        program.deltaTime := 0.0;
        paused := true;
      }
    }

    /** W, S, A or D, pressed: move the camera. */
    method PressMove(k: Key)
      requires Valid() && (k == W || k == S || k == A || k == D)
      modifies this
      ensures Valid() && State() == Pressed(old(State()), k)
    {
      match k
      case W => camera := MoveCamera(camera, 0.0, -Speed);
      case S => camera := MoveCamera(camera, 0.0, Speed);
      case A => camera := MoveCamera(camera, -Speed, 0.0);
      case D => camera := MoveCamera(camera, Speed, 0.0);
    }

    /** Comma, pressed: half a second slower, stopping at 0. */
    method PressComma()
      requires Valid()
      modifies program`deltaTime
      ensures Valid() && State() == Pressed(old(State()), Comma)
    {
      HandleKeepsSpeedsOnGrid(State(), KeyPressed(Comma));
      program.deltaTime := program.deltaTime - 0.5;
      if program.deltaTime < 0.5 {
        program.deltaTime := 0.0;
      }
    }

    /** Period, pressed: half a second faster. */
    method PressPeriod()
      requires Valid()
      modifies program`deltaTime
      ensures Valid() && State() == Pressed(old(State()), Period)
    {
      HandleKeepsSpeedsOnGrid(State(), KeyPressed(Period));
      program.deltaTime := program.deltaTime + 0.5;
    }

    /** One polled event, dispatched as main's switch does. */
    method HandleEvent(e: Event)
      requires Valid()
      modifies this, program`deltaTime, program`zoom
      ensures Valid() && State() == Handle(old(State()), e)
    {
      match e
      case KeyReleased(k) =>
        match k {
          case Equal => ReleaseEqual();
          case Hyphen => ReleaseHyphen();
          case Slash => ReleaseSlash();
          case Space => ReleaseSpace();
          case _ =>
        }
      case KeyPressed(k) =>
        match k {
          case W => PressMove(k);
          case S => PressMove(k);
          case A => PressMove(k);
          case D => PressMove(k);
          case Comma => PressComma();
          case Period => PressPeriod();
          case _ =>
        }
      case _ =>
    }
  }
}
