/** Per-frame keyboard handling (UProcessInput, main.cpp:371-406) and the globals it and
    the renderer update: the window's close flag, the ortho/perspective toggle, the lamp
    orbit flag and the two light positions. Polling GLFW is foreign: each frame's input is
    which of the polled keys are held down in that frame. The camera is foreign too: the
    model returns the movements handed to gCamera.ProcessKeyboard, in order. */
module Scene {
  import opened Glm

  /** For each key UProcessInput polls, whether glfwGetKey reports it pressed. */
  datatype Keys = Keys(escape: bool, w: bool, s: bool, a: bool, d: bool, e: bool, q: bool,
                       p: bool, l: bool, k: bool)

  /** The directions of Camera::ProcessKeyboard. */
  datatype Movement = Forward | Backward | Left | Right | Up | Down

  /** Whether the key that moves the camera in direction m is held. */
  function Held(keys: Keys, m: Movement): bool {
    match m
    case Forward => keys.w
    case Backward => keys.s
    case Left => keys.a
    case Right => keys.d
    case Up => keys.e
    case Down => keys.q
  }

  /** The position of each movement key in UProcessInput's polling order. */
  function Rank(m: Movement): nat {
    match m
    case Forward => 0
    case Backward => 1
    case Left => 2
    case Right => 3
    case Up => 4
    case Down => 5
  }

  function If(c: bool, m: Movement): seq<Movement> {
    if c then [m] else []
  }

  /** The camera movements of one frame (main.cpp:378-389). */
  function Movements(keys: Keys): (m: seq<Movement>)
    ensures |m| <= 6
    ensures forall x :: x in m ==> Held(keys, x)
  {
    If(keys.w, Forward) + If(keys.s, Backward) + If(keys.a, Left)
    + If(keys.d, Right) + If(keys.e, Up) + If(keys.q, Down)
  }

  /** The direction polled at each rank. */
  function Direction(rank: nat): (m: Movement)
    requires rank < 6
    ensures Rank(m) == rank
  {
    [Forward, Backward, Left, Right, Up, Down][rank]
  }

  /** The movements among the first n polled whose key is held, in polling order. */
  function Polled(keys: Keys, n: nat): seq<Movement>
    requires n <= 6
  {
    if n == 0 then [] else Polled(keys, n - 1) + If(Held(keys, Direction(n - 1)), Direction(n - 1))
  }

  /** Listed by strictly increasing polling rank, so none twice. */
  predicate Ascending(r: seq<Movement>) {
    forall i, j :: 0 <= i < j < |r| ==> Rank(r[i]) < Rank(r[j])
  }

  /** Polling the first n directions keeps exactly those whose key is held. */
  lemma {:induction false} PolledMembers(keys: Keys, n: nat)
    requires n <= 6
    ensures forall m :: m in Polled(keys, n) <==> Rank(m) < n && Held(keys, m)
  {
    if n > 0 {
      PolledMembers(keys, n - 1);
      forall m | Rank(m) == n - 1 ensures m == Direction(n - 1) {
        RankDetermines(m, Direction(n - 1));
      }
    }
  }

  lemma RankDetermines(m: Movement, m': Movement)
    requires Rank(m) == Rank(m')
    ensures m == m'
  {
  }

  /** Polling lists the held directions by increasing rank. */
  lemma {:induction false} PolledAscending(keys: Keys, n: nat)
    requires n <= 6
    ensures Ascending(Polled(keys, n))
  {
    if n > 0 {
      PolledAscending(keys, n - 1);
      PolledMembers(keys, n - 1);
      var init := Polled(keys, n - 1);
      var r := Polled(keys, n);
      forall i, j | 0 <= i < j < |r| ensures Rank(r[i]) < Rank(r[j]) {
        assert r[i] == init[i];
        if j < |init| {
          assert r[j] == init[j];
        } else {
          assert r[i] in init && r[j] == Direction(n - 1);
        }
      }
    }
  }

  /** The six polls of UProcessInput are the polling of all six directions. */
  lemma MovementsArePolled(keys: Keys)
    ensures Movements(keys) == Polled(keys, 6)
  {
    assert Polled(keys, 1) == If(keys.w, Forward);
    assert Polled(keys, 2) == Polled(keys, 1) + If(keys.s, Backward);
    assert Polled(keys, 3) == Polled(keys, 2) + If(keys.a, Left);
    assert Polled(keys, 4) == Polled(keys, 3) + If(keys.d, Right);
    assert Polled(keys, 5) == Polled(keys, 4) + If(keys.e, Up);
    assert Polled(keys, 6) == Polled(keys, 5) + If(keys.q, Down);
  }

  /** The camera moves in every direction whose key is held and in no other, once each,
      in the order W, S, A, D, E, Q. */
  lemma MovementsInPollingOrder(keys: Keys)
    ensures forall m :: m in Movements(keys) <==> Held(keys, m)
    ensures Ascending(Movements(keys))
  {
    MovementsArePolled(keys);
    PolledMembers(keys, 6);
    PolledAscending(keys, 6);
  }

  /** The flags the key handler changes. */
  datatype Toggles = Toggles(shouldClose: bool, ortho: bool, orbiting: bool)

  /** The flags at start-up (main.cpp:58, main.cpp:85): perspective view, lamps still. */
  const InitialToggles := Toggles(false, false, false)

  /** One call of UProcessInput on the flags (main.cpp:375-376, main.cpp:391-405).
      Escape sets the close flag; P flips the projection on every frame it is held;
      L starts the orbit only when it is stopped, and K stops it only when it runs. */
  function Step(t: Toggles, keys: Keys): (n: Toggles)
    ensures n.shouldClose <==> t.shouldClose || keys.escape
    ensures n.ortho != t.ortho <==> keys.p
    ensures n.orbiting != t.orbiting <==> (if t.orbiting then keys.k else keys.l)
  {
    var shouldClose := if keys.escape then true else t.shouldClose;
    var ortho := if keys.p then !t.ortho else t.ortho;
    var orbiting :=
      if keys.l && !t.orbiting then true
      else if keys.k && t.orbiting then false
      else t.orbiting;
    Toggles(shouldClose, ortho, orbiting)
  }

  /** The flags after a run of frames, one set of keys per frame. The fold goes on past
      a frame that sets the close flag, but the render loop (main.cpp:285) stops there,
      so the frames after it do not happen in the program; every property proved over
      all runs covers the runs it makes. */
  function Run(t: Toggles, frames: seq<Keys>): (n: Toggles)
    ensures t.shouldClose ==> n.shouldClose
    ensures (forall i :: 0 <= i < |frames| ==> !frames[i].escape && !frames[i].p && !frames[i].l && !frames[i].k) ==> n == t
    decreases |frames|
  {
    if frames == [] then t else Run(Step(t, frames[0]), frames[1..])
  }

  /** The number of frames in which P is held. */
  function CountP(frames: seq<Keys>): (n: nat)
    ensures n <= |frames|
  {
    if frames == [] then 0 else (if frames[0].p then 1 else 0) + CountP(frames[1..])
  }

  /** P held in two consecutive frames gives back the projection it started with. */
  lemma PTwiceRestores(t: Toggles, first: Keys, second: Keys)
    requires first.p && second.p
    ensures Step(Step(t, first), second).ortho == t.ortho
  {
  }

  /** Over any run, the projection is toggled once per frame in which P is held, so it
      ends up flipped exactly when P was held in an odd number of frames. */
  lemma {:induction false} OrthoParity(t: Toggles, frames: seq<Keys>)
    ensures Run(t, frames).ortho == (t.ortho != (CountP(frames) % 2 == 1))
    decreases |frames|
  {
    if frames != [] {
      OrthoParity(Step(t, frames[0]), frames[1..]);
    }
  }

  /** Once the close flag is set no key clears it: after a run it is set exactly when it
      was set before or Escape was held in some frame. */
  lemma {:induction false} CloseIsSticky(t: Toggles, frames: seq<Keys>)
    ensures Run(t, frames).shouldClose <==> t.shouldClose || exists i :: 0 <= i < |frames| && frames[i].escape
    decreases |frames|
  {
    if frames != [] {
      CloseIsSticky(Step(t, frames[0]), frames[1..]);
      if exists i :: 0 <= i < |frames[1..]| && frames[1..][i].escape {
        var i :| 0 <= i < |frames[1..]| && frames[1..][i].escape;
        assert frames[i + 1].escape;
      }
      if exists i :: 0 <= i < |frames| && frames[i].escape {
        var i :| 0 <= i < |frames| && frames[i].escape;
        if i > 0 {
          assert frames[1..][i - 1].escape;
        }
      }
    }
  }

  /** In a run in which neither L nor K is ever held, the orbit flag never changes. */
  lemma {:induction false} OrbitNeedsLOrK(t: Toggles, frames: seq<Keys>)
    requires forall i :: 0 <= i < |frames| ==> !frames[i].l && !frames[i].k
    ensures Run(t, frames).orbiting == t.orbiting
    decreases |frames|
  {
    if frames != [] {
      assert !frames[0].l && !frames[0].k;
      forall i | 0 <= i < |frames[1..]| ensures !frames[1..][i].l && !frames[1..][i].k {
        assert frames[1..][i] == frames[i + 1];
      }
      OrbitNeedsLOrK(Step(t, frames[0]), frames[1..]);
    }
  }

  /** With L and K both held, the orbit flag flips: L starts a stopped orbit, K stops a
      running one. */
  lemma LAndKTogetherFlip(t: Toggles, keys: Keys)
    requires keys.l && keys.k
    ensures Step(t, keys).orbiting == !t.orbiting
  {
  }

  /** The orbit keys never touch the projection, the close flag or the camera. */
  lemma OrbitKeysIgnoreOthers(t: Toggles, keys: Keys)
    ensures Step(t, keys).ortho == Step(t, keys.(l := false, k := false)).ortho
    ensures Step(t, keys).shouldClose == Step(t, keys.(l := false, k := false)).shouldClose
    ensures Movements(keys) == Movements(keys.(l := false, k := false))
  {
  }

  /** Escape sets the close flag and changes nothing else. */
  lemma EscapeOnlyCloses(t: Toggles, keys: Keys)
    ensures Step(t, keys.(escape := true)) == Step(t, keys).(shouldClose := true)
    ensures Movements(keys.(escape := true)) == Movements(keys)
  {
  }

  // ---------------------------------------------------------------------------
  // The lamp orbit (main.cpp:487-501)

  /** One frame's orbit step: while orbiting, a light turns about the Y axis by the
      frame's rotation; otherwise it stays put. */
  function Orbit(orbiting: bool, spin: Rotation, p: Vec3): (q: Vec3)
    ensures q.y == p.y
  {
    if orbiting then RotateY(spin, p) else p
  }

  /** Where the two lights start and stay: 3.25 above the floor, 2.5 from the Y axis, and
      on opposite sides of it. */
  predicate LampsOpposite(light: Vec3, fill: Vec3) {
    && light.y == 3.25
    && AxisDistanceSquared(light) == 6.25
    && fill == Vec3(-light.x, light.y, -light.z)
  }

  /** Both lights turn by the same rotation, so an orbit step keeps them on their circle
      and opposite each other, whether or not orbiting is on. */
  lemma OrbitKeepsLampsOpposite(orbiting: bool, spin: Rotation, light: Vec3, fill: Vec3)
    requires IsRotation(spin) && LampsOpposite(light, fill)
    ensures LampsOpposite(Orbit(orbiting, spin, light), Orbit(orbiting, spin, fill))
  {
    if orbiting {
      RotateYKeepsOrbit(spin, light);
      RotateYMirror(spin, light);
    }
  }

  /** The program's globals that the key handler and the renderer update. */
  class SceneState {
    var shouldClose: bool        // glfwWindowShouldClose(gWindow)
    var ortho: bool              // ortho
    var lampOrbiting: bool       // gIsLampOrbiting
    var lightPosition: Vec3      // gLightPosition
    var fillLightPosition: Vec3  // gFillLightPosition

    function Flags(): Toggles
      reads this
    {
      Toggles(shouldClose, ortho, lampOrbiting)
    }

    /** The globals at start-up (main.cpp:58, main.cpp:78-85). */
    constructor ()
      ensures Flags() == InitialToggles
      ensures lightPosition == Vec3(0.0, 3.25, 2.5)
      ensures fillLightPosition == Vec3(0.0, 3.25, -2.5)
      ensures LampsOpposite(lightPosition, fillLightPosition)
    {
      shouldClose, ortho, lampOrbiting := false, false, false;
      lightPosition := Vec3(0.0, 3.25, 2.5);
      fillLightPosition := Vec3(0.0, 3.25, -2.5);
    }

    /** UProcessInput: react to the keys held in this frame. */
    method ProcessInput(keys: Keys) returns (moves: seq<Movement>)
      modifies this
      ensures Flags() == Step(old(Flags()), keys)
      ensures moves == Movements(keys)
      ensures lightPosition == old(lightPosition) && fillLightPosition == old(fillLightPosition)
    {
      if keys.escape {
        shouldClose := true;
      }
      moves := PollMovements(keys);
      if keys.p {
        if !ortho {
          ortho := true;
        } else {
          ortho := false;
        }
      }
      if keys.l && !lampOrbiting {
        lampOrbiting := true;
      } else if keys.k && lampOrbiting {
        lampOrbiting := false;
      }
    }

    /** The start of URender: while orbiting, both lights turn by this frame's rotation
        about the Y axis. */
    method OrbitLamps(spin: Rotation)
      modifies this
      ensures lightPosition == Orbit(old(lampOrbiting), spin, old(lightPosition))
      ensures fillLightPosition == Orbit(old(lampOrbiting), spin, old(fillLightPosition))
      ensures Flags() == old(Flags())
    {
      if lampOrbiting {
        lightPosition := RotateY(spin, lightPosition);
        fillLightPosition := RotateY(spin, fillLightPosition);
      }
    }

    /** The camera polls of UProcessInput (main.cpp:378-389). */
    static method PollMovements(keys: Keys) returns (moves: seq<Movement>)
      ensures moves == Movements(keys)
    {
      moves := [];
      if keys.w {
        moves := moves + [Forward];
      }
      ghost var polled := If(keys.w, Forward);
      assert moves == polled;
      if keys.s {
        moves := moves + [Backward];
      }
      polled := polled + If(keys.s, Backward);
      assert moves == polled;
      if keys.a {
        moves := moves + [Left];
      }
      polled := polled + If(keys.a, Left);
      assert moves == polled;
      if keys.d {
        moves := moves + [Right];
      }
      polled := polled + If(keys.d, Right);
      assert moves == polled;
      if keys.e {
        moves := moves + [Up];
      }
      polled := polled + If(keys.e, Up);
      assert moves == polled;
      if keys.q {
        moves := moves + [Down];
      }
    }
  }
}
