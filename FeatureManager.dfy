/** The per-feature records of the sliding-window feature manager: one observation of a
    feature in one frame (FeaturePerFrame), and the track of one feature across the
    window (FeaturePerId) in the state a new track starts in. */
module FeatureManager {
  import opened Algebra

  /** A pair of reals (Eigen's Vector2d). */
  datatype Vec2 = Vec2(x: real, y: real)

  /** The triangulation state of a track, stored in `solve_flag` as 0, 1 or 2. */
  datatype SolveState = Unsolved | Solved | Failed

  datatype Option<T> = None | Some(value: T)

  /** The integer `solve_flag` value for a state. */
  function Code(st: SolveState): (c: int)
    ensures 0 <= c <= 2
    ensures c == 0 <==> st == Unsolved
  {
    match st
    case Unsolved => 0
    case Solved => 1
    case Failed => 2
  }

  /** The state a `solve_flag` value stands for; values other than 0, 1 and 2 stand for
      none. */
  function StateOf(c: int): (r: Option<SolveState>)
    ensures r.Some? <==> 0 <= c <= 2
  {
    if c == 0 then Some(Unsolved)
    else if c == 1 then Some(Solved)
    else if c == 2 then Some(Failed)
    else None
  }

  /** Decoding the code of a state gives the state. */
  lemma StateOfCode(st: SolveState)
    ensures StateOf(Code(st)) == Some(st)
  {
    match st
    case Unsolved =>
    case Solved =>
    case Failed =>
  }

  /** Every valid code is the code of the state it decodes to, so the three states and the
      three codes are in one-to-one correspondence. */
  lemma CodeOfState(c: int)
    requires StateOf(c).Some?
    ensures Code(StateOf(c).value) == c
  {
  }

  /** Distinct states have distinct codes. */
  lemma CodeInjective(a: SolveState, b: SolveState)
    requires Code(a) == Code(b)
    ensures a == b
  {
    StateOfCode(a);
    StateOfCode(b);
  }

  /** The 7-vector an observation is built from: normalised point (3), pixel
      coordinates (2), pixel velocity (2). */
  function ObservationVector(point: Vec3, uv: Vec2, velocity: Vec2): (x: Vector)
    ensures |x| == 7
  {
    Flat(point) + [uv.x, uv.y, velocity.x, velocity.y]
  }

  /** One observation of a feature in one frame. */
  class FeaturePerFrame {
    var curTd: real
    var point: Vec3
    var uv: Vec2
    var velocity: Vec2

    /** The 7-vector this observation holds. */
    function Packed(): (x: Vector)
      reads this
      ensures |x| == 7
    {
      ObservationVector(point, uv, velocity)
    }

    /** Entries 0-2 become the normalised point, 3-4 the pixel coordinates, 5-6 the pixel
        velocity, and td the time offset; packing the record again gives the vector back. */
    constructor (observation: Vector, td: real)
      requires |observation| == 7
      ensures point == Vec3(observation[0], observation[1], observation[2])
      ensures uv == Vec2(observation[3], observation[4])
      ensures velocity == Vec2(observation[5], observation[6])
      ensures curTd == td
      ensures Packed() == observation
    {
      point := Vec3(observation[0], observation[1], observation[2]);
      uv := Vec2(observation[3], observation[4]);
      velocity := Vec2(observation[5], observation[6]);
      curTd := td;
      new;
      assert Packed() == [observation[0], observation[1], observation[2], observation[3],
                          observation[4], observation[5], observation[6]];
    }
  }

  /** The depth of a track whose depth has not been estimated yet. */
  const UnsetDepth: real := -1.0

  /** The track of one feature across the sliding window. */
  class FeaturePerId {
    const featureId: int
    var startFrame: int
    var featurePerFrame: seq<FeaturePerFrame>
    var usedNum: int
    var estimatedDepth: real
    var solveFlag: int

    /** The track's triangulation state, when `solve_flag` holds a valid code. */
    function Solve(): Option<SolveState>
      reads this
    {
      StateOf(solveFlag)
    }

    /** A new track: the given id and start frame, not used by any frame yet, depth unset,
        not triangulated. */
    constructor (featureId: int, startFrame: int)
      ensures this.featureId == featureId && this.startFrame == startFrame
      ensures featurePerFrame == []
      ensures usedNum == 0
      ensures estimatedDepth == UnsetDepth
      ensures solveFlag == Code(Unsolved) && Solve() == Some(Unsolved)
    {
      this.featureId := featureId;
      this.startFrame := startFrame;
      featurePerFrame := [];
      usedNum := 0;
      estimatedDepth := UnsetDepth;
      solveFlag := 0;
    }
  }
}
