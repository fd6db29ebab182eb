/**
 * The controller's render state and the effect of each engine hook on it,
 * as functions of the state before the hook. The accumulation protocol
 * rests on one counter: the blend shader receives the number of frames
 * already accumulated into the render target, and the counter restarts at
 * 0 whenever what was accumulated no longer matches the view.
 */
module Session {
  import opened Wrappers
  import opened Scene
  import opened Dispatch
  import opened Ints

  /** `_currentSample` is a `uint`: its arithmetic is modulo 2^32. */
  const SampleModulus: int := UInt32Limit

  /** `_currentSample++`: unsigned increment, wrapping to 0 after the largest value. */
  function Increment(n: uint32): (r: uint32)
    ensures r == (n + 1) % SampleModulus
  {
    if n == SampleModulus - 1 then 0 else n + 1
  }

  /** Width and height of the render target. */
  datatype Dims = Dims(width: nat, height: nat)

  /**
   * The controller's fields: the sample counter, the render target (absent
   * until first allocated), the `hasChanged` flags of the camera and light
   * transforms, and the contents of the sphere buffer (absent until the
   * scene is first set up).
   */
  datatype State = State(
    currentSample: uint32,
    renderTexture: Option<Dims>,
    cameraChanged: bool,
    lightChanged: bool,
    sphereBuffer: Option<seq<Sphere>>)

  /** What one rendered frame hands to the GPU: the dispatch grid and the blend's `_sample`. */
  datatype Frame = Frame(groupsX: nat, groupsY: nat, sample: uint32)

  /** `OnEnable`: restart the counter and set up a new scene. */
  function Enable(s: State, cfg: Config, draws: seq<Draw>): (r: State)
    requires |draws| >= cfg.maxSpheres
    ensures r.currentSample == 0
    ensures r.sphereBuffer == Some(Generate(cfg, draws[..cfg.maxSpheres]))
    ensures |r.sphereBuffer.value| <= cfg.maxSpheres && PairwiseSeparated(r.sphereBuffer.value)
    ensures r.renderTexture == s.renderTexture
    ensures r.cameraChanged == s.cameraChanged && r.lightChanged == s.lightChanged
  {
    GenerateSeparated(cfg, draws[..cfg.maxSpheres]);
    s.(currentSample := 0, sphereBuffer := Some(Generate(cfg, draws[..cfg.maxSpheres])))
  }

  /**
   * `Update`: a moved camera or light restarts the accumulation and the
   * change is acknowledged; afterwards neither flag is set.
   */
  function Update(s: State): (r: State)
    ensures !r.cameraChanged && !r.lightChanged
    ensures r.currentSample == if s.cameraChanged || s.lightChanged then 0 else s.currentSample
    ensures r.renderTexture == s.renderTexture && r.sphereBuffer == s.sphereBuffer
  {
    if s.cameraChanged || s.lightChanged then
      s.(currentSample := 0, cameraChanged := false, lightChanged := false)
    else
      s
  }

  /**
   * `InitRenderTexture`: afterwards a target of exactly the screen's size
   * exists; the counter restarts exactly when the target had to be
   * (re)allocated, and a target that already fits is kept.
   */
  function InitRenderTexture(s: State, width: nat, height: nat): (r: State)
    ensures r.renderTexture == Some(Dims(width, height))
    ensures r.currentSample == if s.renderTexture == Some(Dims(width, height)) then s.currentSample else 0
    ensures r.cameraChanged == s.cameraChanged && r.lightChanged == s.lightChanged
    ensures r.sphereBuffer == s.sphereBuffer
  {
    if s.renderTexture.None? || s.renderTexture.value.width != width || s.renderTexture.value.height != height then
      s.(renderTexture := Some(Dims(width, height)), currentSample := 0)
    else
      s
  }

  /** The counter value a frame rendered at the given size blends with. */
  function StartSample(s: State, width: nat, height: nat): uint32
  {
    InitRenderTexture(s, width, height).currentSample
  }

  /**
   * `Render`: fit the target to the screen, dispatch a grid covering it,
   * blend with the counter as it is after the fit, then count the frame.
   */
  function Render(s: State, width: nat, height: nat): (r: (State, Frame))
    ensures r.0.renderTexture == Some(Dims(width, height))
    ensures r.1.sample == if s.renderTexture == Some(Dims(width, height)) then s.currentSample else 0
    ensures r.0.currentSample == (r.1.sample + 1) % SampleModulus
    ensures r.1.groupsX * TileWidth >= width && (r.1.groupsX - 1) * TileWidth < width
    ensures r.1.groupsY * TileHeight >= height && (r.1.groupsY - 1) * TileHeight < height
    ensures r.0.cameraChanged == s.cameraChanged && r.0.lightChanged == s.lightChanged
    ensures r.0.sphereBuffer == s.sphereBuffer
  {
    var fitted := InitRenderTexture(s, width, height);
    var frame := Frame(ThreadGroups(width, TileWidth), ThreadGroups(height, TileHeight), fitted.currentSample);
    (fitted.(currentSample := Increment(fitted.currentSample)), frame)
  }

  /** `k` frames rendered one after another at a fixed screen size, with nothing else happening. */
  function RenderFrames(s: State, width: nat, height: nat, k: nat): (State, seq<Frame>)
  {
    if k == 0 then (s, [])
    else
      var (t, frames) := RenderFrames(s, width, height, k - 1);
      var (u, frame) := Render(t, width, height);
      (u, frames + [frame])
  }

  /** Wrapping increments compose: counting once more after `j` counts is counting `j + 1`. */
  lemma IncrementAfter(start: int, j: nat)
    ensures ((start + j) % SampleModulus + 1) % SampleModulus == (start + j + 1) % SampleModulus
  {
    var n := start + j;
    var q := n / SampleModulus;
    assert n == q * SampleModulus + n % SampleModulus;
    assert n + 1 == q * SampleModulus + (n % SampleModulus + 1);
  }

  /**
   * Progressive accumulation at a fixed screen size: the j-th frame blends
   * with the starting counter plus j, and after k frames the counter has
   * advanced by exactly k (modulo 2^32) and the target fits the screen.
   */
  lemma {:induction false} SteadyRendering(s: State, width: nat, height: nat, k: nat)
    ensures var (t, frames) := RenderFrames(s, width, height, k);
      && |frames| == k
      && (forall j :: 0 <= j < k ==> frames[j].sample == (StartSample(s, width, height) + j) % SampleModulus)
      && (k > 0 ==> t.renderTexture == Some(Dims(width, height)))
      && (k > 0 ==> t.currentSample == (StartSample(s, width, height) + k) % SampleModulus)
  {
    if k > 0 {
      SteadyRendering(s, width, height, k - 1);
      var start := StartSample(s, width, height);
      var (t, frames) := RenderFrames(s, width, height, k - 1);
      var (u, frame) := Render(t, width, height);
      assert RenderFrames(s, width, height, k) == (u, frames + [frame]);
      if k - 1 == 0 {
        assert t == s;
        assert frame.sample == start;
      } else {
        assert frame.sample == (start + (k - 1)) % SampleModulus;
      }
      IncrementAfter(start, k - 1);
      assert u.currentSample == (start + k) % SampleModulus;
    }
  }

  /**
   * From a counter of 0 (after `OnEnable` or a reset) the j-th frame blends
   * with j and after k frames the counter equals k, whether or not the first
   * frame had to reallocate the target.
   */
  lemma {:induction false} CounterCountsFrames(s: State, width: nat, height: nat, k: nat)
    requires s.currentSample == 0
    ensures var (t, frames) := RenderFrames(s, width, height, k);
      && |frames| == k
      && (forall j :: 0 <= j < k ==> frames[j].sample == j % SampleModulus)
      && t.currentSample == k % SampleModulus
  {
    SteadyRendering(s, width, height, k);
  }

  /** A moved camera or light, or a resized screen, makes the next frame start a fresh average. */
  lemma AccumulationRestarts(s: State, width: nat, height: nat)
    ensures (s.cameraChanged || s.lightChanged) ==>
      Render(Update(s), width, height).1.sample == 0 && Render(Update(s), width, height).0.currentSample == 1
    ensures s.renderTexture != Some(Dims(width, height)) ==>
      Render(Update(s), width, height).1.sample == 0 && Render(s, width, height).1.sample == 0
  {
  }

  /** Acknowledging transform changes twice is the same as once. */
  lemma UpdateIdempotent(s: State)
    ensures Update(Update(s)) == Update(s)
  {
  }

  /** Fitting the target twice to one size is the same as once: the second fit keeps target and counter. */
  lemma InitRenderTextureIdempotent(s: State, width: nat, height: nat)
    ensures InitRenderTexture(InitRenderTexture(s, width, height), width, height) == InitRenderTexture(s, width, height)
  {
  }
}
