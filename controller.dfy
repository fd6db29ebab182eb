/**
 * The ray tracing controller component: its fields and the engine hooks
 * that change them. Each hook's effect is the one the session functions
 * describe; the GPU calls between the state changes are not modelled.
 */
module Controller {
  import opened Wrappers
  import opened Scene
  import opened Dispatch
  import opened Session
  import opened Ints

  class RayTracingController {
    /** The serialized scene settings. */
    const config: Config

    /** `_currentSample`: frames accumulated into the render target. */
    var currentSample: uint32

    /** `_renderTexture`: the size of the render target, if one has been allocated. */
    var renderTexture: Option<Dims>

    /** `transform.hasChanged` of the camera, set by the engine when the camera moves. */
    var cameraChanged: bool

    /** `_directionalLight.transform.hasChanged`, set by the engine when the light moves. */
    var lightChanged: bool

    /** The spheres uploaded to `_sphereBuffer`, once a scene has been set up. */
    var sphereBuffer: Option<seq<Sphere>>

    /** The controller's fields as one value. */
    function Snapshot(): Session.State
      reads this
    {
      Session.State(currentSample, renderTexture, cameraChanged, lightChanged, sphereBuffer)
    }

    /** A fresh component: counter 0, no render target, no scene yet. */
    constructor (config: Config, cameraChanged: bool, lightChanged: bool)
      ensures this.config == config
      ensures Snapshot() == Session.State(0, None, cameraChanged, lightChanged, None)
    {
      this.config := config;
      currentSample := 0;
      renderTexture := None;
      this.cameraChanged := cameraChanged;
      this.lightChanged := lightChanged;
      sphereBuffer := None;
    }

    /** `OnEnable`: restart the counter and generate a new scene from the supplied draws. */
    method OnEnable(draws: seq<Draw>)
      requires |draws| >= config.maxSpheres
      modifies this
      ensures Snapshot() == Session.Enable(old(Snapshot()), config, draws)
      ensures currentSample == 0 && PairwiseSeparated(sphereBuffer.value)
    {
      currentSample := 0;
      SetupScene(draws);
    }

    /** `SetupScene`: run the rejection loop and upload the kept spheres. */
    method SetupScene(draws: seq<Draw>)
      requires |draws| >= config.maxSpheres
      modifies this`sphereBuffer
      ensures sphereBuffer == Some(Generate(config, draws[..config.maxSpheres]))
      ensures |sphereBuffer.value| <= config.maxSpheres && PairwiseSeparated(sphereBuffer.value)
    {
      var spheres := GenerateScene(config, draws);
      sphereBuffer := Some(spheres);
    }

    /** `Update`: restart the accumulation when the camera or the light has moved. */
    method Update()
      modifies this`currentSample, this`cameraChanged, this`lightChanged
      ensures Snapshot() == Session.Update(old(Snapshot()))
      ensures !cameraChanged && !lightChanged
    {
      if cameraChanged || lightChanged {
        currentSample := 0;
        cameraChanged := false;
        lightChanged := false;
      }
    }

    /** `InitRenderTexture`: (re)allocate the target when it is missing or sized differently from the screen. */
    method InitRenderTexture(screenWidth: nat, screenHeight: nat)
      modifies this`renderTexture, this`currentSample
      ensures Snapshot() == Session.InitRenderTexture(old(Snapshot()), screenWidth, screenHeight)
      ensures renderTexture == Some(Dims(screenWidth, screenHeight))
    {
      if renderTexture.None? || renderTexture.value.width != screenWidth || renderTexture.value.height != screenHeight {
        renderTexture := Some(Dims(screenWidth, screenHeight));
        currentSample := 0;
      }
    }

    /**
     * `Render`: fit the target, dispatch the tracing kernel over the tile
     * grid, blend with the current counter and count the frame. Returns what
     * is passed to the GPU.
     */
    method Render(screenWidth: nat, screenHeight: nat) returns (frame: Frame)
      modifies this`renderTexture, this`currentSample
      ensures (Snapshot(), frame) == Session.Render(old(Snapshot()), screenWidth, screenHeight)
      ensures renderTexture == Some(Dims(screenWidth, screenHeight))
      ensures currentSample == (frame.sample + 1) % SampleModulus
    {
      InitRenderTexture(screenWidth, screenHeight);

      var threadGroupX := ThreadGroups(screenWidth, TileWidth);
      var threadGroupY := ThreadGroups(screenHeight, TileHeight);

      frame := Frame(threadGroupX, threadGroupY, currentSample);
      currentSample := Increment(currentSample);
    }
  }
}
