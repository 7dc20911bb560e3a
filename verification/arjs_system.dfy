/** The A-Frame `arjs` system: scene-wide AR set-up.  Once the scene has
    loaded it creates the video source and the detection context, keeps their
    sizes in step with the renderer canvas on every window resize, and drives
    one detection pass per frame. */
module ArjsSystem {
  import opened ArDevices

  /** The system's schema. */
  datatype Config = Config(sourceType: string, detectionMode: string, patternRatio: real, debugUIEnabled: bool)

  /** Schema defaults: a webcam source, 'mono_and_matrix' detection, pattern
      ratio 0.5, no debug UI. */
  const DefaultConfig := Config("webcam", "mono_and_matrix", 0.5, false)

  /** The system's resize handler: without a source it does nothing;
      otherwise it sizes the element, copies the size to the renderer canvas,
      and to the controller canvas when the context has an `arController`. */
  function ResizeStep(d: Devices, measured: Size): (r: (Devices, seq<Effect>))
    ensures d.source.None? ==> r == (d, [])
    ensures d.source.Some? ==> InSync(r.0) && r.0.source.value.elementSize == measured
    ensures d.source.Some? ==> r.0.source.value.ready == d.source.value.ready
    ensures d.source.Some? ==>
              r.1 == [ResizeElement, CopyToRenderer] + (if HasController(d.context) then [CopyToController] else [])
    ensures d.source.Some? ==>
              r.0.context == (if HasController(d.context) then Some(Context(Some(measured))) else d.context)
    ensures r.0.source.Some? == d.source.Some? && r.0.context.Some? == d.context.Some?
  {
    if d.source.None? then (d, []) else SyncSizes(d, measured, true)
  }

  /** One system tick: a detection pass exactly when source and context exist
      and the source's `ready` is not `false` (undefined counts as ready). */
  function TickEffects(d: Devices): (e: seq<Effect>)
    ensures e == [Update] <==> d.source.Some? && d.context.Some? && d.source.value.ready != ReadyFalse
    ensures e != [Update] ==> e == []
  {
    if d.source.None? || d.context.None? then []
    else if d.source.value.ready == ReadyFalse then []
    else [Update]
  }

  /** The context's init callback: the projection copy, then the debug UI
      only when the schema enables it and THREEx provides one. */
  function ContextInitEffects(config: Config, guiAvailable: bool): (e: seq<Effect>)
    ensures |e| >= 1 && e[0] == CopyProjection && CopyProjection !in e[1..]
    ensures e == [CopyProjection] || e == [CopyProjection, ShowDebugGui]
    ensures ShowDebugGui in e <==> config.debugUIEnabled && guiAvailable
  {
    [CopyProjection] + (if config.debugUIEnabled && guiAvailable then [ShowDebugGui] else [])
  }

  /** With the schema defaults the debug UI is never opened, whether or not
      THREEx provides one. */
  lemma DefaultsOpenNoDebugGui(guiAvailable: bool)
    ensures ContextInitEffects(DefaultConfig, guiAvailable) == [CopyProjection]
  {
  }

  class System {
    const config: Config
    var awaitingLoad: bool           // set-up waits for the scene's 'loaded' event
    var source: Option<Source>       // this.arToolkitSource
    var rendererCanvas: Size         // this.renderer.domElement
    var context: Option<Context>     // this.arToolkitContext
    var resizeListening: bool        // this._onResize is registered for window 'resize'
    var effects: seq<Effect>

    function Devs(): Devices
      reads this
    {
      Devices(source, rendererCanvas, context)
    }

    /** Source and context are created together, and only once the scene has loaded. */
    ghost predicate Valid()
      reads this
    {
      && (source.Some? <==> context.Some?)
      && (awaitingLoad ==> source.None? && !resizeListening)
    }

    /** `init`: set up at once when the scene has loaded, otherwise on its
        'loaded' event.  `newSource` is the state of a freshly made source. */
    constructor Init(config: Config, sceneLoaded: bool, canvas: Size, newSource: Source)
      ensures Valid()
      ensures this.config == config && rendererCanvas == canvas && effects == []
      ensures sceneLoaded ==>
                !awaitingLoad && source == Some(newSource) && context == Some(Context(None)) && resizeListening
      ensures !sceneLoaded ==>
                awaitingLoad && source.None? && context.None? && !resizeListening
    {
      this.config := config;
      rendererCanvas := canvas;
      effects := [];
      source := None;
      context := None;
      resizeListening := false;
      awaitingLoad := !sceneLoaded;
      new;
      if sceneLoaded {
        Ready(newSource);
      }
    }

    /** The 'loaded' event the system was waiting for. */
    method SceneLoaded(newSource: Source)
      requires Valid() && awaitingLoad
      modifies this
      ensures Valid() && !awaitingLoad
      ensures source == Some(newSource) && context == Some(Context(None)) && resizeListening
      ensures rendererCanvas == old(rendererCanvas) && effects == old(effects)
    {
      awaitingLoad := false;
      Ready(newSource);
    }

    /** `ready`: make the source, register the resize handler, make the
        context; `arController` appears only when the context's init completes. */
    method Ready(newSource: Source)
      requires !awaitingLoad
      modifies this`source, this`context, this`resizeListening
      ensures Valid()
      ensures source == Some(newSource) && context == Some(Context(None)) && resizeListening
    {
      source := Some(newSource);
      resizeListening := true;
      context := Some(Context(None));
    }

    /** The resize handler, run on window 'resize' and by the source's init
        callback once the first frame is available. */
    method OnResize(measured: Size)
      requires Valid()
      modifies this`source, this`rendererCanvas, this`context, this`effects
      ensures Valid()
      ensures Devs() == ResizeStep(old(Devs()), measured).0
      ensures effects == old(effects) + ResizeStep(old(Devs()), measured).1
    {
      if source.None? {
        return;
      }
      var r := SyncSizes(Devs(), measured, true);
      source, rendererCanvas, context := r.0.source, r.0.rendererCanvas, r.0.context;
      effects := effects + r.1;
    }

    /** The context's init callback: copy the projection matrix to the camera
        and, when enabled and available, open the debug UI. */
    method ContextInitialized(controllerCanvas: Size, guiAvailable: bool)
      requires Valid() && context.Some?
      modifies this`context, this`effects
      ensures Valid()
      ensures context == Some(Context(Some(controllerCanvas)))
      ensures effects == old(effects) + ContextInitEffects(config, guiAvailable)
    {
      context := Some(Context(Some(controllerCanvas)));
      effects := effects + [CopyProjection];
      if config.debugUIEnabled && guiAvailable {
        effects := effects + [ShowDebugGui];
      }
    }

    /** The media pipeline writes the source's `ready` flag. */
    method SetReady(flag: ReadyFlag)
      requires source.Some?
      modifies this`source
      ensures source == Some(old(source).value.(ready := flag))
    {
      source := Some(source.value.(ready := flag));
    }

    /** Per-frame tick. */
    method Tick()
      modifies this`effects
      ensures effects == old(effects) + TickEffects(Devs())
    {
      if source.None? || context.None? {
        return;
      }
      if source.value.ready == ReadyFalse {
        return;
      }
      effects := effects + [Update];
    }

    /** A window 'resize' event: the handler runs only while it is registered. */
    method WindowResize(measured: Size)
      requires Valid()
      modifies this`source, this`rendererCanvas, this`context, this`effects
      ensures Valid()
      ensures !resizeListening ==> Devs() == old(Devs()) && effects == old(effects)
      ensures resizeListening ==>
                Devs() == ResizeStep(old(Devs()), measured).0 &&
                effects == old(effects) + ResizeStep(old(Devs()), measured).1
    {
      if resizeListening {
        OnResize(measured);
      }
    }

    /** `remove`: unregister the resize handler. */
    method Remove()
      requires Valid()
      modifies this`resizeListening
      ensures Valid() && !resizeListening
    {
      resizeListening := false;
    }
  }
}
