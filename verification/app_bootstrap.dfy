/** The plain-script bootstrap `app.js`: after the preflight checks it builds
    the scene, waits for the video source, wires a resize handler that does
    not yet see the detection context, waits for the context, swaps that
    handler for one that does, binds the marker and runs the frame loop. */
module AppBootstrap {
  import opened ArDevices
  import opened Preflight

  datatype Phase = Halted | AwaitingSource | AwaitingContext | Running

  /** A resize handler made by `setupResize`.  Each call makes a distinct
      closure (`id`); `withContext` says whether the `arContext` it captured
      is non-null. */
  datatype Handler = Handler(id: nat, withContext: bool)

  /** `setupResize(arSource, renderer, null)`, made once the source is up. */
  const FirstHandler := Handler(0, false)

  /** `setupResize(arSource, renderer, arContext)`, made once the context is up. */
  const SecondHandler := Handler(1, true)

  /** `window.addEventListener('resize', h)`: a listener already registered is
      not added twice. */
  function AddListener(ls: seq<Handler>, h: Handler): (r: seq<Handler>)
    ensures forall x :: x in r <==> x in ls || x == h
    ensures h in ls ==> r == ls
    ensures h !in ls ==> r == ls + [h]
  {
    if h in ls then ls else ls + [h]
  }

  /** `window.removeEventListener('resize', h)`. */
  function RemoveListener(ls: seq<Handler>, h: Handler): (r: seq<Handler>)
    ensures forall x :: x in r <==> x in ls && x != h
    ensures |r| <= |ls|
  {
    if ls == [] then [] else (if ls[0] == h then [] else [ls[0]]) + RemoveListener(ls[1..], h)
  }

  /** One frame of `animate`: when `ready` is `false` nothing at all happens;
      otherwise a detection pass, the cone's rotation and a render, in that
      order. */
  function AnimateEffects(ready: ReadyFlag): (e: seq<Effect>)
    ensures e == [] <==> ready == ReadyFalse
    ensures e != [] ==> e == [Update, Rotate, Render]
  {
    if ready == ReadyFalse then [] else [Update, Rotate, Render]
  }

  /** The effects of consecutive frames whose `ready` values are `rs`. */
  function AnimateFrames(rs: seq<ReadyFlag>): seq<Effect> {
    if rs == [] then [] else AnimateEffects(rs[0]) + AnimateFrames(rs[1..])
  }

  /** Over any run of frames, detection, rotation and render each happen once
      per frame whose `ready` is not `false`, and never otherwise. */
  lemma {:induction false} AnimateFrameCounts(rs: seq<ReadyFlag>)
    ensures CountOf(AnimateFrames(rs), Update) == |rs| - CountOf(rs, ReadyFalse)
    ensures CountOf(AnimateFrames(rs), Rotate) == |rs| - CountOf(rs, ReadyFalse)
    ensures CountOf(AnimateFrames(rs), Render) == |rs| - CountOf(rs, ReadyFalse)
  {
    if rs != [] {
      AnimateFrameCounts(rs[1..]);
      CountOfAppend(AnimateEffects(rs[0]), AnimateFrames(rs[1..]), Update);
      CountOfAppend(AnimateEffects(rs[0]), AnimateFrames(rs[1..]), Rotate);
      CountOfAppend(AnimateEffects(rs[0]), AnimateFrames(rs[1..]), Render);
    }
  }

  class Session {
    var scripts: ScriptReport      // result of checkScriptOrder
    var startup: Startup           // result of the global checks
    var probes: seq<ProbeReport>   // asset probe reports, in order
    var phase: Phase
    var rendererAttached: bool     // scene and renderer made, canvas attached to the page
    var rendererCanvas: Size
    var source: Option<Source>     // the webcam source; Some once the camera is requested
    var context: Option<Context>
    var listeners: seq<Handler>    // registered window 'resize' listeners
    var markerBound: bool          // the hiro marker controls exist
    var rotation: nat              // rotation steps applied to the cone
    var effects: seq<Effect>

    function Devs(): Devices
      reads this
    {
      Devices(source, rendererCanvas, context)
    }

    /** What exists in each phase; in particular at most one resize listener
        is ever registered, and from the context's arrival on it is the
        context-aware one. */
    ghost predicate Valid()
      reads this
    {
      && (phase == Halted ==>
            !rendererAttached && source.None? && context.None? && listeners == [] && !markerBound)
      && (phase == AwaitingSource ==>
            rendererAttached && source.Some? && context.None? && listeners == [] && !markerBound)
      && (phase == AwaitingContext ==>
            rendererAttached && source.Some? && context.Some? && listeners == [FirstHandler] && !markerBound)
      && (phase == Running ==>
            rendererAttached && source.Some? && context.Some? && listeners == [SecondHandler] && markerBound)
    }

    /** The script body up to the wait for the source: the script-order
        check, the global checks, then `init`'s asset gate; only when both
        assets are there are the scene, the renderer (sized to `window`) and
        the source (in state `newSource`) made. */
    constructor Start(scriptSrcs: seq<string>, hasThree: bool, hasThreex: bool,
                      camera: FetchOutcome, pattern: FetchOutcome, window: Size, newSource: Source)
      ensures Valid()
      ensures scripts == CheckScriptOrder(scriptSrcs)
      ensures startup == CheckGlobals(hasThree, hasThreex)
      ensures startup != InitStarted ==> probes == [] && phase == Halted
      ensures startup == InitStarted ==> probes == AssetGate(camera, pattern).1
      ensures phase != Halted <==> startup == InitStarted && AssetGate(camera, pattern).0
      ensures phase != Halted ==> phase == AwaitingSource && source == Some(newSource) && rendererCanvas == window
      ensures effects == [] && rotation == 0
    {
      var report := CheckScriptOrder(scriptSrcs);
      var started := CheckGlobals(hasThree, hasThreex);
      var gate := AssetGate(camera, pattern);
      var proceed := started == InitStarted && gate.0;
      scripts := report;
      startup := started;
      probes := if started == InitStarted then gate.1 else [];
      phase := if proceed then AwaitingSource else Halted;
      rendererAttached := proceed;
      rendererCanvas := if proceed then window else Size(0, 0);
      source := if proceed then Some(newSource) else None;
      context := None;
      listeners := [];
      markerBound := false;
      rotation := 0;
      effects := [];
    }

    /** The source's init callback resolved: register the first handler and
        make the context (its `arController` comes with its init). */
    method SourceInitialized()
      requires Valid() && phase == AwaitingSource
      modifies this`listeners, this`context, this`phase
      ensures Valid() && phase == AwaitingContext
      ensures listeners == AddListener(old(listeners), FirstHandler) == [FirstHandler]
      ensures context == Some(Context(None))
    {
      listeners := AddListener(listeners, FirstHandler);
      context := Some(Context(None));
      phase := AwaitingContext;
    }

    /** The context's init callback resolved: copy the projection matrix,
        swap the first handler for the context-aware one, bind the marker and
        run the first frame of `animate`. */
    method ContextInitialized(controllerCanvas: Size)
      requires Valid() && phase == AwaitingContext
      modifies this`context, this`listeners, this`markerBound, this`phase, this`effects, this`rotation
      ensures Valid() && phase == Running
      ensures listeners == AddListener(RemoveListener(old(listeners), FirstHandler), SecondHandler) == [SecondHandler]
      ensures context == Some(Context(Some(controllerCanvas))) && markerBound
      ensures effects == old(effects) + [CopyProjection] + AnimateEffects(source.value.ready)
      ensures rotation == old(rotation) + (if source.value.ready == ReadyFalse then 0 else 1)
    {
      context := Some(Context(Some(controllerCanvas)));
      effects := effects + [CopyProjection];
      listeners := RemoveListener(listeners, FirstHandler);
      listeners := AddListener(listeners, SecondHandler);
      markerBound := true;
      phase := Running;
      Frame();
    }

    /** Run handler `h`: on window 'resize' while it is registered, or when
        the 300 ms timer set up with it fires (the first handler's timer may
        fire after it was unregistered). */
    method Fire(h: Handler, measured: Size)
      requires Valid()
      requires || (h == FirstHandler && (phase == AwaitingContext || phase == Running))
               || (h == SecondHandler && phase == Running)
      modifies this`source, this`rendererCanvas, this`context, this`effects
      ensures Valid()
      ensures Devs() == SyncSizes(old(Devs()), measured, h.withContext).0
      ensures effects == old(effects) + SyncSizes(old(Devs()), measured, h.withContext).1
    {
      var r := SyncSizes(Devs(), measured, h.withContext);
      source, rendererCanvas, context := r.0.source, r.0.rendererCanvas, r.0.context;
      effects := effects + r.1;
    }

    /** A window 'resize' event: the registered listener, if any, runs. */
    method WindowResize(measured: Size)
      requires Valid()
      modifies this`source, this`rendererCanvas, this`context, this`effects
      ensures Valid()
      ensures listeners == [] ==> Devs() == old(Devs()) && effects == old(effects)
      ensures listeners != [] ==>
                Devs() == SyncSizes(old(Devs()), measured, listeners[0].withContext).0 &&
                effects == old(effects) + SyncSizes(old(Devs()), measured, listeners[0].withContext).1
    {
      if listeners != [] {
        Fire(listeners[0], measured);
      }
    }

    /** The media pipeline writes the source's `ready` flag. */
    method SetReady(flag: ReadyFlag)
      requires Valid() && source.Some?
      modifies this`source
      ensures Valid()
      ensures source == Some(old(source).value.(ready := flag))
    {
      source := Some(source.value.(ready := flag));
    }

    /** One frame of `animate`. */
    method Frame()
      requires Valid() && phase == Running
      modifies this`effects, this`rotation
      ensures effects == old(effects) + AnimateEffects(source.value.ready)
      ensures rotation == old(rotation) + (if source.value.ready == ReadyFalse then 0 else 1)
    {
      if source.value.ready == ReadyFalse {
        return;
      }
      effects := effects + [Update];
      rotation := rotation + 1;
      effects := effects + [Rotate];
      effects := effects + [Render];
    }
  }
}
