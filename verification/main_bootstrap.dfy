/** The bundled-module bootstrap `src/main.ts`: the module body makes the
    renderer, the source, one resize handler, the context and the marker, and
    starts the frame loop at once; the source's and the context's init
    callbacks arrive later. */
module MainBootstrap {
  import opened ArDevices
  import AppBootstrap

  /** One frame of `animate`: a detection pass only when `ready` is truthy
      (true; undefined is falsy), then on every frame the cone's rotation and
      a render.  The projection matrix is never copied here. */
  function FrameEffects(ready: ReadyFlag): (e: seq<Effect>)
    ensures e == [Update, Rotate, Render] || e == [Rotate, Render]
    ensures Update in e <==> ready == ReadyTrue
    ensures |e| >= 2 && e[|e| - 2] == Rotate && e[|e| - 1] == Render
    ensures Update in e ==> e[0] == Update
    ensures CopyProjection !in e
  {
    (if ready == ReadyTrue then [Update] else []) + [Rotate, Render]
  }

  /** The effects of consecutive frames whose `ready` values are `rs`. */
  function Frames(rs: seq<ReadyFlag>): seq<Effect> {
    if rs == [] then [] else FrameEffects(rs[0]) + Frames(rs[1..])
  }

  /** Over any run of frames the cone turns and the scene renders on every
      frame, detection runs once per frame whose `ready` is true, and the
      projection matrix is never copied. */
  lemma {:induction false} FrameCounts(rs: seq<ReadyFlag>)
    ensures CountOf(Frames(rs), Rotate) == |rs|
    ensures CountOf(Frames(rs), Render) == |rs|
    ensures CountOf(Frames(rs), Update) == CountOf(rs, ReadyTrue)
    ensures CountOf(Frames(rs), CopyProjection) == 0
  {
    if rs != [] {
      FrameCounts(rs[1..]);
      CountOfAppend(FrameEffects(rs[0]), Frames(rs[1..]), Rotate);
      CountOfAppend(FrameEffects(rs[0]), Frames(rs[1..]), Render);
      CountOfAppend(FrameEffects(rs[0]), Frames(rs[1..]), Update);
      CountOfAppend(FrameEffects(rs[0]), Frames(rs[1..]), CopyProjection);
      assert [ReadyTrue][0] == ReadyTrue;
    }
  }

  /** The two bootstraps guard the detection pass differently: `app.js`
      skips only `ready === false`, `src/main.ts` runs it only when `ready` is
      truthy, so with `ready` undefined the first detects and the second does
      not; with `ready` false `app.js` does not even render. */
  lemma GuardsDifferOnUndefined()
    ensures Update in AppBootstrap.AnimateEffects(ReadyUndefined)
    ensures Update !in FrameEffects(ReadyUndefined)
    ensures Render !in AppBootstrap.AnimateEffects(ReadyFalse) && Render in FrameEffects(ReadyFalse)
    ensures forall r :: r != ReadyUndefined ==>
              (Update in AppBootstrap.AnimateEffects(r) <==> Update in FrameEffects(r))
  {
  }

  class Page {
    var source: Source             // arSource
    var rendererCanvas: Size       // renderer.domElement
    var context: Context           // arContext; made by the module body before any handler can run
    var markerBound: bool
    var rotation: nat              // rotation steps applied to the cone
    var effects: seq<Effect>

    function Devs(): Devices
      reads this
    {
      Devices(Some(source), rendererCanvas, Some(context))
    }

    /** The module body: size the renderer to `window`, make the source
        (state `newSource`), register `onResize` for window 'resize', make the context and
        the marker, and run the first frame of the loop. */
    constructor Load(window: Size, newSource: Source)
      ensures source == newSource && rendererCanvas == window
      ensures context == Context(None) && markerBound
      ensures effects == FrameEffects(newSource.ready) && rotation == 1
    {
      source := newSource;
      rendererCanvas := window;
      context := Context(None);
      markerBound := true;
      rotation := 0;
      effects := [];
      new;
      Frame();
    }

    /** `onResize`, run on window 'resize' and by the source's init callback:
        size the element, copy to the renderer, then to the controller canvas
        when `arController` exists. */
    method OnResize(measured: Size)
      modifies this`source, this`rendererCanvas, this`context, this`effects
      ensures Devs() == SyncSizes(old(Devs()), measured, true).0
      ensures effects == old(effects) + SyncSizes(old(Devs()), measured, true).1
      ensures InSync(Devs())
    {
      var r := SyncSizes(Devs(), measured, true);
      source, rendererCanvas, context := r.0.source.value, r.0.rendererCanvas, r.0.context.value;
      effects := effects + r.1;
    }

    /** A window 'resize' event: `onResize` is registered once, so it runs
        exactly once per event. */
    method WindowResize(measured: Size)
      modifies this`source, this`rendererCanvas, this`context, this`effects
      ensures Devs() == SyncSizes(old(Devs()), measured, true).0
      ensures effects == old(effects) + SyncSizes(old(Devs()), measured, true).1
    {
      OnResize(measured);
    }

    /** The context's init callback: the one place the projection matrix is
        copied to the camera. */
    method ContextInitialized(controllerCanvas: Size)
      modifies this`context, this`effects
      ensures context == Context(Some(controllerCanvas))
      ensures effects == old(effects) + [CopyProjection]
    {
      context := Context(Some(controllerCanvas));
      effects := effects + [CopyProjection];
    }

    /** The media pipeline writes the source's `ready` flag. */
    method SetReady(flag: ReadyFlag)
      modifies this`source
      ensures source == old(source).(ready := flag)
    {
      source := source.(ready := flag);
    }

    /** One frame of `animate`. */
    method Frame()
      modifies this`effects, this`rotation
      ensures effects == old(effects) + FrameEffects(source.ready)
      ensures rotation == old(rotation) + 1
    {
      if source.ready == ReadyTrue {
        effects := effects + [Update];
      }
      rotation := rotation + 1;
      effects := effects + [Rotate, Render];
    }
  }
}
