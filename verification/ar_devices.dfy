/** Abstract view of the THREE / THREEx objects that the AR bootstrap scripts
    coordinate: the video source, the renderer canvas and the detection
    context.  Detection, pose estimation, sizing rules and rendering belong to
    those libraries; here they are reduced to the state the glue code reads and
    writes, and to a log of the calls it makes into them. */
module ArDevices {

  datatype Option<T> = None | Some(value: T)

  /** Pixel size of a DOM element or canvas. */
  datatype Size = Size(width: nat, height: nat)

  /** `ArToolkitSource.ready` as JavaScript sees it: true, false or undefined. */
  datatype ReadyFlag = ReadyTrue | ReadyFalse | ReadyUndefined

  /** The video source: its readiness and the size its element was given by
      the library's own sizing rule (`onResizeElement`). */
  datatype Source = Source(ready: ReadyFlag, elementSize: Size)

  /** The detection context.  `controllerCanvas` is the size of
      `arController.canvas`; it is None while `arController` is null. */
  datatype Context = Context(controllerCanvas: Option<Size>)

  /** The library objects a resize handler reaches. */
  datatype Devices = Devices(source: Option<Source>, rendererCanvas: Size, context: Option<Context>)

  /** Calls into the libraries, logged in the order the glue makes them. */
  datatype Effect =
    | ResizeElement      // arSource.onResizeElement()
    | CopyToRenderer     // arSource.copyElementSizeTo(renderer.domElement)
    | CopyToController   // arSource.copyElementSizeTo(arContext.arController.canvas)
    | Update             // arContext.update(arSource.domElement)
    | Rotate             // cone.rotation.y += step
    | Render             // renderer.render(scene, camera)
    | CopyProjection     // camera.projectionMatrix.copy(arContext.getProjectionMatrix())
    | ShowDebugGui       // THREEx.ArToolkitContext.gui(arContext)

  /** `arContext && arContext.arController` is truthy. */
  predicate HasController(c: Option<Context>) {
    c.Some? && c.value.controllerCanvas.Some?
  }

  /** Video element, renderer canvas and, when there is one, the controller
      canvas all have the same size. */
  predicate InSync(d: Devices) {
    && d.source.Some?
    && d.rendererCanvas == d.source.value.elementSize
    && (HasController(d.context) ==> d.context.value.controllerCanvas.value == d.source.value.elementSize)
  }

  /** Number of occurrences of `x` in `s`. */
  function CountOf<T(==)>(s: seq<T>, x: T): (n: nat)
    ensures n <= |s|
    ensures n == 0 <==> x !in s
  {
    if s == [] then 0 else (if s[0] == x then 1 else 0) + CountOf(s[1..], x)
  }

  lemma {:induction false} CountOfAppend<T>(a: seq<T>, b: seq<T>, x: T)
    ensures CountOf(a + b, x) == CountOf(a, x) + CountOf(b, x)
  {
    if a == [] {
      assert a + b == b;
    } else {
      assert (a + b)[0] == a[0];
      assert (a + b)[1..] == a[1..] + b;
      CountOfAppend(a[1..], b, x);
    }
  }

  /** The body every resize handler runs once a source exists: let the source
      size its element to `measured`, copy that size onto the renderer canvas,
      and onto the controller canvas when the handler sees a context
      (`withContext`) and that context has an `arController`.  The effects are
      the calls made, in order. */
  function SyncSizes(d: Devices, measured: Size, withContext: bool): (r: (Devices, seq<Effect>))
    requires d.source.Some?
    ensures r.0.source == Some(d.source.value.(elementSize := measured))
    ensures r.0.rendererCanvas == measured
    ensures r.0.context.Some? == d.context.Some? && HasController(r.0.context) == HasController(d.context)
    ensures withContext && HasController(d.context) ==> InSync(r.0)
    ensures !(withContext && HasController(d.context)) ==> r.0.context == d.context
    ensures r.1 == [ResizeElement, CopyToRenderer] +
                   (if withContext && HasController(d.context) then [CopyToController] else [])
  {
    var copy := withContext && HasController(d.context);
    var source := d.source.value.(elementSize := measured);
    var context := if copy then Some(Context(Some(measured))) else d.context;
    (Devices(Some(source), measured, context),
     [ResizeElement, CopyToRenderer] + (if copy then [CopyToController] else []))
  }

  /** A handler that sees the context leaves all three sizes equal, whatever
      state the sizes were in before (a missed resize is repaired by the next). */
  lemma ContextAwareResizeSynchronises(d: Devices, measured: Size)
    requires d.source.Some?
    ensures InSync(SyncSizes(d, measured, true).0)
    ensures SyncSizes(d, measured, true).0.source.value.elementSize == measured
    ensures SyncSizes(d, measured, true).1 ==
              if HasController(d.context) then [ResizeElement, CopyToRenderer, CopyToController]
              else [ResizeElement, CopyToRenderer]
  {
  }
}
