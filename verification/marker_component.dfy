/** The A-Frame `marker` component: binds one marker to the entity's
    transform node through marker controls, and watches the node's visibility
    every frame to emit `markerFound` / `markerLost` on the entity. */
module MarkerComponent {
  import opened ArDevices
  import opened MarkerOptions
  import opened VisibilityWatch
  import ArjsSystem

  class Marker {
    var visible: bool                      // el.object3D.visible, written by the detection pass
    var last: bool                         // the watcher's closure variable
    var watching: bool                     // this._visWatcher is set
    var controls: Option<ControlsOptions>  // this.markerControls, by the options it was made with
    var events: seq<MarkerEvent>           // events emitted on the entity, in order
    var warnings: seq<Warning>
    var initError: bool                    // 'arjs system is not initialised' was reported

    /** `init`: without the system or its context nothing is bound and no
        watcher is set; otherwise the controls are made from the mapped
        options and the node starts invisible with `last` false. */
    constructor Init(system: ArjsSystem.System?, data: MarkerData, nodeVisible: bool)
      ensures events == [] && !last
      ensures system == null || system.context.None? ==>
                initError && !watching && controls.None? && warnings == [] && visible == nodeVisible
      ensures system != null && system.context.Some? ==>
                !initError && watching && !visible &&
                controls == Some(MapOptions(data).options) && warnings == MapOptions(data).warnings
    {
      events := [];
      last := false;
      if system == null || system.context.None? {
        initError := true;
        watching := false;
        controls := None;
        warnings := [];
        visible := nodeVisible;
      } else {
        var m := MapOptions(data);
        initError := false;
        controls := Some(m.options);
        warnings := m.warnings;
        visible := false;
        watching := true;
      }
    }

    /** The detection pass sets the node's visibility. */
    method Detect(v: bool)
      modifies this`visible
      ensures visible == v
    {
      visible := v;
    }

    /** `tick`: run the watcher if there is one.  It emits `markerFound` on a
        rising edge, `markerLost` on a falling edge, and records the sample. */
    method Tick()
      modifies this`last, this`events
      ensures watching ==> last == visible && events == old(events) + Emitted(Edge(old(last), visible))
      ensures !watching ==> last == old(last) && events == old(events)
    {
      if !watching {
        return;
      }
      var now := visible;
      if now && !last {
        events := events + [MarkerFound];
      } else if !now && last {
        events := events + [MarkerLost];
      }
      last := now;
    }

    /** `remove`: drop the controls and the watcher. */
    method Remove()
      modifies this`controls, this`watching
      ensures controls.None? && !watching
    {
      controls := None;
      watching := false;
    }

    /** The frame loop as A-Frame drives it: each frame the detection pass
        sets the visibility to the next sample, then the component ticks. */
    method RunFrames(vis: seq<bool>)
      modifies this`visible, this`last, this`events
      ensures watching ==> events == old(events) + EventsOf(old(last), vis) && last == Final(old(last), vis)
      ensures !watching ==> events == old(events) && last == old(last)
    {
      var i := 0;
      while i < |vis|
        invariant 0 <= i <= |vis|
        invariant watching ==> events == old(events) + EventsOf(old(last), vis[..i]) && last == Final(old(last), vis[..i])
        invariant !watching ==> events == old(events) && last == old(last)
      {
        Detect(vis[i]);
        Tick();
        EventsOfSnoc(old(last), vis[..i], vis[i]);
        assert vis[..i + 1] == vis[..i] + [vis[i]];
        i := i + 1;
      }
      assert vis[..|vis|] == vis;
    }
  }
}
