/** The marker visibility watcher of the A-Frame `marker` component as a
    specification: a two-state edge detector that compares each sampled
    visibility with the previous sample and emits `markerFound` on a rising
    edge and `markerLost` on a falling edge. */
module VisibilityWatch {
  import opened ArDevices

  datatype MarkerEvent = MarkerFound | MarkerLost

  /** What one watcher call emits, given the previous sample `last` and the
      current visibility `now`. */
  function Edge(last: bool, now: bool): (e: Option<MarkerEvent>)
    ensures e == Some(MarkerFound) <==> !last && now
    ensures e == Some(MarkerLost) <==> last && !now
    ensures e == None <==> last == now
  {
    if now && !last then Some(MarkerFound)
    else if !now && last then Some(MarkerLost)
    else None
  }

  function Emitted(e: Option<MarkerEvent>): seq<MarkerEvent> {
    match e
    case None => []
    case Some(x) => [x]
  }

  /** The events the watcher emits when fed the samples `vis`, one per frame,
      starting from the previous sample `last`. */
  function EventsOf(last: bool, vis: seq<bool>): seq<MarkerEvent>
    decreases |vis|
  {
    if vis == [] then [] else Emitted(Edge(last, vis[0])) + EventsOf(vis[0], vis[1..])
  }

  /** The watcher's `last` after the samples `vis`. */
  function Final(last: bool, vis: seq<bool>): bool {
    if vis == [] then last else vis[|vis| - 1]
  }

  lemma {:induction false} EventsOfAppend(last: bool, a: seq<bool>, b: seq<bool>)
    ensures EventsOf(last, a + b) == EventsOf(last, a) + EventsOf(Final(last, a), b)
    ensures Final(last, a + b) == Final(Final(last, a), b)
    decreases |a|
  {
    if a == [] {
      assert a + b == b;
    } else {
      assert (a + b)[0] == a[0];
      assert (a + b)[1..] == a[1..] + b;
      EventsOfAppend(a[0], a[1..], b);
    }
  }

  /** Feeding one more sample appends exactly what one watcher call emits. */
  lemma EventsOfSnoc(last: bool, vis: seq<bool>, v: bool)
    ensures EventsOf(last, vis + [v]) == EventsOf(last, vis) + Emitted(Edge(Final(last, vis), v))
    ensures Final(last, vis + [v]) == v
  {
    EventsOfAppend(last, vis, [v]);
    assert [v][1..] == [];
  }

  function Opposite(e: MarkerEvent): MarkerEvent {
    if e == MarkerFound then MarkerLost else MarkerFound
  }

  /** `ev` alternates between `first` and its opposite, beginning with `first`. */
  predicate Alternating(ev: seq<MarkerEvent>, first: MarkerEvent) {
    forall i :: 0 <= i < |ev| ==> ev[i] == (if i % 2 == 0 then first else Opposite(first))
  }

  /** Over any visibility sequence the events strictly alternate; from the
      initial state (`last` false) the first event is `markerFound`. */
  lemma {:induction false} EventsAlternate(last: bool, vis: seq<bool>)
    ensures Alternating(EventsOf(last, vis), if last then MarkerLost else MarkerFound)
    decreases |vis|
  {
    if vis != [] {
      var rest := EventsOf(vis[0], vis[1..]);
      EventsAlternate(vis[0], vis[1..]);
      if vis[0] != last {
        var ev := EventsOf(last, vis);
        var first := if last then MarkerLost else MarkerFound;
        assert ev == [first] + rest;
        forall i | 0 <= i < |ev|
          ensures ev[i] == (if i % 2 == 0 then first else Opposite(first))
        {
          if i > 0 {
            assert ev[i] == rest[i - 1];
          }
        }
      }
    }
  }

  /** Two consecutive events are never the same. */
  lemma NoRepeatedEvent(last: bool, vis: seq<bool>, i: nat)
    requires i + 1 < |EventsOf(last, vis)|
    ensures EventsOf(last, vis)[i] != EventsOf(last, vis)[i + 1]
  {
    EventsAlternate(last, vis);
  }

  /** `vis` without its leading visible samples. */
  function DropVisible(vis: seq<bool>): (r: seq<bool>)
    ensures |r| <= |vis|
    ensures vis != [] && vis[0] ==> |r| < |vis|
    ensures r == [] || !r[0]
    ensures vis != [] && !vis[0] ==> r == vis
  {
    if vis != [] && vis[0] then DropVisible(vis[1..]) else vis
  }

  /** The number of maximal runs of visible samples in `vis`. */
  function VisibleRuns(vis: seq<bool>): nat
    decreases |vis|
  {
    if vis == [] then 0
    else if !vis[0] then VisibleRuns(vis[1..])
    else 1 + VisibleRuns(DropVisible(vis))
  }

  lemma {:induction false} FoundPerRunFrom(last: bool, vis: seq<bool>)
    ensures CountOf(EventsOf(last, vis), MarkerFound) == VisibleRuns(if last then DropVisible(vis) else vis)
    decreases |vis|
  {
    if vis != [] {
      var e := Emitted(Edge(last, vis[0]));
      FoundPerRunFrom(vis[0], vis[1..]);
      CountOfAppend(e, EventsOf(vis[0], vis[1..]), MarkerFound);
      if vis[0] {
        assert DropVisible(vis) == DropVisible(vis[1..]);
      }
    }
  }

  /** A watcher starting from its initial state emits exactly one
      `markerFound` per maximal visible run, however long the run. */
  lemma FoundPerRun(vis: seq<bool>)
    ensures CountOf(EventsOf(false, vis), MarkerFound) == VisibleRuns(vis)
  {
    FoundPerRunFrom(false, vis);
  }

  lemma {:induction false} FoundLostBalance(last: bool, vis: seq<bool>)
    ensures CountOf(EventsOf(last, vis), MarkerFound) - CountOf(EventsOf(last, vis), MarkerLost)
            == (if Final(last, vis) then 1 else 0) - (if last then 1 else 0)
    decreases |vis|
  {
    if vis != [] {
      var e := Emitted(Edge(last, vis[0]));
      var rest := EventsOf(vis[0], vis[1..]);
      FoundLostBalance(vis[0], vis[1..]);
      CountOfAppend(e, rest, MarkerFound);
      CountOfAppend(e, rest, MarkerLost);
    }
  }

  /** From the initial state, `markerLost` is emitted once per visible run
      that has ended: every run but a last one still visible at the end. */
  lemma LostPerEndedRun(vis: seq<bool>)
    ensures CountOf(EventsOf(false, vis), MarkerLost) == VisibleRuns(vis) - (if Final(false, vis) then 1 else 0)
  {
    FoundPerRun(vis);
    FoundLostBalance(false, vis);
  }

  /** Repeating a sample emits nothing more: the events depend only on the
      visibility changes, not on how many frames each state lasts. */
  lemma RepeatedSampleEmitsNothing(last: bool, a: seq<bool>, v: bool, b: seq<bool>)
    ensures EventsOf(last, a + [v] + b) == EventsOf(last, a + [v, v] + b)
  {
    var x := Final(last, a);
    EventsOfAppend(last, a, [v] + b);
    EventsOfAppend(last, a, [v, v] + b);
    assert a + [v] + b == a + ([v] + b);
    assert a + [v, v] + b == a + ([v, v] + b);
    assert ([v] + b)[1..] == b;
    assert ([v, v] + b)[1..] == [v] + b;
    assert EventsOf(x, [v, v] + b) == Emitted(Edge(x, v)) + EventsOf(v, [v] + b);
    assert EventsOf(v, [v] + b) == EventsOf(v, b);
  }

  function Repeat(v: bool, n: nat): (r: seq<bool>)
    ensures |r| == n
    ensures forall i :: 0 <= i < n ==> r[i] == v
  {
    if n == 0 then [] else [v] + Repeat(v, n - 1)
  }

  /** While the visibility stays what it was, the watcher emits nothing. */
  lemma {:induction false} SteadySamplesEmitNothing(v: bool, n: nat)
    ensures EventsOf(v, Repeat(v, n)) == []
  {
    if n > 0 {
      assert Repeat(v, n)[1..] == Repeat(v, n - 1);
      SteadySamplesEmitNothing(v, n - 1);
    }
  }

  /** A marker visible from the first sampled frame for `n` frames yields one
      `markerFound`, on that first frame, and nothing more while it stays
      visible. */
  lemma VisibleRunFoundOnce(n: nat)
    requires n >= 1
    ensures EventsOf(false, Repeat(true, n)) == [MarkerFound]
  {
    assert Repeat(true, n)[1..] == Repeat(true, n - 1);
    SteadySamplesEmitNothing(true, n - 1);
  }

  /** Occluded for `m` frames after a visible run of `n` frames, the marker
      yields one `markerLost`, on the first occluded frame. */
  lemma VisibleRunThenOcclusion(n: nat, m: nat)
    requires n >= 1 && m >= 1
    ensures EventsOf(false, Repeat(true, n) + Repeat(false, 1)) == [MarkerFound, MarkerLost]
    ensures EventsOf(false, Repeat(true, n) + Repeat(false, m)) == [MarkerFound, MarkerLost]
  {
    VisibleRunFoundOnce(n);
    assert Final(false, Repeat(true, n)) == true;
    OccludedRunLostOnce(m);
    OccludedRunLostOnce(1);
    EventsOfAppend(false, Repeat(true, n), Repeat(false, m));
    EventsOfAppend(false, Repeat(true, n), Repeat(false, 1));
  }

  lemma OccludedRunLostOnce(m: nat)
    requires m >= 1
    ensures EventsOf(true, Repeat(false, m)) == [MarkerLost]
  {
    assert Repeat(false, m)[1..] == Repeat(false, m - 1);
    SteadySamplesEmitNothing(false, m - 1);
  }
}
