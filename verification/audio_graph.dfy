/**
 The page's audio state as one immutable record: the readiness flag, the four
 gain stages, and the positions the three renderers were last given. The
 panner node, the first-order scene's source and the third-order scene's
 source each hold a source position; the audio context's listener and the
 two scenes each hold a listener position. The audio nodes themselves, and
 the rendering they do, are not modelled; only what the page writes to them.
 */
module AudioGraph {
  import opened Geometry
  import opened RenderingMode

  datatype State = State(
    ready: bool,
    gains: Gains,
    pannerPosition: Point,
    foaSourcePosition: Point,
    toaSourcePosition: Point,
    listenerPosition: Point,
    foaListenerPosition: Point,
    toaListenerPosition: Point)

  /** The state before the graph exists. The page's globals are still
      undefined then; the fields hold placeholders that no operation reads
      while the flag is down. */
  const Uninitialised := State(false, Gains(0.0, 0.0, 0.0, 0.0), Origin, Origin, Origin, Origin, Origin, Origin)

  /** All three renderers place the source at `p`. */
  ghost predicate SourceAt(s: State, p: Point)
  {
    s.pannerPosition == p && s.foaSourcePosition == p && s.toaSourcePosition == p
  }

  /** All three renderers place the listener at `p`. */
  ghost predicate ListenerAt(s: State, p: Point)
  {
    s.listenerPosition == p && s.foaListenerPosition == p && s.toaListenerPosition == p
  }

  /** Same listener state in both. */
  ghost predicate SameListener(s: State, t: State)
  {
    s.listenerPosition == t.listenerPosition
    && s.foaListenerPosition == t.foaListenerPosition
    && s.toaListenerPosition == t.toaListenerPosition
  }

  /** What the page keeps true once the graph exists: one path audible, and
      the three renderers agreeing on where the source and the listener are. */
  ghost predicate Coherent(s: State)
  {
    s.ready ==>
      && ExactlyOneAudible(s.gains)
      && SourceAt(s, s.pannerPosition)
      && ListenerAt(s, s.listenerPosition)
  }

  /** The drop-down's change handler, given the drop-down's current value.
      Before the graph exists it does nothing; afterwards it rewrites the
      four gain stages and nothing else. */
  function Select(s: State, value: string): (r: State)
    ensures !s.ready ==> r == s
    ensures r == s.(gains := r.gains)
    ensures s.ready ==> ExactlyOneAudible(r.gains) && Audible(r.gains) == ParseMode(value)
  {
    if !s.ready then s
    else
      GainsRoundTrip(ParseMode(value), s.gains);
      s.(gains := GainsFor(ParseMode(value)))
  }

  /** Selecting twice is selecting once, and a later selection wins outright,
      including an unrecognised value after a recognised one. */
  lemma SelectLastWins(s: State, a: string, b: string)
    ensures Select(Select(s, a), a) == Select(s, a)
    ensures Select(Select(s, a), b) == Select(s, b)
  {
  }

  /** Example: third-order, then an unknown value, leaves
      only the unspatialised path open. */
  lemma UnknownValueFallsBack(s: State)
    requires s.ready
    ensures Select(Select(s, "toa"), "bogus-value").gains == Gains(1.0, 0.0, 0.0, 0.0)
  {
  }

  /** What one canvas element writes, by its index: index 0 is the source and
      goes to the three source positions; every other index is a listener and
      goes to the one shared listener state. */
  function Place(s: State, index: nat, p: Point): (r: State)
    ensures index == 0 ==> SourceAt(r, p) && SameListener(r, s)
    ensures index > 0 ==> ListenerAt(r, p) && r.pannerPosition == s.pannerPosition
    ensures index > 0 ==> r.foaSourcePosition == s.foaSourcePosition && r.toaSourcePosition == s.toaSourcePosition
    ensures r.ready == s.ready && r.gains == s.gains
  {
    if index == 0 then
      s.(pannerPosition := p, foaSourcePosition := p, toaSourcePosition := p)
    else
      s.(listenerPosition := p, foaListenerPosition := p, toaListenerPosition := p)
  }

  /** The elements placed in order, index 0 first. */
  function PlaceAll(s: State, elements: seq<Element>, dims: Dimensions): (r: State)
    decreases |elements|
    ensures r.ready == s.ready && r.gains == s.gains
    ensures |elements| == 0 ==> r == s
    ensures |elements| >= 1 ==> SourceAt(r, ToWorld(elements[0], dims))
    ensures |elements| <= 1 ==> SameListener(r, s)
    ensures |elements| >= 2 ==> ListenerAt(r, ToWorld(elements[|elements| - 1], dims))
  {
    if |elements| == 0 then s
    else
      var n := |elements| - 1;
      Place(PlaceAll(s, elements[..n], dims), n, ToWorld(elements[n], dims))
  }

  /** The canvas callback. Before the graph exists it does nothing. Afterwards
      the three renderers agree on the source (element 0) and, when there is
      any listener element, on the listener: the last element, since every
      listener element overwrites the same shared state. */
  function UpdatePositions(s: State, elements: seq<Element>, dims: Dimensions): (r: State)
    ensures !s.ready ==> r == s
    ensures |elements| == 0 ==> r == s
    ensures r.ready == s.ready && r.gains == s.gains
    ensures s.ready && |elements| >= 1 ==> SourceAt(r, ToWorld(elements[0], dims))
    ensures s.ready && |elements| <= 1 ==> SameListener(r, s)
    ensures s.ready && |elements| >= 2 ==> ListenerAt(r, ToWorld(elements[|elements| - 1], dims))
    ensures Coherent(s) ==> Coherent(r)
  {
    if !s.ready then s else PlaceAll(s, elements, dims)
  }

  /** The callback as the page writes it: one pass over the elements in index
      order, with a branch on the index. It computes the same state as the
      recursive definition. */
  method UpdatePositionsLoop(s: State, elements: seq<Element>, dims: Dimensions) returns (r: State)
    ensures r == UpdatePositions(s, elements, dims)
  {
    r := s;
    if !s.ready {
      return;
    }
    var i := 0;
    while i < |elements|
      invariant 0 <= i <= |elements|
      invariant r == PlaceAll(s, elements[..i], dims)
    {
      var p := ToWorld(elements[i], dims);
      if i == 0 {
        r := r.(pannerPosition := p, foaSourcePosition := p, toaSourcePosition := p);
      } else {
        r := r.(listenerPosition := p, foaListenerPosition := p, toaListenerPosition := p);
      }
      assert elements[..i + 1][..i] == elements[..i];
      i := i + 1;
    }
    assert elements[..i] == elements;
  }

  /** Only the first and the last element matter: the listener elements in
      between are overwritten before the call returns. */
  lemma MiddleListenersIgnored(s: State, elements: seq<Element>, dims: Dimensions)
    requires |elements| >= 2
    ensures UpdatePositions(s, elements, dims) == UpdatePositions(s, [elements[0], elements[|elements| - 1]], dims)
  {
  }

  /** Replaying the same element list changes nothing further. */
  lemma UpdateIdempotent(s: State, elements: seq<Element>, dims: Dimensions)
    ensures UpdatePositions(UpdatePositions(s, elements, dims), elements, dims) == UpdatePositions(s, elements, dims)
  {
  }

  /** A mode change and a canvas update touch disjoint parts of the state, so
      their order does not matter. */
  lemma SelectUpdateCommute(s: State, value: string, elements: seq<Element>, dims: Dimensions)
    ensures Select(UpdatePositions(s, elements, dims), value) == UpdatePositions(Select(s, value), elements, dims)
  {
  }

  /** The graph as freshly built and wired: every gain stage at the audio
      API's default level of 1 and every position at the origin, and the
      flag still down. */
  const Built := State(false, Gains(1.0, 1.0, 1.0, 1.0), Origin, Origin, Origin, Origin, Origin, Origin)

  /** Building the graph: new nodes replace whatever was there, the flag is
      raised only once all four paths are wired, and the current mode is
      applied at once. */
  function InitAudio(s: State, value: string): (r: State)
    ensures r.ready
    ensures ExactlyOneAudible(r.gains) && Audible(r.gains) == ParseMode(value)
    ensures SourceAt(r, Origin) && ListenerAt(r, Origin)
    ensures Coherent(r)
  {
    Select(Built.(ready := true), value)
  }

  /** The Play button. It builds the graph only when it does not exist yet;
      playing and pausing the media element are not modelled. */
  function Play(s: State, value: string): (r: State)
    ensures r.ready
    ensures s.ready ==> r == s
    ensures !s.ready ==> ExactlyOneAudible(r.gains) && Audible(r.gains) == ParseMode(value)
    ensures !s.ready ==> SourceAt(r, Origin) && ListenerAt(r, Origin)
    ensures Coherent(s) ==> Coherent(r)
  {
    if !s.ready then InitAudio(s, value) else s
  }
}
