/**
 A session of the page: the events it reacts to, in the order they arrive on
 the single UI thread, applied one at a time to the audio state. The room
 extent is fixed for the session.
 */
module Session {
  import opened Geometry
  import opened RenderingMode
  import opened AudioGraph

  /** A UI event, carrying what the handler reads from the page: the rendering
      drop-down's current value, or the canvas elements in index order. */
  datatype Event =
    | ModeChanged(value: string)
    | Dragged(elements: seq<Element>)
    | PlayClicked(value: string)
    | PauseClicked

  function Step(s: State, e: Event, dims: Dimensions): State
  {
    match e
    case ModeChanged(v) => Select(s, v)
    case Dragged(els) => UpdatePositions(s, els, dims)
    case PlayClicked(v) => Play(s, v)
    case PauseClicked => s
  }

  function Run(s: State, events: seq<Event>, dims: Dimensions): State
    decreases |events|
  {
    if |events| == 0 then s else Run(Step(s, events[0], dims), events[1..], dims)
  }

  ghost predicate IsPlay(e: Event)
  {
    e.PlayClicked?
  }

  /** How many events of the run raise the readiness flag. */
  function Initialisations(s: State, events: seq<Event>, dims: Dimensions): nat
    decreases |events|
  {
    if |events| == 0 then 0
    else
      var t := Step(s, events[0], dims);
      (if !s.ready && t.ready then 1 else 0) + Initialisations(t, events[1..], dims)
  }

  /** One event keeps the page coherent, and never lowers the flag; only the
      Play button raises it. */
  lemma StepPreserves(s: State, e: Event, dims: Dimensions)
    ensures Coherent(s) ==> Coherent(Step(s, e, dims))
    ensures s.ready ==> Step(s, e, dims).ready
    ensures Step(s, e, dims).ready <==> s.ready || IsPlay(e)
  {
  }

  /** Once the graph exists it stays; before it exists, the only events that
      can change anything are clicks on Play. */
  lemma {:induction false} ReadyIsPermanent(s: State, events: seq<Event>, dims: Dimensions)
    ensures s.ready ==> Run(s, events, dims).ready
    ensures Run(s, events, dims).ready <==> s.ready || exists i :: 0 <= i < |events| && IsPlay(events[i])
    decreases |events|
  {
    if |events| > 0 {
      StepPreserves(s, events[0], dims);
      ReadyIsPermanent(Step(s, events[0], dims), events[1..], dims);
      if exists i :: 0 <= i < |events| && IsPlay(events[i]) {
        var i :| 0 <= i < |events| && IsPlay(events[i]);
        if i > 0 {
          assert IsPlay(events[1..][i - 1]);
        }
      }
      if exists j :: 0 <= j < |events[1..]| && IsPlay(events[1..][j]) {
        var j :| 0 <= j < |events[1..]| && IsPlay(events[1..][j]);
        assert IsPlay(events[j + 1]);
      }
    }
  }

  /** The graph is built at most once in any session, and exactly once when
      the session starts without it and Play is ever clicked. */
  lemma {:induction false} BuiltAtMostOnce(s: State, events: seq<Event>, dims: Dimensions)
    ensures Initialisations(s, events, dims) <= 1
    ensures s.ready ==> Initialisations(s, events, dims) == 0
    ensures Initialisations(s, events, dims) == 1 <==> !s.ready && Run(s, events, dims).ready
    decreases |events|
  {
    if |events| > 0 {
      var t := Step(s, events[0], dims);
      StepPreserves(s, events[0], dims);
      ReadyIsPermanent(t, events[1..], dims);
      BuiltAtMostOnce(t, events[1..], dims);
    }
  }

  /** Every state a session reaches from a coherent one is coherent: from
      the first ready state onward exactly one path is audible and the three
      renderers agree on the source and listener positions. */
  lemma {:induction false} RunPreservesCoherence(s: State, events: seq<Event>, dims: Dimensions)
    requires Coherent(s)
    ensures Coherent(Run(s, events, dims))
    decreases |events|
  {
    if |events| > 0 {
      StepPreserves(s, events[0], dims);
      RunPreservesCoherence(Step(s, events[0], dims), events[1..], dims);
    }
  }

  /** From page load, whatever the user does: once the graph exists, exactly
      one path is audible and the three renderers agree on the source and
      the listener. The first clause restates, for readers, the gain part of
      `Coherent`, which the second clause already implies. */
  lemma SessionFromLoadIsCoherent(events: seq<Event>, dims: Dimensions)
    ensures Run(Uninitialised, events, dims).ready ==> ExactlyOneAudible(Run(Uninitialised, events, dims).gains)
    ensures Coherent(Run(Uninitialised, events, dims))
  {
    RunPreservesCoherence(Uninitialised, events, dims);
  }

  /** A session is its prefix followed by its suffix. */
  lemma {:induction false} RunAppend(s: State, a: seq<Event>, b: seq<Event>, dims: Dimensions)
    ensures Run(s, a + b, dims) == Run(Run(s, a, dims), b, dims)
    decreases |a|
  {
    if |a| == 0 {
      assert a + b == b;
    } else {
      assert (a + b)[0] == a[0];
      assert (a + b)[1..] == a[1..] + b;
      RunAppend(Step(s, a[0], dims), a[1..], b, dims);
    }
  }

  /** Once the graph exists, events other than a mode change leave the gains
      alone. */
  lemma {:induction false} GainsStableWithoutModeChange(s: State, events: seq<Event>, dims: Dimensions)
    requires s.ready
    requires forall i :: 0 <= i < |events| ==> !events[i].ModeChanged?
    ensures Run(s, events, dims).gains == s.gains
    decreases |events|
  {
    if |events| > 0 {
      assert !events[0].ModeChanged?;
      var t := Step(s, events[0], dims);
      assert t.gains == s.gains && t.ready;
      assert forall i :: 0 <= i < |events[1..]| ==> !events[1..][i].ModeChanged? by {
        forall i | 0 <= i < |events[1..]|
          ensures !events[1..][i].ModeChanged?
        {
          assert events[1..][i] == events[i + 1];
        }
      }
      GainsStableWithoutModeChange(t, events[1..], dims);
    }
  }

  /** The last mode change made while the graph exists decides what is heard,
      whatever came before it and whatever non-mode events follow it. */
  lemma LastModeChangeWins(s: State, before: seq<Event>, v: string, after: seq<Event>, dims: Dimensions)
    requires Run(s, before, dims).ready
    requires forall i :: 0 <= i < |after| ==> !after[i].ModeChanged?
    ensures ExactlyOneAudible(Run(s, before + [ModeChanged(v)] + after, dims).gains)
    ensures Audible(Run(s, before + [ModeChanged(v)] + after, dims).gains) == ParseMode(v)
  {
    var mid := Run(s, before, dims);
    RunAppend(s, before, [ModeChanged(v)], dims);
    RunAppend(s, before + [ModeChanged(v)], after, dims);
    var t := Run(s, before + [ModeChanged(v)], dims);
    assert t == Select(mid, v);
    GainsStableWithoutModeChange(t, after, dims);
  }

  /** The canvas layout the page starts with: the source, three microphones
      and the ground-truth microphone at the centre. */
  const InitialLayout := [
    Element(0.35, 0.5),
    Element(0.2, 0.2),
    Element(0.8, 0.2),
    Element(0.5, 0.8),
    Element(0.5, 0.5)]

  /** Playing and then dragging with the starting layout: the source lands
      left of centre and, the ground-truth microphone being last, the
      listener at the origin. */
  lemma InitialLayoutExample(v: string)
    ensures
      var s := Run(Uninitialised, [PlayClicked(v), Dragged(InitialLayout)], UnitRoom);
      && SourceAt(s, Point(-0.075, 0.0, 0.0))
      && ListenerAt(s, Origin)
      && ExactlyOneAudible(s.gains)
      && Audible(s.gains) == ParseMode(v)
  {
    var events := [PlayClicked(v), Dragged(InitialLayout)];
    var s1 := Step(Uninitialised, PlayClicked(v), UnitRoom);
    var s2 := Step(s1, Dragged(InitialLayout), UnitRoom);
    assert events[1..] == [Dragged(InitialLayout)];
    assert [Dragged(InitialLayout)][1..] == [];
    assert Run(s1, [Dragged(InitialLayout)], UnitRoom) == Run(s2, [], UnitRoom) == s2;
    assert Run(Uninitialised, events, UnitRoom) == s2;
    assert ToWorld(InitialLayout[0], UnitRoom) == Point(-0.075, 0.0, 0.0);
    assert ToWorld(InitialLayout[4], UnitRoom) == Origin;
  }
}
