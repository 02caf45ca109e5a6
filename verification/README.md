# Panner-node comparison page: routing and position model

This project models the logic of the panner-node comparison page of the
audio simulator. One mono source feeds four parallel rendering paths at the
same time:

- no spatialisation;
- a Web Audio panner node using HRTF;
- a first-order ambisonic ResonanceAudio scene;
- a third-order ambisonic ResonanceAudio scene.

Each path goes through its own gain stage to the output. The page does three
things, and the model has all three:

- **Rendering-mode switch** (`RenderingMode`, `AudioGraph.Select`). The
  drop-down's value opens exactly one gain stage fully and closes the other
  three. `"toa"`, `"foa"` and `"panner-node"` are recognised. Every other
  value, `"none"` included, selects the unspatialised path.
- **Position mapping and role dispatch** (`Geometry`,
  `AudioGraph.UpdatePositions`). A canvas marker at normalised `(x, y)` is
  placed at `((x - 0.5) * width / 2, 0, (y - 0.5) * depth / 2)`. Element 0 is
  the source. Its point goes to the panner node and to the source of both
  scenes. Every later element is a listener. Each one overwrites the same
  shared listener state: the audio context's listener and the listener of
  both scenes. So the last element wins.
- **Readiness gate** (`AudioGraph.InitAudio`, `AudioGraph.Play`, `Session`).
  Mode changes and canvas updates do nothing until the Play button first
  builds the graph. Building raises the flag once and then applies the
  current mode straight away.

The state is one immutable record (`AudioGraph.State`): the readiness flag,
the four gains, the three source positions and the three listener positions.
The handlers are pure functions of that record. `Session` applies a sequence
of UI events and proves three things: the flag is raised at most once and is
never lowered; exactly one path is audible from the first ready state onward;
and the three renderers always agree on where the source and the listener
are.

Modelling choices:

- The drop-down's current value and the canvas element list are parameters.
  The page reads them from the DOM.
- The room extent is a parameter. The page fixes it to the unit cube.
- Coordinates are mathematical reals.
- A freshly built graph has every gain stage at 1 and every position at the
  origin. These are the Web Audio and ResonanceAudio defaults. The gains are
  overwritten at once by the mode selection that ends initialisation.

## Model

| member | source | states |
|---|---|---|
| Geometry.ToWorld | examples/resources/js/vs-pannernode.js:72-74 | The vertical coordinate is always 0. In a room of positive width, the world x is negative, zero or positive exactly when the canvas x is left of, at or right of the centre 0.5. Depth and canvas y behave the same way. |
| Geometry.CanvasRoundTrip | examples/resources/js/vs-pannernode.js:72-74 | In any room of non-zero width and depth, the canvas position can be recovered exactly from its world position. The mapping loses nothing. |
| Geometry.WorldRoundTrip | examples/resources/js/vs-pannernode.js:72-74 | Every point of the horizontal plane is the image of exactly the canvas position the inverse gives. |
| Geometry.CentreIsOrigin | examples/resources/js/vs-pannernode.js:72-74 | The canvas centre (0.5, 0.5) maps to the world origin for every room. |
| Geometry.HeightIgnored | examples/resources/js/vs-pannernode.js:72-74 | Changing the room's height never changes the mapped point. |
| Geometry.Displacement | examples/resources/js/vs-pannernode.js:72-74 | The mapping is affine. Moving a marker moves its point by the canvas displacement times half the room extent along each axis, and never vertically. |
| Geometry.CanvasSpan | examples/resources/js/vs-pannernode.js:72-74 | In a room of positive width, a marker's canvas x lies in [0, 1] if and only if its world x lies within a quarter of the width of the centre. Inputs off the canvas are not clamped and land outside that band. |
| Geometry.UnitRoomExamples | examples/resources/js/vs-pannernode.js:13-213 | In the page's unit room (line 13), the source's starting marker (0.35, 0.5, lines 192-195) lands at (-0.075, 0, 0) and the second microphone's marker (0.8, 0.2, lines 210-213) lands at (0.15, 0, -0.15). |
| RenderingMode.ParseMode | examples/resources/js/vs-pannernode.js:25-58 | `"toa"`, `"foa"` and `"panner-node"` each select their own path, in both directions. Every other string, `"none"` included, selects the unspatialised path. |
| RenderingMode.GainsFor | examples/resources/js/vs-pannernode.js:26-58 | The selected path's gain is 1, every other path's gain is 0, and so exactly one path is audible. |
| RenderingMode.Audible | examples/resources/js/vs-pannernode.js:28-56 | For levels in which exactly one path is audible, it names the path at full level and shows all the others silent. |
| RenderingMode.GainsRoundTrip | examples/resources/js/vs-pannernode.js:25-59 | Modes and valid gain settings correspond one to one. Reading back the audible path gives the selected mode, and every valid setting is the one some mode writes. |
| AudioGraph.Select | examples/resources/js/vs-pannernode.js:21-60 | Before the graph exists, the whole state is unchanged. Afterwards only the gains change: exactly one path is audible, and it is the path the drop-down value names. |
| AudioGraph.SelectLastWins | examples/resources/js/vs-pannernode.js:21-60 | Selecting the same value twice equals selecting it once. A later selection completely overrides an earlier one. |
| AudioGraph.UnknownValueFallsBack | examples/resources/js/vs-pannernode.js:50-58 | Once ready, selecting `"toa"` and then an unknown value leaves only the unspatialised path open. |
| AudioGraph.Place | examples/resources/js/vs-pannernode.js:76-85 | Index 0 moves all three source positions to the point and keeps the listener. Any other index moves all three listener positions to the point and keeps the source. Nothing else changes. |
| AudioGraph.PlaceAll | examples/resources/js/vs-pannernode.js:71-86 | After placing a list in index order, the source is at element 0's point. The listener is at the last element's point when there are at least two elements, and is unchanged otherwise. An empty list changes nothing. |
| AudioGraph.UpdatePositions | examples/resources/js/vs-pannernode.js:67-87 | Before the graph exists, or for an empty list, the state is unchanged. Otherwise all three source positions equal element 0's mapped point. All three listener positions equal the last element's mapped point when there are at least two elements, and are unchanged otherwise. Gains and the flag are never touched, and coherence is kept. |
| AudioGraph.UpdatePositionsLoop | examples/resources/js/vs-pannernode.js:67-87 | The for-loop with its index branch computes exactly the state of the functional definition. |
| AudioGraph.MiddleListenersIgnored | examples/resources/js/vs-pannernode.js:81-85 | For two or more elements, the result depends only on the first and last elements. Listener markers in between have no effect. |
| AudioGraph.UpdateIdempotent | examples/resources/js/vs-pannernode.js:67-87 | Applying the same element list again changes nothing further. |
| AudioGraph.SelectUpdateCommute | examples/resources/js/vs-pannernode.js:21-87 | A mode change and a canvas update write disjoint parts of the state, so their order does not matter. |
| AudioGraph.InitAudio | examples/resources/js/vs-pannernode.js:104-141 | Building the graph always leaves it ready. Exactly one path is audible, and it is the one the current drop-down value names. Every renderer places the source and the listener at the origin. |
| AudioGraph.Play | examples/resources/js/vs-pannernode.js:164-169 | After Play the graph exists. If it already existed, Play changes nothing. If not, the current mode is applied, and both the source and the listener are at the origin in all three renderers. Coherence is kept. |
| Session.StepPreserves | examples/resources/js/vs-pannernode.js:164-187 | No single event breaks coherence or lowers the flag. After the event the flag is up exactly when it was up before or the event is a Play click. |
| Session.ReadyIsPermanent | examples/resources/js/vs-pannernode.js:167-169 | Once up, the flag stays up for the rest of the session. At the end of a session it is up exactly when it started up or Play was clicked at some point. |
| Session.BuiltAtMostOnce | examples/resources/js/vs-pannernode.js:140-141 | The flag is raised at most once in any session. It is never raised if it started up. It is raised exactly once when the session starts without the graph and ends with it. |
| Session.RunPreservesCoherence | examples/resources/js/vs-pannernode.js:21-87 | Every state reached from a coherent state is coherent. From the first ready state onward, exactly one path is audible and the three renderers agree on the source and listener positions. |
| Session.SessionFromLoadIsCoherent | examples/resources/js/vs-pannernode.js:14-14 | For any sequence of events starting from page load, once the graph exists exactly one path is audible, and the three renderers agree on the source and listener positions. |
| Session.GainsStableWithoutModeChange | examples/resources/js/vs-pannernode.js:67-87 | Once the graph exists, events other than mode changes never alter the gains. |
| Session.LastModeChangeWins | examples/resources/js/vs-pannernode.js:21-60 | Once the graph exists, the last mode change decides which single path is heard, whatever came before it and whatever non-mode events follow it. |
| Session.InitialLayoutExample | examples/resources/js/vs-pannernode.js:190-236 | Clicking Play and then reporting the page's starting layout puts the source at (-0.075, 0, 0). The listener goes to the origin, because the ground-truth microphone comes last. The chosen mode is the only audible path. |

## Left out

- Building and wiring the audio graph (lines 94-138): the audio context, the media element, node creation, panner settings and the `connect` calls. These are calls into the browser's audio API and the ResonanceAudio library. Only the values the page writes to those objects are modelled.
- Construction failure: if the audio API throws during building, the flag stays down and the failure reaches the click handler. The model treats building as always succeeding.
- The waveform analyser and `getWaveformData` (lines 134-138, 144-159): audio I/O and console logging. As written, line 136 declares `audioSource` a second time with `let` in the same function, which a JavaScript engine rejects when it parses the script. Even with that name changed, line 136 calls `createMediaElementSource` a second time on the element that line 102 already used. Browsers such as Chromium and WebKit throw `InvalidStateError` for that. `analyser` is never declared either. The model follows the evident intent and leaves the analyser out.
- AudioGraph.InitAudio: the model is the page without lines 134-138. As written, the script does not parse, so the load handler is never registered. Even with the duplicate `let` renamed, `initAudio` would throw at line 136 on every Play click, before lines 140-141. The readiness flag would then never be raised, and each click would create a new audio context. `AudioGraph.Play` and every `Session` lemma describe the page without the analyser lines.
- DOM and UI: reading the drop-down value (line 25, a parameter here), the Play/Pause button text and `audioElement.play`/`pause` (lines 170-180), and the canvas control with its icons, radii and alpha values (lines 189-236). Only the canvas elements' `x` and `y` are used. The three handlers registered at lines 164, 187 and 237, including the Play guard at lines 167-169, are modelled as `Session` events.
- Floating-point rounding: coordinates are reals.
- Audio rendering on the audio thread, which only reads the gains and positions.
- The handlers receive the whole element list on every canvas update. A separate per-index position update is not an operation of the page.
