# Waste classifier: capture and classification state machine

A Dafny model of `PhotoAnalyzerComponent`, the Angular component of a waste classifier. It
works in four parts:

- It gates a capture button behind a proximity reading (5 to 10 cm, bounds included).
- On a click, it takes one photo.
- It sends the photo to a remote classifier and shows the returned label or an error.
- It runs a one-second interval that counts a 300-second capture down to its end.

The project has three modules:

- `PhotoAnalyzerState` (PhotoAnalyzerState.dfy) holds the component's fields as a `Snapshot`
  value. Each handler becomes a transition function whose contract states what the handler
  does. `Step` and `Run` replay a sequence of events: sensor readings, clicks and interval
  firings. A click is ignored while the button is disabled (out of range or analysing). The
  interval fires only while it is armed.
- `PhotoAnalyzerProperties` (PhotoAnalyzerProperties.dfy) proves what holds over whole runs:
  - the state invariant;
  - the countdown never goes up while a capture runs;
  - with `takePicture` taken as one atomic step, no second interval is armed over a live one;
  - a capture that acquired an image ends on the 301st firing of the interval;
  - a capture that acquired no image stays on whatever the interval does.
- `PhotoAnalyzer` (PhotoAnalyzer.dfy) is the component as a class. Its fields are updated in
  place by methods that mirror the handlers statement by statement. Each method's `ensures`
  ties the new fields to the transition function applied to the old fields. The boolean
  `timerArmed` stands for `captureInterval` holding an interval that has not been cleared.

The camera and the classifier are foreign code. Their results are passed in as values:

- `CameraOutcome = Image(data) | NoImage | CameraFailed`: a base64 string, `undefined`, or a
  thrown error.
- `ClassifyOutcome = Label(text) | ClassifyFailed`: the raw response text, or a thrown error.

As written, the component:

- uses a fixed proximity window of [5, 10];
- stores the label exactly as returned, without checking it against {organic, inorganic};
- does not clear the image, the label or the error on stop;
- takes one photo and classifies it once per capture;
- has no state for a failed proximity sensor;
- applies a classification result without checking that the capture is still active.

Two behaviours of the code as written are stated rather than corrected:

- When the camera returns no image, the capture stays on with no countdown until the next
  click.
- The interval stops the capture on the firing after the one that reaches 0. A capture of 300
  seconds therefore lasts 301 firings.

## Model

| member | source | states |
|---|---|---|
| `PhotoAnalyzerState.Initial` | src/app/components/photo-analyzer/photo-analyzer.component.ts:146-154 | The initial fields: not capturing, not in range, not analysing, no interval, 300 seconds left, the "approach" message, nothing shown; this state satisfies the invariant |
| `PhotoAnalyzerState.AfterDistance` | src/app/components/photo-analyzer/photo-analyzer.component.ts:164-171 | After a reading d, `isInRange` holds exactly when 5 <= d <= 10; the message is the "Distancia correcta" text exactly when in range and the "Acerque el residuo" text exactly when not; capture and display fields are untouched |
| `PhotoAnalyzerState.Stopped` | src/app/components/photo-analyzer/photo-analyzer.component.ts:202-208 | stopCapture leaves the capture off, the interval cleared and 300 seconds left; image, label, error, gate and `analyzing` are unchanged |
| `PhotoAnalyzerState.AfterClassify` | src/app/components/photo-analyzer/photo-analyzer.component.ts:210-224 | With no truthy image nothing changes; otherwise `analyzing` ends false, a label is stored raw with the error cleared, and a failure sets the analysis message while keeping the previous label; capture fields and the image are unchanged |
| `PhotoAnalyzerState.AfterClick` | src/app/components/photo-analyzer/photo-analyzer.component.ts:173-200 | A click while capturing only stops. Otherwise, a camera failure sets the camera message and stops, keeping the previous image, label and `analyzing`. No image (undefined or empty) leaves the capture on with no new interval, the error cleared, the label kept. An image is classified, then the interval is armed with 300 seconds left. The acquisition part (lines 184-194) is the helper `AfterAcquire`, specified through this contract |
| `PhotoAnalyzerState.AfterTick` | src/app/components/photo-analyzer/photo-analyzer.component.ts:187-193 | A firing with time left > 0 decrements it by exactly one and changes nothing else; with time left <= 0 it performs stopCapture |
| `PhotoAnalyzerState.Step` | src/app/components/photo-analyzer/photo-analyzer.component.ts:20-25 | A disabled click (out of range or analysing) changes nothing; a capture can begin only through a click made in range and not analysing |
| `PhotoAnalyzerProperties.StepPreservesValid` | src/app/components/photo-analyzer/photo-analyzer.component.ts:164-224 | Every event of the atomic model keeps the invariant: time left within [0, 300], a live interval only during a capture, 300 whenever not capturing, not analysing between events, message agreeing with the gate |
| `PhotoAnalyzerProperties.RunPreservesValid` | src/app/components/photo-analyzer/photo-analyzer.component.ts:164-224 | Any sequence of events from a valid state ends in a valid state (by induction on the events) |
| `PhotoAnalyzerProperties.ReachableValid` | src/app/components/photo-analyzer/photo-analyzer.component.ts:146-154 | Every state reachable from the initial fields is valid, so the countdown stays within [0, 300] |
| `PhotoAnalyzerProperties.CountdownNonIncreasing` | src/app/components/photo-analyzer/photo-analyzer.component.ts:179-192 | While a capture continues, no event increases the time left; a capture that begins starts at 300 |
| `PhotoAnalyzerProperties.NoSecondInterval` | src/app/components/photo-analyzer/photo-analyzer.component.ts:187-193 | In the atomic model of takePicture, an enabled click leaves an interval armed only if none was live before, so setInterval never overwrites a running interval's handle (see Left out) |
| `PhotoAnalyzerProperties.TicksCountDown` | src/app/components/photo-analyzer/photo-analyzer.component.ts:188-192 | n <= k firings of the interval with k seconds left give exactly the same state with k - n seconds left |
| `PhotoAnalyzerProperties.CaptureEndsAfterCountdown` | src/app/components/photo-analyzer/photo-analyzer.component.ts:188-192 | With k seconds left the capture is still on after every n <= k firings, and firing k + 1 yields exactly the stopCapture state |
| `PhotoAnalyzerProperties.CaptureLasts301Ticks` | src/app/components/photo-analyzer/photo-analyzer.component.ts:179-193 | A click that starts a capture and acquires an image gives 300 seconds left, a capture still on after 300 firings, and over on the 301st |
| `PhotoAnalyzerProperties.TicksUnarmed` | src/app/components/photo-analyzer/photo-analyzer.component.ts:187-193 | When no interval is armed, any number of firings leaves the state exactly as it was |
| `PhotoAnalyzerProperties.NoImageStaysOn` | src/app/components/photo-analyzer/photo-analyzer.component.ts:179-194 | A click from idle whose camera returns no image (undefined or empty) leaves the capture on with 300 seconds shown and no interval armed, and no number of firings changes that state |
| `PhotoAnalyzer.PhotoAnalyzerComponent.constructor` | src/app/components/photo-analyzer/photo-analyzer.component.ts:146-162 | The fields start as `Initial` and satisfy the invariant |
| `PhotoAnalyzer.PhotoAnalyzerComponent.OnDistance` | src/app/components/photo-analyzer/photo-analyzer.component.ts:164-171 | Updates the fields in place to `AfterDistance` of the old fields and keeps the invariant |
| `PhotoAnalyzer.PhotoAnalyzerComponent.TakePicture` | src/app/components/photo-analyzer/photo-analyzer.component.ts:173-200 | Callable only in range and not analysing; updates the fields in place to `AfterClick` of the old fields and keeps the invariant |
| `PhotoAnalyzer.PhotoAnalyzerComponent.StopCapture` | src/app/components/photo-analyzer/photo-analyzer.component.ts:202-208 | Updates the fields in place to `Stopped` of the old fields |
| `PhotoAnalyzer.PhotoAnalyzerComponent.ClassifyWaste` | src/app/components/photo-analyzer/photo-analyzer.component.ts:210-224 | Updates the fields in place to `AfterClassify` of the old fields |
| `PhotoAnalyzer.PhotoAnalyzerComponent.Tick` | src/app/components/photo-analyzer/photo-analyzer.component.ts:187-193 | Callable only while the interval is armed; updates the fields in place to `AfterTick` of the old fields and keeps the invariant |

## Left out

- The camera service (src/app/services/camera.service.ts) is I/O over the browser's media
  devices and the Capacitor camera. It is represented only by `CameraOutcome`. Its rewriting of
  exception messages is not modelled: the component replaces the message anyway.
- The classifier service (src/app/services/gemini.service.ts) is a call into the remote model's
  SDK with a fixed prompt. It is represented only by `ClassifyOutcome`.
- The proximity service is not part of this model. Its stream is a sequence of `OnDistance`
  calls (or `Reading` events).
- Real timing is not modelled: `setInterval`/`clearInterval` and the one-second cadence are
  not. A firing is an explicit `Tick` step.
- Interleavings at the `await` points are not modelled. `takePicture` is atomic given the
  injected outcomes. Its intermediate states are therefore not observable in the model, for
  example a second click during the camera wait, or `analyzing` being true during
  classification.
- Distances are real numbers. NaN and the infinities of JavaScript numbers are not modelled.
- The template, styles, dependency injection and `console.error` logging are left out. So is
  the `captureInterval` handle's value; only whether it is live is kept.
- PhotoAnalyzerProperties.NoSecondInterval and PhotoAnalyzerProperties.StepPreservesValid
  hold only with an atomic `takePicture`. In the component, a second click can arrive while
  the camera call (line 184) is still waiting, because `analyzing` is still false and the
  button stays enabled. That click runs `stopCapture`. When the first call resumes, line 187
  arms an interval while `isCapturing` is false. That interval counts `captureTimeLeft` down
  with no capture running, which breaks `timerArmed ==> isCapturing` and
  `!isCapturing ==> captureTimeLeft == 300`. A third click then starts a capture whose
  `setInterval` overwrites the first handle. From then on `stopCapture` clears only the newer
  interval, and the first is never cleared.
