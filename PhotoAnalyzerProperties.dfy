/** What the component's transitions guarantee over whole runs. */
module PhotoAnalyzerProperties {
  import opened PhotoAnalyzerState

  /** Every enabled or ignored event keeps the invariant (takePicture taken as one atomic step). */
  lemma StepPreservesValid(s: Snapshot, e: Event)
    requires Valid(s)
    ensures Valid(Step(s, e))
  {
  }

  /** Every state reached from a valid one keeps the invariant: the countdown stays
      within [0, 300], a live interval implies a running capture, nothing is left analysing
      and the gate message always agrees with the gate. */
  lemma {:induction false} RunPreservesValid(s: Snapshot, events: seq<Event>)
    requires Valid(s)
    ensures Valid(Run(s, events))
    decreases |events|
  {
    if events != [] {
      StepPreservesValid(s, events[0]);
      RunPreservesValid(Step(s, events[0]), events[1..]);
    }
  }

  /** Every state the component can reach from its initial fields is valid. */
  lemma ReachableValid(events: seq<Event>)
    ensures Valid(Run(Initial(), events))
    ensures 0 <= Run(Initial(), events).captureTimeLeft <= Ceiling
  {
    RunPreservesValid(Initial(), events);
  }

  /** While a capture runs, no event makes the countdown go up; a capture that is
      (re)started shows the full length. */
  lemma CountdownNonIncreasing(s: Snapshot, e: Event)
    requires Valid(s)
    ensures s.isCapturing && Step(s, e).isCapturing ==>
              Step(s, e).captureTimeLeft <= s.captureTimeLeft
    ensures !s.isCapturing && Step(s, e).isCapturing ==>
              Step(s, e).captureTimeLeft == Ceiling
  {
  }

  /** In the atomic model of takePicture, a press leaves the interval armed only if none was
      live before it, so `setInterval` never overwrites the handle of a running interval. */
  lemma NoSecondInterval(s: Snapshot, camera: CameraOutcome, classifier: ClassifyOutcome)
    requires Valid(s) && Enabled(s, Press(camera, classifier))
    ensures Step(s, Press(camera, classifier)).timerArmed ==> !s.timerArmed
  {
  }

  /** Firings of an armed interval count the capture down by one each, changing nothing else. */
  lemma {:induction false} TicksCountDown(s: Snapshot, n: nat)
    requires s.isCapturing && s.timerArmed && n <= s.captureTimeLeft
    ensures Ticks(s, n) == s.(captureTimeLeft := s.captureTimeLeft - n)
    decreases n
  {
    if n > 0 {
      var next := Step(s, TimerFires);
      assert next == s.(captureTimeLeft := s.captureTimeLeft - 1);
      TicksCountDown(next, n - 1);
    }
  }

  /** A capture with `k` seconds left is still on after `k` firings and stopped by firing k + 1,
      which resets it exactly as stopCapture does. */
  lemma {:induction false} CaptureEndsAfterCountdown(s: Snapshot)
    requires s.isCapturing && s.timerArmed && s.captureTimeLeft >= 0
    ensures forall n: nat :: n <= s.captureTimeLeft ==> Ticks(s, n).isCapturing
    ensures Ticks(s, s.captureTimeLeft + 1) == Stopped(s)
  {
    forall n: nat | n <= s.captureTimeLeft
      ensures Ticks(s, n).isCapturing
    {
      TicksCountDown(s, n);
    }
    var k := s.captureTimeLeft;
    TicksCountDown(s, k);
    var last := s.(captureTimeLeft := 0);
    assert Ticks(s, k) == last;
    TicksAfter(s, k, 1);
    assert Ticks(s, k + 1) == Ticks(last, 1);
    assert Ticks(last, 1) == Ticks(Step(last, TimerFires), 0);
    assert Step(last, TimerFires) == Stopped(last);
  }

  /** Firing m + n times is firing m times and then n times. */
  lemma {:induction false} TicksAfter(s: Snapshot, m: nat, n: nat)
    ensures Ticks(s, m + n) == Ticks(Ticks(s, m), n)
    decreases m
  {
    if m > 0 {
      TicksAfter(Step(s, TimerFires), m - 1, n);
    }
  }

  /** A press that starts a capture and acquires an image keeps the capture on through
      300 firings of the interval and ends it on the 301st. */
  lemma CaptureLasts301Ticks(s: Snapshot, data: string, classifier: ClassifyOutcome)
    requires Valid(s) && s.isInRange && !s.isCapturing && data != ""
    ensures var t := Step(s, Press(Image(data), classifier));
            && t.isCapturing && t.captureTimeLeft == Ceiling
            && (forall n: nat :: n <= 300 ==> Ticks(t, n).isCapturing)
            && !Ticks(t, 301).isCapturing
  {
    var t := Step(s, Press(Image(data), classifier));
    CaptureEndsAfterCountdown(t);
  }

  /** Firings of an interval that is not armed change nothing: the model ignores them. */
  lemma {:induction false} TicksUnarmed(s: Snapshot, n: nat)
    requires !s.timerArmed
    ensures Ticks(s, n) == s
    decreases n
  {
    if n > 0 {
      assert Step(s, TimerFires) == s;
      TicksUnarmed(s, n - 1);
    }
  }

  /** A press from an idle state whose camera returns no image (undefined or empty) leaves the
      capture on with no interval armed, so no number of firings ever ends it; only the next
      click does. */
  lemma NoImageStaysOn(s: Snapshot, camera: CameraOutcome, classifier: ClassifyOutcome, n: nat)
    requires Valid(s) && s.isInRange && !s.isCapturing
    requires camera.NoImage? || camera == Image("")
    ensures var t := Step(s, Press(camera, classifier));
            && t.isCapturing && !t.timerArmed && t.captureTimeLeft == Ceiling
            && Ticks(t, n) == t
  {
    var t := Step(s, Press(camera, classifier));
    TicksUnarmed(t, n);
  }
}
