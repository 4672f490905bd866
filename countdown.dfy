/** The timing of a capture sequence, recorded as events instead of real
    time. Each pass of the sequence shows the countdown labels one after
    the other (each followed by one animation frame and a one-second
    delay), takes the photo, clears the countdown and pauses. */
module Countdown {
  import opened Wrappers

  /** One observable step of a capture sequence. */
  datatype Event =
    | ShowCountdown(text: Option<string>)  // the countdown overlay is set (None hides it)
    | NextFrame                             // one animation frame is awaited
    | Delay(ms: nat)                        // a timer of `ms` milliseconds is awaited
    | Capture                               // `takePhoto` runs

  /** The countdown labels of one pass, in the order they are shown. */
  const LABELS: seq<string> := ["3..", "2..", "1..", "Smile!"]

  /** How long each countdown label stays up. */
  const STEP_MS: nat := 1000

  /** The pause after a shot: longer for sequences of more than three photos. */
  function PauseTime(count: int): nat {
    if count > 3 then 800 else 500
  }

  /** The events of `countdownStep(text)`. */
  function Step(text: string): seq<Event> {
    [ShowCountdown(Some(text)), NextFrame, Delay(STEP_MS)]
  }

  /** The events of one pass of a sequence of `count` photos: the four
      countdown steps, the capture, the countdown cleared, the pause. */
  function Pass(count: int): (t: seq<Event>)
    ensures |t| == 15
  {
    Step(LABELS[0]) + Step(LABELS[1]) + Step(LABELS[2]) + Step(LABELS[3])
      + [Capture, ShowCountdown(None), Delay(PauseTime(count))]
  }

  /** The events of the first `n` passes of a sequence of `count` photos. */
  function Session(count: int, n: nat): seq<Event>
  {
    if n == 0 then [] else Session(count, n - 1) + Pass(count)
  }

  lemma {:induction false} SessionLength(count: int, n: nat)
    ensures |Session(count, n)| == 15 * n
  {
    if n > 0 {
      SessionLength(count, n - 1);
    }
  }

  /** The session is `n` passes laid end to end: event `j` of pass `i` is at
      position `15 * i + j`. */
  lemma {:induction false} SessionAt(count: int, n: nat, i: nat, j: nat)
    requires i < n && j < 15
    ensures |Session(count, n)| == 15 * n
    ensures Session(count, n)[15 * i + j] == Pass(count)[j]
  {
    SessionLength(count, n - 1);
    if i < n - 1 {
      SessionAt(count, n - 1, i, j);
    }
  }

  /** Every event of a session is the event at the same offset of a pass. */
  lemma SessionEvent(count: int, n: nat, k: nat)
    requires k < |Session(count, n)|
    ensures Session(count, n)[k] == Pass(count)[k % 15]
  {
    SessionLength(count, n);
    SessionAt(count, n, k / 15, k % 15);
  }

  /** Each pass captures exactly once, after its countdown: the captures of
      a session are exactly the events at offset 12 of a pass, so a session
      of `n` passes captures exactly `n` times. */
  lemma CaptureOffsets(count: int, n: nat, k: nat)
    requires k < |Session(count, n)|
    ensures Session(count, n)[k] == Capture <==> k % 15 == 12
  {
    SessionEvent(count, n, k);
    var p := Pass(count);
    assert p == [ShowCountdown(Some("3..")), NextFrame, Delay(1000),
                 ShowCountdown(Some("2..")), NextFrame, Delay(1000),
                 ShowCountdown(Some("1..")), NextFrame, Delay(1000),
                 ShowCountdown(Some("Smile!")), NextFrame, Delay(1000),
                 Capture, ShowCountdown(None), Delay(PauseTime(count))];
  }

  /** Every capture is preceded by the full countdown of its pass and followed
      by the countdown being cleared and the pause: 800 ms when more than
      three photos were asked for, 500 ms otherwise. */
  lemma CaptureInContext(count: int, n: nat, k: nat)
    requires k < |Session(count, n)| && Session(count, n)[k] == Capture
    ensures 12 <= k && k + 2 < |Session(count, n)|
    ensures Session(count, n)[k - 12 .. k] ==
              Step("3..") + Step("2..") + Step("1..") + Step("Smile!")
    ensures Session(count, n)[k + 1] == ShowCountdown(None)
    ensures Session(count, n)[k + 2] == Delay(if count > 3 then 800 else 500)
  {
    CaptureOffsets(count, n, k);
    SessionLength(count, n);
    var i := k / 15;
    assert k == 15 * i + 12;
    var t, p := Session(count, n), Pass(count);
    forall j | 0 <= j < 15
      ensures t[15 * i + j] == p[j]
    {
      SessionAt(count, n, i, j);
    }
    assert p[..12] == Step("3..") + Step("2..") + Step("1..") + Step("Smile!");
    assert t[k - 12 .. k] == p[..12];
    assert t[k + 1] == p[13] && t[k + 2] == p[14];
  }
}
