/**
 * The elapsed-time counter of the recorder windows (start_timer, stop_timer and
 * update_timer, identical in miniscreenrecorder.py, main.py and
 * MiniScreenRecorder.py) and the "%H:%M:%S" text of the timer label.
 */
module Timer {
  import opened Text

  /** Whether the counter is running, and the seconds it has counted. */
  datatype Clock = Clock(running: bool, elapsed: nat)

  /** update_timer: one second more, but only while running. */
  function Update(c: Clock): Clock
  {
    if c.running then Clock(true, c.elapsed + 1) else c
  }

  /** start_timer: running from zero, and the first update_timer runs at once, so the label shows 1. */
  function Start(): (c: Clock)
    ensures c.running && c.elapsed == 1
  {
    Update(Clock(true, 0))
  }

  /** stop_timer: the count stays, the counting stops. */
  function Stop(c: Clock): Clock
  {
    Clock(false, c.elapsed)
  }

  /** n further seconds of scheduled updates. */
  function Run(c: Clock, n: nat): Clock
    decreases n
  {
    if n == 0 then c else Run(Update(c), n - 1)
  }

  /** A running counter gains exactly one per second; a stopped one does not move. */
  lemma {:induction false} RunCounts(c: Clock, n: nat)
    ensures Run(c, n) == Clock(c.running, c.elapsed + if c.running then n else 0)
    decreases n
  {
    if n > 0 {
      RunCounts(Update(c), n - 1);
    }
  }

  /** n seconds after a start the counter shows n + 1. */
  lemma RunAfterStart(n: nat)
    ensures Run(Start(), n) == Clock(true, n + 1)
  {
    RunCounts(Start(), n);
  }

  /** After a stop, no amount of time changes the counter. */
  lemma RunAfterStop(c: Clock, n: nat)
    ensures Run(Stop(c), n) == Stop(c)
  {
    RunCounts(Stop(c), n);
  }

  // ---------------------------------------------------------------
  // The label text
  // ---------------------------------------------------------------

  /** `time.strftime("%H:%M:%S", time.gmtime(elapsed))`: hours wrap at a day. */
  function LabelText(elapsed: nat): (s: string)
    ensures |s| == 8 && s[2] == ':' && s[5] == ':'
  {
    var h, m, sec := elapsed / 3600 % 24, elapsed / 60 % 60, elapsed % 60;
    TwoDigits(h) + ":" + TwoDigits(m) + ":" + TwoDigits(sec)
  }

  /** Reading the three fields of the label back gives the elapsed time within the day. */
  lemma LabelTextRead(elapsed: nat)
    ensures var s := LabelText(elapsed);
      ParseNat(s[0..2]) * 3600 + ParseNat(s[3..5]) * 60 + ParseNat(s[6..8]) == elapsed % 86400
  {
    var h, m, sec := elapsed / 3600 % 24, elapsed / 60 % 60, elapsed % 60;
    var s := LabelText(elapsed);
    assert s[0..2] == TwoDigits(h);
    assert s[3..5] == TwoDigits(m);
    assert s[6..8] == TwoDigits(sec);
    TwoDigitsRead(h);
    TwoDigitsRead(m);
    TwoDigitsRead(sec);
    DayDecomposition(elapsed);
  }

  /** A time of day splits into hours, minutes and seconds. */
  lemma DayDecomposition(e: nat)
    ensures (e / 3600 % 24) * 3600 + (e / 60 % 60) * 60 + e % 60 == e % 86400
  {
    var q, d := e / 86400, e % 86400;
    var h, r := d / 3600, d % 3600;
    var m, sec := r / 60, r % 60;
    assert h < 24 && m < 60;
    Div3600(e, 24 * q + h, r);
    Div24(24 * q + h, q, h);
    Div60(e, 1440 * q + 60 * h + m, sec);
    Div60(1440 * q + 60 * h + m, 24 * q + h, m);
  }

  /** Division by a constant is determined by a quotient and remainder in range. */
  lemma Div60(x: int, a: int, b: int)
    requires x == 60 * a + b && 0 <= b < 60
    ensures x / 60 == a && x % 60 == b
  {
  }

  lemma Div3600(x: int, a: int, b: int)
    requires x == 3600 * a + b && 0 <= b < 3600
    ensures x / 3600 == a && x % 3600 == b
  {
  }

  lemma Div24(x: int, a: int, b: int)
    requires x == 24 * a + b && 0 <= b < 24
    ensures x / 24 == a && x % 24 == b
  {
  }

  // ---------------------------------------------------------------
  // Scheduled callbacks: root.after(1000, update_timer)
  // ---------------------------------------------------------------

  /**
   * The counter together with the number of update_timer callbacks still
   * scheduled. stop_timer only clears `running`: a callback already
   * scheduled stays scheduled, and dies only when it fires and finds the
   * counter stopped.
   */
  datatype Timer = Timer(clock: Clock, pending: nat)

  /** start_timer as written: the immediate update schedules one more callback. */
  function StartWritten(t: Timer): Timer
  {
    Timer(Update(Clock(true, 0)), t.pending + 1)
  }

  /** stop_timer as written: the scheduled callbacks survive. */
  function StopWritten(t: Timer): Timer
  {
    Timer(Stop(t.clock), t.pending)
  }

  /**
   * One second: every scheduled callback fires once. Each one counts a second
   * and schedules its successor while running; each one lapses when stopped.
   */
  function Second(t: Timer): Timer
  {
    if t.clock.running then Timer(Clock(true, t.clock.elapsed + t.pending), t.pending)
    else Timer(t.clock, 0)
  }

  /**
   * Stopping and starting again before the old callback has fired leaves two
   * callback chains running: one second later the label shows 3 instead of 2,
   * and from then on it gains two per second.
   */
  lemma QuickRestartCountsTwice()
    ensures var t := StartWritten(StopWritten(StartWritten(Timer(Clock(false, 0), 0))));
      && t.pending == 2
      && Second(t).clock == Clock(true, 3)
      && Second(t).clock != Update(t.clock)
      && Second(Second(t)).clock.elapsed == 5
  {
  }

  /** stop_timer with its pending callback cancelled (Tk's `after_cancel`). */
  function StopCancelling(t: Timer): Timer
  {
    Timer(Stop(t.clock), 0)
  }

  /** Exactly one callback is scheduled while running, none while stopped. */
  ghost predicate SingleChain(t: Timer)
  {
    t.pending == if t.clock.running then 1 else 0
  }

  /**
   * With the cancelling stop, every start, stop and second keeps a single
   * chain, and under a single chain a second is exactly one update_timer:
   * the callback-free Clock used by the session model.
   */
  lemma CancellingKeepsSingleChain(t: Timer)
    requires SingleChain(t)
    ensures SingleChain(StopCancelling(t))
    ensures SingleChain(StartWritten(StopCancelling(t)))
    ensures SingleChain(Second(t)) && Second(t).clock == Update(t.clock)
  {
  }

  /** Under a single chain, n seconds are n updates. */
  lemma {:induction false} SecondsAreUpdates(t: Timer, n: nat)
    requires SingleChain(t)
    ensures SingleChain(Seconds(t, n)) && Seconds(t, n).clock == Run(t.clock, n)
    decreases n
  {
    if n > 0 {
      CancellingKeepsSingleChain(t);
      SecondsAreUpdates(Second(t), n - 1);
    }
  }

  function Seconds(t: Timer, n: nat): Timer
    decreases n
  {
    if n == 0 then t else Seconds(Second(t), n - 1)
  }
}
