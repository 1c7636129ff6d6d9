/** How a file transfer limits its progress signals to about one a second: byte counts, wall clock readings, and one
    timer. Signed arithmetic wraps around at 32 bits where the source computes in `gint`. */
module ProgressThrottle {
  import opened Collections
  import opened CStrings

  const UINT64: nat := 0x1_0000_0000_0000_0000
  const INT_MIN: int := -0x8000_0000
  const SECOND: int := 1_000_000

  /** A clock reading: seconds, and microseconds below one second. */
  datatype Time = Time(sec: int, usec: nat)

  predicate IsTime(t: Time) { t.usec < SECOND }

  function Micros(t: Time): int { SECOND * t.sec + t.usec }

  /** `final` is set on signals sent because everything has been transferred. */
  datatype Signal = Signal(bytes: nat, at: Time, final: bool)

  datatype Timer = Timer(delay: nat, since: Time)

  /** `sources` counts the timeouts the main loop holds, `timer` is the one remembered; `shown` is the count listeners
      know, `clock` the latest reading. */
  datatype Progress = Progress(bytes: nat, size: nat, last: Time, timer: Option<Timer>, sources: int, shown: nat,
                               log: seq<Signal>, clock: Time)

  function Init(size: nat): Progress { Progress(0, size, Time(0, 0), None, 0, 0, [], Time(0, 0)) }

  /** A chunk arrives, with the reading taken on arrival and the one taken if a signal is sent; or the timer fires. */
  datatype Event = Chunk(count: nat, now: Time, sent: Time) | Fire(now: Time)

  /** C's division truncates towards zero. */
  function Quotient(a: int, b: int): int
    requires b > 0
  {
    if a >= 0 then a / b else -(-a / b)
  }

  /** `ABS` on a `gint`: the smallest one has no positive counterpart. */
  function Abs32(i: int): int { if i < 0 && i != INT_MIN then -i else i }

  function Seconds(now: Time, last: Time): int { ToInt32(now.sec - last.sec) }

  /** Milliseconds since the last signal, as computed. */
  function Millis(now: Time, last: Time): int {
    ToInt32(ToInt32(Seconds(now, last) * 1000) + Quotient(now.usec - last.usec, 1000))
  }

  // ----- the handlers -----

  /** `emit_progress_update`. */
  function Emit(s: Progress, now: Time, final: bool): Progress {
    s.(last := now, shown := s.bytes, timer := None, sources := if s.timer.Some? then s.sources - 1 else s.sources,
       log := s.log + [Signal(s.bytes, now, final)], clock := now)
  }

  /** `ft_transferred_chunk_cb`. */
  function ChunkStep(s: Progress, count: nat, now: Time, sent: Time): Progress {
    var s1 := s.(bytes := (s.bytes + count) % UINT64, clock := now);
    if s1.bytes >= s.size then Emit(s1, sent, true)
    else if s.timer.Some? then s1
    else if Seconds(now, s.last) > 1 || Abs32(Millis(now, s.last)) > 1000 then Emit(s1, sent, false)
    else s1.(timer := Some(Timer(ToUint32(1000 - Abs32(Millis(now, s.last))), now)), sources := s.sources + 1)
  }

  function Step(s: Progress, e: Event): Progress {
    match e
    case Chunk(count, now, sent) => ChunkStep(s, count, now, sent)
    case Fire(now) => Emit(s, now, false)
  }

  // ----- nothing stays unsignalled -----

  /** What listeners know is current or a timer is pending, exactly one, and then the transfer is not finished; signals
      are final exactly when they report the whole size. */
  ghost predicate Inv(s: Progress) {
    && (s.shown == s.bytes || s.timer.Some?) && (s.timer.Some? ==> s.bytes < s.size)
    && s.sources == (if s.timer.Some? then 1 else 0)
    && s.shown == (if s.log == [] then 0 else s.log[|s.log| - 1].bytes)
    && (forall i :: 0 <= i < |s.log| ==> (s.log[i].final <==> s.log[i].bytes >= s.size))
    && (s.timer.Some? ==> DelayOk(s.timer.value, s.last))
  }

  /** A pending timeout has been set for what was left of a second since the last signal, unless the interval computed
      then was the one number without an absolute value: then it waits almost 25 days. */
  predicate DelayOk(t: Timer, last: Time) {
    if Millis(t.since, last) == INT_MIN then t.delay == 2_147_484_648
    else -1000 <= Millis(t.since, last) <= 1000 && t.delay == 1000 - Abs32(Millis(t.since, last))
  }

  predicate Fires(s: Progress, e: Event) { e.Fire? ==> s.timer.Some? }

  /** Under any clock at all. */
  lemma StepKeeps(s: Progress, e: Event)
    requires Inv(s) && Fires(s, e)
    ensures Inv(Step(s, e)) && Step(s, e).size == s.size
  {
    if e.Chunk? {
      MillisInRange(e.now, s.last);
    }
    hide Millis, Seconds;
  }

  function After(s: Progress, es: seq<Event>): Progress
    decreases |es|
  {
    if es == [] then s else After(Step(s, es[0]), es[1..])
  }

  predicate IsRun(s: Progress, es: seq<Event>)
    decreases |es|
  {
    es == [] || (Fires(s, es[0]) && IsRun(Step(s, es[0]), es[1..]))
  }

  lemma {:induction false} RunKeeps(s: Progress, es: seq<Event>)
    requires Inv(s) && IsRun(s, es)
    ensures Inv(After(s, es)) && After(s, es).size == s.size
    decreases |es|
  {
    hide Step, Inv;
    if es != [] {
      StepKeeps(s, es[0]);
      RunKeeps(Step(s, es[0]), es[1..]);
    }
  }

  /** For every sequence of chunks and every clock, the last signalled count is current, or exactly one timer is pending
      that will signal it, within a second of being set if and only if the interval computed then was not the smallest
      `gint`. */
  lemma CurrentOrPending(size: nat, es: seq<Event>)
    requires IsRun(Init(size), es)
    ensures var t := After(Init(size), es);
      && ((if t.log == [] then 0 else t.log[|t.log| - 1].bytes) == t.bytes || t.sources == 1)
      && (t.timer.Some? <==> t.sources == 1) && (t.timer.None? <==> t.sources == 0)
      && (t.timer.Some? ==> (t.timer.value.delay <= 1000 <==> Millis(t.timer.value.since, t.last) != INT_MIN))
      && (forall i :: 0 <= i < |t.log| ==> (t.log[i].final <==> t.log[i].bytes >= size))
  {
    RunKeeps(Init(size), es);
    hide Millis, After;
  }

  /** The bytes the chunks bring, as many as a `guint64` holds. */
  function Moved(es: seq<Event>): nat
    decreases |es|
  {
    if es == [] then 0 else (if es[0].Chunk? then es[0].count else 0) + Moved(es[1..])
  }

  lemma CountsAdd(a: nat, b: nat)
    ensures (a % UINT64 + b) % UINT64 == (a + b) % UINT64
  {
  }

  lemma {:induction false} RunMoves(s: Progress, es: seq<Event>)
    requires s.bytes < UINT64
    ensures After(s, es).bytes == (s.bytes + Moved(es)) % UINT64
    decreases |es|
  {
    if es != [] {
      var t, n := Step(s, es[0]), if es[0].Chunk? then es[0].count else 0;
      assert t.bytes == (s.bytes + n) % UINT64 by { hide Millis, Seconds, Moved; }
      hide Step;
      RunMoves(t, es[1..]);
      CountsAdd(s.bytes + n, Moved(es[1..]));
    }
  }

  /** The count kept is the sum of the chunks that came, and each signal carries the count at its time: the last one is the
      sum unless a timeout is pending. */
  lemma BytesAreMoved(size: nat, es: seq<Event>)
    requires IsRun(Init(size), es)
    ensures var t := After(Init(size), es);
      && t.bytes == Moved(es) % UINT64
      && (t.timer.None? && t.log != [] ==> t.log[|t.log| - 1].bytes == Moved(es) % UINT64)
  {
    RunMoves(Init(size), es);
    RunKeeps(Init(size), es);
    hide After, IsRun, Millis;
  }

  /** When a chunk that does not end the transfer is signalled at once: not while a timeout is pending, else certainly if the
      last signal is 1.002 seconds old, and not if it is at most one second old. */
  lemma SignalledAtOnce(s: Progress, count: nat, now: Time, sent: Time)
    requires IsTime(now) && IsTime(s.last) && Micros(s.last) <= Micros(now) && now.sec - s.last.sec < UINT32 / 2
    requires (s.bytes + count) % UINT64 < s.size
    ensures var atOnce := |Step(s, Chunk(count, now, sent)).log| == |s.log| + 1;
      && (s.timer.Some? ==> !atOnce)
      && (s.timer.None? && Micros(now) - Micros(s.last) >= 1_002_000 ==> atOnce)
      && (s.timer.None? && Micros(now) - Micros(s.last) <= SECOND ==> !atOnce)
  {
    assert Seconds(now, s.last) == now.sec - s.last.sec;
    if now.sec - s.last.sec <= 1 {
      MillisClose(now, s.last);
    }
    hide Millis, Seconds;
  }

  lemma MillisInRange(now: Time, last: Time)
    ensures INT_MIN <= Millis(now, last) <= -INT_MIN - 1
  {
  }

  /** A timer set by a chunk waits at most a second, unless the computed interval is the one number without an absolute
      value: then it waits almost 25 days. */
  lemma TimerDelay(s: Progress, count: nat, now: Time, sent: Time)
    requires s.timer.None? && ChunkStep(s, count, now, sent).timer.Some?
    ensures var d := ChunkStep(s, count, now, sent).timer.value.delay;
      (d <= 1000 <==> Millis(now, s.last) != INT_MIN) && (d > 1000 ==> d == 2_147_484_648)
  {
    MillisInRange(now, s.last);
  }

  /** It happens when the clock is set back by just the wrong amount between two chunks. */
  lemma TimerDelayLost(size: nat, sec: int, sent: Time)
    requires size > 2 && 1 < sec < 0x8000_0000
    ensures var es := [Chunk(1, Time(sec, 0), Time(sec, 648_000)), Chunk(1, Time(sec - 2_147_483, 0), sent)];
      var t := After(Init(size), es);
      IsRun(Init(size), es) && t.bytes == 2 && t.timer.Some? && t.timer.value.delay == 2_147_484_648
  {
    var e0, e1 := Chunk(1, Time(sec, 0), Time(sec, 648_000)), Chunk(1, Time(sec - 2_147_483, 0), sent);
    FirstChunk(size, Time(sec, 0), Time(sec, 648_000));
    var s1 := Step(Init(size), e0);
    SetBack(s1, sec, sent);
    hide Step;
    assert [e0, e1][1..] == [e1] && [e1][1..] == [];
    RunOne(s1, e1);
    assert [e0, e1][0] == e0;
  }

  lemma RunOne(s: Progress, e: Event)
    requires Fires(s, e)
    ensures After(s, [e]) == Step(s, e) && IsRun(s, [e])
  {
    assert [e][0] == e && [e][1..] == [];
    hide Step;
    assert IsRun(Step(s, e), []) && After(Step(s, e), []) == Step(s, e);
  }

  /** A first chunk is signalled at once when the clock is past its first second. */
  lemma FirstChunk(size: nat, now: Time, sent: Time)
    requires size > 1 && 1 < now.sec < 0x8000_0000
    ensures Step(Init(size), Chunk(1, now, sent)) == Progress(1, size, sent, None, 0, 1, [Signal(1, sent, false)], sent)
  {
    hide Millis;
    assert [] + [Signal(1, sent, false)] == [Signal(1, sent, false)];
  }

  lemma SetBack(s: Progress, sec: int, sent: Time)
    requires s.timer.None? && s.bytes == 1 && s.size > 2 && s.last == Time(sec, 648_000)
    ensures var t := Step(s, Chunk(1, Time(sec - 2_147_483, 0), sent));
      t.bytes == 2 && t.timer.Some? && t.timer.value.delay == 2_147_484_648
  {
    var now := Time(sec - 2_147_483, 0);
    assert Seconds(now, s.last) == -2_147_483;
    assert Quotient(0 - 648_000, 1000) == -648;
    assert Millis(now, s.last) == INT_MIN;
  }

  // ----- how far apart signals are -----

  /** A clock that does not run backwards, and timers that do not fire early. */
  predicate Steady(s: Progress, e: Event) {
    match e
    case Chunk(_, now, sent) => IsTime(now) && IsTime(sent) && Micros(s.clock) <= Micros(now) <= Micros(sent)
    case Fire(now) =>
      && IsTime(now) && Micros(s.clock) <= Micros(now) && s.timer.Some?
      && Micros(now) >= Micros(s.timer.value.since) + 1000 * s.timer.value.delay
  }

  const GAP := 999_001

  /** Signals not sent for the end of the transfer keep their distance from the one before. */
  ghost predicate Spaced(log: seq<Signal>) {
    forall i :: 0 < i < |log| && !log[i].final ==> Micros(log[i].at) - Micros(log[i - 1].at) >= GAP
  }

  ghost predicate SteadyInv(s: Progress) {
    && Spaced(s.log) && IsTime(s.last) && Micros(s.last) <= Micros(s.clock)
    && (s.log != [] ==> s.log[|s.log| - 1].at == s.last)
    && (s.timer.Some? ==> Micros(s.timer.value.since) + 1000 * s.timer.value.delay - Micros(s.last) >= GAP)
  }

  /** The computed milliseconds are less than one off the time since the last signal, either way. */
  lemma MillisClose(now: Time, last: Time)
    requires IsTime(now) && IsTime(last) && Micros(last) <= Micros(now) && now.sec - last.sec <= 1
    ensures 0 <= Millis(now, last) <= 1999
    ensures 1000 * Millis(now, last) - 999 <= Micros(now) - Micros(last) <= 1000 * Millis(now, last) + 999
  {
    assert 0 <= now.sec - last.sec;
    MillisIs(now, last);
    QuotientClose(now.usec - last.usec);
    hide Millis, Quotient;
  }

  lemma MillisIs(now: Time, last: Time)
    requires IsTime(now) && IsTime(last) && 0 <= now.sec - last.sec <= 1
    ensures Millis(now, last) == 1000 * (now.sec - last.sec) + Quotient(now.usec - last.usec, 1000)
  {
    assert -1000 < Quotient(now.usec - last.usec, 1000) < 1000;
    assert Seconds(now, last) == now.sec - last.sec;
    hide Quotient, Seconds;
  }

  lemma QuotientClose(d: int)
    ensures -999 <= d - 1000 * Quotient(d, 1000) <= 999
    ensures d >= 0 ==> 1000 * Quotient(d, 1000) <= d
    ensures d <= 0 ==> 1000 * Quotient(d, 1000) >= d
  {
    assert d >= 0 ==> Quotient(d, 1000) * 1000 <= d < Quotient(d, 1000) * 1000 + 1000;
    assert d < 0 ==> Quotient(d, 1000) * 1000 - 1000 < d <= Quotient(d, 1000) * 1000;
  }

  lemma ChunkSpaced(s: Progress, count: nat, now: Time, sent: Time)
    requires SteadyInv(s) && Steady(s, Chunk(count, now, sent))
    ensures SteadyInv(ChunkStep(s, count, now, sent))
  {
    var far := Micros(now) - Micros(s.last);
    if now.sec - s.last.sec > 1 {
      assert far > SECOND;
    } else {
      assert Seconds(now, s.last) == now.sec - s.last.sec;
      CloseSpaced(now, s.last);
    }
    hide Millis, ToUint32, Seconds, Abs32;
  }

  /** Within two seconds: more than 1000 computed milliseconds are far enough, and the delay set otherwise makes up for it. */
  lemma CloseSpaced(now: Time, last: Time)
    requires IsTime(now) && IsTime(last) && Micros(last) <= Micros(now) && now.sec - last.sec <= 1
    ensures var d := Abs32(Millis(now, last));
      && d == Millis(now, last)
      && (d > 1000 ==> Micros(now) - Micros(last) >= GAP)
      && (d <= 1000 ==> Micros(now) - Micros(last) + 1000 * ToUint32(1000 - d) >= GAP)
  {
    MillisClose(now, last);
    hide Millis, ToUint32;
    if Millis(now, last) <= 1000 {
      DelayExact(Millis(now, last));
    }
  }

  lemma DelayExact(millis: int)
    requires 0 <= millis <= 1000
    ensures ToUint32(1000 - Abs32(millis)) == 1000 - millis
  {
  }

  predicate IsSteadyRun(s: Progress, es: seq<Event>)
    decreases |es|
  {
    es == [] || (Steady(s, es[0]) && IsSteadyRun(Step(s, es[0]), es[1..]))
  }

  lemma {:induction false} RunSpaced(s: Progress, es: seq<Event>)
    requires SteadyInv(s) && IsSteadyRun(s, es)
    ensures Spaced(After(s, es).log)
    decreases |es|
  {
    if es != [] {
      match es[0] {
        case Chunk(count, now, sent) => ChunkSpaced(s, count, now, sent);
        case Fire(now) =>
      }
      RunSpaced(Step(s, es[0]), es[1..]);
    }
  }

  /** With a clock that does not run backwards, a signal that does not end the transfer comes at least 999001
      microseconds after the one before it. */
  lemma SignalsSpaced(size: nat, es: seq<Event>)
    requires IsSteadyRun(Init(size), es)
    ensures Spaced(After(Init(size), es).log)
  {
    RunSpaced(Init(size), es);
  }

  /** No larger distance is kept: truncation can make the timer this early. */
  lemma GapIsReached(size: nat)
    requires size > 2
    ensures var early, late := Time(5, 999_999), Time(6, 0);
      var es := [Chunk(1, early, early), Chunk(1, late, late), Fire(Time(6, 999_000))];
      var log := After(Init(size), es).log;
      && IsSteadyRun(Init(size), es) && |log| == 2 && !log[1].final && Micros(log[1].at) - Micros(log[0].at) == GAP
  {
    var early, late := Time(5, 999_999), Time(6, 0);
    var e0, e1, e2 := Chunk(1, early, early), Chunk(1, late, late), Fire(Time(6, 999_000));
    FirstChunk(size, early, early);
    var s1 := Step(Init(size), e0);
    SecondChunk(s1);
    var s2 := Step(s1, e1);
    var s3 := Step(s2, e2);
    assert s3.log == s1.log + [Signal(2, Time(6, 999_000), false)];
    assert Steady(Init(size), e0) && Steady(s1, e1) && Steady(s2, e2);
    assert [e0, e1, e2][1..] == [e1, e2] && [e1, e2][1..] == [e2] && [e2][1..] == [];
    hide Step, Steady;
    assert [e0, e1, e2][0] == e0 && [e1, e2][0] == e1 && [e2][0] == e2;
    assert After(s3, []) == s3 && IsSteadyRun(s3, []);
    assert After(s2, [e2]) == s3 && IsSteadyRun(s2, [e2]);
    assert After(s1, [e1, e2]) == s3 && IsSteadyRun(s1, [e1, e2]);
  }

  lemma SecondChunk(s: Progress)
    requires s.timer.None? && s.last == Time(5, 999_999) && s.bytes == 1 && s.size > 2
    ensures Step(s, Chunk(1, Time(6, 0), Time(6, 0))) ==
      s.(bytes := 2, timer := Some(Timer(999, Time(6, 0))), sources := s.sources + 1, clock := Time(6, 0))
  {
    assert Quotient(0 - 999_999, 1000) == -999;
    assert Millis(Time(6, 0), s.last) == 1;
    DelayExact(1);
  }

  // ----- as the source runs it -----

  class FileTransferChannel {
    const size: nat
    var transferredBytes: nat
    var lastTransferredBytesEmitted: Time
    var progressTimer: Option<Timer>
    var sources: int
    var shown: nat
    var log: seq<Signal>
    ghost var clock: Time

    ghost function State(): Progress
      reads this
    {
      Progress(transferredBytes, size, lastTransferredBytesEmitted, progressTimer, sources, shown, log, clock)
    }

    constructor (size: nat)
      ensures State() == Init(size)
    {
      this.size := size;
      transferredBytes, lastTransferredBytesEmitted, progressTimer, sources := 0, Time(0, 0), None, 0;
      shown, log, clock := 0, [], Time(0, 0);
    }

    method EmitProgressUpdate(now: Time, final: bool)
      modifies this
      ensures State() == Emit(old(State()), now, final)
    {
      lastTransferredBytesEmitted := now;
      clock := now;
      shown := transferredBytes;
      log := log + [Signal(transferredBytes, now, final)];
      if progressTimer.Some? {
        sources := sources - 1;
        progressTimer := None;
      }
    }

    method EmitProgressUpdateCb(now: Time)
      requires progressTimer.Some?
      modifies this
      ensures State() == Step(old(State()), Fire(now))
    {
      EmitProgressUpdate(now, false);
    }

    method TransferredChunk(count: nat, timeval: Time, sent: Time)
      modifies this
      ensures State() == Step(old(State()), Chunk(count, timeval, sent))
    {
      transferredBytes := (transferredBytes + count) % UINT64;
      clock := timeval;
      if transferredBytes >= size {
        EmitProgressUpdate(sent, true);
        return;
      }
      if progressTimer.Some? {
        return;
      }
      var interval := ToInt32(timeval.sec - lastTransferredBytesEmitted.sec);
      if interval > 1 {
        EmitProgressUpdate(sent, false);
        return;
      }
      interval := ToInt32(interval * 1000);
      interval := ToInt32(interval + Quotient(timeval.usec - lastTransferredBytesEmitted.usec, 1000));
      interval := Abs32(interval);
      if interval > 1000 {
        EmitProgressUpdate(sent, false);
      } else {
        progressTimer := Some(Timer(ToUint32(1000 - interval), timeval));
        sources := sources + 1;
      }
    }
  }
}
