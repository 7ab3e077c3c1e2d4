/** Processor time: no tick of the clock is charged twice (phase2/exceptions.c, phase2/scheduler.c). */
module ProcessTime {
  import opened Basics

  const WORD := 0x1_0000_0000

  /** The interval [from, to) of clock ticks, charged to p. */
  datatype Span = Span(from: nat, to: nat, p: Pid)

  /** The accounting part of the kernel. The first three fields are the kernel's; the others are history. */
  datatype Acct = Acct(
    cur: Option<Pid>,       // g_current_process
    tod: u32,               // g_tod
    time: seq<u32>,         // p_time of each PCB, as an unsigned word
    now: nat,               // ticks since power on; the clock register shows its low 32 bits
    last: nat,              // the instant g_tod was read
    first: Option<nat>,     // the instant of the first dispatch
    paid: seq<nat>,         // ticks charged to each PCB since it was allocated
    spans: seq<Span>)       // the intervals charged

  /** STCK(g_tod). */
  function Stamp(a: Acct): Acct {
    a.(tod := a.now % WORD, last := a.now)
  }

  /** getPassedTime: unsigned subtraction of two clock registers. */
  function Passed(a: Acct): u32 {
    (a.now % WORD - a.tod) % WORD
  }

  /** The first statement of updateProcessTime. */
  function Charge(a: Acct): Acct
    requires |a.time| == MAX_PROC && |a.paid| == MAX_PROC
  {
    if a.cur.None? then a
    else
      var c := a.cur.value;
      a.(time := a.time[c := (a.time[c] + Passed(a)) % WORD], paid := a.paid[c := a.paid[c] + Passed(a)],
         spans := a.spans + [Span(a.last, a.last + Passed(a), c)])
  }

  /** What kernel code does to the accounting, in whatever order handlers come. */
  datatype Act =
    | Elapse(n: nat)        // time goes by, in user or kernel code
    | Update(gap: nat)      // updateProcessTime; `gap` ticks pass between its two readings of the clock
    | Restamp               // STCK(g_tod) at the end of interruptHandler
    | Run(p: Pid)           // scheduler() dispatches p and reads the clock
    | Stop                  // g_current_process = NULL
    | Reset(p: Pid)         // allocPcb

  function Do(a: Acct, e: Act): Acct
    requires |a.time| == MAX_PROC && |a.paid| == MAX_PROC
  {
    match e
    case Elapse(n) => a.(now := a.now + n)
    case Update(gap) => var b := Charge(a); Stamp(b.(now := b.now + gap))
    case Restamp => Stamp(a)
    case Run(p) => Stamp(a.(cur := Some(p), first := if a.first.None? then Some(a.now) else a.first))
    case Stop => a.(cur := None)
    case Reset(p) => a.(time := a.time[p := 0], paid := a.paid[p := 0])
  }

  /** g_tod = 0 and a table of zeroes, at any instant. */
  function Start(now: nat): Acct {
    Acct(None, 0, seq(MAX_PROC, _ => 0), now, 0, None, seq(MAX_PROC, _ => 0), [])
  }

  function After(a: Acct, es: seq<Act>): Acct
    requires |a.time| == MAX_PROC && |a.paid| == MAX_PROC
    decreases |es|
  {
    if es == [] then a else After(Do(a, es[0]), es[1..])
  }

  function Sum(s: seq<nat>): nat {
    if s == [] then 0 else s[0] + Sum(s[1..])
  }

  lemma {:induction false} SumUpdate(s: seq<nat>, i: nat, x: nat)
    requires i < |s|
    ensures Sum(s[i := x]) == Sum(s) - s[i] + x
  {
    if i > 0 {
      assert s[i := x][1..] == s[1..][i - 1 := x];
      SumUpdate(s[1..], i - 1, x);
    } else {
      assert s[0 := x][1..] == s[1..];
    }
  }

  /** The charged intervals follow each other in time. */
  ghost predicate InOrder(spans: seq<Span>, begin: nat, end: nat) {
    && (forall i :: 0 <= i < |spans| ==> begin <= spans[i].from <= spans[i].to <= end)
    && (forall i, j :: 0 <= i < j < |spans| ==> spans[i].to <= spans[j].from)
  }

  ghost predicate Fair(a: Acct) {
    && |a.time| == MAX_PROC && |a.paid| == MAX_PROC
    && a.tod == a.last % WORD && a.last <= a.now
    && (forall p: Pid :: a.time[p] == a.paid[p] % WORD)
    && (a.first.None? ==> a.cur.None? && Sum(a.paid) == 0 && a.spans == [])
    && (a.first.Some? ==>
          a.first.value <= a.last && Sum(a.paid) <= a.last - a.first.value
          && InOrder(a.spans, a.first.value, a.last))
  }

  /** The register difference never exceeds the time that really passed, even when the clock wraps. */
  lemma PassedBound(a: Acct)
    requires a.tod == a.last % WORD && a.last <= a.now
    ensures Passed(a) <= a.now - a.last
    ensures Passed(a) == (a.now - a.last) % WORD
  {
  }

  lemma ChargeFair(a: Acct, gap: nat)
    requires Fair(a) && a.cur.Some?
    ensures Fair(Do(a, Update(gap)))
  {
    var c, d := a.cur.value, Passed(a);
    var b := Do(a, Update(gap));
    PassedBound(a);
    SumUpdate(a.paid, c as nat, a.paid[c] + d);
    assert b.paid == a.paid[c := a.paid[c] + d];
    forall p: Pid ensures b.time[p] == b.paid[p] % WORD {
      AddWords(a.paid[c], d);
    }
  }

  lemma AddWords(x: nat, d: nat)
    ensures (x % WORD + d) % WORD == (x + d) % WORD
  {
  }

  lemma DoFair(a: Acct, e: Act)
    requires Fair(a)
    ensures Fair(Do(a, e))
  {
    match e {
      case Elapse(_) =>
      case Update(gap) =>
        if a.cur.Some? {
          ChargeFair(a, gap);
        }
      case Restamp =>
      case Run(_) =>
      case Stop =>
      case Reset(p) => SumUpdate(a.paid, p as nat, 0);
    }
  }

  lemma {:induction false} AfterFair(a: Acct, es: seq<Act>)
    requires Fair(a)
    ensures Fair(After(a, es))
    decreases |es|
  {
    if es != [] {
      DoFair(a, es[0]);
      AfterFair(Do(a, es[0]), es[1..]);
    }
  }

  lemma {:induction false} SumZeroes(s: seq<nat>)
    requires forall i :: 0 <= i < |s| ==> s[i] == 0
    ensures Sum(s) == 0
  {
    if s != [] {
      SumZeroes(s[1..]);
    }
  }

  lemma {:induction false} SumBound(s: seq<nat>, i: nat)
    requires i < |s|
    ensures s[i] <= Sum(s)
  {
    if i > 0 {
      SumBound(s[1..], i - 1);
    }
  }

  /** No tick is charged twice: over any interleaving of system calls, interrupts and dispatches, the charged
      intervals do not overlap, and what the PCBs have been charged adds up to no more than the time since the first
      dispatch. */
  lemma NoTickChargedTwice(now: nat, es: seq<Act>)
    ensures var a := After(Start(now), es);
      && |a.paid| == MAX_PROC
      && (forall i, j :: 0 <= i < j < |a.spans| ==> a.spans[i].to <= a.spans[j].from)
      && (if a.first.Some? then a.first.value <= a.now && Sum(a.paid) <= a.now - a.first.value else Sum(a.paid) == 0)
  {
    SumZeroes(Start(now).paid);
    AfterFair(Start(now), es);
  }

  /** Until 2^31 ticks after the first dispatch no p_time overflows: it is the exact number of ticks charged, and the
      sum over the PCB table is bounded by the elapsed time. */
  lemma TimesExact(now: nat, es: seq<Act>, p: Pid)
    ensures var a := After(Start(now), es);
      a.first.Some? && a.now - a.first.value < 0x8000_0000
      ==> |a.time| == MAX_PROC && |a.paid| == MAX_PROC && a.time[p] == a.paid[p] && Sum(a.paid) < 0x8000_0000
  {
    SumZeroes(Start(now).paid);
    AfterFair(Start(now), es);
    var a := After(Start(now), es);
    SumBound(a.paid, p as nat);
  }

  // ---- exactly the time that passed is charged

  /** The instant after the acts es, which began at `now`. */
  function Instant(now: nat, es: seq<Act>): nat {
    if es == [] then now
    else
      Instant(now, es[..|es| - 1])
      + match es[|es| - 1]
        case Elapse(n) => n
        case Update(gap) => gap
        case _ => 0
  }

  /** The instant of the last reading of the clock into g_tod. */
  function LastReading(now: nat, es: seq<Act>): nat {
    if es == [] then 0
    else match es[|es| - 1]
      case Update(_) => Instant(now, es)
      case Restamp => Instant(now, es)
      case Run(_) => Instant(now, es)
      case _ => LastReading(now, es[..|es| - 1])
  }

  /** The process dispatched last, if it has not been given up since. */
  function Current(es: seq<Act>): Option<Pid> {
    if es == [] then None
    else match es[|es| - 1]
      case Run(p) => Some(p)
      case Stop => None
      case _ => Current(es[..|es| - 1])
  }

  /** What p is to pay for since its PCB was last allocated: for each call of updateProcessTime while it was current,
      the ticks since the last reading of the clock, modulo 2^32. */
  function Bill(now: nat, es: seq<Act>, p: Pid): nat {
    if es == [] then 0
    else
      var before := es[..|es| - 1];
      match es[|es| - 1]
      case Reset(q) => if q == p then 0 else Bill(now, before, p)
      case Update(_) => Bill(now, before, p)
        + if Current(before) == Some(p) then (Instant(now, before) - LastReading(now, before)) % WORD else 0
      case _ => Bill(now, before, p)
  }

  lemma {:induction false} AfterOne(a: Acct, es: seq<Act>, e: Act)
    requires Fair(a)
    ensures Fair(After(a, es)) && After(a, es + [e]) == Do(After(a, es), e)
    decreases |es|
  {
    AfterFair(a, es);
    if es == [] {
      assert es + [e] == [e];
      DoFair(a, e);
      assert After(Do(a, e), []) == Do(a, e);
    } else {
      assert (es + [e])[1..] == es[1..] + [e];
      DoFair(a, es[0]);
      AfterOne(Do(a, es[0]), es[1..], e);
    }
  }

  lemma StartFair(now: nat)
    ensures Fair(Start(now))
  {
    SumZeroes(Start(now).paid);
  }

  /** The history of the clock and of g_current_process, as the accounting state has it. */
  lemma {:induction false} AfterHistory(now: nat, es: seq<Act>)
    ensures var a := After(Start(now), es);
      Fair(a) && a.now == Instant(now, es) && a.last == LastReading(now, es) && a.cur == Current(es)
    decreases |es|
  {
    StartFair(now);
    if es != [] {
      var n := |es| - 1;
      assert es[..n] + [es[n]] == es;
      AfterHistory(now, es[..n]);
      AfterOne(Start(now), es[..n], es[n]);
      DoFair(After(Start(now), es[..n]), es[n]);
    }
  }

  lemma PaidStep(a: Acct, e: Act, p: Pid)
    requires Fair(a)
    ensures |Do(a, e).paid| == MAX_PROC
    ensures Do(a, e).paid[p] ==
      if e == Reset(p) then 0
      else a.paid[p] + if e.Update? && a.cur == Some(p) then (a.now - a.last) % WORD else 0
  {
    PassedBound(a);
  }

  /** Every tick is charged: over any sequence of acts each PCB has paid exactly its bill, and p_time is that amount
      modulo 2^32. */
  lemma {:induction false} ChargedExactly(now: nat, es: seq<Act>, p: Pid)
    ensures var a := After(Start(now), es);
      && |a.paid| == MAX_PROC && |a.time| == MAX_PROC
      && a.paid[p] == Bill(now, es, p) && a.time[p] == Bill(now, es, p) % WORD
    decreases |es|
  {
    AfterHistory(now, es);
    if es != [] {
      var n := |es| - 1;
      assert es[..n] + [es[n]] == es;
      StartFair(now);
      AfterOne(Start(now), es[..n], es[n]);
      AfterHistory(now, es[..n]);
      ChargedExactly(now, es[..n], p);
      PaidStep(After(Start(now), es[..n]), es[n], p);
    }
  }

  /** The time fields of the kernel. */
  class TimeKeeper {
    var current: Option<Pid>
    var tod: u32
    var time: seq<u32>
    ghost var now: nat
    ghost var last: nat
    ghost var first: Option<nat>
    ghost var paid: seq<nat>
    ghost var spans: seq<Span>

    ghost function Abs(): Acct
      reads this
    {
      Acct(current, tod, time, now, last, first, paid, spans)
    }

    constructor (instant: nat)
      ensures Abs() == Start(instant)
    {
      current, tod, time := None, 0, seq(MAX_PROC, _ => 0);
      now, last, first, paid, spans := instant, 0, None, seq(MAX_PROC, _ => 0), [];
    }

    /** STCK(g_tod): `clock` is what the register shows. */
    method ReadClock(clock: u32)
      requires clock == now % WORD
      modifies this`tod, this`last
      ensures Abs() == Stamp(old(Abs()))
    {
      tod := clock;
      last := now;
    }

    /** getPassedTime: the ticks since g_tod was read, modulo 2^32, although both readings show only their low 32 bits;
        the exact number as long as less than 2^32 ticks have gone by, and never more. */
    method GetPassedTime(clock: u32) returns (passed: u32)
      requires clock == now % WORD
      ensures Fair(Abs()) ==> passed == (now - last) % WORD && passed <= now - last
      ensures Fair(Abs()) && now - last < WORD ==> passed == now - last
      ensures passed == Passed(Abs())
    {
      if tod == last % WORD && last <= now {
        PassedBound(Abs());
      }
      passed := (clock - tod) % WORD;
    }

    /** sysGetTime. */
    method GetTime(clock: u32) returns (t: u32)
      requires clock == now % WORD && current.Some? && |time| == MAX_PROC && |paid| == MAX_PROC
      ensures t == Charge(Abs()).time[current.value]
      ensures Fair(Abs()) ==> t == (time[current.value] + (now - last) % WORD) % WORD
    {
      var passed := GetPassedTime(clock);
      t := (time[current.value] + passed) % WORD;
    }

    /** The current process has been charged the ticks since the last reading of the clock. */
    twostate predicate Paid()
      requires |old(time)| == MAX_PROC && |old(paid)| == MAX_PROC && old(last) <= old(now)
      reads this
    {
      var d := (old(now) - old(last)) % WORD;
      && (current.None? ==> paid == old(paid) && time == old(time) && spans == old(spans))
      && (current.Some? ==>
            var c := current.value;
            && paid == old(paid)[c := old(paid)[c] + d] && time == old(time)[c := (old(time)[c] + d) % WORD]
            && spans == old(spans) + [Span(old(last), old(last) + d, c)])
    }

    /** The first statement of updateProcessTime. */
    method Pay(clock: u32)
      requires clock == now % WORD && |time| == MAX_PROC && |paid| == MAX_PROC
      modifies this`time, this`paid, this`spans
      ensures Abs() == Charge(old(Abs())) && (old(Fair(Abs())) ==> Paid())
    {
      if Fair(Abs()) {
        PassedBound(Abs());
      }
      if current.Some? {
        var c := current.value;
        var passed := GetPassedTime(clock);
        spans := spans + [Span(last, last + passed, c)];
        paid := paid[c := paid[c] + passed];
        time := time[c := (time[c] + passed) % WORD];
      }
    }

    /** updateProcessTime: `clock` and `clock'` are its two readings, `gap` ticks apart. */
    method UpdateProcessTime(clock: u32, clock': u32, ghost gap: nat)
      requires clock == now % WORD && clock' == (now + gap) % WORD && |time| == MAX_PROC && |paid| == MAX_PROC
      modifies this
      ensures Abs() == Do(old(Abs()), Update(gap))
      ensures current == old(current) && now == old(now) + gap && last == now && tod == now % WORD
      ensures old(Fair(Abs())) ==> Paid()
    {
      Pay(clock);
      now := now + gap;
      ReadClock(clock');
    }

    /** The end of scheduler(). */
    method Dispatch(p: Pid, clock: u32)
      requires clock == now % WORD
      modifies this`current, this`first, this`tod, this`last
      ensures |time| == MAX_PROC && |paid| == MAX_PROC ==> Abs() == Do(old(Abs()), Run(p))
    {
      current := Some(p);
      first := if first.None? then Some(now) else first;
      ReadClock(clock);
    }
  }
}
