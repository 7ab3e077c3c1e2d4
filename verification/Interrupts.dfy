/** interruptHandler: which pending interrupt lines are served, and in which order (phase2/exceptions.c). */
module Interrupts {
  import opened Basics
  import opened Addresses
  import opened SemQueues
  import opened Machine
  import opened Soundness
  import opened Runs

  datatype Line = LocalTimer | SysTimer | Disk | Flash | Printer | Terminal

  /** A 32-bit register as the set of its 1 bits: `&` is intersection, and `& ~` difference. */
  type Word = set<nat>

  /** LOCALTIMERINT is 0x200, and so on up to TERMINTERRUPT, 0x8000. */
  function Bit(l: Line): nat {
    match l
    case LocalTimer => 9
    case SysTimer => 10
    case Disk => 11
    case Flash => 12
    case Printer => 14
    case Terminal => 15
  }

  /** interrupt_mask. */
  function Mask(): Word {
    {9, 10, 11, 12, 14, 15}
  }

  /** From the most to the least urgent. */
  function Priority(): seq<Line> {
    [LocalTimer, SysTimer, Disk, Flash, Printer, Terminal]
  }

  predicate Pending(cause: Word, l: Line) {
    Bit(l) in cause
  }

  /** The pending ones of ls, in that order. */
  function PendingOf(cause: Word, ls: seq<Line>): (r: seq<Line>)
    ensures forall l :: l in r <==> l in ls && Pending(cause, l)
    ensures |r| <= |ls|
  {
    if ls == [] then []
    else if Pending(cause, ls[0]) then [ls[0]] + PendingOf(cause, ls[1..])
    else PendingOf(cause, ls[1..])
  }

  function Bits(ls: seq<Line>): Word {
    set l | l in ls :: Bit(l)
  }

  lemma BitsCons(l: Line, ls: seq<Line>)
    ensures Bits([l] + ls) == {Bit(l)} + Bits(ls)
  {
  }

  lemma BitsDistinct(l: Line, m: Line)
    ensures Bit(l) == Bit(m) ==> l == m
    ensures Bit(l) in Mask()
    ensures l in Priority()
  {
  }

  /** The first of ls that is pending. */
  lemma {:induction false} FirstPending(cause: Word, ls: seq<Line>, l: Line, i: nat)
    requires i < |ls| && ls[i] == l && Pending(cause, l)
    requires forall j :: 0 <= j < i ==> !Pending(cause, ls[j])
    requires forall j, k :: 0 <= j < k < |ls| ==> ls[j] != ls[k]
    ensures PendingOf(cause, ls) == [l] + PendingOf(cause - {Bit(l)}, ls)
    decreases |ls|
  {
    if i == 0 {
      AllOthers(cause, ls[1..], l);
    } else {
      FirstPending(cause, ls[1..], l, i - 1);
      BitsDistinct(ls[0], l);
    }
  }

  lemma {:induction false} AllOthers(cause: Word, ls: seq<Line>, l: Line)
    requires l !in ls
    ensures PendingOf(cause - {Bit(l)}, ls) == PendingOf(cause, ls)
  {
    if ls != [] {
      BitsDistinct(ls[0], l);
      AllOthers(cause, ls[1..], l);
    }
  }

  lemma NonePending(cause: Word)
    ensures PendingOf(cause, Priority()) == [] <==> cause * Mask() == {}
  {
    forall l: Line ensures l in Priority() && Bit(l) in Mask() {
      BitsDistinct(l, l);
    }
    if PendingOf(cause, Priority()) == [] {
      forall b | b in cause ensures b !in Mask() {
        assert !Pending(cause, LocalTimer) && !Pending(cause, SysTimer) && !Pending(cause, Disk);
        assert !Pending(cause, Flash) && !Pending(cause, Printer) && !Pending(cause, Terminal);
      }
    }
    if PendingOf(cause, Priority()) != [] {
      var l := PendingOf(cause, Priority())[0];
      assert l in PendingOf(cause, Priority());
      assert Bit(l) in cause * Mask();
    }
  }

  /** The chain of tests at the top of interruptHandler. */
  method MostUrgent(cause: Word) returns (line: Line)
    requires cause * Mask() != {}
    ensures PendingOf(cause, Priority()) == [line] + PendingOf(cause - {Bit(line)}, Priority())
  {
    NonePending(cause);
    ghost var i: nat;
    if Pending(cause, LocalTimer) {
      line, i := LocalTimer, 0;
    } else if Pending(cause, SysTimer) {
      line, i := SysTimer, 1;
    } else if Pending(cause, Disk) {
      line, i := Disk, 2;
    } else if Pending(cause, Flash) {
      line, i := Flash, 3;
    } else if Pending(cause, Printer) {
      line, i := Printer, 4;
    } else {
      line, i := Terminal, 5;
    }
    FirstPending(cause, Priority(), line, i);
  }

  // ---- the lines as entries of the machine

  /** What serving a line is to the machine. dev holds the device that findDevRegAddr finds on a device line; if it
      finds none, the handler does nothing. */
  function Entry(l: Line, dev: map<Line, Dev>): Option<Step> {
    if l.LocalTimer? then Some(STimeslice)
    else if l.SysTimer? then Some(STick)
    else if l in dev then Some(SDevice(dev[l]))
    else None
  }

  function Entries(ls: seq<Line>, dev: map<Line, Dev>): (r: seq<Option<Step>>)
    ensures |r| == |ls|
  {
    if ls == [] then [] else [Entry(ls[0], dev)] + Entries(ls[1..], dev)
  }

  /** handleDeviceInt comes back: its V does not block, and neither does the P of a hand-off. */
  predicate InterruptReturns(s: State, d: Dev)
    requires Sync(d) in s.val
  {
    d in s.waiting && s.val[Sync(d)] == 0 && (Get(s.queue, Sync(d)) == [] || Get(s.queue, Mut(d)) == [])
  }

  /** Whether the handler comes back to interruptHandler. That of the local timer never does. */
  ghost predicate ComesBack(s: State, st: Step)
    requires Enabled(s, st)
  {
    st.STick? || (st.SDevice? && InterruptReturns(s, st.d))
  }

  ghost predicate Goes(s: State, e: Option<Step>) {
    e.Some? ==> Enabled(s, e.value)
  }

  ghost function NextBy(s: State, e: Option<Step>): State
    requires Goes(s, e)
  {
    if e.None? then s else Next(s, e.value)
  }

  ghost predicate BackFrom(s: State, e: Option<Step>)
    requires Goes(s, e)
  {
    e.Some? ==> ComesBack(s, e.value)
  }

  function Made(e: Option<Step>): seq<Step> {
    if e.None? then [] else [e.value]
  }

  /** The entries made out of `todo`: up to the first whose handler does not come back. */
  ghost function Batch(s: State, todo: seq<Option<Step>>): seq<Step>
    decreases |todo|
  {
    if todo == [] || !Goes(s, todo[0]) then []
    else Made(todo[0]) + if BackFrom(s, todo[0]) then Batch(NextBy(s, todo[0]), todo[1..]) else []
  }

  /** How many of `todo` have been tried by then. */
  ghost function Tried(s: State, todo: seq<Option<Step>>): (n: nat)
    ensures n <= |todo|
    decreases |todo|
  {
    if todo == [] || !Goes(s, todo[0]) then 0
    else 1 + if BackFrom(s, todo[0]) then Tried(NextBy(s, todo[0]), todo[1..]) else 0
  }

  /** An interrupt arrives while a process runs or the machine waits; the local timer runs only under a process. */
  predicate Takes(s: State, cause: Word) {
    if Pending(cause, LocalTimer) then s.mode.Running? && s.cur.Some? else s.mode.Running? || s.mode.Idle?
  }

  lemma {:induction false} WakeAllFrame(s: State)
    ensures var t := WakeAll(s);
      && t.mode == s.mode && t.cur == s.cur && t.val == s.val && t.waiting == s.waiting && t.log == s.log
      && forall k :: k != Clock ==> Get(t.queue, k) == Get(s.queue, k)
    decreases |Get(s.queue, Clock)|
  {
    if Get(s.queue, Clock) != [] {
      MinusShorter(s.queue[Clock]);
      WakeAllFrame(WakeOne(s));
    }
  }

  /** t is s, with changes to the words, queues and waiting_process of device d alone, and to what belongs to none. */
  ghost predicate OnlyDevice(s: State, t: State, d: Dev) {
    && t.mode == s.mode && t.val.Keys == s.val.Keys
    && (forall k :: k in s.val && k.Sync? && k.d != d ==> t.val[k] == s.val[k])
    && (forall k: Sem :: k.Mut? && k.d != d ==> Get(t.queue, k) == Get(s.queue, k))
    && (forall e: Dev :: e != d ==> ((e in t.waiting) == (e in s.waiting)))
  }

  lemma OnlyDevices(s: State, t: State, u: State, d: Dev)
    requires OnlyDevice(s, t, d) && OnlyDevice(t, u, d)
    ensures OnlyDevice(s, u, d)
  {
  }

  lemma PassFrame(s: State, d: Dev, k: Sem, op: Op)
    requires k in s.val && (k == Sync(d) || k == Mut(d)) && Returns(s, k, op)
    ensures OnlyDevice(s, Operate(s, k, op), d) && Operate(s, k, op).waiting == s.waiting
    ensures k == Sync(d) ==> Get(Operate(s, k, op).queue, Mut(d)) == Get(s.queue, Mut(d))
    ensures Get(s.queue, k) == [] ==> Operate(s, k, op).val[k] == s.val[k] + if op.OpP? then -1 else 1
  {
  }

  lemma HandOver(s: State, d: Dev, p: Pid)
    requires Sync(d) in s.val && s.val[Sync(d)] == 1
    ensures OnlyDevice(s, BeginIO(s, d, p), d)
  {
    PassFrame(Start(s, d, p), d, Sync(d), OpP);
    OnlyDevices(s, Start(s, d, p), BeginIO(s, d, p), d);
  }

  lemma FreeFrame(s: State, d: Dev)
    requires Mut(d) in s.val && Sync(d) in s.val && (Get(s.queue, Mut(d)) == [] || s.val[Sync(d)] == 1)
    ensures OnlyDevice(s, FreeDevice(s, d), d)
  {
    if Get(s.queue, Mut(d)) != [] {
      var p := s.queue[Mut(d)][0];
      HandOver(Removed(s, Mut(d), p), d, p);
      OnlyDevices(s, Removed(s, Mut(d), p), FreeDevice(s, d), d);
    }
  }

  lemma InterruptFrame(s: State, d: Dev)
    requires Mut(d) in s.val && Sync(d) in s.val && InterruptReturns(s, d)
    ensures OnlyDevice(s, DeviceInterrupt(s, d), d)
  {
    var t := EndIO(s, d);
    PassFrame(t, d, Sync(d), OpV);
    FreeFrame(Operate(t, Sync(d), OpV), d);
    OnlyDevices(s, t, Operate(t, Sync(d), OpV), d);
    OnlyDevices(s, Operate(t, Sync(d), OpV), DeviceInterrupt(s, d), d);
  }

  /** A handler that comes back has not been in scheduler(). */
  lemma BackInMode(s: State, st: Step)
    requires Enabled(s, st) && ComesBack(s, st)
    ensures Next(s, st).mode == s.mode && KernelWords(Next(s, st))
  {
    if st.STick? {
      WakeAllFrame(s);
    } else {
      InterruptFrame(s, st.d);
    }
  }

  /** l is the most urgent line pending. */
  ghost predicate First(s: State, cause: Word, l: Line) {
    && PendingOf(cause, Priority()) == [l] + PendingOf(cause - {Bit(l)}, Priority())
    && KernelWords(s) && Takes(s, cause)
  }

  // ---- a handler comes back exactly when it has not called scheduler()

  /** Control has gone to scheduler(), or a NULL pointer has been followed. */
  predicate SchedulerCalled(s: State, t: State) {
    t.mode != s.mode || t.cur != s.cur || (|t.log| > |s.log| && t.log[|t.log| - 1].Dispatch?)
  }

  /** t is a stage of the handler called in s: nothing of that has happened. */
  predicate Quiet(s: State, t: State) {
    t.mode == s.mode && t.cur == s.cur && (t.log == s.log || (|t.log| > |s.log| && !t.log[|t.log| - 1].Dispatch?))
  }

  lemma BlockCalls(s: State, t: State, k: Sem, op: Op)
    requires Quiet(s, t) && (s.mode.Running? || s.mode.Idle?)
    ensures SchedulerCalled(s, Block(t, k, op))
  {
    if t.cur.Some? {
      var u := Parked(t, k, op);
      ScheduleCalls(s, u);
    }
  }

  lemma ScheduleCalls(s: State, u: State)
    requires s.cur.Some? && u.cur == None && |u.log| >= |s.log|
    ensures SchedulerCalled(s, Schedule(u))
  {
  }

  lemma OperateCalls(s: State, t: State, k: Sem, op: Op)
    requires Quiet(s, t) && (s.mode.Running? || s.mode.Idle?) && k in t.val
    ensures if Returns(t, k, op) then Quiet(s, Operate(t, k, op)) else SchedulerCalled(s, Operate(t, k, op))
  {
    if !Returns(t, k, op) {
      BlockCalls(s, t, k, op);
    }
  }

  lemma FreeCalls(s: State, t: State, d: Dev)
    requires Quiet(s, t) && (s.mode.Running? || s.mode.Idle?) && Mut(d) in t.val && Sync(d) in t.val
    ensures if Get(t.queue, Mut(d)) == [] || t.val[Sync(d)] == 1 then Quiet(s, FreeDevice(t, d))
      else SchedulerCalled(s, FreeDevice(t, d))
  {
    if Get(t.queue, Mut(d)) != [] {
      var p := t.queue[Mut(d)][0];
      OperateCalls(s, Start(Removed(t, Mut(d), p), d, p), Sync(d), OpP);
    }
  }

  lemma SignalCalls(s: State, t: State, d: Dev)
    requires Quiet(s, t) && (s.mode.Running? || s.mode.Idle?) && Mut(d) in t.val && Sync(d) in t.val
    ensures if t.val[Sync(d)] == 0 && (Get(t.queue, Sync(d)) == [] || Get(t.queue, Mut(d)) == [])
      then Quiet(s, SignalDevice(t, d)) else SchedulerCalled(s, SignalDevice(t, d))
  {
    OperateCalls(s, t, Sync(d), OpV);
    if Returns(t, Sync(d), OpV) {
      PassFrame(t, d, Sync(d), OpV);
      FreeCalls(s, Operate(t, Sync(d), OpV), d);
      if Get(t.queue, Sync(d)) != [] {
        assert Operate(t, Sync(d), OpV).val == t.val;
      }
    }
  }

  /** The handlers of interruptHandler come back exactly when they have left the scheduler alone. */
  lemma ComesBackExact(s: State, st: Step)
    requires Enabled(s, st) && (st.STimeslice? || st.STick? || st.SDevice?)
    ensures ComesBack(s, st) <==> !SchedulerCalled(s, Next(s, st))
  {
    if st.STick? {
      WakeAllFrame(s);
    } else if st.SDevice? {
      var d := st.d;
      if s.val[Sync(d)] == -1 {
        SignalCalls(s, s, d);
      } else if d in s.waiting {
        SignalCalls(s, EndIO(s, d), d);
      }
    }
  }

  /** Serving the first of the pending lines. */
  lemma FirstEntry(s: State, cause: Word, l: Line, dev: map<Line, Dev>)
    requires First(s, cause, l)
    ensures var e := Entry(l, dev); Goes(s, e) && (BackFrom(s, e) ==> Takes(NextBy(s, e), cause - {Bit(l)}))
    ensures Entries(PendingOf(cause, Priority()), dev)
         == [Entry(l, dev)] + Entries(PendingOf(cause - {Bit(l)}, Priority()), dev)
  {
    assert l in PendingOf(cause, Priority());
    assert Pending(cause, LocalTimer) ==> l.LocalTimer?;
    var e := Entry(l, dev);
    if e.Some? && ComesBack(s, e.value) {
      BackInMode(s, e.value);
    }
  }

  /** The entries made, and the bits cleared, with the first of a batch. */
  lemma BatchCons(s: State, e: Option<Step>, todo: seq<Option<Step>>, l: Line, ls: seq<Line>)
    requires Goes(s, e) && |todo| == |ls|
    ensures var more := if BackFrom(s, e) then Batch(NextBy(s, e), todo) else [];
      var n := if BackFrom(s, e) then Tried(NextBy(s, e), todo) else 0;
      && Batch(s, [e] + todo) == Made(e) + more && IsRun(s, Made(e) + more) && IsRun(NextBy(s, e), more)
      && After(s, Made(e) + more) == After(NextBy(s, e), more)
      && Tried(s, [e] + todo) == n + 1 && Bits(([l] + ls)[..n + 1]) == {Bit(l)} + Bits(ls[..n])
  {
    var more := if BackFrom(s, e) then Batch(NextBy(s, e), todo) else [];
    var n := if BackFrom(s, e) then Tried(NextBy(s, e), todo) else 0;
    BatchIsRun(NextBy(s, e), todo);
    MadeThen(s, e, more);
    assert ([e] + todo)[1..] == todo;
    BitsTaken(l, ls, n);
  }

  lemma BitsTaken(l: Line, ls: seq<Line>, n: nat)
    requires n <= |ls|
    ensures Bits(([l] + ls)[..n + 1]) == {Bit(l)} + Bits(ls[..n])
  {
    assert ([l] + ls)[..n + 1] == [l] + ls[..n];
    BitsCons(l, ls[..n]);
  }

  lemma MadeThen(s: State, e: Option<Step>, more: seq<Step>)
    requires Goes(s, e) && IsRun(NextBy(s, e), more)
    ensures IsRun(s, Made(e) + more) && After(s, Made(e) + more) == After(NextBy(s, e), more)
  {
    if e.Some? {
      assert (Made(e) + more)[1..] == more;
    } else {
      assert Made(e) + more == more;
    }
  }

  /** What interruptHandler does from s: it makes the batch of entries, leading to t, and leaves `rest` of the cause. */
  ghost predicate Handled(s: State, cause: Word, dev: map<Line, Dev>, t: State, rest: Word, steps: seq<Step>) {
    var todo := Entries(PendingOf(cause, Priority()), dev);
    && steps == Batch(s, todo) && IsRun(s, steps) && t == After(s, steps)
    && rest == cause - Bits(PendingOf(cause, Priority())[..Tried(s, todo)])
  }

  lemma HandledNothing(s: State, cause: Word, dev: map<Line, Dev>)
    requires cause * Mask() == {} && KernelWords(s) && Takes(s, cause)
    ensures Handled(s, cause, dev, s, cause, []) && LowestFirst(cause, dev, [], cause)
  {
    NonePending(cause);
    HandledInOrder(s, cause, dev, s, cause, []);
  }

  lemma HandledMore(s: State, cause: Word, l: Line, dev: map<Line, Dev>, t: State, rest: Word, more: seq<Step>)
    requires First(s, cause, l) && Goes(s, Entry(l, dev)) && BackFrom(s, Entry(l, dev))
    requires Handled(NextBy(s, Entry(l, dev)), cause - {Bit(l)}, dev, t, rest, more)
    ensures Handled(s, cause, dev, t, rest, Made(Entry(l, dev)) + more)
    ensures LowestFirst(cause, dev, Made(Entry(l, dev)) + more, rest)
  {
    var ls := PendingOf(cause - {Bit(l)}, Priority());
    FirstEntry(s, cause, l, dev);
    BatchCons(s, Entry(l, dev), Entries(ls, dev), l, ls);
    HandledInOrder(s, cause, dev, t, rest, Made(Entry(l, dev)) + more);
  }

  lemma HandledLast(s: State, cause: Word, l: Line, dev: map<Line, Dev>)
    requires First(s, cause, l) && Goes(s, Entry(l, dev))
    requires !BackFrom(s, Entry(l, dev)) || (cause - {Bit(l)}) * Mask() == {}
    ensures Handled(s, cause, dev, NextBy(s, Entry(l, dev)), cause - {Bit(l)}, Made(Entry(l, dev)))
    ensures LowestFirst(cause, dev, Made(Entry(l, dev)), cause - {Bit(l)})
  {
    var ls := PendingOf(cause - {Bit(l)}, Priority());
    FirstEntry(s, cause, l, dev);
    BatchCons(s, Entry(l, dev), Entries(ls, dev), l, ls);
    NonePending(cause - {Bit(l)});
    HandledInOrder(s, cause, dev, NextBy(s, Entry(l, dev)), cause - {Bit(l)}, Made(Entry(l, dev)));
  }

  lemma {:induction false} BatchIsRun(s: State, todo: seq<Option<Step>>)
    ensures IsRun(s, Batch(s, todo))
    decreases |todo|
  {
    if todo != [] && Goes(s, todo[0]) {
      if BackFrom(s, todo[0]) {
        BatchIsRun(NextBy(s, todo[0]), todo[1..]);
        MadeThen(s, todo[0], Batch(NextBy(s, todo[0]), todo[1..]));
      } else {
        MadeThen(s, todo[0], []);
      }
    }
  }

  // ---- the order, in terms of the cause register

  /** st is what bit b of the cause register asks for. */
  predicate Serves(b: nat, st: Step, dev: map<Line, Dev>) {
    || (b == 9 && st == STimeslice)
    || (b == 10 && st == STick)
    || (b == 11 && Disk in dev && st == SDevice(dev[Disk]))
    || (b == 12 && Flash in dev && st == SDevice(dev[Flash]))
    || (b == 14 && Printer in dev && st == SDevice(dev[Printer]))
    || (b == 15 && Terminal in dev && st == SDevice(dev[Terminal]))
  }

  /** Bit b is one of the mask, and if it is that of a device line then a device has been found on it. */
  predicate Asks(b: nat, dev: map<Line, Dev>) {
    || b == 9 || b == 10
    || (b == 11 && Disk in dev) || (b == 12 && Flash in dev)
    || (b == 14 && Printer in dev) || (b == 15 && Terminal in dev)
  }

  /** The entries answer set bits of the cause, the lowest first, and no bit that asks for something is passed over. */
  ghost predicate InOrderOfBits(cause: Word, dev: map<Line, Dev>, steps: seq<Step>, bits: seq<nat>) {
    && |bits| == |steps|
    && (forall i :: 0 <= i < |bits| ==> bits[i] in cause && Serves(bits[i], steps[i], dev))
    && (forall i, j :: 0 <= i < j < |bits| ==> bits[i] < bits[j])
    && (forall b, i :: 0 <= i < |bits| && b < bits[i] && b in cause && Asks(b, dev) ==> b in bits)
    && (bits == [] ==> forall b :: b in cause ==> !Asks(b, dev))
  }

  /** Of the bits that ask for something, exactly those answered have been cleared, and no others than masked ones. */
  ghost predicate Acknowledged(cause: Word, dev: map<Line, Dev>, rest: Word, bits: seq<nat>) {
    && (forall b :: b in rest ==> b in cause)
    && (forall b :: b in cause && b !in rest ==> b in {9, 10, 11, 12, 14, 15})
    && (forall b :: b in cause && Asks(b, dev) ==> (b in bits <==> b !in rest))
  }

  ghost predicate LowestFirst(cause: Word, dev: map<Line, Dev>, steps: seq<Step>, rest: Word) {
    exists bits :: InOrderOfBits(cause, dev, steps, bits) && Acknowledged(cause, dev, rest, bits)
  }

  /** The local timer goes first, then the system timer, then the device lines from the lowest bit on. */
  lemma FirstServed(cause: Word, dev: map<Line, Dev>, steps: seq<Step>, rest: Word)
    requires LowestFirst(cause, dev, steps, rest)
    ensures 9 in cause ==> steps != [] && steps[0] == STimeslice
    ensures 9 !in cause && 10 in cause ==> steps != [] && steps[0] == STick
    ensures 9 !in cause && 10 !in cause ==> forall b :: b in cause && Asks(b, dev) ==>
      steps != [] && exists c :: c in cause && 11 <= c <= b && Serves(c, steps[0], dev)
    ensures forall i, j :: 0 <= i < j < |steps| && steps[j] == STick ==> steps[i] == STimeslice
  {
    var bits :| InOrderOfBits(cause, dev, steps, bits);
    if bits != [] {
      FirstIsLowest(cause, dev, steps, bits);
    }
  }

  lemma FirstIsLowest(cause: Word, dev: map<Line, Dev>, steps: seq<Step>, bits: seq<nat>)
    requires InOrderOfBits(cause, dev, steps, bits) && bits != []
    ensures steps != [] && bits[0] in cause && Serves(bits[0], steps[0], dev)
    ensures forall b :: b in cause && Asks(b, dev) ==> bits[0] <= b
  {
    forall b | b in cause && Asks(b, dev) ensures bits[0] <= b {
      if b < bits[0] {
        var i :| 0 <= i < |bits| && bits[i] == b;
      }
    }
  }

  function OwnBit(l: Line, dev: map<Line, Dev>): seq<nat> {
    if Entry(l, dev).Some? then [Bit(l)] else []
  }

  /** The bits answered. */
  ghost function BitsMade(s: State, ls: seq<Line>, dev: map<Line, Dev>): seq<nat>
    decreases |ls|
  {
    if ls == [] || !Goes(s, Entry(ls[0], dev)) then []
    else
      OwnBit(ls[0], dev)
      + if BackFrom(s, Entry(ls[0], dev)) then BitsMade(NextBy(s, Entry(ls[0], dev)), ls[1..], dev) else []
  }

  /** ls goes from lower bits to higher ones. */
  ghost predicate Ascending(ls: seq<Line>) {
    forall i, j :: 0 <= i < j < |ls| ==> Bit(ls[i]) < Bit(ls[j])
  }

  lemma LineServed(l: Line, dev: map<Line, Dev>)
    ensures Entry(l, dev).Some? ==> Serves(Bit(l), Entry(l, dev).value, dev)
    ensures Entry(l, dev).Some? <==> Asks(Bit(l), dev)
  {
  }

  /** The bits of ls, as InOrderOfBits wants them. */
  ghost predicate BitsInOrder(ls: seq<Line>, dev: map<Line, Dev>, steps: seq<Step>, bits: seq<nat>) {
    && |bits| == |steps|
    && (forall i :: 0 <= i < |bits| ==> Serves(bits[i], steps[i], dev) && exists l :: l in ls && bits[i] == Bit(l))
    && (forall i, j :: 0 <= i < j < |bits| ==> bits[i] < bits[j])
    && (forall l, i :: l in ls && 0 <= i < |bits| && Bit(l) < bits[i] && Asks(Bit(l), dev) ==> Bit(l) in bits)
    && (bits == [] ==> forall l :: l in ls ==> !Asks(Bit(l), dev))
  }

  lemma AscendingTail(ls: seq<Line>)
    requires ls != [] && Ascending(ls)
    ensures Ascending(ls[1..]) && forall l :: l in ls[1..] ==> Bit(ls[0]) < Bit(l)
  {
    forall l | l in ls[1..] ensures Bit(ls[0]) < Bit(l) {
      var i :| 0 <= i < |ls[1..]| && ls[1..][i] == l;
      assert ls[i + 1] == l;
    }
    forall i, j | 0 <= i < j < |ls[1..]| ensures Bit(ls[1..][i]) < Bit(ls[1..][j]) {
      assert Bit(ls[i + 1]) < Bit(ls[j + 1]);
    }
  }

  lemma OwnFirst(ls: seq<Line>, dev: map<Line, Dev>, steps: seq<Step>, bits: seq<nat>)
    requires ls != [] && Ascending(ls) && BitsInOrder(ls[1..], dev, steps, bits)
    ensures BitsInOrder(ls, dev, Made(Entry(ls[0], dev)) + steps, OwnBit(ls[0], dev) + bits)
  {
    var l := ls[0];
    AscendingTail(ls);
    LineServed(l, dev);
    assert forall m :: m in ls <==> m == l || m in ls[1..];
    if Entry(l, dev).Some? {
      AskedFirst(ls, dev, steps, bits);
    } else {
      assert Made(Entry(l, dev)) + steps == steps && OwnBit(l, dev) + bits == bits;
    }
  }

  lemma AskedFirst(ls: seq<Line>, dev: map<Line, Dev>, steps: seq<Step>, bits: seq<nat>)
    requires ls != [] && BitsInOrder(ls[1..], dev, steps, bits) && Entry(ls[0], dev).Some?
    requires forall l :: l in ls[1..] ==> Bit(ls[0]) < Bit(l)
    requires forall l :: l in ls <==> l == ls[0] || l in ls[1..]
    ensures BitsInOrder(ls, dev, [Entry(ls[0], dev).value] + steps, [Bit(ls[0])] + bits)
  {
    var b, st := [Bit(ls[0])] + bits, [Entry(ls[0], dev).value] + steps;
    LineServed(ls[0], dev);
    forall i | 0 <= i < |b| ensures Serves(b[i], st[i], dev) && exists l :: l in ls && b[i] == Bit(l) {
      if i > 0 {
        assert Serves(bits[i - 1], steps[i - 1], dev);
      } else {
        assert b[0] == Bit(ls[0]) && ls[0] in ls;
      }
    }
    forall l, i | l in ls && 0 <= i < |b| && Bit(l) < b[i] && Asks(Bit(l), dev) ensures Bit(l) in b {
      NonePassedOver(ls, dev, steps, bits, l, i);
    }
  }

  lemma NonePassedOver(ls: seq<Line>, dev: map<Line, Dev>, steps: seq<Step>, bits: seq<nat>, l: Line, i: nat)
    requires ls != [] && BitsInOrder(ls[1..], dev, steps, bits) && (l == ls[0] || l in ls[1..])
    requires i < |bits| + 1 && Bit(l) < ([Bit(ls[0])] + bits)[i] && Asks(Bit(l), dev)
    requires l in ls[1..] ==> Bit(ls[0]) < Bit(l)
    ensures Bit(l) in [Bit(ls[0])] + bits
  {
    var b := [Bit(ls[0])] + bits;
    if l == ls[0] {
      assert b[0] == Bit(l);
    } else {
      assert i > 0 && b[i] == bits[i - 1];
    }
  }

  lemma OnlyOne(ls: seq<Line>, dev: map<Line, Dev>)
    requires ls != [] && Ascending(ls) && Entry(ls[0], dev).Some?
    ensures BitsInOrder(ls, dev, Made(Entry(ls[0], dev)), [Bit(ls[0])])
  {
    AscendingTail(ls);
    LineServed(ls[0], dev);
    assert ls[0] in ls;
    assert forall l :: l in ls <==> l == ls[0] || l in ls[1..];
  }

  /** The lines can be tried one after the other. */
  ghost predicate Able(s: State, ls: seq<Line>) {
    KernelWords(s) && if LocalTimer in ls then s.mode.Running? && s.cur.Some? else s.mode.Running? || s.mode.Idle?
  }

  lemma StillAble(s: State, ls: seq<Line>, dev: map<Line, Dev>)
    requires ls != [] && Ascending(ls) && Able(s, ls)
    ensures Goes(s, Entry(ls[0], dev))
    ensures BackFrom(s, Entry(ls[0], dev)) ==> Able(NextBy(s, Entry(ls[0], dev)), ls[1..])
  {
    var e := Entry(ls[0], dev);
    AscendingTail(ls);
    assert ls[0] in ls && LocalTimer !in ls[1..];
    if e.Some? && ComesBack(s, e.value) {
      BackInMode(s, e.value);
    }
  }

  lemma {:induction false} BatchInOrder(s: State, ls: seq<Line>, dev: map<Line, Dev>)
    requires Ascending(ls) && Able(s, ls)
    ensures BitsInOrder(ls, dev, Batch(s, Entries(ls, dev)), BitsMade(s, ls, dev))
    decreases |ls|
  {
    if ls != [] {
      var e := Entry(ls[0], dev);
      StillAble(s, ls, dev);
      AscendingTail(ls);
      assert Entries(ls, dev)[1..] == Entries(ls[1..], dev);
      if BackFrom(s, e) {
        BatchInOrder(NextBy(s, e), ls[1..], dev);
        OwnFirst(ls, dev, Batch(NextBy(s, e), Entries(ls[1..], dev)), BitsMade(NextBy(s, e), ls[1..], dev));
      } else {
        OnlyOne(ls, dev);
        assert Batch(s, Entries(ls, dev)) == Made(e) && BitsMade(s, ls, dev) == [Bit(ls[0])];
      }
    }
  }

  lemma {:induction false} PendingAscending(cause: Word, ls: seq<Line>)
    requires Ascending(ls)
    ensures Ascending(PendingOf(cause, ls))
  {
    if ls != [] {
      AscendingTail(ls);
      PendingAscending(cause, ls[1..]);
    }
  }

  lemma BitsToCause(cause: Word, dev: map<Line, Dev>, steps: seq<Step>, bits: seq<nat>)
    requires BitsInOrder(PendingOf(cause, Priority()), dev, steps, bits)
    ensures InOrderOfBits(cause, dev, steps, bits)
  {
    var ls := PendingOf(cause, Priority());
    forall b | b in cause && Asks(b, dev) ensures exists l :: l in ls && b == Bit(l) {
      LineOf(cause, b);
    }
  }

  lemma PendingInOrder(s: State, cause: Word, dev: map<Line, Dev>)
    requires KernelWords(s) && Takes(s, cause)
    ensures var ls := PendingOf(cause, Priority());
      InOrderOfBits(cause, dev, Batch(s, Entries(ls, dev)), BitsMade(s, ls, dev))
  {
    var ls := PendingOf(cause, Priority());
    PendingAscending(cause, Priority());
    BatchInOrder(s, ls, dev);
    BitsToCause(cause, dev, Batch(s, Entries(ls, dev)), BitsMade(s, ls, dev));
  }

  /** Whatever interruptHandler does, it does in the order of the bits. */
  lemma HandledInOrder(s: State, cause: Word, dev: map<Line, Dev>, t: State, rest: Word, steps: seq<Step>)
    requires Handled(s, cause, dev, t, rest, steps) && KernelWords(s) && Takes(s, cause)
    ensures LowestFirst(cause, dev, steps, rest)
  {
    var ls := PendingOf(cause, Priority());
    PendingInOrder(s, cause, dev);
    TriedBits(s, ls, dev);
    BitsCleared(cause, dev, rest, BitsMade(s, ls, dev), Tried(s, Entries(ls, dev)));
  }

  /** The bits answered are those of the lines tried that ask for something. */
  lemma {:induction false} TriedBits(s: State, ls: seq<Line>, dev: map<Line, Dev>)
    ensures var n := Tried(s, Entries(ls, dev));
      forall b :: b in BitsMade(s, ls, dev) <==> b in Bits(ls[..n]) && Asks(b, dev)
    decreases |ls|
  {
    var n := Tried(s, Entries(ls, dev));
    if n > 0 {
      var e := Entry(ls[0], dev);
      assert Entries(ls, dev)[1..] == Entries(ls[1..], dev);
      assert ls[..n] == [ls[0]] + ls[1..][..n - 1];
      BitsCons(ls[0], ls[1..][..n - 1]);
      LineServed(ls[0], dev);
      if BackFrom(s, e) {
        TriedBits(NextBy(s, e), ls[1..], dev);
      }
    }
  }

  lemma BitsCleared(cause: Word, dev: map<Line, Dev>, rest: Word, bits: seq<nat>, n: nat)
    requires n <= |PendingOf(cause, Priority())| && rest == cause - Bits(PendingOf(cause, Priority())[..n])
    requires forall b :: b in bits <==> b in Bits(PendingOf(cause, Priority())[..n]) && Asks(b, dev)
    ensures Acknowledged(cause, dev, rest, bits)
  {
    forall b | b in cause && b !in rest ensures b in {9, 10, 11, 12, 14, 15} {
      var l :| l in PendingOf(cause, Priority())[..n] && Bit(l) == b;
    }
  }

  lemma LineOf(cause: Word, b: nat)
    requires b in cause && b in Mask()
    ensures b in Bits(PendingOf(cause, Priority()))
  {
    var l := if b == 9 then LocalTimer else if b == 10 then SysTimer else if b == 11 then Disk
      else if b == 12 then Flash else if b == 14 then Printer else Terminal;
    BitsDistinct(l, l);
    assert l in PendingOf(cause, Priority());
  }

  // ---- when nothing is left over

  /** Device d has a command in flight, nobody queues for it, and nobody was killed waiting for it. */
  ghost predicate Answers(s: State, d: Dev) {
    KernelWords(s) && DeviceExpected(s, d) && s.val[Sync(d)] == 0
  }

  lemma AnswersKept(s: State, st: Step, d: Dev)
    requires Enabled(s, st) && ComesBack(s, st) && Answers(s, d) && st != SDevice(d)
    ensures Answers(Next(s, st), d)
  {
    if st.STick? {
      WakeAllFrame(s);
    } else {
      InterruptFrame(s, st.d);
    }
  }

  /** The devices behind the lines are in order. */
  ghost predicate AllAnswer(s: State, ls: seq<Line>, dev: map<Line, Dev>) {
    forall l :: l in ls && l in dev ==> Answers(s, dev[l])
  }

  ghost predicate Different(ls: seq<Line>, dev: map<Line, Dev>) {
    forall l, m :: l in ls && m in ls && l in dev && m in dev && l != m ==> dev[l] != dev[m]
  }

  lemma AllAnswerKept(s: State, ls: seq<Line>, dev: map<Line, Dev>)
    requires ls != [] && NoDup(ls) && AllAnswer(s, ls, dev) && Different(ls, dev)
    requires Goes(s, Entry(ls[0], dev)) && BackFrom(s, Entry(ls[0], dev))
    ensures AllAnswer(NextBy(s, Entry(ls[0], dev)), ls[1..], dev)
  {
    var e := Entry(ls[0], dev);
    forall l | l in ls[1..] && l in dev ensures Answers(NextBy(s, e), dev[l]) {
      assert l in ls && l != ls[0];
      if e.Some? {
        AnswersKept(s, e.value, dev[l]);
      }
    }
  }

  /** All the entries. */
  function AllMade(todo: seq<Option<Step>>): seq<Step> {
    if todo == [] then [] else Made(todo[0]) + AllMade(todo[1..])
  }

  lemma GuardedThen(s: State, e: Option<Step>, more: seq<Step>)
    requires Goes(s, e) && IsGuardedRun(NextBy(s, e), more) && (e.Some? ==> Guard(s, e.value))
    ensures IsGuardedRun(s, Made(e) + more)
  {
    if e.Some? {
      assert (Made(e) + more)[1..] == more;
    } else {
      assert Made(e) + more == more;
    }
  }

  lemma {:induction false} AllComeBack(s: State, ls: seq<Line>, dev: map<Line, Dev>)
    requires LocalTimer !in ls && NoDup(ls) && AllAnswer(s, ls, dev) && Different(ls, dev)
    requires KernelWords(s) && (s.mode.Running? || s.mode.Idle?)
    ensures var todo := Entries(ls, dev);
      Batch(s, todo) == AllMade(todo) && Tried(s, todo) == |ls| && IsGuardedRun(s, AllMade(todo))
    decreases |ls|
  {
    if ls != [] {
      var e := Entry(ls[0], dev);
      assert ls[0] in ls;
      if e.Some? {
        BackInMode(s, e.value);
      }
      AllAnswerKept(s, ls, dev);
      AllComeBack(NextBy(s, e), ls[1..], dev);
      GuardedThen(s, e, AllMade(Entries(ls[1..], dev)));
      assert Entries(ls, dev)[1..] == Entries(ls[1..], dev);
    }
  }

  lemma {:induction false} PendingDistinct(cause: Word, ls: seq<Line>)
    requires NoDup(ls)
    ensures NoDup(PendingOf(cause, ls))
  {
    if ls != [] {
      PendingDistinct(cause, ls[1..]);
    }
  }

  /** When the local timer is not pending and every device found on a pending line is in order, each pending line is
      served exactly once, in a guarded run of the machine; no bit of the mask is left, and the bits outside the mask
      are as before. */
  lemma AllServed(s: State, cause: Word, dev: map<Line, Dev>, t: State, rest: Word, steps: seq<Step>)
    requires Handled(s, cause, dev, t, rest, steps) && KernelWords(s) && Takes(s, cause)
    requires !Pending(cause, LocalTimer)
    requires AllAnswer(s, PendingOf(cause, Priority()), dev) && Different(PendingOf(cause, Priority()), dev)
    ensures steps == AllMade(Entries(PendingOf(cause, Priority()), dev)) && IsGuardedRun(s, steps)
    ensures rest == cause - Mask()
  {
    var ls := PendingOf(cause, Priority());
    PendingDistinct(cause, Priority());
    AllComeBack(s, ls, dev);
    assert ls[..|ls|] == ls;
    MaskCleared(cause);
  }

  lemma MaskCleared(cause: Word)
    ensures cause - Bits(PendingOf(cause, Priority())) == cause - Mask()
  {
    forall b ensures b in cause && b !in Bits(PendingOf(cause, Priority())) <==> b in cause && b !in Mask() {
      if b in cause && b in Mask() {
        LineOf(cause, b);
      } else if b in cause {
        forall l | l in PendingOf(cause, Priority()) ensures Bit(l) != b {
          BitsDistinct(l, l);
        }
      }
    }
  }
}
