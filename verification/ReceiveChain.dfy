/** The chain of receives behind the reorder buffer of the Windows UDP server, and its count of
    pending I/O, which datagram sends share.

    A few receives are kept posted. Each completion runs a callback on some worker thread, which
    hands the packet to the orderer and posts the next receive; a refused post becomes one queued
    retry task. The machine below interleaves all of this with any number of sends, for any number of
    threads and any behaviour of the kernel. A step is one critical section or one atomic access, with
    three exceptions: Stop, and the tests of isRunning_ before a packet is submitted and before a
    retry is arranged, are one step with what they guard. */
module ReceiveChain {
  import opened PacketOrdering

  const CONCURRENT_RECEIVES: nat := 4

  /** Where a thread is in SubmitReceive, or in the callback or task around it. */
  datatype Pc =
    | Received(q: nat)   // callback entered, packet not yet submitted
    | RetryBegin         // retry task entered, its flag not yet cleared
    | Enter              // SubmitReceive called
    | Checked            // found running
    | Numbered(q: nat)   // holds its sequence number
    | Tracked(q: nat)    // counted as pending I/O, about to post
    | Refused            // post refused, still counted
    | Recheck            // no longer counted, about to arrange a retry
    | Leaving            // SubmitReceive, Send or a send callback is over
    | SendEnter          // Send called
    | SendChecked        // found running
    | SendTracked        // counted as pending I/O, about to send
    | SendRefused        // send refused, still counted

  /** `nested`: a completion callback, which stays counted until it ends. */
  datatype Thread = Thread(nested: bool, pc: Pc)

  /** `sends` are the datagrams with the kernel; `merged` counts the refused receives that found a
      retry already arranged. */
  datatype State = State(
    started: bool, running: bool, startsLeft: nat,
    counter: nat, pendingIo: nat, retryFlag: bool, retryTasks: nat, merged: nat,
    posted: set<nat>, sends: nat, threads: map<nat, Thread>, arrivals: seq<Arrival>)

  const INITIAL := State(false, false, 0, 0, 0, false, 0, 0, {}, 0, map[], [])

  datatype Event =
    | Start
    | Stop
    | FirstReceive(t: nat)                  // one turn of the loop in StartReceiving
    | Completion(q: nat, t: nat)            // the kernel completes receive q; t runs its callback
    | Deliver(t: nat, valid: bool, packet: Packet, arrivedAt: nat, checkedAt: nat)
    | BeginRetry(t: nat)                    // the task thread takes the retry task
    | Accept(t: nat)
    | Refuse(t: nat)
    | BeginSend(t: nat)
    | AcceptSend(t: nat)
    | RefuseSend(t: nat)
    | SendCompletion(t: nat)                // the kernel completes a send; t runs its callback
    | Advance(t: nat)                       // the next step of t that nobody else decides

  predicate Enabled(s: State, e: Event) {
    match e
    case Start => !s.started
    case Stop => s.started
    case FirstReceive(t) => s.startsLeft > 0 && t !in s.threads
    case Completion(q, t) => q in s.posted && t !in s.threads
    case Deliver(t, _, _, _, _) => t in s.threads && s.threads[t].pc.Received?
    case BeginRetry(t) => s.retryTasks > 0 && t !in s.threads
    case Accept(t) => t in s.threads && s.threads[t].pc.Tracked?
    case Refuse(t) => t in s.threads && s.threads[t].pc.Tracked?
    case BeginSend(t) => t !in s.threads
    case AcceptSend(t) => t in s.threads && s.threads[t].pc.SendTracked?
    case RefuseSend(t) => t in s.threads && s.threads[t].pc.SendTracked?
    case SendCompletion(t) => s.sends > 0 && t !in s.threads
    case Advance(t) =>
      t in s.threads && !s.threads[t].pc.Received? && !s.threads[t].pc.Tracked? && !s.threads[t].pc.SendTracked?
  }

  function Goto(s: State, t: nat, pc: Pc): State
    requires t in s.threads
  {
    s.(threads := s.threads[t := s.threads[t].(pc := pc)])
  }

  /** CompletePendingIo, with its guard against going below zero. */
  function CompletePending(s: State): State {
    if s.pendingIo == 0 then s else s.(pendingIo := s.pendingIo - 1)
  }

  function AdvanceStep(s: State, t: nat): State
    requires Enabled(s, Advance(t))
  {
    match s.threads[t].pc
    case RetryBegin => Goto(s, t, Enter).(retryFlag := false)
    case Enter => Goto(s, t, if s.running then Checked else Leaving)
    case Checked => Goto(s, t, Numbered(s.counter)).(counter := s.counter + 1)
    case Numbered(q) => Goto(s, t, Tracked(q)).(pendingIo := s.pendingIo + 1)
    case Refused => CompletePending(Goto(s, t, Recheck))
    case Recheck =>
      var s' := Goto(s, t, Leaving);
      if !s.running then s'
      else if s.retryFlag then s'.(merged := s.merged + 1)
      else s'.(retryFlag := true, retryTasks := s.retryTasks + 1)
    case Leaving =>
      var s' := s.(threads := s.threads - {t});
      if s.threads[t].nested then CompletePending(s') else s'
    case SendEnter => Goto(s, t, if s.running then SendChecked else Leaving)
    case SendChecked => Goto(s, t, SendTracked).(pendingIo := s.pendingIo + 1)
    case SendRefused => CompletePending(Goto(s, t, Leaving))
  }

  function Step(s: State, e: Event): State
    requires Enabled(s, e)
  {
    match e
    case Start => s.(started := true, running := true, retryFlag := false, startsLeft := CONCURRENT_RECEIVES)
    case Stop => s.(running := false, retryFlag := false)
    case FirstReceive(t) => s.(startsLeft := s.startsLeft - 1, threads := s.threads[t := Thread(false, Enter)])
    case Completion(q, t) => s.(posted := s.posted - {q}, threads := s.threads[t := Thread(true, Received(q))])
    case Deliver(t, valid, packet, arrivedAt, checkedAt) =>
      var s' := Goto(s, t, Enter);
      if s.running && valid then
        s'.(arrivals := s.arrivals + [Arrival(s.threads[t].pc.q, packet, arrivedAt, checkedAt)])
      else s'
    case BeginRetry(t) =>
      s.(retryTasks := s.retryTasks - 1, threads := s.threads[t := Thread(false, RetryBegin)])
    case Accept(t) => Goto(s, t, Leaving).(posted := s.posted + {s.threads[t].pc.q})
    case Refuse(t) => Goto(s, t, Refused)
    case BeginSend(t) => s.(threads := s.threads[t := Thread(false, SendEnter)])
    case AcceptSend(t) => Goto(s, t, Leaving).(sends := s.sends + 1)
    case RefuseSend(t) => Goto(s, t, SendRefused)
    case SendCompletion(t) => s.(sends := s.sends - 1, threads := s.threads[t := Thread(true, Leaving)])
    case Advance(t) => AdvanceStep(s, t)
  }

  predicate ValidRun(s: State, es: seq<Event>)
    decreases |es|
  {
    es == [] || (Enabled(s, es[0]) && ValidRun(Step(s, es[0]), es[1..]))
  }

  function Final(s: State, es: seq<Event>): State
    requires ValidRun(s, es)
    decreases |es|
  {
    if es == [] then s else Final(Step(s, es[0]), es[1..])
  }

  // ---------------------------------------------------------------- counting threads

  /** The thread carries a receive chain on. */
  predicate IsLive(th: Thread) {
    !th.pc.Leaving? && !th.pc.SendEnter? && !th.pc.SendChecked? && !th.pc.SendTracked? && !th.pc.SendRefused?
  }

  predicate IsNested(th: Thread) { th.nested }

  predicate IsCounted(th: Thread) {
    th.pc.Tracked? || th.pc.Refused? || th.pc.SendTracked? || th.pc.SendRefused?
  }

  predicate IsRetrying(th: Thread) { th.pc.RetryBegin? }

  ghost function Live(threads: map<nat, Thread>): set<nat> {
    set t | t in threads && IsLive(threads[t])
  }

  ghost function Nested(threads: map<nat, Thread>): set<nat> {
    set t | t in threads && IsNested(threads[t])
  }

  ghost function Counted(threads: map<nat, Thread>): set<nat> {
    set t | t in threads && IsCounted(threads[t])
  }

  ghost function Retrying(threads: map<nat, Thread>): set<nat> {
    set t | t in threads && IsRetrying(threads[t])
  }

  function Bit(b: bool): nat { if b then 1 else 0 }

  lemma SetPut(before: set<nat>, after: set<nat>, t: nat, now: bool)
    requires after == if now then before + {t} else before - {t}
    ensures |after| + Bit(t in before) == |before| + Bit(now)
  {
    var rest := before - {t};
    assert before == if t in before then rest + {t} else rest;
    assert after == if now then rest + {t} else rest;
  }

  lemma PutLive(threads: map<nat, Thread>, t: nat, th: Thread)
    ensures |Live(threads[t := th])| + Bit(t in threads && IsLive(threads[t])) == |Live(threads)| + Bit(IsLive(th))
  {
    SetPut(Live(threads), Live(threads[t := th]), t, IsLive(th));
  }

  lemma DropLive(threads: map<nat, Thread>, t: nat)
    requires t in threads
    ensures |Live(threads - {t})| + Bit(IsLive(threads[t])) == |Live(threads)|
  {
    SetPut(Live(threads), Live(threads - {t}), t, false);
  }

  lemma PutNested(threads: map<nat, Thread>, t: nat, th: Thread)
    ensures |Nested(threads[t := th])| + Bit(t in threads && IsNested(threads[t]))
            == |Nested(threads)| + Bit(IsNested(th))
  {
    SetPut(Nested(threads), Nested(threads[t := th]), t, IsNested(th));
  }

  lemma DropNested(threads: map<nat, Thread>, t: nat)
    requires t in threads
    ensures |Nested(threads - {t})| + Bit(IsNested(threads[t])) == |Nested(threads)|
  {
    SetPut(Nested(threads), Nested(threads - {t}), t, false);
  }

  lemma PutCounted(threads: map<nat, Thread>, t: nat, th: Thread)
    ensures |Counted(threads[t := th])| + Bit(t in threads && IsCounted(threads[t]))
            == |Counted(threads)| + Bit(IsCounted(th))
  {
    SetPut(Counted(threads), Counted(threads[t := th]), t, IsCounted(th));
  }

  lemma DropCounted(threads: map<nat, Thread>, t: nat)
    requires t in threads
    ensures |Counted(threads - {t})| + Bit(IsCounted(threads[t])) == |Counted(threads)|
  {
    SetPut(Counted(threads), Counted(threads - {t}), t, false);
  }

  lemma PutRetrying(threads: map<nat, Thread>, t: nat, th: Thread)
    ensures |Retrying(threads[t := th])| + Bit(t in threads && IsRetrying(threads[t]))
            == |Retrying(threads)| + Bit(IsRetrying(th))
  {
    SetPut(Retrying(threads), Retrying(threads[t := th]), t, IsRetrying(th));
  }

  lemma DropRetrying(threads: map<nat, Thread>, t: nat)
    requires t in threads
    ensures |Retrying(threads - {t})| + Bit(IsRetrying(threads[t])) == |Retrying(threads)|
  {
    SetPut(Retrying(threads), Retrying(threads - {t}), t, false);
  }

  lemma PutCounts(threads: map<nat, Thread>, t: nat, th: Thread)
    ensures var threads' := threads[t := th];
            var here := t in threads;
            && |Live(threads')| + Bit(here && IsLive(threads[t])) == |Live(threads)| + Bit(IsLive(th))
            && |Nested(threads')| + Bit(here && IsNested(threads[t])) == |Nested(threads)| + Bit(IsNested(th))
            && |Counted(threads')| + Bit(here && IsCounted(threads[t])) == |Counted(threads)| + Bit(IsCounted(th))
            && |Retrying(threads')| + Bit(here && IsRetrying(threads[t])) == |Retrying(threads)| + Bit(IsRetrying(th))
  {
    PutLive(threads, t, th);
    PutNested(threads, t, th);
    PutCounted(threads, t, th);
    PutRetrying(threads, t, th);
  }

  // ---------------------------------------------------------------- what every step keeps

  /** Receives posted, in hand, queued for retry, or still to be made by the start loop. */
  ghost function Chains(s: State): nat {
    s.startsLeft + |s.posted| + |Live(s.threads)| + s.retryTasks
  }

  ghost predicate CountsHold(s: State) {
    && Chains(s) <= CONCURRENT_RECEIVES
    && s.pendingIo == |s.posted| + s.sends + |Nested(s.threads)| + |Counted(s.threads)|
    && (s.running ==> s.started)
    && (!s.started ==> Chains(s) == 0 && !s.retryFlag && s.merged == 0)
    && (s.running ==> s.retryTasks + |Retrying(s.threads)| == Bit(s.retryFlag))
    && (s.running ==> Chains(s) + s.merged == CONCURRENT_RECEIVES && Chains(s) >= 1)
  }

  predicate HoldsNumber(pc: Pc) {
    pc.Received? || pc.Numbered? || pc.Tracked?
  }

  /** Every sequence number is in one place: a posted receive, one thread, or the submitted ones. */
  ghost predicate NumbersHold(s: State) {
    && (forall q :: q in s.posted ==> q < s.counter)
    && (forall t :: t in s.threads && HoldsNumber(s.threads[t].pc) ==>
          s.threads[t].pc.q < s.counter && s.threads[t].pc.q !in s.posted)
    && (forall t, u :: t in s.threads && u in s.threads && t != u
                       && HoldsNumber(s.threads[t].pc) && HoldsNumber(s.threads[u].pc)
                       ==> s.threads[t].pc.q != s.threads[u].pc.q)
    && (forall i :: 0 <= i < |s.arrivals| ==>
          s.arrivals[i].seqNo < s.counter && s.arrivals[i].seqNo !in s.posted)
    && (forall i, t :: 0 <= i < |s.arrivals| && t in s.threads && HoldsNumber(s.threads[t].pc) ==>
          s.arrivals[i].seqNo != s.threads[t].pc.q)
    && Distinct(s.arrivals)
  }

  lemma LeavingChain(threads: map<nat, Thread>)
    ensures |Retrying(threads)| <= |Live(threads)|
  {
    var retrying, live := Retrying(threads), Live(threads);
    assert retrying <= live;
    assert live == retrying + (live - retrying);
  }

  /** The arithmetic of a step in which one thread appears or moves on. */
  lemma CountsMove(s: State, s': State, t: nat, was: Thread)
    requires CountsHold(s) && t in s'.threads && s'.threads == s.threads[t := s'.threads[t]]
    requires t in s.threads ==> was == s.threads[t]
    requires s'.started == s.started && s'.running == s.running && (!s.started ==> !s'.retryFlag)
    requires var here, now := t in s.threads, s'.threads[t];
             var before := s.startsLeft + |s.posted| + s.retryTasks + Bit(here && IsLive(was));
             var after := s'.startsLeft + |s'.posted| + s'.retryTasks + Bit(IsLive(now));
             && after <= before
             && (if s.running then after + s'.merged == before + s.merged && (after < before ==> s'.retryFlag)
                 else s'.merged == s.merged)
             && s'.pendingIo + |s.posted| + s.sends + Bit(here && IsNested(was)) + Bit(here && IsCounted(was))
                == s.pendingIo + |s'.posted| + s'.sends + Bit(IsNested(now)) + Bit(IsCounted(now))
             && (s.running ==> s'.retryTasks + Bit(IsRetrying(now)) + Bit(s.retryFlag)
                               == s.retryTasks + Bit(here && IsRetrying(was)) + Bit(s'.retryFlag))
    ensures CountsHold(s')
  {
    PutCounts(s.threads, t, s'.threads[t]);
    LeavingChain(s'.threads);
  }

  lemma CountsStep(s: State, e: Event)
    requires CountsHold(s) && NumbersHold(s) && Enabled(s, e)
    ensures CountsHold(Step(s, e))
  {
    match e
    case Start => LeavingChain(s.threads);
    case Stop =>
    case FirstReceive(t) => SpawnCounts(s, e);
    case BeginRetry(t) => SpawnCounts(s, e);
    case Completion(q, t) => CompletionCounts(s, q, t);
    case Accept(t) => AcceptCounts(s, t);
    case Deliver(t, _, _, _, _) => MovedCounts(s, e);
    case Refuse(t) => MovedCounts(s, e);
    case AcceptSend(t) => MovedCounts(s, e);
    case RefuseSend(t) => MovedCounts(s, e);
    case BeginSend(t) => SendCounts(s, e);
    case SendCompletion(t) => SendCounts(s, e);
    case Advance(t) => AdvanceCounts(s, t);
  }

  lemma MovedCounts(s: State, e: Event)
    requires CountsHold(s) && Enabled(s, e) && (e.Deliver? || e.Refuse? || e.AcceptSend? || e.RefuseSend?)
    ensures CountsHold(Step(s, e))
  {
    CountsMove(s, Step(s, e), e.t, s.threads[e.t]);
  }

  lemma SendCounts(s: State, e: Event)
    requires CountsHold(s) && Enabled(s, e) && (e.BeginSend? || e.SendCompletion?)
    ensures CountsHold(Step(s, e))
  {
    CountsMove(s, Step(s, e), e.t, Thread(false, Enter));
  }

  lemma SpawnCounts(s: State, e: Event)
    requires CountsHold(s) && (e.FirstReceive? || e.BeginRetry?) && Enabled(s, e)
    ensures CountsHold(Step(s, e))
  {
    CountsMove(s, Step(s, e), e.t, Thread(false, Enter));
  }

  lemma CompletionCounts(s: State, q: nat, t: nat)
    requires CountsHold(s) && Enabled(s, Completion(q, t))
    ensures CountsHold(Step(s, Completion(q, t)))
  {
    var s' := Step(s, Completion(q, t));
    assert |s'.posted| == |s.posted| - 1;
    CountsMove(s, s', t, Thread(false, Enter));
  }

  lemma AcceptCounts(s: State, t: nat)
    requires CountsHold(s) && NumbersHold(s) && Enabled(s, Accept(t))
    ensures CountsHold(Step(s, Accept(t)))
  {
    var s' := Step(s, Accept(t));
    assert s.threads[t].pc.q !in s.posted;
    assert |s'.posted| == |s.posted| + 1;
    CountsMove(s, s', t, s.threads[t]);
  }

  lemma AdvanceCounts(s: State, t: nat)
    requires CountsHold(s) && Enabled(s, Advance(t))
    ensures CountsHold(AdvanceStep(s, t))
  {
    match s.threads[t].pc
    case Leaving => LeaveCounts(s, t);
    case RetryBegin => RetryCounts(s, t);
    case Recheck => RecheckCounts(s, t);
    case Enter => EnterCounts(s, t);
    case Checked => PlainCounts(s, t);
    case Numbered(_) => PlainCounts(s, t);
    case Refused => RefusedCounts(s, t);
    case SendEnter => PlainCounts(s, t);
    case SendChecked => PlainCounts(s, t);
    case SendRefused => RefusedCounts(s, t);
  }

  lemma PlainCounts(s: State, t: nat)
    requires CountsHold(s) && t in s.threads
    requires var pc := s.threads[t].pc; pc.Checked? || pc.Numbered? || pc.SendEnter? || pc.SendChecked?
    ensures CountsHold(AdvanceStep(s, t))
  {
    CountsMove(s, AdvanceStep(s, t), t, s.threads[t]);
  }

  lemma EnterCounts(s: State, t: nat)
    requires CountsHold(s) && t in s.threads && s.threads[t].pc.Enter?
    ensures CountsHold(AdvanceStep(s, t))
  {
    CountsMove(s, AdvanceStep(s, t), t, s.threads[t]);
  }

  lemma RefusedCounts(s: State, t: nat)
    requires CountsHold(s) && t in s.threads && (s.threads[t].pc.Refused? || s.threads[t].pc.SendRefused?)
    ensures CountsHold(AdvanceStep(s, t))
  {
    assert t in Counted(s.threads);
    CountsMove(s, AdvanceStep(s, t), t, s.threads[t]);
  }

  lemma RetryCounts(s: State, t: nat)
    requires CountsHold(s) && t in s.threads && s.threads[t].pc.RetryBegin?
    ensures CountsHold(AdvanceStep(s, t))
  {
    assert t in Retrying(s.threads);
    CountsMove(s, AdvanceStep(s, t), t, s.threads[t]);
  }

  lemma RecheckCounts(s: State, t: nat)
    requires CountsHold(s) && t in s.threads && s.threads[t].pc.Recheck?
    ensures CountsHold(AdvanceStep(s, t))
  {
    assert t in Live(s.threads);
    CountsMove(s, AdvanceStep(s, t), t, s.threads[t]);
  }

  lemma LeaveCounts(s: State, t: nat)
    requires CountsHold(s) && t in s.threads && s.threads[t].pc.Leaving?
    ensures CountsHold(AdvanceStep(s, t))
  {
    DropLive(s.threads, t);
    DropNested(s.threads, t);
    DropCounted(s.threads, t);
    DropRetrying(s.threads, t);
  }

  /** A thread that moves on without taking a number keeps the numbers in place. */
  lemma MoveKeepsNumbers(s: State, s': State, t: nat)
    requires NumbersHold(s) && t in s'.threads && s'.threads == s.threads[t := s'.threads[t]]
    requires HoldsNumber(s'.threads[t].pc) ==>
               t in s.threads && HoldsNumber(s.threads[t].pc) && s.threads[t].pc.q == s'.threads[t].pc.q
    requires s'.posted == s.posted && s'.arrivals == s.arrivals && s'.counter == s.counter
    ensures NumbersHold(s')
  {
  }

  lemma NumbersStep(s: State, e: Event)
    requires NumbersHold(s) && Enabled(s, e)
    ensures NumbersHold(Step(s, e))
  {
    match e
    case Start =>
    case Stop =>
    case FirstReceive(t) => SpawnNumbers(s, e);
    case BeginRetry(t) => SpawnNumbers(s, e);
    case BeginSend(t) => SpawnNumbers(s, e);
    case SendCompletion(t) => SpawnNumbers(s, e);
    case Completion(q, t) => CompletionNumbers(s, q, t);
    case Deliver(t, _, _, _, _) => DeliverNumbers(s, e);
    case Accept(t) => AcceptNumbers(s, t);
    case Refuse(t) => RefuseNumbers(s, e);
    case AcceptSend(t) => RefuseNumbers(s, e);
    case RefuseSend(t) => RefuseNumbers(s, e);
    case Advance(t) => AdvanceNumbers(s, t);
  }

  lemma SpawnNumbers(s: State, e: Event)
    requires NumbersHold(s) && Enabled(s, e)
    requires e.FirstReceive? || e.BeginRetry? || e.BeginSend? || e.SendCompletion?
    ensures NumbersHold(Step(s, e))
  {
    MoveKeepsNumbers(s, Step(s, e), e.t);
  }

  lemma RefuseNumbers(s: State, e: Event)
    requires NumbersHold(s) && Enabled(s, e) && (e.Refuse? || e.AcceptSend? || e.RefuseSend?)
    ensures NumbersHold(Step(s, e))
  {
    MoveKeepsNumbers(s, Step(s, e), e.t);
  }

  lemma AdvanceNumbers(s: State, t: nat)
    requires NumbersHold(s) && Enabled(s, Advance(t))
    ensures NumbersHold(AdvanceStep(s, t))
  {
    match s.threads[t].pc
    case Checked => TakeNumber(s, t);
    case Leaving => ForgetThread(s, t);
    case Numbered(q) => TrackNumber(s, t);
    case RetryBegin => KeepNumbers(s, t);
    case Enter => KeepNumbers(s, t);
    case Refused => GiveUpNumbers(s, t);
    case Recheck => GiveUpNumbers(s, t);
    case SendEnter => KeepNumbers(s, t);
    case SendChecked => KeepNumbers(s, t);
    case SendRefused => GiveUpNumbers(s, t);
  }

  lemma TrackNumber(s: State, t: nat)
    requires NumbersHold(s) && t in s.threads && s.threads[t].pc.Numbered?
    ensures NumbersHold(AdvanceStep(s, t))
  {
    MoveKeepsNumbers(s, AdvanceStep(s, t), t);
  }

  lemma KeepNumbers(s: State, t: nat)
    requires NumbersHold(s) && t in s.threads
    requires var pc := s.threads[t].pc; pc.RetryBegin? || pc.Enter? || pc.SendEnter? || pc.SendChecked?
    ensures NumbersHold(AdvanceStep(s, t))
  {
    MoveKeepsNumbers(s, AdvanceStep(s, t), t);
  }

  lemma GiveUpNumbers(s: State, t: nat)
    requires NumbersHold(s) && t in s.threads
    requires var pc := s.threads[t].pc; pc.Refused? || pc.Recheck? || pc.SendRefused?
    ensures NumbersHold(AdvanceStep(s, t))
  {
    MoveKeepsNumbers(s, AdvanceStep(s, t), t);
  }

  lemma CompletionNumbers(s: State, q: nat, t: nat)
    requires NumbersHold(s) && Enabled(s, Completion(q, t))
    ensures NumbersHold(Step(s, Completion(q, t)))
  {
  }

  lemma DeliverNumbers(s: State, e: Event)
    requires NumbersHold(s) && e.Deliver? && Enabled(s, e)
    ensures NumbersHold(Step(s, e))
  {
    MoveKeepsNumbers(s, Goto(s, e.t, Enter), e.t);
  }

  lemma AcceptNumbers(s: State, t: nat)
    requires NumbersHold(s) && Enabled(s, Accept(t))
    ensures NumbersHold(Step(s, Accept(t)))
  {
    MoveKeepsNumbers(s, Goto(s, t, Leaving), t);
  }

  lemma ForgetThread(s: State, t: nat)
    requires NumbersHold(s) && t in s.threads && s.threads[t].pc.Leaving?
    ensures NumbersHold(AdvanceStep(s, t))
  {
  }

  lemma TakeNumber(s: State, t: nat)
    requires NumbersHold(s) && t in s.threads && s.threads[t].pc.Checked?
    ensures NumbersHold(AdvanceStep(s, t))
  {
  }

  ghost predicate Inv(s: State) {
    CountsHold(s) && NumbersHold(s)
  }

  lemma {:induction false} InvRun(s: State, es: seq<Event>)
    requires Inv(s) && ValidRun(s, es)
    ensures Inv(Final(s, es))
    decreases |es|
  {
    if es != [] {
      CountsStep(s, es[0]);
      NumbersStep(s, es[0]);
      InvRun(Step(s, es[0]), es[1..]);
    }
  }

  lemma InitialInv()
    ensures Inv(INITIAL)
  {
    assert Live(INITIAL.threads) == {};
    assert Nested(INITIAL.threads) == {};
    assert Counted(INITIAL.threads) == {};
    assert Retrying(INITIAL.threads) == {};
  }

  // ---------------------------------------------------------------- whole runs

  /** After any run: never more than CONCURRENT_RECEIVES receives posted, in hand or queued for
      retry. While the server runs at least one is, so it never stops listening; at most one retry task
      is queued; and all of them are, exactly if no refused receive ever found a retry already
      arranged: each one that does ends its chain. */
  lemma ReceivesBounded(es: seq<Event>)
    requires ValidRun(INITIAL, es)
    ensures var s := Final(INITIAL, es);
            && |s.posted| + |Live(s.threads)| + s.retryTasks <= CONCURRENT_RECEIVES
            && (s.running ==> 1 <= Chains(s) == CONCURRENT_RECEIVES - s.merged && s.retryTasks <= 1)
  {
    InitialInv();
    InvRun(INITIAL, es);
  }

  /** A refused receive finds a retry arranged. */
  predicate Merges(s: State, e: Event)
    requires Enabled(s, e)
  {
    e.Advance? && s.threads[e.t].pc.Recheck? && s.running && s.retryFlag
  }

  function Merged(s: State, es: seq<Event>): nat
    requires ValidRun(s, es)
    decreases |es|
  {
    if es == [] then 0 else (if Merges(s, es[0]) then 1 else 0) + Merged(Step(s, es[0]), es[1..])
  }

  lemma {:induction false} MergedCounts(s: State, es: seq<Event>)
    requires ValidRun(s, es)
    ensures Final(s, es).merged == s.merged + Merged(s, es)
    decreases |es|
  {
    if es != [] {
      assert Step(s, es[0]).merged == s.merged + (if Merges(s, es[0]) then 1 else 0);
      MergedCounts(Step(s, es[0]), es[1..]);
    }
  }

  /** The server still has all its receives if and only if no refusal met a set retry flag. */
  lemma AllChainsIff(es: seq<Event>)
    requires ValidRun(INITIAL, es) && Final(INITIAL, es).running
    ensures Chains(Final(INITIAL, es)) == CONCURRENT_RECEIVES - Merged(INITIAL, es)
    ensures Chains(Final(INITIAL, es)) == CONCURRENT_RECEIVES <==> Merged(INITIAL, es) == 0
  {
    ReceivesBounded(es);
    MergedCounts(INITIAL, es);
  }

  /** The pending count is exact, receives and sends together, so its zero guard never fires, in any
      of the four places that count down; and zero means that nothing is outstanding: no receive and no
      send is with the kernel, no callback is under way and no call is waiting for an answer. */
  lemma PendingExact(es: seq<Event>, e: Event)
    requires ValidRun(INITIAL, es) && Enabled(Final(INITIAL, es), e)
    ensures var s := Final(INITIAL, es);
            && s.pendingIo == |s.posted| + s.sends + |Nested(s.threads)| + |Counted(s.threads)|
            && (CountsDown(s, e) ==> s.pendingIo > 0)
            && (s.pendingIo == 0 ==>
                  && s.posted == {} && s.sends == 0
                  && forall t :: t in s.threads ==> !IsNested(s.threads[t]) && !IsCounted(s.threads[t]))
  {
    InitialInv();
    InvRun(INITIAL, es);
    var s := Final(INITIAL, es);
    if CountsDown(s, e) {
      assert e.t in Counted(s.threads) || e.t in Nested(s.threads);
    }
    forall t | s.pendingIo == 0 && t in s.threads ensures !IsNested(s.threads[t]) && !IsCounted(s.threads[t]) {
      assert t !in Nested(s.threads) && t !in Counted(s.threads);
    }
  }

  lemma {:induction false} NoFlagRun(s: State, es: seq<Event>)
    requires ValidRun(s, es) && (s.retryFlag ==> s.running)
    ensures Final(s, es).retryFlag ==> Final(s, es).running
    decreases |es|
  {
    if es != [] {
      NoFlagRun(Step(s, es[0]), es[1..]);
    }
  }

  /** Once the server is stopped no retry is arranged or flagged, and whoever enters SubmitReceive or Send leaves
      without taking a number or being counted. */
  lemma NothingBeginsStopped(es: seq<Event>, e: Event)
    requires ValidRun(INITIAL, es) && Enabled(Final(INITIAL, es), e)
    requires !Final(INITIAL, es).running && !e.Start?
    ensures var s := Final(INITIAL, es);
            var s' := Step(s, e);
            && !s'.running && !s'.retryFlag && s'.retryTasks <= s.retryTasks
            && (e.Advance? && (s.threads[e.t].pc.Enter? || s.threads[e.t].pc.SendEnter?) ==>
                  e.t in s'.threads && s'.threads[e.t].pc == Leaving
                  && s'.counter == s.counter && s'.pendingIo == s.pendingIo)
  {
    NoFlagRun(INITIAL, es);
  }

  /** The step calls CompletePendingIo. */
  predicate CountsDown(s: State, e: Event)
    requires Enabled(s, e)
  {
    e.Advance? && (s.threads[e.t].pc.Refused? || s.threads[e.t].pc.SendRefused?
                   || (s.threads[e.t].pc.Leaving? && s.threads[e.t].nested))
  }

  /** Whether the server runs, told from the events. */
  function RunningAfter(e: Event, running: bool): bool {
    if e.Start? then true else if e.Stop? then false else running
  }

  /** For each thread the number of the receive whose completion it was last given. */
  function OriginAfter(e: Event, origin: map<nat, nat>): map<nat, nat> {
    if e.Completion? then origin[e.t := e.q] else origin
  }

  function Hands(e: Event, running: bool, origin: map<nat, nat>): seq<Arrival> {
    if e.Deliver? && running && e.valid && e.t in origin then
      [Arrival(origin[e.t], e.packet, e.arrivedAt, e.checkedAt)]
    else []
  }

  /** What a run hands to the orderer, told from its events alone. */
  function Handed(es: seq<Event>, running: bool, origin: map<nat, nat>): seq<Arrival> {
    if es == [] then []
    else Hands(es[0], running, origin) + Handed(es[1..], RunningAfter(es[0], running), OriginAfter(es[0], origin))
  }

  /** The machine agrees with the events so far. */
  ghost predicate Traced(s: State, running: bool, origin: map<nat, nat>) {
    && running == s.running
    && forall t :: t in s.threads && s.threads[t].pc.Received? ==> t in origin && origin[t] == s.threads[t].pc.q
  }

  lemma MovedTraced(s: State, s': State, t: nat, running: bool, origin: map<nat, nat>)
    requires Traced(s, running, origin) && s'.running == running
    requires t in s'.threads && s'.threads == s.threads[t := s'.threads[t]] && !s'.threads[t].pc.Received?
    ensures Traced(s', running, origin)
  {
  }

  lemma AdvanceMoves(s: State, t: nat)
    requires Enabled(s, Advance(t)) && !s.threads[t].pc.Leaving?
    ensures var s' := AdvanceStep(s, t);
            && t in s'.threads && s'.threads == s.threads[t := s'.threads[t]] && !s'.threads[t].pc.Received?
            && s'.running == s.running && s'.arrivals == s.arrivals
  {
    match s.threads[t].pc
    case Recheck =>
    case _ =>
  }

  lemma AdvanceTraced(s: State, t: nat, running: bool, origin: map<nat, nat>)
    requires Traced(s, running, origin) && Enabled(s, Advance(t))
    ensures Traced(AdvanceStep(s, t), running, origin) && AdvanceStep(s, t).arrivals == s.arrivals
  {
    if !s.threads[t].pc.Leaving? {
      AdvanceMoves(s, t);
      MovedTraced(s, AdvanceStep(s, t), t, running, origin);
    }
  }

  lemma QuietTraced(s: State, e: Event, running: bool, origin: map<nat, nat>)
    requires Traced(s, running, origin) && Enabled(s, e)
    requires !e.Start? && !e.Stop? && !e.Completion? && !e.Deliver? && !e.Advance?
    ensures Traced(Step(s, e), running, origin) && Step(s, e).arrivals == s.arrivals
  {
    MovedTraced(s, Step(s, e), e.t, running, origin);
  }

  lemma TracedStep(s: State, e: Event, running: bool, origin: map<nat, nat>)
    requires Traced(s, running, origin) && Enabled(s, e)
    ensures Traced(Step(s, e), RunningAfter(e, running), OriginAfter(e, origin))
    ensures Step(s, e).arrivals == s.arrivals + Hands(e, running, origin)
  {
    if e.Advance? {
      AdvanceTraced(s, e.t, running, origin);
    } else if e.Deliver? {
      MovedTraced(s, Step(s, e), e.t, running, origin);
    } else if !e.Start? && !e.Stop? && !e.Completion? {
      QuietTraced(s, e, running, origin);
    }
  }

  lemma {:induction false} HandedRun(s: State, es: seq<Event>, running: bool, origin: map<nat, nat>)
    requires Traced(s, running, origin) && ValidRun(s, es)
    ensures Final(s, es).arrivals == s.arrivals + Handed(es, running, origin)
    decreases |es|
  {
    if es != [] {
      TracedStep(s, es[0], running, origin);
      HandedRun(Step(s, es[0]), es[1..], RunningAfter(es[0], running), OriginAfter(es[0], origin));
    }
  }

  /** The orderer is given exactly the good packets whose callbacks found the server running, in the order of the
      callbacks, each under the number its receive was posted with and with its own clock readings. */
  lemma ArrivalsExact(es: seq<Event>)
    requires ValidRun(INITIAL, es)
    ensures Final(INITIAL, es).arrivals == Handed(es, false, map[])
  {
    HandedRun(INITIAL, es, false, map[]);
  }

  /** Hence, whatever the workers, the kernel and the clock do, each of these packets is delivered once or still
      buffered, unaltered, and nothing else is. */
  lemma ReceivedOnce(limits: Limits, es: seq<Event>)
    requires ValidRun(INITIAL, es)
    ensures var arrivals := Handed(es, false, map[]);
            var b := Run(limits, arrivals);
            && Distinct(arrivals)
            && Bag(b) == Arrived(arrivals)
            && (forall i :: 0 <= i < |arrivals| ==> arrivals[i].seqNo < Final(INITIAL, es).counter
                                                    && Bag(b)[Stamped(arrivals[i])] == 1)
            && (forall i, j :: 0 <= i < j < |b.log| ==> b.log[i].0 != b.log[j].0)
            && (forall i :: 0 <= i < |b.log| ==> b.log[i].0 !in b.pending)
  {
    InitialInv();
    InvRun(INITIAL, es);
    ArrivalsExact(es);
    var arrivals := Handed(es, false, map[]);
    DeliveredOnce(limits, arrivals);
    forall i | 0 <= i < |arrivals| ensures Arrived(arrivals)[Stamped(arrivals[i])] == 1 {
      ArrivedFrom(arrivals, Stamped(arrivals[i]));
      ArrivedOnce(arrivals, Stamped(arrivals[i]));
    }
  }

  // ---------------------------------------------------------------- the object

  /** What SubmitReceive comes to: one more receive posted, or a retry arranged, or nothing if the server is stopped. */
  predicate Resumed(s: State, r: State, accepted: bool) {
    && r.running == s.running
    && r.counter == s.counter + Bit(s.running)
    && r.posted == s.posted + (if s.running && accepted then {s.counter} else {})
    && r.retryFlag == (s.retryFlag || (s.running && !accepted))
    && r.retryTasks == s.retryTasks + Bit(s.running && !accepted && !s.retryFlag)
  }

  /** The steps thread t makes when SubmitReceive runs without interruption. */
  function Uninterrupted(s: State, t: nat, accepted: bool): seq<Event>
  {
    if !s.running then [Advance(t)]
    else [Advance(t), Advance(t), Advance(t)] + if accepted then [Accept(t)] else [Refuse(t), Advance(t), Advance(t)]
  }

  /** Where it leaves thread t, when the server runs. */
  function AfterSubmit(s: State, t: nat, accepted: bool): State
    requires t in s.threads
  {
    var s' := Goto(s, t, Leaving).(counter := s.counter + 1);
    if accepted then s'.(pendingIo := s.pendingIo + 1, posted := s.posted + {s.counter})
    else s'.(retryFlag := true, retryTasks := s.retryTasks + Bit(!s.retryFlag), merged := s.merged + Bit(s.retryFlag))
  }

  lemma SubmitTaken(s: State, t: nat)
    requires t in s.threads && s.threads[t].pc == Enter && s.running
    ensures ValidRun(s, Uninterrupted(s, t, true))
    ensures Final(s, Uninterrupted(s, t, true)) == AfterSubmit(s, t, true)
  {
    RunCons(WhenTracked(s, t), Accept(t), []);
    assert [Accept(t)] + [] == [Accept(t)];
    ReachTracked(s, t, [Accept(t)]);
  }

  lemma SubmitRefused(s: State, t: nat)
    requires t in s.threads && s.threads[t].pc == Enter && s.running
    ensures ValidRun(s, Uninterrupted(s, t, false))
    ensures Final(s, Uninterrupted(s, t, false)) == AfterSubmit(s, t, false)
  {
    RefusedRun(WhenTracked(s, t), t);
    ReachTracked(s, t, [Refuse(t), Advance(t), Advance(t)]);
  }

  lemma SubmitNotRunning(s: State, t: nat)
    requires t in s.threads && s.threads[t].pc == Enter && !s.running
    ensures ValidRun(s, [Advance(t)]) && Final(s, [Advance(t)]) == Goto(s, t, Leaving)
  {
    assert Step(s, Advance(t)) == Goto(s, t, Leaving);
    RunCons(s, Advance(t), []);
    assert [Advance(t)] + [] == [Advance(t)];
  }

  lemma UninterruptedRun(s: State, t: nat, accepted: bool)
    requires t in s.threads && s.threads[t].pc == Enter
    ensures var es := Uninterrupted(s, t, accepted);
            && ValidRun(s, es)
            && var r := Final(s, es);
               && Resumed(s, r, accepted)
               && r.threads == s.threads[t := Thread(s.threads[t].nested, Leaving)]
               && r.pendingIo == s.pendingIo + Bit(s.running && accepted)
               && r.sends == s.sends && r.arrivals == s.arrivals
  {
    if !s.running {
      SubmitNotRunning(s, t);
    } else if accepted {
      SubmitTaken(s, t);
    } else {
      SubmitRefused(s, t);
    }
  }

  function WhenTracked(s: State, t: nat): State
    requires t in s.threads
  {
    Goto(s, t, Tracked(s.counter)).(counter := s.counter + 1, pendingIo := s.pendingIo + 1)
  }

  lemma ReachTracked(s: State, t: nat, rest: seq<Event>)
    requires t in s.threads && s.threads[t].pc == Enter && s.running
    ensures var es := [Advance(t), Advance(t), Advance(t)] + rest;
            ValidRun(WhenTracked(s, t), rest) ==>
              ValidRun(s, es) && Final(s, es) == Final(WhenTracked(s, t), rest)
  {
    if ValidRun(WhenTracked(s, t), rest) {
      var s1 := Step(s, Advance(t));
      var s2 := Step(s1, Advance(t));
      assert Step(s2, Advance(t)) == WhenTracked(s, t);
      RunCons(s2, Advance(t), rest);
      RunCons(s1, Advance(t), [Advance(t)] + rest);
      RunCons(s, Advance(t), [Advance(t)] + ([Advance(t)] + rest));
      assert [Advance(t)] + ([Advance(t)] + ([Advance(t)] + rest)) == [Advance(t), Advance(t), Advance(t)] + rest;
    }
  }

  lemma RefusedRun(s: State, t: nat)
    requires t in s.threads && s.threads[t].pc.Tracked? && s.running && s.pendingIo > 0
    ensures var es := [Refuse(t), Advance(t), Advance(t)];
            && ValidRun(s, es)
            && Final(s, es) == Goto(s, t, Leaving).(pendingIo := s.pendingIo - 1, retryFlag := true,
                                                    retryTasks := s.retryTasks + Bit(!s.retryFlag),
                                                    merged := s.merged + Bit(s.retryFlag))
  {
    var s1 := Step(s, Refuse(t));
    var s2 := Step(s1, Advance(t));
    RunCons(s2, Advance(t), []);
    RunCons(s1, Advance(t), [Advance(t)]);
    RunCons(s, Refuse(t), [Advance(t), Advance(t)]);
  }

  lemma RunCons(s: State, e: Event, rest: seq<Event>)
    requires Enabled(s, e) && ValidRun(Step(s, e), rest)
    ensures ValidRun(s, [e] + rest)
    ensures Final(s, [e] + rest) == Final(Step(s, e), rest)
  {
    assert ([e] + rest)[1..] == rest;
  }

  lemma {:induction false} RunConcat(s: State, a: seq<Event>, b: seq<Event>)
    requires ValidRun(s, a) && ValidRun(Final(s, a), b)
    ensures ValidRun(s, a + b) && Final(s, a + b) == Final(Final(s, a), b)
    decreases |a|
  {
    if a == [] {
      assert a + b == b;
    } else {
      assert (a + b)[1..] == a[1..] + b;
      RunConcat(Step(s, a[0]), a[1..], b);
    }
  }

  /** SubmitReceive, and the end of what called it. */
  function ToTheEnd(s: State, t: nat, accepted: bool): seq<Event> {
    Uninterrupted(s, t, accepted) + [Advance(t)]
  }

  lemma EndRun(s: State, t: nat, accepted: bool)
    requires t in s.threads && s.threads[t].pc == Enter && (s.threads[t].nested ==> s.pendingIo > 0)
    ensures ValidRun(s, ToTheEnd(s, t, accepted))
    ensures var r := Final(s, ToTheEnd(s, t, accepted));
            && Resumed(s, r, accepted) && r.threads == s.threads - {t} && r.arrivals == s.arrivals
            && r.pendingIo == s.pendingIo + Bit(s.running && accepted) - Bit(s.threads[t].nested)
  {
    UninterruptedRun(s, t, accepted);
    var u := Final(s, Uninterrupted(s, t, accepted));
    RunCons(u, Advance(t), []);
    assert [Advance(t)] + [] == [Advance(t)];
    RunConcat(s, Uninterrupted(s, t, accepted), [Advance(t)]);
    assert u.threads - {t} == s.threads - {t};
  }

  /** A retry task without interruption clears the flag, carries the chain on and is gone. */
  lemma RetryRound(s: State, t: nat, accepted: bool)
    requires t in s.threads && s.threads[t] == Thread(false, RetryBegin)
    ensures var cleared := Goto(s, t, Enter).(retryFlag := false);
            var es := [Advance(t)] + ToTheEnd(cleared, t, accepted);
            && ValidRun(s, es)
            && var r := Final(s, es);
               && Resumed(s.(retryFlag := false), r, accepted) && r.threads == s.threads - {t}
               && r.pendingIo == s.pendingIo + Bit(s.running && accepted)
  {
    var s' := Step(s, Advance(t));
    EndRun(s', t, accepted);
    RunCons(s, Advance(t), ToTheEnd(s', t, accepted));
    assert s'.threads - {t} == s.threads - {t};
  }

  /** One completed receive without interruption: its packet goes to the orderer, the next receive takes its place,
      and the callback is gone and no longer counted. */
  lemma ReceiveRound(s: State, q: nat, t: nat, valid: bool, packet: Packet, arrivedAt: nat, checkedAt: nat,
                     accepted: bool)
    requires q in s.posted && t !in s.threads && s.pendingIo > 0
    ensures var told := Deliver(t, valid, packet, arrivedAt, checkedAt);
            var es := [Completion(q, t)] + ([told] + ToTheEnd(Step(Step(s, Completion(q, t)), told), t, accepted));
            && ValidRun(s, es)
            && var r := Final(s, es);
               && Resumed(s.(posted := s.posted - {q}), r, accepted) && r.threads == s.threads
               && r.pendingIo == s.pendingIo - 1 + Bit(s.running && accepted)
               && r.arrivals == s.arrivals
                                + if s.running && valid then [Arrival(q, packet, arrivedAt, checkedAt)] else []
  {
    var told := Deliver(t, valid, packet, arrivedAt, checkedAt);
    var s1 := Step(s, Completion(q, t));
    var s2 := Step(s1, told);
    EndRun(s2, t, accepted);
    RunCons(s1, told, ToTheEnd(s2, t, accepted));
    RunCons(s, Completion(q, t), [told] + ToTheEnd(s2, t, accepted));
    assert s2.threads - {t} == s.threads;
  }

  function SendAnswer(t: nat, accepted: bool): seq<Event> {
    if accepted then [AcceptSend(t)] else [RefuseSend(t), Advance(t)]
  }

  /** The steps thread t makes when Send runs without interruption. */
  function SendSteps(s: State, t: nat, accepted: bool): seq<Event> {
    if s.running then [Advance(t), Advance(t)] + SendAnswer(t, accepted) else [Advance(t)]
  }

  function WhenSendTracked(s: State, t: nat): State
    requires t in s.threads
  {
    Goto(s, t, SendTracked).(pendingIo := s.pendingIo + 1)
  }

  lemma ReachSendTracked(s: State, t: nat, rest: seq<Event>)
    requires t in s.threads && s.threads[t].pc == SendEnter && s.running && ValidRun(WhenSendTracked(s, t), rest)
    ensures var es := [Advance(t), Advance(t)] + rest;
            ValidRun(s, es) && Final(s, es) == Final(WhenSendTracked(s, t), rest)
  {
    var s1 := Step(s, Advance(t));
    assert Step(s1, Advance(t)) == WhenSendTracked(s, t);
    RunCons(s1, Advance(t), rest);
    RunCons(s, Advance(t), [Advance(t)] + rest);
    assert [Advance(t)] + ([Advance(t)] + rest) == [Advance(t), Advance(t)] + rest;
  }

  lemma SendTaken(s: State, t: nat)
    requires t in s.threads && s.threads[t].pc == SendTracked
    ensures ValidRun(s, [AcceptSend(t)])
    ensures Final(s, [AcceptSend(t)]) == Goto(s, t, Leaving).(sends := s.sends + 1)
  {
    RunCons(s, AcceptSend(t), []);
    assert [AcceptSend(t)] + [] == [AcceptSend(t)];
  }

  lemma SendReturned(s: State, t: nat)
    requires t in s.threads && s.threads[t].pc == SendTracked && s.pendingIo > 0
    ensures ValidRun(s, [RefuseSend(t), Advance(t)])
    ensures Final(s, [RefuseSend(t), Advance(t)]) == Goto(s, t, Leaving).(pendingIo := s.pendingIo - 1)
  {
    var s1 := Step(s, RefuseSend(t));
    assert Step(s1, Advance(t)) == Goto(s, t, Leaving).(pendingIo := s.pendingIo - 1);
    RunCons(s1, Advance(t), []);
    RunCons(s, RefuseSend(t), [Advance(t)]);
  }

  /** What Send comes to. */
  function AfterSend(s: State, t: nat, accepted: bool): State
    requires t in s.threads
  {
    if s.running && accepted then Goto(s, t, Leaving).(pendingIo := s.pendingIo + 1, sends := s.sends + 1)
    else Goto(s, t, Leaving)
  }

  lemma SendNotRunning(s: State, t: nat)
    requires t in s.threads && s.threads[t].pc == SendEnter && !s.running
    ensures ValidRun(s, [Advance(t)]) && Final(s, [Advance(t)]) == Goto(s, t, Leaving)
  {
    assert Step(s, Advance(t)) == Goto(s, t, Leaving);
    RunCons(s, Advance(t), []);
    assert [Advance(t)] + [] == [Advance(t)];
  }

  lemma SendAccepted(s: State, t: nat)
    requires t in s.threads && s.threads[t].pc == SendEnter && s.running
    ensures ValidRun(s, SendSteps(s, t, true)) && Final(s, SendSteps(s, t, true)) == AfterSend(s, t, true)
  {
    SendTaken(WhenSendTracked(s, t), t);
    ReachSendTracked(s, t, SendAnswer(t, true));
  }

  lemma SendNotAccepted(s: State, t: nat)
    requires t in s.threads && s.threads[t].pc == SendEnter && s.running
    ensures ValidRun(s, SendSteps(s, t, false)) && Final(s, SendSteps(s, t, false)) == AfterSend(s, t, false)
  {
    SendReturned(WhenSendTracked(s, t), t);
    ReachSendTracked(s, t, SendAnswer(t, false));
  }

  lemma SendRun(s: State, t: nat, accepted: bool)
    requires t in s.threads && s.threads[t].pc == SendEnter
    ensures ValidRun(s, SendSteps(s, t, accepted))
    ensures Final(s, SendSteps(s, t, accepted)) == AfterSend(s, t, accepted)
  {
    if !s.running {
      SendNotRunning(s, t);
    } else if accepted {
      SendAccepted(s, t);
    } else {
      SendNotAccepted(s, t);
    }
  }

  /** The fields of UdpServerImpl that receiving and sending use; `posted` and `sends` stand for the
      kernel's side. */
  class UdpServer {
    var isRunning: bool
    var receiveSeqCounter: nat
    var pendingIo: nat
    var receiveRetryPending: bool
    var retryTasks: nat
    var posted: set<nat>
    var sends: nat

    /** The object holds the shared part of machine state `s`. */
    ghost predicate Holds(s: State)
      reads this
    {
      && isRunning == s.running && receiveSeqCounter == s.counter && pendingIo == s.pendingIo
      && receiveRetryPending == s.retryFlag && retryTasks == s.retryTasks && posted == s.posted
      && sends == s.sends
    }

    method TrackPendingIo()
      modifies this`pendingIo
      ensures pendingIo == old(pendingIo) + 1
    {
      pendingIo := pendingIo + 1;
    }

    method CompletePendingIo()
      modifies this`pendingIo
      ensures pendingIo == if old(pendingIo) == 0 then 0 else old(pendingIo) - 1
    {
      if pendingIo == 0 {
        return;
      }
      pendingIo := pendingIo - 1;
    }

    /** Run without interruption, SubmitReceive does what thread t of the machine does. `accepted`
        says whether the kernel takes the receive. */
    method SubmitReceive(accepted: bool, ghost s: State, ghost t: nat)
      requires Holds(s) && t in s.threads && s.threads[t].pc == Enter
      modifies this
      ensures ValidRun(s, Uninterrupted(s, t, accepted))
      ensures Holds(Final(s, Uninterrupted(s, t, accepted)))
    {
      UninterruptedRun(s, t, accepted);
      if !isRunning {
        return;
      }
      var q := receiveSeqCounter;
      receiveSeqCounter := receiveSeqCounter + 1;
      TrackPendingIo();
      if accepted {
        posted := posted + {q};
      } else {
        CompletePendingIo();
        if !isRunning {
          return;
        }
        if !receiveRetryPending {
          receiveRetryPending := true;
          retryTasks := retryTasks + 1;
        }
      }
    }

    /** The same for Send. `valid`: data, host and address are good. */
    method Send(valid: bool, accepted: bool, ghost s: State, ghost t: nat) returns (ok: bool)
      requires Holds(s) && t in s.threads && s.threads[t].pc == SendEnter
      modifies this
      ensures ok == (valid && old(isRunning) && accepted)
      ensures !valid ==> Holds(s)
      ensures valid ==> ValidRun(s, SendSteps(s, t, accepted)) && Holds(Final(s, SendSteps(s, t, accepted)))
    {
      SendRun(s, t, accepted);
      if !valid || !isRunning {
        return false;
      }
      TrackPendingIo();
      if !accepted {
        CompletePendingIo();
        return false;
      }
      sends := sends + 1;
      return true;
    }
  }
}
