/** The write pipeline of the io_uring TCP client, and of its sessions: one write in flight.

    Any number of threads send; completions come back on any thread and post the next write. The
    machine below takes one critical section or one system call per step, and describes one
    lifetime from Init up to the first failed, refused or zero-byte write, or Close. */
module UringStream {
  import opened Common

  type Bytes = seq<bv8>

  // ---------------------------------------------------------------- the critical sections

  datatype Pipe = Pipe(queue: seq<Bytes>, writeInFlight: bool)

  /** Send: queue the data; whoever finds no write in flight must post one. */
  function Push(p: Pipe, data: Bytes): (Pipe, bool) {
    (Pipe(p.queue + [data], true), !p.writeInFlight)
  }

  /** SubmitNextWrite: the buffer to post, if any. */
  function Next(p: Pipe): (Pipe, Option<Bytes>) {
    if p.queue == [] then (p.(writeInFlight := false), None) else (p, Some(p.queue[0]))
  }

  /** HandleWriteComplete with a positive result: whether to post the next write. */
  function Complete(p: Pipe, result: nat): (Pipe, bool)
    requires result > 0
  {
    if p.queue == [] then (p.(writeInFlight := false), false)
    else if result < |p.queue[0]| then (p.(queue := [p.queue[0][result..]] + p.queue[1..]), true)
    else (Pipe(p.queue[1..], p.queue[1..] != []), p.queue[1..] != [])
  }

  // ---------------------------------------------------------------- the machine

  datatype Thread =
    | Idle
    | MustSubmit                 // owes a call of SubmitNextWrite
    | Picked(data: Bytes)        // about to post this buffer
    | Done(result: nat)          // runs a completion callback

  /** `kernel`: writes posted and not completed; `done`: bytes of the front that are on the wire
      but whose completion has not been handled. */
  datatype State = State(
    pipe: Pipe, threads: seq<Thread>, kernel: seq<Bytes>, wire: Bytes, accepted: Bytes, done: nat, closed: bool)

  datatype Event =
    | Send(t: nat, data: Bytes)
    | Pick(t: nat)
    | Post(t: nat)
    | Written(i: nat, t: nat, result: nat)   // the kernel completes write i; t runs its callback
    | Handle(t: nat)
    | Close                                  // or any failed, refused or zero-byte write

  predicate Enabled(s: State, e: Event) {
    && !s.closed
    && match e
       case Send(t, data) => t < |s.threads| && s.threads[t].Idle? && data != []
       case Pick(t) => t < |s.threads| && s.threads[t].MustSubmit?
       case Post(t) => t < |s.threads| && s.threads[t].Picked?
       case Written(i, t, result) =>
         i < |s.kernel| && t < |s.threads| && s.threads[t].Idle? && 1 <= result <= |s.kernel[i]|
       case Handle(t) => t < |s.threads| && s.threads[t].Done? && s.threads[t].result > 0
       case Close => true
  }

  function Set(s: State, t: nat, th: Thread): State
    requires t < |s.threads|
  {
    s.(threads := s.threads[t := th])
  }

  function Step(s: State, e: Event): State
    requires Enabled(s, e)
  {
    match e
    case Send(t, data) =>
      var (pipe, mustSubmit) := Push(s.pipe, data);
      Set(s, t, if mustSubmit then MustSubmit else Idle).(pipe := pipe, accepted := s.accepted + data)
    case Pick(t) =>
      var (pipe, next) := Next(s.pipe);
      Set(s, t, if next.Some? then Picked(next.value) else Idle).(pipe := pipe)
    case Post(t) => Set(s, t, Idle).(kernel := s.kernel + [s.threads[t].data])
    case Written(i, t, result) =>
      Set(s, t, Done(result)).(kernel := s.kernel[..i] + s.kernel[i + 1..],
                               wire := s.wire + s.kernel[i][..result], done := s.done + result)
    case Handle(t) =>
      var (pipe, mustSubmit) := Complete(s.pipe, s.threads[t].result);
      Set(s, t, if mustSubmit then MustSubmit else Idle).(pipe := pipe, done := 0)
    case Close => s.(closed := true)
  }

  predicate ValidRun(s: State, es: seq<Event>)
    decreases |es|
  {
    es == [] || (Enabled(s, es[0]) && ValidRun(Step(s, es[0]), es[1..]))
  }

  function Final(s: State, es: seq<Event>): State
    requires ValidRun(s, es)
    decreases |es|
  {
    if es == [] then s else Final(Step(s, es[0]), es[1..])
  }

  predicate Initial(s: State) {
    && s.pipe == Pipe([], false) && s.kernel == [] && s.wire == [] && s.accepted == [] && s.done == 0
    && forall t :: 0 <= t < |s.threads| ==> s.threads[t] == Idle
  }

  // ---------------------------------------------------------------- what every step keeps

  function Flat(queue: seq<Bytes>): Bytes {
    if queue == [] then [] else queue[0] + Flat(queue[1..])
  }

  lemma {:induction false} FlatPush(queue: seq<Bytes>, data: Bytes)
    ensures Flat(queue + [data]) == Flat(queue) + data
  {
    if queue == [] {
      assert queue + [data] == [data] && [data][1..] == [];
    } else {
      FlatPush(queue[1..], data);
      assert (queue + [data])[1..] == queue[1..] + [data];
    }
  }

  /** Threads whose turn it is to keep the pipeline going. */
  ghost function Busy(threads: seq<Thread>): set<nat> {
    set t | 0 <= t < |threads| && !threads[t].Idle?
  }

  lemma BusySet(threads: seq<Thread>, t: nat, th: Thread)
    requires t < |threads|
    ensures |Busy(threads[t := th])| + (if threads[t].Idle? then 0 else 1)
            == |Busy(threads)| + (if th.Idle? then 0 else 1)
  {
    var rest := Busy(threads) - {t};
    assert Busy(threads) == if threads[t].Idle? then rest else rest + {t};
    assert Busy(threads[t := th]) == if th.Idle? then rest else rest + {t};
  }

  /** The flag is set exactly while there is something queued, and then exactly one thread or one
      posted write carries the pipeline on; what it carries is the front of the queue. */
  ghost predicate OneWriter(s: State) {
    && (s.pipe.writeInFlight <==> s.pipe.queue != [])
    && |Busy(s.threads)| + |s.kernel| == (if s.pipe.writeInFlight then 1 else 0)
    && (forall i :: 0 <= i < |s.pipe.queue| ==> s.pipe.queue[i] != [])
    && (forall i :: 0 <= i < |s.kernel| ==> s.pipe.queue != [] && s.kernel[i] == s.pipe.queue[0])
    && (forall t :: 0 <= t < |s.threads| && s.threads[t].Picked? ==>
          s.pipe.queue != [] && s.threads[t].data == s.pipe.queue[0])
    && (forall t :: 0 <= t < |s.threads| && s.threads[t].Done? ==>
          s.pipe.queue != [] && 1 <= s.threads[t].result <= |s.pipe.queue[0]| && s.done == s.threads[t].result)
    && (s.done > 0 ==> exists t :: 0 <= t < |s.threads| && s.threads[t].Done?)
    && s.done <= |Flat(s.pipe.queue)|
  }

  ghost predicate StreamHolds(s: State)
    requires s.done <= |Flat(s.pipe.queue)|
  {
    s.wire + Flat(s.pipe.queue)[s.done..] == s.accepted
  }

  ghost predicate Inv(s: State) {
    OneWriter(s) && StreamHolds(s)
  }

  lemma OnlyBusy(threads: seq<Thread>, t: nat)
    requires t < |threads| && !threads[t].Idle? && |Busy(threads)| <= 1
    ensures forall u :: 0 <= u < |threads| && u != t ==> threads[u].Idle?
  {
    var rest := Busy(threads) - {t};
    assert Busy(threads) == rest + {t};
    assert rest == {};
    forall u | 0 <= u < |threads| && u != t ensures threads[u].Idle? {
      assert u !in Busy(threads);
    }
  }

  lemma AllIdle(threads: seq<Thread>)
    requires |Busy(threads)| == 0
    ensures forall u :: 0 <= u < |threads| ==> threads[u].Idle?
  {
    forall u | 0 <= u < |threads| ensures threads[u].Idle? {
      assert u !in Busy(threads);
    }
  }

  lemma SendStream(s: State, t: nat, data: Bytes)
    requires s.done <= |Flat(s.pipe.queue)| && StreamHolds(s) && Enabled(s, Send(t, data))
    ensures var s' := Step(s, Send(t, data));
            s'.done <= |Flat(s'.pipe.queue)| && StreamHolds(s')
  {
    FlatPush(s.pipe.queue, data);
    assert (Flat(s.pipe.queue) + data)[s.done..] == Flat(s.pipe.queue)[s.done..] + data;
  }

  lemma SendOneWriter(s: State, t: nat, data: Bytes)
    requires OneWriter(s) && Enabled(s, Send(t, data))
    requires s.done <= |Flat(Step(s, Send(t, data)).pipe.queue)|
    ensures OneWriter(Step(s, Send(t, data)))
  {
    var s' := Step(s, Send(t, data));
    BusySet(s.threads, t, s'.threads[t]);
    if s.done > 0 {
      var d :| 0 <= d < |s.threads| && s.threads[d].Done?;
      assert s'.threads[d].Done?;
    }
  }

  lemma PickStep(s: State, t: nat)
    requires Inv(s) && Enabled(s, Pick(t))
    ensures Inv(Step(s, Pick(t)))
  {
    OnlyBusy(s.threads, t);
    assert t in Busy(s.threads);
    BusySet(s.threads, t, Picked(s.pipe.queue[0]));
  }

  lemma PostStep(s: State, t: nat)
    requires Inv(s) && Enabled(s, Post(t))
    ensures Inv(Step(s, Post(t)))
  {
    OnlyBusy(s.threads, t);
    assert t in Busy(s.threads);
    BusySet(s.threads, t, Idle);
  }

  lemma WrittenStep(s: State, i: nat, t: nat, result: nat)
    requires Inv(s) && Enabled(s, Written(i, t, result))
    ensures Inv(Step(s, Written(i, t, result)))
  {
    var s' := Step(s, Written(i, t, result));
    AllIdle(s.threads);
    BusySet(s.threads, t, Done(result));
    assert s'.threads[t].Done?;
    var flat := Flat(s.pipe.queue);
    assert flat[..result] == s.kernel[i][..result];
    assert flat[..result] + flat[result..] == flat;
  }

  lemma HandleStep(s: State, t: nat)
    requires Inv(s) && Enabled(s, Handle(t))
    ensures Inv(Step(s, Handle(t)))
  {
    var s', result := Step(s, Handle(t)), s.threads[t].result;
    OnlyBusy(s.threads, t);
    assert t in Busy(s.threads);
    BusySet(s.threads, t, s'.threads[t]);
    var front, rest := s.pipe.queue[0], s.pipe.queue[1..];
    assert Flat(s.pipe.queue)[result..] == front[result..] + Flat(rest);
    if result < |front| {
      assert s'.pipe.queue[1..] == rest;
    } else {
      assert front[result..] == [];
    }
  }

  lemma {:induction false} InvRun(s: State, es: seq<Event>)
    requires Inv(s) && ValidRun(s, es)
    ensures Inv(Final(s, es))
    decreases |es|
  {
    if es != [] {
      match es[0] {
        case Send(t, data) =>
          SendStream(s, t, data);
          SendOneWriter(s, t, data);
        case Pick(t) => PickStep(s, t);
        case Post(t) => PostStep(s, t);
        case Written(i, t, result) => WrittenStep(s, i, t, result);
        case Handle(t) => HandleStep(s, t);
        case Close =>
      }
      InvRun(Step(s, es[0]), es[1..]);
    }
  }

  // ---------------------------------------------------------------- whole runs

  /** What the run has been given to send. */
  function Given(es: seq<Event>): Bytes {
    if es == [] then [] else (if es[0].Send? then es[0].data else []) + Given(es[1..])
  }

  lemma {:induction false} AcceptedRun(s: State, es: seq<Event>)
    requires ValidRun(s, es)
    ensures Final(s, es).accepted == s.accepted + Given(es)
    decreases |es|
  {
    if es != [] {
      AcceptedRun(Step(s, es[0]), es[1..]);
    }
  }

  /** For any senders and any splitting by the kernel: at most one write is in flight, the flag
      holds exactly while the queue is non-empty, and the bytes written, followed by the queue
      without what is already written of its front, are everything given to Send. */
  lemma StreamConserved(s: State, es: seq<Event>)
    requires Initial(s) && ValidRun(s, es)
    ensures var r := Final(s, es);
            && |r.kernel| <= 1
            && (r.pipe.writeInFlight <==> r.pipe.queue != [])
            && r.done <= |Flat(r.pipe.queue)|
            && r.wire + Flat(r.pipe.queue)[r.done..] == Given(es)
  {
    assert Busy(s.threads) == {};
    InvRun(s, es);
    AcceptedRun(s, es);
  }

  ghost predicate AtRest(s: State) {
    s.kernel == [] && forall t :: 0 <= t < |s.threads| ==> s.threads[t] == Idle
  }

  /** At rest everything given to Send is on the wire, in order: queued data is never stranded. */
  lemma NothingStranded(s: State, es: seq<Event>)
    requires Initial(s) && ValidRun(s, es) && AtRest(Final(s, es))
    ensures Final(s, es).wire == Given(es)
  {
    assert Busy(s.threads) == {};
    InvRun(s, es);
    AcceptedRun(s, es);
    var r := Final(s, es);
    assert Busy(r.threads) == {};
    assert r.pipe.queue == [] && r.done == 0;
    assert r.wire + Flat(r.pipe.queue)[r.done..] == r.wire;
    assert [] + Given(es) == Given(es);
  }

  // And rest can always be reached.

  /** How far the pipeline is from its next completion being handled. */
  ghost function Rank(s: State): nat {
    if exists t :: 0 <= t < |s.threads| && s.threads[t].MustSubmit? then 4
    else if exists t :: 0 <= t < |s.threads| && s.threads[t].Picked? then 3
    else if s.kernel != [] then 2
    else if exists t :: 0 <= t < |s.threads| && s.threads[t].Done? then 1
    else 0
  }

  /** The one event that carries the pipeline on. */
  ghost predicate CarriesOn(s: State, e: Event) {
    && Enabled(s, e) && !e.Send? && !e.Close?
    && 4 * |Flat(Step(s, e).pipe.queue)| + Rank(Step(s, e)) < 4 * |Flat(s.pipe.queue)| + Rank(s)
  }

  lemma Cons(s: State, e: Event, rest: seq<Event>)
    requires Enabled(s, e) && ValidRun(Step(s, e), rest)
    ensures ValidRun(s, [e] + rest) && Final(s, [e] + rest) == Final(Step(s, e), rest)
    ensures Given([e] + rest) == (if e.Send? then e.data else []) + Given(rest)
  {
    assert ([e] + rest)[1..] == rest;
  }

  lemma PickCarries(s: State, t: nat)
    requires Inv(s) && Enabled(s, Pick(t))
    ensures CarriesOn(s, Pick(t))
  {
    OnlyBusy(s.threads, t);
  }

  lemma PostCarries(s: State, t: nat)
    requires Inv(s) && Enabled(s, Post(t))
    ensures CarriesOn(s, Post(t))
  {
    OnlyBusy(s.threads, t);
  }

  lemma WrittenCarries(s: State, result: nat)
    requires Inv(s) && Enabled(s, Written(0, 0, result))
    ensures CarriesOn(s, Written(0, 0, result))
  {
    AllIdle(s.threads);
  }

  lemma HandleCarries(s: State, t: nat)
    requires Inv(s) && Enabled(s, Handle(t))
    ensures CarriesOn(s, Handle(t))
  {
    var s' := Step(s, Handle(t));
    var front, rest := s.pipe.queue[0], s.pipe.queue[1..];
    if s.threads[t].result < |front| {
      assert s'.pipe.queue[1..] == rest;
    }
  }

  /** Unless it is at rest, something can carry it on. */
  lemma NeverStuck(s: State) returns (e: Event)
    requires Inv(s) && !s.closed && |s.threads| > 0 && !AtRest(s)
    ensures CarriesOn(s, e) && Inv(Step(s, e))
  {
    if s.kernel != [] {
      assert |Busy(s.threads)| == 0;
      AllIdle(s.threads);
      e := Written(0, 0, |s.kernel[0]|);
      WrittenCarries(s, |s.kernel[0]|);
      WrittenStep(s, 0, 0, |s.kernel[0]|);
    } else {
      var t :| 0 <= t < |s.threads| && s.threads[t] != Idle;
      match s.threads[t]
      case MustSubmit =>
        e := Pick(t);
        PickCarries(s, t);
        PickStep(s, t);
      case Picked(_) =>
        e := Post(t);
        PostCarries(s, t);
        PostStep(s, t);
      case Done(_) =>
        e := Handle(t);
        HandleCarries(s, t);
        HandleStep(s, t);
    }
  }

  lemma {:induction false} Drains(s: State) returns (es: seq<Event>)
    requires Inv(s) && !s.closed && |s.threads| > 0
    ensures ValidRun(s, es) && Given(es) == [] && AtRest(Final(s, es))
    decreases 4 * |Flat(s.pipe.queue)| + Rank(s)
  {
    es := [];
    if !AtRest(s) {
      var e := NeverStuck(s);
      var rest := Drains(Step(s, e));
      Cons(s, e, rest);
      es := [e] + rest;
    }
  }

  lemma {:induction false} RunConcat(s: State, a: seq<Event>, b: seq<Event>)
    requires ValidRun(s, a) && ValidRun(Final(s, a), b)
    ensures ValidRun(s, a + b) && Final(s, a + b) == Final(Final(s, a), b)
    ensures Given(a + b) == Given(a) + Given(b)
    decreases |a|
  {
    if a == [] {
      assert a + b == b;
    } else {
      assert (a + b)[1..] == a[1..] + b;
      RunConcat(Step(s, a[0]), a[1..], b);
      var first := if a[0].Send? then a[0].data else [];
      assert first + (Given(a[1..]) + Given(b)) == first + Given(a[1..]) + Given(b);
    }
  }

  /** However it was interrupted, an open pipeline can go on, without any further Send, until everything given to
      Send is on the wire. */
  lemma CanAlwaysFinish(s: State, es: seq<Event>) returns (more: seq<Event>)
    requires Initial(s) && ValidRun(s, es) && !Final(s, es).closed && |Final(s, es).threads| > 0
    ensures ValidRun(Final(s, es), more) && Given(more) == []
    ensures Final(Final(s, es), more).wire == Given(es)
  {
    assert Busy(s.threads) == {};
    InvRun(s, es);
    more := Drains(Final(s, es));
    RunConcat(s, es, more);
    NothingStranded(s, es + more);
  }

  /** Close empties the queue; whoever comes after it posts nothing and leaves the flag off. */
  lemma EmptyPipe(flag: bool, result: nat)
    requires result > 0
    ensures Next(Pipe([], flag)) == (Pipe([], false), None)
    ensures Complete(Pipe([], flag), result) == (Pipe([], false), false)
  {
  }

  /** Nothing happens in a lifetime after its end. */
  lemma {:induction false} CloseIsLast(s: State, es: seq<Event>, i: nat)
    requires ValidRun(s, es) && i < |es| && es[i].Close?
    ensures i == |es| - 1
    decreases |es|
  {
    if i > 0 {
      CloseIsLast(Step(s, es[0]), es[1..], i - 1);
    }
  }

  // ---------------------------------------------------------------- the object

  /** The fields the pipeline uses, with the critical sections of its methods. */
  class IoUringClient {
    var sendQueue: seq<Bytes>
    var writeInFlight: bool
    var isRunning: bool
    var validSocket: bool

    ghost function State(): Pipe
      reads this
    {
      Pipe(sendQueue, writeInFlight)
    }

    /** After Init. */
    constructor ()
      ensures State() == Pipe([], false) && isRunning && validSocket
    {
      sendQueue, writeInFlight, isRunning, validSocket := [], false, true, true;
    }

    /** `shouldSubmit`: the caller must go on to SubmitNextWrite. */
    method Send(data: Bytes) returns (accepted: bool, shouldSubmit: bool)
      modifies this`sendQueue, this`writeInFlight
      ensures accepted == (data != [] && isRunning && validSocket)
      ensures if accepted then (State(), shouldSubmit) == Push(old(State()), data)
              else State() == old(State()) && !shouldSubmit
    {
      if |data| == 0 || !isRunning || !validSocket {
        return false, false;
      }
      sendQueue := sendQueue + [data];
      shouldSubmit := false;
      if !writeInFlight {
        writeInFlight := true;
        shouldSubmit := true;
      }
      return true, shouldSubmit;
    }

    /** The buffer to post; without one, `ok` says whether that is because nothing is queued. */
    method SubmitNextWrite() returns (next: Option<Bytes>, ok: bool)
      modifies this`writeInFlight
      ensures isRunning && validSocket ==> ok && (State(), next) == Next(old(State()))
      ensures !isRunning || !validSocket ==>
                next == None && State() == Pipe(old(sendQueue), false) && ok == (sendQueue == [])
    {
      if sendQueue == [] {
        writeInFlight := false;
        return None, true;
      }
      if !isRunning || !validSocket {
        writeInFlight := false;
        return None, false;
      }
      return Some(sendQueue[0]), true;
    }

    /** A negative or zero result ends the pipeline: `failed`, on which the caller closes. */
    method HandleWriteComplete(result: int) returns (shouldSubmitNext: bool, failed: bool)
      modifies this`sendQueue, this`writeInFlight
      ensures result > 0 ==> !failed && (State(), shouldSubmitNext) == Complete(old(State()), result)
      ensures result == 0 ==> !shouldSubmitNext && failed == (sendQueue != []) && State() == Pipe(old(sendQueue), false)
      ensures result < 0 ==> !shouldSubmitNext && failed && State() == old(State())
    {
      if result < 0 {
        return false, true;
      }
      if sendQueue == [] {
        writeInFlight := false;
        return false, false;
      }
      var buffer := sendQueue[0];
      if result == 0 {
        writeInFlight := false;
        return false, true;
      } else if result < |buffer| {
        sendQueue := [buffer[result..]] + sendQueue[1..];
        return true, false;
      } else {
        sendQueue := sendQueue[1..];
        writeInFlight := sendQueue != [];
        return sendQueue != [], false;
      }
    }

    method Close()
      modifies this
      ensures !isRunning
      ensures if old(isRunning) then State() == Pipe([], false) && !validSocket
              else State() == old(State()) && validSocket == old(validSocket)
    {
      var wasRunning := isRunning;
      isRunning := false;
      if !wasRunning {
        return;
      }
      sendQueue := [];
      writeInFlight := false;
      validSocket := false;
    }
  }
}
