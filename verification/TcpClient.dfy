/** The Windows TCP client and its generation counter.

    Every I/O request remembers the generation of the socket it was made for; whatever replaces or
    closes the socket moves to the next generation, and completions of older ones are ignored. API
    calls, queued tasks and completion callbacks are the steps; the kernel picks their results. A
    receive task is two steps, since the listener it calls may itself call the client before the
    next read is posted. */
module TcpClient {
  import opened Common

  datatype Kind = ConnectOp | ReadOp | WriteOp

  datatype Op = Op(kind: Kind, gen: nat)

  /** What the listener is told, and (`Connected`, `Reset`) the silent changes of connection. */
  datatype Note = Connected | Received | Error | Closed | Reset

  const ABORTED: nat := 995

  /** `kernel`: requests outstanding; `callbacks`: completion callbacks under way; `queued`: tasks;
      `delivering`: the generation of the receive task that is in the listener. */
  datatype State = State(
    gen: nat, running: bool, connected: bool, validSocket: bool,
    connectPending: bool, connectSuccess: bool, lastError: nat,
    kernel: multiset<Op>, callbacks: multiset<Op>, queued: multiset<Op>, delivering: Option<nat>,
    pendingIo: nat, log: seq<Note>)

  const INITIAL := State(0, false, false, false, false, false, 0, multiset{}, multiset{}, multiset{}, None, 0, [])

  datatype Event =
    | Init(created: bool)                          // `created`: a new socket could be set up
    | Connect(accepted: bool, created: bool)
    | ConnectTimeout(created: bool)
    | Send(accepted: bool)
    | Close
    | Completes(op: Op)                            // the kernel is done, the callback runs
    | CallbackEnds(op: Op)
    | ConnectTask(gen: nat, error: nat, created: bool, accepted: bool, benign: bool)
    | ReceiveTask(gen: nat, bytes: nat, error: nat, expected: bool)
    | Rearm(accepted: bool, benign: bool)          // the receive task posts the next read
    | SendTask(gen: nat, error: nat)

  // ---------------------------------------------------------------- the parts of the client

  function AfterReInit(s: State, created: bool): State {
    var s' := s.(gen := s.gen + 1, validSocket := created);
    if !created then s'
    else s'.(connected := false, log := if s.connected then s.log + [Reset] else s.log)
  }

  /** The body shared by Close and HandleClose. */
  function AfterClose(s: State, isError: bool, pendingError: nat): State {
    var s' := s.(connected := false, running := false, gen := s.gen + 1, validSocket := false);
    var s'' := if !s.connectPending then s'
               else s'.(connectPending := false, connectSuccess := false, lastError := pendingError);
    if s.connected then s''.(log := s.log + (if isError then [Error, Closed] else [Closed])) else s''
  }

  function AfterHandleClose(s: State, isError: bool): State {
    AfterClose(s, isError, if isError then ABORTED else 0)
  }

  function Post(s: State, kind: Kind): State {
    s.(kernel := s.kernel + multiset{Op(kind, s.gen)}, pendingIo := s.pendingIo + 1)
  }

  function AfterSubmitRead(s: State, accepted: bool, benign: bool): State {
    if !s.running || !s.connected then s
    else if accepted then Post(s, ReadOp)
    else AfterHandleClose(s, !benign)
  }

  function AfterConnect(s: State, accepted: bool, created: bool): State {
    if !s.running || s.connected || s.connectPending then s
    else
      var s' := s.(connectPending := true, connectSuccess := false, lastError := 0);
      if accepted then Post(s', ConnectOp)
      else AfterReInit(s'.(connectPending := false, lastError := ABORTED), created)
  }

  function AfterHandleConnect(s: State, gen: nat, error: nat, created: bool, accepted: bool, benign: bool): State {
    if gen != s.gen then s
    else
      var s' := s.(connectPending := false, connectSuccess := error == 0, lastError := error, connected := error == 0);
      if error != 0 then AfterReInit(s', created)
      else AfterSubmitRead(s'.(log := s.log + [Connected]), accepted, benign)
  }

  function AfterHandleReceive(s: State, gen: nat, bytes: nat, error: nat, expected: bool): State {
    if gen != s.gen then s
    else if error != 0 then AfterHandleClose(s, !expected)
    else if bytes == 0 then AfterHandleClose(s, false)
    else s.(log := s.log + [Received], delivering := Some(gen))
  }

  function AfterHandleSend(s: State, gen: nat, error: nat): State {
    if gen != s.gen || error == 0 then s else AfterHandleClose(s, true)
  }

  /** Whether a completion callback queues its task. */
  predicate Queues(s: State, op: Op) {
    match op.kind
    case ConnectOp => op.gen == s.gen || s.running
    case ReadOp => true
    case WriteOp => s.running
  }

  // ---------------------------------------------------------------- the machine

  predicate IsTask(e: Event) {
    e.ConnectTask? || e.ReceiveTask? || e.SendTask?
  }

  function TaskOp(e: Event): Op
    requires IsTask(e)
  {
    match e
    case ConnectTask(gen, _, _, _, _) => Op(ConnectOp, gen)
    case ReceiveTask(gen, _, _, _) => Op(ReadOp, gen)
    case SendTask(gen, _) => Op(WriteOp, gen)
  }

  /** The kernel takes nothing on an invalid socket; tasks run one at a time. */
  predicate Enabled(s: State, e: Event) {
    match e
    case Init(_) => true
    case Connect(accepted, _) => accepted ==> s.validSocket
    case ConnectTimeout(_) => s.connectPending
    case Send(accepted) => accepted ==> s.validSocket
    case Close => true
    case Completes(op) => op in s.kernel
    case CallbackEnds(op) => op in s.callbacks
    case ConnectTask(gen, _, _, accepted, _) =>
      TaskOp(e) in s.queued && s.delivering == None && (accepted ==> s.validSocket)
    case ReceiveTask(gen, _, _, _) => TaskOp(e) in s.queued && s.delivering == None
    case Rearm(accepted, _) => s.delivering.Some? && (accepted ==> s.validSocket)
    case SendTask(gen, _) => TaskOp(e) in s.queued && s.delivering == None
  }

  /** What a task does to the client, once it has left the queue. */
  function TaskEffect(s: State, e: Event): State
    requires IsTask(e)
  {
    match e
    case ConnectTask(gen, error, created, accepted, benign) =>
      AfterHandleConnect(s, gen, error, created, accepted, benign)
    case ReceiveTask(gen, bytes, error, expected) => AfterHandleReceive(s, gen, bytes, error, expected)
    case SendTask(gen, error) => AfterHandleSend(s, gen, error)
  }

  /** What any other step does. */
  function OtherEffect(s: State, e: Event): State
    requires !IsTask(e) && Enabled(s, e)
  {
    match e
    case Init(created) =>
      var s' := AfterReInit(s, created);
      if created then s'.(running := true) else s'
    case Connect(accepted, created) => AfterConnect(s, accepted, created)
    case ConnectTimeout(created) => AfterReInit(s.(connectPending := false), created)
    case Send(accepted) => if s.running && s.connected && accepted then Post(s, WriteOp) else s
    case Close => if s.running then AfterClose(s, false, ABORTED) else s
    case Completes(op) =>
      s.(kernel := s.kernel - multiset{op}, callbacks := s.callbacks + multiset{op},
         queued := if Queues(s, op) then s.queued + multiset{op} else s.queued)
    case CallbackEnds(op) =>
      s.(callbacks := s.callbacks - multiset{op}, pendingIo := if s.pendingIo == 0 then 0 else s.pendingIo - 1)
    case Rearm(accepted, benign) => AfterSubmitRead(s.(delivering := None), accepted, benign)
  }

  function Step(s: State, e: Event): State
    requires Enabled(s, e)
  {
    if IsTask(e) then TaskEffect(s.(queued := s.queued - multiset{TaskOp(e)}), e) else OtherEffect(s, e)
  }

  predicate ValidRun(s: State, es: seq<Event>)
    decreases |es|
  {
    es == [] || (Enabled(s, es[0]) && ValidRun(Step(s, es[0]), es[1..]))
  }

  function Final(s: State, es: seq<Event>): State
    requires ValidRun(s, es)
    decreases |es|
  {
    if es == [] then s else Final(Step(s, es[0]), es[1..])
  }

  // ---------------------------------------------------------------- stale completions are erasable

  predicate Stale(s: State, e: Event) {
    IsTask(e) && TaskOp(e).gen != s.gen
  }

  /** The run without the tasks that are outdated when they come to run. */
  function Erase(s: State, es: seq<Event>): seq<Event>
    requires ValidRun(s, es)
    decreases |es|
  {
    if es == [] then []
    else (if Stale(s, es[0]) then [] else [es[0]]) + Erase(Step(s, es[0]), es[1..])
  }

  /** Everything but the tasks still queued: the client's fields, its I/O and the listener calls. */
  function Visible(s: State): State {
    s.(queued := multiset{})
  }

  /** `t` is `s` with some more tasks queued. */
  ghost predicate Ahead(s: State, t: State) {
    Visible(s) == Visible(t) && s.queued <= t.queued
  }

  function Queued(s: State, q: multiset<Op>): State {
    s.(queued := q)
  }

  // No part of the client looks at the queued tasks.

  lemma ReInitBlind(s: State, q: multiset<Op>, created: bool)
    ensures AfterReInit(Queued(s, q), created) == Queued(AfterReInit(s, created), q)
  {
  }

  lemma CloseBlind(s: State, q: multiset<Op>, isError: bool, pendingError: nat)
    ensures AfterClose(Queued(s, q), isError, pendingError) == Queued(AfterClose(s, isError, pendingError), q)
  {
  }

  lemma ReadBlind(s: State, q: multiset<Op>, accepted: bool, benign: bool)
    ensures AfterSubmitRead(Queued(s, q), accepted, benign) == Queued(AfterSubmitRead(s, accepted, benign), q)
  {
    CloseBlind(s, q, !benign, if !benign then ABORTED else 0);
  }

  lemma ConnectBlind(s: State, q: multiset<Op>, accepted: bool, created: bool)
    ensures AfterConnect(Queued(s, q), accepted, created) == Queued(AfterConnect(s, accepted, created), q)
  {
    ReInitBlind(s.(connectPending := false, connectSuccess := false, lastError := ABORTED), q, created);
  }

  lemma HandleConnectBlind(s: State, q: multiset<Op>, gen: nat, error: nat, created: bool, accepted: bool, benign: bool)
    ensures AfterHandleConnect(Queued(s, q), gen, error, created, accepted, benign)
            == Queued(AfterHandleConnect(s, gen, error, created, accepted, benign), q)
  {
    var s' := s.(connectPending := false, connectSuccess := error == 0, lastError := error, connected := error == 0);
    ReInitBlind(s', q, created);
    ReadBlind(s'.(log := s.log + [Connected]), q, accepted, benign);
  }

  lemma HandleReceiveBlind(s: State, q: multiset<Op>, gen: nat, bytes: nat, error: nat, expected: bool)
    ensures AfterHandleReceive(Queued(s, q), gen, bytes, error, expected)
            == Queued(AfterHandleReceive(s, gen, bytes, error, expected), q)
  {
    CloseBlind(s, q, !expected, if !expected then ABORTED else 0);
    CloseBlind(s, q, false, 0);
  }

  lemma HandleSendBlind(s: State, q: multiset<Op>, gen: nat, error: nat)
    ensures AfterHandleSend(Queued(s, q), gen, error) == Queued(AfterHandleSend(s, gen, error), q)
  {
    CloseBlind(s, q, true, ABORTED);
  }

  lemma TaskBlind(s: State, q: multiset<Op>, e: Event)
    requires IsTask(e)
    ensures TaskEffect(Queued(s, q), e) == Queued(TaskEffect(s, e), q)
  {
    match e
    case ConnectTask(gen, error, created, accepted, benign) =>
      HandleConnectBlind(s, q, gen, error, created, accepted, benign);
    case ReceiveTask(gen, bytes, error, expected) => HandleReceiveBlind(s, q, gen, bytes, error, expected);
    case SendTask(gen, error) => HandleSendBlind(s, q, gen, error);
  }

  lemma TaskStep(s: State, e: Event)
    requires IsTask(e) && Enabled(s, e)
    ensures Step(s, e) == Queued(TaskEffect(s, e), s.queued - multiset{TaskOp(e)})
    ensures Stale(s, e) ==> TaskEffect(s, e) == s
  {
    TaskBlind(s, s.queued - multiset{TaskOp(e)}, e);
  }

  lemma SameTask(s: State, t: State, e: Event)
    requires Ahead(s, t) && Enabled(s, e) && IsTask(e)
    ensures Stale(s, e) ==> Ahead(Step(s, e), t)
    ensures !Stale(s, e) ==> Enabled(t, e) && Ahead(Step(s, e), Step(t, e))
  {
    assert t == Queued(s, t.queued);
    TaskStep(s, e);
    if !Stale(s, e) {
      TaskStep(t, e);
      TaskBlind(s, t.queued, e);
    }
  }

  lemma SameStep(s: State, t: State, e: Event)
    requires Ahead(s, t) && Enabled(s, e) && !IsTask(e)
    ensures Enabled(t, e) && Ahead(OtherEffect(s, e), OtherEffect(t, e))
  {
    var q := t.queued;
    assert t == Queued(s, q);
    if e.Connect? {
      SameConnect(s, q, e.accepted, e.created);
    } else if e.Rearm? {
      SameRearm(s, q, e.accepted, e.benign);
    } else if e.Init? || e.ConnectTimeout? || e.Close? {
      SameReset(s, q, e);
    } else if e.Completes? {
      SameCompletes(s, q, e.op);
    } else {
      SameIo(s, q, e);
    }
  }

  lemma SameReset(s: State, q: multiset<Op>, e: Event)
    requires s.queued <= q && (e.Init? || e.ConnectTimeout? || e.Close?) && Enabled(s, e)
    ensures Ahead(OtherEffect(s, e), OtherEffect(Queued(s, q), e))
  {
    match e
    case Init(created) => ReInitBlind(s, q, created);
    case ConnectTimeout(created) => ReInitBlind(s.(connectPending := false), q, created);
    case Close => CloseBlind(s, q, false, ABORTED);
  }

  lemma SameIo(s: State, q: multiset<Op>, e: Event)
    requires s.queued <= q && (e.Send? || e.CallbackEnds?) && Enabled(s, e)
    ensures Ahead(OtherEffect(s, e), OtherEffect(Queued(s, q), e))
  {
  }

  lemma SameCompletes(s: State, q: multiset<Op>, op: Op)
    requires s.queued <= q && op in s.kernel
    ensures Ahead(OtherEffect(s, Completes(op)), OtherEffect(Queued(s, q), Completes(op)))
  {
    assert s.queued + multiset{op} <= q + multiset{op};
  }

  lemma SameConnect(s: State, q: multiset<Op>, accepted: bool, created: bool)
    requires s.queued <= q
    ensures Ahead(AfterConnect(s, accepted, created), AfterConnect(Queued(s, q), accepted, created))
  {
    ConnectBlind(s, q, accepted, created);
  }

  lemma SameRearm(s: State, q: multiset<Op>, accepted: bool, benign: bool)
    requires s.queued <= q
    ensures var s', t' := s.(delivering := None), Queued(s, q).(delivering := None);
            Ahead(AfterSubmitRead(s', accepted, benign), AfterSubmitRead(t', accepted, benign))
  {
    ReadBlind(s.(delivering := None), q, accepted, benign);
  }

  /** Deleting from any run every task whose generation is outdated leaves a possible run, with the
      same client, the same I/O and the same calls to the listener at its end. */
  lemma {:induction false} StaleTasksErasable(s: State, t: State, es: seq<Event>)
    requires Ahead(s, t) && ValidRun(s, es)
    ensures ValidRun(t, Erase(s, es))
    ensures Visible(Final(t, Erase(s, es))) == Visible(Final(s, es))
    decreases |es|
  {
    if es != [] {
      var e, rest := es[0], Erase(Step(s, es[0]), es[1..]);
      if IsTask(e) {
        SameTask(s, t, e);
      } else {
        SameStep(s, t, e);
      }
      if Stale(s, e) {
        assert Erase(s, es) == rest;
        StaleTasksErasable(Step(s, e), t, es[1..]);
      } else {
        assert Erase(s, es) == [e] + rest && ([e] + rest)[1..] == rest;
        StaleTasksErasable(Step(s, e), Step(t, e), es[1..]);
      }
    }
  }

  // ---------------------------------------------------------------- what every step keeps

  function Reads(s: State, g: nat): nat {
    s.kernel[Op(ReadOp, g)] + s.queued[Op(ReadOp, g)] + if s.delivering == Some(g) then 1 else 0
  }

  function Connects(s: State, g: nat): nat {
    s.kernel[Op(ConnectOp, g)] + s.queued[Op(ConnectOp, g)]
  }

  /** Listener calls are properly bracketed; `up` says whether the last bracket is open. */
  ghost predicate Bracketed(log: seq<Note>, up: bool) {
    if log == [] then !up
    else
      var before := log[..|log| - 1];
      match log[|log| - 1]
      case Connected => up && Bracketed(before, false)
      case Received => up && Bracketed(before, true)
      case Error => up && Bracketed(before, true)
      case Closed => !up && Bracketed(before, true)
      case Reset => !up && Bracketed(before, true)
  }

  /** At most one read and one connect per generation, and none for generations to come. */
  ghost predicate OneEach(s: State) {
    forall g :: OneAt(s, g)
  }

  predicate OneAt(s: State, g: nat) {
    && Reads(s, g) <= 1 && Connects(s, g) <= 1
    && (g > s.gen ==> Reads(s, g) == 0 && Connects(s, g) == 0)
  }

  /** A read of the current generation needs the connection, a connect its absence; the listener
      may outlive the generation it was called for only on a connection that is gone. */
  predicate Current(s: State) {
    && (Reads(s, s.gen) > 0 ==> s.connected)
    && (Connects(s, s.gen) > 0 ==> s.connectPending && !s.connected)
    && (s.delivering.Some? && s.delivering.value != s.gen ==> !(s.connected && s.validSocket))
  }

  ghost predicate Base(s: State) {
    && OneEach(s)
    && Bracketed(s.log, s.connected)
    && s.pendingIo == |s.kernel| + |s.callbacks|
  }

  ghost predicate Inv(s: State) {
    Base(s) && Current(s)
  }

  /** Whatever moves to the next generation leaves no request behind in it. */
  lemma NextGeneration(s: State, s': State)
    requires OneEach(s) && s'.gen == s.gen + 1
    requires s'.kernel == s.kernel && s'.queued == s.queued && s'.delivering == s.delivering
    requires !(s'.connected && s'.validSocket)
    ensures OneEach(s') && Current(s')
  {
    forall g ensures OneAt(s', g) {
      assert OneAt(s, g);
    }
    assert OneAt(s, s.gen + 1);
  }

  lemma ReInitKeeps(s: State, created: bool)
    requires Base(s)
    ensures Inv(AfterReInit(s, created))
  {
    NextGeneration(s, AfterReInit(s, created));
    Bracket(s.log, Reset);
  }

  lemma CloseKeeps(s: State, isError: bool, pendingError: nat)
    requires Base(s)
    ensures Inv(AfterClose(s, isError, pendingError))
  {
    NextGeneration(s, AfterClose(s, isError, pendingError));
    Bracket(s.log, Closed);
    Bracket(s.log, Error);
    Bracket(s.log + [Error], Closed);
    assert s.log + [Error] + [Closed] == s.log + [Error, Closed];
  }

  lemma PostKeeps(s: State, kind: Kind)
    requires Base(s) && s.delivering == None
    requires kind == ReadOp ==> Reads(s, s.gen) == 0 && s.connected && Connects(s, s.gen) == 0
    requires kind == ConnectOp ==> Connects(s, s.gen) == 0 && s.connectPending && !s.connected && Reads(s, s.gen) == 0
    requires kind == WriteOp ==> Current(s)
    ensures Inv(Post(s, kind))
  {
    var s' := Post(s, kind);
    forall g ensures OneAt(s', g) {
      assert OneAt(s, g);
    }
  }

  lemma Bracket(log: seq<Note>, n: Note)
    ensures Bracketed(log + [n], n.Connected? || n.Received? || n.Error?) <==> Bracketed(log, !n.Connected?)
  {
    assert (log + [n])[..|log|] == log;
  }

  lemma ReadKeeps(s: State, accepted: bool, benign: bool)
    requires Base(s) && s.delivering == None && Reads(s, s.gen) == 0
    requires Connects(s, s.gen) > 0 ==> s.connectPending && !s.connected
    ensures Inv(AfterSubmitRead(s, accepted, benign))
  {
    if s.running && s.connected {
      if accepted {
        PostKeeps(s, ReadOp);
      } else {
        CloseKeeps(s, !benign, if !benign then ABORTED else 0);
      }
    }
  }

  lemma ConnectKeeps(s: State, accepted: bool, created: bool)
    requires Inv(s)
    ensures Inv(AfterConnect(s, accepted, created))
  {
    assert OneAt(s, s.gen);
    if s.running && !s.connected && !s.connectPending {
      var s' := s.(connectPending := true, connectSuccess := false, lastError := 0);
      SameCounts(s, s');
      if accepted {
        PostConnect(s');
      } else {
        SameCounts(s, s'.(connectPending := false, lastError := ABORTED));
        ReInitKeeps(s'.(connectPending := false, lastError := ABORTED), created);
      }
    }
  }

  lemma PostConnect(s: State)
    requires Base(s) && Connects(s, s.gen) == 0 && s.connectPending && !s.connected && Reads(s, s.gen) == 0
    requires s.delivering.Some? && s.delivering.value != s.gen ==> !(s.connected && s.validSocket)
    ensures Inv(Post(s, ConnectOp))
  {
    var s' := Post(s, ConnectOp);
    forall g ensures OneAt(s', g) {
      assert OneAt(s, g);
    }
  }

  lemma SameCounts(s: State, s': State)
    requires OneEach(s) && s'.gen == s.gen
    requires s'.kernel == s.kernel && s'.queued <= s.queued
    requires s'.delivering == s.delivering || s'.delivering == None
    ensures OneEach(s') && forall g :: Reads(s', g) <= Reads(s, g) && Connects(s', g) <= Connects(s, g)
  {
    forall g ensures OneAt(s', g) && Reads(s', g) <= Reads(s, g) && Connects(s', g) <= Connects(s, g) {
      assert OneAt(s, g);
    }
  }

  lemma HandleConnectKeeps(s: State, gen: nat, error: nat, created: bool, accepted: bool, benign: bool)
    requires Inv(s) && Op(ConnectOp, gen) in s.queued && s.delivering == None
    ensures Inv(AfterHandleConnect(s.(queued := s.queued - multiset{Op(ConnectOp, gen)}), gen, error, created,
                                   accepted, benign))
  {
    var t := s.(queued := s.queued - multiset{Op(ConnectOp, gen)});
    SameCounts(s, t);
    if gen == s.gen {
      assert OneAt(s, gen);
      var t' := t.(connectPending := false, connectSuccess := error == 0, lastError := error, connected := error == 0);
      SameCounts(s, t');
      if error != 0 {
        ReInitKeeps(t', created);
      } else {
        Bracket(s.log, Connected);
        SameCounts(s, t'.(log := t.log + [Connected]));
        ReadKeeps(t'.(log := t.log + [Connected]), accepted, benign);
      }
    }
  }

  lemma HandleReceiveKeeps(s: State, gen: nat, bytes: nat, error: nat, expected: bool)
    requires Inv(s) && Op(ReadOp, gen) in s.queued && s.delivering == None
    ensures Inv(AfterHandleReceive(s.(queued := s.queued - multiset{Op(ReadOp, gen)}), gen, bytes, error, expected))
  {
    var t := s.(queued := s.queued - multiset{Op(ReadOp, gen)});
    SameCounts(s, t);
    if gen == s.gen {
      if error != 0 {
        CloseKeeps(t, !expected, if !expected then ABORTED else 0);
      } else if bytes == 0 {
        CloseKeeps(t, false, 0);
      } else {
        assert OneAt(s, gen);
        Bracket(s.log, Received);
        var t' := t.(log := s.log + [Received], delivering := Some(gen));
        forall g ensures OneAt(t', g) {
          assert OneAt(s, g);
        }
      }
    }
  }

  lemma HandleSendKeeps(s: State, gen: nat, error: nat)
    requires Inv(s) && s.delivering == None
    ensures Inv(AfterHandleSend(s.(queued := s.queued - multiset{Op(WriteOp, gen)}), gen, error))
  {
    var t := s.(queued := s.queued - multiset{Op(WriteOp, gen)});
    SameCounts(s, t);
    if gen == s.gen && error != 0 {
      CloseKeeps(t, true, ABORTED);
    }
  }

  lemma CompletesKeeps(s: State, op: Op)
    requires Inv(s) && op in s.kernel
    ensures Inv(Step(s, Completes(op)))
  {
    var s' := Step(s, Completes(op));
    forall g ensures OneAt(s', g) && Reads(s', g) <= Reads(s, g) && Connects(s', g) <= Connects(s, g) {
      assert OneAt(s, g);
    }
  }

  lemma RearmKeeps(s: State, accepted: bool, benign: bool)
    requires Inv(s) && Enabled(s, Rearm(accepted, benign))
    ensures Inv(Step(s, Rearm(accepted, benign)))
  {
    var t := s.(delivering := None);
    SameCounts(s, t);
    assert OneAt(s, s.gen);
    if s.delivering.value == s.gen {
      ReadKeeps(t, accepted, benign);
    } else if s.running && s.connected {
      CloseKeeps(t, !benign, if !benign then ABORTED else 0);
    }
  }

  lemma SendKeeps(s: State, accepted: bool)
    requires Inv(s) && Enabled(s, Send(accepted))
    ensures Inv(Step(s, Send(accepted)))
  {
    var s' := Post(s, WriteOp);
    forall g ensures OneAt(s', g) && Reads(s', g) == Reads(s, g) && Connects(s', g) == Connects(s, g) {
      assert OneAt(s, g);
    }
  }

  lemma TimeoutKeeps(s: State, created: bool)
    requires Inv(s) && s.connectPending
    ensures Inv(Step(s, ConnectTimeout(created)))
  {
    SameCounts(s, s.(connectPending := false));
    ReInitKeeps(s.(connectPending := false), created);
  }

  lemma CallbackEndsKeeps(s: State, op: Op)
    requires Inv(s) && op in s.callbacks
    ensures Inv(Step(s, CallbackEnds(op)))
  {
    SameCounts(s, Step(s, CallbackEnds(op)));
  }

  lemma TaskKeeps(s: State, e: Event)
    requires Inv(s) && IsTask(e) && Enabled(s, e)
    ensures Inv(Step(s, e))
  {
    match e
    case ConnectTask(gen, error, created, accepted, benign) =>
      HandleConnectKeeps(s, gen, error, created, accepted, benign);
    case ReceiveTask(gen, bytes, error, expected) => HandleReceiveKeeps(s, gen, bytes, error, expected);
    case SendTask(gen, error) => HandleSendKeeps(s, gen, error);
  }

  lemma InvStep(s: State, e: Event)
    requires Inv(s) && Enabled(s, e)
    ensures Inv(Step(s, e))
  {
    if IsTask(e) {
      TaskKeeps(s, e);
    } else {
      match e
      case Init(created) => InitKeeps(s, created);
      case Connect(accepted, created) => ConnectKeeps(s, accepted, created);
      case ConnectTimeout(created) => TimeoutKeeps(s, created);
      case Send(accepted) => SendKeeps(s, accepted);
      case Close => CloseKeeps(s, false, ABORTED);
      case Completes(op) => CompletesKeeps(s, op);
      case CallbackEnds(op) => CallbackEndsKeeps(s, op);
      case Rearm(accepted, benign) => RearmKeeps(s, accepted, benign);
    }
  }

  lemma InitKeeps(s: State, created: bool)
    requires Inv(s)
    ensures Inv(Step(s, Init(created)))
  {
    ReInitKeeps(s, created);
    SameCounts(AfterReInit(s, created), Step(s, Init(created)));
  }

  lemma {:induction false} InvRun(s: State, es: seq<Event>)
    requires Inv(s) && ValidRun(s, es)
    ensures Inv(Final(s, es))
    decreases |es|
  {
    if es != [] {
      InvStep(s, es[0]);
      InvRun(Step(s, es[0]), es[1..]);
    }
  }

  // ---------------------------------------------------------------- whole runs

  /** After any run of API calls, tasks and completions, re-initialisation included: at most one
      read and one connect per generation are anywhere between being posted and being handled, and
      the pending count is exact, so its zero guard never fires. */
  lemma OneReadPerGeneration(es: seq<Event>, g: nat, op: Op)
    requires ValidRun(INITIAL, es)
    ensures var s := Final(INITIAL, es);
            && Reads(s, g) <= 1 && Connects(s, g) <= 1
            && (g > s.gen ==> Reads(s, g) == 0 && Connects(s, g) == 0)
            && s.pendingIo == |s.kernel| + |s.callbacks|
            && (Enabled(s, CallbackEnds(op)) ==> s.pendingIo > 0)
  {
    InvRun(INITIAL, es);
    var s := Final(INITIAL, es);
    assert OneAt(s, g);
    if op in s.callbacks {
      assert s.callbacks == (s.callbacks - multiset{op}) + multiset{op};
    }
  }

  /** From a bracket that is closed, only a connect leads back to one that is open. */
  lemma {:induction false} ReopenedByConnect(log: seq<Note>, up: bool, i: nat)
    requires Bracketed(log, up) && i < |log| && (log[i] == Closed || log[i] == Reset)
    ensures up ==> Connected in log[i + 1..]
  {
    if i == |log| - 1 {
      assert !up;
    } else if up && log[|log| - 1] != Connected {
      var before := log[..|log| - 1];
      ReopenedByConnect(before, true, i);
      assert before[i + 1..] <= log[i + 1..];
    } else if up {
      assert log[|log| - 1] in log[i + 1..];
    }
  }

  lemma {:induction false} OpenAt(log: seq<Note>, up: bool, j: nat)
    requires Bracketed(log, up) && j < |log|
    ensures Bracketed(log[..j], log[j] != Connected)
  {
    var before := log[..|log| - 1];
    if j == |log| - 1 {
    } else {
      OpenAt(before, log[|log| - 1] != Connected, j);
      assert before[..j] == log[..j];
    }
  }

  /** In any run: between one OnClose and the next, or an OnReceive or OnError after it, there is
      a successful connect; so each connect is closed at most once and nothing is received on a
      closed connection. */
  lemma CallbacksBracketed(es: seq<Event>, i: nat, j: nat)
    requires ValidRun(INITIAL, es)
    requires var log := Final(INITIAL, es).log;
             i < j < |log| && log[i] == Closed && log[j] != Connected
    ensures Connected in Final(INITIAL, es).log[i + 1..j]
  {
    InvRun(INITIAL, es);
    var s := Final(INITIAL, es);
    OpenAt(s.log, s.connected, j);
    ReopenedByConnect(s.log[..j], true, i);
    assert s.log[..j][i + 1..] == s.log[i + 1..j];
  }

  lemma {:induction false} OpenNeedsConnect(log: seq<Note>)
    requires Bracketed(log, true)
    ensures Connected in log
  {
    if log[|log| - 1] != Connected {
      OpenNeedsConnect(log[..|log| - 1]);
    }
  }

  /** And the first thing the listener ever hears comes after a successful connect. */
  lemma NothingBeforeConnect(es: seq<Event>, j: nat)
    requires ValidRun(INITIAL, es)
    requires j < |Final(INITIAL, es).log| && Final(INITIAL, es).log[j] != Connected
    ensures Connected in Final(INITIAL, es).log[..j]
  {
    InvRun(INITIAL, es);
    var s := Final(INITIAL, es);
    OpenAt(s.log, s.connected, j);
    OpenNeedsConnect(s.log[..j]);
  }

  /** The erasure theorem from the start of the client. */
  lemma StaleTasksHarmless(es: seq<Event>)
    requires ValidRun(INITIAL, es)
    ensures ValidRun(INITIAL, Erase(INITIAL, es))
    ensures Visible(Final(INITIAL, Erase(INITIAL, es))) == Visible(Final(INITIAL, es))
  {
    StaleTasksErasable(INITIAL, INITIAL, es);
  }

  // ---------------------------------------------------------------- what the listener hears

  function Ending(unexpected: bool): seq<Note> {
    if unexpected then [Error, Closed] else [Closed]
  }

  /** What an event adds to the history, given the client when it comes: data of the current generation is
      handed over, and whatever ends a connection is announced, with an error if it was not expected. */
  function Told(s: State, e: Event): seq<Note> {
    match e
    case Init(created) => if s.connected && created then [Reset] else []
    case ConnectTimeout(created) => if s.connected && created then [Reset] else []
    case Close => if s.running && s.connected then [Closed] else []
    case ConnectTask(gen, error, _, accepted, benign) =>
      if gen != s.gen || error != 0 then []
      else [Connected] + if s.running && !accepted then Ending(!benign) else []
    case ReceiveTask(gen, bytes, error, expected) =>
      if gen != s.gen then []
      else if error != 0 then Ending(!expected)
      else if bytes == 0 then Ending(false)
      else [Received]
    case Rearm(accepted, benign) => if s.running && s.connected && !accepted then Ending(!benign) else []
    case SendTask(gen, error) => if gen == s.gen && error != 0 && s.connected then Ending(true) else []
    case _ => []
  }

  lemma ReceiveTold(s: State, e: Event)
    requires Inv(s) && Enabled(s, e) && e.ReceiveTask?
    ensures Step(s, e).log == s.log + Told(s, e)
  {
    assert OneAt(s, s.gen);
    assert e.gen == s.gen ==> Reads(s, s.gen) > 0;
  }

  lemma ConnectTold(s: State, e: Event)
    requires Inv(s) && Enabled(s, e) && e.ConnectTask?
    ensures Step(s, e).log == s.log + Told(s, e)
  {
    if e.gen == s.gen && e.error == 0 && s.running && !e.accepted {
      assert s.log + [Connected] + Ending(!e.benign) == s.log + ([Connected] + Ending(!e.benign));
    }
  }

  lemma ToldStep(s: State, e: Event)
    requires Inv(s) && Enabled(s, e)
    ensures Step(s, e).log == s.log + Told(s, e)
  {
    if e.ReceiveTask? {
      ReceiveTold(s, e);
    } else if e.ConnectTask? {
      ConnectTold(s, e);
    }
  }

  function Story(s: State, es: seq<Event>): seq<Note>
    requires ValidRun(s, es)
    decreases |es|
  {
    if es == [] then [] else Told(s, es[0]) + Story(Step(s, es[0]), es[1..])
  }

  lemma Assoc(a: seq<Note>, b: seq<Note>, c: seq<Note>)
    ensures (a + b) + c == a + (b + c)
  {
  }

  lemma {:induction false} StoryRun(s: State, es: seq<Event>)
    requires Inv(s) && ValidRun(s, es)
    ensures Final(s, es).log == s.log + Story(s, es)
    decreases |es|
  {
    if es != [] {
      ToldStep(s, es[0]);
      InvStep(s, es[0]);
      StoryRun(Step(s, es[0]), es[1..]);
      Assoc(s.log, Told(s, es[0]), Story(Step(s, es[0]), es[1..]));
    }
  }

  /** In any run the listener is told exactly this, in this order. */
  lemma EverythingTold(es: seq<Event>)
    requires ValidRun(INITIAL, es)
    ensures Final(INITIAL, es).log == Story(INITIAL, es)
  {
    StoryRun(INITIAL, es);
  }

  /** A read of the current generation that brought data. */
  predicate BringsData(s: State, e: Event) {
    e.ReceiveTask? && e.gen == s.gen && e.error == 0 && e.bytes > 0
  }

  function DataEvents(s: State, es: seq<Event>): nat
    requires ValidRun(s, es)
    decreases |es|
  {
    if es == [] then 0 else (if BringsData(s, es[0]) then 1 else 0) + DataEvents(Step(s, es[0]), es[1..])
  }

  lemma ToldData(s: State, e: Event)
    ensures multiset(Told(s, e))[Received] == if BringsData(s, e) then 1 else 0
  {
  }

  lemma ConcatCount(a: seq<Note>, b: seq<Note>, n: Note)
    ensures multiset(a + b)[n] == multiset(a)[n] + multiset(b)[n]
  {
  }

  lemma {:induction false} StoryCounts(s: State, es: seq<Event>)
    requires ValidRun(s, es)
    ensures multiset(Story(s, es))[Received] == DataEvents(s, es)
    decreases |es|
  {
    if es != [] {
      StoryCounts(Step(s, es[0]), es[1..]);
      ToldData(s, es[0]);
      ConcatCount(Told(s, es[0]), Story(Step(s, es[0]), es[1..]), Received);
    }
  }

  /** OnReceive is called once for each current read that brought data, and for nothing else. */
  lemma DataDelivered(es: seq<Event>)
    requires ValidRun(INITIAL, es)
    ensures multiset(Final(INITIAL, es).log)[Received] == DataEvents(INITIAL, es)
  {
    EverythingTold(es);
    StoryCounts(INITIAL, es);
  }

  /** The events that end the client until the next Init. */
  predicate Ends(s: State, e: Event) {
    match e
    case Close => s.running
    case ConnectTask(gen, error, _, accepted, _) => gen == s.gen && error == 0 && s.running && !accepted
    case ReceiveTask(gen, bytes, error, _) => gen == s.gen && (error != 0 || bytes == 0)
    case SendTask(gen, error) => gen == s.gen && error != 0
    case Rearm(accepted, _) => s.running && s.connected && !accepted
    case _ => false
  }

  /** The events that replace the socket, and whether a new one could be made. */
  function Replaces(s: State, e: Event): Option<bool> {
    match e
    case Init(created) => Some(created)
    case ConnectTimeout(created) => Some(created)
    case Connect(accepted, created) =>
      if s.running && !s.connected && !s.connectPending && !accepted then Some(created) else None
    case ConnectTask(gen, error, created, _, _) => if gen == s.gen && error != 0 then Some(created) else None
    case _ => None
  }

  /** What the event leaves of the client's life: stopped for good, on a new socket, or as it was. */
  predicate Lives(s: State, e: Event, s': State) {
    if Ends(s, e) then
      !s'.running && !s'.connected && !s'.validSocket && !s'.connectPending && s'.gen == s.gen + 1
    else
      && s'.running == (s.running || e == Init(true))
      && match Replaces(s, e)
         case None => s'.gen == s.gen && s'.validSocket == s.validSocket
         case Some(created) => s'.gen == s.gen + 1 && s'.validSocket == created && (created ==> !s'.connected)
  }

  lemma TaskLives(s: State, e: Event)
    requires IsTask(e)
    ensures Lives(s, e, TaskEffect(s, e))
  {
  }

  lemma CallLives(s: State, e: Event)
    requires Enabled(s, e) && !IsTask(e)
    ensures Lives(s, e, OtherEffect(s, e))
  {
  }

  /** The client moves to the next generation exactly when it ends or its socket is replaced. It then stays ended
      until an Init makes a new socket. */
  lemma GenerationMoves(s: State, e: Event)
    requires Enabled(s, e)
    ensures Lives(s, e, Step(s, e))
  {
    if IsTask(e) {
      TaskStep(s, e);
      TaskLives(s, e);
    } else {
      CallLives(s, e);
    }
  }

  // ---------------------------------------------------------------- requests and tasks

  /** The request an event posts, if the kernel takes it. */
  function Posts(s: State, e: Event): multiset<Op> {
    match e
    case Connect(accepted, _) =>
      if accepted && s.running && !s.connected && !s.connectPending then multiset{Op(ConnectOp, s.gen)} else multiset{}
    case Send(accepted) =>
      if accepted && s.running && s.connected then multiset{Op(WriteOp, s.gen)} else multiset{}
    case ConnectTask(gen, error, _, accepted, _) =>
      if accepted && s.running && gen == s.gen && error == 0 then multiset{Op(ReadOp, s.gen)} else multiset{}
    case Rearm(accepted, _) =>
      if accepted && s.running && s.connected then multiset{Op(ReadOp, s.gen)} else multiset{}
    case _ => multiset{}
  }

  /** The task a completion queues: none for a write on a stopped client, or a connect that is also outdated. */
  function Enqueues(s: State, e: Event): multiset<Op> {
    if !e.Completes? then multiset{}
    else if e.op.kind == WriteOp && !s.running then multiset{}
    else if e.op.kind == ConnectOp && !s.running && e.op.gen != s.gen then multiset{}
    else multiset{e.op}
  }

  /** What a run posts and queues, and what it takes out again. */
  datatype Ledger = Ledger(posted: multiset<Op>, completed: multiset<Op>, ended: multiset<Op>,
                           queued: multiset<Op>, ran: multiset<Op>)

  function Entry(s: State, e: Event): Ledger {
    var op := if e.Completes? then multiset{e.op} else multiset{};
    var end := if e.CallbackEnds? then multiset{e.op} else multiset{};
    Ledger(Posts(s, e), op, end, Enqueues(s, e), if IsTask(e) then multiset{TaskOp(e)} else multiset{})
  }

  function Plus(a: Ledger, b: Ledger): Ledger {
    Ledger(a.posted + b.posted, a.completed + b.completed, a.ended + b.ended, a.queued + b.queued, a.ran + b.ran)
  }

  const BLANK := Ledger(multiset{}, multiset{}, multiset{}, multiset{}, multiset{})

  function Book(s: State, es: seq<Event>): Ledger
    requires ValidRun(s, es)
    decreases |es|
  {
    if es == [] then BLANK else Plus(Entry(s, es[0]), Book(Step(s, es[0]), es[1..]))
  }

  /** From s to s', what came in and did not go out is there. */
  ghost predicate Balances(s: State, s': State, l: Ledger) {
    && s'.kernel + l.completed == s.kernel + l.posted
    && s'.callbacks + l.ended == s.callbacks + l.completed
    && s'.queued + l.ran == s.queued + l.queued
  }

  lemma TaskPosts(s: State, e: Event)
    requires IsTask(e)
    ensures TaskEffect(s, e).kernel == s.kernel + Posts(s, e)
    ensures TaskEffect(s, e).callbacks == s.callbacks
  {
  }

  lemma TaskBalances(s: State, e: Event)
    requires Enabled(s, e) && IsTask(e)
    ensures Balances(s, Step(s, e), Entry(s, e))
  {
    TaskStep(s, e);
    TaskPosts(s, e);
  }

  lemma Returned(m: multiset<Op>, op: Op)
    requires op in m
    ensures m - multiset{op} + multiset{op} == m
  {
  }

  lemma Untouched(m: multiset<Op>)
    ensures m + multiset{} == m
  {
  }

  lemma CompletionBalances(s: State, op: Op)
    requires Enabled(s, Completes(op))
    ensures Balances(s, Step(s, Completes(op)), Entry(s, Completes(op)))
  {
    Returned(s.kernel, op);
    Untouched(s.kernel);
    Untouched(s.callbacks + multiset{op});
    Untouched(s.queued);
    Untouched(s.queued + multiset{op});
  }

  lemma EndBalances(s: State, op: Op)
    requires Enabled(s, CallbackEnds(op))
    ensures Balances(s, Step(s, CallbackEnds(op)), Entry(s, CallbackEnds(op)))
  {
    Returned(s.callbacks, op);
    Untouched(s.kernel);
    Untouched(s.callbacks);
    Untouched(s.queued);
  }

  /** The kernel has what it had and what the event posts; callbacks and tasks are as before. */
  predicate OnlyPosts(s: State, s': State, e: Event) {
    s'.kernel == s.kernel + Posts(s, e) && s'.callbacks == s.callbacks && s'.queued == s.queued
  }

  lemma ConnectPosts(s: State, accepted: bool, created: bool)
    ensures OnlyPosts(s, AfterConnect(s, accepted, created), Connect(accepted, created))
  {
    Untouched(s.kernel);
  }

  lemma RearmPosts(s: State, accepted: bool, benign: bool)
    ensures OnlyPosts(s, AfterSubmitRead(s.(delivering := None), accepted, benign), Rearm(accepted, benign))
  {
    Untouched(s.kernel);
  }

  lemma OtherPosts(s: State, e: Event)
    requires Enabled(s, e) && (e.Init? || e.ConnectTimeout? || e.Send? || e.Close?)
    ensures OnlyPosts(s, OtherEffect(s, e), e)
  {
    Untouched(s.kernel);
  }

  lemma CallPosts(s: State, e: Event)
    requires Enabled(s, e) && !IsTask(e) && !e.Completes? && !e.CallbackEnds?
    ensures OnlyPosts(s, OtherEffect(s, e), e)
  {
    match e
    case Connect(accepted, created) => ConnectPosts(s, accepted, created);
    case Rearm(accepted, benign) => RearmPosts(s, accepted, benign);
    case _ => OtherPosts(s, e);
  }

  lemma CallBalances(s: State, e: Event)
    requires Enabled(s, e) && !IsTask(e) && !e.Completes? && !e.CallbackEnds?
    ensures Balances(s, Step(s, e), Entry(s, e))
  {
    CallPosts(s, e);
    Untouched(s.kernel + Posts(s, e));
    Untouched(s.callbacks);
    Untouched(s.queued);
  }

  lemma StepBalances(s: State, e: Event)
    requires Enabled(s, e)
    ensures Balances(s, Step(s, e), Entry(s, e))
  {
    if IsTask(e) {
      TaskBalances(s, e);
    } else if e.Completes? {
      CompletionBalances(s, e.op);
    } else if e.CallbackEnds? {
      EndBalances(s, e.op);
    } else {
      CallBalances(s, e);
    }
  }

  lemma BalancesPlus(s: State, t: State, u: State, a: Ledger, b: Ledger)
    requires Balances(s, t, a) && Balances(t, u, b)
    ensures Balances(s, u, Plus(a, b))
  {
    Chain(s.kernel, t.kernel, u.kernel, a.posted, a.completed, b.posted, b.completed);
    Chain(s.callbacks, t.callbacks, u.callbacks, a.completed, a.ended, b.completed, b.ended);
    Chain(s.queued, t.queued, u.queued, a.queued, a.ran, b.queued, b.ran);
  }

  lemma Chain(x: multiset<Op>, y: multiset<Op>, z: multiset<Op>,
              inA: multiset<Op>, outA: multiset<Op>, inB: multiset<Op>, outB: multiset<Op>)
    requires y + outA == x + inA && z + outB == y + inB
    ensures z + (outA + outB) == x + (inA + inB)
  {
    assert z + (outA + outB) == (z + outB) + outA;
    assert (y + inB) + outA == (y + outA) + inB;
  }

  lemma {:induction false} BookBalances(s: State, es: seq<Event>)
    requires ValidRun(s, es)
    ensures Balances(s, Final(s, es), Book(s, es))
    decreases |es|
  {
    if es != [] {
      StepBalances(s, es[0]);
      BookBalances(Step(s, es[0]), es[1..]);
      BalancesPlus(s, Step(s, es[0]), Final(s, es), Entry(s, es[0]), Book(Step(s, es[0]), es[1..]));
    }
  }

  /** In any run: a request is with the kernel from the call that posts it until it completes, its callback runs
      from then until it ends, and its task is queued from then until it runs. */
  lemma RequestsAccounted(es: seq<Event>)
    requires ValidRun(INITIAL, es)
    ensures var s := Final(INITIAL, es);
            var l := Book(INITIAL, es);
            && s.kernel + l.completed == l.posted
            && s.callbacks + l.ended == l.completed
            && s.queued + l.ran == l.queued
  {
    BookBalances(INITIAL, es);
    var s, l := Final(INITIAL, es), Book(INITIAL, es);
    assert multiset{} + l.posted == l.posted && multiset{} + l.completed == l.completed;
    assert multiset{} + l.queued == l.queued;
  }

  // ---------------------------------------------------------------- a connected client listens

  /** A running client with a connection has its read somewhere. */
  predicate Listening(s: State) {
    s.running && s.connected && s.validSocket ==> Reads(s, s.gen) >= 1
  }

  lemma TaskListens(s: State, e: Event)
    requires Inv(s) && Listening(s) && Enabled(s, e) && IsTask(e)
    ensures Listening(Step(s, e))
  {
    assert OneAt(s, s.gen);
  }

  lemma OtherListens(s: State, e: Event)
    requires Inv(s) && Listening(s) && Enabled(s, e) && !IsTask(e)
    ensures Listening(Step(s, e))
  {
  }

  lemma {:induction false} ListensRun(s: State, es: seq<Event>)
    requires Inv(s) && Listening(s) && ValidRun(s, es)
    ensures Inv(Final(s, es)) && Listening(Final(s, es))
    decreases |es|
  {
    if es != [] {
      if IsTask(es[0]) {
        TaskListens(s, es[0]);
      } else {
        OtherListens(s, es[0]);
      }
      InvStep(s, es[0]);
      ListensRun(Step(s, es[0]), es[1..]);
    }
  }

  /** A running, connected client never stops reading: exactly one read of its generation is with the kernel,
      queued as a task, or with the listener. */
  lemma AlwaysReading(es: seq<Event>)
    requires ValidRun(INITIAL, es)
    ensures var s := Final(INITIAL, es);
            s.running && s.connected && s.validSocket ==> Reads(s, s.gen) == 1
  {
    ListensRun(INITIAL, es);
    assert OneAt(Final(INITIAL, es), Final(INITIAL, es).gen);
  }

  // ---------------------------------------------------------------- what Connect answers

  /** While the caller waits there is no answer yet. */
  predicate Unanswered(s: State) {
    s.connectPending ==> !s.connectSuccess && !s.connected && s.lastError == 0
  }

  lemma {:induction false} UnansweredRun(s: State, es: seq<Event>)
    requires Unanswered(s) && ValidRun(s, es)
    ensures Unanswered(Final(s, es))
    decreases |es|
  {
    if es != [] {
      UnansweredRun(Step(s, es[0]), es[1..]);
    }
  }

  /** The events that end the wait of Connect, and the error they leave. */
  function Verdict(s: State, e: Event): Option<nat> {
    match e
    case ConnectTask(gen, error, _, _, _) => if gen == s.gen then Some(error) else None
    case ConnectTimeout(_) => Some(0)
    case Close => if s.running then Some(ABORTED) else None
    case SendTask(gen, error) => if gen == s.gen && error != 0 then Some(ABORTED) else None
    case _ => None
  }

  /** The caller goes on waiting, or has its answer. */
  predicate Answered(s: State, e: Event, s': State) {
    match Verdict(s, e)
    case None => s'.connectPending && !s'.connectSuccess
    case Some(error) =>
      && !s'.connectPending
      && (s'.connectSuccess <==> e.ConnectTask? && error == 0)
      && (!s'.connectSuccess ==> s'.lastError == error)
  }

  lemma TaskAnswers(s: State, e: Event)
    requires IsTask(e) && s.connectPending && !s.connectSuccess && !s.connected
    requires e.ReceiveTask? ==> e.gen != s.gen
    ensures Answered(s, e, TaskEffect(s, e))
  {
  }

  lemma CallAnswers(s: State, e: Event)
    requires Enabled(s, e) && !IsTask(e) && s.connectPending && Unanswered(s)
    ensures Answered(s, e, OtherEffect(s, e))
  {
  }

  /** A waiting Connect is answered by these events and no others, with success exactly by its own completion without
      an error, and otherwise with the error they stand for. */
  lemma ConnectAnswered(es: seq<Event>, e: Event)
    requires ValidRun(INITIAL, es) && Enabled(Final(INITIAL, es), e) && Final(INITIAL, es).connectPending
    ensures Answered(Final(INITIAL, es), e, Step(Final(INITIAL, es), e))
  {
    UnansweredRun(INITIAL, es);
    InvRun(INITIAL, es);
    var s := Final(INITIAL, es);
    if IsTask(e) {
      TaskStep(s, e);
      assert e.ReceiveTask? && e.gen == s.gen ==> Reads(s, s.gen) > 0;
      TaskAnswers(s, e);
    } else {
      CallAnswers(s, e);
    }
  }

  /** Connect on a running client without a connection waits if its request is taken, and has failed if not. */
  lemma ConnectBegins(s: State, accepted: bool, created: bool)
    requires s.running && !s.connected && !s.connectPending
    ensures var s' := AfterConnect(s, accepted, created);
            s'.connectPending == accepted && !s'.connectSuccess && s'.lastError == if accepted then 0 else ABORTED
  {
  }

  // ---------------------------------------------------------------- the object

  /** The client's fields. `posted` are its requests in the kernel, `calls` the listener's calls. */
  class TcpClientImpl {
    var socketGeneration: nat
    var isRunning: bool
    var isConnected: bool
    var validSocket: bool
    var connectPending: bool
    var connectSuccess: bool
    var lastConnectError: nat
    var pendingIo: nat
    var posted: multiset<Op>
    var calls: seq<Note>

    /** The object agrees with the client part of machine state `s`. */
    ghost predicate Is(s: State)
      reads this
    {
      && socketGeneration == s.gen && isRunning == s.running && isConnected == s.connected
      && validSocket == s.validSocket && connectPending == s.connectPending
      && connectSuccess == s.connectSuccess && lastConnectError == s.lastError
      && pendingIo == s.pendingIo && posted == s.kernel && calls == s.log
    }

    method ReInit(created: bool, ghost s: State)
      requires Is(s)
      modifies this
      ensures Is(AfterReInit(s, created))
    {
      socketGeneration := socketGeneration + 1;
      validSocket := created;
      if !created {
        return;
      }
      if isConnected {
        calls := calls + [Reset];
      }
      isConnected := false;
    }

    method HandleClose(isError: bool, ghost s: State)
      requires Is(s)
      modifies this
      ensures Is(AfterHandleClose(s, isError))
    {
      var wasConnected := isConnected;
      isConnected := false;
      isRunning := false;
      socketGeneration := socketGeneration + 1;
      validSocket := false;
      if connectPending {
        connectPending := false;
        connectSuccess := false;
        lastConnectError := if isError then ABORTED else 0;
      }
      if wasConnected {
        NotifyClose(isError);
      }
    }

    method NotifyClose(isError: bool)
      modifies this`calls
      ensures calls == old(calls) + (if isError then [Error, Closed] else [Closed])
    {
      if isError {
        calls := calls + [Error];
      }
      calls := calls + [Closed];
    }

    method Close(ghost s: State)
      requires Is(s)
      modifies this
      ensures Is(Step(s, Event.Close))
    {
      if !isRunning {
        return;
      }
      var wasConnected := isConnected;
      isConnected := false;
      isRunning := false;
      socketGeneration := socketGeneration + 1;
      validSocket := false;
      if connectPending {
        connectPending := false;
        connectSuccess := false;
        lastConnectError := ABORTED;
      }
      if wasConnected {
        NotifyClose(false);
      }
    }

    /** The part of Connect up to the wait. */
    method Connect(accepted: bool, created: bool, ghost s: State)
      requires Is(s)
      modifies this
      ensures Is(AfterConnect(s, accepted, created))
    {
      if !isRunning || isConnected || connectPending {
        return;
      }
      connectPending, connectSuccess, lastConnectError := true, false, 0;
      pendingIo := pendingIo + 1;
      if accepted {
        posted := posted + multiset{Op(ConnectOp, socketGeneration)};
      } else {
        pendingIo := pendingIo - 1;
        connectPending, connectSuccess, lastConnectError := false, false, ABORTED;
        isConnected := false;
        ReInit(created, s.(connectPending := false, connectSuccess := false, lastError := ABORTED));
      }
    }

    method SubmitRead(accepted: bool, benign: bool, ghost s: State)
      requires Is(s)
      modifies this
      ensures Is(AfterSubmitRead(s, accepted, benign))
    {
      if !isRunning || !isConnected {
        return;
      }
      pendingIo := pendingIo + 1;
      if accepted {
        posted := posted + multiset{Op(ReadOp, socketGeneration)};
      } else {
        pendingIo := pendingIo - 1;
        HandleClose(!benign, s);
      }
    }

    method HandleConnect(gen: nat, error: nat, created: bool, accepted: bool, benign: bool, ghost s: State)
      requires Is(s)
      modifies this
      ensures Is(AfterHandleConnect(s, gen, error, created, accepted, benign))
    {
      if gen != socketGeneration {
        return;
      }
      var success := error == 0;
      connectPending, connectSuccess, lastConnectError, isConnected := false, success, error, success;
      ghost var s' := s.(connectPending := false, connectSuccess := success, lastError := error, connected := success);
      if !success {
        ReInit(created, s');
        return;
      }
      calls := calls + [Connected];
      SubmitRead(accepted, benign, s'.(log := s.log + [Connected]));
    }

    /** The part of HandleReceive up to the listener; `more` says that the listener was called. */
    method HandleReceive(gen: nat, bytes: nat, error: nat, expected: bool, ghost s: State) returns (more: bool)
      requires Is(s)
      modifies this
      ensures Is(AfterHandleReceive(s, gen, bytes, error, expected))
      ensures more <==> gen == s.gen && error == 0 && bytes > 0
    {
      if gen != socketGeneration {
        return false;
      }
      if error != 0 {
        HandleClose(!expected, s);
        return false;
      }
      if bytes == 0 {
        HandleClose(false, s);
        return false;
      }
      calls := calls + [Received];
      return true;
    }

    method HandleSend(gen: nat, error: nat, ghost s: State)
      requires Is(s)
      modifies this
      ensures Is(AfterHandleSend(s, gen, error))
    {
      if gen != socketGeneration {
        return;
      }
      if error != 0 {
        HandleClose(true, s);
      }
    }
  }
}
