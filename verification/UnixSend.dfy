/** Sending bytes and file descriptors over a Unix stream socket (epoll back end).

    `SendWithFds` duplicates the descriptors, looks the connection up and queues a message; the
    reactor thread drains the queue with sendmsg, which may take any part of a message. The machine
    below interleaves any number of senders with that one consumer, with session removal and with
    the destruction of the handler, and lets the kernel choose every result. */
module UnixSend {
  import opened Common

  type Byte = bv8

  /** A shared data buffer; `ref` is its address, which is what pointer comparison sees. */
  datatype Buffer = Buffer(ref: nat, bytes: seq<Byte>)

  datatype Pending = Pending(data: Option<Buffer>, offset: nat, fds: seq<int>, fdsSent: bool)

  /** One byte as the peer receives it, with the descriptors that arrive with it. */
  datatype Cell = Cell(byte: Byte, fds: seq<int>)

  // ---------------------------------------------------------------- one message

  predicate HasBytes(p: Pending) {
    p.data.Some? && |p.data.value.bytes| > p.offset
  }

  /** The bytes the next sendmsg offers: what is left of the data, or one placeholder byte. */
  function Offered(p: Pending): (bytes: seq<Byte>)
    ensures bytes != []
  {
    if HasBytes(p) then p.data.value.bytes[p.offset..] else [0]
  }

  function Carried(p: Pending): seq<int> {
    if p.fdsSent then [] else p.fds
  }

  function Cells(bytes: seq<Byte>, fds: seq<int>): (cells: seq<Cell>)
    ensures |cells| == |bytes|
  {
    seq(|bytes|, i requires 0 <= i < |bytes| => Cell(bytes[i], if i == 0 then fds else []))
  }

  /** What is still to be sent of a queued message. */
  function Rest(p: Pending): seq<Cell> {
    Cells(Offered(p), Carried(p))
  }

  /** What a message should look like to the peer: its data, or one zero byte if it has none,
      with all its descriptors on the first byte. */
  function Encode(data: Option<Buffer>, fds: seq<int>): seq<Cell> {
    if data.Some? && data.value.bytes != [] then
      [Cell(data.value.bytes[0], fds)] + Cells(data.value.bytes[1..], [])
    else [Cell(0, fds)]
  }

  lemma EncodeIsRest(data: Option<Buffer>, fds: seq<int>)
    ensures Rest(Pending(data, 0, fds, false)) == Encode(data, fds)
  {
    var rest, encoded := Rest(Pending(data, 0, fds, false)), Encode(data, fds);
    assert |rest| == |encoded|;
    forall i | 0 <= i < |rest| ensures rest[i] == encoded[i] {
    }
  }

  /** The local copy after sendmsg took n bytes. */
  function Updated(p: Pending, n: nat): Pending {
    var q := p.(fdsSent := true, fds := []);
    if HasBytes(p) then
      if p.offset + n >= |p.data.value.bytes| then q.(offset := p.offset + n, data := None)
      else q.(offset := p.offset + n)
    else q.(offset := 1)
  }

  predicate Done(p: Pending) {
    p.data.None? || |p.data.value.bytes| <= p.offset
  }

  function RestAfter(p: Pending): seq<Cell> {
    if Done(p) then [] else Rest(p)
  }

  /** The entry is as QueueSend or a partial send leaves it. */
  predicate WellFormed(p: Pending) {
    && (p.fdsSent ==> p.fds == [] && HasBytes(p))
    && (!p.fdsSent ==> p.offset == 0)
  }

  /** Whatever part sendmsg takes, the rest is exactly what the updated entry will send, and the
      descriptors go with the first byte only. */
  lemma PartialSend(p: Pending, n: nat)
    requires WellFormed(p) && 1 <= n <= |Offered(p)|
    ensures WellFormed(Updated(p, n)) || Done(Updated(p, n))
    ensures Rest(p) == Rest(p)[..n] + RestAfter(Updated(p, n))
  {
    var u := Updated(p, n);
    if HasBytes(p) && p.offset + n < |p.data.value.bytes| {
      assert Offered(u) == Offered(p)[n..];
      assert Rest(p)[n..] == Rest(u);
    } else {
      assert n == |Offered(p)|;
    }
  }

  predicate SameRef(a: Option<Buffer>, b: Option<Buffer>) {
    match (a, b)
    case (Some(x), Some(y)) => x.ref == y.ref
    case (None, None) => true
    case (_, _) => false
  }

  /** The comparison made before the front entry is replaced. */
  predicate SameEntry(a: Pending, b: Pending) {
    SameRef(a.data, b.data) && a.offset == b.offset && a.fdsSent == b.fdsSent && a.fds == b.fds
  }

  function Stream(queue: seq<Pending>): seq<Cell> {
    if queue == [] then [] else Rest(queue[0]) + Stream(queue[1..])
  }

  // ---------------------------------------------------------------- the machine

  /** A call of SendWithFds. */
  datatype Call =
    | Idle
    | Duplicating(data: Option<Buffer>, todo: seq<int>, dups: seq<int>)
    | Ready(data: Option<Buffer>, dups: seq<int>)      // about to look the session up
    | Found(data: Option<Buffer>, dups: seq<int>)      // holds the handler, about to queue
    | Cleaning(dups: seq<int>)                         // failed, closing its duplicates

  /** The consumer: ProcessSendQueue, or the destructor once the handler is being destroyed. */
  datatype Consumer =
    | Waiting
    | Copied(p: Pending)                               // front copied, lock released
    | Sent(p: Pending, next: Pending, toClose: seq<int>)
    | Dropping(toClose: seq<int>)                      // entry popped, descriptors still to close

  /** `open` are the open duplicates, `others` the descriptors this code must never close. The history:
      `msgs` are the encodings of the messages queued so far, `gone` what was sent of each one that has
      left the queue, `part` what has been sent of the front one, `dropped` the ones dropped. */
  datatype State = State(
    queue: seq<Pending>, calls: seq<Call>, consumer: Consumer, present: bool, destroyed: bool,
    open: set<int>, others: set<int>, wire: seq<Cell>,
    msgs: seq<seq<Cell>>, gone: seq<seq<Cell>>, part: seq<Cell>, dropped: set<nat>)

  datatype Event =
    | Begin(t: nat, data: Option<Buffer>, fds: seq<int>)
    | DupOk(t: nat, fd: int)
    | DupFails(t: nat)
    | DupDone(t: nat)
    | LookupFinds(t: nat)
    | LookupFails(t: nat)                // unknown session, or no handler for it
    | Push(t: nat)
    | CleanOne(t: nat)
    | CleanDone(t: nat)
    | Copy
    | Took(n: nat)                       // sendmsg takes n bytes
    | CloseOne                           // the consumer closes one descriptor
    | Commit
    | WouldBlock
    | Drop                               // sendmsg fails, or returns zero
    | DropDone
    | Forget                             // the session leaves the maps
    | Destroy
    | DestroyPop

  predicate AllIdle(calls: seq<Call>) {
    forall i :: 0 <= i < |calls| ==> calls[i] == Idle
  }

  predicate At(s: State, t: nat) {
    t < |s.calls|
  }

  predicate Enabled(s: State, e: Event) {
    match e
    case Begin(t, data, fds) =>
      At(s, t) && s.calls[t].Idle? && (fds != [] || (data.Some? && data.value.bytes != []))
    case DupOk(t, fd) =>
      && At(s, t) && s.calls[t].Duplicating? && s.calls[t].todo != [] && s.calls[t].todo[0] >= 0
      && fd >= 0 && fd !in s.open && fd !in s.others
    case DupFails(t) => At(s, t) && s.calls[t].Duplicating? && s.calls[t].todo != []
    case DupDone(t) => At(s, t) && s.calls[t].Duplicating? && s.calls[t].todo == []
    case LookupFinds(t) => At(s, t) && s.calls[t].Ready? && s.present
    case LookupFails(t) => At(s, t) && s.calls[t].Ready?
    case Push(t) => At(s, t) && s.calls[t].Found?
    case CleanOne(t) => At(s, t) && s.calls[t].Cleaning? && s.calls[t].dups != []
    case CleanDone(t) => At(s, t) && s.calls[t].Cleaning? && s.calls[t].dups == []
    case Copy => s.consumer.Waiting? && s.queue != [] && !s.destroyed
    case Took(n) => s.consumer.Copied? && 1 <= n <= |Offered(s.consumer.p)|
    case CloseOne => (s.consumer.Sent? || s.consumer.Dropping?) && s.consumer.toClose != []
    case Commit => s.consumer.Sent? && s.consumer.toClose == []
    case WouldBlock => s.consumer.Copied?
    case Drop => s.consumer.Copied?
    case DropDone => s.consumer.Dropping? && s.consumer.toClose == []
    case Forget => true
    case Destroy =>
      !s.present && !s.destroyed && s.consumer.Waiting? && forall i :: 0 <= i < |s.calls| ==> !s.calls[i].Found?
    case DestroyPop => s.destroyed && s.consumer.Waiting? && s.queue != []
  }

  function SetCall(s: State, t: nat, c: Call): State
    requires At(s, t)
  {
    s.(calls := s.calls[t := c])
  }

  /** The front entry leaves the queue. */
  function Left(s: State): State
    requires s.queue != []
  {
    s.(queue := s.queue[1..], gone := s.gone + [s.part], part := [])
  }

  /** Pop the front entry, if there is one, and close its descriptors. */
  function PopFront(s: State): State {
    if s.queue == [] then s.(consumer := Dropping([]))
    else Left(s).(consumer := Dropping(s.queue[0].fds), dropped := s.dropped + {|s.gone|})
  }

  function CommitStep(s: State): State
    requires s.consumer.Sent?
  {
    var s' := s.(consumer := Waiting);
    if s.queue == [] || !SameEntry(s.queue[0], s.consumer.p) then s'
    else if Done(s.consumer.next) then Left(s').(consumer := Waiting)
    else s'.(queue := s.queue[0 := s.consumer.next])
  }

  function CallStep(s: State, e: Event): State
    requires Enabled(s, e)
    requires e.Begin? || e.DupOk? || e.DupFails? || e.DupDone? || e.LookupFinds? || e.LookupFails?
             || e.Push? || e.CleanOne? || e.CleanDone?
  {
    var c := s.calls[e.t];
    match e
    case Begin(t, data, fds) => SetCall(s, t, Duplicating(data, fds, []))
    case DupOk(t, fd) =>
      SetCall(s, t, Duplicating(c.data, c.todo[1..], c.dups + [fd])).(open := s.open + {fd})
    case DupFails(t) => SetCall(s, t, Cleaning(c.dups))
    case DupDone(t) => SetCall(s, t, Ready(c.data, c.dups))
    case LookupFinds(t) => SetCall(s, t, Found(c.data, c.dups))
    case LookupFails(t) => SetCall(s, t, Cleaning(c.dups))
    case Push(t) =>
      SetCall(s, t, Idle).(queue := s.queue + [Pending(c.data, 0, c.dups, false)],
                           msgs := s.msgs + [Encode(c.data, c.dups)])
    case CleanOne(t) => SetCall(s, t, Cleaning(c.dups[1..])).(open := s.open - {c.dups[0]})
    case CleanDone(t) => SetCall(s, t, Idle)
  }

  function Step(s: State, e: Event): State
    requires Enabled(s, e)
  {
    match e
    case Copy => s.(consumer := Copied(s.queue[0]))
    case Took(n) =>
      var p := s.consumer.p;
      s.(consumer := Sent(p, Updated(p, n), p.fds), wire := s.wire + Rest(p)[..n],
           part := s.part + Rest(p)[..n])
    case CloseOne =>
      s.(consumer := s.consumer.(toClose := s.consumer.toClose[1..]), open := s.open - {s.consumer.toClose[0]})
    case Commit => CommitStep(s)
    case WouldBlock => s.(consumer := Waiting)
    case Drop => PopFront(s)
    case DropDone => s.(consumer := Waiting)
    case Forget => s.(present := false)
    case Destroy => s.(destroyed := true)
    case DestroyPop => PopFront(s)
    case _ => CallStep(s, e)
  }

  predicate ValidRun(s: State, es: seq<Event>)
    decreases |es|
  {
    es == [] || (Enabled(s, es[0]) && ValidRun(Step(s, es[0]), es[1..]))
  }

  function Final(s: State, es: seq<Event>): State
    requires ValidRun(s, es)
    decreases |es|
  {
    if es == [] then s else Final(Step(s, es[0]), es[1..])
  }

  /** A new connection with room for any number of concurrent calls. */
  predicate Initial(s: State) {
    && s.queue == [] && s.consumer == Waiting && s.present && !s.destroyed
    && AllIdle(s.calls)
    && s.open == {} && s.wire == []
    && s.msgs == [] && s.gone == [] && s.part == [] && s.dropped == {}
  }

  // ---------------------------------------------------------------- what every step keeps

  /** With one consumer the front entry stays what was copied until the consumer is done with it. */
  ghost predicate FrontHeld(s: State) {
    && (forall i :: 0 <= i < |s.queue| ==> WellFormed(s.queue[i]))
    && (s.consumer.Copied? || s.consumer.Sent? ==> s.queue != [] && s.queue[0] == s.consumer.p && !s.destroyed)
    && (s.consumer.Sent? ==>
          exists n :: 1 <= n <= |Offered(s.consumer.p)| && s.consumer.next == Updated(s.consumer.p, n))
    && (s.destroyed ==> !s.present && forall i :: 0 <= i < |s.calls| ==> !s.calls[i].Found?)
  }

  lemma FrontStep(s: State, e: Event)
    requires FrontHeld(s) && Enabled(s, e)
    ensures FrontHeld(Step(s, e))
  {
  }

  /** The check that guards the replacement of the front entry never fails. */
  lemma RecheckHolds(s: State)
    requires FrontHeld(s) && s.consumer.Sent?
    ensures s.queue != [] && SameEntry(s.queue[0], s.consumer.p)
  {
  }

  function Flat(msgs: seq<seq<Cell>>): seq<Cell> {
    if msgs == [] then [] else Flat(msgs[..|msgs| - 1]) + msgs[|msgs| - 1]
  }

  function Rests(queue: seq<Pending>): seq<seq<Cell>> {
    seq(|queue|, i requires 0 <= i < |queue| => Rest(queue[i]))
  }

  /** What is still to be sent of the front entry. */
  function FrontRest(s: State): seq<Cell>
    requires s.queue != []
  {
    if s.consumer.Sent? then RestAfter(s.consumer.next) else Rest(s.queue[0])
  }

  /** The messages still in the queue, with what was sent of the first. */
  function Here(s: State): seq<seq<Cell>> {
    if s.queue == [] then [] else [s.part + FrontRest(s)] + Rests(s.queue[1..])
  }

  /** Every message is gone or here, in order; one that is gone was sent whole, or a proper prefix of it
      was and it is among the dropped; and the wire is just what was sent of each. */
  ghost predicate MessagesHold(s: State) {
    && |s.gone| + |s.queue| == |s.msgs|
    && s.msgs[|s.gone|..] == Here(s)
    && (forall i :: 0 <= i < |s.gone| ==>
          s.gone[i] <= s.msgs[i] && (i in s.dropped <==> s.gone[i] != s.msgs[i]))
    && (forall i :: i in s.dropped ==> i < |s.gone|)
    && (s.queue == [] ==> s.part == [])
    && s.wire == Flat(s.gone) + s.part
  }

  lemma Assoc<T>(a: seq<T>, b: seq<T>, c: seq<T>)
    ensures a + (b + c) == (a + b) + c
  {
  }

  lemma MessagesPush(s: State, t: nat)
    requires MessagesHold(s) && FrontHeld(s) && Enabled(s, Push(t))
    ensures MessagesHold(Step(s, Push(t)))
  {
    var c := s.calls[t];
    var p := Pending(c.data, 0, c.dups, false);
    var e := Encode(c.data, c.dups);
    EncodeIsRest(c.data, c.dups);
    var s' := Step(s, Push(t));
    assert s'.queue == s.queue + [p] && s'.msgs == s.msgs + [e];
    HerePush(s, s', p);
    assert (s.msgs + [e])[|s.gone|..] == s.msgs[|s.gone|..] + [e];
  }

  lemma HerePush(s: State, s': State, p: Pending)
    requires s'.queue == s.queue + [p] && s'.part == s.part && s'.consumer == s.consumer
    requires s.queue == [] ==> s.part == [] && !s.consumer.Sent?
    ensures Here(s') == Here(s) + [Rest(p)]
  {
    if s.queue != [] {
      assert s'.queue[0] == s.queue[0] && s'.queue[1..] == s.queue[1..] + [p];
      assert Rests(s.queue[1..] + [p]) == Rests(s.queue[1..]) + [Rest(p)];
    } else {
      assert s'.queue == [p] && Rests(s'.queue[1..]) == [];
      assert [] + Rest(p) == Rest(p);
    }
  }

  lemma MessagesTook(s: State, n: nat)
    requires MessagesHold(s) && FrontHeld(s) && Enabled(s, Took(n))
    ensures MessagesHold(Step(s, Took(n)))
  {
    var p := s.consumer.p;
    PartialSend(p, n);
    Assoc(s.part, Rest(p)[..n], RestAfter(Updated(p, n)));
    Assoc(Flat(s.gone), s.part, Rest(p)[..n]);
    assert Here(Step(s, Took(n))) == Here(s);
  }

  /** The front entry leaves, sent whole or not. */
  lemma MessagesLeft(s: State, c: Consumer, dropped: set<nat>)
    requires MessagesHold(s) && s.queue != [] && !c.Sent?
    requires dropped == if FrontRest(s) == [] then s.dropped else s.dropped + {|s.gone|}
    ensures MessagesHold(Left(s).(consumer := c, dropped := dropped))
  {
    var s' := Left(s).(consumer := c, dropped := dropped);
    assert s.msgs[|s.gone|] == Here(s)[0] == s.part + FrontRest(s);
    assert s.msgs[|s.gone| + 1..] == s.msgs[|s.gone|..][1..] == Rests(s.queue[1..]);
    HereRests(s');
    assert s'.gone[..|s'.gone| - 1] == s.gone;
    assert Flat(s'.gone) + [] == Flat(s'.gone);
  }

  lemma HereRests(s: State)
    requires s.part == [] && !s.consumer.Sent?
    ensures Here(s) == Rests(s.queue)
  {
    if s.queue != [] {
      var front := Rest(s.queue[0]);
      assert [] + front == front;
      assert Rests(s.queue) == [front] + Rests(s.queue[1..]);
    }
  }

  lemma MessagesCommit(s: State)
    requires MessagesHold(s) && FrontHeld(s) && Enabled(s, Commit)
    ensures MessagesHold(Step(s, Commit))
  {
    RecheckHolds(s);
    if Done(s.consumer.next) {
      MessagesLeft(s, Waiting, s.dropped);
    } else {
      var s' := CommitStep(s);
      assert s'.queue[1..] == s.queue[1..];
      assert Here(s') == Here(s);
    }
  }

  lemma MessagesPop(s: State)
    requires MessagesHold(s) && (s.consumer.Copied? || s.consumer.Waiting?)
    ensures MessagesHold(PopFront(s))
  {
    if s.queue != [] {
      assert |Rest(s.queue[0])| > 0;
      MessagesLeft(s, Dropping(s.queue[0].fds), s.dropped + {|s.gone|});
    }
  }

  lemma MessagesSame(s: State, s': State)
    requires MessagesHold(s) && s'.queue == s.queue && s'.wire == s.wire
    requires s'.msgs == s.msgs && s'.gone == s.gone && s'.part == s.part && s'.dropped == s.dropped
    requires s'.consumer == s.consumer || (!s.consumer.Sent? && !s'.consumer.Sent?)
             || (s.consumer.Sent? && s'.consumer.Sent? && s'.consumer.next == s.consumer.next)
    ensures MessagesHold(s')
  {
    assert Here(s') == Here(s);
  }

  lemma ConsumerSame(s: State, e: Event)
    requires MessagesHold(s) && Enabled(s, e)
    requires e.Copy? || e.CloseOne? || e.WouldBlock? || e.DropDone? || e.Forget? || e.Destroy?
    ensures MessagesHold(Step(s, e))
  {
    MessagesSame(s, Step(s, e));
  }

  lemma CallSame(s: State, e: Event)
    requires MessagesHold(s) && Enabled(s, e)
    requires e.Begin? || e.DupOk? || e.DupFails? || e.DupDone? || e.LookupFinds? || e.LookupFails?
             || e.CleanOne? || e.CleanDone?
    ensures MessagesHold(Step(s, e))
  {
    MessagesSame(s, CallStep(s, e));
  }

  lemma MessagesStep(s: State, e: Event)
    requires MessagesHold(s) && FrontHeld(s) && Enabled(s, e)
    ensures MessagesHold(Step(s, e))
  {
    if e.Push? {
      MessagesPush(s, e.t);
    } else if e.Took? {
      MessagesTook(s, e.n);
    } else if e.Commit? {
      MessagesCommit(s);
    } else if e.Drop? || e.DestroyPop? {
      MessagesPop(s);
    } else if e.Copy? || e.CloseOne? || e.WouldBlock? || e.DropDone? || e.Forget? || e.Destroy? {
      ConsumerSame(s, e);
    } else {
      CallSame(s, e);
    }
  }

  // ---------------------------------------------------------------- who owns the descriptors

  function CallFds(c: Call): seq<int> {
    if c.Idle? then [] else c.dups
  }

  ghost function CallBag(calls: seq<Call>): multiset<int> {
    if calls == [] then multiset{} else multiset(CallFds(calls[0])) + CallBag(calls[1..])
  }

  ghost function QueueBag(queue: seq<Pending>): multiset<int> {
    if queue == [] then multiset{} else multiset(queue[0].fds) + QueueBag(queue[1..])
  }

  /** The queue entries that still own their descriptors: not the front once it has been sent. */
  function Owning(s: State): seq<Pending> {
    if s.consumer.Sent? && s.queue != [] then s.queue[1..] else s.queue
  }

  function ConsumerFds(c: Consumer): seq<int> {
    if c.Sent? || c.Dropping? then c.toClose else []
  }

  /** Claims other than those of the calls. */
  ghost function HandlerBag(s: State): multiset<int> {
    QueueBag(Owning(s)) + multiset(ConsumerFds(s.consumer))
  }

  /** Every claim on a descriptor, with multiplicity. */
  ghost function Holdings(s: State): multiset<int> {
    CallBag(s.calls) + HandlerBag(s)
  }

  /** Every open duplicate is held exactly once, and nothing held is closed. */
  ghost predicate Linear(s: State) {
    Holdings(s) == multiset(s.open) && s.open !! s.others
  }

  lemma {:induction false} CallBagSet(calls: seq<Call>, t: nat, c: Call)
    requires t < |calls|
    ensures CallBag(calls[t := c]) + multiset(CallFds(calls[t])) == CallBag(calls) + multiset(CallFds(c))
  {
    if t == 0 {
      assert calls[0 := c][1..] == calls[1..];
    } else {
      CallBagSet(calls[1..], t - 1, c);
      assert calls[t := c][1..] == calls[1..][t - 1 := c];
      var first, was, now := multiset(CallFds(calls[0])), multiset(CallFds(calls[t])), multiset(CallFds(c));
      assert (first + CallBag(calls[t := c][1..])) + was == first + (CallBag(calls[t := c][1..]) + was);
      assert (first + CallBag(calls[1..])) + now == first + (CallBag(calls[1..]) + now);
    }
  }

  lemma {:induction false} QueueBagPush(queue: seq<Pending>, p: Pending)
    ensures QueueBag(queue + [p]) == QueueBag(queue) + multiset(p.fds)
  {
    if queue == [] {
      assert queue + [p] == [p] && [p][1..] == [];
    } else {
      QueueBagPush(queue[1..], p);
      assert (queue + [p])[1..] == queue[1..] + [p];
    }
  }

  lemma FirstOf(fds: seq<int>)
    requires fds != []
    ensures multiset(fds) == multiset{fds[0]} + multiset(fds[1..])
  {
    assert fds == [fds[0]] + fds[1..];
  }

  lemma Cancel(a: multiset<int>, b: multiset<int>, c: multiset<int>)
    requires a + c == b + c
    ensures a == b
  {
    assert a == (a + c) - c;
    assert b == (b + c) - c;
  }

  /** A call that takes the descriptors `more` on, or gives them up, changes the sum by just those. */
  lemma CallBagMore(calls: seq<Call>, t: nat, c: Call, more: multiset<int>)
    requires t < |calls|
    ensures multiset(CallFds(c)) == multiset(CallFds(calls[t])) + more ==>
              CallBag(calls[t := c]) == CallBag(calls) + more
    ensures multiset(CallFds(calls[t])) == multiset(CallFds(c)) + more ==>
              CallBag(calls) == CallBag(calls[t := c]) + more
  {
    CallBagSet(calls, t, c);
    var before, after := multiset(CallFds(calls[t])), multiset(CallFds(c));
    if after == before + more {
      assert CallBag(calls) + after == (CallBag(calls) + more) + before;
      Cancel(CallBag(calls[t := c]), CallBag(calls) + more, before);
    }
    if before == after + more {
      assert CallBag(calls[t := c]) + before == (CallBag(calls[t := c]) + more) + after;
      Cancel(CallBag(calls), CallBag(calls[t := c]) + more, after);
    }
  }

  /** A call that keeps its descriptors keeps the ownership. */
  lemma CallMoves(s: State, t: nat, c: Call)
    requires Linear(s) && At(s, t) && CallFds(c) == CallFds(s.calls[t])
    ensures Linear(SetCall(s, t, c))
  {
    CallBagMore(s.calls, t, c, multiset{});
    assert HandlerBag(SetCall(s, t, c)) == HandlerBag(s);
  }

  lemma LinearCall(s: State, e: Event)
    requires Linear(s) && Enabled(s, e)
    requires e.Begin? || e.DupFails? || e.DupDone? || e.LookupFinds? || e.LookupFails? || e.CleanDone?
    ensures Linear(Step(s, e))
  {
    CallMoves(s, e.t, CallStep(s, e).calls[e.t]);
  }

  lemma LinearDup(s: State, t: nat, fd: int)
    requires Linear(s) && Enabled(s, DupOk(t, fd))
    ensures Linear(Step(s, DupOk(t, fd)))
  {
    var c, s' := s.calls[t], Step(s, DupOk(t, fd));
    CallBagMore(s.calls, t, Duplicating(c.data, c.todo[1..], c.dups + [fd]), multiset{fd});
    Grow(CallBag(s'.calls), CallBag(s.calls), HandlerBag(s), s.open, fd);
  }

  lemma Grow(after: multiset<int>, before: multiset<int>, rest: multiset<int>, open: set<int>, fd: int)
    requires after == before + multiset{fd} && before + rest == multiset(open) && fd !in open
    ensures after + rest == multiset(open + {fd})
  {
    assert multiset(open + {fd}) == multiset(open) + multiset{fd};
  }

  lemma LinearPush(s: State, t: nat)
    requires Linear(s) && FrontHeld(s) && Enabled(s, Push(t))
    ensures Linear(Step(s, Push(t)))
  {
    var dups := multiset(s.calls[t].dups);
    CallBagMore(s.calls, t, Idle, dups);
    HandlerPush(s, t);
    var s' := Step(s, Push(t));
    assert CallBag(s.calls) + HandlerBag(s) == CallBag(s'.calls) + HandlerBag(s');
  }

  lemma HandlerPush(s: State, t: nat)
    requires FrontHeld(s) && Enabled(s, Push(t))
    ensures HandlerBag(Step(s, Push(t))) == HandlerBag(s) + multiset(s.calls[t].dups)
  {
    var s' := Step(s, Push(t));
    var p := Pending(s.calls[t].data, 0, s.calls[t].dups, false);
    QueueBagPush(Owning(s), p);
    assert Owning(s') == Owning(s) + [p];
  }

  lemma Shrink(after: multiset<int>, before: multiset<int>, rest: multiset<int>, open: set<int>, fd: int)
    requires before == after + multiset{fd} && before + rest == multiset(open)
    ensures fd in open && after + rest == multiset(open - {fd})
  {
    assert fd in multiset(open);
    assert multiset(open) == multiset(open - {fd}) + multiset{fd};
    assert before + rest == (after + rest) + multiset{fd};
    Cancel(after + rest, multiset(open - {fd}), multiset{fd});
  }

  lemma LinearClean(s: State, t: nat)
    requires Linear(s) && Enabled(s, CleanOne(t))
    ensures s.calls[t].dups[0] in s.open
    ensures Linear(Step(s, CleanOne(t)))
  {
    var c, s' := s.calls[t], Step(s, CleanOne(t));
    FirstOf(c.dups);
    CallBagMore(s.calls, t, Cleaning(c.dups[1..]), multiset{c.dups[0]});
    assert HandlerBag(s') == HandlerBag(s);
    Shrink(CallBag(s'.calls), CallBag(s.calls), HandlerBag(s), s.open, c.dups[0]);
  }

  lemma LinearClose(s: State)
    requires Linear(s) && Enabled(s, CloseOne)
    ensures s.consumer.toClose[0] in s.open
    ensures Linear(Step(s, CloseOne))
  {
    var s' := Step(s, CloseOne);
    HandlerClose(s);
    Shrink(HandlerBag(s'), HandlerBag(s), CallBag(s.calls), s.open, s.consumer.toClose[0]);
  }

  lemma HandlerClose(s: State)
    requires Enabled(s, CloseOne)
    ensures HandlerBag(s) == HandlerBag(Step(s, CloseOne)) + multiset{s.consumer.toClose[0]}
  {
    FirstOf(s.consumer.toClose);
    assert Owning(Step(s, CloseOne)) == Owning(s);
  }

  lemma LinearTook(s: State, n: nat)
    requires Linear(s) && FrontHeld(s) && Enabled(s, Took(n))
    ensures Linear(Step(s, Took(n)))
  {
    assert QueueBag(s.queue) == multiset(s.consumer.p.fds) + QueueBag(s.queue[1..]);
  }

  lemma LinearCommit(s: State)
    requires Linear(s) && FrontHeld(s) && Enabled(s, Commit)
    ensures Linear(Step(s, Commit))
  {
    RecheckHolds(s);
    if !Done(s.consumer.next) {
      var queue' := s.queue[0 := s.consumer.next];
      assert queue'[1..] == s.queue[1..];
      assert s.consumer.next.fds == [];
      assert QueueBag(queue') == multiset([]) + QueueBag(s.queue[1..]);
    }
  }

  lemma LinearStep(s: State, e: Event)
    requires Linear(s) && FrontHeld(s) && Enabled(s, e)
    ensures Linear(Step(s, e))
  {
    match e
    case DupOk(t, fd) => LinearDup(s, t, fd);
    case Push(t) => LinearPush(s, t);
    case CleanOne(t) => LinearClean(s, t);
    case Took(n) => LinearTook(s, n);
    case CloseOne => LinearClose(s);
    case Commit => LinearCommit(s);
    case Copy =>
    case WouldBlock =>
    case Drop => LinearPop(s);
    case DropDone =>
    case Forget =>
    case Destroy =>
    case DestroyPop => LinearPop(s);
    case Begin(_, _, _) => LinearCall(s, e);
    case DupFails(_) => LinearCall(s, e);
    case DupDone(_) => LinearCall(s, e);
    case LookupFinds(_) => LinearCall(s, e);
    case LookupFails(_) => LinearCall(s, e);
    case CleanDone(_) => LinearCall(s, e);
  }

  lemma LinearPop(s: State)
    requires Linear(s) && (s.consumer.Copied? || s.consumer.Waiting?)
    ensures Linear(PopFront(s))
  {
  }

  // ---------------------------------------------------------------- whole runs

  ghost predicate Inv(s: State) {
    FrontHeld(s) && MessagesHold(s) && Linear(s)
  }

  lemma {:induction false} InvRun(s: State, es: seq<Event>)
    requires Inv(s) && ValidRun(s, es)
    ensures Inv(Final(s, es))
    decreases |es|
  {
    if es != [] {
      FrontStep(s, es[0]);
      MessagesStep(s, es[0]);
      LinearStep(s, es[0]);
      InvRun(Step(s, es[0]), es[1..]);
    }
  }

  lemma {:induction false} IdleBag(calls: seq<Call>)
    requires AllIdle(calls)
    ensures CallBag(calls) == multiset{}
  {
    if calls != [] {
      assert calls[0] == Idle;
      IdleBag(calls[1..]);
    }
  }

  lemma InitialInv(s: State)
    requires Initial(s)
    ensures Inv(s)
  {
    IdleBag(s.calls);
    assert multiset(s.open) == multiset{};
  }

  predicate Drops(e: Event) {
    e.Drop? || e.DestroyPop?
  }

  lemma DropAdds(s: State, e: Event)
    requires FrontHeld(s) && MessagesHold(s) && Enabled(s, e) && Drops(e)
    ensures |Step(s, e).dropped| == |s.dropped| + 1
  {
    assert Step(s, e) == PopFront(s) && s.queue != [];
    assert |s.gone| !in s.dropped;
  }

  lemma CallKeepsDropped(s: State, e: Event)
    requires Enabled(s, e)
    requires e.Begin? || e.DupOk? || e.DupFails? || e.DupDone? || e.LookupFinds? || e.LookupFails?
             || e.Push? || e.CleanOne? || e.CleanDone?
    ensures Step(s, e).dropped == s.dropped
  {
    assert Step(s, e) == CallStep(s, e);
  }

  lemma ConsumerKeepsDropped(s: State, e: Event)
    requires Enabled(s, e)
    requires e.Copy? || e.Took? || e.CloseOne? || e.Commit? || e.WouldBlock? || e.DropDone? || e.Forget? || e.Destroy?
    ensures Step(s, e).dropped == s.dropped
  {
  }

  lemma DroppedStep(s: State, e: Event)
    requires FrontHeld(s) && MessagesHold(s) && Enabled(s, e)
    ensures |Step(s, e).dropped| == |s.dropped| + if Drops(e) then 1 else 0
  {
    if Drops(e) {
      DropAdds(s, e);
    } else if e.Copy? || e.Took? || e.CloseOne? || e.Commit? || e.WouldBlock? || e.DropDone? || e.Forget?
              || e.Destroy? {
      ConsumerKeepsDropped(s, e);
    } else {
      CallKeepsDropped(s, e);
    }
  }

  function CountDrops(es: seq<Event>): nat {
    if es == [] then 0 else (if Drops(es[0]) then 1 else 0) + CountDrops(es[1..])
  }

  lemma {:induction false} DroppedRun(s: State, es: seq<Event>)
    requires Inv(s) && ValidRun(s, es)
    ensures |Final(s, es).dropped| == |s.dropped| + CountDrops(es)
    decreases |es|
  {
    if es != [] {
      DroppedStep(s, es[0]);
      FrontStep(s, es[0]);
      MessagesStep(s, es[0]);
      LinearStep(s, es[0]);
      DroppedRun(Step(s, es[0]), es[1..]);
    }
  }

  /** For every run of senders, consumer and kernel, what is on the wire is, message by message in the
      order of queueing, the whole encoding of every message that has left the queue undropped, a proper
      prefix of every dropped one, and what has been sent of the one in front; and each drop drops one
      message. */
  lemma WhatArrives(s: State, es: seq<Event>)
    requires Initial(s) && ValidRun(s, es)
    ensures var r := Final(s, es);
            && r.wire == Flat(r.gone) + r.part
            && |r.gone| + |r.queue| == |r.msgs|
            && (forall i :: 0 <= i < |r.gone| ==>
                  r.gone[i] <= r.msgs[i] && (r.gone[i] != r.msgs[i] <==> i in r.dropped))
            && (r.queue != [] ==> r.part <= r.msgs[|r.gone|])
            && (r.queue == [] ==> r.part == [])
            && |r.dropped| == CountDrops(es)
  {
    InitialInv(s);
    InvRun(s, es);
    DroppedRun(s, es);
    var r := Final(s, es);
    if r.queue != [] {
      assert r.msgs[|r.gone|] == Here(r)[0];
    }
  }

  /** Everything queued so far. */
  function Accepted(s: State): seq<Cell> {
    Flat(s.msgs)
  }

  /** The rest of the queue, from where the consumer is. */
  function Unsent(s: State): seq<Cell> {
    if s.queue == [] then [] else FrontRest(s) + Flat(Rests(s.queue[1..]))
  }

  lemma {:induction false} FlatConcat(a: seq<seq<Cell>>, b: seq<seq<Cell>>)
    ensures Flat(a + b) == Flat(a) + Flat(b)
    decreases |b|
  {
    if b == [] {
      assert a + b == a;
    } else {
      var front, last := b[..|b| - 1], b[|b| - 1];
      assert (a + b)[..|a + b| - 1] == a + front;
      FlatConcat(a, front);
      Assoc(Flat(a), Flat(front), last);
    }
  }

  /** Shorter parts make a shorter whole. */
  lemma {:induction false} FlatShorter(a: seq<seq<Cell>>, b: seq<seq<Cell>>)
    requires |a| == |b| && forall i :: 0 <= i < |a| ==> |a[i]| <= |b[i]|
    ensures |Flat(a)| <= |Flat(b)|
    ensures (exists i :: 0 <= i < |a| && |a[i]| < |b[i]|) ==> |Flat(a)| < |Flat(b)|
  {
    if a != [] {
      var a', b' := a[..|a| - 1], b[..|b| - 1];
      FlatShorter(a', b');
      if i :| 0 <= i < |a| && |a[i]| < |b[i]| {
        assert i < |a'| ==> |a'[i]| < |b'[i]|;
      }
    }
  }

  lemma FlatOne(cells: seq<Cell>)
    ensures Flat([cells]) == cells
  {
    assert [cells][..0] == [];
    assert [] + cells == cells;
  }

  lemma FlatHere(s: State)
    requires s.queue != []
    ensures Flat(Here(s)) == s.part + Unsent(s)
  {
    FlatConcat([s.part + FrontRest(s)], Rests(s.queue[1..]));
    FlatOne(s.part + FrontRest(s));
    Assoc(s.part, FrontRest(s), Flat(Rests(s.queue[1..])));
  }

  lemma AcceptedSplits(s: State)
    requires MessagesHold(s)
    ensures Accepted(s) == Flat(s.msgs[..|s.gone|]) + (s.part + Unsent(s))
    ensures s.wire + Unsent(s) == Flat(s.gone) + (s.part + Unsent(s))
  {
    assert s.msgs == s.msgs[..|s.gone|] + s.msgs[|s.gone|..];
    FlatConcat(s.msgs[..|s.gone|], s.msgs[|s.gone|..]);
    if s.queue != [] {
      FlatHere(s);
    }
    Assoc(Flat(s.gone), s.part, Unsent(s));
  }

  lemma CompleteIff(s: State)
    requires MessagesHold(s)
    ensures s.wire + Unsent(s) == Accepted(s) <==> s.dropped == {}
  {
    AcceptedSplits(s);
    var whole := s.msgs[..|s.gone|];
    if s.dropped == {} {
      assert s.gone == whole;
    } else {
      var i :| i in s.dropped;
      assert |s.gone[i]| < |whole[i]|;
      FlatShorter(s.gone, whole);
    }
  }

  /** For every run: what is on the wire, followed by what is still queued, is the encoding of everything
      queued so far, each message's descriptors arriving with its first byte and with no other, if and
      only if no message was dropped by a failed or zero send or by the destruction of the handler. */
  lemma StreamRefinement(s: State, es: seq<Event>)
    requires Initial(s) && ValidRun(s, es)
    ensures var r := Final(s, es);
            r.wire + Unsent(r) == Accepted(r) <==> CountDrops(es) == 0
  {
    InitialInv(s);
    InvRun(s, es);
    DroppedRun(s, es);
    CompleteIff(Final(s, es));
  }

  // A message that never arrives.

  lemma {:induction false} RunSnoc(s: State, es: seq<Event>, e: Event)
    requires ValidRun(s, es) && Enabled(Final(s, es), e)
    ensures ValidRun(s, es + [e]) && Final(s, es + [e]) == Step(Final(s, es), e)
    decreases |es|
  {
    if es == [] {
      assert es + [e] == [e] && [e][1..] == [];
    } else {
      assert (es + [e])[1..] == es[1..] + [e];
      RunSnoc(Step(s, es[0]), es[1..], e);
    }
  }

  function SendCall(data: Buffer): seq<Event> {
    [] + [Begin(0, Some(data), [])] + [DupDone(0)] + [LookupFinds(0)] + [Push(0)]
  }

  lemma SendCallRun(s: State, data: Buffer)
    requires Initial(s) && |s.calls| == 1 && data.bytes != []
    ensures ValidRun(s, SendCall(data))
    ensures var r := Final(s, SendCall(data));
            && r.queue == [Pending(Some(data), 0, [], false)] && r.consumer == Waiting && !r.destroyed
            && r.msgs == [Encode(Some(data), [])] && r.wire == [] && r.part == [] && r.gone == []
  {
    var r1 := [] + [Begin(0, Some(data), [])];
    RunSnoc(s, [], Begin(0, Some(data), []));
    RunSnoc(s, r1, DupDone(0));
    RunSnoc(s, r1 + [DupDone(0)], LookupFinds(0));
    RunSnoc(s, r1 + [DupDone(0)] + [LookupFinds(0)], Push(0));
  }

  /** One send whose sendmsg fails: the queue is empty again and nothing was sent. */
  lemma DroppedMessage(s: State, data: Buffer)
    requires Initial(s) && |s.calls| == 1 && data.bytes != []
    ensures var es := SendCall(data) + [Copy] + [Drop];
            && ValidRun(s, es)
            && var r := Final(s, es);
               r.queue == [] && r.wire == [] && r.msgs == [Encode(Some(data), [])] && r.gone == [[]]
  {
    SendCallRun(s, data);
    RunSnoc(s, SendCall(data), Copy);
    RunSnoc(s, SendCall(data) + [Copy], Drop);
  }

  /** The descriptor a closing step closes. */
  predicate Closes(s: State, e: Event, fd: int) {
    && Enabled(s, e)
    && ((e.CleanOne? && fd == s.calls[e.t].dups[0]) || (e.CloseOne? && fd == s.consumer.toClose[0]))
  }

  lemma CarriedOpen(s: State, n: nat, fd: int)
    requires Linear(s) && FrontHeld(s) && Enabled(s, Took(n)) && fd in Carried(s.consumer.p)
    ensures fd in s.open
  {
    assert fd in multiset(s.queue[0].fds);
    assert fd in QueueBag(s.queue);
    assert fd in Holdings(s);
    assert fd in multiset(s.open);
  }

  lemma CloseHits(s: State, e: Event, fd: int)
    requires Linear(s) && Closes(s, e, fd)
    ensures fd in s.open && fd !in s.others && Step(s, e).open == s.open - {fd}
  {
    if e.CleanOne? {
      LinearClean(s, e.t);
    } else {
      LinearClose(s);
    }
  }

  lemma NothingLeft(s: State)
    requires Linear(s) && s.queue == [] && s.consumer.Waiting? && AllIdle(s.calls)
    ensures s.open == {}
  {
    assert Owning(s) == [] && ConsumerFds(s.consumer) == [];
    IdleBag(s.calls);
    assert Holdings(s) == multiset{};
    NoMembers(s.open);
  }

  lemma NoMembers(a: set<int>)
    requires multiset(a) == multiset{}
    ensures a == {}
  {
    forall x ensures x !in a {
      assert x !in multiset(a);
    }
  }

  /** After any run, every open duplicate has exactly one holder; a close always hits an open
      duplicate, so none is closed twice and no other descriptor is ever closed; a send attaches
      only open duplicates; and once nobody is at work nothing is left open. */
  lemma DescriptorsLinear(s: State, es: seq<Event>, e: Event, fd: int)
    requires Initial(s) && ValidRun(s, es)
    ensures var r := Final(s, es);
            && Holdings(r) == multiset(r.open)
            && (Closes(r, e, fd) ==> fd in r.open && fd !in r.others && Step(r, e).open == r.open - {fd})
            && (e.Took? && Enabled(r, e) && fd in Carried(r.consumer.p) ==> fd in r.open)
            && (r.queue == [] && r.consumer.Waiting? && AllIdle(r.calls) ==> r.open == {})
  {
    InitialInv(s);
    InvRun(s, es);
    LinearNow(Final(s, es), e, fd);
  }

  lemma LinearNow(r: State, e: Event, fd: int)
    requires Linear(r) && FrontHeld(r)
    ensures Closes(r, e, fd) ==> fd in r.open && fd !in r.others && Step(r, e).open == r.open - {fd}
    ensures e.Took? && Enabled(r, e) && fd in Carried(r.consumer.p) ==> fd in r.open
    ensures r.queue == [] && r.consumer.Waiting? && AllIdle(r.calls) ==> r.open == {}
  {
    if Closes(r, e, fd) {
      CloseHits(r, e, fd);
    }
    if e.Took? && Enabled(r, e) && fd in Carried(r.consumer.p) {
      CarriedOpen(r, e.n, fd);
    }
    if r.queue == [] && r.consumer.Waiting? && AllIdle(r.calls) {
      NothingLeft(r);
    }
  }

  /** The check before the front entry is replaced never fails in any run. */
  lemma FrontNeverChanges(s: State, es: seq<Event>)
    requires Initial(s) && ValidRun(s, es) && Final(s, es).consumer.Sent?
    ensures var r := Final(s, es); r.queue != [] && SameEntry(r.queue[0], r.consumer.p)
  {
    InitialInv(s);
    InvRun(s, es);
    RecheckHolds(Final(s, es));
  }

  // ---------------------------------------------------------------- the objects

  /** Result of one sendmsg: a count, a full socket, or a failure. */
  datatype Outcome = Returns(count: nat) | TryAgain | Fails

  datatype Handler = Handler(queue: seq<Pending>, wire: seq<Cell>, closed: seq<int>)

  function Min(a: nat, b: nat): (m: nat)
    ensures m <= a && m <= b && (m == a || m == b)
  {
    if a < b then a else b
  }

  function ValidFds(fds: seq<int>): seq<int> {
    if fds == [] then []
    else if fds[0] >= 0 then [fds[0]] + ValidFds(fds[1..])
    else ValidFds(fds[1..])
  }

  function QueueFds(queue: seq<Pending>): seq<int> {
    if queue == [] then [] else ValidFds(queue[0].fds) + QueueFds(queue[1..])
  }

  /** One turn of the send loop on a non-empty queue; `None` when the loop is left. */
  function Turn(h: Handler, o: Outcome): Option<Handler>
    requires h.queue != []
  {
    var p, behind := h.queue[0], h.queue[1..];
    var dropped := Handler(behind, h.wire, h.closed + ValidFds(p.fds));
    match o
    case TryAgain => None
    case Fails => None
    case Returns(count) =>
      if count == 0 then Some(dropped)
      else
        var n := Min(count, |Offered(p)|);
        var u := Updated(p, n);
        Some(Handler((if Done(u) then [] else [u]) + behind, h.wire + Rest(p)[..n], h.closed + ValidFds(p.fds)))
  }

  /** The send loop, given what the kernel answers; it stops when the answers run out. */
  function Process(h: Handler, kernel: seq<Outcome>): Handler
    decreases |kernel|
  {
    if h.queue == [] || kernel == [] then h
    else if kernel[0].Fails? then
      Handler(h.queue[1..], h.wire, h.closed + ValidFds(h.queue[0].fds))
    else
      match Turn(h, kernel[0])
      case None => h
      case Some(h') => Process(h', kernel[1..])
  }

  ghost predicate AllWellFormed(queue: seq<Pending>) {
    forall i :: 0 <= i < |queue| ==> WellFormed(queue[i])
  }

  lemma TurnCloses(h: Handler, o: Outcome)
    requires AllWellFormed(h.queue) && h.queue != [] && Turn(h, o).Some?
    ensures var h' := Turn(h, o).value;
            AllWellFormed(h'.queue) && h'.closed + QueueFds(h'.queue) == h.closed + QueueFds(h.queue)
  {
    var p, behind, h' := h.queue[0], h.queue[1..], Turn(h, o).value;
    Assoc(h.closed, ValidFds(p.fds), QueueFds(behind));
    assert AllWellFormed(behind);
    if o.count > 0 {
      var u := Updated(p, Min(o.count, |Offered(p)|));
      PartialSend(p, Min(o.count, |Offered(p)|));
      PutBack(u, behind);
      assert u.fds == [];
    }
  }

  /** What is put back after a partial send has no descriptors to close. */
  lemma PutBack(u: Pending, behind: seq<Pending>)
    requires AllWellFormed(behind) && (WellFormed(u) || Done(u)) && u.fds == []
    ensures var queue := (if Done(u) then [] else [u]) + behind;
            AllWellFormed(queue) && QueueFds(queue) == QueueFds(behind)
  {
    if Done(u) {
      assert [] + behind == behind;
    } else {
      assert ([u] + behind)[1..] == behind;
    }
  }

  lemma TurnStreams(h: Handler, o: Outcome)
    requires AllWellFormed(h.queue) && h.queue != [] && o.Returns? && o.count > 0
    ensures var h' := Turn(h, o).value;
            h'.wire + Stream(h'.queue) == h.wire + Stream(h.queue)
  {
    var p, behind, h' := h.queue[0], h.queue[1..], Turn(h, o).value;
    var n := Min(o.count, |Offered(p)|);
    var u := Updated(p, n);
    PartialSend(p, n);
    assert Stream(h'.queue) == RestAfter(u) + Stream(behind) by {
      if Done(u) {
        assert h'.queue == behind;
      } else {
        assert h'.queue == [u] + behind && h'.queue[1..] == behind;
      }
    }
    Assoc(Rest(p)[..n], RestAfter(u), Stream(behind));
    Assoc(h.wire, Rest(p)[..n], RestAfter(u) + Stream(behind));
  }

  /** However the kernel splits the messages: the loop closes the descriptors of each message
      exactly once and in queue order, and unless a send fails or returns zero, the bytes sent
      followed by the bytes still queued are what they were. */
  lemma {:induction false} ProcessKeeps(h: Handler, kernel: seq<Outcome>)
    requires AllWellFormed(h.queue)
    ensures var h' := Process(h, kernel);
            && AllWellFormed(h'.queue)
            && h'.closed + QueueFds(h'.queue) == h.closed + QueueFds(h.queue)
            && ((forall i :: 0 <= i < |kernel| ==> kernel[i] != Fails && kernel[i] != Returns(0)) ==>
                  h'.wire + Stream(h'.queue) == h.wire + Stream(h.queue))
    decreases |kernel|
  {
    if h.queue != [] && kernel != [] {
      Assoc(h.closed, ValidFds(h.queue[0].fds), QueueFds(h.queue[1..]));
      if Turn(h, kernel[0]).Some? {
        TurnCloses(h, kernel[0]);
        if kernel[0] != Returns(0) {
          TurnStreams(h, kernel[0]);
        }
        ProcessKeeps(Turn(h, kernel[0]).value, kernel[1..]);
        assert kernel[1..] == [] || kernel[1..][0] == kernel[1];
      }
    }
  }

  // What the loop comes to, message by message.

  /** What goes out, and what is left, of messages still to be sent, if the kernel gives these answers: each
      takes a first part of the message in front, or drops it, or ends the loop. */
  function Transfer(msgs: seq<seq<Cell>>, kernel: seq<Outcome>): (seq<Cell>, seq<seq<Cell>>)
    decreases |kernel|
  {
    if msgs == [] || kernel == [] then ([], msgs)
    else
      match kernel[0]
      case TryAgain => ([], msgs)
      case Fails => ([], msgs[1..])
      case Returns(count) =>
        var n := Min(count, |msgs[0]|);
        var left := if 0 < n < |msgs[0]| then [msgs[0][n..]] + msgs[1..] else msgs[1..];
        var (sent, rest) := Transfer(left, kernel[1..]);
        (msgs[0][..n] + sent, rest)
  }

  lemma TurnTransfers(h: Handler, count: nat)
    requires AllWellFormed(h.queue) && h.queue != []
    ensures var h' := Turn(h, Returns(count)).value;
            var first, behind := Rest(h.queue[0]), Rests(h.queue[1..]);
            var n := Min(count, |first|);
            && AllWellFormed(h'.queue)
            && h'.wire == h.wire + first[..n]
            && Rests(h'.queue) == (if 0 < n < |first| then [first[n..]] + behind else behind)
  {
    var p, h' := h.queue[0], Turn(h, Returns(count)).value;
    TurnCloses(h, Returns(count));
    if count > 0 {
      var n := Min(count, |Offered(p)|);
      var u := Updated(p, n);
      PartialSend(p, n);
      assert Rest(p)[n..] == RestAfter(u);
      if Done(u) {
        assert h'.queue == [] + h.queue[1..] == h.queue[1..];
      } else {
        assert Rests([u] + h.queue[1..]) == [Rest(u)] + Rests(h.queue[1..]);
      }
    } else {
      assert h.wire + Rest(p)[..0] == h.wire;
    }
  }

  /** The loop, with its offsets, flags and placeholder bytes, does to the queue just what the answers do to
      the plain messages. */
  lemma {:induction false} ProcessTransfers(h: Handler, kernel: seq<Outcome>)
    requires AllWellFormed(h.queue)
    ensures var (sent, left) := Transfer(Rests(h.queue), kernel);
            Process(h, kernel).wire == h.wire + sent && Rests(Process(h, kernel).queue) == left
    decreases |kernel|
  {
    if h.queue != [] {
      var behind := h.queue[1..];
      assert Rests(h.queue) == [Rest(h.queue[0])] + Rests(behind);
      assert Rests(h.queue)[1..] == Rests(behind);
      if kernel != [] && kernel[0].Returns? {
        TurnTransfers(h, kernel[0].count);
        var h' := Turn(h, kernel[0]).value;
        ProcessTransfers(h', kernel[1..]);
        var n := Min(kernel[0].count, |Rest(h.queue[0])|);
        Assoc(h.wire, Rest(h.queue[0])[..n], Transfer(Rests(h'.queue), kernel[1..]).0);
      }
    }
  }

  lemma TurnShrinks(h: Handler, o: Outcome)
    requires AllWellFormed(h.queue) && h.queue != [] && o.Returns? && o.count > 0
    ensures |Stream(Turn(h, o).value.queue)| < |Stream(h.queue)|
  {
    TurnStreams(h, o);
    assert |Turn(h, o).value.wire| > |h.wire|;
    assert |h.wire + Stream(h.queue)| == |h.wire| + |Stream(h.queue)|;
  }

  /** Sends that always take something empty the queue in at most as many rounds as there are bytes to send:
      every byte is then on the wire and every descriptor closed, in order. */
  lemma {:induction false} ProcessSends(h: Handler, kernel: seq<Outcome>)
    requires AllWellFormed(h.queue)
    requires forall i :: 0 <= i < |kernel| ==> kernel[i].Returns? && kernel[i].count > 0
    requires |kernel| >= |Stream(h.queue)|
    ensures Process(h, kernel) == Handler([], h.wire + Stream(h.queue), h.closed + QueueFds(h.queue))
    decreases |kernel|
  {
    if h.queue != [] {
      assert |Rest(h.queue[0])| > 0;
      var h' := Turn(h, kernel[0]).value;
      TurnShrinks(h, kernel[0]);
      TurnStreams(h, kernel[0]);
      TurnCloses(h, kernel[0]);
      ProcessSends(h', kernel[1..]);
    }
  }

  // And it is a run of the machine.

  function Answer(e: Event): seq<Event> {
    if e.Took? || e.WouldBlock? || e.Drop? then [e] else []
  }

  /** The answers of the kernel in a run. */
  function Answers(es: seq<Event>): seq<Event> {
    if es == [] then [] else Answer(es[0]) + Answers(es[1..])
  }

  /** The event is the outcome of one sendmsg; a count above what was offered is cut. */
  predicate Matches(e: Event, o: Outcome) {
    match o
    case TryAgain => e == WouldBlock
    case Fails => e == Drop
    case Returns(count) => if count == 0 then e == Drop else e.Took? && e.n <= count
  }

  lemma {:induction false} RunConcat(s: State, a: seq<Event>, b: seq<Event>)
    requires ValidRun(s, a) && ValidRun(Final(s, a), b)
    ensures ValidRun(s, a + b) && Final(s, a + b) == Final(Final(s, a), b)
    decreases |a|
  {
    if a == [] {
      assert a + b == b;
    } else {
      assert (a + b)[1..] == a[1..] + b;
      RunConcat(Step(s, a[0]), a[1..], b);
    }
  }

  lemma {:induction false} AnswersConcat(a: seq<Event>, b: seq<Event>)
    ensures Answers(a + b) == Answers(a) + Answers(b)
  {
    if a == [] {
      assert a + b == b;
    } else {
      AnswersConcat(a[1..], b);
      assert (a + b)[1..] == a[1..] + b;
      Assoc(Answer(a[0]), Answers(a[1..]), Answers(b));
    }
  }

  lemma RunFirst(s: State, e: Event, rest: seq<Event>)
    requires Enabled(s, e) && ValidRun(Step(s, e), rest)
    ensures ValidRun(s, [e] + rest) && Final(s, [e] + rest) == Final(Step(s, e), rest)
    ensures Answers([e] + rest) == Answer(e) + Answers(rest)
  {
    assert ([e] + rest)[1..] == rest;
  }

  function Closed(s: State, fds: seq<int>): State {
    s.(open := s.open - set fd | fd in fds)
  }

  function WithConsumer(s: State, c: Consumer): State {
    s.(consumer := c)
  }

  lemma ClosedFirst(open: set<int>, fds: seq<int>)
    requires fds != []
    ensures (open - {fds[0]}) - (set fd | fd in fds[1..]) == open - (set fd | fd in fds)
  {
    assert fds == [fds[0]] + fds[1..];
  }

  /** The consumer closes all it has to close. */
  lemma {:induction false} CloseRun(s: State, fds: seq<int>) returns (es: seq<Event>)
    requires (s.consumer.Sent? || s.consumer.Dropping?) && s.consumer.toClose == fds
    ensures ValidRun(s, es) && Answers(es) == []
    ensures Final(s, es) == WithConsumer(Closed(s, fds), s.consumer.(toClose := []))
    decreases |fds|
  {
    es := [];
    if fds == [] {
      assert s.open - (set fd | fd in fds) == s.open;
    } else {
      var rest := CloseRun(Step(s, CloseOne), fds[1..]);
      RunFirst(s, CloseOne, rest);
      es := [CloseOne] + rest;
      ClosedFirst(s.open, fds);
    }
  }

  lemma {:induction false} AllValid(fds: seq<int>)
    requires forall i :: 0 <= i < |fds| ==> fds[i] >= 0
    ensures ValidFds(fds) == fds
  {
    if fds != [] {
      AllValid(fds[1..]);
      assert fds == [fds[0]] + fds[1..];
    }
  }

  lemma {:induction false} FrontRun(s: State, es: seq<Event>)
    requires FrontHeld(s) && ValidRun(s, es)
    ensures FrontHeld(Final(s, es))
    decreases |es|
  {
    if es != [] {
      FrontStep(s, es[0]);
      FrontRun(Step(s, es[0]), es[1..]);
    }
  }

  /** Duplicates are never negative. */
  ghost predicate NotNegative(queue: seq<Pending>) {
    forall i, j :: 0 <= i < |queue| && 0 <= j < |queue[i].fds| ==> queue[i].fds[j] >= 0
  }

  /** The machine is where the handler is, the consumer between two rounds. */
  ghost predicate On(s: State, h: Handler, open: set<int>) {
    && s.queue == h.queue && s.wire == h.wire && s.open == open - (set fd | fd in h.closed)
    && s.consumer == Waiting && !s.destroyed && FrontHeld(s) && NotNegative(s.queue)
  }

  lemma ClosedMore(s: State, h: Handler, open: set<int>)
    requires On(s, h, open) && h.queue != []
    ensures ValidFds(h.queue[0].fds) == h.queue[0].fds
    ensures Closed(s, h.queue[0].fds).open == open - set fd | fd in h.closed + ValidFds(h.queue[0].fds)
  {
    AllValid(h.queue[0].fds);
  }

  /** One turn from Took to Commit, closing in between. */
  lemma TookRun(s: State, n: nat) returns (es: seq<Event>)
    requires s.consumer.Copied? && 1 <= n <= |Offered(s.consumer.p)|
    requires s.queue != [] && s.queue[0] == s.consumer.p
    ensures ValidRun(s, es) && Answers(es) == [Took(n)]
    ensures var r, p := Final(s, es), s.consumer.p;
            var u := Updated(p, n);
            && r.queue == (if Done(u) then [] else [u]) + s.queue[1..]
            && r.wire == s.wire + Rest(p)[..n] && r.open == Closed(s, p.fds).open
            && r.consumer == Waiting && r.destroyed == s.destroyed && r.calls == s.calls
  {
    var s1 := Step(s, Took(n));
    var closes := CloseRun(s1, s.consumer.p.fds);
    var s2 := Final(s1, closes);
    RunFirst(s2, Commit, []);
    RunConcat(s1, closes, [Commit] + []);
    AnswersConcat(closes, [Commit] + []);
    RunFirst(s, Took(n), closes + ([Commit] + []));
    es := [Took(n)] + (closes + ([Commit] + []));
    Committed(s2);
  }

  lemma Committed(s: State)
    requires s.consumer.Sent? && s.queue != [] && s.queue[0] == s.consumer.p
    ensures CommitStep(s).queue == (if Done(s.consumer.next) then [] else [s.consumer.next]) + s.queue[1..]
  {
    assert [] + s.queue[1..] == s.queue[1..];
    assert s.queue[0 := s.consumer.next] == [s.consumer.next] + s.queue[1..];
  }

  lemma SendIsRun(s: State, h: Handler, open: set<int>, count: nat) returns (es: seq<Event>)
    requires On(s, h, open) && h.queue != [] && count > 0
    ensures ValidRun(s, es) && Answers(es) == [Took(Min(count, |Offered(h.queue[0])|))]
    ensures On(Final(s, es), Turn(h, Returns(count)).value, open) && Final(s, es).calls == s.calls
  {
    var n := Min(count, |Offered(h.queue[0])|);
    var rest := TookRun(Step(s, Copy), n);
    RunFirst(s, Copy, rest);
    es := [Copy] + rest;
    FrontRun(s, es);
    ClosedMore(s, h, open);
    NoneNegative(h.queue, Updated(h.queue[0], n));
  }

  lemma NoneNegative(queue: seq<Pending>, u: Pending)
    requires NotNegative(queue) && queue != [] && u.fds == []
    ensures NotNegative((if Done(u) then [] else [u]) + queue[1..])
  {
  }

  /** A send that fails or takes nothing drops the front entry. */
  lemma DropIsRun(s: State, h: Handler, open: set<int>) returns (es: seq<Event>)
    requires On(s, h, open) && h.queue != []
    ensures ValidRun(s, es) && Answers(es) == [Drop]
    ensures On(Final(s, es), Handler(h.queue[1..], h.wire, h.closed + ValidFds(h.queue[0].fds)), open)
    ensures Final(s, es).calls == s.calls
  {
    var s1 := Step(s, Copy);
    var s2 := Step(s1, Drop);
    var closes := CloseRun(s2, h.queue[0].fds);
    var s3 := Final(s2, closes);
    RunFirst(s3, DropDone, []);
    RunConcat(s2, closes, [DropDone] + []);
    AnswersConcat(closes, [DropDone] + []);
    RunFirst(s1, Drop, closes + ([DropDone] + []));
    RunFirst(s, Copy, [Drop] + (closes + ([DropDone] + [])));
    es := [Copy] + ([Drop] + (closes + ([DropDone] + [])));
    FrontRun(s, es);
    ClosedMore(s, h, open);
  }

  lemma BlockIsRun(s: State, h: Handler, open: set<int>) returns (es: seq<Event>)
    requires On(s, h, open) && h.queue != []
    ensures ValidRun(s, es) && Answers(es) == [WouldBlock]
    ensures On(Final(s, es), h, open) && Final(s, es).calls == s.calls
  {
    var s1 := Step(s, Copy);
    RunFirst(s1, WouldBlock, []);
    RunFirst(s, Copy, [WouldBlock] + []);
    es := [Copy] + ([WouldBlock] + []);
    FrontRun(s, es);
  }

  /** The answer at which the loop is left. */
  predicate Ends(o: Outcome) {
    o.TryAgain? || o.Fails?
  }

  lemma TurnIsRun(s: State, h: Handler, open: set<int>, o: Outcome) returns (es: seq<Event>)
    requires On(s, h, open) && h.queue != []
    ensures ValidRun(s, es) && |Answers(es)| == 1 && Matches(Answers(es)[0], o)
    ensures o.Returns? ==> On(Final(s, es), Turn(h, o).value, open)
    ensures Ends(o) ==> On(Final(s, es), Process(h, [o]), open)
    ensures Final(s, es).calls == s.calls
  {
    match o
    case TryAgain => es := BlockIsRun(s, h, open);
    case Fails => es := DropIsRun(s, h, open);
    case Returns(count) =>
      if count == 0 {
        es := DropIsRun(s, h, open);
      } else {
        es := SendIsRun(s, h, open, count);
      }
  }

  /** The kernel is asked until the queue is empty, the answers are used up, or one of them ends the loop, and
      not again after that. */
  ghost predicate Asked(asks: seq<Event>, kernel: seq<Outcome>, empty: bool) {
    && |asks| <= |kernel|
    && (forall i :: 0 <= i < |asks| ==> Matches(asks[i], kernel[i]))
    && (forall i :: 0 <= i < |asks| - 1 ==> !Ends(kernel[i]))
    && (|asks| < |kernel| ==> empty || (asks != [] && Ends(kernel[|asks| - 1])))
  }

  lemma AskedMore(first: seq<Event>, rest: seq<Event>, kernel: seq<Outcome>, empty: bool)
    requires kernel != [] && !Ends(kernel[0]) && |first| == 1 && Matches(first[0], kernel[0])
    requires Asked(rest, kernel[1..], empty)
    ensures Asked(first + rest, kernel, empty)
  {
    assert forall i :: 1 <= i < |kernel| ==> kernel[i] == kernel[1..][i - 1];
  }

  /** The loop is a run of the consumer alone, in which the kernel gives these answers. */
  lemma {:induction false} ProcessIsRun(s: State, h: Handler, open: set<int>, kernel: seq<Outcome>)
    returns (es: seq<Event>)
    requires On(s, h, open)
    ensures ValidRun(s, es) && On(Final(s, es), Process(h, kernel), open) && Final(s, es).calls == s.calls
    ensures Asked(Answers(es), kernel, Process(h, kernel).queue == [])
    decreases |kernel|
  {
    es := [];
    if h.queue != [] && kernel != [] {
      es := TurnIsRun(s, h, open, kernel[0]);
      if kernel[0].Returns? {
        var h' := Turn(h, kernel[0]).value;
        var rest := ProcessIsRun(Final(s, es), h', open, kernel[1..]);
        RunConcat(s, es, rest);
        AnswersConcat(es, rest);
        AskedMore(Answers(es), Answers(rest), kernel, Process(h', kernel[1..]).queue == []);
        es := es + rest;
      }
    }
  }

  // Whole calls of SendWithFds, from Begin to the end.

  function Reserved(s: State, t: nat, c: Call, fds: seq<int>): State
    requires At(s, t)
  {
    SetCall(s, t, c).(open := s.open + set fd | fd in fds)
  }

  /** Duplicates the kernel may hand out: new, different numbers. */
  ghost predicate Fresh(s: State, news: seq<int>) {
    NoDup(news) && forall i :: 0 <= i < |news| ==> news[i] >= 0 && news[i] !in s.open && news[i] !in s.others
  }

  lemma FreshRest(s: State, t: nat, c: Call, news: seq<int>)
    requires At(s, t) && Fresh(s, news) && news != []
    ensures Fresh(Reserved(s, t, c, [news[0]]), news[1..])
  {
  }

  lemma ReservedMore(s: State, t: nat, c: Call, d: Call, news: seq<int>)
    requires At(s, t) && news != []
    ensures Reserved(Reserved(s, t, c, [news[0]]), t, d, news[1..]) == Reserved(s, t, d, news)
  {
    assert news == [news[0]] + news[1..];
    assert (set fd | fd in [news[0]]) + (set fd | fd in news[1..]) == set fd | fd in news;
    assert s.calls[t := c][t := d] == s.calls[t := d];
  }

  lemma DupStep(s: State, t: nat, data: Option<Buffer>, todo: seq<int>, dups: seq<int>, fd: int)
    requires Enabled(s, DupOk(t, fd)) && s.calls[t] == Duplicating(data, todo, dups)
    ensures Step(s, DupOk(t, fd)) == Reserved(s, t, Duplicating(data, todo[1..], dups + [fd]), [fd])
  {
  }

  lemma ReservedNone(s: State, t: nat, data: Option<Buffer>, todo: seq<int>, dups: seq<int>)
    requires At(s, t) && s.calls[t] == Duplicating(data, todo, dups)
    ensures Reserved(s, t, Duplicating(data, todo[0..], dups + []), []) == s
  {
    assert dups + [] == dups && todo[0..] == todo;
    assert s.calls[t := s.calls[t]] == s.calls;
  }

  lemma DupRest(todo: seq<int>, dups: seq<int>, news: seq<int>)
    requires 0 < |news| <= |todo|
    ensures dups + [news[0]] + news[1..] == dups + news && todo[1..][|news| - 1..] == todo[|news|..]
  {
  }

  lemma {:induction false} DupRun(s: State, t: nat, data: Option<Buffer>, todo: seq<int>, dups: seq<int>,
                                  news: seq<int>)
    returns (es: seq<Event>)
    requires At(s, t) && s.calls[t] == Duplicating(data, todo, dups)
    requires Fresh(s, news) && |news| <= |todo| && forall i :: 0 <= i < |news| ==> todo[i] >= 0
    ensures ValidRun(s, es)
    ensures Final(s, es) == Reserved(s, t, Duplicating(data, todo[|news|..], dups + news), news)
    decreases |news|
  {
    es := [];
    if news == [] {
      ReservedNone(s, t, data, todo, dups);
    } else {
      var c := Duplicating(data, todo[1..], dups + [news[0]]);
      DupStep(s, t, data, todo, dups, news[0]);
      FreshRest(s, t, c, news);
      var rest := DupRun(Reserved(s, t, c, [news[0]]), t, data, todo[1..], dups + [news[0]], news[1..]);
      RunFirst(s, DupOk(t, news[0]), rest);
      es := [DupOk(t, news[0])] + rest;
      DupRest(todo, dups, news);
      ReservedMore(s, t, c, Duplicating(data, todo[|news|..], dups + news), news);
    }
  }

  lemma {:induction false} CleanRun(s: State, t: nat, dups: seq<int>) returns (es: seq<Event>)
    requires At(s, t) && s.calls[t] == Cleaning(dups)
    ensures ValidRun(s, es) && Final(s, es) == Closed(SetCall(s, t, Idle), dups)
    decreases |dups|
  {
    if dups == [] {
      RunFirst(s, CleanDone(t), []);
      es := [CleanDone(t)] + [];
      assert s.open - (set fd | fd in dups) == s.open;
    } else {
      var rest := CleanRun(Step(s, CleanOne(t)), t, dups[1..]);
      RunFirst(s, CleanOne(t), rest);
      es := [CleanOne(t)] + rest;
      ClosedFirst(s.open, dups);
    }
  }

  /** A call whose duplicates are made, and what it does next. */
  lemma Begun(s: State, t: nat, data: Option<Buffer>, fds: seq<int>, news: seq<int>) returns (es: seq<Event>)
    requires Enabled(s, Begin(t, data, fds)) && Fresh(s, news)
    requires |news| <= |fds| && forall i :: 0 <= i < |news| ==> fds[i] >= 0
    ensures ValidRun(s, es)
    ensures Final(s, es) == Reserved(s, t, Duplicating(data, fds[|news|..], news), news)
  {
    var s' := Step(s, Begin(t, data, fds));
    var rest := DupRun(s', t, data, fds, [], news);
    RunFirst(s, Begin(t, data, fds), rest);
    es := [Begin(t, data, fds)] + rest;
    assert [] + news == news;
  }

  /** The call gives up: its duplicates are closed again and nothing has changed. */
  lemma GivenUp(s: State, t: nat, c: Call, news: seq<int>, fails: Event) returns (es: seq<Event>)
    requires At(s, t) && s.calls[t] == Idle && Fresh(s, news)
    requires Enabled(Reserved(s, t, c, news), fails)
    requires Step(Reserved(s, t, c, news), fails) == Reserved(s, t, Cleaning(news), news)
    ensures ValidRun(Reserved(s, t, c, news), es) && Final(Reserved(s, t, c, news), es) == s && fails in es
  {
    var rest := CleanRun(Reserved(s, t, Cleaning(news), news), t, news);
    RunFirst(Reserved(s, t, c, news), fails, rest);
    es := [fails] + rest;
    assert s.open + (set fd | fd in news) - (set fd | fd in news) == s.open;
    assert s.calls[t := Cleaning(news)][t := Idle] == s.calls;
  }

  /** If a duplicate cannot be had, SendWithFds leaves everything as it was. */
  lemma FailedDuplication(s: State, t: nat, data: Option<Buffer>, fds: seq<int>, news: seq<int>)
    returns (es: seq<Event>)
    requires Enabled(s, Begin(t, data, fds)) && Fresh(s, news)
    requires |news| < |fds| && forall i :: 0 <= i < |news| ==> fds[i] >= 0
    ensures ValidRun(s, es) && Final(s, es) == s && DupFails(t) in es
  {
    var first := Begun(s, t, data, fds, news);
    var rest := GivenUp(s, t, Duplicating(data, fds[|news|..], news), news, DupFails(t));
    RunConcat(s, first, rest);
    es := first + rest;
  }

  lemma ReadyAfter(s: State, t: nat, data: Option<Buffer>, fds: seq<int>, news: seq<int>) returns (es: seq<Event>)
    requires Enabled(s, Begin(t, data, fds)) && Fresh(s, news)
    requires |news| == |fds| && forall i :: 0 <= i < |fds| ==> fds[i] >= 0
    ensures ValidRun(s, es) && Final(s, es) == Reserved(s, t, Ready(data, news), news)
  {
    var first := Begun(s, t, data, fds, news);
    var begun := Final(s, first);
    RunFirst(begun, DupDone(t), []);
    RunConcat(s, first, [DupDone(t)] + []);
    es := first + ([DupDone(t)] + []);
  }

  /** If the session is unknown, SendWithFds leaves everything as it was. */
  lemma FailedLookup(s: State, t: nat, data: Option<Buffer>, fds: seq<int>, news: seq<int>) returns (es: seq<Event>)
    requires Enabled(s, Begin(t, data, fds)) && Fresh(s, news)
    requires |news| == |fds| && forall i :: 0 <= i < |fds| ==> fds[i] >= 0
    ensures ValidRun(s, es) && Final(s, es) == s && LookupFails(t) in es
  {
    var first := ReadyAfter(s, t, data, fds, news);
    var rest := GivenUp(s, t, Ready(data, news), news, LookupFails(t));
    RunConcat(s, first, rest);
    es := first + rest;
  }

  /** Otherwise it queues the message with its duplicates, which are open, and is over. */
  lemma QueuedCall(s: State, t: nat, data: Option<Buffer>, fds: seq<int>, news: seq<int>) returns (es: seq<Event>)
    requires Enabled(s, Begin(t, data, fds)) && Fresh(s, news) && s.present
    requires |news| == |fds| && forall i :: 0 <= i < |fds| ==> fds[i] >= 0
    ensures ValidRun(s, es)
    ensures Final(s, es) == s.(queue := s.queue + [Pending(data, 0, news, false)],
                               msgs := s.msgs + [Encode(data, news)],
                               open := s.open + set fd | fd in news)
  {
    var first := ReadyAfter(s, t, data, fds, news);
    var ready := Final(s, first);
    var found := Step(ready, LookupFinds(t));
    RunFirst(found, Push(t), []);
    RunFirst(ready, LookupFinds(t), [Push(t)] + []);
    RunConcat(s, first, [LookupFinds(t)] + ([Push(t)] + []));
    es := first + ([LookupFinds(t)] + ([Push(t)] + []));
    assert Step(found, Push(t)).calls == s.calls;
  }

  lemma {:induction false} EndsStay(s: State, es: seq<Event>)
    requires ValidRun(s, es)
    ensures (!s.present || Forget in es) ==> !Final(s, es).present
    ensures (s.destroyed || Destroy in es) ==> Final(s, es).destroyed
    decreases |es|
  {
    if es != [] {
      EndsStay(Step(s, es[0]), es[1..]);
    }
  }

  /** Once the session is forgotten no call finds it; once the handler is destroyed nothing is queued or sent. */
  lemma NothingAfterEnd(s: State, es: seq<Event>, e: Event)
    requires Initial(s) && ValidRun(s, es) && Enabled(Final(s, es), e)
    ensures Forget in es ==> !e.LookupFinds?
    ensures Destroy in es ==> !e.Push? && !e.Took? && !e.Copy?
  {
    EndsStay(s, es);
    InitialInv(s);
    InvRun(s, es);
  }

  /** Exactly the valid descriptors are closed, each as often as it is there. */
  lemma {:induction false} ValidFdsCount(fds: seq<int>, fd: int)
    ensures multiset(ValidFds(fds))[fd] == if fd >= 0 then multiset(fds)[fd] else 0
  {
    if fds != [] {
      ValidFdsCount(fds[1..], fd);
      assert fds == [fds[0]] + fds[1..];
    }
  }

  /** The handler of one connection. `wire` is what sendmsg has taken and `closed` the arguments
      of close, in order. */
  class UnixConnectionHandler {
    var sendQueue: seq<Pending>
    var wire: seq<Cell>
    var closed: seq<int>

    ghost function State(): Handler
      reads this
    {
      Handler(sendQueue, wire, closed)
    }

    constructor ()
      ensures State() == Handler([], [], [])
    {
      sendQueue, wire, closed := [], [], [];
    }

    method QueueSend(p: Pending)
      modifies this`sendQueue
      ensures sendQueue == if (p.data.None? || p.data.value.bytes == []) && p.fds == [] then old(sendQueue)
                           else old(sendQueue) + [p]
    {
      if (p.data.None? || |p.data.value.bytes| == 0) && p.fds == [] {
        return;
      }
      sendQueue := sendQueue + [p];
    }

    method CloseDescriptors(fds: seq<int>)
      modifies this`closed
      ensures closed == old(closed) + ValidFds(fds)
    {
      var i := 0;
      while i < |fds|
        invariant 0 <= i <= |fds|
        invariant closed + ValidFds(fds[i..]) == old(closed) + ValidFds(fds)
      {
        if fds[i] >= 0 {
          assert fds[i..][1..] == fds[i + 1..];
          closed := closed + [fds[i]];
        }
        assert fds[i..][1..] == fds[i + 1..];
        i := i + 1;
      }
    }

    /** Run by the destructor: the descriptors of whatever was never sent are closed, in order. */
    method ClearSendQueue()
      modifies this`sendQueue, this`closed
      ensures sendQueue == [] && closed == old(closed + QueueFds(sendQueue))
    {
      while sendQueue != []
        invariant closed + QueueFds(sendQueue) == old(closed + QueueFds(sendQueue))
        decreases |sendQueue|
      {
        CloseDescriptors(sendQueue[0].fds);
        sendQueue := sendQueue[1..];
      }
    }

    method ProcessSendQueue(kernel: seq<Outcome>)
      modifies this
      ensures State() == Process(old(State()), kernel)
    {
      var k := 0;
      while k < |kernel|
        invariant 0 <= k <= |kernel|
        invariant Process(State(), kernel[k..]) == Process(old(State()), kernel)
      {
        ghost var before := State();
        if sendQueue == [] {
          break;
        }
        var pending := sendQueue[0];
        var outcome := kernel[k];
        assert kernel[k..][0] == outcome && kernel[k..][1..] == kernel[k + 1..];
        k := k + 1;
        match outcome {
          case TryAgain =>
            assert State() == Process(old(State()), kernel);
            return;
          case Fails =>
            CloseDescriptors(sendQueue[0].fds);
            sendQueue := sendQueue[1..];
            assert State() == Process(old(State()), kernel);
            return;
          case Returns(count) =>
            if count == 0 {
              CloseDescriptors(sendQueue[0].fds);
              sendQueue := sendQueue[1..];
            } else {
              var took := Min(count, |Offered(pending)|);
              wire := wire + Rest(pending)[..took];
              var updated := Updated(pending, took);
              CloseDescriptors(pending.fds);
              if sendQueue == [] || !SameEntry(sendQueue[0], pending) {
                continue;
              }
              if Done(updated) {
                sendQueue := sendQueue[1..];
                assert sendQueue == [] + before.queue[1..];
              } else {
                sendQueue := sendQueue[0 := updated];
                assert sendQueue == [updated] + before.queue[1..];
              }
            }
            assert Some(State()) == Turn(before, outcome);
        }
      }
      assert State() == Process(State(), kernel[k..]);
    }
  }

  /** The descriptor table as UnixSocketUtils uses it. */
  class Descriptors {
    var open: set<int>

    method CleanupFds(fds: seq<int>)
      modifies this
      ensures open == old(open) - set fd | fd in fds && fd >= 0
    {
      var i := 0;
      while i < |fds|
        invariant 0 <= i <= |fds|
        invariant open == old(open) - set fd | fd in fds[..i] && fd >= 0
      {
        if fds[i] >= 0 {
          open := open - {fds[i]};
        }
        assert fds[..i + 1] == fds[..i] + [fds[i]];
        i := i + 1;
      }
    }

    /** All or nothing: `answers` is what dup would return for each descriptor, a new number or a
        negative one for failure. */
    method DuplicateFds(fds: seq<int>, answers: seq<int>) returns (dups: seq<int>)
      requires |answers| == |fds|
      requires forall i :: 0 <= i < |answers| ==> answers[i] !in open
      modifies this
      ensures if forall i :: 0 <= i < |fds| ==> fds[i] >= 0 && answers[i] >= 0
              then dups == answers && open == old(open) + set fd | fd in answers
              else dups == [] && open == old(open)
    {
      dups := [];
      var i := 0;
      while i < |fds|
        invariant 0 <= i <= |fds| && dups == answers[..i]
        invariant forall j :: 0 <= j < i ==> fds[j] >= 0 && answers[j] >= 0
        invariant open == old(open) + set fd | fd in answers[..i]
      {
        if fds[i] < 0 || answers[i] < 0 {
          CleanupFds(dups);
          assert open == old(open);
          return [];
        }
        open := open + {answers[i]};
        dups := dups + [answers[i]];
        assert answers[..i + 1] == answers[..i] + [answers[i]];
        i := i + 1;
      }
      assert answers[..i] == answers;
    }
  }
}
