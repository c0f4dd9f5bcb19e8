/** The lifetime of accepted descriptors in the epoll TCP server: accept, close and stop run on
    several threads, the kernel hands out the number of a closed descriptor again, and the reactor may
    fail to let go of one. */
module EpollServer {
  import opened Common

  type Fd = int
  type Conn = nat
  type Tid = nat

  /** Where a thread is inside HandleAccept, HandleConnectionClose or Stop, between two of its
      indivisible steps. */
  datatype Job =
    | Accepted(fd: Fd, conn: Conn)    // accept4 has returned
    | Registered(fd: Fd, conn: Conn)  // the reactor has it, the session maps do not
    | Refused(fd: Fd, conn: Conn)     // RegisterHandler failed, close is next
    | Removing(fd: Fd, conn: Conn)    // out of the session maps, RemoveHandler is next
    | Closing(fd: Fd, conn: Conn)     // RemoveHandler has returned, close is next
    | Notifying(conn: Conn)           // closed, the listener is next
    | Stopping(todo: map<Fd, Conn>)   // Stop, between two descriptors
    | StopClosing(todo: map<Fd, Conn>, fd: Fd, conn: Conn)  // this one is next to be closed

  /** `open` is the kernel's table: which connection a number stands for. Connections, here numbered
      0, 1, ... as they appear, are the identity a descriptor number lacks; `number` is the number
      each accepted one was given. `foreign` ones belong to other code of the process. `stuck` are the
      numbers the reactor failed to remove. */
  datatype State = State(
    open: map<Fd, Conn>, number: map<Conn, Fd>, foreign: set<Conn>, next: Conn,
    sessions: map<Fd, Conn>, connHandlers: map<Fd, Conn>, reactor: map<Fd, Conn>, stuck: set<Fd>,
    jobs: map<Tid, Job>, closed: seq<Conn>, notified: seq<Conn>)

  const INITIAL := State(map[], map[], {}, 0, map[], map[], map[], {}, map[], [], [])

  datatype Event =
    | Accept(t: Tid, fd: Fd)               // the kernel may pick any number not in use
    | Register(t: Tid, works: bool)        // `works`: reactor running and epoll_ctl succeeds
    | CloseRefused(t: Tid)
    | Insert(t: Tid)
    | CloseCall(t: Tid, fd: Fd)            // HandleConnectionClose enters, for any number at any time
    | RemoveDone(t: Tid, ok: bool)         // not ok: epoll_ctl fails for more than a missing entry
    | CloseDone(t: Tid)
    | Notify(t: Tid)
    | StopCall(t: Tid)
    | StopRemove(t: Tid, fd: Fd, ok: bool)
    | StopClose(t: Tid)
    | StopEnd(t: Tid)
    | ForeignOpen(fd: Fd)
    | ForeignClose(fd: Fd)

  predicate Enabled(s: State, e: Event) {
    match e
    case Accept(t, fd) => t !in s.jobs && fd !in s.open
    case Register(t, _) => t in s.jobs && s.jobs[t].Accepted?
    case CloseRefused(t) => t in s.jobs && s.jobs[t].Refused?
    case Insert(t) => t in s.jobs && s.jobs[t].Registered?
    case CloseCall(t, _) => t !in s.jobs
    case RemoveDone(t, ok) => t in s.jobs && s.jobs[t].Removing?
    case CloseDone(t) => t in s.jobs && s.jobs[t].Closing?
    case Notify(t) => t in s.jobs && s.jobs[t].Notifying?
    case StopCall(t) => t !in s.jobs
    case StopRemove(t, fd, ok) => t in s.jobs && s.jobs[t].Stopping? && fd in s.jobs[t].todo
    case StopClose(t) => t in s.jobs && s.jobs[t].StopClosing?
    case StopEnd(t) => t in s.jobs && s.jobs[t].Stopping? && s.jobs[t].todo == map[]
    case ForeignOpen(fd) => fd !in s.open
    case ForeignClose(fd) => fd in s.open && s.open[fd] in s.foreign
  }

  /** close(fd), done by the server: whatever the number stands for now is closed. */
  function Close(s: State, fd: Fd): State {
    if fd in s.open then s.(open := s.open - {fd}, closed := s.closed + [s.open[fd]]) else s
  }

  /** RemoveHandler(fd); both callers ignore its result. */
  function Remove(s: State, fd: Fd, ok: bool): State {
    if ok then s.(reactor := s.reactor - {fd}) else s.(stuck := s.stuck + {fd})
  }

  function Put(s: State, t: Tid, j: Job): State { s.(jobs := s.jobs[t := j]) }

  function Drop(s: State, t: Tid): State { s.(jobs := s.jobs - {t}) }

  function Step(s: State, e: Event): State
    requires Enabled(s, e)
  {
    match e
    case Accept(t, fd) =>
      Put(s.(open := s.open[fd := s.next], number := s.number[s.next := fd], next := s.next + 1),
          t, Accepted(fd, s.next))
    case Register(t, works) =>
      var (fd, c) := (s.jobs[t].fd, s.jobs[t].conn);
      if !works || fd in s.reactor then Put(s, t, Refused(fd, c))
      else Put(s.(reactor := s.reactor[fd := c]), t, Registered(fd, c))
    case CloseRefused(t) => Drop(Close(s, s.jobs[t].fd), t)
    case Insert(t) =>
      var (fd, c) := (s.jobs[t].fd, s.jobs[t].conn);
      Drop(s.(connHandlers := s.connHandlers[fd := c],
              sessions := if fd in s.sessions then s.sessions else s.sessions[fd := c]), t)
    case CloseCall(t, fd) =>
      if fd !in s.sessions then s
      else Put(s.(sessions := s.sessions - {fd}, connHandlers := s.connHandlers - {fd}),
               t, Removing(fd, s.sessions[fd]))
    case RemoveDone(t, ok) =>
      Put(Remove(s, s.jobs[t].fd, ok), t, Closing(s.jobs[t].fd, s.jobs[t].conn))
    case CloseDone(t) => Put(Close(s, s.jobs[t].fd), t, Notifying(s.jobs[t].conn))
    case Notify(t) => Drop(s.(notified := s.notified + [s.jobs[t].conn]), t)
    case StopCall(t) => Put(s.(sessions := map[], connHandlers := map[]), t, Stopping(s.sessions))
    case StopRemove(t, fd, ok) =>
      var todo := s.jobs[t].todo;
      Put(Remove(s, fd, ok), t, StopClosing(todo - {fd}, fd, todo[fd]))
    case StopClose(t) => Put(Close(s, s.jobs[t].fd), t, Stopping(s.jobs[t].todo))
    case StopEnd(t) => Drop(s, t)
    case ForeignOpen(fd) =>
      s.(open := s.open[fd := s.next], foreign := s.foreign + {s.next}, next := s.next + 1)
    case ForeignClose(fd) => s.(open := s.open - {fd})
  }

  predicate ValidRun(s: State, es: seq<Event>)
    decreases |es|
  {
    es == [] || (Enabled(s, es[0]) && ValidRun(Step(s, es[0]), es[1..]))
  }

  function Final(s: State, es: seq<Event>): State
    requires ValidRun(s, es)
    decreases |es|
  {
    if es == [] then s else Final(Step(s, es[0]), es[1..])
  }

  // ---------------------------------------------------------------- who holds a descriptor

  /** The descriptors a job has taken on and not closed. */
  function Holds(j: Job): map<Fd, Conn> {
    match j
    case Accepted(fd, c) => map[fd := c]
    case Registered(fd, c) => map[fd := c]
    case Refused(fd, c) => map[fd := c]
    case Removing(fd, c) => map[fd := c]
    case Closing(fd, c) => map[fd := c]
    case Notifying(_) => map[]
    case Stopping(todo) => todo
    case StopClosing(todo, fd, c) => todo[fd := c]
  }

  /** Those of them it has put, or has yet to take out of, the reactor. */
  function Live(j: Job): map<Fd, Conn> {
    match j
    case Registered(fd, c) => map[fd := c]
    case Removing(fd, c) => map[fd := c]
    case Stopping(todo) => todo
    case StopClosing(todo, _, _) => todo
    case Accepted(_, _) => map[]
    case Refused(_, _) => map[]
    case Closing(_, _) => map[]
    case Notifying(_) => map[]
  }

  /** Thread t holds the number. */
  predicate Claims(s: State, t: Tid, fd: Fd) {
    t in s.jobs && fd in Holds(s.jobs[t])
  }

  ghost predicate Fits(s: State, j: Job) {
    && (forall fd :: fd in Holds(j) ==>
          fd in s.open && s.open[fd] == Holds(j)[fd] && s.open[fd] !in s.foreign && fd !in s.sessions)
    && (j.Notifying? ==> j.conn in s.closed && j.conn !in s.notified)
    && (j.StopClosing? ==> j.fd !in j.todo)
  }

  ghost predicate Apart(j: Job, k: Job) {
    && (forall fd :: fd in Holds(j) ==> fd !in Holds(k))
    && (j.Notifying? && k.Notifying? ==> j.conn != k.conn)
  }

  /** Every thread's descriptors are open and its own; no two threads hold the same one. */
  ghost predicate JobsFit(s: State) {
    && (forall t :: t in s.jobs ==> Fits(s, s.jobs[t]))
    && (forall t, u :: t in s.jobs && u in s.jobs && t != u ==> Apart(s.jobs[t], s.jobs[u]))
  }

  ghost predicate TablesAgree(s: State) {
    && s.connHandlers == s.sessions
    && (forall fd :: fd in s.sessions ==>
          fd in s.open && s.open[fd] == s.sessions[fd] && s.open[fd] !in s.foreign)
  }

  ghost predicate Numbered(s: State) {
    && (forall fd :: fd in s.open ==> s.open[fd] < s.next && s.open[fd] !in s.closed)
    && (forall f, g :: f in s.open && g in s.open && f != g ==> s.open[f] != s.open[g])
    && (forall c :: c in s.closed ==> c < s.next && c !in s.foreign)
    && (forall c :: c in s.foreign ==> c < s.next)
    && (forall c :: c in s.notified ==> c in s.closed)
    && NoDup(s.closed) && NoDup(s.notified)
  }

  /** Numbers are given to later and later connections. */
  ghost predicate Ordered(s: State) {
    && (forall c :: c in s.number ==> c < s.next && c !in s.foreign)
    && (forall fd :: fd in s.open && s.open[fd] !in s.foreign ==>
          s.open[fd] in s.number && s.number[s.open[fd]] == fd)
    && (forall fd, c :: fd in s.open && c in s.number && s.number[c] == fd ==> c <= s.open[fd])
  }

  ghost predicate Held(s: State, fd: Fd) {
    exists t :: Claims(s, t, fd)
  }

  /** What is open and the server's own is in the session map or with a thread. */
  ghost predicate NoneLost(s: State) {
    forall fd :: fd in s.open && s.open[fd] !in s.foreign ==> fd in s.sessions || Held(s, fd)
  }

  ghost predicate IsOpen(s: State, c: Conn) {
    exists fd :: fd in s.open && s.open[fd] == c
  }

  /** Every connection accepted is still open or was closed by the server. */
  ghost predicate Accounted(s: State) {
    forall c: Conn :: c < s.next && c !in s.foreign ==> c in s.closed || IsOpen(s, c)
  }

  /** What holds whether or not the reactor lets go. */
  ghost predicate Inv(s: State) {
    JobsFit(s) && TablesAgree(s) && Numbered(s) && Ordered(s) && NoneLost(s) && Accounted(s)
  }

  // ---------------------------------------------------------------- one thread moves

  /** The tables differ at most at `fd`. */
  ghost predicate SameOff(s: State, s': State, fd: Fd) {
    && (forall g :: g != fd ==> (g in s'.open <==> g in s.open) && (g in s'.sessions <==> g in s.sessions))
    && (forall g :: g != fd && g in s.open ==> s'.open[g] == s.open[g])
    && (forall c :: c in s.closed ==> c in s'.closed)
    && (forall c :: c in s.notified <==> c in s'.notified)
  }

  lemma FitsOff(s: State, s': State, j: Job, fd: Fd)
    requires Fits(s, j) && SameOff(s, s', fd) && fd !in Holds(j)
    requires s'.foreign == s.foreign || (fd in s'.open && s'.foreign == s.foreign + {s'.open[fd]}
                                         && forall g :: g in s.open ==> s.open[g] != s'.open[fd])
    ensures Fits(s', j)
  {
  }

  /** Thread t goes from its old place, if any, to a new one that holds nothing new but fd. */
  lemma Moves(s: State, s': State, t: Tid, fd: Fd, j: Job)
    requires JobsFit(s) && SameOff(s, s', fd) && s'.foreign == s.foreign
    requires s'.jobs == s.jobs[t := j] && Fits(s', j)
    requires forall u :: u != t ==> !Claims(s, u, fd)
    requires forall g :: g in Holds(j) && g != fd ==> Claims(s, t, g)
    requires j.Notifying? ==> j.conn !in s.closed
    ensures JobsFit(s')
  {
    forall u | u in s.jobs && u != t
      ensures Fits(s', s.jobs[u]) && Apart(s.jobs[u], j) && Apart(j, s.jobs[u])
    {
      assert !Claims(s, u, fd);
      FitsOff(s, s', s.jobs[u], fd);
      if t in s.jobs {
        assert Apart(s.jobs[t], s.jobs[u]);
      }
    }
  }

  /** Thread t is done. */
  lemma Leaves(s: State, s': State, t: Tid, fd: Fd)
    requires JobsFit(s) && SameOff(s, s', fd) && s'.foreign == s.foreign && s'.jobs == s.jobs - {t}
    requires forall u :: u != t ==> !Claims(s, u, fd)
    ensures JobsFit(s')
  {
    forall u | u in s.jobs && u != t ensures Fits(s', s.jobs[u]) {
      assert !Claims(s, u, fd);
      FitsOff(s, s', s.jobs[u], fd);
    }
  }

  /** What a thread holds no other thread holds. */
  lemma OneHolder(s: State, t: Tid, fd: Fd)
    requires JobsFit(s) && Claims(s, t, fd)
    ensures forall u :: u != t ==> !Claims(s, u, fd)
  {
    forall u | u in s.jobs && u != t ensures fd !in Holds(s.jobs[u]) {
      assert Apart(s.jobs[t], s.jobs[u]);
    }
  }

  /** What is with a thread is neither in the session map nor foreign, and it is open. */
  lemma HeldIsOpen(s: State, t: Tid, fd: Fd)
    requires JobsFit(s) && Claims(s, t, fd)
    ensures fd in s.open && fd !in s.sessions && s.open[fd] !in s.foreign
  {
    assert Fits(s, s.jobs[t]);
  }

  lemma AcceptFits(s: State, e: Event)
    requires JobsFit(s) && TablesAgree(s) && Numbered(s) && Enabled(s, e) && e.Accept?
    ensures JobsFit(Step(s, e))
  {
    forall u ensures !Claims(s, u, e.fd) {
      if Claims(s, u, e.fd) { HeldIsOpen(s, u, e.fd); }
    }
    Moves(s, Step(s, e), e.t, e.fd, Accepted(e.fd, s.next));
  }

  /** A step that only moves the thread and the reactor. */
  lemma InPlace(s: State, s': State, t: Tid, j: Job)
    requires JobsFit(s) && t in s.jobs && !s.jobs[t].Notifying? && !j.Notifying?
    requires s' == s.(jobs := s.jobs[t := j], reactor := s'.reactor, stuck := s'.stuck)
    requires Holds(j) == Holds(s.jobs[t]) && (j.StopClosing? ==> j.fd !in j.todo)
    ensures JobsFit(s')
  {
    forall u | u in s.jobs && u != t
      ensures Fits(s', s.jobs[u]) && Apart(s.jobs[u], j) && Apart(j, s.jobs[u])
    {
      assert Fits(s, s.jobs[u]) && Apart(s.jobs[t], s.jobs[u]) && Apart(s.jobs[u], s.jobs[t]);
    }
    assert Fits(s, s.jobs[t]);
  }

  lemma RegisterFits(s: State, e: Event)
    requires JobsFit(s) && Enabled(s, e) && e.Register?
    ensures JobsFit(Step(s, e))
  {
    InPlace(s, Step(s, e), e.t, Step(s, e).jobs[e.t]);
  }

  lemma RemoveFits(s: State, e: Event)
    requires JobsFit(s) && Enabled(s, e) && e.RemoveDone?
    ensures JobsFit(Step(s, e))
  {
    InPlace(s, Step(s, e), e.t, Closing(s.jobs[e.t].fd, s.jobs[e.t].conn));
  }

  lemma StopRemoveFits(s: State, e: Event)
    requires JobsFit(s) && Enabled(s, e) && e.StopRemove?
    ensures JobsFit(Step(s, e))
  {
    var todo := s.jobs[e.t].todo;
    assert (todo - {e.fd})[e.fd := todo[e.fd]] == todo;
    InPlace(s, Step(s, e), e.t, StopClosing(todo - {e.fd}, e.fd, todo[e.fd]));
  }

  lemma CloseCallFits(s: State, e: Event)
    requires JobsFit(s) && TablesAgree(s) && Enabled(s, e) && e.CloseCall?
    ensures JobsFit(Step(s, e))
  {
    if e.fd in s.sessions {
      forall u ensures !Claims(s, u, e.fd) {
        if Claims(s, u, e.fd) { HeldIsOpen(s, u, e.fd); }
      }
      Moves(s, Step(s, e), e.t, e.fd, Removing(e.fd, s.sessions[e.fd]));
    }
  }

  /** The thread closes a descriptor it holds. */
  lemma Closes(s: State, t: Tid, fd: Fd, j: Job)
    requires JobsFit(s) && Numbered(s) && Claims(s, t, fd) && Holds(j) == Holds(s.jobs[t]) - {fd}
    requires !j.StopClosing? && (j.Notifying? ==> fd in s.open && j.conn == s.open[fd])
    ensures JobsFit(Put(Close(s, fd), t, j))
  {
    assert Fits(s, s.jobs[t]);
    OneHolder(s, t, fd);
    Moves(s, Put(Close(s, fd), t, j), t, fd, j);
  }

  lemma CloseFits(s: State, e: Event)
    requires JobsFit(s) && Numbered(s) && Enabled(s, e) && (e.CloseDone? || e.StopClose?)
    ensures JobsFit(Step(s, e))
  {
    var j := s.jobs[e.t];
    assert Fits(s, j) && j.fd in Holds(j);
    if e.CloseDone? {
      Closes(s, e.t, j.fd, Notifying(j.conn));
    } else {
      assert j.todo[j.fd := j.conn] - {j.fd} == j.todo;
      Closes(s, e.t, j.fd, Stopping(j.todo));
    }
  }

  lemma LeaveFits(s: State, e: Event)
    requires JobsFit(s) && Enabled(s, e) && (e.CloseRefused? || e.Insert?)
    ensures JobsFit(Step(s, e))
  {
    var fd := s.jobs[e.t].fd;
    assert Fits(s, s.jobs[e.t]) && Claims(s, e.t, fd);
    OneHolder(s, e.t, fd);
    Leaves(s, Step(s, e), e.t, fd);
  }

  lemma EndFits(s: State, e: Event)
    requires JobsFit(s) && Enabled(s, e) && (e.Notify? || e.StopEnd?)
    ensures JobsFit(Step(s, e))
  {
    forall u | u in s.jobs && u != e.t ensures Fits(Step(s, e), s.jobs[u]) {
      assert Fits(s, s.jobs[u]) && Apart(s.jobs[e.t], s.jobs[u]);
    }
  }

  lemma FitsEmptied(s: State, j: Job)
    requires Fits(s, j) && TablesAgree(s)
    ensures Fits(s.(sessions := map[], connHandlers := map[]), j)
    ensures Apart(j, Stopping(s.sessions)) && Apart(Stopping(s.sessions), j)
  {
  }

  lemma StopCallFits(s: State, e: Event)
    requires JobsFit(s) && TablesAgree(s) && Enabled(s, e) && e.StopCall?
    ensures JobsFit(Step(s, e))
  {
    var s' := s.(sessions := map[], connHandlers := map[]);
    forall u | u in s.jobs
      ensures Fits(s', s.jobs[u])
      ensures Apart(s.jobs[u], Stopping(s.sessions)) && Apart(Stopping(s.sessions), s.jobs[u])
    {
      FitsEmptied(s, s.jobs[u]);
    }
    assert Fits(s', Stopping(s.sessions));
    Joins(s', e.t, Stopping(s.sessions));
  }

  lemma Joins(s: State, t: Tid, j: Job)
    requires JobsFit(s) && Fits(s, j)
    requires forall u :: u in s.jobs && u != t ==> Apart(s.jobs[u], j) && Apart(j, s.jobs[u])
    ensures JobsFit(Put(s, t, j))
  {
    forall u | u in Put(s, t, j).jobs ensures Fits(Put(s, t, j), Put(s, t, j).jobs[u]) {
      assert Fits(s, Put(s, t, j).jobs[u]);
    }
  }

  lemma ForeignFits(s: State, e: Event)
    requires JobsFit(s) && Numbered(s) && Enabled(s, e) && (e.ForeignOpen? || e.ForeignClose?)
    ensures JobsFit(Step(s, e))
  {
    forall u | u in s.jobs ensures Fits(Step(s, e), s.jobs[u]) {
      assert Fits(s, s.jobs[u]);
      if Claims(s, u, e.fd) { HeldIsOpen(s, u, e.fd); }
      FitsOff(s, Step(s, e), s.jobs[u], e.fd);
    }
  }

  lemma JobsFitStep(s: State, e: Event)
    requires JobsFit(s) && TablesAgree(s) && Numbered(s) && Enabled(s, e)
    ensures JobsFit(Step(s, e))
  {
    match e
    case Accept(_, _) => AcceptFits(s, e);
    case Register(_, _) => RegisterFits(s, e);
    case CloseRefused(_) => LeaveFits(s, e);
    case Insert(_) => LeaveFits(s, e);
    case CloseCall(_, _) => CloseCallFits(s, e);
    case RemoveDone(_, _) => RemoveFits(s, e);
    case CloseDone(_) => CloseFits(s, e);
    case Notify(_) => EndFits(s, e);
    case StopCall(_) => StopCallFits(s, e);
    case StopRemove(_, _, _) => StopRemoveFits(s, e);
    case StopClose(_) => CloseFits(s, e);
    case StopEnd(_) => EndFits(s, e);
    case ForeignOpen(_) => ForeignFits(s, e);
    case ForeignClose(_) => ForeignFits(s, e);
  }

  // ---------------------------------------------------------------- the rest of the invariant

  lemma CloseTables(s: State, e: Event)
    requires JobsFit(s) && TablesAgree(s) && Enabled(s, e)
    requires e.CloseRefused? || e.CloseDone? || e.StopClose? || e.Insert?
    ensures TablesAgree(Step(s, e))
  {
    assert Fits(s, s.jobs[e.t]) && s.jobs[e.t].fd in Holds(s.jobs[e.t]);
  }

  lemma TablesStep(s: State, e: Event)
    requires JobsFit(s) && TablesAgree(s) && Numbered(s) && Enabled(s, e)
    ensures TablesAgree(Step(s, e))
  {
    if e.CloseRefused? || e.CloseDone? || e.StopClose? || e.Insert? {
      CloseTables(s, e);
    }
  }

  ghost predicate Names(s: State) {
    Numbered(s) && Ordered(s) && Accounted(s)
  }

  /** Closing a number of the server's own logs its connection, once. */
  lemma CloseNames(s: State, fd: Fd)
    requires Names(s) && fd in s.open && s.open[fd] !in s.foreign
    ensures Names(Close(s, fd))
  {
    var t := Close(s, fd);
    forall c: Conn | c < t.next && c !in t.foreign && c !in t.closed ensures IsOpen(t, c) {
      var g :| g in s.open && s.open[g] == c;
      assert g in t.open && t.open[g] == c;
    }
  }

  lemma CloseStepNames(s: State, e: Event)
    requires JobsFit(s) && Names(s) && Enabled(s, e) && (e.CloseRefused? || e.CloseDone? || e.StopClose?)
    ensures Names(Step(s, e))
  {
    var fd := s.jobs[e.t].fd;
    assert Fits(s, s.jobs[e.t]) && fd in Holds(s.jobs[e.t]);
    CloseNames(s, fd);
    SameNames(Close(s, fd), Step(s, e));
  }

  lemma SameNames(s: State, s': State)
    requires Names(s) && SameBook(s, s')
    ensures Names(s')
  {
    forall c: Conn | IsOpen(s, c) ensures IsOpen(s', c) {
    }
  }

  lemma OpenNames(s: State, s': State, fd: Fd)
    requires Names(s) && fd !in s.open
    requires s'.open == s.open[fd := s.next] && s'.next == s.next + 1
    requires || (s'.foreign == s.foreign && s'.number == s.number[s.next := fd])
             || (s'.foreign == s.foreign + {s.next} && s'.number == s.number)
    requires s'.closed == s.closed && s'.notified == s.notified
    ensures Names(s')
  {
    forall c: Conn | c < s'.next && c !in s'.foreign && c !in s'.closed ensures IsOpen(s', c) {
      if c == s.next {
        assert fd in s'.open;
      } else {
        var g :| g in s.open && s.open[g] == c;
        assert g in s'.open && s'.open[g] == c;
      }
    }
  }

  lemma ForeignCloseNames(s: State, e: Event)
    requires Names(s) && Enabled(s, e) && e.ForeignClose?
    ensures Names(Step(s, e))
  {
    var t := Step(s, e);
    forall c: Conn | c < t.next && c !in t.foreign && c !in t.closed ensures IsOpen(t, c) {
      var g :| g in s.open && s.open[g] == c;
      assert g in t.open && t.open[g] == c;
    }
  }

  lemma NotifyNames(s: State, e: Event)
    requires JobsFit(s) && Names(s) && Enabled(s, e) && e.Notify?
    ensures Names(Step(s, e))
  {
    var c := s.jobs[e.t].conn;
    assert Fits(s, s.jobs[e.t]);
    SameNames(s.(notified := []), Step(s, e).(notified := []));
    assert Step(s, e).notified == s.notified + [c];
    forall d: Conn | IsOpen(s, d) ensures IsOpen(Step(s, e), d) {
    }
  }

  /** Nothing is opened, closed or announced. */
  predicate SameBook(s: State, s': State) {
    && s'.open == s.open && s'.foreign == s.foreign && s'.next == s.next && s'.number == s.number
    && s'.closed == s.closed && s'.notified == s.notified
  }

  lemma RegisterIsQuiet(s: State, e: Event)
    requires Enabled(s, e) && e.Register?
    ensures SameBook(s, Step(s, e))
  {
  }

  lemma RemoveIsQuiet(s: State, e: Event)
    requires Enabled(s, e) && (e.RemoveDone? || e.StopRemove?)
    ensures SameBook(s, Step(s, e))
  {
  }

  lemma MapsAreQuiet(s: State, e: Event)
    requires Enabled(s, e) && (e.Insert? || e.CloseCall? || e.StopCall? || e.StopEnd?)
    ensures SameBook(s, Step(s, e))
  {
  }

  lemma QuietNames(s: State, e: Event)
    requires Names(s) && Enabled(s, e)
    requires e.Register? || e.Insert? || e.CloseCall? || e.RemoveDone? || e.StopCall? || e.StopRemove? || e.StopEnd?
    ensures Names(Step(s, e))
  {
    if e.Register? {
      RegisterIsQuiet(s, e);
    } else if e.RemoveDone? || e.StopRemove? {
      RemoveIsQuiet(s, e);
    } else {
      MapsAreQuiet(s, e);
    }
    SameNames(s, Step(s, e));
  }

  lemma NamesStep(s: State, e: Event)
    requires JobsFit(s) && Names(s) && Enabled(s, e)
    ensures Names(Step(s, e))
  {
    if e.Accept? || e.ForeignOpen? {
      OpenNames(s, Step(s, e), e.fd);
    } else if e.CloseRefused? || e.CloseDone? || e.StopClose? {
      CloseStepNames(s, e);
    } else if e.Notify? {
      NotifyNames(s, e);
    } else if e.ForeignClose? {
      ForeignCloseNames(s, e);
    } else {
      QuietNames(s, e);
    }
  }

  /** A thread moves, or leaves: nothing is lost if what it held, and what left the session map, is
      in the map, with the thread, or closed. */
  lemma StillHeld(s: State, s': State, t: Tid)
    requires NoneLost(s) && s.foreign <= s'.foreign
    requires forall u :: u != t ==> (u in s.jobs <==> u in s'.jobs)
    requires forall u :: u != t && u in s.jobs ==> s'.jobs[u] == s.jobs[u]
    requires forall g :: g in s'.open && s'.open[g] !in s'.foreign ==>
               (g in s.open && s.open[g] == s'.open[g]) || Claims(s', t, g)
    requires forall g :: g in s'.open && (g in s.sessions || Claims(s, t, g)) ==>
               g in s'.sessions || Claims(s', t, g)
    ensures NoneLost(s')
  {
    forall g | g in s'.open && s'.open[g] !in s'.foreign && g !in s'.sessions ensures Held(s', g) {
      if !Claims(s', t, g) {
        var u :| Claims(s, u, g);
        assert Claims(s', u, g);
      }
    }
  }

  /** Thread t goes on to j with all it held but what has been closed. */
  lemma Handover(s: State, s': State, t: Tid, j: Job)
    requires NoneLost(s) && t in s.jobs && s'.jobs == s.jobs[t := j]
    requires s'.sessions == s.sessions && s'.foreign == s.foreign
    requires forall g :: g in s'.open ==> g in s.open && s'.open[g] == s.open[g]
    requires forall g :: g in s'.open && g in Holds(s.jobs[t]) ==> g in Holds(j)
    ensures NoneLost(s')
  {
    StillHeld(s, s', t);
  }

  lemma AcceptNotLost(s: State, e: Event)
    requires NoneLost(s) && Enabled(s, e) && e.Accept?
    ensures NoneLost(Step(s, e))
  {
    assert Claims(Step(s, e), e.t, e.fd);
    StillHeld(s, Step(s, e), e.t);
  }

  lemma RegisterNotLost(s: State, e: Event)
    requires NoneLost(s) && Enabled(s, e) && e.Register?
    ensures NoneLost(Step(s, e))
  {
    var j := s.jobs[e.t];
    if !e.works || j.fd in s.reactor {
      Handover(s, Step(s, e), e.t, Refused(j.fd, j.conn));
    } else {
      Handover(s, Step(s, e), e.t, Registered(j.fd, j.conn));
    }
  }

  lemma RemoveNotLost(s: State, e: Event)
    requires NoneLost(s) && Enabled(s, e) && e.RemoveDone?
    ensures NoneLost(Step(s, e))
  {
    Handover(s, Step(s, e), e.t, Closing(s.jobs[e.t].fd, s.jobs[e.t].conn));
  }

  lemma StopRemoveNotLost(s: State, e: Event)
    requires NoneLost(s) && Enabled(s, e) && e.StopRemove?
    ensures NoneLost(Step(s, e))
  {
    var todo := s.jobs[e.t].todo;
    Handover(s, Step(s, e), e.t, StopClosing(todo - {e.fd}, e.fd, todo[e.fd]));
  }

  lemma CloseNotLost(s: State, e: Event)
    requires NoneLost(s) && Enabled(s, e) && (e.CloseDone? || e.StopClose?)
    ensures NoneLost(Step(s, e))
  {
    Handover(s, Step(s, e), e.t, Step(s, e).jobs[e.t]);
  }

  lemma MapsNotLost(s: State, e: Event)
    requires NoneLost(s) && Enabled(s, e) && (e.Insert? || e.CloseCall?)
    ensures NoneLost(Step(s, e))
  {
    StillHeld(s, Step(s, e), e.t);
  }

  lemma StopCallNotLost(s: State, e: Event)
    requires NoneLost(s) && Enabled(s, e) && e.StopCall?
    ensures NoneLost(Step(s, e))
  {
    assert Step(s, e).jobs == s.jobs[e.t := Stopping(s.sessions)];
    StillHeld(s, Step(s, e), e.t);
  }

  lemma EndNotLost(s: State, e: Event)
    requires NoneLost(s) && Enabled(s, e) && (e.Notify? || e.StopEnd? || e.CloseRefused?)
    ensures NoneLost(Step(s, e))
  {
    StillHeld(s, Step(s, e), e.t);
  }

  lemma ForeignNotLost(s: State, e: Event)
    requires NoneLost(s) && Enabled(s, e) && (e.ForeignOpen? || e.ForeignClose?)
    ensures NoneLost(Step(s, e))
  {
    var t := Step(s, e);
    forall g | g in t.open && t.open[g] !in t.foreign && g !in t.sessions ensures Held(t, g) {
      var u :| Claims(s, u, g);
      assert Claims(t, u, g);
    }
  }

  lemma NoneLostStep(s: State, e: Event)
    requires NoneLost(s) && Enabled(s, e)
    ensures NoneLost(Step(s, e))
  {
    match e
    case Accept(_, _) => AcceptNotLost(s, e);
    case Register(_, _) => RegisterNotLost(s, e);
    case Insert(_) => MapsNotLost(s, e);
    case CloseCall(_, _) => MapsNotLost(s, e);
    case RemoveDone(_, _) => RemoveNotLost(s, e);
    case StopCall(_) => StopCallNotLost(s, e);
    case StopRemove(_, _, _) => StopRemoveNotLost(s, e);
    case CloseRefused(_) => EndNotLost(s, e);
    case CloseDone(_) => CloseNotLost(s, e);
    case StopClose(_) => CloseNotLost(s, e);
    case Notify(_) => EndNotLost(s, e);
    case StopEnd(_) => EndNotLost(s, e);
    case ForeignOpen(_) => ForeignNotLost(s, e);
    case ForeignClose(_) => ForeignNotLost(s, e);
  }

  lemma InvStep(s: State, e: Event)
    requires Inv(s) && Enabled(s, e)
    ensures Inv(Step(s, e))
  {
    JobsFitStep(s, e);
    TablesStep(s, e);
    NamesStep(s, e);
    NoneLostStep(s, e);
  }

  lemma {:induction false} InvRun(s: State, es: seq<Event>)
    requires Inv(s) && ValidRun(s, es)
    ensures Inv(Final(s, es))
    decreases |es|
  {
    if es != [] {
      InvStep(s, es[0]);
      InvRun(Step(s, es[0]), es[1..]);
    }
  }

  lemma Reachable(es: seq<Event>)
    requires ValidRun(INITIAL, es)
    ensures Inv(Final(INITIAL, es))
  {
    assert NoneLost(INITIAL) && Accounted(INITIAL) && JobsFit(INITIAL);
    InvRun(INITIAL, es);
  }

  // ---------------------------------------------------------------- the reactor's map

  function LiveOf(s: State, t: Tid): map<Fd, Conn> {
    if t in s.jobs then Live(s.jobs[t]) else map[]
  }

  predicate LiveAt(s: State, t: Tid, fd: Fd) {
    fd in LiveOf(s, t)
  }

  ghost predicate Explained(s: State, fd: Fd) {
    fd in s.stuck || fd in s.sessions || exists t :: LiveAt(s, t, fd)
  }

  ghost predicate ReactorAt(s: State, fd: Fd) {
    && (fd in s.sessions ==> fd in s.reactor && s.reactor[fd] == s.sessions[fd] && fd !in s.stuck)
    && (forall t :: LiveAt(s, t, fd) ==>
          fd in s.reactor && s.reactor[fd] == LiveOf(s, t)[fd] && fd !in s.stuck)
    && (fd in s.reactor <==> Explained(s, fd))
  }

  /** The reactor has the sessions, what threads have registered and not removed, and the numbers it
      failed to remove; no number is in the last group and in another. */
  ghost predicate ReactorHolds(s: State) {
    forall fd :: ReactorAt(s, fd)
  }

  /** Nothing about number g changes, as far as the reactor goes. */
  predicate SameAt(s: State, s': State, t: Tid, g: Fd) {
    && (g in s'.reactor <==> g in s.reactor) && (g in s.reactor ==> s'.reactor[g] == s.reactor[g])
    && (g in s'.sessions <==> g in s.sessions) && (g in s.sessions ==> s'.sessions[g] == s.sessions[g])
    && (g in s'.stuck <==> g in s.stuck)
    && (LiveAt(s', t, g) <==> LiveAt(s, t, g))
    && (LiveAt(s, t, g) ==> LiveOf(s', t)[g] == LiveOf(s, t)[g])
  }

  ghost predicate OthersStay(s: State, s': State, t: Tid) {
    forall u :: u != t ==> (u in s'.jobs <==> u in s.jobs) && (u in s.jobs ==> s'.jobs[u] == s.jobs[u])
  }

  lemma ReactorStays(s: State, s': State, t: Tid, g: Fd)
    requires ReactorAt(s, g) && OthersStay(s, s', t) && SameAt(s, s', t, g)
    ensures ReactorAt(s', g)
  {
    forall u ensures LiveAt(s', u, g) <==> LiveAt(s, u, g) {
      assert u != t ==> (u in s'.jobs <==> u in s.jobs);
    }
    forall u | LiveAt(s', u, g) ensures g in s'.reactor && s'.reactor[g] == LiveOf(s', u)[g] && g !in s'.stuck {
      assert LiveAt(s, u, g);
    }
  }

  /** Number fd, when at most thread t has it live afterwards. */
  lemma ReactorLocal(s: State, t: Tid, fd: Fd)
    requires forall u :: u != t ==> !LiveAt(s, u, fd)
    requires fd in s.sessions ==> fd in s.reactor && s.reactor[fd] == s.sessions[fd] && fd !in s.stuck
    requires LiveAt(s, t, fd) ==> fd in s.reactor && s.reactor[fd] == LiveOf(s, t)[fd] && fd !in s.stuck
    requires fd in s.reactor <==> fd in s.stuck || fd in s.sessions || LiveAt(s, t, fd)
    ensures ReactorAt(s, fd)
  {
  }

  /** Who else could have a number live that t holds, that is a session, or that is not open. */
  lemma OnlyLive(s: State, t: Tid, fd: Fd)
    requires Inv(s) && (Claims(s, t, fd) || fd in s.sessions || fd !in s.open)
    ensures forall u :: u != t ==> !LiveAt(s, u, fd)
  {
    forall u | u != t ensures !LiveAt(s, u, fd) {
      assert LiveAt(s, u, fd) ==> Claims(s, u, fd);
      if Claims(s, u, fd) {
        HeldIsOpen(s, u, fd);
        OneHolder(s, u, fd);
      }
    }
  }

  lemma SameMapAt(m: map<Fd, Conn>, m': map<Fd, Conn>, fd: Fd, g: Fd)
    requires m - {fd} == m' - {fd} && g != fd
    ensures (g in m <==> g in m') && (g in m ==> m[g] == m'[g])
  {
    assert g in m <==> g in m - {fd};
    assert g in m' <==> g in m' - {fd};
    if g in m {
      assert m[g] == (m - {fd})[g] && m'[g] == (m' - {fd})[g];
    }
  }

  lemma SameOffAt(s: State, s': State, t: Tid, fd: Fd, g: Fd)
    requires s'.reactor - {fd} == s.reactor - {fd} && s'.sessions - {fd} == s.sessions - {fd} && g != fd
    requires s'.stuck - {fd} == s.stuck - {fd} && LiveOf(s', t) - {fd} == LiveOf(s, t) - {fd}
    ensures SameAt(s, s', t, g)
  {
    SameMapAt(s.reactor, s'.reactor, fd, g);
    SameMapAt(s.sessions, s'.sessions, fd, g);
    SameMapAt(LiveOf(s, t), LiveOf(s', t), fd, g);
    assert g in s.stuck <==> g in s.stuck - {fd};
    assert g in s'.stuck <==> g in s'.stuck - {fd};
  }

  /** A step of thread t that touches number fd only. */
  lemma ReactorMoves(s: State, s': State, t: Tid, fd: Fd)
    requires Inv(s) && ReactorHolds(s) && (Claims(s, t, fd) || fd in s.sessions || fd !in s.open)
    requires OthersStay(s, s', t) && s'.reactor - {fd} == s.reactor - {fd} && s'.sessions - {fd} == s.sessions - {fd}
    requires s'.stuck - {fd} == s.stuck - {fd} && LiveOf(s', t) - {fd} == LiveOf(s, t) - {fd}
    requires fd in s'.sessions ==> fd in s'.reactor && s'.reactor[fd] == s'.sessions[fd] && fd !in s'.stuck
    requires LiveAt(s', t, fd) ==> fd in s'.reactor && s'.reactor[fd] == LiveOf(s', t)[fd] && fd !in s'.stuck
    requires fd in s'.reactor <==> fd in s'.stuck || fd in s'.sessions || LiveAt(s', t, fd)
    ensures ReactorHolds(s')
  {
    OnlyLive(s, t, fd);
    ReactorLocal(s', t, fd);
    forall g | g != fd ensures ReactorAt(s', g) {
      SameOffAt(s, s', t, fd, g);
      ReactorStays(s, s', t, g);
    }
  }

  /** What the reactor has for a number that thread t holds. */
  lemma ReactorOf(s: State, t: Tid, fd: Fd)
    requires Inv(s) && ReactorHolds(s) && Claims(s, t, fd)
    ensures LiveAt(s, t, fd) ==> fd in s.reactor && fd !in s.stuck && s.reactor[fd] == LiveOf(s, t)[fd]
    ensures !LiveAt(s, t, fd) ==> (fd in s.reactor <==> fd in s.stuck)
  {
    assert ReactorAt(s, fd);
    OnlyLive(s, t, fd);
    HeldIsOpen(s, t, fd);
  }

  lemma EnterReactor(s: State, t: Tid, fd: Fd, c: Conn)
    requires Inv(s) && ReactorHolds(s) && t in s.jobs && s.jobs[t] == Accepted(fd, c) && fd !in s.reactor
    ensures ReactorHolds(Put(s.(reactor := s.reactor[fd := c]), t, Registered(fd, c)))
  {
    assert Claims(s, t, fd);
    ReactorOf(s, t, fd);
    HeldIsOpen(s, t, fd);
    var s' := Put(s.(reactor := s.reactor[fd := c]), t, Registered(fd, c));
    assert LiveOf(s', t) == map[fd := c];
    ReactorMoves(s, s', t, fd);
  }

  lemma RegisterReactor(s: State, e: Event)
    requires Inv(s) && ReactorHolds(s) && Enabled(s, e) && e.Register?
    ensures ReactorHolds(Step(s, e))
  {
    var j := s.jobs[e.t];
    if !e.works || j.fd in s.reactor {
      QuietReactor(s, Put(s, e.t, Refused(j.fd, j.conn)), e.t);
    } else {
      EnterReactor(s, e.t, j.fd, j.conn);
    }
  }

  lemma RemoveReactor(s: State, t: Tid, fd: Fd, ok: bool, j: Job)
    requires Inv(s) && ReactorHolds(s) && LiveAt(s, t, fd) && Live(j) == LiveOf(s, t) - {fd}
    ensures ReactorHolds(Put(Remove(s, fd, ok), t, j))
  {
    assert Claims(s, t, fd);
    ReactorOf(s, t, fd);
    HeldIsOpen(s, t, fd);
    var s' := Put(Remove(s, fd, ok), t, j);
    assert LiveOf(s', t) == Live(j);
    ReactorMoves(s, s', t, fd);
  }

  lemma RemoveDoneReactor(s: State, e: Event)
    requires Inv(s) && ReactorHolds(s) && Enabled(s, e) && e.RemoveDone?
    ensures ReactorHolds(Step(s, e))
  {
    var j := s.jobs[e.t];
    assert LiveOf(s, e.t) - {j.fd} == map[];
    RemoveReactor(s, e.t, j.fd, e.ok, Closing(j.fd, j.conn));
  }

  lemma StopRemoveReactor(s: State, e: Event)
    requires Inv(s) && ReactorHolds(s) && Enabled(s, e) && e.StopRemove?
    ensures ReactorHolds(Step(s, e))
  {
    var todo := s.jobs[e.t].todo;
    RemoveReactor(s, e.t, e.fd, e.ok, StopClosing(todo - {e.fd}, e.fd, todo[e.fd]));
  }

  lemma InsertReactor(s: State, e: Event)
    requires Inv(s) && ReactorHolds(s) && Enabled(s, e) && e.Insert?
    ensures ReactorHolds(Step(s, e))
  {
    var fd := s.jobs[e.t].fd;
    ReactorOf(s, e.t, fd);
    HeldIsOpen(s, e.t, fd);
    ReactorMoves(s, Step(s, e), e.t, fd);
  }

  lemma CloseCallReactor(s: State, e: Event)
    requires Inv(s) && ReactorHolds(s) && Enabled(s, e) && e.CloseCall?
    ensures ReactorHolds(Step(s, e))
  {
    if e.fd in s.sessions {
      assert ReactorAt(s, e.fd);
      ReactorMoves(s, Step(s, e), e.t, e.fd);
    }
  }

  /** Sessions become Stop's, all at once. */
  lemma StopCallReactor(s: State, e: Event)
    requires Inv(s) && ReactorHolds(s) && Enabled(s, e) && e.StopCall?
    ensures ReactorHolds(Step(s, e))
  {
    var s' := Step(s, e);
    forall g ensures ReactorAt(s', g) {
      assert ReactorAt(s, g);
      if g in s.sessions {
        OnlyLive(s, e.t, g);
        assert forall u :: u != e.t ==> (LiveAt(s', u, g) <==> LiveAt(s, u, g));
        ReactorLocal(s', e.t, g);
      } else {
        ReactorStays(s, s', e.t, g);
      }
    }
  }

  /** Steps that touch neither the reactor, the sessions, nor what is live. */
  lemma QuietReactor(s: State, s': State, t: Tid)
    requires ReactorHolds(s) && OthersStay(s, s', t)
    requires s'.reactor == s.reactor && s'.sessions == s.sessions && s'.stuck == s.stuck
    requires LiveOf(s', t) == LiveOf(s, t)
    ensures ReactorHolds(s')
  {
    forall g ensures ReactorAt(s', g) {
      ReactorStays(s, s', t, g);
    }
  }

  lemma QuietStep(s: State, e: Event)
    requires ReactorHolds(s) && Enabled(s, e)
    requires e.Accept? || e.CloseRefused? || e.CloseDone? || e.Notify? || e.StopClose? || e.StopEnd?
    ensures ReactorHolds(Step(s, e))
  {
    QuietReactor(s, Step(s, e), e.t);
  }

  lemma ReactorStep(s: State, e: Event)
    requires Inv(s) && ReactorHolds(s) && Enabled(s, e)
    ensures ReactorHolds(Step(s, e))
  {
    match e
    case Register(_, _) => RegisterReactor(s, e);
    case Insert(_) => InsertReactor(s, e);
    case CloseCall(_, _) => CloseCallReactor(s, e);
    case RemoveDone(_, _) => RemoveDoneReactor(s, e);
    case StopCall(_) => StopCallReactor(s, e);
    case StopRemove(_, _, _) => StopRemoveReactor(s, e);
    case Accept(_, _) => QuietStep(s, e);
    case CloseRefused(_) => QuietStep(s, e);
    case CloseDone(_) => QuietStep(s, e);
    case Notify(_) => QuietStep(s, e);
    case StopClose(_) => QuietStep(s, e);
    case StopEnd(_) => QuietStep(s, e);
    case ForeignOpen(_) => QuietReactor(s, Step(s, e), 0);
    case ForeignClose(_) => QuietReactor(s, Step(s, e), 0);
  }

  lemma {:induction false} ReactorRun(s: State, es: seq<Event>)
    requires Inv(s) && ReactorHolds(s) && ValidRun(s, es)
    ensures Inv(Final(s, es)) && ReactorHolds(Final(s, es))
    decreases |es|
  {
    if es != [] {
      InvStep(s, es[0]);
      ReactorStep(s, es[0]);
      ReactorRun(Step(s, es[0]), es[1..]);
    }
  }

  lemma ReachableReactor(es: seq<Event>)
    requires ValidRun(INITIAL, es)
    ensures Inv(Final(INITIAL, es)) && ReactorHolds(Final(INITIAL, es))
  {
    Reachable([]);
    forall fd ensures ReactorAt(INITIAL, fd) {
    }
    ReactorRun(INITIAL, es);
  }

  // ---------------------------------------------------------------- what the server promises

  /** For any interleaving, with numbers reused at the kernel's whim: the session and handler maps are
      equal and every number in them is open and still the same connection; so is every number in the
      reactor, unless the reactor failed to remove it. */
  lemma TablesHoldOpenFds(es: seq<Event>)
    requires ValidRun(INITIAL, es)
    ensures var s := Final(INITIAL, es);
            && s.connHandlers == s.sessions
            && (forall fd :: fd in s.sessions ==> fd in s.open && s.open[fd] == s.sessions[fd])
            && (forall fd :: fd in s.reactor && fd !in s.stuck ==> fd in s.open && s.open[fd] == s.reactor[fd])
  {
    ReachableReactor(es);
    var s := Final(INITIAL, es);
    forall fd | fd in s.reactor && fd !in s.stuck ensures fd in s.open && s.open[fd] == s.reactor[fd] {
      assert ReactorAt(s, fd);
      if fd !in s.sessions {
        var t :| LiveAt(s, t, fd);
        assert Fits(s, s.jobs[t]) && fd in Holds(s.jobs[t]);
      }
    }
  }

  /** A fresh accept finds its place in the reactor taken exactly if an earlier removal of the number
      failed, whatever happened since accept4 returned, and its places in both maps always free. */
  lemma NoCollision(es: seq<Event>, t: Tid)
    requires ValidRun(INITIAL, es) && t in Final(INITIAL, es).jobs
    ensures var s := Final(INITIAL, es);
            && (s.jobs[t].Accepted? ==> (s.jobs[t].fd in s.reactor <==> s.jobs[t].fd in s.stuck))
            && (s.jobs[t].Registered? ==> s.jobs[t].fd !in s.sessions && s.jobs[t].fd !in s.connHandlers
                                          && s.jobs[t].fd in s.reactor
                                          && s.reactor[s.jobs[t].fd] == s.jobs[t].conn)
  {
    ReachableReactor(es);
    var s := Final(INITIAL, es);
    if s.jobs[t].Accepted? || s.jobs[t].Registered? {
      assert Claims(s, t, s.jobs[t].fd);
      ReactorOf(s, t, s.jobs[t].fd);
      HeldIsOpen(s, t, s.jobs[t].fd);
    }
  }

  /** However Stop and concurrent closes race, and whether or not the reactor lets go: no connection is
      closed twice or announced twice, only closed ones are announced, and no descriptor of other code
      is ever closed. */
  lemma ClosedOnce(es: seq<Event>)
    requires ValidRun(INITIAL, es)
    ensures var s := Final(INITIAL, es);
            && NoDup(s.closed) && NoDup(s.notified)
            && (forall c :: c in s.notified ==> c in s.closed)
            && (forall c :: c in s.closed ==> c !in s.foreign)
  {
    Reachable(es);
  }

  /** The number a thread is about to close still stands for the connection it was taken for. */
  lemma CloseHits(es: seq<Event>, t: Tid)
    requires ValidRun(INITIAL, es) && t in Final(INITIAL, es).jobs
    ensures var s := Final(INITIAL, es);
            s.jobs[t].Closing? || s.jobs[t].Refused? || s.jobs[t].StopClosing? ==>
              s.jobs[t].fd in s.open && s.open[s.jobs[t].fd] == s.jobs[t].conn
  {
    Reachable(es);
    var s := Final(INITIAL, es);
    assert Fits(s, s.jobs[t]);
    if s.jobs[t].Closing? || s.jobs[t].Refused? || s.jobs[t].StopClosing? {
      assert s.jobs[t].fd in Holds(s.jobs[t]);
    }
  }

  /** At rest with no sessions left, every connection ever accepted has been closed, exactly once, and
      what the reactor still has is exactly what it failed to remove. */
  lemma NothingLeaks(es: seq<Event>)
    requires ValidRun(INITIAL, es)
    requires Final(INITIAL, es).jobs == map[] && Final(INITIAL, es).sessions == map[]
    ensures var s := Final(INITIAL, es);
            && (forall c: Conn :: c < s.next && c !in s.foreign ==> multiset(s.closed)[c] == 1)
            && s.reactor.Keys == s.stuck
  {
    ReachableReactor(es);
    var s := Final(INITIAL, es);
    assert forall fd :: fd in s.open ==> s.open[fd] in s.foreign by {
      assert forall fd :: !Held(s, fd);
    }
    forall c: Conn | c < s.next && c !in s.foreign ensures multiset(s.closed)[c] == 1 {
      assert !IsOpen(s, c);
      NoDupCount(s.closed, c);
    }
    forall fd ensures fd in s.reactor <==> fd in s.stuck {
      assert ReactorAt(s, fd);
      assert forall t :: !LiveAt(s, t, fd);
    }
  }

  lemma {:induction false} NoDupCount(s: seq<Conn>, c: Conn)
    requires NoDup(s)
    ensures multiset(s)[c] == if c in s then 1 else 0
    decreases |s|
  {
    if s != [] {
      var front := s[..|s| - 1];
      assert s == front + [s[|s| - 1]];
      NoDupCount(front, c);
    }
  }

  /** What becomes of an accepted connection, whatever other threads do in between: its registration succeeds exactly
      if the reactor's part works and no removal of the number failed; a registered one becomes the session of its
      number in both maps, and one that is not is closed and leaves them as they are. */
  lemma AdmittedIff(es: seq<Event>, t: Tid, works: bool)
    requires ValidRun(INITIAL, es) && t in Final(INITIAL, es).jobs
    ensures var s := Final(INITIAL, es);
            match s.jobs[t]
            case Accepted(fd, c) =>
              Step(s, Register(t, works)).jobs[t]
              == if works && fd !in s.stuck then Registered(fd, c) else Refused(fd, c)
            case Registered(fd, c) =>
              var s' := Step(s, Insert(t));
              && s'.sessions == s.sessions[fd := c] && s'.connHandlers == s.connHandlers[fd := c]
              && fd in s'.reactor && s'.reactor[fd] == c && t !in s'.jobs
            case Refused(fd, c) =>
              var s' := Step(s, CloseRefused(t));
              && s'.sessions == s.sessions && s'.connHandlers == s.connHandlers
              && s'.closed == s.closed + [c] && fd !in s'.open && t !in s'.jobs
            case _ => true
  {
    NoCollision(es, t);
    CloseHits(es, t);
  }

  /** Thread t has taken connection c out of the maps and still has to announce it. */
  predicate Announcing(s: State, t: Tid, c: Conn) {
    && t in s.jobs && (s.jobs[t].Removing? || s.jobs[t].Closing? || s.jobs[t].Notifying?)
    && s.jobs[t].conn == c
  }

  /** The connections that calls of HandleConnectionClose found in the session map. */
  function TakenOut(s: State, es: seq<Event>): set<Conn>
    requires ValidRun(s, es)
    decreases |es|
  {
    if es == [] then {}
    else
      (if es[0].CloseCall? && es[0].fd in s.sessions then {s.sessions[es[0].fd]} else {})
      + TakenOut(Step(s, es[0]), es[1..])
  }

  ghost predicate Announced(s: State, taken: set<Conn>) {
    forall c :: c in taken <==> c in s.notified || exists t :: Announcing(s, t, c)
  }

  lemma CloseAnnounced(s: State, t: Tid, fd: Fd, taken: set<Conn>)
    requires Announced(s, taken) && Enabled(s, CloseCall(t, fd)) && fd in s.sessions
    ensures Announced(Step(s, CloseCall(t, fd)), taken + {s.sessions[fd]})
  {
    var s', c := Step(s, CloseCall(t, fd)), s.sessions[fd];
    assert s'.notified == s.notified && Announcing(s', t, c);
    forall d ensures d in taken + {c} <==> d in s'.notified || exists u :: Announcing(s', u, d) {
      if u :| Announcing(s, u, d) { assert Announcing(s', u, d); }
      if u :| Announcing(s', u, d) { assert u == t || Announcing(s, u, d); }
    }
  }

  /** A step in which t at most goes on announcing what it was announcing, or does. */
  lemma StillAnnounced(s: State, s': State, t: Tid, taken: set<Conn>)
    requires Announced(s, taken) && OthersStay(s, s', t)
    requires forall c :: c in s'.notified || Announcing(s', t, c) <==> c in s.notified || Announcing(s, t, c)
    ensures Announced(s', taken)
  {
    forall c ensures (c in s'.notified || exists u :: Announcing(s', u, c)) <==>
                     (c in s.notified || exists u :: Announcing(s, u, c)) {
      if u :| Announcing(s, u, c) { assert u == t || Announcing(s', u, c); }
      if u :| Announcing(s', u, c) { assert u == t || Announcing(s, u, c); }
    }
  }

  lemma GoesOnAnnounced(s: State, e: Event, taken: set<Conn>)
    requires Announced(s, taken) && Enabled(s, e) && (e.RemoveDone? || e.CloseDone? || e.Notify?)
    ensures Announced(Step(s, e), taken)
  {
    StillAnnounced(s, Step(s, e), e.t, taken);
  }

  lemma AcceptAnnounced(s: State, e: Event, taken: set<Conn>)
    requires Announced(s, taken) && Enabled(s, e) && (e.Accept? || e.Register? || e.CloseRefused? || e.Insert?)
    ensures Announced(Step(s, e), taken)
  {
    StillAnnounced(s, Step(s, e), e.t, taken);
  }

  lemma StopAnnounced(s: State, e: Event, taken: set<Conn>)
    requires Announced(s, taken) && Enabled(s, e) && (e.StopRemove? || e.StopClose?)
    ensures Announced(Step(s, e), taken)
  {
    StillAnnounced(s, Step(s, e), e.t, taken);
  }

  lemma StopEdgesAnnounced(s: State, e: Event, taken: set<Conn>)
    requires Announced(s, taken) && Enabled(s, e) && (e.StopCall? || e.StopEnd?)
    ensures Announced(Step(s, e), taken)
  {
    StillAnnounced(s, Step(s, e), e.t, taken);
  }

  lemma AnnouncedStep(s: State, e: Event, taken: set<Conn>)
    requires Announced(s, taken) && Enabled(s, e) && !(e.CloseCall? && e.fd in s.sessions)
    ensures Announced(Step(s, e), taken)
  {
    if e.RemoveDone? || e.CloseDone? || e.Notify? {
      GoesOnAnnounced(s, e, taken);
    } else if e.Accept? || e.Register? || e.CloseRefused? || e.Insert? {
      AcceptAnnounced(s, e, taken);
    } else if e.StopRemove? || e.StopClose? {
      StopAnnounced(s, e, taken);
    } else if e.StopCall? || e.StopEnd? {
      StopEdgesAnnounced(s, e, taken);
    } else {
      StillAnnounced(s, Step(s, e), 0, taken);
    }
  }

  lemma {:induction false} AnnouncedRun(s: State, es: seq<Event>, taken: set<Conn>)
    requires Announced(s, taken) && ValidRun(s, es)
    ensures Announced(Final(s, es), taken + TakenOut(s, es))
    decreases |es|
  {
    if es == [] {
      assert taken + {} == taken;
    } else {
      var e, s', rest := es[0], Step(s, es[0]), TakenOut(Step(s, es[0]), es[1..]);
      if e.CloseCall? && e.fd in s.sessions {
        CloseAnnounced(s, e.t, e.fd, taken);
        AnnouncedRun(s', es[1..], taken + {s.sessions[e.fd]});
        assert taken + {s.sessions[e.fd]} + rest == taken + ({s.sessions[e.fd]} + rest);
      } else {
        AnnouncedStep(s, e, taken);
        AnnouncedRun(s', es[1..], taken);
        assert {} + rest == rest;
      }
    }
  }

  /** Every connection that HandleConnectionClose took out of the maps is announced, exactly once and nothing else
      is, as soon as no thread is still on its way to do so. */
  lemma AllAnnounced(es: seq<Event>)
    requires ValidRun(INITIAL, es)
    ensures var s := Final(INITIAL, es);
            && NoDup(s.notified)
            && (forall c :: c in TakenOut(INITIAL, es) <==> c in s.notified || exists t :: Announcing(s, t, c))
            && (s.jobs == map[] ==> forall c :: c in TakenOut(INITIAL, es) <==> c in s.notified)
  {
    ClosedOnce(es);
    AnnouncedRun(INITIAL, es, {});
    assert {} + TakenOut(INITIAL, es) == TakenOut(INITIAL, es);
  }

  predicate Fails(e: Event) {
    (e.RemoveDone? || e.StopRemove?) && !e.ok
  }

  lemma StuckOne(s: State, t: Tid, fd: Fd)
    requires ReactorHolds(s) && LiveAt(s, t, fd)
    ensures |s.stuck + {fd}| == |s.stuck| + 1
  {
    assert ReactorAt(s, fd);
  }

  lemma StuckStep(s: State, e: Event)
    requires ReactorHolds(s) && Enabled(s, e)
    ensures |Step(s, e).stuck| == |s.stuck| + if Fails(e) then 1 else 0
  {
    if Fails(e) {
      StuckOne(s, e.t, if e.RemoveDone? then s.jobs[e.t].fd else e.fd);
    }
  }

  /** How many removals of the run failed. */
  function Failures(es: seq<Event>): nat {
    if es == [] then 0 else (if Fails(es[0]) then 1 else 0) + Failures(es[1..])
  }

  lemma {:induction false} StuckCounts(s: State, es: seq<Event>)
    requires Inv(s) && ReactorHolds(s) && ValidRun(s, es)
    ensures |Final(s, es).stuck| == |s.stuck| + Failures(es)
    decreases |es|
  {
    if es != [] {
      StuckStep(s, es[0]);
      InvStep(s, es[0]);
      ReactorStep(s, es[0]);
      StuckCounts(Step(s, es[0]), es[1..]);
    }
  }

  /** Each failed removal, on the close path or in Stop, leaves one entry behind for good: at rest the
      reactor has as many as removals failed, so it is empty if and only if none did. */
  lemma FailuresStay(es: seq<Event>)
    requires ValidRun(INITIAL, es)
    ensures |Final(INITIAL, es).stuck| == Failures(es)
    ensures var s := Final(INITIAL, es);
            s.jobs == map[] && s.sessions == map[] ==> |s.reactor| == Failures(es)
  {
    ReachableReactor([]);
    StuckCounts(INITIAL, es);
    if Final(INITIAL, es).jobs == map[] && Final(INITIAL, es).sessions == map[] {
      NothingLeaks(es);
      assert |Final(INITIAL, es).reactor| == |Final(INITIAL, es).reactor.Keys|;
    }
  }

  /** A handler keeps its number after its connection is gone. When it then calls
      HandleConnectionClose, another connection is closed in place of its own if and only if its own
      has been closed and the number is a session again; and that is always a newer one. */
  lemma StaleClose(es: seq<Event>, t: Tid, fd: Fd, meant: Conn)
    requires ValidRun(INITIAL, es) && t !in Final(INITIAL, es).jobs
    requires meant in Final(INITIAL, es).number && Final(INITIAL, es).number[meant] == fd
    ensures var s := Final(INITIAL, es);
            var s' := Step(s, CloseCall(t, fd));
            && (t in s'.jobs && s'.jobs[t] != Removing(fd, meant) <==> meant in s.closed && fd in s.sessions)
            && (t in s'.jobs && s'.jobs[t] != Removing(fd, meant) ==> s'.jobs[t].Removing? && s'.jobs[t].conn > meant)
  {
    Reachable(es);
    OpenOrClosed(Final(INITIAL, es), fd, meant);
  }

  lemma OpenOrClosed(s: State, fd: Fd, c: Conn)
    requires Inv(s) && c in s.number && s.number[c] == fd
    ensures c in s.closed || (fd in s.open && s.open[fd] == c)
  {
    if c !in s.closed {
      var g :| g in s.open && s.open[g] == c;
      assert s.number[c] == g;
    }
  }

  // ---------------------------------------------------------------- runs that go wrong

  lemma {:induction false} RunSnoc(s: State, es: seq<Event>, e: Event)
    requires ValidRun(s, es) && Enabled(Final(s, es), e)
    ensures ValidRun(s, es + [e]) && Final(s, es + [e]) == Step(Final(s, es), e)
    decreases |es|
  {
    if es == [] {
      assert es + [e] == [e] && [e][1..] == [];
    } else {
      assert (es + [e])[1..] == es[1..] + [e];
      RunSnoc(Step(s, es[0]), es[1..], e);
    }
  }

  /** One connection, accepted as number 5 and in use. */
  const OPENED: seq<Event> := [] + [Accept(0, 5)] + [Register(0, true)] + [Insert(0)]

  const ONE := State(map[5 := 0], map[0 := 5], {}, 1, map[5 := 0], map[5 := 0], map[5 := 0], {}, map[], [], [])

  lemma OpenedRun()
    ensures ValidRun(INITIAL, OPENED) && Final(INITIAL, OPENED) == ONE
  {
    RunSnoc(INITIAL, [], Accept(0, 5));
    RunSnoc(INITIAL, [] + [Accept(0, 5)], Register(0, true));
    RunSnoc(INITIAL, [] + [Accept(0, 5)] + [Register(0, true)], Insert(0));
    assert Final(INITIAL, OPENED).jobs == map[];
  }

  /** Its close, with the removal's outcome. */
  function ClosedBy(ok: bool): seq<Event> {
    OPENED + [CloseCall(0, 5)] + [RemoveDone(0, ok)] + [CloseDone(0)] + [Notify(0)]
  }

  function Gone(ok: bool): State {
    State(map[], map[0 := 5], {}, 1, map[], map[], if ok then map[] else map[5 := 0],
          if ok then {} else {5}, map[], [0], [0])
  }

  lemma ClosedRun(ok: bool)
    ensures ValidRun(INITIAL, ClosedBy(ok)) && Final(INITIAL, ClosedBy(ok)) == Gone(ok)
  {
    OpenedRun();
    var r1 := OPENED + [CloseCall(0, 5)];
    RunSnoc(INITIAL, OPENED, CloseCall(0, 5));
    assert Final(INITIAL, r1).jobs == map[0 := Removing(5, 0)];
    RunSnoc(INITIAL, r1, RemoveDone(0, ok));
    RunSnoc(INITIAL, r1 + [RemoveDone(0, ok)], CloseDone(0));
    RunSnoc(INITIAL, r1 + [RemoveDone(0, ok)] + [CloseDone(0)], Notify(0));
    var r := Final(INITIAL, ClosedBy(ok));
    assert r.jobs == map[] && r.open == map[] && r.sessions == map[] && r.connHandlers == map[];
    assert ok ==> r.reactor == map[];
  }

  /** The failed removal leaves an entry for a number that is no longer open, and the next connection
      with that number is refused; after a successful one it is registered. */
  lemma FailedRemovalRun(ok: bool)
    ensures var es := ClosedBy(ok) + [Accept(0, 5)] + [Register(0, true)];
            && ValidRun(INITIAL, es) && ValidRun(INITIAL, ClosedBy(ok))
            && (5 in Final(INITIAL, ClosedBy(ok)).reactor <==> !ok)
            && 5 !in Final(INITIAL, ClosedBy(ok)).open
            && 0 in Final(INITIAL, es).jobs
            && Final(INITIAL, es).jobs[0] == if ok then Registered(5, 1) else Refused(5, 1)
  {
    ClosedRun(ok);
    RunSnoc(INITIAL, ClosedBy(ok), Accept(0, 5));
    RunSnoc(INITIAL, ClosedBy(ok) + [Accept(0, 5)], Register(0, true));
  }

  /** The same in Stop. */
  lemma FailedStopRun(ok: bool)
    ensures var es := OPENED + [StopCall(0)] + [StopRemove(0, 5, ok)] + [StopClose(0)];
            && ValidRun(INITIAL, es)
            && (5 in Final(INITIAL, es).reactor <==> !ok) && 5 !in Final(INITIAL, es).open
  {
    OpenedRun();
    var r1 := OPENED + [StopCall(0)];
    RunSnoc(INITIAL, OPENED, StopCall(0));
    assert Final(INITIAL, r1).jobs == map[0 := Stopping(map[5 := 0])];
    RunSnoc(INITIAL, r1, StopRemove(0, 5, ok));
    RunSnoc(INITIAL, r1 + [StopRemove(0, 5, ok)], StopClose(0));
  }

  /** A stale close: number 5 is closed and given to connection 1, and then a thread still at work for
      connection 0 closes connection 1. */
  lemma StaleCloseRun()
    ensures var es := ClosedBy(true) + [Accept(0, 5)] + [Register(0, true)] + [Insert(0)] + [CloseCall(0, 5)];
            && ValidRun(INITIAL, es)
            && 0 in Final(INITIAL, es).number && Final(INITIAL, es).number[0] == 5
            && 0 in Final(INITIAL, es).jobs && Final(INITIAL, es).jobs[0] == Removing(5, 1)
  {
    ClosedRun(true);
    var r1 := ClosedBy(true) + [Accept(0, 5)];
    RunSnoc(INITIAL, ClosedBy(true), Accept(0, 5));
    assert Final(INITIAL, r1).jobs == map[0 := Accepted(5, 1)];
    RunSnoc(INITIAL, r1, Register(0, true));
    RunSnoc(INITIAL, r1 + [Register(0, true)], Insert(0));
    assert Final(INITIAL, r1 + [Register(0, true)] + [Insert(0)]).jobs == map[];
    RunSnoc(INITIAL, r1 + [Register(0, true)] + [Insert(0)], CloseCall(0, 5));
  }

  // ---------------------------------------------------------------- the server object

  /** The iteration order of the session map is not fixed. */
  method Any(fds: set<Fd>) returns (fd: Fd)
    requires fds != {}
    ensures fd in fds
  {
    assert (forall g :: g !in fds) ==> fds == {};
    fd :| fd in fds;
  }

  /** The server between calls, with the kernel's table, the history and the two logs. */
  class TcpServer {
    var sessions: map<Fd, Conn>
    var connectionHandlers: map<Fd, Conn>
    var reactor: map<Fd, Conn>
    var open: map<Fd, Conn>
    var next: Conn
    var closed: seq<Conn>
    var notified: seq<Conn>
    ghost var number: map<Conn, Fd>
    ghost var stuck: set<Fd>
    ghost const foreign: set<Conn>

    ghost function With(jobs: map<Tid, Job>): State
      reads this
    {
      State(open, number, foreign, next, sessions, connectionHandlers, reactor, stuck, jobs, closed, notified)
    }

    ghost function Now(): State
      reads this
    {
      With(map[])
    }

    constructor ()
      ensures Now() == INITIAL && Inv(Now())
    {
      sessions, connectionHandlers, reactor, open := map[], map[], map[], map[];
      next, closed, notified, number, stuck, foreign := 0, [], [], map[], {}, {};
      new;
      Reachable([]);
    }

    method CloseFd(fd: Fd)
      modifies this`open, this`closed
      ensures Now() == Close(old(Now()), fd)
    {
      if fd in open {
        closed := closed + [open[fd]];
        open := open - {fd};
      }
    }

    method RemoveHandler(fd: Fd, ok: bool)
      modifies this`reactor, this`stuck
      ensures Now() == Remove(old(Now()), fd, ok)
    {
      if ok {
        reactor := reactor - {fd};
      } else {
        stuck := stuck + {fd};
      }
    }

    /** Uninterrupted, with a number the kernel has free. */
    method HandleAccept(clientSocket: Fd, works: bool)
      requires Inv(Now()) && clientSocket !in open
      modifies this
      ensures Inv(Now())
      ensures Now() == AfterAccept(old(Now()), clientSocket, works)
    {
      AcceptChain(Now(), clientSocket, works);
      AcceptClient(clientSocket, works);
    }

    /** The same for any state of the tables: an old entry in the reactor refuses the client. */
    method AcceptClient(clientSocket: Fd, works: bool)
      modifies this
      ensures Now() == AfterAccept(old(Now()), clientSocket, works)
    {
      var conn := next;
      number := number[conn := clientSocket];
      open, next := open[clientSocket := conn], next + 1;
      if clientSocket in reactor || !works {
        CloseFd(clientSocket);
        return;
      }
      reactor := reactor[clientSocket := conn];
      connectionHandlers := connectionHandlers[clientSocket := conn];
      if clientSocket !in sessions {
        sessions := sessions[clientSocket := conn];
      }
    }

    /** Uninterrupted: a known number is taken out of both maps, closed and announced, whatever
        RemoveHandler says. */
    method HandleConnectionClose(fd: Fd, removed: bool)
      requires Inv(Now())
      modifies this
      ensures Inv(Now())
      ensures fd !in old(sessions) ==> Now() == old(Now())
      ensures fd in old(sessions) ==> Now() == AfterClose(old(Now()), fd, removed)
    {
      if fd !in sessions {
        return;
      }
      CloseChain(Now(), fd, removed);
      var session := sessions[fd];
      sessions := sessions - {fd};
      connectionHandlers := connectionHandlers - {fd};
      RemoveHandler(fd, removed);
      CloseFd(fd);
      notified := notified + [session];
    }

    /** Uninterrupted; `run` is the run of the machine that the loop goes through. Every session is
        closed, whatever RemoveHandler says, and nobody is told. */
    method Stop(removed: Fd -> bool) returns (ok: bool, ghost run: seq<Event>)
      requires Inv(Now())
      modifies this
      ensures ok && Inv(Now())
      ensures ValidRun(old(Now()), run) && Final(old(Now()), run) == Now()
      ensures sessions == map[] && notified == old(notified)
      ensures AllClosed(old(sessions), map[], Now())
    {
      ghost var s := Now();
      ghost var todo := sessions;
      var clientFds := sessions.Keys;
      sessions, connectionHandlers := map[], map[];
      run := [StopCall(0)];
      StopBegins(s);
      assert With(map[0 := Stopping(todo)]) == Step(s, StopCall(0));
      while clientFds != {}
        invariant clientFds == todo.Keys
        invariant ValidRun(s, run) && Final(s, run) == With(map[0 := Stopping(todo)])
        invariant sessions == map[] && notified == old(notified)
        invariant AllClosed(s.sessions, todo, Final(s, run))
        decreases clientFds
      {
        var fd := Any(clientFds);
        run := StopRound(s, run, todo, fd, removed(fd));
        RemoveHandler(fd, removed(fd));
        CloseFd(fd);
        clientFds := clientFds - {fd};
        todo := todo - {fd};
      }
      assert todo == map[];
      run := StopEnds(s, run);
      return true, run;
    }
  }

  /** What HandleAccept does if nothing intervenes. */
  function AfterAccept(s: State, fd: Fd, works: bool): State {
    var s' := s.(number := s.number[s.next := fd], next := s.next + 1);
    if works && fd !in s.reactor then
      s'.(open := s.open[fd := s.next], reactor := s.reactor[fd := s.next],
          sessions := if fd in s.sessions then s.sessions else s.sessions[fd := s.next],
          connHandlers := s.connHandlers[fd := s.next])
    else s'.(open := s.open[fd := s.next] - {fd}, closed := s.closed + [s.next])
  }

  function AcceptEnd(s: State, fd: Fd, works: bool): Event {
    if works && fd !in s.reactor then Insert(0) else CloseRefused(0)
  }

  lemma AcceptRegisters(s: State, fd: Fd, works: bool)
    requires s.jobs == map[] && fd !in s.open
    ensures Step(Step(s, Accept(0, fd)), Register(0, works))
            == s.(open := s.open[fd := s.next], number := s.number[s.next := fd], next := s.next + 1,
                  reactor := if works && fd !in s.reactor then s.reactor[fd := s.next] else s.reactor,
                  jobs := map[0 := if works && fd !in s.reactor then Registered(fd, s.next) else Refused(fd, s.next)])
  {
    assert Step(s, Accept(0, fd)).jobs == map[0 := Accepted(fd, s.next)];
  }

  /** It is three steps of the machine. */
  lemma AcceptIsRun(s: State, fd: Fd, works: bool)
    requires s.jobs == map[] && fd !in s.open
    ensures AfterAccept(s, fd, works)
            == Step(Step(Step(s, Accept(0, fd)), Register(0, works)), AcceptEnd(s, fd, works))
  {
    AcceptRegisters(s, fd, works);
    assert Step(Step(s, Accept(0, fd)), Register(0, works)).jobs - {0} == map[];
  }

  lemma AcceptChain(s: State, fd: Fd, works: bool)
    requires Inv(s) && s.jobs == map[] && fd !in s.open
    ensures Inv(AfterAccept(s, fd, works))
  {
    AcceptIsRun(s, fd, works);
    var s1 := Step(s, Accept(0, fd));
    InvStep(s, Accept(0, fd));
    InvStep(s1, Register(0, works));
    InvStep(Step(s1, Register(0, works)), AcceptEnd(s, fd, works));
  }

  /** What HandleConnectionClose does for a session if nothing intervenes. */
  function AfterClose(s: State, fd: Fd, removed: bool): State
    requires fd in s.sessions
  {
    Close(Remove(s, fd, removed), fd).(sessions := s.sessions - {fd}, connHandlers := s.connHandlers - {fd},
                                       notified := s.notified + [s.sessions[fd]])
  }

  lemma CloseTaken(s: State, fd: Fd, removed: bool)
    requires s.jobs == map[] && fd in s.sessions
    ensures Step(Step(s, CloseCall(0, fd)), RemoveDone(0, removed))
            == Remove(s, fd, removed).(sessions := s.sessions - {fd}, connHandlers := s.connHandlers - {fd},
                                       jobs := map[0 := Closing(fd, s.sessions[fd])])
  {
    assert Step(s, CloseCall(0, fd)).jobs == map[0 := Removing(fd, s.sessions[fd])];
  }

  lemma CloseFinished(s: State, fd: Fd, c: Conn)
    requires s.jobs == map[0 := Closing(fd, c)]
    ensures Step(Step(s, CloseDone(0)), Notify(0)) == Close(s, fd).(jobs := map[], notified := s.notified + [c])
  {
    assert Step(s, CloseDone(0)).jobs - {0} == map[];
  }

  /** It is four steps of the machine. */
  lemma CloseIsRun(s: State, fd: Fd, removed: bool)
    requires s.jobs == map[] && fd in s.sessions
    ensures AfterClose(s, fd, removed)
            == Step(Step(Step(Step(s, CloseCall(0, fd)), RemoveDone(0, removed)), CloseDone(0)), Notify(0))
  {
    CloseTaken(s, fd, removed);
    CloseFinished(Step(Step(s, CloseCall(0, fd)), RemoveDone(0, removed)), fd, s.sessions[fd]);
  }

  lemma CloseChain(s: State, fd: Fd, removed: bool)
    requires Inv(s) && s.jobs == map[] && fd in s.sessions
    ensures Inv(AfterClose(s, fd, removed))
  {
    CloseIsRun(s, fd, removed);
    var s1 := Step(s, CloseCall(0, fd));
    var s2 := Step(s1, RemoveDone(0, removed));
    InvStep(s, CloseCall(0, fd));
    InvStep(s1, RemoveDone(0, removed));
    InvStep(s2, CloseDone(0));
    InvStep(Step(s2, CloseDone(0)), Notify(0));
  }

  /** Of the sessions Stop found, those not in `todo` any more are closed. */
  ghost predicate AllClosed(sessions: map<Fd, Conn>, todo: map<Fd, Conn>, s: State) {
    forall fd :: fd in sessions ==>
      if fd in todo then todo[fd] == sessions[fd] else sessions[fd] in s.closed && fd !in s.open
  }

  lemma StopBegins(s: State)
    requires s.jobs == map[]
    ensures ValidRun(s, [StopCall(0)])
    ensures Final(s, [StopCall(0)]) == s.(sessions := map[], connHandlers := map[],
                                          jobs := map[0 := Stopping(s.sessions)])
    ensures AllClosed(s.sessions, s.sessions, Final(s, [StopCall(0)]))
  {
    assert [] + [StopCall(0)] == [StopCall(0)];
    RunSnoc(s, [], StopCall(0));
  }

  lemma StopTaken(s: State, todo: map<Fd, Conn>, fd: Fd, removed: bool)
    requires s.jobs == map[0 := Stopping(todo)] && fd in todo
    ensures Step(s, StopRemove(0, fd, removed))
            == Remove(s, fd, removed).(jobs := map[0 := StopClosing(todo - {fd}, fd, todo[fd])])
  {
  }

  lemma StopClosed(s: State, todo: map<Fd, Conn>, fd: Fd, c: Conn)
    requires s.jobs == map[0 := StopClosing(todo, fd, c)] && fd in s.open
    ensures Step(s, StopClose(0))
            == s.(open := s.open - {fd}, closed := s.closed + [s.open[fd]], jobs := map[0 := Stopping(todo)])
  {
  }

  /** One round of Stop's loop. */
  lemma StopOne(s: State, todo: map<Fd, Conn>, fd: Fd, removed: bool)
    requires s.jobs == map[0 := Stopping(todo)] && fd in todo && fd in s.open
    ensures Step(Step(s, StopRemove(0, fd, removed)), StopClose(0))
            == Remove(s, fd, removed).(open := s.open - {fd}, closed := s.closed + [s.open[fd]],
                                       jobs := map[0 := Stopping(todo - {fd})])
  {
    StopTaken(s, todo, fd, removed);
    StopClosed(Step(s, StopRemove(0, fd, removed)), todo - {fd}, fd, todo[fd]);
  }

  lemma ClosedMore(sessions: map<Fd, Conn>, todo: map<Fd, Conn>, s: State, s': State, fd: Fd)
    requires AllClosed(sessions, todo, s) && fd in todo && fd in s.open && s.open[fd] == todo[fd]
    requires s'.open == s.open - {fd} && s'.closed == s.closed + [s.open[fd]]
    ensures AllClosed(sessions, todo - {fd}, s')
  {
  }

  lemma StopRound(s: State, run: seq<Event>, todo: map<Fd, Conn>, fd: Fd, removed: bool) returns (run': seq<Event>)
    requires Inv(s) && ValidRun(s, run) && fd in todo
    requires Final(s, run).jobs == map[0 := Stopping(todo)] && AllClosed(s.sessions, todo, Final(s, run))
    ensures ValidRun(s, run') && fd in Final(s, run).open
    ensures var now := Final(s, run);
            Final(s, run') == Remove(now, fd, removed).(open := now.open - {fd}, closed := now.closed + [now.open[fd]],
                                                        jobs := map[0 := Stopping(todo - {fd})])
    ensures AllClosed(s.sessions, todo - {fd}, Final(s, run'))
  {
    InvRun(s, run);
    assert Fits(Final(s, run), Final(s, run).jobs[0]) && fd in Holds(Stopping(todo));
    StopOne(Final(s, run), todo, fd, removed);
    RunSnoc(s, run, StopRemove(0, fd, removed));
    RunSnoc(s, run + [StopRemove(0, fd, removed)], StopClose(0));
    run' := run + [StopRemove(0, fd, removed)] + [StopClose(0)];
    ClosedMore(s.sessions, todo, Final(s, run), Final(s, run'), fd);
  }

  lemma StopEnds(s: State, run: seq<Event>) returns (run': seq<Event>)
    requires Inv(s) && ValidRun(s, run)
    requires Final(s, run).jobs == map[0 := Stopping(map[])]
    ensures ValidRun(s, run') && Inv(Final(s, run')) && Final(s, run') == Final(s, run).(jobs := map[])
  {
    RunSnoc(s, run, StopEnd(0));
    run' := run + [StopEnd(0)];
    InvRun(s, run');
    assert Final(s, run).jobs - {0} == map[];
  }
}
