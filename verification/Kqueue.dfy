/** The kqueue back end: the reactor's mirror of the kernel's filters, and the send queue of a
    client connection with its interest in write events. */
module KqueueReactor {

  type Fd = int

  /** The events a handler asks for; error and close are not kqueue filters. */
  datatype Events = Events(read: bool, write: bool, error: bool, close: bool)

  datatype Mask = Mask(read: bool, write: bool)

  datatype Filter = ReadFilter | WriteFilter

  datatype Change = Delete(filter: Filter) | Add(filter: Filter)

  /** Outcome of a kevent call that has changes to make; it makes all of them or none. */
  datatype Outcome = Applied | NoEntry | BadFd | OtherError

  const NONE := Mask(false, false)

  function Normalize(e: Events): Mask { Mask(e.read, e.write) }

  function FilterSet(m: Mask): set<Filter> {
    (if m.read then {ReadFilter} else {}) + (if m.write then {WriteFilter} else {})
  }

  function SyncFilter(had: bool, want: bool, f: Filter): seq<Change> {
    if want then [Add(f)] else if had then [Delete(f)] else []
  }

  /** The change list of ApplyEvents. */
  function Changes(want: Mask, had: Mask): seq<Change> {
    SyncFilter(had.read, want.read, ReadFilter) + SyncFilter(had.write, want.write, WriteFilter)
  }

  /** The kernel's side: filters after a list of changes, and whether every delete finds its filter. */
  function After(filters: set<Filter>, changes: seq<Change>): set<Filter>
    decreases |changes|
  {
    if changes == [] then filters
    else match changes[0]
         case Add(f) => After(filters + {f}, changes[1..])
         case Delete(f) => After(filters - {f}, changes[1..])
  }

  predicate AllFound(filters: set<Filter>, changes: seq<Change>) {
    forall i :: 0 <= i < |changes| && changes[i].Delete? ==> changes[i].filter in filters
  }

  /** The change list takes any recorded mask to any wanted one, and deletes only what is there. */
  lemma ChangesReachMask(want: Mask, had: Mask)
    ensures After(FilterSet(had), Changes(want, had)) == FilterSet(want)
    ensures AllFound(FilterSet(had), Changes(want, had))
    ensures Changes(want, had) == [] <==> want == NONE && had == NONE
  {
    var r, w := SyncFilter(had.read, want.read, ReadFilter), SyncFilter(had.write, want.write, WriteFilter);
    var filters := FilterSet(had);
    OneChange(filters, r, w);
    OneChange(After(filters, r), w, []);
    assert r + w + [] == r + w && w + [] == w;
    OneChange(filters, r, []);
    assert r + [] == r;
  }

  /** A list of at most one change comes first. */
  lemma OneChange(filters: set<Filter>, first: seq<Change>, rest: seq<Change>)
    requires |first| <= 1
    ensures After(filters, first + rest) == After(After(filters, first), rest)
    ensures first == [] ==> After(filters, first) == filters
    ensures first != [] ==> After(filters, first)
                            == if first[0].Add? then filters + {first[0].filter} else filters - {first[0].filter}
  {
    if first == [] {
      assert first + rest == rest;
    } else {
      assert first[1..] == [];
      assert (first + rest)[1..] == rest;
    }
  }

  // ---------------------------------------------------------------- the reactor

  /** `kernel` holds the kernel's filters; `gone` are descriptors closed while still registered, and
      `orphans` the masks of handlers removed once the reactor had stopped. `queue`: the kqueue itself
      is open. */
  datatype State = State(
    handlers: map<Fd, nat>, events: map<Fd, Mask>, kernel: map<Fd, set<Filter>>, gone: set<Fd>,
    orphans: map<Fd, Mask>, running: bool, queue: bool)

  function Filters(s: State, fd: Fd): set<Filter> {
    if fd in s.kernel then s.kernel[fd] else {}
  }

  /** What the kernel may answer: a closed descriptor is refused, and an open one reports a missing
      entry only if there is one. */
  predicate Answers(s: State, fd: Fd, changes: seq<Change>, o: Outcome) {
    match o
    case Applied => fd !in s.gone && AllFound(Filters(s, fd), changes)
    case NoEntry => fd in s.gone || !AllFound(Filters(s, fd), changes)
    case BadFd => fd in s.gone
    case OtherError => fd !in s.gone
  }

  /** ApplyEvents: the state with the kernel changed, and the result. */
  function Apply(s: State, fd: Fd, want: Mask, had: Mask, o: Outcome): (State, bool) {
    var changes := Changes(want, had);
    if !s.queue then (s, false)
    else if changes == [] then (s, true)
    else if o.Applied? then (s.(kernel := s.kernel[fd := After(Filters(s, fd), changes)]), true)
    else (s, want == NONE && (o.NoEntry? || o.BadFd?))
  }

  function Register(s: State, fd: Fd, handler: nat, e: Events, o: Outcome): (State, bool) {
    if !s.running || fd in s.handlers then (s, false)
    else
      var t := s.(handlers := s.handlers[fd := handler], events := s.events[fd := Normalize(e)]);
      var (t', ok) := Apply(t, fd, Normalize(e), NONE, o);
      if ok then (t', true) else (t'.(handlers := t'.handlers - {fd}, events := t'.events - {fd}), false)
  }

  function Modify(s: State, fd: Fd, e: Events, o: Outcome): (State, bool) {
    if fd !in s.events then (s, false)
    else if s.events[fd] == Normalize(e) then (s, true)
    else
      var (t, ok) := Apply(s, fd, Normalize(e), s.events[fd], o);
      if ok then (t.(events := t.events[fd := Normalize(e)]), true) else (t, false)
  }

  function Remove(s: State, fd: Fd, o: Outcome): (State, bool) {
    if fd !in s.handlers then (s, false)
    else
      var had := if fd in s.events then s.events[fd] else NONE;
      var (t, ok) := if s.running then Apply(s, fd, NONE, had, o) else (s.(orphans := s.orphans[fd := had]), true);
      if ok then (t.(handlers := t.handlers - {fd}, events := t.events - {fd}), true) else (t, false)
  }

  datatype Call =
    | RegisterCall(fd: Fd, handler: nat, events: Events, outcome: Outcome)
    | ModifyCall(fd: Fd, events: Events, outcome: Outcome)
    | RemoveCall(fd: Fd, outcome: Outcome)
    | CloseFd(fd: Fd)                 // somebody closes the descriptor: its filters vanish
    | OpenFd(fd: Fd)                  // and the number comes back once unregistered
    | Stop                            // the destructor begins
    | CloseQueue                      // closes the kqueue
    | ClearMaps                       // and forgets the handlers

  predicate Enabled(s: State, c: Call) {
    match c
    case RegisterCall(fd, _, e, o) => Answers(s, fd, Changes(Normalize(e), NONE), o)
    case ModifyCall(fd, e, o) =>
      fd in s.events ==> Answers(s, fd, Changes(Normalize(e), s.events[fd]), o)
    case RemoveCall(fd, o) => fd in s.events ==> Answers(s, fd, Changes(NONE, s.events[fd]), o)
    case CloseFd(fd) => fd !in s.gone
    case OpenFd(fd) => fd in s.gone && fd !in s.handlers
    case Stop => s.running
    case CloseQueue => !s.running && s.queue
    case ClearMaps => !s.queue
  }

  function Step(s: State, c: Call): State {
    match c
    case RegisterCall(fd, h, e, o) => Register(s, fd, h, e, o).0
    case ModifyCall(fd, e, o) => Modify(s, fd, e, o).0
    case RemoveCall(fd, o) => Remove(s, fd, o).0
    case CloseFd(fd) => s.(gone := s.gone + {fd}, kernel := s.kernel[fd := {}])
    case OpenFd(fd) => s.(gone := s.gone - {fd}, orphans := s.orphans - {fd})
    case Stop => s.(running := false)
    case CloseQueue => s.(queue := false, kernel := map[])
    case ClearMaps => s.(handlers := map[], events := map[])
  }

  predicate ValidRun(s: State, cs: seq<Call>)
    decreases |cs|
  {
    cs == [] || (Enabled(s, cs[0]) && ValidRun(Step(s, cs[0]), cs[1..]))
  }

  function Final(s: State, cs: seq<Call>): State
    requires ValidRun(s, cs)
    decreases |cs|
  {
    if cs == [] then s else Final(Step(s, cs[0]), cs[1..])
  }

  const STARTED := State(map[], map[], map[], {}, map[], true, true)

  /** What the kernel should have for a descriptor: its recorded mask, or the mask it had when its
      handler was removed too late. */
  function Expected(s: State, fd: Fd): set<Filter> {
    if !s.queue || fd in s.gone then {}
    else if fd in s.events then FilterSet(s.events[fd])
    else if fd in s.orphans then FilterSet(s.orphans[fd])
    else {}
  }

  ghost predicate Mirror(s: State) {
    && s.handlers.Keys == s.events.Keys
    && (s.running ==> s.queue && s.orphans == map[])
    && forall fd :: Filters(s, fd) == Expected(s, fd)
  }

  lemma RegisterKeeps(s: State, fd: Fd, h: nat, e: Events, o: Outcome)
    requires Mirror(s) && Answers(s, fd, Changes(Normalize(e), NONE), o)
    ensures var (t, ok) := Register(s, fd, h, e, o);
            && Mirror(t)
            && (ok <==> s.running && fd !in s.handlers && (Normalize(e) == NONE || o.Applied?))
            && (ok ==> t.handlers == s.handlers[fd := h] && t.events == s.events[fd := Normalize(e)])
            && (!ok ==> t == s)
  {
    if s.running && fd !in s.handlers {
      RegisterNew(s, fd, h, e, o);
    }
  }

  lemma RegisterNew(s: State, fd: Fd, h: nat, e: Events, o: Outcome)
    requires Mirror(s) && s.running && fd !in s.handlers && Answers(s, fd, Changes(Normalize(e), NONE), o)
    ensures var (t, ok) := Register(s, fd, h, e, o);
            && Mirror(t)
            && (ok <==> Normalize(e) == NONE || o.Applied?)
            && (ok ==> t.handlers == s.handlers[fd := h] && t.events == s.events[fd := Normalize(e)])
            && (!ok ==> t == s)
  {
    ChangesReachMask(Normalize(e), NONE);
    var (t, ok) := Register(s, fd, h, e, o);
    assert fd !in s.events.Keys;
    assert Filters(s, fd) == Expected(s, fd) == {};
    assert s.handlers[fd := h] - {fd} == s.handlers && s.events[fd := Normalize(e)] - {fd} == s.events;
    if ok {
      assert FilterSet(NONE) == {};
      assert Filters(t, fd) == Expected(t, fd);
    } else {
      assert t == s;
    }
    forall g ensures Filters(t, g) == Expected(t, g) {
      assert Filters(s, g) == Expected(s, g);
    }
  }

  lemma ModifyKeeps(s: State, fd: Fd, e: Events, o: Outcome)
    requires Mirror(s)
    requires fd in s.events ==> Answers(s, fd, Changes(Normalize(e), s.events[fd]), o)
    ensures var (t, ok) := Modify(s, fd, e, o);
            && Mirror(t)
            && (ok <==> fd in s.events
                        && (s.events[fd] == Normalize(e)
                            || (s.queue && (o.Applied? || (Normalize(e) == NONE && (o.NoEntry? || o.BadFd?))))))
            && (ok ==> t.handlers == s.handlers && t.events == s.events[fd := Normalize(e)])
            && (!ok ==> t == s)
  {
    var t := Modify(s, fd, e, o).0;
    if fd in s.events {
      ChangesReachMask(Normalize(e), s.events[fd]);
    }
    forall g ensures Filters(t, g) == Expected(t, g) {
      assert Filters(s, g) == Expected(s, g);
    }
  }

  lemma RemoveKeeps(s: State, fd: Fd, o: Outcome)
    requires Mirror(s)
    requires fd in s.events ==> Answers(s, fd, Changes(NONE, s.events[fd]), o)
    ensures var (t, ok) := Remove(s, fd, o);
            && Mirror(t)
            && (ok <==> fd in s.handlers
                        && (s.running && fd in s.events && s.events[fd] != NONE ==> !o.OtherError?))
            && (ok ==> t.handlers == s.handlers - {fd} && t.events == s.events - {fd})
            && (ok && s.running ==> Filters(t, fd) == {})
            && (!ok ==> t == s)
  {
    var t := Remove(s, fd, o).0;
    if fd in s.events {
      ChangesReachMask(NONE, s.events[fd]);
    }
    assert fd in s.handlers ==> fd in s.events.Keys;
    forall g ensures Filters(t, g) == Expected(t, g) {
      assert Filters(s, g) == Expected(s, g);
    }
  }

  lemma MirrorStep(s: State, c: Call)
    requires Mirror(s) && Enabled(s, c)
    ensures Mirror(Step(s, c))
  {
    match c
    case RegisterCall(fd, h, e, o) => RegisterKeeps(s, fd, h, e, o);
    case ModifyCall(fd, e, o) => ModifyKeeps(s, fd, e, o);
    case RemoveCall(fd, o) => RemoveKeeps(s, fd, o);
    case CloseFd(fd) => OthersKeep(s, c);
    case OpenFd(fd) => OthersKeep(s, c);
    case Stop => OthersKeep(s, c);
    case CloseQueue => OthersKeep(s, c);
    case ClearMaps => OthersKeep(s, c);
  }

  lemma OthersKeep(s: State, c: Call)
    requires Mirror(s) && Enabled(s, c) && !c.RegisterCall? && !c.ModifyCall? && !c.RemoveCall?
    ensures Mirror(Step(s, c))
  {
    forall g ensures Filters(Step(s, c), g) == Expected(Step(s, c), g) {
      assert Filters(s, g) == Expected(s, g);
    }
  }

  lemma {:induction false} MirrorFrom(s: State, cs: seq<Call>)
    requires Mirror(s) && ValidRun(s, cs)
    ensures Mirror(Final(s, cs))
    decreases |cs|
  {
    if cs != [] {
      MirrorStep(s, cs[0]);
      MirrorFrom(Step(s, cs[0]), cs[1..]);
    }
  }

  /** After any calls, failed ones, closed descriptors and the reactor's own end included, both maps
      have the same keys. While the reactor runs, the kernel's filters of every descriptor are exactly
      its recorded mask, and none if it is not registered or was closed; later, those removed too late
      are the only others. */
  lemma MirrorRun(cs: seq<Call>)
    requires ValidRun(STARTED, cs)
    ensures var s := Final(STARTED, cs);
            && s.handlers.Keys == s.events.Keys
            && (forall fd :: Filters(s, fd) == Expected(s, fd))
            && (s.running ==> forall fd ::
                  Filters(s, fd) == if fd in s.events && fd !in s.gone then FilterSet(s.events[fd]) else {})
  {
    MirrorFrom(STARTED, cs);
  }

  /** The masks on record after a call, by what was asked and what the kernel said. */
  function MasksAfter(s: State, c: Call): map<Fd, Mask> {
    match c
    case RegisterCall(fd, _, e, o) =>
      if s.running && fd !in s.handlers && (Normalize(e) == NONE || o.Applied?) then s.events[fd := Normalize(e)]
      else s.events
    case ModifyCall(fd, e, o) =>
      if fd in s.events && s.queue && (o.Applied? || (Normalize(e) == NONE && !o.OtherError?)) then
        s.events[fd := Normalize(e)]
      else s.events
    case RemoveCall(fd, o) =>
      if s.running && fd in s.events && s.events[fd] != NONE && o.OtherError? then s.events else s.events - {fd}
    case ClearMaps => map[]
    case _ => s.events
  }

  /** After any calls the next one leaves exactly these masks on record, hence (`MirrorRun`) in the kernel; a
      descriptor closed is gone until its number comes back. */
  lemma RecordedMasks(cs: seq<Call>, c: Call)
    requires ValidRun(STARTED, cs) && Enabled(Final(STARTED, cs), c)
    ensures var s := Final(STARTED, cs);
            && Step(s, c).events == MasksAfter(s, c)
            && Step(s, c).gone == s.gone + (if c.CloseFd? then {c.fd} else {}) - (if c.OpenFd? then {c.fd} else {})
  {
    MirrorFrom(STARTED, cs);
    var s := Final(STARTED, cs);
    match c
    case RegisterCall(fd, h, e, o) => RegisterKeeps(s, fd, h, e, o);
    case ModifyCall(fd, e, o) =>
      ModifyKeeps(s, fd, e, o);
      if fd in s.events && s.events[fd] == Normalize(e) {
        assert s.events[fd := Normalize(e)] == s.events;
      }
    case RemoveCall(fd, o) =>
      RemoveKeeps(s, fd, o);
      assert fd in s.handlers <==> fd in s.events.Keys;
      if fd !in s.events {
        assert s.events - {fd} == s.events;
      }
    case _ =>
  }

  /** The reactor's end: the kqueue is closed, and nothing is left in it or in the maps. */
  lemma EndsEmpty(s: State)
    requires s.running && s.queue
    ensures ValidRun(s, [Stop] + ([CloseQueue] + ([ClearMaps] + [])))
    ensures var r := Final(s, [Stop] + ([CloseQueue] + ([ClearMaps] + [])));
            !r.running && !r.queue && r.handlers == map[] && r.events == map[] && r.kernel == map[]
  {
    var s1 := Step(s, Stop);
    var s2 := Step(s1, CloseQueue);
    Cons(s2, ClearMaps, []);
    Cons(s1, CloseQueue, [ClearMaps] + []);
    Cons(s, Stop, [CloseQueue] + ([ClearMaps] + []));
  }

  /** Once the reactor has stopped, removing a handler no longer reaches the kernel: it succeeds, and
      leaves filters behind exactly if the descriptor had some. */
  lemma RemoveAfterStop(cs: seq<Call>, fd: Fd, o: Outcome)
    requires ValidRun(STARTED, cs) && !Final(STARTED, cs).running && fd in Final(STARTED, cs).handlers
    ensures var s := Final(STARTED, cs);
            var (t, ok) := Remove(s, fd, o);
            && ok && fd !in t.handlers && fd !in t.events
            && fd in s.events
            && (Filters(t, fd) != {} <==> s.queue && fd !in s.gone && s.events[fd] != NONE)
  {
    MirrorFrom(STARTED, cs);
    var s := Final(STARTED, cs);
    assert fd in s.events.Keys;
    assert Filters(s, fd) == Expected(s, fd);
    var m := s.events[fd];
    assert m.read ==> ReadFilter in FilterSet(m);
    assert m.write ==> WriteFilter in FilterSet(m);
  }

  const READING := Events(true, false, true, true)

  /** Register for reading, stop, remove: the handler is gone and the kernel still has its filter. */
  lemma RemoveTooLate(fd: Fd)
    ensures var cs := [RegisterCall(fd, 0, READING, Applied)] + ([Stop] + ([RemoveCall(fd, Applied)] + []));
            && ValidRun(STARTED, cs)
            && fd !in Final(STARTED, cs).handlers && Filters(Final(STARTED, cs), fd) == {ReadFilter}
  {
    var mask := Mask(true, false);
    var s1 := STARTED.(handlers := map[fd := 0], events := map[fd := mask], kernel := map[fd := {ReadFilter}]);
    ChangesReachMask(mask, NONE);
    assert FilterSet(NONE) == {} && FilterSet(mask) == {ReadFilter};
    assert Step(STARTED, RegisterCall(fd, 0, READING, Applied)) == s1;
    var s2 := s1.(running := false);
    ChangesReachMask(NONE, mask);
    Cons(s2, RemoveCall(fd, Applied), []);
    Cons(s1, Stop, [RemoveCall(fd, Applied)] + []);
    Cons(STARTED, RegisterCall(fd, 0, READING, Applied), [Stop] + ([RemoveCall(fd, Applied)] + []));
  }

  lemma Cons(s: State, c: Call, rest: seq<Call>)
    requires Enabled(s, c) && ValidRun(Step(s, c), rest)
    ensures ValidRun(s, [c] + rest)
    ensures Final(s, [c] + rest) == Final(Step(s, c), rest)
  {
    assert ([c] + rest)[1..] == rest;
  }

  /** The reactor; `kernel` and `gone` stand for the kernel's side. */
  class EventReactor {
    var handlers: map<Fd, nat>
    var handlerEvents: map<Fd, Mask>
    var kernel: map<Fd, set<Filter>>
    ghost var gone: set<Fd>
    ghost var orphans: map<Fd, Mask>
    var running: bool
    var queue: bool

    ghost function Now(): State
      reads this
    {
      State(handlers, handlerEvents, kernel, gone, orphans, running, queue)
    }

    constructor ()
      ensures Now() == STARTED && Mirror(Now())
    {
      handlers, handlerEvents, kernel, gone, orphans := map[], map[], map[], {}, map[];
      running, queue := true, true;
    }

    method SyncOne(changes: seq<Change>, had: bool, want: bool, f: Filter) returns (r: seq<Change>)
      ensures r == changes + SyncFilter(had, want, f)
    {
      if had && !want {
        return changes + [Delete(f)];
      } else if !had && want {
        return changes + [Add(f)];
      } else if had && want {
        return changes + [Add(f)];
      }
      return changes;
    }

    method ApplyEvents(fd: Fd, want: Mask, had: Mask, o: Outcome) returns (ok: bool)
      modifies this`kernel
      ensures (Now(), ok) == Apply(old(Now()), fd, want, had, o)
    {
      if !queue {
        return false;
      }
      var changes := SyncOne([], had.read, want.read, ReadFilter);
      changes := SyncOne(changes, had.write, want.write, WriteFilter);
      assert changes == Changes(want, had);
      if changes == [] {
        return true;
      }
      if o.Applied? {
        kernel := kernel[fd := After(if fd in kernel then kernel[fd] else {}, changes)];
        return true;
      }
      if want == NONE && (o.NoEntry? || o.BadFd?) {
        return true;
      }
      return false;
    }

    method RegisterHandler(fd: Fd, handler: nat, e: Events, o: Outcome) returns (ok: bool)
      modifies this
      ensures (Now(), ok) == Register(old(Now()), fd, handler, e, o)
    {
      if !running || fd in handlers {
        return false;
      }
      handlers := handlers[fd := handler];
      handlerEvents := handlerEvents[fd := Normalize(e)];
      ok := ApplyEvents(fd, Normalize(e), NONE, o);
      if !ok {
        handlers := handlers - {fd};
        handlerEvents := handlerEvents - {fd};
      }
    }

    method ModifyHandler(fd: Fd, e: Events, o: Outcome) returns (ok: bool)
      modifies this
      ensures (Now(), ok) == Modify(old(Now()), fd, e, o)
    {
      if fd !in handlerEvents {
        return false;
      }
      var oldEvents := handlerEvents[fd];
      if oldEvents == Normalize(e) {
        return true;
      }
      ok := ApplyEvents(fd, Normalize(e), oldEvents, o);
      if ok {
        handlerEvents := handlerEvents[fd := Normalize(e)];
      }
    }

    method RemoveHandler(fd: Fd, o: Outcome) returns (ok: bool)
      modifies this
      ensures (Now(), ok) == Remove(old(Now()), fd, o)
    {
      if fd !in handlers {
        return false;
      }
      var oldEvents := NONE;
      if fd in handlerEvents {
        oldEvents := handlerEvents[fd];
      }
      if running {
        ok := ApplyEvents(fd, NONE, oldEvents, o);
        if !ok {
          return false;
        }
      } else {
        orphans := orphans[fd := oldEvents];
      }
      handlers := handlers - {fd};
      handlerEvents := handlerEvents - {fd};
      return true;
    }
  }
}

/** The send queue of a kqueue client connection. */
module KqueueClient {

  type Bytes = seq<bv8>

  /** The reactor thread in ProcessSendQueue. */
  datatype Sender =
    | Away
    | Looping                        // about to look at the queue
    | Sending(data: Bytes)           // front copied, about to call send
    | Took(data: Bytes, count: nat)  // send took some bytes

  /** `owing`: threads that changed the flag and have not yet told the reactor. */
  datatype State = State(
    queue: seq<Bytes>, writeEnabled: bool, registered: bool, owing: nat, sender: Sender,
    wire: Bytes, accepted: Bytes)

  const INITIAL := State([], false, false, 0, Away, [], [])

  datatype Event =
    | QueueSend(data: Bytes)
    | Tell                           // GetEvents and ModifyHandler, as one step
    | Writable                       // the reactor dispatches a write event
    | Look
    | SendTakes(count: nat)
    | SendZero
    | SendStops                      // full, or a hard error: the loop is left
    | Trim

  predicate Enabled(s: State, e: Event) {
    match e
    case QueueSend(data) => data != []
    case Tell => s.owing > 0
    case Writable => s.sender.Away?
    case Look => s.sender.Looping?
    case SendTakes(count) => s.sender.Sending? && 1 <= count <= |s.sender.data|
    case SendZero => s.sender.Sending?
    case SendStops => s.sender.Sending?
    case Trim => s.sender.Took?
  }

  function SetFlag(s: State, on: bool): State {
    if s.writeEnabled == on then s else s.(writeEnabled := on, owing := s.owing + 1)
  }

  function Step(s: State, e: Event): State
    requires Enabled(s, e)
  {
    match e
    case QueueSend(data) => SetFlag(s.(queue := s.queue + [data], accepted := s.accepted + data), true)
    case Tell => s.(registered := s.writeEnabled, owing := s.owing - 1)
    case Writable => s.(sender := Looping)
    case Look =>
      if s.queue == [] then SetFlag(s, false).(sender := Away) else s.(sender := Sending(s.queue[0]))
    case SendTakes(count) =>
      s.(sender := Took(s.sender.data, count), wire := s.wire + s.sender.data[..count])
    case SendZero => s.(sender := Looping)
    case SendStops => s.(sender := Away)
    case Trim =>
      var data, count := s.sender.data, s.sender.count;
      if s.queue == [] then s.(sender := Looping)
      else if count == |data| then s.(sender := Looping, queue := s.queue[1..])
      else if count < |data| then s.(sender := Away, queue := s.queue[0 := data[count..]])
      else s
  }

  predicate ValidRun(s: State, es: seq<Event>)
    decreases |es|
  {
    es == [] || (Enabled(s, es[0]) && ValidRun(Step(s, es[0]), es[1..]))
  }

  function Final(s: State, es: seq<Event>): State
    requires ValidRun(s, es)
    decreases |es|
  {
    if es == [] then s else Final(Step(s, es[0]), es[1..])
  }

  function Flat(queue: seq<Bytes>): Bytes {
    if queue == [] then [] else queue[0] + Flat(queue[1..])
  }

  lemma {:induction false} FlatPush(queue: seq<Bytes>, data: Bytes)
    ensures Flat(queue + [data]) == Flat(queue) + data
  {
    if queue == [] {
      assert queue + [data] == [data] && [data][1..] == [];
    } else {
      FlatPush(queue[1..], data);
      assert (queue + [data])[1..] == queue[1..] + [data];
    }
  }

  /** What of the queue is not yet on the wire. */
  function Unsent(s: State): Bytes {
    if s.sender.Took? && s.queue != [] && s.sender.count <= |s.queue[0]| then
      s.queue[0][s.sender.count..] + Flat(s.queue[1..])
    else Flat(s.queue)
  }

  ghost predicate Inv(s: State) {
    && (s.queue != [] ==> s.writeEnabled)
    && (s.registered != s.writeEnabled ==> s.owing > 0)
    && (forall i :: 0 <= i < |s.queue| ==> s.queue[i] != [])
    && (s.sender.Sending? || s.sender.Took? ==> s.queue != [] && s.queue[0] == s.sender.data)
    && (s.sender.Took? ==> 1 <= s.sender.count <= |s.sender.data|)
    && s.wire + Unsent(s) == s.accepted
  }

  lemma UnsentQueued(s: State, data: Bytes)
    requires Inv(s) && data != []
    ensures Unsent(Step(s, QueueSend(data))) == Unsent(s) + data
  {
    var queue := s.queue + [data];
    if s.sender.Took? {
      assert queue[1..] == s.queue[1..] + [data] && queue[0] == s.queue[0];
      FlatPush(s.queue[1..], data);
      Assoc(s.queue[0][s.sender.count..], Flat(s.queue[1..]), data);
    } else {
      FlatPush(s.queue, data);
    }
  }

  lemma Assoc(a: Bytes, b: Bytes, c: Bytes)
    ensures a + (b + c) == (a + b) + c
  {
  }

  lemma QueueKeeps(s: State, data: Bytes)
    requires Inv(s) && data != []
    ensures Inv(Step(s, QueueSend(data)))
  {
    UnsentQueued(s, data);
    Assoc(s.wire, Unsent(s), data);
    assert (s.queue + [data])[0] == if s.queue == [] then data else s.queue[0];
  }

  lemma SendKeeps(s: State, count: nat)
    requires Inv(s) && Enabled(s, SendTakes(count))
    ensures Inv(Step(s, SendTakes(count)))
  {
    var data, rest := s.sender.data, Flat(s.queue[1..]);
    assert data == data[..count] + data[count..];
    Assoc(data[..count], data[count..], rest);
    Assoc(s.wire, data[..count], data[count..] + rest);
  }

  lemma UnsentTrimmed(s: State)
    requires Inv(s) && Enabled(s, Trim)
    ensures Unsent(Step(s, Trim)) == Unsent(s)
  {
    var data, count := s.sender.data, s.sender.count;
    if count == |data| {
      assert data[count..] + Flat(s.queue[1..]) == Flat(s.queue[1..]);
    } else {
      var queue := s.queue[0 := data[count..]];
      assert queue[0] == data[count..] && queue[1..] == s.queue[1..];
    }
  }

  lemma TrimKeeps(s: State)
    requires Inv(s) && Enabled(s, Trim)
    ensures Inv(Step(s, Trim))
  {
    UnsentTrimmed(s);
  }

  lemma {:induction false} InvRun(s: State, es: seq<Event>)
    requires Inv(s) && ValidRun(s, es)
    ensures Inv(Final(s, es))
    decreases |es|
  {
    if es != [] {
      match es[0] {
        case QueueSend(data) => QueueKeeps(s, data);
        case SendTakes(count) => SendKeeps(s, count);
        case Trim => TrimKeeps(s);
        case Tell =>
        case Writable =>
        case Look =>
        case SendZero =>
        case SendStops =>
      }
      InvRun(Step(s, es[0]), es[1..]);
    }
  }

  /** How often the run changes the flag, and how often it tells the reactor. */
  function Flips(s: State, es: seq<Event>): nat
    requires ValidRun(s, es)
    decreases |es|
  {
    if es == [] then 0
    else (if Step(s, es[0]).writeEnabled != s.writeEnabled then 1 else 0) + Flips(Step(s, es[0]), es[1..])
  }

  function Tells(es: seq<Event>): nat {
    if es == [] then 0 else (if es[0].Tell? then 1 else 0) + Tells(es[1..])
  }

  /** What the run has been given to send. */
  function Given(es: seq<Event>): Bytes {
    if es == [] then [] else (if es[0].QueueSend? then es[0].data else []) + Given(es[1..])
  }

  lemma {:induction false} FlipsTold(s: State, es: seq<Event>)
    requires ValidRun(s, es)
    ensures Final(s, es).owing + Tells(es) == s.owing + Flips(s, es)
    ensures Final(s, es).accepted == s.accepted + Given(es)
    decreases |es|
  {
    if es != [] {
      FlipsTold(Step(s, es[0]), es[1..]);
    }
  }

  lemma FromTheStart(es: seq<Event>)
    requires ValidRun(INITIAL, es)
    ensures Final(INITIAL, es).owing + Tells(es) == Flips(INITIAL, es)
    ensures Final(INITIAL, es).accepted == Given(es)
  {
    FlipsTold(INITIAL, es);
    assert [] + Given(es) == Given(es);
  }

  /** For all interleavings of senders with the reactor thread: a non-empty queue implies the flag,
      the registered interest is the flag whenever nobody still has to tell the reactor, so nothing
      queued is stranded at rest; the reactor is told once for each change of the flag; and no byte given
      to QueueSend is lost, doubled or reordered. */
  lemma InterestFollowsQueue(es: seq<Event>)
    requires ValidRun(INITIAL, es)
    ensures var s := Final(INITIAL, es);
            && (s.queue != [] ==> s.writeEnabled)
            && (s.owing == 0 ==> s.registered == s.writeEnabled)
            && (s.owing == 0 && s.queue != [] ==> s.registered)
            && s.owing + Tells(es) == Flips(INITIAL, es)
            && s.wire + Unsent(s) == Given(es)
  {
    InvRun(INITIAL, es);
    FromTheStart(es);
  }

  /** What one send answers. */
  datatype Answer = Takes(count: nat) | Blocks | Breaks

  datatype Out = Out(queue: seq<Bytes>, writeEnabled: bool, wire: Bytes)

  /** ProcessSendQueue without interruption, given the kernel's answers; they run out as on a full
      socket. The result says whether the reactor must be told. */
  function Process(o: Out, answers: seq<Answer>): (Out, bool)
    decreases |answers|
  {
    if o.queue == [] then (o.(writeEnabled := false), o.writeEnabled)
    else if answers == [] then (o, false)
    else
      var data := o.queue[0];
      match answers[0]
      case Blocks => (o, false)
      case Breaks => (o, false)
      case Takes(count) =>
        if count == 0 then Process(o, answers[1..])
        else if count >= |data| then Process(Out(o.queue[1..], o.writeEnabled, o.wire + data), answers[1..])
        else (Out([data[count..]] + o.queue[1..], o.writeEnabled, o.wire + data[..count]), false)
  }

  lemma {:induction false} ProcessKeeps(o: Out, answers: seq<Answer>)
    requires o.queue != [] ==> o.writeEnabled
    ensures var (r, tell) := Process(o, answers);
            && r.wire + Flat(r.queue) == o.wire + Flat(o.queue)
            && (r.queue != [] ==> r.writeEnabled)
            && (tell <==> r.writeEnabled != o.writeEnabled)
    decreases |answers|
  {
    if o.queue != [] && answers != [] && answers[0].Takes? {
      var data, count := o.queue[0], answers[0].count;
      if count == 0 {
        ProcessKeeps(o, answers[1..]);
      } else if count >= |data| {
        ProcessKeeps(Out(o.queue[1..], o.writeEnabled, o.wire + data), answers[1..]);
        assert (o.wire + data) + Flat(o.queue[1..]) == o.wire + (data + Flat(o.queue[1..]));
      } else {
        assert ([data[count..]] + o.queue[1..])[1..] == o.queue[1..];
        assert data == data[..count] + data[count..];
        assert (o.wire + data[..count]) + (data[count..] + Flat(o.queue[1..])) == o.wire + (data + Flat(o.queue[1..]));
      }
    }
  }

  lemma Cons(s: State, e: Event, rest: seq<Event>)
    requires Enabled(s, e) && ValidRun(Step(s, e), rest)
    ensures ValidRun(s, [e] + rest) && Final(s, [e] + rest) == Final(Step(s, e), rest)
  {
    assert ([e] + rest)[1..] == rest;
  }

  /** Where the loop leaves the machine. */
  function AfterProcess(s: State, answers: seq<Answer>): State {
    var (o, tell) := Process(Out(s.queue, s.writeEnabled, s.wire), answers);
    s.(queue := o.queue, writeEnabled := o.writeEnabled, wire := o.wire, sender := Away,
       owing := s.owing + if tell then 1 else 0)
  }

  /** What is made of one send: the message is sent, or begun and put back, or nothing happens. */
  function AfterSend(s: State, count: nat): State
    requires s.queue != []
  {
    var data := s.queue[0];
    if count == 0 then s
    else if count >= |data| then s.(queue := s.queue[1..], wire := s.wire + data)
    else s.(queue := [data[count..]] + s.queue[1..], wire := s.wire + data[..count], sender := Away)
  }

  lemma SendOnce(s: State, count: nat, rest: seq<Event>) returns (es: seq<Event>)
    requires s.sender == Looping && s.queue != [] && s.queue[0] != [] && ValidRun(AfterSend(s, count), rest)
    ensures ValidRun(s, es) && Final(s, es) == Final(AfterSend(s, count), rest)
  {
    var data := s.queue[0];
    var s1 := Step(s, Look);
    if count == 0 {
      Cons(s1, SendZero, rest);
      Cons(s, Look, [SendZero] + rest);
      es := [Look] + ([SendZero] + rest);
    } else {
      var n := if count < |data| then count else |data|;
      var s2 := Step(s1, SendTakes(n));
      assert data[..|data|] == data;
      assert s.queue[0 := data[n..]] == [data[n..]] + s.queue[1..];
      Cons(s2, Trim, rest);
      Cons(s1, SendTakes(n), [Trim] + rest);
      Cons(s, Look, [SendTakes(n)] + ([Trim] + rest));
      es := [Look] + ([SendTakes(n)] + ([Trim] + rest));
    }
  }

  lemma StopRun(s: State)
    requires s.sender == Looping && s.queue != []
    ensures ValidRun(s, [Look] + ([SendStops] + [])) && Final(s, [Look] + ([SendStops] + [])) == s.(sender := Away)
  {
    Cons(Step(s, Look), SendStops, []);
    Cons(s, Look, [SendStops] + []);
  }

  lemma {:induction false} LoopIsRun(s: State, answers: seq<Answer>) returns (es: seq<Event>)
    requires s.sender == Looping && forall i :: 0 <= i < |s.queue| ==> s.queue[i] != []
    ensures ValidRun(s, es) && Final(s, es) == AfterProcess(s, answers)
    decreases |answers|
  {
    if s.queue == [] {
      Cons(s, Look, []);
      es := [Look] + [];
    } else if answers == [] || !answers[0].Takes? {
      StopRun(s);
      es := [Look] + ([SendStops] + []);
    } else {
      var data, count := s.queue[0], answers[0].count;
      var rest := [];
      if count == 0 || count >= |data| {
        rest := LoopIsRun(AfterSend(s, count), answers[1..]);
      }
      es := SendOnce(s, count, rest);
    }
  }

  /** A write event runs the loop as a run of the machine, in which nobody else moves. */
  lemma ProcessIsRun(s: State, answers: seq<Answer>) returns (es: seq<Event>)
    requires s.sender == Away && forall i :: 0 <= i < |s.queue| ==> s.queue[i] != []
    ensures ValidRun(s, es) && Final(s, es) == AfterProcess(s, answers)
  {
    var loop := LoopIsRun(Step(s, Writable), answers);
    Cons(s, Writable, loop);
    es := [Writable] + loop;
  }

  /** How many bytes these answers take: whole messages up to the first that is only begun. */
  function Amount(queue: seq<Bytes>, answers: seq<Answer>): nat
    decreases |answers|
  {
    if queue == [] || answers == [] || !answers[0].Takes? then 0
    else if answers[0].count == 0 then Amount(queue, answers[1..])
    else if answers[0].count < |queue[0]| then answers[0].count
    else |queue[0]| + Amount(queue[1..], answers[1..])
  }

  /** The answers take every message whole. */
  predicate TakesAll(queue: seq<Bytes>, answers: seq<Answer>)
    decreases |answers|
  {
    queue == []
    || (answers != [] && answers[0].Takes?
        && if answers[0].count == 0 then TakesAll(queue, answers[1..])
           else answers[0].count >= |queue[0]| && TakesAll(queue[1..], answers[1..]))
  }

  /** The loop sends as much as the kernel takes. It empties the queue exactly if every message is taken whole: then
      everything is on the wire, the flag is off and the reactor is told if it was on; otherwise neither changes. */
  lemma {:induction false} ProcessSends(o: Out, answers: seq<Answer>)
    ensures var (r, tell) := Process(o, answers);
            && |r.wire| == |o.wire| + Amount(o.queue, answers)
            && (if TakesAll(o.queue, answers) then
                  r == Out([], false, o.wire + Flat(o.queue)) && tell == o.writeEnabled
                else r.queue != [] && r.writeEnabled == o.writeEnabled && !tell)
    decreases |answers|
  {
    if o.queue != [] && answers != [] && answers[0].Takes? {
      var data, count := o.queue[0], answers[0].count;
      if count == 0 {
        ProcessSends(o, answers[1..]);
      } else if count >= |data| {
        ProcessSends(Out(o.queue[1..], o.writeEnabled, o.wire + data), answers[1..]);
        Assoc(o.wire, data, Flat(o.queue[1..]));
      }
    }
  }

  /** The handler; `wire` is what send has taken. */
  class TcpClientHandler {
    var sendQueue: seq<Bytes>
    var writeEventsEnabled: bool
    var wire: Bytes

    ghost function Now(): Out
      reads this
    {
      Out(sendQueue, writeEventsEnabled, wire)
    }

    constructor ()
      ensures Now() == Out([], false, [])
    {
      sendQueue, writeEventsEnabled, wire := [], false, [];
    }

    method QueueSend(data: Bytes) returns (shouldModify: bool)
      modifies this`sendQueue, this`writeEventsEnabled
      ensures data == [] ==> Now() == old(Now()) && !shouldModify
      ensures data != [] ==> Now() == Out(old(sendQueue) + [data], true, old(wire))
                             && shouldModify == !old(writeEventsEnabled)
    {
      if |data| == 0 {
        return false;
      }
      sendQueue := sendQueue + [data];
      shouldModify := false;
      if !writeEventsEnabled {
        writeEventsEnabled := true;
        shouldModify := true;
      }
    }

    method ProcessSendQueue(answers: seq<Answer>) returns (shouldModify: bool)
      modifies this
      ensures (Now(), shouldModify) == Process(old(Now()), answers)
    {
      shouldModify := false;
      var k := 0;
      while true
        invariant 0 <= k <= |answers| && !shouldModify
        invariant Process(Now(), answers[k..]) == Process(old(Now()), answers)
        decreases |answers| - k
      {
        if sendQueue == [] {
          if writeEventsEnabled {
            writeEventsEnabled := false;
            shouldModify := true;
          }
          return;
        }
        if k == |answers| {
          return;
        }
        var data := sendQueue[0];
        var answer := answers[k];
        assert answers[k..][0] == answer && answers[k..][1..] == answers[k + 1..];
        k := k + 1;
        match answer {
          case Blocks =>
            return;
          case Breaks =>
            return;
          case Takes(count) =>
            if count >= |data| && count > 0 {
              wire := wire + data;
              sendQueue := sendQueue[1..];
            } else if count > 0 {
              wire := wire + data[..count];
              sendQueue := [data[count..]] + sendQueue[1..];
              return;
            }
        }
      }
    }
  }
}
