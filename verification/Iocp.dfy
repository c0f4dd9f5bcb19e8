/** The Windows I/O completion port manager: its request pool, its workers and how they stop.

    A request is known by its index, which stands for its address: 0 .. entries-1 are the requests
    allocated at start, later ones those added when the pool grows. */
module Iocp {
  import opened Common

  // ---------------------------------------------------------------- the request pool

  datatype Pool = Pool(fixed: nat, dynamic: nat, maxEntries: nat, free: seq<nat>, active: int)

  function Max(a: nat, b: nat): (m: nat)
    ensures m >= a && m >= b && (m == a || m == b)
  {
    if a < b then b else a
  }

  function NewPool(entries: nat): Pool {
    Pool(entries, 0, Max(entries * 4, entries + 64), seq(entries, i => i), 0)
  }

  function Size(p: Pool): nat { p.fixed + p.dynamic }

  /** The first half of GetRequest: a request leaves the free list, or the pool grows. */
  function Pop(p: Pool): (r: (Option<nat>, Pool)) {
    if p.free == [] then
      if Size(p) < p.maxEntries then (Some(Size(p)), p.(dynamic := p.dynamic + 1)) else (None, p)
    else (Some(p.free[|p.free| - 1]), p.(free := p.free[..|p.free| - 1]))
  }

  function Count(p: Pool, d: int): Pool {
    p.(active := p.active + d)
  }

  function Get(p: Pool): (r: (Option<nat>, Pool)) {
    var (id, q) := Pop(p);
    (id, if id.Some? then Count(q, 1) else q)
  }

  function Push(p: Pool, id: nat): Pool {
    p.(free := p.free + [id])
  }

  function Put(p: Pool, id: nat): Pool {
    Count(Push(p, id), -1)
  }

  /** Free and in-use requests together are the whole pool and never overlap. */
  ghost predicate PoolCore(p: Pool, inUse: set<nat>) {
    && NoDup(p.free)
    && |inUse| + |p.free| == Size(p)
    && Size(p) <= p.maxEntries
    && p.maxEntries == Max(p.fixed * 4, p.fixed + 64)
    && (forall i :: 0 <= i < |p.free| ==> p.free[i] < Size(p) && p.free[i] !in inUse)
    && (forall id :: id in inUse ==> id < Size(p))
  }

  /** And `active` counts the ones in use. */
  ghost predicate PoolHolds(p: Pool, inUse: set<nat>) {
    PoolCore(p, inUse) && p.active == |inUse|
  }

  lemma NewPoolHolds(entries: nat)
    ensures PoolHolds(NewPool(entries), {})
  {
  }

  /** A request popped was not in use before; none is popped exactly when the limit of
      max(4*entries, entries+64) requests are in use. */
  lemma PopHolds(p: Pool, inUse: set<nat>)
    requires PoolCore(p, inUse)
    ensures match Pop(p).0
            case Some(id) => id !in inUse && PoolCore(Pop(p).1, inUse + {id})
            case None => Pop(p).1 == p
    ensures Pop(p).0 == None <==> |inUse| == Max(p.fixed * 4, p.fixed + 64)
    ensures Pop(p).1.active == p.active
  {
    if p.free != [] {
      var last := p.free[|p.free| - 1];
      assert last !in inUse;
    } else if Size(p) < p.maxEntries {
      assert Size(p) !in inUse;
    }
  }

  /** The same for GetRequest as a whole. */
  lemma GetHolds(p: Pool, inUse: set<nat>)
    requires PoolHolds(p, inUse)
    ensures match Get(p).0
            case Some(id) => id !in inUse && PoolHolds(Get(p).1, inUse + {id})
            case None => Get(p).1 == p
    ensures Get(p).0 == None <==> |inUse| == Max(p.fixed * 4, p.fixed + 64)
  {
    PopHolds(p, inUse);
  }

  lemma PushHolds(p: Pool, inUse: set<nat>, id: nat)
    requires PoolCore(p, inUse) && id in inUse
    ensures id !in p.free && PoolCore(Push(p, id), inUse - {id})
  {
  }

  lemma PutHolds(p: Pool, inUse: set<nat>, id: nat)
    requires PoolHolds(p, inUse) && id in inUse
    ensures id !in p.free && PoolHolds(Put(p, id), inUse - {id})
  {
    PushHolds(p, inUse, id);
  }

  /** With nothing in use, every request of the pool is free. */
  lemma AllFree(p: Pool)
    requires PoolCore(p, {})
    ensures forall id: nat :: id < Size(p) ==> id in p.free
  {
    Pigeonhole(p.free, Size(p));
  }

  // ---------------------------------------------------------------- workers and shutdown

  /** A worker in its loop. */
  datatype Worker =
    | Top                          // about to choose its timeout
    | Waiting(forever: bool)       // in GetQueuedCompletionStatus
    | Woken                        // returned without a request
    | SawStopped                   // and found the manager stopped
    | NotForced                    // and no forced stop: about to look at activeRequests
    | Handling(id: nat)            // returned with a completed request
    | InCallback(id: nat)
    | Putting                      // in PutRequest, the request pushed and not yet uncounted
    | Exited

  /** Where a request in use is. */
  datatype Place =
    | Preparing                    // taken by a submitter
    | InKernel
    | Completed                    // its completion waits in the port
    | Closing                      // taken for a synchronous close
    | CloseCallback                // which runs its callback
    | With(w: nat)                 // a worker's
    | Calling(w: nat)              // whose callback that worker runs

  /** Who submits: a callback of the request named, or anybody else. */
  datatype Who = Outside | Within(id: nat)

  /** The pool's lock. The free list and `active` change in two steps under it, and the workers' exit
      test reads `active` without it. */
  datatype Lock =
    | Unlocked
    | Popped(id: nat, who: Who)      // GetRequest has popped a request and not yet counted it
    | Pushed(w: Option<nat>)       // PutRequest has pushed one and not yet uncounted it

  /** What has become of a submission. */
  datatype Fate = Open(id: nat) | Refused | Finished

  /** Submissions are numbered 0, 1, ...; `sub` is the one a request is out for, and `ran` counts the
      runs of each one's callback. `straddled`: when the stop took effect, a submitter outside a
      callback was between popping its request and counting it. */
  datatype State = State(
    pool: Pool, lock: Lock, place: map<nat, Place>, workers: seq<Worker>,
    running: bool, forceStop: bool, straddled: bool, wakeups: nat,
    sub: map<nat, nat>, fate: map<nat, Fate>, next: nat, ran: multiset<nat>)

  datatype Event =
    | Submit(who: Who, close: bool)  // pops a request, in SubmitOperation or SubmitCloseRequest
    | CountIn                      // and counts it
    | Accepted(id: nat)            // the system call takes the request
    | Rejected(id: nat)
    | CloseRuns(id: nat)           // the socket is closed and the callback called
    | CloseDone(id: nat)
    | CountOut                     // the second half of PutRequest
    | Completes(id: nat)
    | Stop
    | Force                        // Exit sets forceStop
    | PostWakeup
    | Wait(w: nat)
    | Take(w: nat, id: nat)
    | TakeWakeup(w: nat)
    | TimeOut(w: nat)
    | Check(w: nat)                // the next test of the loop
    | Resubmit(w: nat)             // a partial write goes back to the kernel
    | Call(w: nat)
    | Recycle(w: nat)

  predicate At(s: State, id: nat, p: Place) {
    id in s.place && s.place[id] == p
  }

  /** The callback of the request is running. */
  predicate InCall(p: Place) {
    p.CloseCallback? || p.Calling?
  }

  /** Requests are submitted while the manager runs, or by callbacks. */
  predicate MaySubmit(s: State, who: Who) {
    match who
    case Outside => s.running
    case Within(id) => id in s.place && InCall(s.place[id])
  }

  /** GetRequest has returned the request. */
  predicate Returned(s: State, id: nat) {
    !(s.lock.Popped? && s.lock.id == id)
  }

  predicate Enabled(s: State, e: Event) {
    match e
    case Submit(who, _) => s.lock.Unlocked? && MaySubmit(s, who)
    case CountIn => s.lock.Popped?
    case Accepted(id) => At(s, id, Preparing) && Returned(s, id)
    case Rejected(id) => At(s, id, Preparing) && s.lock.Unlocked?
    case CloseRuns(id) => At(s, id, Closing) && Returned(s, id) && id in s.sub
    case CloseDone(id) => At(s, id, CloseCallback) && s.lock.Unlocked?
    case CountOut => s.lock.Pushed?
    case Completes(id) => At(s, id, InKernel)
    case Stop => s.running
    case Force => true
    case PostWakeup => !s.running
    case Wait(w) => w < |s.workers| && s.workers[w].Top?
    case Take(w, id) => w < |s.workers| && s.workers[w].Waiting? && At(s, id, Completed)
    case TakeWakeup(w) => w < |s.workers| && s.workers[w].Waiting? && s.wakeups > 0
    case TimeOut(w) => w < |s.workers| && s.workers[w].Waiting? && !s.workers[w].forever
    case Check(w) => w < |s.workers| && (s.workers[w].Woken? || s.workers[w].SawStopped? || s.workers[w].NotForced?)
    case Resubmit(w) => w < |s.workers| && s.workers[w].Handling?
    case Call(w) => w < |s.workers| && s.workers[w].Handling? && s.workers[w].id in s.sub
    case Recycle(w) => w < |s.workers| && s.workers[w].InCallback? && s.lock.Unlocked?
  }

  function SetWorker(s: State, w: nat, k: Worker): State
    requires w < |s.workers|
  {
    s.(workers := s.workers[w := k])
  }

  function SetPlace(s: State, id: nat, p: Place): State {
    s.(place := s.place[id := p])
  }

  /** The request popped, if any, is out for a new submission. */
  function TakeRequest(s: State, who: Who, p: Place): State {
    match Pop(s.pool)
    case (Some(id), pool) =>
      SetPlace(s, id, p).(pool := pool, lock := Popped(id, who), sub := s.sub[id := s.next],
                          fate := s.fate[s.next := Open(id)], next := s.next + 1)
    case (None, _) => s
  }

  function GiveBack(s: State, id: nat, fate: Fate, w: Option<nat>): State {
    s.(pool := Push(s.pool, id), lock := Pushed(w), place := s.place - {id},
       fate := if id in s.sub then s.fate[s.sub[id] := fate] else s.fate)
  }

  function RunCallback(s: State, id: nat): State
    requires id in s.sub
  {
    s.(ran := s.ran + multiset{s.sub[id]})
  }

  function CheckStep(s: State, w: nat): State
    requires w < |s.workers|
  {
    match s.workers[w]
    case Woken => SetWorker(s, w, if s.running then Top else SawStopped)
    case SawStopped => SetWorker(s, w, if s.forceStop then Exited else NotForced)
    case NotForced => SetWorker(s, w, if s.pool.active == 0 then Exited else Top)
    case _ => s
  }

  function CountOutStep(s: State): State
    requires s.lock.Pushed?
  {
    var s' := s.(pool := Count(s.pool, -1), lock := Unlocked);
    if s.lock.w.Some? && s.lock.w.value < |s.workers| then SetWorker(s', s.lock.w.value, Top) else s'
  }

  function Step(s: State, e: Event): State
    requires Enabled(s, e)
  {
    match e
    case Submit(who, close) => TakeRequest(s, who, if close then Closing else Preparing)
    case CountIn => s.(pool := Count(s.pool, 1), lock := Unlocked)
    case Accepted(id) => SetPlace(s, id, InKernel)
    case Rejected(id) => GiveBack(s, id, Refused, None)
    case CloseRuns(id) => SetPlace(RunCallback(s, id), id, CloseCallback)
    case CloseDone(id) => GiveBack(s, id, Finished, None)
    case CountOut => CountOutStep(s)
    case Completes(id) => SetPlace(s, id, Completed)
    case Stop => s.(running := false, straddled := s.lock.Popped? && s.lock.who.Outside?)
    case Force => s.(forceStop := true)
    case PostWakeup => s.(wakeups := s.wakeups + 1)
    case Wait(w) => SetWorker(s, w, Waiting(s.running))
    case Take(w, id) => SetPlace(SetWorker(s, w, Handling(id)), id, With(w))
    case TakeWakeup(w) => SetWorker(s, w, Woken).(wakeups := s.wakeups - 1)
    case TimeOut(w) => SetWorker(s, w, Woken)
    case Check(w) => CheckStep(s, w)
    case Resubmit(w) => SetPlace(SetWorker(s, w, Top), s.workers[w].id, InKernel)
    case Call(w) =>
      var id := s.workers[w].id;
      SetPlace(SetWorker(RunCallback(s, id), w, InCallback(id)), id, Calling(w))
    case Recycle(w) => GiveBack(SetWorker(s, w, Putting), s.workers[w].id, Finished, Some(w))
  }

  predicate ValidRun(s: State, es: seq<Event>)
    decreases |es|
  {
    es == [] || (Enabled(s, es[0]) && ValidRun(Step(s, es[0]), es[1..]))
  }

  function Final(s: State, es: seq<Event>): State
    requires ValidRun(s, es)
    decreases |es|
  {
    if es == [] then s else Final(Step(s, es[0]), es[1..])
  }

  /** A manager just initialised, with any number of workers. */
  ghost predicate Initial(s: State) {
    && s.pool == NewPool(s.pool.fixed) && s.lock == Unlocked && s.place == map[]
    && s.running && !s.forceStop && !s.straddled && s.wakeups == 0
    && s.sub == map[] && s.fate == map[] && s.next == 0 && s.ran == multiset{}
    && |s.workers| > 0 && forall w :: 0 <= w < |s.workers| ==> s.workers[w] == Top
  }

  // ---------------------------------------------------------------- what every step keeps

  function Bit(b: bool): int { if b then 1 else 0 }

  /** The count is behind or ahead by one exactly inside GetRequest and PutRequest. */
  ghost predicate Partition(s: State) {
    && PoolCore(s.pool, s.place.Keys)
    && s.pool.active == |s.place.Keys| - Bit(s.lock.Popped?) + Bit(s.lock.Pushed?)
  }

  /** Workers and their requests point at each other; the lock's holder is where it says. */
  ghost predicate Linked(s: State) {
    && (forall w :: 0 <= w < |s.workers| && s.workers[w].Handling? ==> At(s, s.workers[w].id, With(w)))
    && (forall w :: 0 <= w < |s.workers| && s.workers[w].InCallback? ==> At(s, s.workers[w].id, Calling(w)))
    && (forall id :: id in s.place && s.place[id].With? ==>
          s.place[id].w < |s.workers| && s.workers[s.place[id].w] == Handling(id))
    && (forall id :: id in s.place && s.place[id].Calling? ==>
          s.place[id].w < |s.workers| && s.workers[s.place[id].w] == InCallback(id))
    && (s.lock.Popped? ==> At(s, s.lock.id, Preparing) || At(s, s.lock.id, Closing))
    && (s.lock.Popped? && s.lock.who.Within? ==> MaySubmit(s, s.lock.who))
    && (forall w :: 0 <= w < |s.workers| ==> (s.workers[w] == Putting <==> s.lock == Pushed(Some(w))))
    && (s.lock.Pushed? && s.lock.w.Some? ==> s.lock.w.value < |s.workers|)
  }

  /** A worker past the stop test is past it for good, and one that left unforced found nothing in use,
      unless the stop straddled a submission. */
  ghost predicate Draining(s: State) {
    && (!s.running && s.lock.Popped? && s.lock.who.Outside? ==> s.straddled)
    && forall w :: 0 <= w < |s.workers| ==>
         && (s.workers[w].SawStopped? || s.workers[w].NotForced? || s.workers[w].Exited? ==> !s.running)
         && (s.workers[w].Exited? ==> s.forceStop || s.straddled || (s.place == map[] && s.lock == Unlocked))
  }

  function Runs(s: State, c: nat): nat {
    if c !in s.fate then 0
    else match s.fate[c]
         case Open(id) => if id in s.place && InCall(s.place[id]) then 1 else 0
         case Refused => 0
         case Finished => 1
  }

  /** Requests in use and open submissions correspond, and each callback has run as often as its
      submission's fate says. */
  ghost predicate Accounted(s: State) {
    && (forall c: nat :: c in s.fate <==> c < s.next)
    && (forall id :: id in s.place ==> id in s.sub && s.sub[id] in s.fate && s.fate[s.sub[id]] == Open(id))
    && (forall c :: c in s.fate && s.fate[c].Open? ==> s.fate[c].id in s.place && s.sub[s.fate[c].id] == c)
    && (forall c :: s.ran[c] == Runs(s, c))
  }

  ghost predicate Inv(s: State) {
    Partition(s) && Linked(s) && Draining(s) && Accounted(s)
  }

  lemma TakePartition(s: State, who: Who, p: Place)
    requires Partition(s) && s.lock.Unlocked?
    ensures Partition(TakeRequest(s, who, p))
  {
    PopHolds(s.pool, s.place.Keys);
    var r := TakeRequest(s, who, p);
    if Pop(s.pool).0.Some? {
      assert r.place.Keys == s.place.Keys + {Pop(s.pool).0.value};
    }
  }

  /** A request is given back only while it is not free. */
  lemma GiveBackPartition(s: State, s': State, id: nat)
    requires Partition(s) && s.lock.Unlocked? && id in s.place
    requires s'.pool == Push(s.pool, id) && s'.lock.Pushed? && s'.place == s.place - {id}
    ensures id !in s.pool.free && Partition(s')
  {
    PushHolds(s.pool, s.place.Keys, id);
    assert s'.place.Keys == s.place.Keys - {id};
  }

  lemma PutPartition(s: State, e: Event)
    requires Partition(s) && Linked(s) && Enabled(s, e) && (e.Rejected? || e.CloseDone? || e.Recycle?)
    ensures Partition(Step(s, e))
    ensures (if e.Recycle? then s.workers[e.w].id else e.id) !in s.pool.free
  {
    GiveBackPartition(s, Step(s, e), if e.Recycle? then s.workers[e.w].id else e.id);
  }

  lemma KeysStay(s: State, e: Event)
    requires Partition(s) && Linked(s) && Enabled(s, e)
    requires e.Accepted? || e.CloseRuns? || e.Completes? || e.Take? || e.Resubmit? || e.Call?
    ensures Partition(Step(s, e))
  {
    assert Step(s, e).place.Keys == s.place.Keys;
  }

  /** The worker goes from one point of its loop to another, without a request. */
  predicate LoopEvent(e: Event) {
    e.Wait? || e.TakeWakeup? || e.TimeOut? || e.Check?
  }

  predicate FlagEvent(e: Event) {
    e.Stop? || e.Force? || e.PostWakeup?
  }

  predicate CountEvent(e: Event) {
    e.CountIn? || e.CountOut?
  }

  /** Nothing but the workers' places, the flags and the wake-ups changes. */
  predicate SameRequests(s: State, s': State) {
    && s'.pool == s.pool && s'.lock == s.lock && s'.place == s.place
    && s'.sub == s.sub && s'.fate == s.fate && s'.next == s.next && s'.ran == s.ran
  }

  predicate SameFlags(s: State, s': State) {
    && s'.running == s.running && s'.forceStop == s.forceStop && s'.straddled == s.straddled
    && |s'.workers| == |s.workers|
  }

  lemma PoolKeepsFlags(s: State, e: Event)
    requires Enabled(s, e) && (e.Submit? || e.Rejected? || e.CloseDone? || e.Recycle? || CountEvent(e))
    ensures SameFlags(s, Step(s, e))
  {
  }

  lemma PlaceKeepsFlags(s: State, e: Event)
    requires Enabled(s, e)
    requires e.Accepted? || e.CloseRuns? || e.Completes? || e.Take? || e.Resubmit? || e.Call?
    ensures SameFlags(s, Step(s, e))
  {
  }

  lemma OthersKeepFlags(s: State, e: Event)
    requires Enabled(s, e) && !LoopEvent(e) && !FlagEvent(e)
    ensures SameFlags(s, Step(s, e))
  {
    if e.Submit? || e.Rejected? || e.CloseDone? || e.Recycle? || CountEvent(e) {
      PoolKeepsFlags(s, e);
    } else {
      PlaceKeepsFlags(s, e);
    }
  }

  lemma LoopIsQuiet(s: State, e: Event)
    requires Enabled(s, e) && LoopEvent(e)
    ensures SameRequests(s, Step(s, e))
    ensures SameFlags(s, Step(s, e))
    ensures Step(s, e).workers == s.workers[e.w := Step(s, e).workers[e.w]]
  {
    if e.Check? {
      assert Step(s, e) == CheckStep(s, e.w);
    }
  }

  lemma FlagIsQuiet(s: State, e: Event)
    requires Enabled(s, e) && FlagEvent(e)
    ensures SameRequests(s, Step(s, e)) && Step(s, e).workers == s.workers
  {
  }

  lemma SamePartition(s: State, s': State)
    requires Partition(s) && SameRequests(s, s')
    ensures Partition(s')
  {
  }

  lemma CountPartition(s: State, s': State, d: int)
    requires Partition(s) && !s.lock.Unlocked? && d == (if s.lock.Popped? then 1 else -1)
    requires s'.pool == Count(s.pool, d) && s'.lock == Unlocked && s'.place == s.place
    ensures Partition(s')
  {
  }

  lemma PartitionStep(s: State, e: Event)
    requires Partition(s) && Linked(s) && Enabled(s, e)
    ensures Partition(Step(s, e))
  {
    if e.Submit? {
      TakePartition(s, e.who, if e.close then Closing else Preparing);
    } else if e.Rejected? || e.CloseDone? || e.Recycle? {
      PutPartition(s, e);
    } else if LoopEvent(e) {
      LoopIsQuiet(s, e);
      SamePartition(s, Step(s, e));
    } else if FlagEvent(e) {
      FlagIsQuiet(s, e);
      SamePartition(s, Step(s, e));
    } else if CountEvent(e) {
      CountPartition(s, Step(s, e), if e.CountIn? then 1 else -1);
    } else {
      KeysStay(s, e);
    }
  }

  // Links.

  lemma SubmitLinks(s: State, e: Event)
    requires Partition(s) && Linked(s) && Enabled(s, e) && e.Submit?
    ensures Linked(Step(s, e))
  {
    PopHolds(s.pool, s.place.Keys);
  }

  /** A request that no worker has moves, as its submitter or the kernel has it. */
  lemma PlaceLinks(s: State, s': State, id: nat, p: Place)
    requires Linked(s) && id in s.place && s'.place == s.place[id := p]
    requires !s.place[id].With? && !s.place[id].Calling? && !p.With? && !p.Calling?
    requires s.lock.Popped? ==> s.lock.id != id && (InCall(s.place[id]) ==> InCall(p))
    requires s'.workers == s.workers && s'.lock == s.lock && s'.running == s.running
    ensures Linked(s')
  {
  }

  lemma MoveLinks(s: State, e: Event)
    requires Linked(s) && Enabled(s, e) && (e.Accepted? || e.Completes? || e.CloseRuns?)
    ensures Linked(Step(s, e))
  {
    PlaceLinks(s, Step(s, e), e.id, Step(s, e).place[e.id]);
  }

  lemma CountInLinks(s: State)
    requires Linked(s) && s.lock.Popped?
    ensures Linked(Step(s, CountIn))
  {
  }

  lemma CountOutLinks(s: State)
    requires Linked(s) && s.lock.Pushed?
    ensures Linked(Step(s, CountOut))
  {
    if s.lock.w.Some? {
      PutLinks(s, s.lock.w.value);
    }
  }

  lemma PutLinks(s: State, w: nat)
    requires Linked(s) && s.lock == Pushed(Some(w))
    ensures Linked(SetWorker(s.(pool := Count(s.pool, -1), lock := Unlocked), w, Top))
  {
    assert s.workers[w] == Putting;
  }

  lemma EndLinks(s: State, e: Event)
    requires Linked(s) && Enabled(s, e) && (e.Rejected? || e.CloseDone?)
    ensures Linked(Step(s, e))
  {
  }

  lemma RecycleLinks(s: State, e: Event)
    requires Linked(s) && Enabled(s, e) && e.Recycle?
    ensures Linked(Step(s, e))
  {
  }

  lemma TakeLinks(s: State, e: Event)
    requires Linked(s) && Enabled(s, e) && e.Take?
    ensures Linked(Step(s, e))
  {
  }

  lemma ResubmitLinks(s: State, e: Event)
    requires Linked(s) && Enabled(s, e) && e.Resubmit?
    ensures Linked(Step(s, e))
  {
  }

  lemma CallLinks(s: State, e: Event)
    requires Linked(s) && Enabled(s, e) && e.Call?
    ensures Linked(Step(s, e))
  {
  }

  /** A worker with no request moves. */
  lemma LoopLinks(s: State, s': State, w: nat, k: Worker)
    requires Linked(s) && w < |s.workers| && s'.workers == s.workers[w := k]
    requires !s.workers[w].Handling? && !s.workers[w].InCallback? && !s.workers[w].Putting?
    requires !k.Handling? && !k.InCallback? && !k.Putting?
    requires s'.place == s.place && s'.lock == s.lock && s'.running == s.running
    ensures Linked(s')
  {
  }

  lemma LoopStepLinks(s: State, e: Event)
    requires Linked(s) && Enabled(s, e) && LoopEvent(e)
    ensures Linked(Step(s, e))
  {
    LoopIsQuiet(s, e);
    LoopLinks(s, Step(s, e), e.w, Step(s, e).workers[e.w]);
  }

  lemma FlagLinks(s: State, e: Event)
    requires Linked(s) && Enabled(s, e) && FlagEvent(e)
    ensures Linked(Step(s, e))
  {
  }

  lemma LinkedStep(s: State, e: Event)
    requires Partition(s) && Linked(s) && Enabled(s, e)
    ensures Linked(Step(s, e))
  {
    if e.Submit? {
      SubmitLinks(s, e);
    } else if e.Rejected? || e.CloseDone? {
      EndLinks(s, e);
    } else if e.Recycle? {
      RecycleLinks(s, e);
    } else if e.Take? {
      TakeLinks(s, e);
    } else if e.Resubmit? {
      ResubmitLinks(s, e);
    } else if e.Call? {
      CallLinks(s, e);
    } else if LoopEvent(e) {
      LoopStepLinks(s, e);
    } else if FlagEvent(e) {
      FlagLinks(s, e);
    } else if e.CountIn? {
      CountInLinks(s);
    } else if e.CountOut? {
      CountOutLinks(s);
    } else {
      MoveLinks(s, e);
    }
  }

  // Draining.

  /** Whoever submits from a callback has that callback's request in use besides its own. */
  lemma TwoInUse(s: State)
    requires Linked(s) && s.lock.Popped? && s.lock.who.Within?
    ensures |s.place.Keys| >= 2
  {
    var two := {s.lock.id, s.lock.who.id};
    assert s.lock.id != s.lock.who.id;
    var rest := s.place.Keys - two;
    assert s.place.Keys == rest + two;
    assert |rest + two| == |rest| + |two|;
  }

  /** What the exit test can conclude: with the count at zero there is nothing in use, exactly unless a
      submitter outside a callback is between popping its request and counting it. */
  lemma ExitTest(s: State)
    requires Partition(s) && Linked(s) && s.pool.active == 0
    ensures s.place == map[] <==> !s.lock.Popped?
    ensures s.place == map[] ==> s.lock == Unlocked
    ensures s.lock.Popped? ==> s.lock.who.Outside? && s.place.Keys == {s.lock.id}
  {
    if s.lock.Popped? {
      if s.lock.who.Within? {
        TwoInUse(s);
      }
      assert s.lock.id in s.place;
      assert s.place.Keys == {s.lock.id} + (s.place.Keys - {s.lock.id});
    } else {
      assert |s.place.Keys| == 0;
    }
  }

  lemma CheckDrains(s: State, e: Event)
    requires Partition(s) && Linked(s) && Draining(s) && Enabled(s, e) && e.Check?
    ensures Draining(Step(s, e))
  {
    if s.workers[e.w].NotForced? && s.pool.active == 0 {
      ExitTest(s);
    }
  }

  lemma LoopDrains(s: State, e: Event)
    requires Draining(s) && Enabled(s, e) && (e.Wait? || e.TakeWakeup? || e.TimeOut? || FlagEvent(e))
    ensures Draining(Step(s, e))
  {
  }

  lemma PoolDrains(s: State, e: Event)
    requires Linked(s) && Draining(s) && Enabled(s, e) && !LoopEvent(e) && !FlagEvent(e) && !CountEvent(e)
    ensures Draining(Step(s, e))
  {
  }

  lemma DrainingStep(s: State, e: Event)
    requires Partition(s) && Linked(s) && Draining(s) && Enabled(s, e)
    ensures Draining(Step(s, e))
  {
    if e.Check? {
      CheckDrains(s, e);
    } else if LoopEvent(e) || FlagEvent(e) {
      LoopDrains(s, e);
    } else if !CountEvent(e) {
      PoolDrains(s, e);
    }
  }

  // Accounts.

  /** A request moves without its callback starting or ending. */
  lemma MoveAccounts(s: State, s': State, id: nat, p: Place)
    requires Accounted(s) && id in s.place && InCall(p) == InCall(s.place[id])
    requires s'.place == s.place[id := p] && s'.sub == s.sub && s'.fate == s.fate && s'.next == s.next
    requires s'.ran == s.ran
    ensures Accounted(s')
  {
    forall c ensures Runs(s', c) == Runs(s, c) {
    }
  }

  /** Its callback starts. */
  lemma CallAccounts(s: State, s': State, id: nat, p: Place)
    requires Accounted(s) && id in s.place && InCall(p) && !InCall(s.place[id])
    requires s'.place == s.place[id := p] && s'.sub == s.sub && s'.fate == s.fate && s'.next == s.next
    requires s'.ran == s.ran + multiset{s.sub[id]}
    ensures Accounted(s')
  {
    forall c ensures s'.ran[c] == Runs(s', c) {
      assert s.ran[c] == Runs(s, c);
    }
  }

  /** It is given back, after its callback or, refused, without one. */
  lemma EndAccounts(s: State, s': State, id: nat, fate: Fate)
    requires Accounted(s) && id in s.place && fate == if InCall(s.place[id]) then Finished else Refused
    requires s'.place == s.place - {id} && s'.sub == s.sub && s'.fate == s.fate[s.sub[id] := fate]
    requires s'.next == s.next && s'.ran == s.ran
    ensures Accounted(s')
  {
    forall c ensures s'.ran[c] == Runs(s', c) {
      assert s.ran[c] == Runs(s, c);
    }
  }

  lemma SubmitAccounts(s: State, s': State, id: nat, p: Place)
    requires Accounted(s) && id !in s.place && !InCall(p)
    requires s'.place == s.place[id := p] && s'.sub == s.sub[id := s.next]
    requires s'.fate == s.fate[s.next := Open(id)] && s'.next == s.next + 1 && s'.ran == s.ran
    ensures Accounted(s')
  {
    forall c ensures s'.ran[c] == Runs(s', c) {
      assert s.ran[c] == Runs(s, c);
    }
  }

  lemma SameAccounts(s: State, s': State)
    requires Accounted(s) && s'.place == s.place && s'.sub == s.sub && s'.fate == s.fate
    requires s'.next == s.next && s'.ran == s.ran
    ensures Accounted(s')
  {
    forall c ensures s'.ran[c] == Runs(s', c) {
      assert s.ran[c] == Runs(s, c);
    }
  }

  lemma KernelAccounts(s: State, e: Event)
    requires Accounted(s) && Enabled(s, e) && (e.Accepted? || e.Completes? || e.CloseRuns?)
    ensures Accounted(Step(s, e))
  {
    if e.CloseRuns? {
      CallAccounts(s, Step(s, e), e.id, CloseCallback);
    } else {
      MoveAccounts(s, Step(s, e), e.id, if e.Accepted? then InKernel else Completed);
    }
  }

  lemma WorkerAccounts(s: State, e: Event)
    requires Linked(s) && Accounted(s) && Enabled(s, e) && (e.Take? || e.Resubmit? || e.Call?)
    ensures Accounted(Step(s, e))
  {
    if e.Call? {
      CallAccounts(s, Step(s, e), s.workers[e.w].id, Calling(e.w));
    } else if e.Take? {
      MoveAccounts(s, Step(s, e), e.id, With(e.w));
    } else {
      MoveAccounts(s, Step(s, e), s.workers[e.w].id, InKernel);
    }
  }

  lemma PutAccounts(s: State, e: Event)
    requires Linked(s) && Accounted(s) && Enabled(s, e) && (e.Rejected? || e.CloseDone? || e.Recycle?)
    ensures Accounted(Step(s, e))
  {
    if e.Recycle? {
      EndAccounts(s, Step(s, e), s.workers[e.w].id, Finished);
    } else {
      EndAccounts(s, Step(s, e), e.id, if e.Rejected? then Refused else Finished);
    }
  }

  lemma QuietAccounts(s: State, e: Event)
    requires Accounted(s) && Enabled(s, e) && (LoopEvent(e) || FlagEvent(e))
    ensures Accounted(Step(s, e))
  {
    if LoopEvent(e) {
      LoopIsQuiet(s, e);
    } else {
      FlagIsQuiet(s, e);
    }
    SameAccounts(s, Step(s, e));
  }

  lemma CountInAccounts(s: State)
    requires Accounted(s) && s.lock.Popped?
    ensures Accounted(Step(s, CountIn))
  {
    var r := s.(pool := Count(s.pool, 1), lock := Unlocked);
    assert Step(s, CountIn) == r;
    SameAccounts(s, r);
  }

  lemma CountOutAccounts(s: State)
    requires Accounted(s) && s.lock.Pushed?
    ensures Accounted(Step(s, CountOut))
  {
    assert Step(s, CountOut) == CountOutStep(s);
    SameAccounts(s, CountOutStep(s));
  }

  lemma AccountedStep(s: State, e: Event)
    requires Partition(s) && Linked(s) && Accounted(s) && Enabled(s, e)
    ensures Accounted(Step(s, e))
  {
    if e.Submit? {
      TakeAccounts(s, e);
    } else if e.Rejected? || e.CloseDone? || e.Recycle? {
      PutAccounts(s, e);
    } else if e.Take? || e.Resubmit? || e.Call? {
      WorkerAccounts(s, e);
    } else if e.Accepted? || e.Completes? || e.CloseRuns? {
      KernelAccounts(s, e);
    } else if e.CountIn? {
      CountInAccounts(s);
    } else if e.CountOut? {
      CountOutAccounts(s);
    } else {
      QuietAccounts(s, e);
    }
  }

  lemma TakeAccounts(s: State, e: Event)
    requires Partition(s) && Accounted(s) && Enabled(s, e) && e.Submit?
    ensures Accounted(Step(s, e))
  {
    PopHolds(s.pool, s.place.Keys);
    if Pop(s.pool).0.Some? {
      SubmitAccounts(s, Step(s, e), Pop(s.pool).0.value, if e.close then Closing else Preparing);
    }
  }

  lemma InvStep(s: State, e: Event)
    requires Inv(s) && Enabled(s, e)
    ensures Inv(Step(s, e))
  {
    PartitionStep(s, e);
    LinkedStep(s, e);
    DrainingStep(s, e);
    AccountedStep(s, e);
  }

  lemma {:induction false} InvRun(s: State, es: seq<Event>)
    requires Inv(s) && ValidRun(s, es)
    ensures Inv(Final(s, es))
    decreases |es|
  {
    if es != [] {
      InvStep(s, es[0]);
      InvRun(Step(s, es[0]), es[1..]);
    }
  }

  lemma InitialInv(s: State)
    requires Initial(s)
    ensures Inv(s)
  {
    NewPoolHolds(s.pool.fixed);
  }

  // ---------------------------------------------------------------- whole runs

  /** Free and in-use requests are disjoint, duplicate-free and together the whole pool, which is within
      its limit; GetRequest fails exactly at the limit. */
  ghost predicate Partitioned(p: Pool, inUse: set<nat>) {
    var limit := Max(p.fixed * 4, p.fixed + 64);
    && NoDup(p.free)
    && (forall id: nat :: id < Size(p) <==> id in p.free || id in inUse)
    && (forall id :: id in p.free ==> id !in inUse)
    && Size(p) <= limit
    && (Get(p).0 == None <==> |inUse| == limit)
  }

  /** Over all runs of submits, failed submits, completions, partial writes and closes the pool is
      partitioned, `active` is the number in use but for the request just being popped or pushed, and a
      request about to be given back is in use, so none is given back twice. */
  lemma PoolPartition(s: State, es: seq<Event>, e: Event)
    requires Initial(s) && ValidRun(s, es) && Enabled(Final(s, es), e)
    ensures var r := Final(s, es);
            && Partitioned(r.pool, r.place.Keys)
            && r.pool.active == |r.place.Keys| - Bit(r.lock.Popped?) + Bit(r.lock.Pushed?)
            && (e.Rejected? || e.CloseDone? ==> e.id in r.place && e.id !in r.pool.free)
            && (e.Recycle? ==> r.workers[e.w].id in r.place && r.workers[e.w].id !in r.pool.free)
  {
    InitialInv(s);
    InvRun(s, es);
    PartitionedNow(Final(s, es));
    NotFreeYet(Final(s, es), e);
  }

  lemma PartitionedNow(s: State)
    requires Partition(s)
    ensures Partitioned(s.pool, s.place.Keys)
  {
    PopHolds(s.pool, s.place.Keys);
    Covers(s.pool, s.place.Keys);
  }

  lemma NotFreeYet(s: State, e: Event)
    requires Partition(s) && Linked(s) && Enabled(s, e)
    ensures e.Rejected? || e.CloseDone? ==> e.id in s.place && e.id !in s.pool.free
    ensures e.Recycle? ==> s.workers[e.w].id in s.place && s.workers[e.w].id !in s.pool.free
  {
    if e.Rejected? || e.CloseDone? || e.Recycle? {
      PutPartition(s, e);
    }
  }

  lemma Covers(p: Pool, inUse: set<nat>)
    requires PoolCore(p, inUse)
    ensures forall id: nat :: id < Size(p) <==> id in p.free || id in inUse
  {
    NoDupSize(p.free);
    var all := Elements(p.free) + inUse;
    assert Elements(p.free) !! inUse;
    assert all <= Below(Size(p));
    SubsetOfSameSize(all, Below(Size(p)));
    forall id: nat ensures id < Size(p) <==> id in p.free || id in inUse {
      assert id in Below(Size(p)) <==> id in all;
    }
  }

  /** For any number of workers and any interleaving, with partial writes resubmitted and callbacks
      submitting: no callback runs twice; the callback of an accepted request has not run while the
      kernel has it, and has run exactly once when the request is given back; a refused one never
      runs; a request in use is out for one submission, still open. */
  lemma CallbackOnce(s: State, es: seq<Event>, c: nat)
    requires Initial(s) && ValidRun(s, es)
    ensures var r := Final(s, es);
            && (c in r.fate <==> c < r.next)
            && r.ran[c] <= 1 && (c !in r.fate ==> r.ran[c] == 0)
            && (c in r.fate && r.fate[c].Finished? ==> r.ran[c] == 1)
            && (c in r.fate && r.fate[c].Refused? ==> r.ran[c] == 0)
            && (c in r.fate && r.fate[c].Open? ==>
                  r.fate[c].id in r.place && (r.ran[c] == 1 <==> InCall(r.place[r.fate[c].id])))
  {
    InitialInv(s);
    InvRun(s, es);
    assert Final(s, es).ran[c] == Runs(Final(s, es), c);
  }

  /** Shutdown drains, for any number of workers and any interleaving, if it is not forced and when it
      takes effect no submitter outside a callback is between popping its request and counting it:
      once every worker has left its loop no request is in use, every one is free, and every
      submission was refused, or its callback has run exactly once: no completion was dropped. */
  lemma ShutdownDrains(s: State, es: seq<Event>)
    requires Initial(s) && ValidRun(s, es)
    requires var r := Final(s, es);
             !r.forceStop && !r.straddled && forall w :: 0 <= w < |r.workers| ==> r.workers[w] == Exited
    ensures var r := Final(s, es);
            && r.pool.active == 0 && r.place == map[] && r.lock == Unlocked
            && (forall id: nat :: id < Size(r.pool) ==> id in r.pool.free)
            && (forall c: nat :: c < r.next ==>
                  c in r.fate && ((r.fate[c] == Finished && r.ran[c] == 1) || (r.fate[c] == Refused && r.ran[c] == 0)))
  {
    InitialInv(s);
    InvRun(s, es);
    var r := Final(s, es);
    assert |r.workers| > 0 by { SameWorkers(s, es); }
    assert r.workers[0] == Exited;
    AllFree(r.pool);
    forall c: nat | c < r.next
      ensures c in r.fate && ((r.fate[c] == Finished && r.ran[c] == 1) || (r.fate[c] == Refused && r.ran[c] == 0))
    {
      CallbackOnce(s, es, c);
    }
  }

  lemma StepWorkers(s: State, e: Event)
    requires Enabled(s, e)
    ensures |Step(s, e).workers| == |s.workers|
  {
    if LoopEvent(e) {
      LoopIsQuiet(s, e);
    } else if FlagEvent(e) {
      FlagIsQuiet(s, e);
    } else {
      OthersKeepFlags(s, e);
    }
  }

  lemma {:induction false} SameWorkers(s: State, es: seq<Event>)
    requires ValidRun(s, es)
    ensures |Final(s, es).workers| == |s.workers|
    decreases |es|
  {
    if es != [] {
      StepWorkers(s, es[0]);
      SameWorkers(Step(s, es[0]), es[1..]);
    }
  }

  /** When a worker leaves because the count is zero, a request is left behind if and only if at that
      moment a submitter outside a callback is between popping it and counting it; and then it is
      just that one. */
  lemma ExitLeavesWork(s: State, es: seq<Event>, w: nat)
    requires Initial(s) && ValidRun(s, es)
    requires var r := Final(s, es); w < |r.workers| && r.workers[w].NotForced? && r.pool.active == 0
    ensures var r := Final(s, es);
            && Step(r, Check(w)).workers[w] == Exited
            && (r.place != map[] <==> r.lock.Popped?)
            && (r.lock.Popped? ==> r.lock.who.Outside? && r.straddled && r.place.Keys == {r.lock.id})
  {
    InitialInv(s);
    InvRun(s, es);
    ExitTest(Final(s, es));
  }

  /** The stop test that lets a worker go is stable: from then on nothing is in use. */
  lemma {:induction false} DrainedIsStable(s: State, es: seq<Event>)
    requires !s.running && s.place == map[] && s.lock == Unlocked && Linked(s) && ValidRun(s, es)
    ensures Final(s, es).place == map[] && Final(s, es).pool == s.pool
    decreases |es|
  {
    if es != [] {
      StaysDrained(s, es[0]);
      DrainedIsStable(Step(s, es[0]), es[1..]);
    }
  }

  lemma StaysDrained(s: State, e: Event)
    requires !s.running && s.place == map[] && s.lock == Unlocked && Linked(s) && Enabled(s, e)
    ensures var r := Step(s, e);
            !r.running && r.place == map[] && r.lock == Unlocked && r.pool == s.pool && Linked(r)
  {
    if LoopEvent(e) {
      LoopIsQuiet(s, e);
      LoopStepLinks(s, e);
    } else {
      FlagIsQuiet(s, e);
      FlagLinks(s, e);
    }
  }

  // ---------------------------------------------------------------- runs that leave work behind

  lemma Cons(s: State, e: Event, rest: seq<Event>)
    requires Enabled(s, e) && ValidRun(Step(s, e), rest)
    ensures ValidRun(s, [e] + rest)
    ensures Final(s, [e] + rest) == Final(Step(s, e), rest)
  {
    assert ([e] + rest)[1..] == rest;
  }

  /** One worker, stopped and with a count of zero, finds the door. */
  const CHECKS: seq<Event> := [Check(0)] + ([Check(0)] + ([Check(0)] + []))

  const LEAVES: seq<Event> := [Wait(0)] + ([TimeOut(0)] + CHECKS)

  lemma ChecksAtZero(s: State)
    requires s.workers == [Woken] && !s.running && !s.forceStop && s.pool.active == 0
    ensures ValidRun(s, CHECKS) && Final(s, CHECKS) == s.(workers := [Exited])
  {
    var s1 := s.(workers := [SawStopped]);
    assert CheckStep(s, 0) == s1;
    var s2 := s.(workers := [NotForced]);
    assert CheckStep(s1, 0) == s2;
    assert CheckStep(s2, 0) == s.(workers := [Exited]);
    Cons(s2, Check(0), []);
    Cons(s1, Check(0), [Check(0)] + []);
    Cons(s, Check(0), [Check(0)] + ([Check(0)] + []));
  }

  lemma LeavesAtZero(s: State)
    requires s.workers == [Top] && !s.running && !s.forceStop && s.pool.active == 0
    ensures ValidRun(s, LEAVES) && Final(s, LEAVES) == s.(workers := [Exited])
  {
    var s1 := s.(workers := [Waiting(false)]);
    assert Step(s, Wait(0)) == s1;
    var s2 := s.(workers := [Woken]);
    assert Step(s1, TimeOut(0)) == s2;
    ChecksAtZero(s2);
    Cons(s1, TimeOut(0), CHECKS);
    Cons(s, Wait(0), [TimeOut(0)] + CHECKS);
  }

  /** A submission that straddles the stop: the request is popped, the manager stops, the worker reads
      a count of zero and leaves, and only then is the request counted. Nobody will complete it. */
  lemma StraddlingStop(s: State)
    requires Initial(s) && |s.workers| == 1 && s.pool.fixed > 0
    ensures var before := [Submit(Outside, false)] + ([Stop] + LEAVES);
            && ValidRun(s, before) && Final(s, before).workers == [Exited] && !Final(s, before).forceStop
            && Enabled(Final(s, before), CountIn)
            && var r := Step(Final(s, before), CountIn);
               r.pool.active == 1 && r.place == map[s.pool.fixed - 1 := Preparing] && r.straddled
  {
    var s1 := Step(s, Submit(Outside, false));
    var s2 := Step(s1, Stop);
    assert s2.workers == [Top];
    LeavesAtZero(s2);
    Cons(s1, Stop, LEAVES);
    Cons(s, Submit(Outside, false), [Stop] + LEAVES);
  }

  /** The forced stop: from any state in which the manager has stopped, no request is just being popped
      or pushed and the stop did not straddle a submission, with some request in use that no worker has
      in hand: all workers can leave with that request still in use if and only if a forced stop was
      asked for. */
  lemma ForcedStopIff(s: State, id: nat)
    requires Inv(s) && |s.workers| > 0 && !s.running && !s.straddled && s.lock == Unlocked
    requires id in s.place && !s.place[id].With? && !s.place[id].Calling?
    ensures s.forceStop <==>
              exists es :: ValidRun(s, es) && Force !in es && id in Final(s, es).place
                           && forall w :: 0 <= w < |s.workers| ==> Gone(Final(s, es), w)
  {
    if s.forceStop {
      HandsKnown(s);
      var es := WorkersLeave(s, |s.workers|);
      assert forall w :: 0 <= w < |s.workers| ==> Gone(Final(s, es), w);
    }
    forall es | ValidRun(s, es) && Force !in es && id in Final(s, es).place
                && forall w :: 0 <= w < |s.workers| ==> Gone(Final(s, es), w)
      ensures s.forceStop
    {
      InvRun(s, es);
      StaysStopped(s, es);
      assert Gone(Final(s, es), 0);
    }
  }

  lemma HandsKnown(s: State)
    requires Linked(s) && Accounted(s) && s.lock == Unlocked
    ensures Hands(s)
  {
    forall w | 0 <= w < |s.workers| && s.workers[w].Handling? ensures s.workers[w].id in s.sub {
      assert At(s, s.workers[w].id, With(w));
    }
  }

  predicate Gone(s: State, w: nat) {
    w < |s.workers| && s.workers[w] == Exited
  }

  lemma StepStopped(s: State, e: Event)
    requires Enabled(s, e) && !s.running
    ensures var r := Step(s, e);
            !r.running && r.straddled == s.straddled && (e != Force ==> r.forceStop == s.forceStop)
  {
    if LoopEvent(e) {
      LoopIsQuiet(s, e);
    } else if !FlagEvent(e) {
      OthersKeepFlags(s, e);
    }
  }

  lemma {:induction false} StaysStopped(s: State, es: seq<Event>)
    requires ValidRun(s, es) && !s.running && Force !in es
    ensures var r := Final(s, es); !r.running && r.straddled == s.straddled && r.forceStop == s.forceStop
    decreases |es|
  {
    if es != [] {
      StepStopped(s, es[0]);
      StaysStopped(Step(s, es[0]), es[1..]);
    }
  }

  /** How far a worker is from the door. */
  function Distance(k: Worker): nat {
    match k
    case Exited => 0
    case SawStopped => 1
    case Woken => 2
    case Waiting(forever) => if forever then 4 else 3
    case Top => 5
    case NotForced => 6
    case Putting => 7
    case InCallback(_) => 8
    case Handling(_) => 9
  }

  /** Workers have the requests they say they have, and none is putting one back. */
  ghost predicate Hands(s: State) {
    && (forall w :: 0 <= w < |s.workers| ==> s.workers[w] != Putting)
    && (forall w :: 0 <= w < |s.workers| && s.workers[w].Handling? ==>
          s.workers[w].id in s.sub && At(s, s.workers[w].id, With(w)))
    && (forall w :: 0 <= w < |s.workers| && s.workers[w].InCallback? ==> At(s, s.workers[w].id, Calling(w)))
  }

  /** A stopped and forced state in which the requests in nobody's hands are those of `s`, and so are
      the other workers. */
  ghost predicate LikeBut(r: State, s: State, w: nat) {
    && Hands(r) && r.forceStop && !r.running && r.lock == Unlocked && |r.workers| == |s.workers|
    && (forall v :: 0 <= v < |s.workers| && v != w ==> r.workers[v] == s.workers[v])
    && (forall id :: id in s.place && !s.place[id].With? && !s.place[id].Calling? ==> At(r, id, s.place[id]))
  }

  /** The run takes worker w nearer to the door. */
  ghost predicate Nearer(s: State, w: nat, es: seq<Event>)
    requires w < |s.workers|
  {
    && ValidRun(s, es) && Force !in es && LikeBut(Final(s, es), s, w)
    && Distance(Final(s, es).workers[w]) < Distance(s.workers[w])
  }

  ghost predicate Ready(s: State, w: nat) {
    Hands(s) && s.forceStop && !s.running && s.lock == Unlocked && w < |s.workers|
  }

  lemma OneStep(s: State, e: Event, r: State) returns (es: seq<Event>)
    requires Enabled(s, e) && e != Force && Step(s, e) == r
    ensures ValidRun(s, es) && Final(s, es) == r && Force !in es
  {
    Cons(s, e, []);
    es := [e] + [];
  }

  lemma TwoSteps(s: State, e: Event, r: State, f: Event, t: State) returns (es: seq<Event>)
    requires Enabled(s, e) && e != Force && Step(s, e) == r && Enabled(r, f) && f != Force && Step(r, f) == t
    ensures ValidRun(s, es) && Final(s, es) == t && Force !in es
  {
    Cons(r, f, []);
    Cons(s, e, [f] + []);
    es := [e] + ([f] + []);
  }

  /** Putting a request back: two steps, after which the worker is at the top of its loop. */
  lemma RecycleShape(s: State, w: nat)
    requires Enabled(s, Recycle(w))
    ensures var s1 := Step(s, Recycle(w));
            && Enabled(s1, CountOut)
            && var r := Step(s1, CountOut);
               && SameFlags(s, r) && r.lock == Unlocked && r.sub == s.sub
               && r.workers == s.workers[w := Top] && r.place == s.place - {s.workers[w].id}
  {
    var s1 := GiveBack(SetWorker(s, w, Putting), s.workers[w].id, Finished, Some(w));
    assert Step(s1, CountOut) == SetWorker(s1.(pool := Count(s1.pool, -1), lock := Unlocked), w, Top);
  }

  lemma RecycleRun(s: State, w: nat) returns (es: seq<Event>, r: State)
    requires Enabled(s, Recycle(w))
    ensures ValidRun(s, es) && Final(s, es) == r && Force !in es
    ensures SameFlags(s, r) && r.lock == Unlocked && r.sub == s.sub
    ensures r.workers == s.workers[w := Top] && r.place == s.place - {s.workers[w].id}
  {
    RecycleShape(s, w);
    var s1 := Step(s, Recycle(w));
    r := Step(s1, CountOut);
    es := TwoSteps(s, Recycle(w), s1, CountOut, r);
  }

  lemma RecycleSteps(s: State, w: nat) returns (es: seq<Event>)
    requires Ready(s, w) && s.workers[w].InCallback?
    ensures Nearer(s, w, es)
  {
    var r;
    es, r := RecycleRun(s, w);
    assert At(s, s.workers[w].id, Calling(w));
  }

  lemma WakeRun(s: State, w: nat) returns (es: seq<Event>)
    requires !s.running && w < |s.workers| && s.workers[w].Waiting?
    ensures ValidRun(s, es) && Final(s, es) == SetWorker(s, w, Woken) && Force !in es
  {
    es := TwoSteps(s, PostWakeup, s.(wakeups := s.wakeups + 1), TakeWakeup(w), SetWorker(s, w, Woken));
  }

  lemma WakeSteps(s: State, w: nat) returns (es: seq<Event>)
    requires Ready(s, w) && s.workers[w] == Waiting(true)
    ensures Nearer(s, w, es)
  {
    es := WakeRun(s, w);
  }

  lemma CallShape(s: State, w: nat)
    requires Enabled(s, Call(w))
    ensures var (r, id) := (Step(s, Call(w)), s.workers[w].id);
            && SameFlags(s, r) && r.lock == s.lock && r.sub == s.sub
            && r.workers == s.workers[w := InCallback(id)] && r.place == s.place[id := Calling(w)]
  {
  }

  lemma CallRun(s: State, w: nat) returns (es: seq<Event>, r: State)
    requires Enabled(s, Call(w))
    ensures ValidRun(s, es) && Final(s, es) == r && Force !in es
    ensures SameFlags(s, r) && r.lock == s.lock && r.sub == s.sub
    ensures r.workers == s.workers[w := InCallback(s.workers[w].id)]
    ensures r.place == s.place[s.workers[w].id := Calling(w)]
  {
    CallShape(s, w);
    r := Step(s, Call(w));
    es := OneStep(s, Call(w), r);
  }

  lemma CallSteps(s: State, w: nat) returns (es: seq<Event>)
    requires Ready(s, w) && s.workers[w].Handling?
    ensures Nearer(s, w, es)
  {
    var r;
    es, r := CallRun(s, w);
    assert At(s, s.workers[w].id, With(w));
  }

  /** The worker goes on in its loop. */
  lemma LoopSteps(s: State, w: nat, e: Event, k: Worker) returns (es: seq<Event>)
    requires Ready(s, w) && !s.workers[w].Handling? && !s.workers[w].InCallback?
    requires Enabled(s, e) && e != Force && Step(s, e) == SetWorker(s, w, k)
    requires !k.Handling? && !k.InCallback? && Distance(k) < Distance(s.workers[w])
    ensures Nearer(s, w, es)
  {
    es := OneStep(s, e, SetWorker(s, w, k));
  }

  lemma OnwardSteps(s: State, w: nat) returns (es: seq<Event>)
    requires Ready(s, w) && s.workers[w] != Exited
    ensures Nearer(s, w, es)
  {
    match s.workers[w]
    case InCallback(_) => es := RecycleSteps(s, w);
    case Handling(_) => es := CallSteps(s, w);
    case Top => es := LoopSteps(s, w, Wait(w), Waiting(false));
    case Waiting(forever) =>
      if forever {
        es := WakeSteps(s, w);
      } else {
        es := LoopSteps(s, w, TimeOut(w), Woken);
      }
    case Woken => es := LoopSteps(s, w, Check(w), SawStopped);
    case SawStopped => es := LoopSteps(s, w, Check(w), Exited);
    case NotForced => es := LoopSteps(s, w, Check(w), if s.pool.active == 0 then Exited else Top);
  }

  lemma {:induction false} Append(s: State, es: seq<Event>, fs: seq<Event>)
    requires ValidRun(s, es) && ValidRun(Final(s, es), fs)
    ensures ValidRun(s, es + fs) && Final(s, es + fs) == Final(Final(s, es), fs)
    decreases |es|
  {
    if es == [] {
      assert es + fs == fs;
    } else {
      assert (es + fs)[1..] == es[1..] + fs;
      Append(Step(s, es[0]), es[1..], fs);
    }
  }

  lemma {:induction false} WorkerLeaves(s: State, w: nat) returns (es: seq<Event>)
    requires Ready(s, w)
    ensures ValidRun(s, es) && Force !in es && LikeBut(Final(s, es), s, w) && Gone(Final(s, es), w)
    decreases Distance(s.workers[w])
  {
    if s.workers[w] == Exited {
      es := [];
    } else {
      var first := OnwardSteps(s, w);
      var rest := WorkerLeaves(Final(s, first), w);
      Append(s, first, rest);
      es := first + rest;
      LikeStill(s, Final(s, first), Final(s, es), w);
    }
  }

  lemma LikeStill(s: State, r: State, t: State, w: nat)
    requires LikeBut(r, s, w) && LikeBut(t, r, w)
    ensures LikeBut(t, s, w)
  {
  }

  /** The first n workers have left, and what no worker had in hand is where it was. */
  ghost predicate Left(r: State, s: State, n: nat) {
    && Hands(r) && r.forceStop && !r.running && r.lock == Unlocked && |r.workers| == |s.workers|
    && (forall w :: 0 <= w < n ==> Gone(r, w))
    && (forall id :: id in s.place && !s.place[id].With? && !s.place[id].Calling? ==> At(r, id, s.place[id]))
  }

  lemma LeftMore(s: State, r: State, t: State, n: nat)
    requires Left(r, s, n) && LikeBut(t, r, n) && Gone(t, n)
    ensures Left(t, s, n + 1)
  {
    forall w | 0 <= w < n + 1 ensures Gone(t, w) {
      assert w < n ==> Gone(r, w) && t.workers[w] == r.workers[w];
    }
  }

  /** The first n workers leave, one after another. */
  lemma {:induction false} WorkersLeave(s: State, n: nat) returns (es: seq<Event>)
    requires Hands(s) && s.forceStop && !s.running && s.lock == Unlocked && n <= |s.workers|
    ensures ValidRun(s, es) && Force !in es && Left(Final(s, es), s, n)
  {
    if n == 0 {
      es := [];
    } else {
      var first := WorkersLeave(s, n - 1);
      var rest := WorkerLeaves(Final(s, first), n - 1);
      Append(s, first, rest);
      es := first + rest;
      LeftMore(s, Final(s, first), Final(s, es), n - 1);
    }
  }

  /** An accepted read, then a forced stop. */
  const READING: seq<Event> := [Submit(Outside, false)] + ([CountIn] + ([Stop] + ([Force] + [])))

  lemma ReadingRun(s: State)
    requires Initial(s) && s.pool.fixed > 0
    ensures ValidRun(s, READING)
    ensures var r := Final(s, READING);
            && r.forceStop && !r.running && !r.straddled && r.lock == Unlocked
            && r.workers == s.workers && r.place == map[s.pool.fixed - 1 := Preparing]
  {
    var s1 := Step(s, Submit(Outside, false));
    assert s1.place == map[s.pool.fixed - 1 := Preparing];
    var s2 := Step(s1, CountIn);
    var s3 := Step(s2, Stop);
    Cons(s3, Force, []);
    Cons(s2, Stop, [Force] + []);
    Cons(s1, CountIn, [Stop] + ([Force] + []));
    Cons(s, Submit(Outside, false), [CountIn] + ([Stop] + ([Force] + [])));
  }

  /** A forced stop does not wait: a request taken before it can still be in use when all workers have
      left. */
  lemma ForcedStopLeavesWork(s: State)
    requires Initial(s) && s.pool.fixed > 0
    ensures ValidRun(s, READING)
    ensures exists es :: ValidRun(Final(s, READING), es) && s.pool.fixed - 1 in Final(Final(s, READING), es).place
                         && forall w :: 0 <= w < |s.workers| ==> Gone(Final(Final(s, READING), es), w)
  {
    ReadingRun(s);
    InitialInv(s);
    InvRun(s, READING);
    ForcedStopIff(Final(s, READING), s.pool.fixed - 1);
  }

  // ---------------------------------------------------------------- partial writes

  /** One past the largest length a WSABUF or a DWORD can hold. */
  const ULONG_LIMIT: nat := 0x1_0000_0000

  function Ulong(n: nat): nat { n % ULONG_LIMIT }

  /** A write request: `start` is where wsaBuf.buf points into the buffer. */
  datatype Write = Write(buffer: seq<bv8>, start: nat, len: nat, transferred: nat)

  function NewWrite(buffer: seq<bv8>): Write {
    Write(buffer, 0, Ulong(|buffer|), 0)
  }

  /** A completion: bytes, error, and the error of the send that would follow (zero: accepted). */
  datatype Done = Done(bytes: nat, error: nat, resendError: nat)

  /** `report` is what the callback gets: a total and an error. */
  datatype After = Resent(w: Write) | Reported(w: Write, total: nat, error: nat)

  predicate Partial(w: Write, d: Done) {
    d.error == 0 && 0 < d.bytes < w.len
  }

  function Complete(w: Write, d: Done): After {
    var w' := if Partial(w, d) then Write(w.buffer, w.start + d.bytes, w.len - d.bytes, w.transferred + d.bytes) else w;
    var error := if Partial(w, d) then d.resendError else d.error;
    if Partial(w, d) && error == 0 then Resent(w')
    else Reported(w', Ulong(if error == 0 then |w.buffer| else w'.transferred + d.bytes), error)
  }

  /** A chain of completions of one request: what the kernel took, and the reports so far. */
  datatype Chain = Chain(write: Write, sent: seq<bv8>, reports: seq<(nat, nat)>)

  /** The kernel takes at most what it is offered. */
  predicate Possible(c: Chain, d: Done) {
    c.reports == [] && d.bytes <= c.write.len && c.write.start + d.bytes <= |c.write.buffer|
  }

  function Grow(c: Chain, d: Done): Chain
    requires Possible(c, d)
  {
    var sent := c.sent + c.write.buffer[c.write.start..c.write.start + d.bytes];
    match Complete(c.write, d)
    case Resent(w) => Chain(w, sent, [])
    case Reported(w, total, error) => Chain(w, sent, [(total, error)])
  }

  /** While the request is out, what was sent is the part of the buffer before the pointer. */
  ghost predicate InOrder(c: Chain) {
    && c.write.start == c.write.transferred
    && c.write.transferred + c.write.len == Ulong(|c.write.buffer|)
    && c.write.start <= |c.write.buffer|
    && c.sent == c.write.buffer[..c.write.start]
  }

  function NewChain(buffer: seq<bv8>): Chain {
    Chain(NewWrite(buffer), [], [])
  }

  /** What the caller should be told of an error: the completion's own, or else that of the resend. */
  function ErrorOf(c: Chain, d: Done): nat {
    if d.error != 0 then d.error else if 0 < d.bytes < c.write.len then d.resendError else 0
  }

  /** One completion: a chain still out shrinks and stays in order, and it stays out exactly if part of it was sent
      and the rest resent; a finished one reports once, with the error there was. A success reports the size of the
      buffer, a failure the bytes really sent, but counts the last part twice if its resend was refused; so the
      bytes reported are those sent unless that happened or a write completed with nothing sent. */
  lemma CompletionExact(c: Chain, d: Done)
    requires InOrder(c) && Possible(c, d)
    ensures var c' := Grow(c, d);
            && c'.write.buffer == c.write.buffer
            && c'.sent == c.write.buffer[..c.write.start + d.bytes]
            && (c'.reports == [] <==> 0 < d.bytes < c.write.len && ErrorOf(c, d) == 0)
            && (c'.reports == [] ==> InOrder(c') && c'.write.len < c.write.len)
            && (c'.reports != [] ==>
                  |c'.reports| == 1
                  && c'.reports[0].1 == ErrorOf(c, d)
                  && c'.reports[0].0 == Ulong(if ErrorOf(c, d) == 0 then |c.write.buffer|
                                              else if d.error == 0 then |c'.sent| + d.bytes else |c'.sent|)
                  && (c'.reports[0].0 == |c'.sent| <==>
                        !Partial(c.write, d) && !(d.error == 0 && d.bytes == 0 && c.write.len > 0)))
  {
    var w := c.write;
    assert w.buffer[..w.start] + w.buffer[w.start..w.start + d.bytes] == w.buffer[..w.start + d.bytes];
    assert Ulong(|w.buffer|) <= |w.buffer|;
  }

  function RunChain(c: Chain, ds: seq<Done>): Chain
    decreases |ds|
  {
    if ds == [] || !Possible(c, ds[0]) then c else RunChain(Grow(c, ds[0]), ds[1..])
  }

  /** Every completion succeeds with some bytes, and every resend is accepted. */
  ghost predicate AllGood(c: Chain, ds: seq<Done>)
    decreases |ds|
  {
    ds == [] ||
    (Possible(c, ds[0]) && ds[0].error == 0 && ds[0].resendError == 0 && ds[0].bytes > 0
     && AllGood(Grow(c, ds[0]), ds[1..]))
  }

  lemma {:induction false} ChainInOrder(c: Chain, ds: seq<Done>)
    requires InOrder(c) && c.reports == [] && AllGood(c, ds)
    ensures var r := RunChain(c, ds);
            var all := Ulong(|c.write.buffer|);
            && r.write.buffer == c.write.buffer
            && (r.reports == [] ==> InOrder(r))
            && (r.reports != [] ==> r.reports == [(all, 0)] && r.sent == c.write.buffer[..all])
    decreases |ds|
  {
    if ds != [] {
      CompletionExact(c, ds[0]);
      var next := Grow(c, ds[0]);
      if next.reports == [] {
        ChainInOrder(next, ds[1..]);
      }
    }
  }

  /** However the kernel splits a successful write, the parts are sent in order and the callback
      runs once. What is sent is the buffer, and what is reported its size, exactly if the size
      fits in 32 bits; otherwise only the size modulo 2^32. */
  lemma WriteSendsBuffer(buffer: seq<bv8>, ds: seq<Done>)
    requires AllGood(NewChain(buffer), ds)
    requires RunChain(NewChain(buffer), ds).reports != []
    ensures var r := RunChain(NewChain(buffer), ds);
            && r.reports == [(|r.sent|, 0)]
            && r.sent == buffer[..Ulong(|buffer|)]
            && (r.sent == buffer <==> |buffer| < ULONG_LIMIT)
  {
    ChainInOrder(NewChain(buffer), ds);
    assert |buffer[..Ulong(|buffer|)]| == Ulong(|buffer|);
    if |buffer| < ULONG_LIMIT {
      assert buffer[..|buffer|] == buffer;
    }
  }

  /** Every completion the chain meets succeeds, and every resend is accepted. */
  predicate NoErrors(c: Chain, ds: seq<Done>)
    decreases |ds|
  {
    ds == [] || !Possible(c, ds[0])
    || (ds[0].error == 0 && (0 < ds[0].bytes < c.write.len ==> ds[0].resendError == 0)
        && NoErrors(Grow(c, ds[0]), ds[1..]))
  }

  lemma {:induction false} ErrorFrom(c: Chain, ds: seq<Done>)
    requires InOrder(c) && c.reports == []
    ensures var r := RunChain(c, ds);
            && |r.reports| <= 1
            && (NoErrors(c, ds) <==> r.reports == [] || r.reports[0].1 == 0)
    decreases |ds|
  {
    if ds != [] && Possible(c, ds[0]) {
      CompletionExact(c, ds[0]);
      var next := Grow(c, ds[0]);
      if next.reports == [] {
        ErrorFrom(next, ds[1..]);
      } else {
        assert RunChain(next, ds[1..]) == next && NoErrors(next, ds[1..]);
      }
    }
  }

  /** Whatever the kernel does to a write, the callback runs at most once, and is told of an error if and only if there
      was one: in some completion or some resend. */
  lemma ErrorReported(buffer: seq<bv8>, ds: seq<Done>)
    ensures var r := RunChain(NewChain(buffer), ds);
            && |r.reports| <= 1
            && (NoErrors(NewChain(buffer), ds) <==> r.reports == [] || r.reports[0].1 == 0)
  {
    ErrorFrom(NewChain(buffer), ds);
  }

  // Three ways to go wrong, at an input.

  /** A refused resend: one byte of two was sent, and two are reported, with the error. */
  lemma RefusedResend(x: bv8, y: bv8, error: nat)
    requires error != 0
    ensures var r := Grow(NewChain([x, y]), Done(1, 0, error));
            r.sent == [x] && r.reports == [(2, error)]
  {
    assert Possible(NewChain([x, y]), Done(1, 0, error));
  }

  /** A completion with no bytes and no error: nothing was sent, and the whole size is reported. */
  lemma ZeroByteWrite(x: bv8)
    ensures var r := Grow(NewChain([x]), Done(0, 0, 0));
            r.sent == [] && r.reports == [(1, 0)]
  {
    assert Possible(NewChain([x]), Done(0, 0, 0));
  }

  /** A buffer of one byte more than 4 GiB: one byte is sent, one is reported, without an error. */
  lemma HugeWrite(buffer: seq<bv8>)
    requires |buffer| == ULONG_LIMIT + 1
    ensures var r := Grow(NewChain(buffer), Done(1, 0, 0));
            r.sent == [buffer[0]] && r.reports == [(1, 0)] && r.sent != buffer
  {
    assert Ulong(|buffer|) == 1;
    assert buffer[0..1] == [buffer[0]];
  }

  // ---------------------------------------------------------------- the objects

  /** The fields of IocpRequest a write uses; `start` is the offset of wsaBuf.buf in the buffer. */
  class IocpRequest {
    const buffer: seq<bv8>
    var start: nat
    var len: nat
    var transferredBytes: nat

    ghost function State(): Write
      reads this
    {
      Write(buffer, start, len, transferredBytes)
    }

    constructor (buffer: seq<bv8>)
      ensures State() == NewWrite(buffer)
    {
      this.buffer := buffer;
      start, len, transferredBytes := 0, Ulong(|buffer|), 0;
    }

    /** The WRITE case of HandleCompletion: whether to recycle, and then what was reported. */
    method HandleWrite(bytes: nat, error: nat, resendError: nat) returns (recycle: bool, total: nat, reported: nat)
      modifies this
      ensures var r := Complete(old(State()), Done(bytes, error, resendError));
              && State() == r.w && recycle == r.Reported?
              && (recycle ==> total == r.total && reported == r.error)
    {
      reported := error;
      if error == 0 && bytes > 0 && bytes < len {
        transferredBytes := transferredBytes + bytes;
        start := start + bytes;
        len := len - bytes;
        if resendError == 0 {
          return false, 0, 0;
        }
        reported := resendError;
      }
      total := Ulong(transferredBytes + bytes);
      if reported == 0 {
        total := Ulong(|buffer|);
      }
      return true, total, reported;
    }
  }

  /** The manager's pool. `inUse` is kept for the specification only. */
  class IocpManager {
    var fixed: nat
    var dynamic: nat
    var maxEntries: nat
    var freeRequests: seq<nat>
    var activeRequests: int
    ghost var inUse: set<nat>

    ghost function State(): Pool
      reads this
    {
      Pool(fixed, dynamic, maxEntries, freeRequests, activeRequests)
    }

    ghost predicate Valid()
      reads this
    {
      PoolHolds(State(), inUse)
    }

    constructor (entries: nat)
      ensures Valid() && State() == NewPool(entries) && inUse == {}
    {
      fixed, dynamic, activeRequests := entries, 0, 0;
      maxEntries := Max(entries * 4, entries + 64);
      freeRequests := [];
      inUse := {};
      new;
      for i := 0 to entries
        invariant freeRequests == seq(i, k => k)
        invariant fixed == entries && dynamic == 0 && activeRequests == 0 && inUse == {}
        invariant maxEntries == Max(entries * 4, entries + 64)
      {
        freeRequests := freeRequests + [i];
      }
      NewPoolHolds(entries);
    }

    method GetRequest() returns (r: Option<nat>)
      requires Valid()
      modifies this
      ensures Valid() && (r, State()) == Get(old(State()))
      ensures r.Some? ==> r.value !in old(inUse) && inUse == old(inUse) + {r.value}
      ensures r.None? ==> inUse == old(inUse) && |inUse| == maxEntries
    {
      ghost var p := State();
      GetHolds(p, inUse);
      if freeRequests == [] {
        var currentPoolSize := fixed + dynamic;
        if currentPoolSize < maxEntries {
          dynamic := dynamic + 1;
          activeRequests := activeRequests + 1;
          inUse := inUse + {currentPoolSize};
          assert (Some(currentPoolSize), State()) == Get(p);
          return Some(currentPoolSize);
        }
        return None;
      }
      var id := freeRequests[|freeRequests| - 1];
      freeRequests := freeRequests[..|freeRequests| - 1];
      activeRequests := activeRequests + 1;
      inUse := inUse + {id};
      assert (Some(id), State()) == Get(p);
      return Some(id);
    }

    method PutRequest(id: nat)
      requires Valid() && id in inUse
      modifies this
      ensures Valid() && State() == Put(old(State()), id) && inUse == old(inUse) - {id}
    {
      PutHolds(State(), inUse, id);
      freeRequests := freeRequests + [id];
      activeRequests := activeRequests - 1;
      inUse := inUse - {id};
    }

    /** `accepted` is the outcome of the system call. On failure the pool is as full as before. */
    method SubmitOperation(accepted: bool) returns (ok: bool, id: nat)
      requires Valid()
      modifies this
      ensures Valid() && ok == (accepted && Get(old(State())).0.Some?)
      ensures ok ==> id !in old(inUse) && inUse == old(inUse) + {id}
      ensures !ok ==> inUse == old(inUse) && activeRequests == old(activeRequests)
    {
      var r := GetRequest();
      if r.None? {
        return false, 0;
      }
      if !accepted {
        PutRequest(r.value);
        return false, r.value;
      }
      return true, r.value;
    }

    /** What a callback does to the pool: the submissions it makes, each accepted or not. `started` are
        the requests they leave in use. */
    method RunCallback(nested: seq<bool>) returns (ghost started: set<nat>)
      requires Valid()
      modifies this
      ensures Valid() && started !! old(inUse) && inUse == old(inUse) + started
    {
      started := {};
      var i := 0;
      while i < |nested|
        invariant Valid() && started !! old(inUse) && inUse == old(inUse) + started
      {
        var submitted, id := SubmitOperation(nested[i]);
        if submitted {
          started := started + {id};
        }
        i := i + 1;
      }
    }

    /** A close runs at once: it takes a request, calls back, and gives the request back. `closes` is the
        outcome of the close, `called` says whether the callback ran. */
    method SubmitCloseRequest(validSocket: bool, closes: bool, nested: seq<bool>)
      returns (ok: bool, called: bool, ghost started: set<nat>)
      requires Valid()
      modifies this
      ensures Valid() && called == (validSocket && Get(old(State())).0.Some?) && ok == (called && closes)
      ensures started !! old(inUse) && inUse == old(inUse) + started && (!called ==> started == {})
    {
      if !validSocket {
        return false, false, {};
      }
      var r := GetRequest();
      if r.None? {
        return false, false, {};
      }
      started := RunCallback(nested);
      PutRequest(r.value);
      return closes, true, started;
    }
  }
}
