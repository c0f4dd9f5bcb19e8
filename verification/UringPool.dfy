/** Requests and completion callbacks of the io_uring manager.

    Every call of SubmitOperation brings one callback. Any number of threads submit, callbacks
    among them; one thread reaps completions. A submission that fails may leave its prepared entry in
    the ring, since nothing takes it back; the next successful one then submits it too. */
module UringPool {
  import opened Common

  /** A call of SubmitOperation; its number stands for the callback it brings. */
  type Call = nat

  datatype Stage =
    | Prepared(id: nat)        // has a request, about to submit it
    | NoRequest                // not running or no request free: must report the error itself
    | ErrorTold                // has reported that error
    | InFlight(id: nat)        // submitted
    | Refused(id: nat)         // submission failed, error reported, request not yet given back
    | Reaping(id: nat)         // completion reaped, callback run, request not yet given back
    | ReturnedFalse
    | Finished

  /** `request` is what each request record holds; `ran` counts runs of each callback. `left` are the
      entries that failed submissions left in the ring, `strays` those that went to the kernel later. */
  datatype State = State(
    capacity: nat, running: bool, free: seq<nat>, request: map<nat, Call>, stage: map<Call, Stage>,
    inUse: set<nat>, kernel: set<nat>, reaper: Option<nat>, ran: multiset<Call>,
    left: multiset<nat>, strays: multiset<nat>)

  datatype Event =
    | Submit(c: Call)
    | TellError(c: Call)
    | ReturnFalse(c: Call)
    | Accept(c: Call)
    | Refuse(c: Call, leaves: bool)  // `leaves`: the entry stays in the ring
    | GiveBack(c: Call)
    | Reap(id: nat)
    | ReapStray(id: nat)             // reaps a stray, runs what its request holds, gives it back
    | Recycle
    | Shutdown

  predicate Enabled(s: State, e: Event) {
    match e
    case Submit(c) => c !in s.stage
    case TellError(c) => c in s.stage && s.stage[c].NoRequest?
    case ReturnFalse(c) => c in s.stage && s.stage[c].ErrorTold?
    case Accept(c) => c in s.stage && s.stage[c].Prepared?
    case Refuse(c, _) => c in s.stage && s.stage[c].Prepared? && s.stage[c].id in s.request
    case GiveBack(c) => c in s.stage && s.stage[c].Refused?
    case Reap(id) => id in s.kernel && id in s.request && s.reaper == None
    case ReapStray(id) => id in s.strays && id in s.request && s.reaper == None
    case Recycle => s.reaper.Some? && s.reaper.value in s.request
    case Shutdown => true
  }

  /** A callback runs: the one stored in the request, whatever that is by now. */
  function Step(s: State, e: Event): State
    requires Enabled(s, e)
  {
    match e
    case Submit(c) =>
      if !s.running || s.free == [] then s.(stage := s.stage[c := NoRequest])
      else
        var id := s.free[|s.free| - 1];
        s.(free := s.free[..|s.free| - 1], inUse := s.inUse + {id}, request := s.request[id := c],
           stage := s.stage[c := Prepared(id)])
    case TellError(c) => s.(stage := s.stage[c := ErrorTold], ran := s.ran + multiset{c})
    case ReturnFalse(c) => s.(stage := s.stage[c := ReturnedFalse])
    case Accept(c) =>
      s.(stage := s.stage[c := InFlight(s.stage[c].id)], kernel := s.kernel + {s.stage[c].id},
         strays := s.strays + s.left, left := multiset{})
    case Refuse(c, leaves) =>
      s.(stage := s.stage[c := Refused(s.stage[c].id)], ran := s.ran + multiset{s.request[s.stage[c].id]},
         left := if leaves then s.left + multiset{s.stage[c].id} else s.left)
    case GiveBack(c) =>
      var id := s.stage[c].id;
      s.(stage := s.stage[c := ReturnedFalse], free := s.free + [id], inUse := s.inUse - {id})
    case Reap(id) =>
      s.(kernel := s.kernel - {id}, reaper := Some(id), ran := s.ran + multiset{s.request[id]},
         stage := s.stage[s.request[id] := Reaping(id)])
    case ReapStray(id) =>
      s.(strays := s.strays - multiset{id}, ran := s.ran + multiset{s.request[id]},
         free := s.free + [id], inUse := s.inUse - {id})
    case Recycle =>
      var id := s.reaper.value;
      s.(reaper := None, free := s.free + [id], inUse := s.inUse - {id},
         stage := s.stage[s.request[id] := Finished])
    case Shutdown => s.(running := false)
  }

  predicate ValidRun(s: State, es: seq<Event>)
    decreases |es|
  {
    es == [] || (Enabled(s, es[0]) && ValidRun(Step(s, es[0]), es[1..]))
  }

  function Final(s: State, es: seq<Event>): State
    requires ValidRun(s, es)
    decreases |es|
  {
    if es == [] then s else Final(Step(s, es[0]), es[1..])
  }

  function Initial(capacity: nat): State {
    State(capacity, true, seq(capacity, i => i), map[], map[], {}, {}, None, multiset{}, multiset{}, multiset{})
  }

  // ---------------------------------------------------------------- what every step keeps

  predicate HasRequest(st: Stage) {
    st.Prepared? || st.InFlight? || st.Refused? || st.Reaping?
  }

  /** The call whose callback request `id` holds is in stage `st`. */
  predicate StageOf(s: State, id: nat, st: Stage) {
    id in s.request && s.request[id] in s.stage && s.stage[s.request[id]] == st
  }

  /** How often the callback of a call in this stage has run. */
  function Runs(st: Stage): nat {
    if st.Prepared? || st.NoRequest? || st.InFlight? then 0 else 1
  }

  ghost predicate PoolHolds(s: State) {
    && NoDup(s.free)
    && (forall i :: 0 <= i < |s.free| ==> s.free[i] < s.capacity && s.free[i] !in s.inUse)
    && (forall id :: id in s.inUse ==> id < s.capacity)
    && |s.free| + |s.inUse| == s.capacity
  }

  /** Every request in use belongs to one call, holds that call's callback, and is with the kernel
      or the reaper exactly if the call says so. */
  ghost predicate Linked(s: State) {
    && (forall id :: id in s.inUse ==>
          id in s.request && s.request[id] in s.stage
          && HasRequest(s.stage[s.request[id]]) && s.stage[s.request[id]].id == id)
    && (forall c :: c in s.stage && HasRequest(s.stage[c]) ==>
          s.stage[c].id in s.inUse && s.request[s.stage[c].id] == c)
    && (forall id :: id in s.kernel <==> id in s.inUse && s.stage[s.request[id]] == InFlight(id))
    && (forall id :: s.reaper == Some(id) <==> id in s.inUse && s.stage[s.request[id]] == Reaping(id))
  }

  ghost predicate Counted(s: State) {
    forall c :: s.ran[c] == if c in s.stage then Runs(s.stage[c]) else 0
  }

  /** No entry of a failed submission is about. */
  predicate Clean(s: State) {
    s.left == multiset{} && s.strays == multiset{}
  }

  predicate LeavesEntry(e: Event) {
    e.Refuse? && e.leaves
  }

  ghost predicate Inv(s: State) {
    PoolHolds(s) && Linked(s) && Counted(s) && Clean(s)
  }

  lemma TakeKeepsPool(s: State, s': State, id: nat)
    requires PoolHolds(s) && s.free != [] && id == s.free[|s.free| - 1]
    requires s'.free == s.free[..|s.free| - 1] && s'.inUse == s.inUse + {id} && s'.capacity == s.capacity
    ensures id !in s.inUse && PoolHolds(s')
  {
  }

  lemma TakeKeepsLinks(s: State, s': State, id: nat, c: Call)
    requires Linked(s) && c !in s.stage && id !in s.inUse
    requires s'.inUse == s.inUse + {id} && s'.request == s.request[id := c]
    requires s'.stage == s.stage[c := Prepared(id)] && s'.kernel == s.kernel && s'.reaper == s.reaper
    ensures Linked(s')
  {
  }

  /** A request handed out was not in use, whoever asks and whatever callbacks are running. */
  lemma SubmitKeeps(s: State, c: Call)
    requires Inv(s) && Enabled(s, Submit(c))
    ensures PoolHolds(Step(s, Submit(c))) && Linked(Step(s, Submit(c)))
    ensures s.free != [] ==> s.free[|s.free| - 1] !in s.inUse
  {
    if s.free != [] {
      var id := s.free[|s.free| - 1];
      assert id !in s.inUse;
      if s.running {
        TakeKeepsPool(s, Step(s, Submit(c)), id);
        TakeKeepsLinks(s, Step(s, Submit(c)), id, c);
      }
    }
  }

  lemma MoveKeeps(s: State, e: Event)
    requires Inv(s) && (e.Accept? || e.Refuse?) && Enabled(s, e) && !LeavesEntry(e)
    ensures Linked(Step(s, e))
  {
  }

  lemma ReapKeeps(s: State, id: nat)
    requires Inv(s) && Enabled(s, Reap(id))
    ensures Linked(Step(s, Reap(id)))
  {
  }

  lemma PoolBack(s: State, s': State, id: nat)
    requires PoolHolds(s) && id in s.inUse
    requires s'.free == s.free + [id] && s'.inUse == s.inUse - {id} && s'.capacity == s.capacity
    ensures PoolHolds(s')
  {
  }

  lemma GiveBackKeeps(s: State, c: Call)
    requires Inv(s) && Enabled(s, GiveBack(c))
    ensures PoolHolds(Step(s, GiveBack(c))) && Linked(Step(s, GiveBack(c)))
  {
    PoolBack(s, Step(s, GiveBack(c)), s.stage[c].id);
  }

  lemma RecycleKeeps(s: State)
    requires Inv(s) && Enabled(s, Recycle)
    ensures PoolHolds(Step(s, Recycle)) && Linked(Step(s, Recycle))
  {
    PoolBack(s, Step(s, Recycle), s.reaper.value);
  }

  lemma SelfKeeps(s: State, e: Event)
    requires Inv(s) && (e.TellError? || e.ReturnFalse? || e.Shutdown?) && Enabled(s, e)
    ensures Linked(Step(s, e))
  {
  }

  /** One callback runs, and its call's stage says so. */
  lemma Ran(s: State, s': State, c: Call, st: Stage)
    requires Counted(s) && s'.ran == s.ran + multiset{c} && s'.stage == s.stage[c := st]
    requires c in s.stage && Runs(s.stage[c]) == 0 && Runs(st) == 1
    ensures Counted(s')
  {
  }

  lemma RanNone(s: State, s': State, c: Call, st: Stage)
    requires Counted(s) && s'.ran == s.ran && s'.stage == s.stage[c := st]
    requires Runs(st) == if c in s.stage then Runs(s.stage[c]) else 0
    ensures Counted(s')
  {
  }

  lemma RanStep(s: State, e: Event)
    requires Inv(s) && Enabled(s, e) && (e.TellError? || e.Refuse? || e.Reap?)
    ensures Counted(Step(s, e))
  {
    match e
    case TellError(c) => Ran(s, Step(s, e), c, ErrorTold);
    case Refuse(c, _) => Ran(s, Step(s, e), c, Refused(s.stage[c].id));
    case Reap(id) => Ran(s, Step(s, e), s.request[id], Reaping(id));
  }

  lemma SubmitStep(s: State, e: Event)
    requires Counted(s) && Enabled(s, e) && (e.Submit? || e.Accept?)
    ensures Counted(Step(s, e))
  {
    RanNone(s, Step(s, e), e.c, Step(s, e).stage[e.c]);
  }

  lemma EndStep(s: State, e: Event)
    requires Inv(s) && Enabled(s, e) && (e.ReturnFalse? || e.GiveBack? || e.Recycle?)
    ensures Counted(Step(s, e))
  {
    match e
    case ReturnFalse(c) => RanNone(s, Step(s, e), c, ReturnedFalse);
    case GiveBack(c) => RanNone(s, Step(s, e), c, ReturnedFalse);
    case Recycle => RanNone(s, Step(s, e), s.request[s.reaper.value], Finished);
  }

  lemma CountStep(s: State, e: Event)
    requires Inv(s) && Enabled(s, e) && !LeavesEntry(e)
    ensures Counted(Step(s, e))
  {
    if e.TellError? || e.Refuse? || e.Reap? {
      RanStep(s, e);
    } else if e.Submit? || e.Accept? {
      SubmitStep(s, e);
    } else if !e.Shutdown? {
      EndStep(s, e);
    }
  }

  lemma InvStep(s: State, e: Event)
    requires Inv(s) && Enabled(s, e) && !LeavesEntry(e)
    ensures Inv(Step(s, e))
  {
    CountStep(s, e);
    match e
    case Submit(c) => SubmitKeeps(s, c);
    case Accept(_) => MoveKeeps(s, e);
    case Refuse(_, _) => MoveKeeps(s, e);
    case Reap(id) => ReapKeeps(s, id);
    case GiveBack(c) => GiveBackKeeps(s, c);
    case Recycle => RecycleKeeps(s);
    case TellError(_) => SelfKeeps(s, e);
    case ReturnFalse(_) => SelfKeeps(s, e);
    case Shutdown => SelfKeeps(s, e);
  }

  /** No failed submission of the run leaves its entry in the ring. */
  predicate AllClean(es: seq<Event>) {
    forall i :: 0 <= i < |es| ==> !LeavesEntry(es[i])
  }

  lemma {:induction false} InvRun(s: State, es: seq<Event>)
    requires Inv(s) && ValidRun(s, es) && AllClean(es)
    ensures Inv(Final(s, es))
    decreases |es|
  {
    if es != [] {
      assert !LeavesEntry(es[0]);
      InvStep(s, es[0]);
      InvRun(Step(s, es[0]), es[1..]);
    }
  }

  // ---------------------------------------------------------------- whole runs

  /** In any run in which no failed submission leaves its entry in the ring, with callbacks submitting
      as they please: a call that returned false has run its
      callback exactly once by then; one that was submitted has not run it before its completion is
      reaped and has run it exactly once after; no callback ever runs twice. */
  lemma CallbackExactlyOnce(capacity: nat, es: seq<Event>, c: Call)
    requires ValidRun(Initial(capacity), es) && AllClean(es)
    ensures var s := Final(Initial(capacity), es);
            && s.ran[c] <= 1
            && (c !in s.stage ==> s.ran[c] == 0)
            && (c in s.stage && s.stage[c] == ReturnedFalse ==> s.ran[c] == 1)
            && (c in s.stage && s.stage[c].InFlight? ==> s.ran[c] == 0 && s.stage[c].id in s.kernel)
            && (c in s.stage && (s.stage[c].Reaping? || s.stage[c] == Finished) ==> s.ran[c] == 1)
  {
    InvRun(Initial(capacity), es);
    var s := Final(Initial(capacity), es);
    assert s.ran[c] == if c in s.stage then Runs(s.stage[c]) else 0;
  }

  /** Free requests and those in use always partition the pool; the next one to be handed out is
      not in use, so no request is reused while the kernel has it or its callback runs; and what
      is with the kernel still holds the callback of the call that submitted it. */
  lemma NeverReusedEarly(capacity: nat, es: seq<Event>, id: nat)
    requires ValidRun(Initial(capacity), es) && AllClean(es)
    ensures var s := Final(Initial(capacity), es);
            && NoDup(s.free) && |s.free| + |s.inUse| == s.capacity
            && (id in s.free ==> id !in s.inUse && id !in s.kernel && s.reaper != Some(id))
            && (id in s.kernel ==> id in s.inUse && StageOf(s, id, InFlight(id)))
            && (s.reaper == Some(id) ==> id in s.inUse && StageOf(s, id, Reaping(id)))
  {
    InvRun(Initial(capacity), es);
  }

  lemma {:induction false} ShutdownRun(s: State, es: seq<Event>)
    requires ValidRun(s, es)
    ensures !s.running || Shutdown in es ==> !Final(s, es).running
    decreases |es|
  {
    if es != [] {
      ShutdownRun(Step(s, es[0]), es[1..]);
    }
  }

  /** After the shutdown no call gets a request; it reports its error itself. */
  lemma NothingTakenAfterShutdown(capacity: nat, es: seq<Event>, c: Call)
    requires ValidRun(Initial(capacity), es) && Shutdown in es && c !in Final(Initial(capacity), es).stage
    ensures var s := Final(Initial(capacity), es);
            Step(s, Submit(c)) == s.(stage := s.stage[c := NoRequest])
  {
    ShutdownRun(Initial(capacity), es);
  }

  ghost predicate Doubled(s: State) {
    exists x :: s.ran[x] > 1
  }

  lemma Cons(s: State, e: Event, rest: seq<Event>)
    requires Enabled(s, e) && ValidRun(Step(s, e), rest)
    ensures ValidRun(s, [e] + rest)
    ensures Final(s, [e] + rest) == Final(Step(s, e), rest)
  {
    assert ([e] + rest)[1..] == rest;
  }

  function BothComplete(id: nat): seq<Event> {
    [ReapStray(id)] + ([Reap(id)] + [])
  }

  /** After a refusal that left its entry: the request goes back, call d gets it and is submitted, and
      with it the stray; both complete with d's callback. */
  function Doubling(c: Call, d: Call, id: nat): seq<Event> {
    [GiveBack(c)] + ([Submit(d)] + ([Accept(d)] + BothComplete(id)))
  }

  lemma CompletesTwice(s: State, d: Call, id: nat)
    requires id in s.strays && id in s.kernel && id in s.request && s.request[id] == d && s.reaper == None
    ensures ValidRun(s, BothComplete(id)) && Final(s, BothComplete(id)).ran[d] == s.ran[d] + 2
    ensures var r := Final(s, BothComplete(id));
            && r.free == s.free + [id] && id !in r.inUse && r.reaper == Some(id)
            && r.strays == s.strays - multiset{id} && r.left == s.left
  {
    Cons(Step(s, ReapStray(id)), Reap(id), []);
    Cons(s, ReapStray(id), [Reap(id)] + []);
  }

  /** A leftover entry for request id, which is the next to be handed out. */
  predicate Trap(s: State, id: nat) {
    s.running && s.reaper == None && id in s.left && s.free != [] && s.free[|s.free| - 1] == id
  }

  lemma TrapSprings(s: State, d: Call, id: nat)
    requires Trap(s, id) && d !in s.stage
    ensures var es := [Submit(d)] + ([Accept(d)] + BothComplete(id));
            && ValidRun(s, es)
            && var r := Final(s, es);
               && r.ran[d] == s.ran[d] + 2 && id in r.free && id !in r.inUse && r.reaper == Some(id)
               && r.strays == s.strays + s.left - multiset{id} && r.left == multiset{}
  {
    var s2 := Step(s, Submit(d));
    assert s2.request[id] == d && s2.stage[d] == Prepared(id);
    var s3 := Step(s2, Accept(d));
    CompletesTwice(s3, d, id);
    Cons(s2, Accept(d), BothComplete(id));
    Cons(s, Submit(d), [Accept(d)] + BothComplete(id));
  }

  lemma RefusalSets(s: State, c: Call, d: Call, id: nat)
    requires Inv(s) && s.running && s.reaper == None && d !in s.stage
    requires c in s.stage && s.stage[c] == Prepared(id)
    ensures var r := Step(s, Refuse(c, true));
            && Enabled(r, GiveBack(c)) && Trap(Step(r, GiveBack(c)), id)
            && d !in Step(r, GiveBack(c)).stage && Step(r, GiveBack(c)).ran[d] == 0
  {
    assert s.request[id] == c && s.ran[d] == 0;
  }

  /** The run: call d's callback runs twice, and its request is free again while it runs the second time; the entry
      itself is used up. */
  lemma StrayDoubles(s: State, c: Call, d: Call, id: nat)
    requires Inv(s) && s.running && s.reaper == None && d !in s.stage
    requires c in s.stage && s.stage[c] == Prepared(id)
    ensures var r := Step(s, Refuse(c, true));
            && ValidRun(r, Doubling(c, d, id)) && AllClean(Doubling(c, d, id))
            && var end := Final(r, Doubling(c, d, id));
               && end.ran[d] == 2 && end.reaper == Some(id) && id in end.free && id !in end.inUse
               && end.left == multiset{} && end.strays == s.strays + s.left
  {
    RefusalSets(s, c, d, id);
    var r := Step(s, Refuse(c, true));
    TrapSprings(Step(r, GiveBack(c)), d, id);
    Cons(r, GiveBack(c), [Submit(d)] + ([Accept(d)] + BothComplete(id)));
  }

  lemma NeverDoubled(s: State, es: seq<Event>)
    requires Inv(s) && ValidRun(s, es) && AllClean(es)
    ensures !Doubled(Final(s, es))
  {
    InvRun(s, es);
    var r := Final(s, es);
    forall x ensures r.ran[x] <= 1 {
      assert r.ran[x] == if x in r.stage then Runs(r.stage[x]) else 0;
    }
  }

  /** The condition is exact. From any good state of a running manager, with a call about to be refused
      and another still to come: some callback can run twice, with no further entry left behind, if and
      only if this refusal leaves its entry in the ring. */
  lemma LeftEntryIff(s: State, c: Call, d: Call, leaves: bool)
    requires Inv(s) && s.running && s.reaper == None && d !in s.stage && c in s.stage && s.stage[c].Prepared?
    ensures leaves <==> exists es :: ValidRun(Step(s, Refuse(c, leaves)), es) && AllClean(es)
                                     && Doubled(Final(Step(s, Refuse(c, leaves)), es))
  {
    var r := Step(s, Refuse(c, leaves));
    if leaves {
      StrayDoubles(s, c, d, s.stage[c].id);
      var es := Doubling(c, d, s.stage[c].id);
      assert Final(r, es).ran[d] > 1;
    } else {
      InvStep(s, Refuse(c, leaves));
      forall es | ValidRun(r, es) && AllClean(es) ensures !Doubled(Final(r, es)) {
        NeverDoubled(r, es);
      }
    }
  }

  // ---------------------------------------------------------------- the object

  /** The manager's pool, with the callbacks run so far in `ran`. */
  class IoUringManager {
    const capacity: nat
    var freeRequests: seq<nat>
    var request: map<nat, Call>
    var isRunning: bool
    var ran: seq<Call>

    constructor (entries: nat)
      ensures capacity == entries && isRunning && ran == [] && freeRequests == seq(entries, i => i)
    {
      capacity := entries;
      freeRequests, request, isRunning, ran := [], map[], true, [];
      new;
      for i := 0 to entries
        invariant freeRequests == seq(i, k => k) && isRunning && ran == []
      {
        freeRequests := freeRequests + [i];
      }
    }

    method GetRequest() returns (r: Option<nat>)
      modifies this`freeRequests
      ensures r.None? <==> old(freeRequests) == []
      ensures r.None? ==> freeRequests == old(freeRequests)
      ensures r.Some? ==> old(freeRequests) == freeRequests + [r.value]
    {
      if freeRequests == [] {
        return None;
      }
      var id := freeRequests[|freeRequests| - 1];
      freeRequests := freeRequests[..|freeRequests| - 1];
      return Some(id);
    }

    method PutRequest(id: nat)
      modifies this`freeRequests
      ensures freeRequests == old(freeRequests) + [id]
    {
      freeRequests := freeRequests + [id];
    }

    /** `accepted`: the kernel takes the submission. A call that fails has run its callback once and
        left the pool as it was; one that succeeds has not run it, and its request holds it. */
    method SubmitOperation(c: Call, accepted: bool) returns (ok: bool, id: nat)
      modifies this
      ensures ok == (old(isRunning) && old(freeRequests) != [] && accepted)
      ensures !ok ==> ran == old(ran) + [c] && freeRequests == old(freeRequests)
      ensures ok ==> ran == old(ran) && old(freeRequests) == freeRequests + [id] && request == old(request)[id := c]
      ensures isRunning == old(isRunning)
    {
      if !isRunning {
        ran := ran + [c];
        return false, 0;
      }
      var r := GetRequest();
      if r.None? {
        ran := ran + [c];
        return false, 0;
      }
      id := r.value;
      request := request[id := c];
      if accepted {
        return true, id;
      }
      ran := ran + [request[id]];
      PutRequest(id);
      return false, id;
    }

    /** One turn of Run: the stored callback runs, then the request is free again. */
    method HandleCompletion(id: nat)
      requires id in request
      modifies this
      ensures ran == old(ran) + [old(request[id])] && freeRequests == old(freeRequests) + [id]
      ensures request == old(request) && isRunning == old(isRunning)
    {
      ran := ran + [request[id]];
      PutRequest(id);
    }
  }
}
