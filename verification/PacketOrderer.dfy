/** The reorder buffer of the Windows UDP server.

    Packets carry the number they were given when their receive was posted and arrive in any
    order. `Submit` is what one call does to the buffer; `PacketOrderer` is the object that does
    it in place. Times are natural numbers in any one unit. */
module PacketOrdering {
  import opened Common

  /** One past the largest sequence number: numbers are 64-bit and wrap. */
  const SEQ_LIMIT: nat := 0x1_0000_0000_0000_0000

  datatype Packet = Packet(data: seq<bv8>, addr: nat)

  datatype PacketInfo = PacketInfo(packet: Packet, arrivalTime: nat)

  datatype Limits = Limits(maxBufferSize: nat, gapTimeout: nat)

  /** A call of SubmitPacket, with the two clock readings it makes. */
  datatype Arrival = Arrival(seqNo: nat, packet: Packet, arrivedAt: nat, checkedAt: nat)

  /** The buffer, the number waited for, and everything handed to the delivery callback so far. */
  datatype Buffer = Buffer(pending: map<nat, PacketInfo>, next: nat, log: seq<(nat, PacketInfo)>)

  const EMPTY := Buffer(map[], 0, [])

  function Succ(n: nat): nat {
    if n + 1 == SEQ_LIMIT then 0 else n + 1
  }

  // ---------------------------------------------------------------- what one call does

  /** The key an ordered map starts with. */
  function Oldest(m: map<nat, PacketInfo>): (k: nat)
    requires m != map[]
    ensures k in m && forall j :: j in m ==> k <= j
  {
    LeastExists(m.Keys);
    var k :| k in m.Keys && forall j :: j in m.Keys ==> k <= j;
    k
  }

  function Insert(b: Buffer, a: Arrival): Buffer {
    b.(pending := b.pending[a.seqNo := PacketInfo(a.packet, a.arrivedAt)])
  }

  function DeliverNext(b: Buffer): (r: Buffer)
    requires b.next in b.pending
    ensures |r.pending| == |b.pending| - 1
  {
    Buffer(b.pending - {b.next}, Succ(b.next), b.log + [(b.next, b.pending[b.next])])
  }

  /** Deliver for as long as the number waited for is there. */
  function Drain(b: Buffer): Buffer
    decreases |b.pending|
  {
    if b.next in b.pending then Drain(DeliverNext(b)) else b
  }

  function SkipToOldest(b: Buffer): Buffer
    requires b.pending != map[]
  {
    Drain(b.(next := Oldest(b.pending)))
  }

  predicate Expired(b: Buffer, limits: Limits, now: nat) {
    b.pending != map[] && now - b.pending[Oldest(b.pending)].arrivalTime > limits.gapTimeout
  }

  predicate Overfull(b: Buffer, limits: Limits) {
    |b.pending| > limits.maxBufferSize
  }

  function ExpireGap(b: Buffer, limits: Limits, now: nat): Buffer {
    if Expired(b, limits, now) then SkipToOldest(b) else b
  }

  function TrimOverflow(b: Buffer, limits: Limits): Buffer
    decreases |b.pending|
  {
    if Overfull(b, limits) then
      SkipFacts(b);
      TrimOverflow(SkipToOldest(b), limits)
    else b
  }

  function Submit(b: Buffer, limits: Limits, a: Arrival): Buffer {
    TrimOverflow(ExpireGap(Drain(Insert(b, a)), limits, a.checkedAt), limits)
  }

  /** The buffer after a whole run of calls on a new orderer. */
  function Run(limits: Limits, arrivals: seq<Arrival>): Buffer {
    if arrivals == [] then EMPTY
    else Submit(Run(limits, arrivals[..|arrivals| - 1]), limits, arrivals[|arrivals| - 1])
  }

  // ---------------------------------------------------------------- nothing lost, nothing doubled

  /** Everything handed over so far, with how often: delivered packets and buffered ones. */
  ghost function Bag(b: Buffer): multiset<(nat, PacketInfo)> {
    multiset(b.log) + multiset(b.pending.Items)
  }

  lemma RemoveItem(m: map<nat, PacketInfo>, k: nat)
    requires k in m
    ensures multiset(m.Items) == multiset((m - {k}).Items) + multiset{(k, m[k])}
  {
    assert m.Items == (m - {k}).Items + {(k, m[k])} by {
      forall p | p in m.Items ensures p in (m - {k}).Items + {(k, m[k])} {
        assert p.0 in m && m[p.0] == p.1;
      }
    }
    assert (k, m[k]) !in (m - {k}).Items;
  }

  /** A drain stops only at a gap, keeps every packet, and delivers at least one if it can. */
  lemma {:induction false} DrainFacts(b: Buffer)
    ensures var r := Drain(b);
            && r.next !in r.pending
            && Bag(r) == Bag(b)
            && b.log <= r.log
            && |r.pending| <= |b.pending|
            && (b.next in b.pending ==>
                  |r.pending| < |b.pending| && |r.log| > |b.log| && r.log[|b.log|] == (b.next, b.pending[b.next]))
            && (forall k :: k in r.pending ==> k in b.pending && r.pending[k] == b.pending[k])
    decreases |b.pending|
  {
    if b.next in b.pending {
      var d := DeliverNext(b);
      RemoveItem(b.pending, b.next);
      DrainFacts(d);
      assert d.log[|b.log|] == (b.next, b.pending[b.next]);
    }
  }

  /** n comes right after m, where 0 comes after the largest 64-bit number. */
  predicate ComesAfter(n: nat, m: nat) {
    if m == 0xFFFF_FFFF_FFFF_FFFF then n == 0 else n == m + 1
  }

  /** What a drain delivers are consecutive numbers, and then it waits for the one after them. */
  lemma {:induction false} DrainConsecutive(b: Buffer)
    ensures var r := Drain(b);
            && |b.log| <= |r.log|
            && (forall i :: |b.log| < i < |r.log| ==> ComesAfter(r.log[i].0, r.log[i - 1].0))
            && (|b.log| < |r.log| ==> r.log[|b.log|].0 == b.next && ComesAfter(r.next, r.log[|r.log| - 1].0))
            && (|b.log| == |r.log| ==> r == b)
    decreases |b.pending|
  {
    if b.next in b.pending {
      var d := DeliverNext(b);
      DrainFacts(d);
      DrainConsecutive(d);
      assert Drain(b).log[|b.log|] == d.log[|b.log|];
    }
  }

  lemma SkipFacts(b: Buffer)
    requires b.pending != map[]
    ensures var r := SkipToOldest(b);
            && r.next !in r.pending
            && Bag(r) == Bag(b)
            && |r.pending| < |b.pending|
            && |b.log| < |r.log| && b.log <= r.log && r.log[|b.log|].0 == Oldest(b.pending)
  {
    DrainFacts(b.(next := Oldest(b.pending)));
  }

  lemma {:induction false} TrimFacts(b: Buffer, limits: Limits)
    requires b.next !in b.pending
    ensures var r := TrimOverflow(b, limits);
            && Bag(r) == Bag(b)
            && |r.pending| <= limits.maxBufferSize
            && r.next !in r.pending
            && b.log <= r.log
    decreases |b.pending|
  {
    if Overfull(b, limits) {
      SkipFacts(b);
      TrimFacts(SkipToOldest(b), limits);
    }
  }

  /** What a call throws away: the packet still buffered under the same number, if there is one. */
  ghost function Overwritten(b: Buffer, seqNo: nat): multiset<(nat, PacketInfo)> {
    if seqNo in b.pending then multiset{(seqNo, b.pending[seqNo])} else multiset{}
  }

  function Stamped(a: Arrival): (nat, PacketInfo) {
    (a.seqNo, PacketInfo(a.packet, a.arrivedAt))
  }

  lemma InsertBag(b: Buffer, a: Arrival)
    ensures Bag(Insert(b, a)) + Overwritten(b, a.seqNo) == Bag(b) + multiset{Stamped(a)}
  {
    var i := Insert(b, a);
    RemoveItem(i.pending, a.seqNo);
    assert i.pending - {a.seqNo} == b.pending - {a.seqNo};
    if a.seqNo in b.pending {
      RemoveItem(b.pending, a.seqNo);
    } else {
      assert b.pending - {a.seqNo} == b.pending;
    }
  }

  /** Past the insertion a call keeps every packet and only adds to the log. */
  lemma SettleFacts(i: Buffer, limits: Limits, now: nat)
    ensures var r := TrimOverflow(ExpireGap(Drain(i), limits, now), limits);
            && Bag(r) == Bag(i) && i.log <= r.log
            && |r.pending| <= limits.maxBufferSize && r.next !in r.pending
  {
    DrainFacts(i);
    var d := Drain(i);
    if Expired(d, limits, now) {
      SkipFacts(d);
    }
    TrimFacts(ExpireGap(d, limits, now), limits);
  }

  /** One call, for every buffer and every packet: what was delivered or buffered stays so, the new
      packet is added once, and the only packet lost is one buffered under the same number. */
  lemma SubmitConserves(b: Buffer, limits: Limits, a: Arrival)
    ensures Bag(Submit(b, limits, a)) + Overwritten(b, a.seqNo) == Bag(b) + multiset{Stamped(a)}
    ensures b.log <= Submit(b, limits, a).log
  {
    InsertBag(b, a);
    SettleFacts(Insert(b, a), limits, a.checkedAt);
  }

  ghost function Arrived(arrivals: seq<Arrival>): multiset<(nat, PacketInfo)> {
    if arrivals == [] then multiset{}
    else Arrived(arrivals[..|arrivals| - 1]) + multiset{Stamped(arrivals[|arrivals| - 1])}
  }

  ghost function Lost(limits: Limits, arrivals: seq<Arrival>): multiset<(nat, PacketInfo)> {
    if arrivals == [] then multiset{}
    else
      var before := arrivals[..|arrivals| - 1];
      Lost(limits, before) + Overwritten(Run(limits, before), arrivals[|arrivals| - 1].seqNo)
  }

  ghost predicate Distinct(arrivals: seq<Arrival>) {
    forall i, j :: 0 <= i < j < |arrivals| ==> arrivals[i].seqNo != arrivals[j].seqNo
  }

  lemma {:induction false} ArrivedFrom(arrivals: seq<Arrival>, p: (nat, PacketInfo))
    ensures p in Arrived(arrivals) <==> exists i :: 0 <= i < |arrivals| && Stamped(arrivals[i]) == p
  {
    if arrivals != [] {
      var before, a := arrivals[..|arrivals| - 1], arrivals[|arrivals| - 1];
      ArrivedFrom(before, p);
      if p in Arrived(arrivals) {
        if p in Arrived(before) {
          var i :| 0 <= i < |before| && Stamped(before[i]) == p;
          assert Stamped(arrivals[i]) == p;
        } else {
          assert Stamped(arrivals[|arrivals| - 1]) == p;
        }
      }
      if i :| 0 <= i < |arrivals| && Stamped(arrivals[i]) == p {
        if i < |before| {
          assert Stamped(before[i]) == p;
        }
      }
    }
  }

  lemma BagAlgebra<T>(after: multiset<T>, over: multiset<T>, before: multiset<T>, added: multiset<T>,
                      lost: multiset<T>, arrived: multiset<T>)
    requires after + over == before + added && before + lost == arrived
    ensures after + (lost + over) == arrived + added
  {
    assert after + (lost + over) == (after + over) + lost;
    assert before + added + lost == (before + lost) + added;
  }

  /** For every run: what was submitted is what is delivered, buffered or overwritten. */
  lemma {:induction false} Conservation(limits: Limits, arrivals: seq<Arrival>)
    ensures Bag(Run(limits, arrivals)) + Lost(limits, arrivals) == Arrived(arrivals)
  {
    if arrivals != [] {
      var before, a := arrivals[..|arrivals| - 1], arrivals[|arrivals| - 1];
      Conservation(limits, before);
      var b := Run(limits, before);
      SubmitConserves(b, limits, a);
      BagAlgebra(Bag(Submit(b, limits, a)), Overwritten(b, a.seqNo), Bag(b), multiset{Stamped(a)},
                 Lost(limits, before), Arrived(before));
    }
  }

  lemma KeptOnlyIfArrived(limits: Limits, arrivals: seq<Arrival>, p: (nat, PacketInfo))
    requires p in Bag(Run(limits, arrivals))
    ensures exists i :: 0 <= i < |arrivals| && Stamped(arrivals[i]) == p
  {
    Conservation(limits, arrivals);
    ArrivedFrom(arrivals, p);
  }

  lemma PendingInBag(b: Buffer, k: nat)
    requires k in b.pending
    ensures (k, b.pending[k]) in Bag(b)
  {
    assert (k, b.pending[k]) in b.pending.Items;
  }

  lemma NotBuffered(limits: Limits, before: seq<Arrival>, a: Arrival)
    requires forall i :: 0 <= i < |before| ==> before[i].seqNo != a.seqNo
    ensures Overwritten(Run(limits, before), a.seqNo) == multiset{}
  {
    var b := Run(limits, before);
    if a.seqNo in b.pending {
      PendingInBag(b, a.seqNo);
      KeptOnlyIfArrived(limits, before, (a.seqNo, b.pending[a.seqNo]));
      assert false;
    }
  }

  lemma {:induction false} NothingLost(limits: Limits, arrivals: seq<Arrival>)
    requires Distinct(arrivals)
    ensures Lost(limits, arrivals) == multiset{}
  {
    if arrivals != [] {
      NothingLost(limits, arrivals[..|arrivals| - 1]);
      NotBuffered(limits, arrivals[..|arrivals| - 1], arrivals[|arrivals| - 1]);
    }
  }

  lemma {:induction false} ArrivedOnce(arrivals: seq<Arrival>, p: (nat, PacketInfo))
    requires Distinct(arrivals)
    ensures Arrived(arrivals)[p] <= 1
  {
    if arrivals != [] {
      var before, a := arrivals[..|arrivals| - 1], arrivals[|arrivals| - 1];
      ArrivedOnce(before, p);
      ArrivedFrom(before, p);
    }
  }

  lemma SplitCount<T>(s: seq<T>, i: nat, j: nat)
    requires i < j < |s| && s[i] == s[j]
    ensures multiset(s)[s[i]] >= 2
  {
    assert s == s[..j] + s[j..];
    assert s[i] in s[..j] && s[j] in s[j..];
    assert multiset(s) == multiset(s[..j]) + multiset(s[j..]);
  }

  /** With different numbers, skips and late packets included: every submitted packet is delivered
      or buffered and never both, unaltered, and none is delivered twice. */
  lemma DeliveredOnce(limits: Limits, arrivals: seq<Arrival>)
    requires Distinct(arrivals)
    ensures var b := Run(limits, arrivals);
            && Bag(b) == Arrived(arrivals)
            && (forall i, j :: 0 <= i < j < |b.log| ==> b.log[i].0 != b.log[j].0)
            && (forall i :: 0 <= i < |b.log| ==> b.log[i].0 !in b.pending)
  {
    var b := Run(limits, arrivals);
    Conservation(limits, arrivals);
    NothingLost(limits, arrivals);
    forall i, j | 0 <= i < j < |b.log| ensures b.log[i].0 != b.log[j].0 {
      NotTwice(limits, arrivals, i, j);
    }
    forall i | 0 <= i < |b.log| ensures b.log[i].0 !in b.pending {
      NotBoth(limits, arrivals, i);
    }
  }

  lemma NotTwice(limits: Limits, arrivals: seq<Arrival>, i: nat, j: nat)
    requires Distinct(arrivals) && i < j < |Run(limits, arrivals).log|
    requires Bag(Run(limits, arrivals)) == Arrived(arrivals)
    ensures Run(limits, arrivals).log[i].0 != Run(limits, arrivals).log[j].0
  {
    var b := Run(limits, arrivals);
    if b.log[i].0 == b.log[j].0 {
      SameNumberSamePacket(limits, arrivals, b.log[i], b.log[j]);
      SplitCount(b.log, i, j);
      ArrivedOnce(arrivals, b.log[i]);
    }
  }

  lemma NotBoth(limits: Limits, arrivals: seq<Arrival>, i: nat)
    requires Distinct(arrivals) && i < |Run(limits, arrivals).log|
    requires Bag(Run(limits, arrivals)) == Arrived(arrivals)
    ensures Run(limits, arrivals).log[i].0 !in Run(limits, arrivals).pending
  {
    var b := Run(limits, arrivals);
    var k := b.log[i].0;
    if k in b.pending {
      PendingInBag(b, k);
      SameNumberSamePacket(limits, arrivals, b.log[i], (k, b.pending[k]));
      assert b.log[i] in multiset(b.log) && b.log[i] in multiset(b.pending.Items);
      ArrivedOnce(arrivals, b.log[i]);
    }
  }

  lemma SameNumberSamePacket(limits: Limits, arrivals: seq<Arrival>, p: (nat, PacketInfo), q: (nat, PacketInfo))
    requires Distinct(arrivals)
    requires p in Bag(Run(limits, arrivals)) && q in Bag(Run(limits, arrivals)) && p.0 == q.0
    ensures p == q
  {
    KeptOnlyIfArrived(limits, arrivals, p);
    KeptOnlyIfArrived(limits, arrivals, q);
  }

  // ---------------------------------------------------------------- bound, and one skip per call

  lemma SubmitBound(b: Buffer, limits: Limits, a: Arrival)
    ensures var r := Submit(b, limits, a);
            |r.pending| <= limits.maxBufferSize && r.next !in r.pending
  {
    SettleFacts(Insert(b, a), limits, a.checkedAt);
  }

  /** The call skips a gap: its buffer, once drained, is out of time or over its size. */
  predicate Skips(b: Buffer, limits: Limits, a: Arrival) {
    var d := Drain(Insert(b, a));
    Expired(d, limits, a.checkedAt) || Overfull(d, limits)
  }

  /** A call on a buffer within its bound skips at most one gap: the overflow loop runs at most
      once, and not at all after a timeout. */
  lemma AtMostOneSkip(b: Buffer, limits: Limits, a: Arrival)
    requires |b.pending| <= limits.maxBufferSize
    ensures var d := Drain(Insert(b, a));
            Submit(b, limits, a) == if Skips(b, limits, a) then SkipToOldest(d) else d
  {
    var i := Insert(b, a);
    assert i.pending.Keys == b.pending.Keys + {a.seqNo};
    assert |i.pending| <= |b.pending| + 1;
    DrainFacts(i);
    var d := Drain(i);
    if Skips(b, limits, a) {
      SkipFacts(d);
      var s := SkipToOldest(d);
      assert !Overfull(s, limits);
      assert TrimOverflow(s, limits) == s;
      if !Expired(d, limits, a.checkedAt) {
        assert TrimOverflow(d, limits) == TrimOverflow(s, limits);
      }
    }
  }

  /** The same by clock and count. A gap is skipped exactly if the packet with the least number still buffered
      after the drain is older than the timeout, or more are buffered than may be; that packet is then the next to
      be delivered. Otherwise the drained buffer stays as it is. */
  lemma GapSkippedIff(b: Buffer, limits: Limits, a: Arrival, first: nat)
    requires |b.pending| <= limits.maxBufferSize
    requires var d := Drain(Insert(b, a));
             d.pending != map[] ==> first in d.pending && forall k :: k in d.pending ==> first <= k
    ensures var d, r := Drain(Insert(b, a)), Submit(b, limits, a);
            if d.pending != map[] && (a.checkedAt - d.pending[first].arrivalTime > limits.gapTimeout
                                      || |d.pending| > limits.maxBufferSize)
            then d.log + [(first, d.pending[first])] <= r.log && first !in r.pending
            else r == d
  {
    AtMostOneSkip(b, limits, a);
    var d := Drain(Insert(b, a));
    if d.pending != map[] {
      OldestIs(d.pending, first);
      if Skips(b, limits, a) {
        SkipTakes(d);
      }
    }
  }

  lemma OldestIs(m: map<nat, PacketInfo>, k: nat)
    requires k in m && forall j :: j in m ==> k <= j
    ensures m != map[] && Oldest(m) == k
  {
    assert k in m.Keys;
  }

  /** What a skip goes to is delivered next, and leaves the buffer. */
  lemma SkipTakes(d: Buffer)
    requires d.pending != map[]
    ensures var k, r := Oldest(d.pending), SkipToOldest(d);
            k !in r.pending && d.log + [(k, d.pending[k])] <= r.log
  {
    var s := d.(next := Oldest(d.pending));
    assert Drain(s) == Drain(DeliverNext(s));
    DrainFacts(DeliverNext(s));
  }

  // ---------------------------------------------------------------- order

  ghost predicate Increasing(log: seq<(nat, PacketInfo)>) {
    forall i, j :: 0 <= i < j < |log| ==> log[i].0 < log[j].0
  }

  /** No number in sight is the last 64-bit one, so nothing wraps. */
  ghost predicate Unwrapped(b: Buffer) {
    b.next < SEQ_LIMIT && forall k :: k in b.pending ==> k + 1 < SEQ_LIMIT
  }

  /** The number waited for follows the last one delivered. */
  ghost predicate Follows(b: Buffer) {
    b.next == if b.log == [] then 0 else b.log[|b.log| - 1].0 + 1
  }

  lemma {:induction false} DrainOrder(b: Buffer)
    requires Unwrapped(b)
    requires b.next in b.pending || Follows(b)
    ensures var r := Drain(b);
            && Unwrapped(r) && Follows(r)
            && b.next <= r.next
            && (forall k :: k in b.pending && k !in r.pending ==> b.next <= k < r.next)
            && (Increasing(b.log) && (b.log == [] || b.log[|b.log| - 1].0 < b.next) ==> Increasing(r.log))
    decreases |b.pending|
  {
    if b.next in b.pending {
      DrainOrder(DeliverNext(b));
    }
  }

  /** A call would go back: it skips to a buffered packet below the number waited for. */
  predicate Regresses(b: Buffer, limits: Limits, a: Arrival) {
    var d := Drain(Insert(b, a));
    Skips(b, limits, a) && d.pending != map[] && Oldest(d.pending) < d.next
  }

  /** A drain that starts at or below a missing number does not pass it. */
  lemma {:induction false} StopsAtGap(b: Buffer, gap: nat)
    requires Unwrapped(b) && b.next <= gap && gap !in b.pending
    ensures Drain(b).next <= gap
    decreases |b.pending|
  {
    if b.next in b.pending {
      StopsAtGap(DeliverNext(b), gap);
    }
  }

  /** A skip keeps the order exactly when it goes forward. */
  lemma SkipOrder(d: Buffer)
    requires Unwrapped(d) && Follows(d) && Increasing(d.log)
    requires d.next !in d.pending && d.pending != map[]
    ensures var r := SkipToOldest(d);
            && Unwrapped(r) && Follows(r)
            && (Increasing(r.log) <==> d.next <= Oldest(d.pending))
            && (if d.next <= Oldest(d.pending) then d.next <= r.next else r.next <= d.next)
  {
    var s := d.(next := Oldest(d.pending));
    SkipFacts(d);
    DrainOrder(s);
    if Oldest(d.pending) < d.next {
      var r := Drain(s);
      assert r.log[|d.log| - 1] == d.log[|d.log| - 1];
      assert r.log[|d.log|].0 <= r.log[|d.log| - 1].0;
      StopsAtGap(s, d.next);
    }
  }

  /** Exactly which calls break the delivery order. */
  lemma OrderKeptIff(b: Buffer, limits: Limits, a: Arrival)
    requires |b.pending| <= limits.maxBufferSize
    requires Unwrapped(b) && a.seqNo + 1 < SEQ_LIMIT && Follows(b) && Increasing(b.log)
    ensures Increasing(Submit(b, limits, a).log) <==> !Regresses(b, limits, a)
    ensures !Regresses(b, limits, a) ==> b.next <= Submit(b, limits, a).next
    ensures Regresses(b, limits, a) ==> Submit(b, limits, a).next <= Drain(Insert(b, a)).next
    ensures Unwrapped(Submit(b, limits, a)) && Follows(Submit(b, limits, a))
  {
    AtMostOneSkip(b, limits, a);
    DrainOrder(Insert(b, a));
    DrainFacts(Insert(b, a));
    if Skips(b, limits, a) {
      SkipOrder(Drain(Insert(b, a)));
    }
  }

  ghost predicate NoWrap(arrivals: seq<Arrival>) {
    forall i :: 0 <= i < |arrivals| ==> arrivals[i].seqNo + 1 < SEQ_LIMIT
  }

  /** No call of the run skips back. */
  ghost predicate NoRegress(limits: Limits, arrivals: seq<Arrival>) {
    arrivals == [] ||
    var before, a := arrivals[..|arrivals| - 1], arrivals[|arrivals| - 1];
    NoRegress(limits, before) && !Regresses(Run(limits, before), limits, a)
  }

  /** Every packet is submitted at or above the number waited for at that moment. */
  ghost predicate InTime(limits: Limits, arrivals: seq<Arrival>) {
    arrivals == [] ||
    var before, a := arrivals[..|arrivals| - 1], arrivals[|arrivals| - 1];
    InTime(limits, before) && Run(limits, before).next <= a.seqNo
  }

  /** No call of the run skips a gap. */
  ghost predicate NoSkips(limits: Limits, arrivals: seq<Arrival>) {
    arrivals == [] ||
    var before, a := arrivals[..|arrivals| - 1], arrivals[|arrivals| - 1];
    NoSkips(limits, before) && !Skips(Run(limits, before), limits, a)
  }

  /** Whole runs: the delivered numbers are strictly increasing if and only if no call skips back. */
  lemma {:induction false} RunOrderedIff(limits: Limits, arrivals: seq<Arrival>)
    requires NoWrap(arrivals)
    ensures Increasing(Run(limits, arrivals).log) <==> NoRegress(limits, arrivals)
    ensures var b := Run(limits, arrivals);
            Increasing(b.log) ==> Unwrapped(b) && Follows(b) && |b.pending| <= limits.maxBufferSize
  {
    if arrivals != [] {
      var before, a := arrivals[..|arrivals| - 1], arrivals[|arrivals| - 1];
      RunOrderedIff(limits, before);
      var b := Run(limits, before);
      SubmitConserves(b, limits, a);
      PrefixIncreasing(b.log, Submit(b, limits, a).log);
      if Increasing(b.log) {
        OrderKeptIff(b, limits, a);
        SubmitBound(b, limits, a);
      }
    }
  }

  lemma PrefixIncreasing(short: seq<(nat, PacketInfo)>, long: seq<(nat, PacketInfo)>)
    requires short <= long
    ensures Increasing(long) ==> Increasing(short)
  {
    if Increasing(long) {
      forall i, j | 0 <= i < j < |short| ensures short[i].0 < short[j].0 {
        assert short[i] == long[i] && short[j] == long[j];
      }
    }
  }

  ghost predicate AllAhead(b: Buffer) {
    forall k :: k in b.pending ==> b.next < k
  }

  /** Without late packets the delivered numbers increase, the number waited for never goes back,
      and nothing buffered lies below it. */
  lemma {:induction false} SkipsOnlyForward(limits: Limits, arrivals: seq<Arrival>)
    requires NoWrap(arrivals) && InTime(limits, arrivals)
    ensures var b := Run(limits, arrivals);
            && Increasing(b.log) && AllAhead(b)
            && (arrivals != [] ==> Run(limits, arrivals[..|arrivals| - 1]).next <= b.next)
  {
    if arrivals != [] {
      var before, a := arrivals[..|arrivals| - 1], arrivals[|arrivals| - 1];
      SkipsOnlyForward(limits, before);
      RunOrderedIff(limits, before);
      StepsForward(Run(limits, before), limits, a);
    }
  }

  lemma StepsForward(b: Buffer, limits: Limits, a: Arrival)
    requires |b.pending| <= limits.maxBufferSize
    requires Unwrapped(b) && a.seqNo + 1 < SEQ_LIMIT && Follows(b) && Increasing(b.log)
    requires AllAhead(b) && b.next <= a.seqNo
    ensures var r := Submit(b, limits, a);
            AllAhead(r) && Increasing(r.log) && b.next <= r.next
  {
    StaysAhead(b, limits, a);
    OrderKeptIff(b, limits, a);
  }

  lemma StaysAhead(b: Buffer, limits: Limits, a: Arrival)
    requires |b.pending| <= limits.maxBufferSize
    requires Unwrapped(b) && a.seqNo + 1 < SEQ_LIMIT && AllAhead(b) && b.next <= a.seqNo
    ensures AllAhead(Submit(b, limits, a)) && !Regresses(b, limits, a)
  {
    AtMostOneSkip(b, limits, a);
    var i := Insert(b, a);
    DrainAhead(i);
    DrainUnwrapped(i);
    if Skips(b, limits, a) && Drain(i).pending != map[] {
      SkipAhead(Drain(i));
    }
  }

  lemma SkipAhead(d: Buffer)
    requires Unwrapped(d) && d.pending != map[]
    ensures AllAhead(SkipToOldest(d))
  {
    DrainAhead(d.(next := Oldest(d.pending)));
  }

  lemma {:induction false} DrainAhead(b: Buffer)
    requires Unwrapped(b) && forall k :: k in b.pending ==> b.next <= k
    ensures AllAhead(Drain(b))
    decreases |b.pending|
  {
    if b.next in b.pending {
      DrainAhead(DeliverNext(b));
    }
  }

  lemma KeptWhere(b: Buffer, p: (nat, PacketInfo))
    requires p in Bag(b) && Increasing(b.log) && Follows(b)
    ensures p.0 < b.next || p.0 in b.pending
  {
    if p in multiset(b.log) {
      var l :| 0 <= l < |b.log| && b.log[l] == p;
      assert b.log[l].0 <= b.log[|b.log| - 1].0;
    } else {
      assert p in b.pending.Items;
    }
  }

  /** The numbers a forward skip passes over belong to no packet submitted so far. */
  lemma SkippedNeverArrived(limits: Limits, before: seq<Arrival>, a: Arrival, n: nat)
    requires NoWrap(before + [a]) && InTime(limits, before + [a]) && Distinct(before + [a])
    requires var d := Drain(Insert(Run(limits, before), a));
             d.pending != map[] && d.next <= n < Oldest(d.pending)
    ensures a.seqNo != n && forall i :: 0 <= i < |before| ==> before[i].seqNo != n
  {
    var arrivals := before + [a];
    assert arrivals[..|arrivals| - 1] == before;
    RestOfRun(before, a);
    SkipsOnlyForward(limits, before);
    RunOrderedIff(limits, before);
    DeliveredOnce(limits, before);
    var b := Run(limits, before);
    var i := Insert(b, a);
    DrainOrder(i);
    assert n !in i.pending;
    forall j | 0 <= j < |before| ensures before[j].seqNo != n {
      ArrivedFrom(before, Stamped(before[j]));
      KeptWhere(b, Stamped(before[j]));
    }
  }

  lemma RestOfRun(before: seq<Arrival>, a: Arrival)
    ensures NoWrap(before + [a]) ==> NoWrap(before) && a.seqNo + 1 < SEQ_LIMIT
    ensures Distinct(before + [a]) ==> Distinct(before)
  {
    var all := before + [a];
    assert all[|before|] == a;
    forall i | 0 <= i < |before| ensures all[i] == before[i] {}
    if NoWrap(all) {
      forall i | 0 <= i < |before| ensures before[i].seqNo + 1 < SEQ_LIMIT {
        assert all[i].seqNo + 1 < SEQ_LIMIT;
      }
    }
    if Distinct(all) {
      forall i, j | 0 <= i < j < |before| ensures before[i].seqNo != before[j].seqNo {
        assert all[i].seqNo != all[j].seqNo;
      }
    }
  }

  // ---------------------------------------------------------------- reordering is a sort

  /** The log is exactly 0, 1, ..., next-1 and everything buffered lies above. */
  ghost predicate Contiguous(b: Buffer) {
    && |b.log| == b.next
    && (forall i :: 0 <= i < |b.log| ==> b.log[i].0 == i)
    && AllAhead(b)
  }

  lemma {:induction false} DrainContiguous(b: Buffer)
    requires Unwrapped(b)
    requires |b.log| == b.next && forall i :: 0 <= i < |b.log| ==> b.log[i].0 == i
    requires forall k :: k in b.pending ==> b.next <= k
    ensures Contiguous(Drain(b))
    decreases |b.pending|
  {
    if b.next in b.pending {
      DrainContiguous(DeliverNext(b));
    }
  }

  /** While no gap is skipped, deliveries are always exactly the prefix 0..next-1, in order. */
  lemma {:induction false} SortedPrefix(limits: Limits, arrivals: seq<Arrival>)
    requires NoWrap(arrivals) && Distinct(arrivals) && NoSkips(limits, arrivals)
    ensures Contiguous(Run(limits, arrivals)) && Unwrapped(Run(limits, arrivals))
  {
    if arrivals != [] {
      var before, a := arrivals[..|arrivals| - 1], arrivals[|arrivals| - 1];
      SortedPrefix(limits, before);
      NotDelivered(limits, before, a);
      DrainContiguous(Insert(Run(limits, before), a));
      DrainUnwrapped(Insert(Run(limits, before), a));
    }
  }

  /** A new number is not below the one waited for. */
  lemma NotDelivered(limits: Limits, before: seq<Arrival>, a: Arrival)
    requires Contiguous(Run(limits, before)) && forall i :: 0 <= i < |before| ==> before[i].seqNo != a.seqNo
    ensures Run(limits, before).next <= a.seqNo
  {
    var b := Run(limits, before);
    if a.seqNo < b.next {
      assert b.log[a.seqNo] in multiset(b.log);
      KeptOnlyIfArrived(limits, before, b.log[a.seqNo]);
      assert false;
    }
  }

  /** The buffer of such a run after its next packet and drain, before any skip. */
  lemma DrainedContiguous(limits: Limits, before: seq<Arrival>, a: Arrival)
    requires NoWrap(before + [a]) && Distinct(before + [a]) && NoSkips(limits, before)
    ensures var d := Drain(Insert(Run(limits, before), a));
            Contiguous(d) && Bag(d) == Arrived(before + [a])
  {
    RestOfRun(before, a);
    SortedPrefix(limits, before);
    forall i | 0 <= i < |before| ensures before[i].seqNo != a.seqNo {
      assert (before + [a])[i] == before[i] && (before + [a])[|before|] == a;
    }
    NotDelivered(limits, before, a);
    var i := Insert(Run(limits, before), a);
    DrainContiguous(i);
    DrainFacts(i);
    DrainedBag(limits, before, a);
  }

  lemma ArrivedNext(before: seq<Arrival>, a: Arrival)
    ensures Arrived(before + [a]) == Arrived(before) + multiset{Stamped(a)}
  {
    assert (before + [a])[..|before|] == before && (before + [a])[|before|] == a;
  }

  lemma DrainedBag(limits: Limits, before: seq<Arrival>, a: Arrival)
    requires Distinct(before) && forall i :: 0 <= i < |before| ==> before[i].seqNo != a.seqNo
    ensures Bag(Insert(Run(limits, before), a)) == Arrived(before + [a])
  {
    NotBuffered(limits, before, a);
    Conservation(limits, before);
    NothingLost(limits, before);
    InsertBag(Run(limits, before), a);
    ArrivedNext(before, a);
    AddedToAll(Bag(Insert(Run(limits, before), a)), Bag(Run(limits, before)), Arrived(before), multiset{Stamped(a)});
  }

  lemma AddedToAll<T>(after: multiset<T>, before: multiset<T>, arrived: multiset<T>, added: multiset<T>)
    requires after + multiset{} == before + added && before + multiset{} == arrived
    ensures after == arrived + added
  {
    assert after == after + multiset{} && before == before + multiset{};
  }

  lemma {:induction false} DrainUnwrapped(b: Buffer)
    requires Unwrapped(b)
    ensures Unwrapped(Drain(b))
    decreases |b.pending|
  {
    if b.next in b.pending {
      DrainUnwrapped(DeliverNext(b));
    }
  }

  ghost function SeqNos(arrivals: seq<Arrival>): seq<nat> {
    seq(|arrivals|, i requires 0 <= i < |arrivals| => arrivals[i].seqNo)
  }

  lemma ContiguousWhere(b: Buffer, p: (nat, PacketInfo))
    requires p in Bag(b) && Contiguous(b)
    ensures if p.0 < b.next then b.log[p.0] == p else p.0 in b.pending && p.0 != b.next
  {
    if p in multiset(b.log) {
      var l :| 0 <= l < |b.log| && b.log[l] == p;
    } else {
      assert p in b.pending.Items;
    }
  }

  /** Packet i of the run is in its own place in the log, or still buffered. */
  ghost predicate InPlace(b: Buffer, a: Arrival) {
    var k := a.seqNo;
    if k < b.next then k < |b.log| && b.log[k] == Stamped(a) else k in b.pending && k != b.next
  }

  lemma SortedWhere(limits: Limits, arrivals: seq<Arrival>, i: nat)
    requires NoWrap(arrivals) && Distinct(arrivals) && NoSkips(limits, arrivals) && i < |arrivals|
    ensures InPlace(Run(limits, arrivals), arrivals[i])
  {
    SortedPrefix(limits, arrivals);
    DeliveredOnce(limits, arrivals);
    ArrivedFrom(arrivals, Stamped(arrivals[i]));
    ContiguousWhere(Run(limits, arrivals), Stamped(arrivals[i]));
  }

  lemma NoneMissing(b: Buffer, arrivals: seq<Arrival>)
    requires Distinct(arrivals)
    requires forall i :: 0 <= i < |arrivals| ==> arrivals[i].seqNo < |arrivals| && InPlace(b, arrivals[i])
    ensures b.next >= |arrivals|
  {
    var n := |arrivals|;
    assert b.next !in SeqNos(arrivals);
    if b.next < n {
      Pigeonhole(SeqNos(arrivals), n);
    }
  }

  lemma KeptBelow(limits: Limits, arrivals: seq<Arrival>, n: nat, p: (nat, PacketInfo))
    requires forall i :: 0 <= i < |arrivals| ==> arrivals[i].seqNo < n
    requires p in Bag(Run(limits, arrivals))
    ensures p.0 < n
  {
    KeptOnlyIfArrived(limits, arrivals, p);
  }

  /** Any order of arrival of the numbers 0..n-1 is delivered as 0..n-1, each with its own packet. */
  lemma ReorderingSorts(limits: Limits, arrivals: seq<Arrival>)
    requires NoWrap(arrivals) && Distinct(arrivals) && NoSkips(limits, arrivals)
    requires forall i :: 0 <= i < |arrivals| ==> arrivals[i].seqNo < |arrivals|
    ensures var b := Run(limits, arrivals);
            && b.pending == map[] && |b.log| == |arrivals|
            && forall i :: 0 <= i < |arrivals| ==> b.log[arrivals[i].seqNo] == Stamped(arrivals[i])
  {
    var b := Run(limits, arrivals);
    var n := |arrivals|;
    SortedPrefix(limits, arrivals);
    forall i | 0 <= i < n ensures InPlace(b, arrivals[i]) {
      SortedWhere(limits, arrivals, i);
    }
    NoneMissing(b, arrivals);
    if b.next > n {
      assert b.log[n] in multiset(b.log);
      KeptBelow(limits, arrivals, n, b.log[n]);
      assert false;
    }
    if b.pending != map[] {
      var k := Oldest(b.pending);
      PendingInBag(b, k);
      KeptBelow(limits, arrivals, n, (k, b.pending[k]));
      assert false;
    }
    forall i | 0 <= i < n ensures b.log[arrivals[i].seqNo] == Stamped(arrivals[i]) {
      assert InPlace(b, arrivals[i]);
    }
  }

  // When nothing is skipped, by positions and clocks.

  /** No packet is overtaken by more others than may be buffered. */
  ghost predicate NearlyInOrder(limits: Limits, arrivals: seq<Arrival>) {
    forall i :: 0 <= i < |arrivals| ==> i <= arrivals[i].seqNo + limits.maxBufferSize
  }

  /** While a number below that of packet j has not arrived, j is not found too old. */
  ghost predicate NoLongWait(limits: Limits, arrivals: seq<Arrival>) {
    forall i: nat, j: nat, n: nat :: j <= i < |arrivals| && n < arrivals[j].seqNo && Absent(arrivals, i, n) ==>
      arrivals[i].checkedAt - arrivals[j].arrivedAt <= limits.gapTimeout
  }

  /** Number n is not among the packets up to i. */
  ghost predicate Absent(arrivals: seq<Arrival>, i: nat, n: nat)
    requires i < |arrivals|
  {
    forall k :: 0 <= k <= i ==> arrivals[k].seqNo != n
  }

  ghost predicate Permutes(arrivals: seq<Arrival>) {
    Distinct(arrivals) && forall i :: 0 <= i < |arrivals| ==> arrivals[i].seqNo < |arrivals|
  }

  lemma {:induction false} ArrivedSize(arrivals: seq<Arrival>)
    ensures |Arrived(arrivals)| == |arrivals|
  {
    if arrivals != [] {
      ArrivedSize(arrivals[..|arrivals| - 1]);
    }
  }

  /** The numbers up to i that are not in the log are buffered, and the one waited for is not among them. */
  lemma NextAbsent(arrivals: seq<Arrival>, i: nat, d: Buffer)
    requires i < |arrivals| && Contiguous(d) && Bag(d) == Arrived(arrivals[..i + 1])
    ensures Absent(arrivals, i, d.next)
  {
    forall k | 0 <= k <= i ensures arrivals[k].seqNo != d.next {
      assert arrivals[..i + 1][k] == arrivals[k];
      ArrivedFrom(arrivals[..i + 1], Stamped(arrivals[k]));
      ContiguousWhere(d, Stamped(arrivals[k]));
    }
  }

  lemma NotTooOld(limits: Limits, arrivals: seq<Arrival>, i: nat, d: Buffer)
    requires i < |arrivals| && NoLongWait(limits, arrivals)
    requires Contiguous(d) && Bag(d) == Arrived(arrivals[..i + 1])
    ensures !Expired(d, limits, arrivals[i].checkedAt)
  {
    if d.pending != map[] {
      var k := Oldest(d.pending);
      PendingInBag(d, k);
      ArrivedFrom(arrivals[..i + 1], (k, d.pending[k]));
      var j :| 0 <= j < i + 1 && Stamped(arrivals[..i + 1][j]) == (k, d.pending[k]);
      NextAbsent(arrivals, i, d);
      assert arrivals[j].seqNo == k && d.next < k;
    }
  }

  lemma NotTooMany(limits: Limits, arrivals: seq<Arrival>, i: nat, d: Buffer)
    requires i < |arrivals| && NearlyInOrder(limits, arrivals) && Permutes(arrivals)
    requires Contiguous(d) && Bag(d) == Arrived(arrivals[..i + 1])
    ensures !Overfull(d, limits)
  {
    ArrivedSize(arrivals[..i + 1]);
    assert |d.log| + |d.pending.Items| == i + 1;
    if d.pending != map[] {
      NextAbsent(arrivals, i, d);
      BufferedBelow(arrivals, i, d);
      Pigeonhole(SeqNos(arrivals), |arrivals|);
      assert d.next in SeqNos(arrivals);
      var p :| 0 <= p < |arrivals| && SeqNos(arrivals)[p] == d.next;
      assert p > i;
    }
  }

  lemma BufferedBelow(arrivals: seq<Arrival>, i: nat, d: Buffer)
    requires i < |arrivals| && Permutes(arrivals) && d.pending != map[]
    requires Contiguous(d) && Bag(d) == Arrived(arrivals[..i + 1])
    ensures d.next < |arrivals|
  {
    var k := Oldest(d.pending);
    PendingInBag(d, k);
    ArrivedFrom(arrivals[..i + 1], (k, d.pending[k]));
    var j :| 0 <= j < i + 1 && Stamped(arrivals[..i + 1][j]) == (k, d.pending[k]);
    assert arrivals[j].seqNo == k;
  }

  lemma {:induction false} NothingSkipped(limits: Limits, arrivals: seq<Arrival>, m: nat)
    requires m <= |arrivals| && NoWrap(arrivals) && Permutes(arrivals)
    requires NearlyInOrder(limits, arrivals) && NoLongWait(limits, arrivals)
    ensures NoSkips(limits, arrivals[..m])
    decreases m
  {
    if m > 0 {
      NothingSkipped(limits, arrivals, m - 1);
      assert arrivals[..m][..m - 1] == arrivals[..m - 1];
      NotSkipped(limits, arrivals, m - 1);
    }
  }

  lemma FirstPackets(arrivals: seq<Arrival>, i: nat)
    requires i < |arrivals| && NoWrap(arrivals) && Distinct(arrivals)
    ensures var first := arrivals[..i + 1];
            NoWrap(first) && Distinct(first) && first == arrivals[..i] + [arrivals[i]]
  {
    var first := arrivals[..i + 1];
    forall k | 0 <= k < |first| ensures first[k].seqNo + 1 < SEQ_LIMIT {
      assert first[k] == arrivals[k];
    }
    forall k, l | 0 <= k < l < |first| ensures first[k].seqNo != first[l].seqNo {
      assert first[k] == arrivals[k] && first[l] == arrivals[l];
    }
  }

  lemma DrainedAt(limits: Limits, arrivals: seq<Arrival>, i: nat)
    requires i < |arrivals| && NoWrap(arrivals) && Distinct(arrivals) && NoSkips(limits, arrivals[..i])
    ensures var d := Drain(Insert(Run(limits, arrivals[..i]), arrivals[i]));
            Contiguous(d) && Bag(d) == Arrived(arrivals[..i + 1])
  {
    FirstPackets(arrivals, i);
    DrainedContiguous(limits, arrivals[..i], arrivals[i]);
  }

  lemma NotSkipped(limits: Limits, arrivals: seq<Arrival>, i: nat)
    requires i < |arrivals| && NoWrap(arrivals) && Permutes(arrivals) && NoSkips(limits, arrivals[..i])
    requires NearlyInOrder(limits, arrivals) && NoLongWait(limits, arrivals)
    ensures !Skips(Run(limits, arrivals[..i]), limits, arrivals[i])
  {
    var d := Drain(Insert(Run(limits, arrivals[..i]), arrivals[i]));
    DrainedAt(limits, arrivals, i);
    NotTooOld(limits, arrivals, i, d);
    NotTooMany(limits, arrivals, i, d);
  }

  /** The order of arrival does not matter to the listener: if no packet is overtaken by more others than may be
      buffered, and none is found older than the timeout while a number below it is missing, then 0..n-1 are
      delivered as 0..n-1, each with its own packet. */
  lemma ReorderedInTime(limits: Limits, arrivals: seq<Arrival>)
    requires NoWrap(arrivals) && Permutes(arrivals)
    requires NearlyInOrder(limits, arrivals) && NoLongWait(limits, arrivals)
    ensures var b := Run(limits, arrivals);
            && b.pending == map[] && |b.log| == |arrivals|
            && forall i :: 0 <= i < |arrivals| ==> b.log[arrivals[i].seqNo] == Stamped(arrivals[i])
  {
    NothingSkipped(limits, arrivals, |arrivals|);
    assert arrivals[..|arrivals|] == arrivals;
    ReorderingSorts(limits, arrivals);
  }

  // ---------------------------------------------------------------- going back, by example

  lemma QuietCall(b: Buffer, limits: Limits, a: Arrival)
    requires var i := Insert(b, a);
             b.next !in i.pending && !Expired(i, limits, a.checkedAt) && !Overfull(i, limits)
    ensures Submit(b, limits, a) == Insert(b, a)
  {}

  lemma SkippingCall(b: Buffer, limits: Limits, a: Arrival)
    requires var i := Insert(b, a);
             b.next !in i.pending && Expired(i, limits, a.checkedAt)
    requires |b.pending| <= limits.maxBufferSize
    ensures Submit(b, limits, a) == SkipToOldest(Insert(b, a))
  {
    AtMostOneSkip(b, limits, a);
  }

  lemma DrainOne(b: Buffer)
    requires b.next in b.pending && Succ(b.next) !in b.pending
    ensures Drain(b) == DeliverNext(b)
  {}

  const LIMITS := Limits(64, 100)

  lemma SkipsBothAges(p: Packet)
    ensures var b1 := Buffer(map[1 := PacketInfo(p, 0)], 0, []);
            Submit(b1, LIMITS, Arrival(2, p, 200, 200))
            == Buffer(map[], 3, [(1, PacketInfo(p, 0)), (2, PacketInfo(p, 200))])
  {
    var b1 := Buffer(map[1 := PacketInfo(p, 0)], 0, []);
    var a := Arrival(2, p, 200, 200);
    OldestIs(Insert(b1, a).pending, 1);
    SkippingCall(b1, LIMITS, a);
    var s := Buffer(map[1 := PacketInfo(p, 0), 2 := PacketInfo(p, 200)], 1, []);
    assert DeliverNext(s) == Buffer(map[2 := PacketInfo(p, 200)], 2, [(1, PacketInfo(p, 0))]);
    DrainOne(DeliverNext(s));
  }

  lemma SkipsBackToZero(p: Packet, log: seq<(nat, PacketInfo)>)
    ensures var b3 := Buffer(map[0 := PacketInfo(p, 201)], 3, log);
            Submit(b3, LIMITS, Arrival(4, p, 400, 400))
            == Buffer(map[4 := PacketInfo(p, 400)], 1, log + [(0, PacketInfo(p, 201))])
  {
    var b3 := Buffer(map[0 := PacketInfo(p, 201)], 3, log);
    var a := Arrival(4, p, 400, 400);
    OldestIs(Insert(b3, a).pending, 0);
    SkippingCall(b3, LIMITS, a);
    var s := Buffer(map[0 := PacketInfo(p, 201), 4 := PacketInfo(p, 400)], 0, log);
    DrainOne(s);
    assert DeliverNext(s) == Buffer(map[4 := PacketInfo(p, 400)], 1, log + [(0, PacketInfo(p, 201))]);
  }

  lemma GoesBackStart(p: Packet)
    ensures Run(LIMITS, [Arrival(1, p, 0, 0)]) == Buffer(map[1 := PacketInfo(p, 0)], 0, [])
  {
    var a := Arrival(1, p, 0, 0);
    RunOne(LIMITS, [], a);
    assert [] + [a] == [a];
    OldestIs(Insert(EMPTY, a).pending, 1);
    QuietCall(EMPTY, LIMITS, a);
  }

  lemma GoesBackLate(p: Packet, log: seq<(nat, PacketInfo)>)
    ensures Submit(Buffer(map[], 3, log), LIMITS, Arrival(0, p, 201, 201))
            == Buffer(map[0 := PacketInfo(p, 201)], 3, log)
  {
    var b, a := Buffer(map[], 3, log), Arrival(0, p, 201, 201);
    OldestIs(Insert(b, a).pending, 0);
    QuietCall(b, LIMITS, a);
  }

  /** Packet 0 is late: its gap times out, and once it is itself too old the orderer goes back
      from 3 to 1 and delivers 0 after 1 and 2. */
  lemma GoesBack(p: Packet)
    ensures var early := [Arrival(1, p, 0, 0)] + [Arrival(2, p, 200, 200)];
            var late := early + [Arrival(0, p, 201, 201)] + [Arrival(4, p, 400, 400)];
            && Distinct(late) && NoWrap(late)
            && Run(LIMITS, early).next == 3
            && Run(LIMITS, late).next == 1
            && !Increasing(Run(LIMITS, late).log)
  {
    var a2, a3, a4 := Arrival(2, p, 200, 200), Arrival(0, p, 201, 201), Arrival(4, p, 400, 400);
    var run1 := [Arrival(1, p, 0, 0)];
    var log := [(1, PacketInfo(p, 0)), (2, PacketInfo(p, 200))];
    GoesBackStart(p);
    RunOne(LIMITS, run1, a2);
    SkipsBothAges(p);
    RunOne(LIMITS, run1 + [a2], a3);
    GoesBackLate(p, log);
    RunOne(LIMITS, run1 + [a2] + [a3], a4);
    SkipsBackToZero(p, log);
    var end := Run(LIMITS, run1 + [a2] + [a3] + [a4]);
    assert end.log[1].0 == 2 && end.log[2].0 == 0;
  }

  lemma RunOne(limits: Limits, before: seq<Arrival>, a: Arrival)
    ensures Run(limits, before + [a]) == Submit(Run(limits, before), limits, a)
  {
    assert (before + [a])[..|before|] == before;
  }

  // ---------------------------------------------------------------- the object

  /** The orderer itself. `delivered` is what its callback has been given. */
  class PacketOrderer {
    const limits: Limits
    var pendingPackets: map<nat, PacketInfo>
    var nextExpectedSeq: nat
    var delivered: seq<(nat, PacketInfo)>

    ghost function State(): Buffer
      reads this
    {
      Buffer(pendingPackets, nextExpectedSeq, delivered)
    }

    constructor (maxBufferSize: nat, gapTimeout: nat)
      ensures State() == EMPTY && limits == Limits(maxBufferSize, gapTimeout)
    {
      limits := Limits(maxBufferSize, gapTimeout);
      pendingPackets, nextExpectedSeq, delivered := map[], 0, [];
    }

    method SubmitPacket(seqNo: nat, packet: Packet, arrivedAt: nat, checkedAt: nat)
      modifies this
      ensures State() == Submit(old(State()), limits, Arrival(seqNo, packet, arrivedAt, checkedAt))
      ensures |pendingPackets| <= limits.maxBufferSize && nextExpectedSeq !in pendingPackets
      ensures old(delivered) <= delivered
    {
      ghost var a := Arrival(seqNo, packet, arrivedAt, checkedAt);
      SubmitBound(State(), limits, a);
      SubmitConserves(State(), limits, a);
      pendingPackets := pendingPackets[seqNo := PacketInfo(packet, arrivedAt)];
      DeliverConsecutivePackets();
      EnforceConstraints(checkedAt);
    }

    method DeliverConsecutivePackets()
      modifies this
      ensures State() == Drain(old(State()))
    {
      while pendingPackets != map[]
        invariant Drain(State()) == Drain(old(State()))
        decreases |pendingPackets|
      {
        if nextExpectedSeq !in pendingPackets {
          break;
        }
        ghost var before := State();
        delivered := delivered + [(nextExpectedSeq, pendingPackets[nextExpectedSeq])];
        pendingPackets := pendingPackets - {nextExpectedSeq};
        nextExpectedSeq := Succ(nextExpectedSeq);
        assert State() == DeliverNext(before);
      }
    }

    method EnforceConstraints(now: nat)
      modifies this
      ensures State() == TrimOverflow(ExpireGap(old(State()), limits, now), limits)
    {
      if pendingPackets != map[] {
        var oldest := Oldest(pendingPackets);
        var age := now - pendingPackets[oldest].arrivalTime;
        if age > limits.gapTimeout {
          nextExpectedSeq := oldest;
          DeliverConsecutivePackets();
        }
      }
      while |pendingPackets| > limits.maxBufferSize
        invariant TrimOverflow(State(), limits) == TrimOverflow(ExpireGap(old(State()), limits, now), limits)
        decreases |pendingPackets|
      {
        SkipFacts(State());
        nextExpectedSeq := Oldest(pendingPackets);
        DeliverConsecutivePackets();
      }
    }
  }
}
