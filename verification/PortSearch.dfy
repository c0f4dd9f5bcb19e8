/** The search for idle UDP ports, with its 16-bit counters. */
module PortSearch {

  const PORTS := 0x1_0000
  const WINDOW := 100
  const UDP_PORT_START: Port := 10000

  type Port = p: int | 0 <= p < 0x1_0000

  /** What probing a port meets. */
  datatype Answer = NoSocket | Taken | Free

  /** The ports do not change during a search. */
  type World = Port -> Answer

  /** Binding port 0 asks the kernel for any port, and as a rule is not refused. */
  predicate AnyPort(w: World) {
    !w(0).Taken?
  }

  function Inc(p: Port): Port {
    if p == PORTS - 1 then 0 else p + 1
  }

  /** The value of the 16-bit counter after j - start steps from start. */
  function At(j: int): Port
    requires 0 <= j < 2 * PORTS
  {
    if j < PORTS then j else j - PORTS
  }

  /** The search as it continues at j. Close to the end of the range the counter wraps before it can
      reach the limit, and there is no giving up; the last case is for a world with no port left. */
  function Scan(w: World, start: Port, j: int): (r: (Port, Port))
    requires start <= j <= start + PORTS
    ensures r.0 != 0 ==> w(r.0).Free? && r.1 == Inc(r.0)
    ensures r.0 == 0 ==> r.1 == start || r.1 == 1
    decreases start + PORTS - j
  {
    if start + WINDOW < PORTS && j == start + WINDOW then (0, start)
    else if j == start + PORTS then (0, start)
    else
      match w(At(j))
      case NoSocket => (0, start)
      case Free => (At(j), Inc(At(j)))
      case Taken => Scan(w, start, j + 1)
  }

  /** GetIdleUdpPortUnlocked: the port found or 0, and the new nextPort. */
  function Search(w: World, start: Port): (r: (Port, Port))
    ensures r.0 != 0 ==> w(r.0).Free? && r.1 == Inc(r.0)
    ensures r.0 == 0 ==> r.1 == start || r.1 == 1
  {
    Scan(w, start, start)
  }

  /** The probe loop ends. */
  ghost predicate Ends(w: World, start: Port) {
    start + WINDOW < PORTS || exists p: Port :: !w(p).Taken?
  }

  /** Exactly so: otherwise the loop goes on whatever value its counter has. */
  lemma EndsIff(w: World, start: Port)
    ensures Ends(w, start) <==> exists i: Port :: CanLeave(w, start, i)
  {
    if start + WINDOW < PORTS {
      assert CanLeave(w, start, start + WINDOW);
    } else if p: Port :| !w(p).Taken? {
      assert CanLeave(w, start, p);
    }
  }

  /** With its counter at i the loop is left, or has found a port or a failing socket. */
  predicate CanLeave(w: World, start: Port, i: Port) {
    i >= start + WINDOW || !w(i).Taken?
  }

  /** How far the counter has to go from one port to another. */
  function Dist(p: Port, q: Port): nat {
    if p <= q then q - p else q + PORTS - p
  }

  /** In any world, the port a search finds is the nearest one not taken, going up and around. */
  lemma {:induction false} ScanNearest(w: World, start: Port, j: int)
    requires start <= j <= start + PORTS
    requires forall q: Port :: !w(q).Taken? ==> Dist(start, q) >= j - start
    ensures Scan(w, start, j).0 != 0 ==>
              forall q: Port :: !w(q).Taken? ==> Dist(start, Scan(w, start, j).0) <= Dist(start, q)
    decreases start + PORTS - j
  {
    if j < start + PORTS && !(start + WINDOW < PORTS && j == start + WINDOW) && w(At(j)).Taken? {
      forall q: Port | !w(q).Taken? ensures Dist(start, q) >= j + 1 - start {
        assert q != At(j);
      }
      ScanNearest(w, start, j + 1);
    }
  }

  lemma SearchNearest(w: World, start: Port)
    ensures Search(w, start).0 != 0 ==>
              forall q: Port :: !w(q).Taken? ==> Dist(start, Search(w, start).0) <= Dist(start, q)
  {
    ScanNearest(w, start, start);
  }

  ghost predicate AllTaken(w: World, lo: int, hi: int) {
    forall p: Port :: lo <= p < hi ==> w(p).Taken?
  }

  /** Why a search gives 0, and where it leaves nextPort. */
  ghost predicate GaveUp(w: World, start: Port, next: Port) {
    || (start + WINDOW < PORTS && AllTaken(w, start, start + WINDOW) && next == start)
    || (exists p: Port :: start <= p < start + WINDOW && AllTaken(w, start, p) && w(p).NoSocket? && next == start)
    || (PORTS <= start + WINDOW && AllTaken(w, start, PORTS) && next == if w(0).Free? then 1 else start)
    || (start == 0 && w(0).Free? && next == 1)
  }

  lemma {:induction false} ScanMeans(w: World, start: Port, j: int)
    requires AnyPort(w) && start <= j <= PORTS && j <= start + WINDOW && AllTaken(w, start, j)
    ensures var (p, next) := Scan(w, start, j);
            && (p != 0 ==> j <= p < start + WINDOW && AllTaken(w, start, p))
            && (p == 0 ==> GaveUp(w, start, next))
    decreases PORTS - j
  {
    if j < PORTS && j < start + WINDOW && w(j).Taken? {
      ScanMeans(w, start, j + 1);
    }
  }

  /** A search finds the first port that is not taken, within its window; it gives up for one of four
      reasons. */
  lemma SearchMeans(w: World, start: Port)
    requires AnyPort(w)
    ensures var (p, next) := Search(w, start);
            && (p != 0 ==> start <= p < start + WINDOW && AllTaken(w, start, p))
            && (p == 0 ==> GaveUp(w, start, next))
  {
    ScanMeans(w, start, start);
  }

  // ---------------------------------------------------------------- pairs

  /** The loop of GetIdleUdpPortPair, holding `first`, for at most `rounds` searches. */
  function PairFrom(w: World, first: Port, rounds: nat): (r: (Port, Port))
    decreases rounds
  {
    if rounds == 0 then (0, Inc(first))
    else
      var (second, next) := Search(w, Inc(first));
      if second == 0 then (0, next)
      else if first as int + 1 == second as int then (first, next)
      else PairFrom(w, second, rounds - 1)
  }

  /** Once around the ports is enough. */
  function SearchPair(w: World, start: Port): (r: (Port, Port)) {
    var (first, next) := Search(w, start);
    if first == 0 then (0, next) else PairFrom(w, first, PORTS + first)
  }

  /** The pair search ends at port t. */
  predicate StopsAt(w: World, t: Port) {
    (t == 0 && AnyPort(w)) || w(t).NoSocket? || IsPair(w, t)
  }

  /** A search from a free port gets nearer to any port where the pair search ends. */
  lemma GetsNearer(w: World, first: Port, t: Port)
    requires StopsAt(w, t) && first != 0 && w(first).Free?
    ensures var (second, next) := Search(w, Inc(first));
            second != 0 ==> first as int + 1 == second as int || Dist(second, t) < Dist(first, t)
  {
    SearchNearest(w, Inc(first));
    if first == t {
      assert w(first + 1).Free?;
    } else {
      assert Dist(first, t) == Dist(Inc(first), t) + 1;
    }
  }

  predicate IsPair(w: World, p: int) {
    0 < p && p + 1 < PORTS && w(p).Free? && w(p + 1).Free?
  }

  ghost predicate NoPair(w: World, lo: int, hi: int) {
    forall p :: lo <= p < hi ==> !IsPair(w, p)
  }

  ghost predicate GapAt(w: World, g: int) {
    0 <= g && g + WINDOW <= PORTS && AllTaken(w, g, g + WINDOW)
  }

  /** From `lo` to `hi` sockets can be had, and no hundred ports in a row are taken. */
  ghost predicate ClearTo(w: World, lo: int, hi: int) {
    && (forall p: Port :: lo <= p <= hi ==> !w(p).NoSocket?)
    && (forall g :: lo <= g && g + WINDOW <= hi ==> !GapAt(w, g))
  }

  /** The clear stretch and the absence of pairs extend from one free port to the next. */
  lemma Extends(w: World, start: Port, first: Port, second: Port)
    requires ClearTo(w, start, first) && NoPair(w, start, first)
    requires start <= first < second <= first + WINDOW && w(first).Free? && w(second).Free?
    requires AllTaken(w, first + 1, second)
    ensures ClearTo(w, start, second)
    ensures first + 1 != second ==> NoPair(w, start, second)
  {
    forall g | start <= g && g + WINDOW <= second ensures !GapAt(w, g) {
      assert first + 1 <= g || g + WINDOW <= first || w(first).Free?;
    }
    if first + 1 != second {
      assert w(first + 1).Taken?;
    }
  }

  /** Where a search gives up there is no clear way to a port further on. */
  lemma NoWay(w: World, start: Port, from: Port, next: Port, q: int)
    requires 0 < start <= from <= q && IsPair(w, q) && GaveUp(w, from, next)
    ensures !ClearTo(w, start, q + 1)
  {
    if from + WINDOW < PORTS && AllTaken(w, from, from + WINDOW) {
      assert GapAt(w, from);
    }
  }

  lemma {:induction false} PairFromMeans(w: World, start: Port, first: Port, rounds: nat)
    requires AnyPort(w) && 0 < start <= first && w(first).Free? && rounds >= PORTS - first
    requires ClearTo(w, start, first) && NoPair(w, start, first)
    ensures var (p, next) := PairFrom(w, first, rounds);
            && (p != 0 ==> IsPair(w, p) && NoPair(w, start, p) && ClearTo(w, start, p + 1)
                           && start <= p && next == Inc(p + 1))
            && (p == 0 ==> forall q :: start <= q && IsPair(w, q) ==> !ClearTo(w, start, q + 1))
    decreases PORTS - first
  {
    var from := Inc(first);
    var (second, next) := Search(w, from);
    SearchMeans(w, from);
    if second == 0 {
      forall q | start <= q && IsPair(w, q) ensures !ClearTo(w, start, q + 1) {
        if q > first {
          NoWay(w, start, from, next, q);
        }
      }
    } else {
      assert from == first + 1;
      Extends(w, start, first, second);
      if first + 1 != second {
        PairFromMeans(w, start, second, rounds - 1);
      }
    }
  }

  /** In any world a non-zero result is a pair, and nextPort ends just above it. */
  lemma {:induction false} PairFromSound(w: World, first: Port, rounds: nat)
    requires first != 0 && w(first).Free?
    ensures var (p, next) := PairFrom(w, first, rounds);
            p != 0 ==> IsPair(w, p) && next == Inc(p + 1)
    decreases rounds
  {
    if rounds > 0 {
      var (second, _) := Search(w, Inc(first));
      if second != 0 && first + 1 != second {
        PairFromSound(w, second, rounds - 1);
      }
    }
  }

  lemma PairSound(w: World, start: Port)
    ensures var (p, next) := SearchPair(w, start);
            p != 0 ==> IsPair(w, p) && next == Inc(p + 1)
  {
    var (first, _) := Search(w, start);
    if first != 0 {
      PairFromSound(w, first, PORTS + first);
    }
  }

  /** The pair search is leftmost and complete: a non-zero result is the least pair at or after the
      start, and nextPort ends two further on; and there is a result if and only if some pair lies
      ahead with no hundred taken ports in a row, and no failing socket, on the way to it. */
  lemma PairIsLeast(w: World, start: Port)
    requires AnyPort(w)
    ensures var (p, next) := SearchPair(w, start);
            && (p != 0 ==> start <= p && IsPair(w, p) && NoPair(w, start, p) && next == Inc(p + 1))
            && (p != 0 <==> start != 0 && exists q :: start <= q && IsPair(w, q) && ClearTo(w, start, q + 1))
  {
    var (first, next) := Search(w, start);
    SearchMeans(w, start);
    if first == 0 {
      forall q | start != 0 && start <= q && IsPair(w, q) ensures !ClearTo(w, start, q + 1) {
        NoWay(w, start, start, next, q);
      }
    } else {
      assert start != 0;
      assert ClearTo(w, start, first);
      PairFromMeans(w, start, first, PORTS + first);
    }
  }

  /** Two successful searches in a row give pairs that do not overlap, the second above the first. */
  lemma PairsDisjoint(w: World, start: Port)
    requires AnyPort(w)
    ensures var (p, next) := SearchPair(w, start);
            var (p2, _) := SearchPair(w, next);
            p != 0 && p2 != 0 ==> p + 2 <= p2
  {
    PairIsLeast(w, start);
    PairIsLeast(w, SearchPair(w, start).1);
  }

  lemma {:induction false} FailsFrom(w: World, first: Port, rounds: nat)
    requires AnyPort(w) && first != 0 && w(first).Free? && rounds >= PORTS - first
    ensures var (p, next) := PairFrom(w, first, rounds);
            p == 0 ==> next == 1 || SearchPair(w, next) == (0, next)
    decreases PORTS - first
  {
    var (second, _) := Search(w, Inc(first));
    SearchMeans(w, Inc(first));
    if second != 0 && first + 1 != second {
      FailsFrom(w, second, rounds - 1);
    }
  }

  /** A failed search is final while the ports stay as they are: either the counter has wrapped, and
      the next search starts at port 1, or every later search fails at once and changes nothing. */
  lemma FailureIsFinal(w: World, start: Port)
    requires AnyPort(w)
    ensures var (p, next) := SearchPair(w, start);
            p == 0 ==> next == 1 || SearchPair(w, next) == (0, next)
  {
    var (first, _) := Search(w, start);
    if first != 0 {
      FailsFrom(w, first, PORTS + first);
    }
  }

  /** A pair behind n taken ports is found if and only if they are fewer than a hundred; with a hundred the search
      gives up, and stays where it is. */
  lemma TakenRow(start: Port, n: nat)
    requires 0 < start && start + WINDOW < PORTS && start + n + 1 < PORTS
    ensures var w: World := (p: Port) => if start <= p < start + n then Taken else Free;
            IsPair(w, start + n)
            && SearchPair(w, start) == if n < 100 then (start + n, Inc(start + n + 1)) else (0, start)
  {
    var w: World := (p: Port) => if start <= p < start + n then Taken else Free;
    SearchMeans(w, start);
    if n < WINDOW {
      var (first, next) := Search(w, start);
      assert w(start + n).Free?;
      SearchMeans(w, next);
    }
  }

  // ---------------------------------------------------------------- the counter and its loops

  class PortUtils {
    var nextPort: Port

    constructor ()
      ensures nextPort == UDP_PORT_START
    {
      nextPort := UDP_PORT_START;
    }

    method GetIdleUdpPortUnlocked(w: World) returns (port: Port)
      requires Ends(w, nextPort)
      modifies this
      ensures (port, nextPort) == Search(w, old(nextPort))
    {
      var i := nextPort;
      ghost var j: int := i;               // i without wrapping
      while i < nextPort + WINDOW
        invariant nextPort == old(nextPort) && nextPort <= j < nextPort + PORTS && i == At(j)
        invariant nextPort + WINDOW < PORTS ==> j <= nextPort + WINDOW
        invariant Scan(w, nextPort, j) == Search(w, nextPort)
        invariant forall q: Port :: !w(q).Taken? ==> Dist(nextPort, q) >= j - nextPort
        decreases nextPort + PORTS - j
      {
        match w(i) {
          case NoSocket =>
            return 0;
          case Taken =>
            forall q: Port | !w(q).Taken? ensures Dist(nextPort, q) >= j + 1 - nextPort {
              assert q != i;
            }
            i, j := Inc(i), j + 1;
          case Free =>
            break;
        }
      }
      if i == nextPort + WINDOW {
        return 0;
      }
      nextPort := Inc(i);
      return i;
    }

    method GetIdleUdpPort(w: World) returns (port: Port)
      requires Ends(w, nextPort)
      modifies this
      ensures (port, nextPort) == Search(w, old(nextPort))
    {
      port := GetIdleUdpPortUnlocked(w);
    }

    /** It ends if port 0 is not refused, some socket fails, or some pair is there. */
    method GetIdleUdpPortPair(w: World) returns (port: Port)
      requires exists t: Port :: StopsAt(w, t)
      modifies this
      ensures (port, nextPort) == SearchPair(w, old(nextPort))
    {
      ghost var t: Port :| StopsAt(w, t);
      assert !w(t).Taken?;
      var firstPort := GetIdleUdpPortUnlocked(w);
      if firstPort == 0 {
        return 0;
      }
      ghost var rounds := PORTS + firstPort;
      while true
        invariant firstPort != 0 && w(firstPort).Free? && nextPort == Inc(firstPort)
        invariant Dist(firstPort, t) < rounds
        invariant PairFrom(w, firstPort, rounds) == SearchPair(w, old(nextPort))
        decreases Dist(firstPort, t)
      {
        GetsNearer(w, firstPort, t);
        var secondPort := GetIdleUdpPortUnlocked(w);
        if secondPort == 0 {
          return 0;
        }
        if firstPort as int + 1 == secondPort as int {
          return firstPort;
        }
        firstPort := secondPort;
        rounds := rounds - 1;
      }
    }
  }
}
