/**
  The source-port allocator `find_sport` of src/device.c: a 16-bit counter that skips ports in
  use and wraps around. Port 0 is what the caller takes for "no port".
 */
module Ports {
  import opened Words

  const MAX_CONNECTIONS: nat := 65535

  /** The port the counter shows after `i` increments. */
  function PortAt(start: u16, i: nat): u16 {
    (start + i) % U16
  }

  /** The first of `tries` ports from `next` on, cyclically, that is not in use. */
  function FreeFrom(live: set<u16>, next: u16, tries: nat): u16
    decreases tries
  {
    if tries == 0 || next !in live then next else FreeFrom(live, PortAt(next, 1), tries - 1)
  }

  function Listed(sports: seq<u16>): set<u16> {
    set p | p in sports
  }

  /** The port `find_sport` returns with `count` connections open. */
  function SourcePort(live: set<u16>, count: nat, next: u16): u16 {
    if count >= MAX_CONNECTIONS then 0 else FreeFrom(live, next, U16)
  }

  /** The counter it leaves behind. */
  function NextPort(live: set<u16>, count: nat, next: u16): u16 {
    if count >= MAX_CONNECTIONS then next else PortAt(FreeFrom(live, next, U16), 1)
  }

  /** The ports visited in `n` steps from `next`. */
  ghost function Visited(next: u16, n: nat): set<u16>
    requires n <= U16
  {
    set i: nat | i < n :: PortAt(next, i)
  }

  lemma Distinct(start: u16, i: nat, j: nat)
    requires i < j < U16
    ensures PortAt(start, i) != PortAt(start, j)
  {
  }

  /** Within one turn of the counter no port is visited twice. */
  lemma {:induction false} VisitedCount(next: u16, n: nat)
    requires n <= U16
    ensures |Visited(next, n)| == n
  {
    if n == 0 {
      assert Visited(next, n) == {};
    } else {
      VisitedCount(next, n - 1);
      var last := PortAt(next, n - 1);
      assert Visited(next, n) == Visited(next, n - 1) + {last};
      forall i: nat | i < n - 1 ensures PortAt(next, i) != last {
        Distinct(next, i, n - 1);
      }
    }
  }

  /** A proper counting bound on subsets, by removing one element at a time. */
  lemma {:induction false} SubsetCount<T>(a: set<T>, b: set<T>)
    requires a <= b
    ensures |a| <= |b|
  {
    if a != {} {
      var x :| x in a;
      SubsetCount(a - {x}, b - {x});
    }
  }

  /** The `j`-th port from `start` is free and all before it are taken. */
  ghost predicate FirstFree(live: set<u16>, start: u16, j: nat) {
    PortAt(start, j) !in live && forall i: nat :: i < j ==> PortAt(start, i) in live
  }

  /** As long as not every port is taken the counter stops, and it stops at the first free port. */
  lemma {:induction false} StopsAtFree(live: set<u16>, start: u16, k: nat, tries: nat)
    requires |live| < U16 && k + tries == U16
    requires forall i: nat :: i < k ==> PortAt(start, i) in live
    ensures FreeFrom(live, PortAt(start, k), tries) !in live
    ensures exists j: nat ::
        k <= j < U16 && FirstFree(live, start, j) && FreeFrom(live, PortAt(start, k), tries) == PortAt(start, j)
    decreases tries
  {
    if k == U16 {
      VisitedCount(start, k);
      assert Visited(start, k) <= live;
      SubsetCount(Visited(start, k), live);
      assert false;
    } else if PortAt(start, k) in live {
      assert PortAt(PortAt(start, k), 1) == PortAt(start, k + 1);
      StopsAtFree(live, start, k + 1, tries - 1);
    } else {
      assert FirstFree(live, start, k);
    }
  }

  /** A taken port moves the search on, within one turn of the counter. */
  lemma Advance(live: set<u16>, start: u16, k: nat)
    requires |live| < U16 && k <= U16
    requires forall i: nat :: i < k ==> PortAt(start, i) in live
    requires PortAt(start, k) in live
    ensures k < U16
    ensures PortAt(PortAt(start, k), 1) == PortAt(start, k + 1)
    ensures FreeFrom(live, PortAt(start, k), U16 - k) == FreeFrom(live, PortAt(start, k + 1), U16 - (k + 1))
  {
    PortAtNext(start, k);
    hide PortAt;
    StopsAtFree(live, start, k, U16 - k);
  }

  lemma PortAtNext(start: u16, k: nat)
    ensures PortAt(PortAt(start, k), 1) == PortAt(start, k + 1)
  {
  }

  /** `find_sport` never returns a live port. */
  lemma {:induction false} PortIsFree(live: set<u16>, count: nat, next: u16)
    requires |live| <= count
    ensures SourcePort(live, count, next) != 0 ==> SourcePort(live, count, next) !in live
  {
    if count < MAX_CONNECTIONS {
      StopsAtFree(live, next, 0, U16);
      assert PortAt(next, 0) == next;
    }
  }

  /**
    When the allocation fails, exactly: the table is full, or every port from the counter up to
    65535 is in use, so that the counter wraps to 0 (which no connection uses).
   */
  lemma {:induction false} FailsExactly(live: set<u16>, count: nat, next: u16)
    requires |live| <= count && 0 !in live
    ensures SourcePort(live, count, next) == 0 <==>
              count >= MAX_CONNECTIONS || next == 0 || (forall p: u16 :: next <= p ==> p in live)
  {
    if count < MAX_CONNECTIONS && next != 0 {
      StopsAtFree(live, next, 0, U16);
      assert PortAt(next, 0) == next;
      var p := FreeFrom(live, next, U16);
      var j: nat :| j < U16 && FirstFree(live, next, j) && p == PortAt(next, j);
      PortAtUp(next, j);
      hide PortAt;
      if p == 0 {
        forall q: u16 | next <= q ensures q in live {
          PortAtUp(next, q - next);
        }
      } else {
        PortAtUp(next, U16 - next);
      }
    }
  }

  /** Up to 65535 the ports from the counter on are in order; then comes 0. */
  lemma PortAtUp(start: u16, j: nat)
    ensures start + j < U16 ==> PortAt(start, j) == start + j
    ensures start + j == U16 ==> PortAt(start, j) == 0
  {
  }

  /** An input at which it fails with every port free, and how the counter gets there. */
  lemma FailsWithAllFree()
    ensures SourcePort({}, 0, 65535) == 65535 && NextPort({}, 0, 65535) == 0
    ensures SourcePort({}, 0, 0) == 0
  {
  }

  /** A failure by wrap-around is not repeated: the very next attempt succeeds. */
  lemma RetrySucceeds(live: set<u16>, count: nat, next: u16)
    requires |live| <= count < MAX_CONNECTIONS && 0 !in live
    requires SourcePort(live, count, next) == 0
    ensures SourcePort(live, count, NextPort(live, count, next)) != 0
  {
    assert NextPort(live, count, next) == 1;
    FailsExactly(live, count, 1);
    if forall p: u16 :: 1 <= p ==> p in live {
      VisitedCount(1, U16 - 1);
      assert Visited(1, U16 - 1) <= live;
      SubsetCount(Visited(1, U16 - 1), live);
      assert false;
    }
  }

  /** The allocator of one device. */
  class PortAllocator {
    var nextSport: u16

    constructor (next: u16)
      ensures nextSport == next
    {
      nextSport := next;
    }

    /** `find_sport`; `sports` lists the source ports of the open connections in table order. */
    method FindSport(sports: seq<u16>) returns (port: u16)
      modifies this
      ensures var live := Listed(sports);
              port == SourcePort(live, |sports|, old(nextSport))
                  && nextSport == NextPort(live, |sports|, old(nextSport))
    {
      if |sports| >= MAX_CONNECTIONS {
        return 0;
      }
      ghost var live := Listed(sports);
      ghost var k: nat := 0;
      ListedCount(sports);
      while true
        invariant k <= U16 && nextSport == PortAt(old(nextSport), k)
        invariant forall i: nat :: i < k ==> PortAt(old(nextSport), i) in live
        invariant FreeFrom(live, nextSport, U16 - k) == FreeFrom(live, old(nextSport), U16)
        decreases U16 - k
      {
        var used := InUse(sports, nextSport);
        if !used {
          port := nextSport;
          nextSport := PortAt(nextSport, 1);
          return;
        }
        Advance(live, old(nextSport), k);
        nextSport := PortAt(nextSport, 1);
        k := k + 1;
      }
    }
  }

  /** The scan of the connection table. */
  method InUse(sports: seq<u16>, port: u16) returns (used: bool)
    ensures used <==> port in sports
  {
    used := false;
    for i := 0 to |sports|
      invariant !used
      invariant port !in sports[..i]
    {
      if sports[i] == port {
        return true;
      }
    }
    assert sports[..|sports|] == sports;
  }

  /** A list names at most as many ports as it has entries. */
  lemma {:induction false} ListedCount(sports: seq<u16>)
    ensures |Listed(sports)| <= |sports|
  {
    if sports != [] {
      ListedCount(sports[1..]);
      assert Listed(sports) == Listed(sports[1..]) + {sports[0]};
    } else {
      assert Listed(sports) == {};
    }
  }
}
