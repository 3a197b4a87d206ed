/**
 The port allocator: sort the numbers in use, scan for the first gap, and what that
 means for the window of ports that a network preallocates in the controller.
 */
module Ports {

  const OF_PORT_LOCAL: nat := 4294967294

  // -------------------------------------------------------------------------------------
  // The allocator

  /** The least number at or above k that is not used. */
  function LeastFree(used: set<nat>, k: nat): (r: nat)
    ensures k <= r && r !in used
    ensures forall i :: k <= i < r ==> i in used
    decreases AtLeast(used, k)
  {
    if k in used then
      assert k in AtLeast(used, k) && k !in AtLeast(used, k + 1);
      LeastFree(used, k + 1)
    else k
  }

  function AtLeast(used: set<nat>, k: nat): set<nat> {
    set i | i in used && k <= i
  }

  ghost predicate IsLeastFree(used: set<nat>, r: nat) {
    1 <= r && r !in used && forall i :: 1 <= i < r ==> i in used
  }

  /** What the sort-and-scan loop returns: the scan starts at 1 and stops at the first
      mismatch, so a port 0 sorts in front of everything and stops it at once. */
  function Scan(used: set<nat>): nat {
    if 0 in used then 1 else LeastFree(used, 1)
  }

  ghost predicate Sorted(s: seq<nat>) {
    forall i, j :: 0 <= i < j < |s| ==> s[i] <= s[j]
  }

  ghost predicate Distinct(s: seq<nat>) {
    forall i, j :: 0 <= i < j < |s| ==> s[i] != s[j]
  }

  method InsertSorted(s: seq<nat>, x: nat) returns (t: seq<nat>)
    requires Sorted(s)
    ensures Sorted(t) && multiset(t) == multiset(s) + multiset{x}
  {
    var i := 0;
    while i < |s| && s[i] < x
      invariant 0 <= i <= |s|
      invariant forall j :: 0 <= j < i ==> s[j] < x
    {
      i := i + 1;
    }
    t := s[..i] + [x] + s[i..];
    assert s == s[..i] + s[i..];
  }

  method SortInts(s: seq<nat>) returns (t: seq<nat>)
    ensures Sorted(t) && multiset(t) == multiset(s)
  {
    t := [];
    for k := 0 to |s|
      invariant Sorted(t) && multiset(t) == multiset(s[..k])
    {
      assert s[..k + 1] == s[..k] + [s[k]];
      t := InsertSorted(t, s[k]);
    }
    assert s[..|s|] == s;
  }

  /** Elements that each occur once stay distinct under permutation. */
  lemma DistinctByCount(s: seq<nat>)
    requires forall x :: multiset(s)[x] <= 1
    ensures Distinct(s)
  {
    forall i, j | 0 <= i < j < |s| ensures s[i] != s[j] {
      var x := s[i];
      assert s == s[..j] + [s[j]] + s[j + 1..];
      assert multiset(s) == multiset(s[..j]) + multiset([s[j]]) + multiset(s[j + 1..]);
      assert s[..j][i] == x;
      assert x in multiset(s[..j]);
      assert s[j] == x ==> multiset(s)[x] >= 2;
    }
  }

  /** Port numbers of a scraped bridge, collected in whatever order the map is visited. */
  method CollectPorts(portDesc: map<nat, string>) returns (ports: seq<nat>)
    ensures forall x :: multiset(ports)[x] == if x in portDesc then 1 else 0
    ensures |ports| == |portDesc|
  {
    ports := [];
    var rest := portDesc.Keys;
    while rest != {}
      invariant rest <= portDesc.Keys
      invariant forall x :: multiset(ports)[x] == if x in portDesc && x !in rest then 1 else 0
      invariant |ports| + |rest| == |portDesc.Keys|
      decreases rest
    {
      var p :| p in rest;
      ports := ports + [p];
      rest := rest - {p};
    }
  }

  /** The scan over the sorted numbers: count up from 1 until the first mismatch. */
  method ScanSorted(existing: seq<nat>) returns (port: nat)
    requires Sorted(existing) && Distinct(existing)
    ensures 1 <= port <= |existing| + 1
    ensures 0 in existing ==> port == 1
    ensures 0 !in existing ==> port !in existing && forall k :: 1 <= k < port ==> k in existing
  {
    port := 1;
    var i := 0;
    while i < |existing|
      invariant 0 <= i <= |existing| && port == i + 1
      invariant forall j :: 0 <= j < i ==> existing[j] == j + 1
    {
      if existing[i] != port {
        break;
      }
      port := port + 1;
      i := i + 1;
    }
    if 0 in existing {
      var k :| 0 <= k < |existing| && existing[k] == 0;
      assert existing[0] <= existing[k];
    } else {
      PastTheGap(existing, i);
      forall k | 1 <= k < port ensures k in existing {
        assert existing[k - 1] == k;
      }
    }
  }

  method LowestFreePortOnBridge(portDesc: map<nat, string>) returns (port: nat)
    ensures port == Scan(portDesc.Keys)
    ensures 0 !in portDesc ==> IsLeastFree(portDesc.Keys, port)
    ensures 1 <= port <= |portDesc| + 1
    ensures |portDesc| < OF_PORT_LOCAL - 1 ==> port < OF_PORT_LOCAL
  {
    var collected := CollectPorts(portDesc);
    var existing := SortInts(collected);
    SameElements(collected, existing, portDesc.Keys);
    port := ScanSorted(existing);
    if 0 !in portDesc {
      LeastFreeUnique(portDesc.Keys, port, LeastFree(portDesc.Keys, 1));
    }
  }

  lemma SameElements(a: seq<nat>, b: seq<nat>, keys: set<nat>)
    requires multiset(a) == multiset(b)
    requires forall x :: multiset(a)[x] == if x in keys then 1 else 0
    ensures |a| == |b| && Distinct(b)
    ensures forall x :: x in b <==> x in keys
  {
    DistinctByCount(b);
    assert |multiset(a)| == |a| && |multiset(b)| == |b|;
    forall x ensures x in b <==> x in keys {
      assert x in b <==> x in multiset(b);
    }
  }

  /** Beyond the first mismatch of a sorted, duplicate-free scan the wanted port cannot occur. */
  lemma PastTheGap(ports: seq<nat>, i: nat)
    requires Sorted(ports) && Distinct(ports) && i <= |ports| && 0 !in ports
    requires forall j :: 0 <= j < i ==> ports[j] == j + 1
    requires i < |ports| ==> ports[i] != i + 1
    ensures i + 1 !in ports
  {
    forall j | 0 <= j < |ports| ensures ports[j] != i + 1 {
      if i <= j {
        assert i == 0 || ports[i - 1] == i;
        assert ports[i] <= ports[j];
        assert ports[i] in ports;
      }
    }
  }

  lemma LeastFreeUnique(used: set<nat>, a: nat, b: nat)
    requires IsLeastFree(used, a) && IsLeastFree(used, b)
    ensures a == b
  {
    assert a < b ==> a in used;
    assert b < a ==> b in used;
  }

  /** Exactly when the scan is right: a port 0 on the bridge hides the fact that 1 is taken. */
  lemma ScanIsLeastFreeIff(used: set<nat>)
    ensures IsLeastFree(used, Scan(used)) <==> 0 !in used || 1 !in used
  {
    if 0 in used && 1 !in used {
      assert IsLeastFree(used, 1);
    }
  }

  // -------------------------------------------------------------------------------------
  // The preallocation window

  predicate InSpan(p: nat, f: nat, n: nat) {
    f <= p < f + n
  }

  function Window(f: nat, n: nat): set<nat> {
    set p {:trigger InSpan(p, f, n)} | f <= p < f + n && InSpan(p, f, n)
  }

  lemma {:induction false} WindowSize(f: nat, n: nat)
    ensures |Window(f, n)| == n
  {
    if n > 0 {
      WindowSize(f, n - 1);
      assert Window(f, n) == Window(f, n - 1) + {f + n - 1};
    } else {
      assert Window(f, n) == {};
    }
  }

  /** Everything below f is taken by ports that are not containers, and none of those
      ports lies in the window. */
  ghost predicate WindowFits(fixed: set<nat>, f: nat, n: nat) {
    && 1 <= f && 0 !in fixed
    && (forall i :: 1 <= i < f ==> i in fixed)
    && (forall i :: f <= i < f + n ==> i !in fixed)
  }

  /** The exact condition for the next container to land in the preallocated window. */
  lemma NextPortInWindowIff(fixed: set<nat>, live: set<nat>, f: nat, n: nat)
    requires WindowFits(fixed, f, n) && live <= Window(f, n)
    ensures f <= Scan(fixed + live)
    ensures Scan(fixed + live) in Window(f, n) <==> |live| < n
  {
    var p := Scan(fixed + live);
    assert 0 !in fixed + live;
    assert p < f ==> p in fixed;
    WindowSize(f, n);
    if p in Window(f, n) {
      assert p !in live;
      StrictSubsetSize(live, Window(f, n), p);
    } else {
      assert Window(f, n) <= live;
      assert Window(f, n) == live;
    }
  }

  lemma StrictSubsetSize(a: set<nat>, b: set<nat>, x: nat)
    requires a <= b && x in b && x !in a
    ensures |a| < |b|
  {
    SubsetSize(a, b - {x});
  }

  lemma {:induction false} SubsetSize(a: set<nat>, b: set<nat>)
    requires a <= b
    ensures |a| <= |b|
    decreases a
  {
    if a != {} {
      var x :| x in a;
      SubsetSize(a - {x}, b - {x});
    }
  }

  datatype PoolEvent =
    | Reserve                       // a container is plugged in at the scanned port
    | Release(port: nat)            // a container leaves
    | Refix(fixed: set<nat>)        // ports that are not containers come and go

  datatype Pool = Pool(fixed: set<nat>, live: set<nat>, handed: seq<nat>)

  function PoolNext(s: Pool, ev: PoolEvent): Pool {
    match ev
    case Reserve =>
      var p := Scan(s.fixed + s.live);
      s.(live := s.live + {p}, handed := s.handed + [p])
    case Release(p) => s.(live := s.live - {p})
    case Refix(fixed) => s.(fixed := fixed)
  }

  function PoolRun(s: Pool, evs: seq<PoolEvent>): Pool
    decreases |evs|
  {
    if evs == [] then s else PoolRun(PoolNext(s, evs[0]), evs[1..])
  }

  /** Fewer than n containers are live whenever one more is reserved, and the other ports
      keep clear of the window and keep everything below it taken. */
  ghost predicate Admissible(s: Pool, evs: seq<PoolEvent>, f: nat, n: nat)
    decreases |evs|
  {
    evs != [] ==>
      && (match evs[0]
          case Reserve => |s.live| < n
          case Release(p) => true
          case Refix(fixed) => WindowFits(fixed, f, n))
      && Admissible(PoolNext(s, evs[0]), evs[1..], f, n)
  }

  ghost predicate HandedInWindow(s: Pool, f: nat, n: nat) {
    && WindowFits(s.fixed, f, n)
    && s.live <= Window(f, n)
    && forall i :: 0 <= i < |s.handed| ==> s.handed[i] in Window(f, n)
  }

  /** Over every run of reserves and leaves, each port handed out was preallocated. */
  lemma {:induction false} WindowTheorem(s: Pool, evs: seq<PoolEvent>, f: nat, n: nat)
    requires HandedInWindow(s, f, n) && Admissible(s, evs, f, n)
    ensures HandedInWindow(PoolRun(s, evs), f, n)
    ensures |PoolRun(s, evs).live| <= n
    decreases |evs|
  {
    if evs == [] {
      WindowSize(f, n);
      SubsetSize(s.live, Window(f, n));
    } else {
      NextPortInWindowIff(s.fixed, s.live, f, n);
      WindowTheorem(PoolNext(s, evs[0]), evs[1..], f, n);
    }
  }

  ghost predicate NoLeaves(evs: seq<PoolEvent>) {
    forall i :: 0 <= i < |evs| ==> !evs[i].Release?
  }

  /** Live containers fill the window from the left with no gap. */
  ghost predicate Packed(s: Pool, f: nat, n: nat) {
    && WindowFits(s.fixed, f, n)
    && |s.handed| <= n
    && s.live == Window(f, |s.handed|)
    && forall i :: 0 <= i < |s.handed| ==> s.handed[i] == f + i
  }

  /** Without leaves the ports come out as f, f + 1, f + 2, ... */
  lemma {:induction false} WindowInOrder(s: Pool, evs: seq<PoolEvent>, f: nat, n: nat)
    requires Packed(s, f, n) && Admissible(s, evs, f, n) && NoLeaves(evs)
    ensures Packed(PoolRun(s, evs), f, n)
    decreases |evs|
  {
    if evs != [] {
      var k := |s.handed|;
      var s' := PoolNext(s, evs[0]);
      if evs[0].Reserve? {
        WindowSize(f, k);
        assert IsLeastFree(s.fixed + s.live, f + k);
        LeastFreeUnique(s.fixed + s.live, f + k, Scan(s.fixed + s.live));
        assert Window(f, k + 1) == Window(f, k) + {f + k};
      }
      WindowInOrder(s', evs[1..], f, n);
    }
  }
}
