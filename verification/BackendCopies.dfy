/** discover/backend_copies.go: keeping one entry for a GPU that is reachable through
    two backends, by compacting the very list the test scans. */
module BackendCopies {
  import opened Results

  /** A discovered device; info stands for the fields that are not looked at. */
  datatype Device<A> = Device(library: string, integrated: bool, pciID: string, info: A)

  /** Canonical form of a PCI ID, where it has one. */
  type Canon = string -> Option<string>

  predicate SamePCIID(canon: Canon, a: string, b: string) {
    canon(a).Some? && canon(b).Some? && canon(a).value == canon(b).value
  }

  /** Two devices that are one card: neither is integrated, the drivers differ, and the
      Vulkan one has the address of the vendor's. */
  predicate IsBackendCopy<A>(canon: Canon, a: Device<A>, b: Device<A>) {
    if a.integrated || b.integrated || a.library == b.library then false
    else
      var vk, other := if b.library == "Vulkan" then b else a, if b.library == "Vulkan" then a else b;
      vk.library == "Vulkan" && (other.library == "CUDA" || other.library == "ROCm") &&
        SamePCIID(canon, vk.pciID, other.pciID)
  }

  /** d is a Vulkan copy of a GPU in this list. */
  predicate IsDroppedCopy<A(==)>(canon: Canon, all: seq<Device<A>>, d: Device<A>) {
    d.library == "Vulkan" && exists o | o in all :: IsBackendCopy(canon, d, o)
  }

  /** The devices of s that are no Vulkan copies of any in all, in order. */
  function Kept<A(==)>(canon: Canon, all: seq<Device<A>>, s: seq<Device<A>>): seq<Device<A>> {
    if s == [] then []
    else
      var front, last := Kept(canon, all, s[..|s| - 1]), s[|s| - 1];
      if IsDroppedCopy(canon, all, last) then front else front + [last]
  }

  /** The devices of s that are Vulkan copies of some in all, in order. */
  function Copies<A(==)>(canon: Canon, all: seq<Device<A>>, s: seq<Device<A>>): seq<Device<A>> {
    if s == [] then []
    else
      var front, last := Copies(canon, all, s[..|s| - 1]), s[|s| - 1];
      if IsDroppedCopy(canon, all, last) then front + [last] else front
  }

  /** Whoever makes a device a dropped copy is never dropped. */
  lemma WitnessStays<A>(canon: Canon, all: seq<Device<A>>, d: Device<A>, o: Device<A>)
    requires d.library == "Vulkan" && IsBackendCopy(canon, d, o)
    ensures !IsDroppedCopy(canon, all, o)
  {}

  lemma {:induction false} KeptAre<A>(canon: Canon, all: seq<Device<A>>, s: seq<Device<A>>)
    ensures forall d :: d in Kept(canon, all, s) <==> d in s && !IsDroppedCopy(canon, all, d)
    ensures |Kept(canon, all, s)| <= |s|
    decreases |s|
  {
    if s != [] { KeptAre(canon, all, s[..|s| - 1]); }
  }

  /** A partly compacted list: the devices kept so far, some leftovers of the list,
      and its rest. */
  ghost predicate PartlyCompacted<A>(canon: Canon, all: seq<Device<A>>, now: seq<Device<A>>, i: nat, j: nat) {
    i <= j <= |now| == |all| && now[..i] == Kept(canon, all, all[..j]) && now[j..] == all[j..] &&
    forall k | i <= k < j :: now[k] in all
  }

  /** Every test made while compacting answers as it would have on the full list. */
  lemma SameAnswer<A>(canon: Canon, all: seq<Device<A>>, now: seq<Device<A>>, i: nat, j: nat, d: Device<A>)
    requires PartlyCompacted(canon, all, now, i, j)
    ensures IsDroppedCopy(canon, now, d) <==> IsDroppedCopy(canon, all, d)
  {
    KeptAre(canon, all, all[..j]);
    hide IsBackendCopy;
    forall k | 0 <= k < |now| ensures now[k] in all {
      if k < i { assert now[..i][k] in all[..j]; } else if k >= j { assert now[j..][k - j] == all[k]; }
    }
    if d.library == "Vulkan" {
      forall o | o in all && IsBackendCopy(canon, d, o) ensures o in now {
        WitnessStays(canon, all, d, o);
        assert all == all[..j] + all[j..];
        if o in all[..j] { assert o in now[..i]; } else { assert o in now[j..]; }
      }
    }
  }

  lemma KeptNext<A>(canon: Canon, all: seq<Device<A>>, j: nat)
    requires j < |all|
    ensures Kept(canon, all, all[..j + 1])
         == Kept(canon, all, all[..j]) + if IsDroppedCopy(canon, all, all[j]) then [] else [all[j]]
  {
    assert all[..j + 1][..j] == all[..j];
  }

  /** Where the first device to delete is; nothing has been moved yet. */
  method FirstDropped<A(==)>(canon: Canon, devices: array<Device<A>>) returns (i: nat)
    ensures i <= devices.Length && devices[..i] == Kept(canon, devices[..], devices[..i])
    ensures i < devices.Length ==> IsDroppedCopy(canon, devices[..], devices[i])
  {
    hide IsDroppedCopy;
    ghost var all := devices[..];
    i := 0;
    while i < devices.Length && !IsDroppedCopy(canon, devices[..], devices[i])
      invariant i <= devices.Length && all[..i] == Kept(canon, all, all[..i])
    {
      KeptNext(canon, all, i);
      i := i + 1;
    }
    assert all[..i] == devices[..i];
  }

  /** Moves one device down if it is kept, testing it against the list as it is now. */
  method CompactOne<A(==)>(canon: Canon, devices: array<Device<A>>, i: nat, j: nat, ghost all: seq<Device<A>>)
    returns (next: nat)
    requires i < j < devices.Length && PartlyCompacted(canon, all, devices[..], i, j)
    modifies devices
    ensures i <= next <= i + 1 && PartlyCompacted(canon, all, devices[..], next, j + 1)
  {
    hide IsDroppedCopy, PartlyCompacted;
    var v := devices[j];
    ghost var before := devices[..];
    AtFront(canon, all, before, i, j);
    SameAnswer(canon, all, before, i, j, v);
    KeptNext(canon, all, j);
    if !IsDroppedCopy(canon, devices[..], v) {
      devices[i] := v;
      next := i + 1;
      Moved(canon, all, before, devices[..], i, j);
    } else {
      next := i;
      Skipped(canon, all, before, i, j);
    }
  }

  lemma AtFront<A>(canon: Canon, all: seq<Device<A>>, now: seq<Device<A>>, i: nat, j: nat)
    requires PartlyCompacted(canon, all, now, i, j) && j < |now|
    ensures |all| == |now| && now[j] == all[j]
  {
    assert now[j] == now[j..][0];
  }

  method Clear<A>(devices: array<Device<A>>, from: nat, zero: Device<A>)
    requires from <= devices.Length
    modifies devices
    ensures devices[..from] == old(devices[..from])
    ensures forall k | from <= k < devices.Length :: devices[k] == zero
  {
    for k := from to devices.Length
      invariant devices[..from] == old(devices[..from])
      invariant forall m | from <= m < k :: devices[m] == zero
    {
      devices[k] := zero;
    }
  }

  /** Deletes, in place, the devices that are dropped copies of ones the list holds at
      that moment, and clears the freed places. What remains is what the test keeps of
      the original list. */
  method OnePerGPU<A(==)>(canon: Canon, devices: array<Device<A>>, zero: Device<A>) returns (n: nat)
    modifies devices
    ensures n <= devices.Length && devices[..n] == Kept(canon, old(devices[..]), old(devices[..]))
    ensures forall k | n <= k < devices.Length :: devices[k] == zero
  {
    hide IsDroppedCopy, Kept;
    ghost var all := devices[..];
    var i: nat := FirstDropped(canon, devices);
    if i == devices.Length {
      assert devices[..i] == all;
      return i;
    }
    KeptNext(canon, all, i);
    Started(canon, all, i);
    for j := i + 1 to devices.Length
      invariant i < j && PartlyCompacted(canon, all, devices[..], i, j)
    {
      i := CompactOne(canon, devices, i, j, all);
    }
    assert all[..devices.Length] == all;
    assert devices[..][..i] == devices[..i];
    Clear(devices, i, zero);
    n := i;
  }

  lemma Started<A>(canon: Canon, all: seq<Device<A>>, i: nat)
    requires i < |all| && all[..i] == Kept(canon, all, all[..i + 1])
    ensures PartlyCompacted(canon, all, all, i, i + 1)
  {}

  lemma Moved<A>(canon: Canon, all: seq<Device<A>>, before: seq<Device<A>>, now: seq<Device<A>>, i: nat, j: nat)
    requires i < j < |all| && PartlyCompacted(canon, all, before, i, j) && now == before[i := all[j]]
    requires Kept(canon, all, all[..j + 1]) == Kept(canon, all, all[..j]) + [all[j]]
    ensures PartlyCompacted(canon, all, now, i + 1, j + 1)
  {
    assert now[..i + 1] == before[..i] + [all[j]];
    assert now[j + 1..] == before[j..][1..];
    assert before[j] == before[j..][0];
  }

  lemma Skipped<A>(canon: Canon, all: seq<Device<A>>, now: seq<Device<A>>, i: nat, j: nat)
    requires i <= j < |all| && PartlyCompacted(canon, all, now, i, j)
    requires Kept(canon, all, all[..j + 1]) == Kept(canon, all, all[..j])
    ensures PartlyCompacted(canon, all, now, i, j + 1)
  {
    assert now[j + 1..] == now[j..][1..];
    assert now[j] == now[j..][0];
  }

  /** The copies that are left out of the list. */
  method BackendCopiesOf<A(==)>(canon: Canon, devices: seq<Device<A>>) returns (copies: seq<Device<A>>)
    ensures copies == Copies(canon, devices, devices)
  {
    hide IsDroppedCopy;
    copies := [];
    for k := 0 to |devices|
      invariant copies == Copies(canon, devices, devices[..k])
    {
      assert devices[..k + 1][..k] == devices[..k];
      var d := devices[k];
      if IsDroppedCopy(canon, devices, d) { copies := copies + [d]; }
    }
    assert devices[..|devices|] == devices;
  }

  // ---- What is kept -------------------------------------------------------

  /** Every device is either kept or one of the copies, and none is both. */
  lemma KeptAndCopies<A>(canon: Canon, all: seq<Device<A>>, s: seq<Device<A>>)
    ensures multiset(Kept(canon, all, s)) + multiset(Copies(canon, all, s)) == multiset(s)
    ensures multiset(Kept(canon, all, s)) !! multiset(Copies(canon, all, s))
  {
    hide IsDroppedCopy;
    KeptAre(canon, all, s);
    CopiesAre(canon, all, s);
    KeptPlusCopies(canon, all, s);
  }

  lemma {:induction false} KeptPlusCopies<A>(canon: Canon, all: seq<Device<A>>, s: seq<Device<A>>)
    ensures multiset(Kept(canon, all, s)) + multiset(Copies(canon, all, s)) == multiset(s)
    decreases |s|
  {
    hide IsDroppedCopy;
    if s != [] {
      var front, last := s[..|s| - 1], s[|s| - 1];
      KeptPlusCopies(canon, all, front);
      assert s == front + [last];
    }
  }

  lemma {:induction false} CopiesAre<A>(canon: Canon, all: seq<Device<A>>, s: seq<Device<A>>)
    ensures forall d :: d in Copies(canon, all, s) <==> d in s && IsDroppedCopy(canon, all, d)
    decreases |s|
  {
    hide IsDroppedCopy;
    if s != [] { CopiesAre(canon, all, s[..|s| - 1]); }
  }

  /** No two kept devices are copies of one GPU, yet each dropped device has its GPU
      kept; and keeping is idempotent. */
  lemma KeptIsOnePerGPU<A>(canon: Canon, all: seq<Device<A>>)
    ensures var kept := Kept(canon, all, all);
            (forall a, b | a in kept && b in kept :: !IsBackendCopy(canon, a, b)) &&
            (forall d | d in Copies(canon, all, all) :: exists o :: o in kept && IsBackendCopy(canon, d, o)) &&
            Kept(canon, kept, kept) == kept
  {
    var kept := Kept(canon, all, all);
    KeptAre(canon, all, all);
    CopiesAre(canon, all, all);
    forall a, b | a in kept && b in kept ensures !IsBackendCopy(canon, a, b) {
      if IsBackendCopy(canon, a, b) { CopySymmetric(canon, a, b); }
    }
    forall d | d in Copies(canon, all, all) ensures exists o :: o in kept && IsBackendCopy(canon, d, o) {
      assert IsDroppedCopy(canon, all, d);
      var o :| o in all && IsBackendCopy(canon, d, o);
      WitnessStays(canon, all, d, o);
    }
    NothingDropped(canon, kept, kept);
  }

  lemma CopySymmetric<A>(canon: Canon, a: Device<A>, b: Device<A>)
    ensures IsBackendCopy(canon, a, b) ==> IsBackendCopy(canon, b, a)
    ensures IsBackendCopy(canon, a, b) ==> a.library == "Vulkan" || b.library == "Vulkan"
  {}

  lemma {:induction false} NothingDropped<A>(canon: Canon, all: seq<Device<A>>, s: seq<Device<A>>)
    requires forall d | d in s :: !IsDroppedCopy(canon, all, d)
    ensures Kept(canon, all, s) == s
    decreases |s|
  {
    hide IsDroppedCopy;
    if s != [] { NothingDropped(canon, all, s[..|s| - 1]); }
  }
}
