/**
 * Budgets, device selection and the shared memory fraction of src/deployments.rs and
 * src/inference_service/devices.rs.
 */
module DeploymentDevices {
  import opened Common

  /* ---------- Budgets ---------- */

  /** All amounts are bytes on one device. */
  datatype DeviceBudget = DeviceBudget(
    weights: u64, replicated: u64, kv: u64, experts: u64, compute: u64, overhead: u64, reserve: u64)

  function Amounts(b: DeviceBudget): seq<u64> {
    [b.weights, b.replicated, b.kv, b.experts, b.compute, b.overhead, b.reserve]
  }

  function Sum(s: seq<u64>): nat {
    if s == [] then 0 else s[0] + Sum(s[1..])
  }

  lemma {:induction false} SumSplits(a: seq<u64>, b: seq<u64>)
    ensures Sum(a + b) == Sum(a) + Sum(b)
  {
    if a == [] {
      assert a + b == b;
    } else {
      assert (a + b)[1..] == a[1..] + b;
      SumSplits(a[1..], b);
    }
  }

  /** `DeviceBudget::total`: the exact sum, or nothing when it does not fit `u64`. */
  method Total(b: DeviceBudget) returns (total: Option<u64>)
    ensures total == BudgetOf(b)
    ensures total.None? <==> Sum(Amounts(b)) >= U64_LIMIT
    ensures total.Some? ==> total.value == Sum(Amounts(b)) && total.value >= b.reserve
  {
    var amounts := Amounts(b);
    var sum: u64 := 0;
    for i := 0 to |amounts|
      invariant sum == Sum(amounts[..i])
    {
      assert amounts[..i + 1] == amounts[..i] + [amounts[i]];
      SumSplits(amounts[..i], [amounts[i]]);
      if sum + amounts[i] >= U64_LIMIT {
        assert amounts == amounts[..i + 1] + amounts[i + 1..];
        SumSplits(amounts[..i + 1], amounts[i + 1..]);
        return None;
      }
      sum := sum + amounts[i];
    }
    assert amounts[..|amounts|] == amounts;
    SumSplits(amounts[..6], amounts[6..]);
    assert amounts == amounts[..6] + amounts[6..] && amounts[6..] == [b.reserve];
    total := Some(sum);
  }

  function BudgetOf(b: DeviceBudget): Option<u64> {
    if Sum(Amounts(b)) < U64_LIMIT then Some(Sum(Amounts(b))) else None
  }

  /* ---------- Devices ---------- */

  datatype Device = Device(id: string, visibleIndex: Option<nat>, totalBytes: u64, freeBytes: Option<u64>, cuda: bool)

  /** The order of Rust strings. */
  predicate TextBefore(a: string, b: string) {
    b != [] && (a == [] || a[0] < b[0] || (a[0] == b[0] && TextBefore(a[1..], b[1..])))
  }

  lemma {:induction false} TextBeforeTransitive(a: string, b: string, c: string)
    requires TextBefore(a, b) && TextBefore(b, c)
    ensures TextBefore(a, c)
  {
    if a != [] && a[0] == b[0] && b[0] == c[0] {
      TextBeforeTransitive(a[1..], b[1..], c[1..]);
    }
  }

  lemma {:induction false} TextBeforeIrreflexive(a: string)
    ensures !TextBefore(a, a)
  {
    if a != [] {
      TextBeforeIrreflexive(a[1..]);
    }
  }

  lemma {:induction false} TextBeforeTotal(a: string, b: string)
    ensures a == b || TextBefore(a, b) || TextBefore(b, a)
  {
    if a != [] && b != [] && a[0] == b[0] {
      TextBeforeTotal(a[1..], b[1..]);
      assert a == [a[0]] + a[1..] && b == [b[0]] + b[1..];
    }
  }

  /** The first place where two texts differ decides, and a proper prefix comes first. */
  lemma {:induction false} TextBeforeMeans(a: string, b: string)
    ensures TextBefore(a, b) <==>
      exists i :: 0 <= i <= |a| && i < |b| && a[..i] == b[..i] && (i < |a| ==> a[i] < b[i])
  {
    if TextBefore(a, b) {
      if a == [] || a[0] < b[0] {
        assert a[..0] == b[..0];
      } else {
        var x, y := a[1..], b[1..];
        TextBeforeMeans(x, y);
        var i :| 0 <= i <= |x| && i < |y| && x[..i] == y[..i] && (i < |x| ==> x[i] < y[i]);
        assert a[..i + 1] == [a[0]] + x[..i] && b[..i + 1] == [b[0]] + y[..i];
      }
    }
    if i :| 0 <= i <= |a| && i < |b| && a[..i] == b[..i] && (i < |a| ==> a[i] < b[i]) {
      if i > 0 {
        assert a[0] == a[..i][0] == b[..i][0] == b[0];
        assert a[1..][..i - 1] == a[..i][1..] && b[1..][..i - 1] == b[..i][1..];
        TextBeforeMeans(a[1..], b[1..]);
      }
    }
  }

  /** Comparison of the pairs of total memory and identifier. */
  predicate Smaller(a: Device, b: Device) {
    a.totalBytes < b.totalBytes || (a.totalBytes == b.totalBytes && TextBefore(a.id, b.id))
  }

  lemma SmallerTransitive(a: Device, b: Device, c: Device)
    requires Smaller(a, b) && Smaller(b, c)
    ensures Smaller(a, c)
  {
    if a.totalBytes == b.totalBytes == c.totalBytes {
      TextBeforeTransitive(a.id, b.id, c.id);
    }
  }

  predicate Fits(d: Device, needed: nat) {
    d.freeBytes.Some? && d.freeBytes.value >= needed
  }

  function Insert(d: Device, sorted: seq<Device>): seq<Device>
    requires d.visibleIndex.Some? && forall x :: x in sorted ==> x.visibleIndex.Some?
  {
    if sorted == [] || d.visibleIndex.value <= sorted[0].visibleIndex.value then [d] + sorted
    else [sorted[0]] + Insert(d, sorted[1..])
  }

  lemma {:induction false} InsertHolds(d: Device, sorted: seq<Device>)
    requires d.visibleIndex.Some? && forall x :: x in sorted ==> x.visibleIndex.Some?
    ensures forall x :: x in Insert(d, sorted) <==> x == d || x in sorted
  {
    if !(sorted == [] || d.visibleIndex.value <= sorted[0].visibleIndex.value) {
      InsertHolds(d, sorted[1..]);
      assert sorted == [sorted[0]] + sorted[1..];
    }
  }

  /** `Inventory::visible`: the visible devices in the order of their index; equal indexes keep their order. */
  function Visible(devices: seq<Device>): (r: seq<Device>)
    ensures forall d :: d in r <==> d in devices && d.visibleIndex.Some?
  {
    if devices == [] then []
    else
      var rest := Visible(devices[1..]);
      InsertHoldsVisible(devices[0], rest);
      if devices[0].visibleIndex.Some? then Insert(devices[0], rest) else rest
  }

  lemma InsertHoldsVisible(d: Device, sorted: seq<Device>)
    requires forall x :: x in sorted ==> x.visibleIndex.Some?
    ensures d.visibleIndex.Some? ==> forall x :: x in Insert(d, sorted) <==> x == d || x in sorted
  {
    if d.visibleIndex.Some? {
      InsertHolds(d, sorted);
    }
  }

  /** The first of the least fitting devices. */
  function LeastFitting(devices: seq<Device>, needed: nat): Option<Device> {
    if devices == [] then None
    else
      var last, best := devices[|devices| - 1], LeastFitting(devices[..|devices| - 1], needed);
      if Fits(last, needed) && (best.None? || Smaller(last, best.value)) then Some(last) else best
  }

  lemma {:induction false} LeastFittingIsLeast(devices: seq<Device>, needed: nat)
    ensures LeastFitting(devices, needed).None? <==> forall d :: d in devices ==> !Fits(d, needed)
    ensures LeastFitting(devices, needed).Some? ==>
      var best := LeastFitting(devices, needed).value;
      best in devices && Fits(best, needed) && forall d :: d in devices && Fits(d, needed) ==> !Smaller(d, best)
  {
    if devices != [] {
      var before, last := devices[..|devices| - 1], devices[|devices| - 1];
      LeastFittingIsLeast(before, needed);
      assert devices == before + [last];
      TextBeforeIrreflexive(last.id);
      var best := LeastFitting(before, needed);
      if best.Some? && Fits(last, needed) && Smaller(last, best.value) {
        forall d | d in before && Fits(d, needed) ensures !Smaller(d, last) {
          if Smaller(d, last) {
            SmallerTransitive(d, last, best.value);
          }
        }
      }
    }
  }

  /** The first visible device with this identifier. */
  function FindVisible(devices: seq<Device>, id: string): (r: Option<Device>)
    ensures r.None? <==> forall d :: d in devices && d.id == id ==> d.visibleIndex.None?
    ensures r.Some? ==> r.value in devices && r.value.id == id && r.value.visibleIndex.Some?
  {
    if devices == [] then None
    else if devices[0].id == id && devices[0].visibleIndex.Some? then Some(devices[0])
    else FindVisible(devices[1..], id)
  }

  /** Hides what earlier profiles have claimed. */
  function Unclaimed(devices: seq<Device>, used: set<string>): seq<Device> {
    seq(|devices|, i requires 0 <= i < |devices| =>
      if devices[i].id in used then devices[i].(visibleIndex := None) else devices[i])
  }

  lemma UnclaimedHolds(devices: seq<Device>, used: set<string>, d: Device)
    requires d.visibleIndex.Some?
    ensures d in Unclaimed(devices, used) <==> d in devices && d.id !in used
  {
    var all := Unclaimed(devices, used);
    if d in devices && d.id !in used {
      var i :| 0 <= i < |devices| && devices[i] == d;
      assert all[i] == d;
    }
  }

  /* ---------- The vLLM memory fraction ---------- */

  /** One rank's share of its device; a device that reports no memory puts no bound on the fraction. */
  function Share(d: Device, b: DeviceBudget): Option<real>
    requires BudgetOf(b).Some?
  {
    if d.totalBytes == 0 then None
    else Some(Usable(b) / d.totalBytes as real)
  }

  /** What a rank may use: its budget less the reserve. */
  function Usable(b: DeviceBudget): real
    requires BudgetOf(b).Some?
  {
    (BudgetOf(b).value - b.reserve) as real
  }

  predicate Totalled(memory: seq<DeviceBudget>) {
    forall i :: 0 <= i < |memory| ==> BudgetOf(memory[i]).Some?
  }

  /** The least share, and at most 1. */
  function Fraction(devices: seq<Device>, memory: seq<DeviceBudget>): real
    requires |devices| == |memory| && Totalled(memory)
  {
    if devices == [] then 1.0
    else
      var n := |devices| - 1;
      var rest := Fraction(devices[..n], memory[..n]);
      var share := Share(devices[n], memory[n]);
      if share.Some? && share.value < rest then share.value else rest
  }

  lemma ScaledDown(f: real, share: real, bytes: real)
    requires f <= share && bytes >= 0.0
    ensures f * bytes <= share * bytes
  {
  }

  lemma WithinShare(f: real, amount: real, bytes: real)
    requires bytes > 0.0 && f <= amount / bytes
    ensures f * bytes <= amount
  {
    ScaledDown(f, amount / bytes, bytes);
    assert amount / bytes * bytes == amount;
  }

  lemma {:induction false} FractionIsLeast(devices: seq<Device>, memory: seq<DeviceBudget>, i: nat)
    requires |devices| == |memory| && Totalled(memory) && i < |devices|
    ensures Share(devices[i], memory[i]).Some? ==> Fraction(devices, memory) <= Share(devices[i], memory[i]).value
  {
    var n := |devices| - 1;
    if i < n {
      FractionIsLeast(devices[..n], memory[..n], i);
    }
  }

  /** The one fraction keeps every rank within its own budget less the reserve. */
  lemma {:induction false} FractionFitsEveryRank(devices: seq<Device>, memory: seq<DeviceBudget>, i: nat)
    requires |devices| == |memory| && Totalled(memory) && i < |devices| && devices[i].totalBytes > 0
    ensures Fraction(devices, memory) * devices[i].totalBytes as real
      <= Usable(memory[i])
  {
    FractionIsLeast(devices, memory, i);
    WithinShare(Fraction(devices, memory), Usable(memory[i]), devices[i].totalBytes as real);
  }

  /** No larger fraction would do: it is 1 or some rank's whole share. */
  lemma {:induction false} FractionIsAttained(devices: seq<Device>, memory: seq<DeviceBudget>)
    requires |devices| == |memory| && Totalled(memory)
    ensures Fraction(devices, memory) <= 1.0
    ensures Fraction(devices, memory) == 1.0
      || exists i :: 0 <= i < |devices| && Share(devices[i], memory[i]) == Some(Fraction(devices, memory))
  {
    if devices != [] {
      var n := |devices| - 1;
      FractionIsAttained(devices[..n], memory[..n]);
      var rest := Fraction(devices[..n], memory[..n]);
      if Fraction(devices, memory) == rest && rest != 1.0 {
        var i :| 0 <= i < n && Share(devices[..n][i], memory[..n][i]) == Some(rest);
        assert Share(devices[i], memory[i]) == Some(rest);
      }
    }
  }

  const UNITS := 100000000.0

  /** A fraction printed with eight decimals, read back: a multiple of the last place within half of it. */
  ghost predicate PrintedAs(fraction: real, printed: real) {
    && printed * UNITS == (printed * UNITS).Floor as real
    && (printed - fraction) * UNITS <= 0.5 && (fraction - printed) * UNITS <= 0.5
  }

  lemma PrintingAddsLittle(fraction: real, printed: real, bytes: real, budget: real)
    requires PrintedAs(fraction, printed) && bytes >= 0.0 && fraction * bytes <= budget
    ensures printed * bytes <= budget + bytes / 200000000.0
  {
    var error := printed - fraction;
    assert error <= 1.0 / 200000000.0;
    ScaledDown(error, 1.0 / 200000000.0, bytes);
    assert printed * bytes == fraction * bytes + error * bytes;
  }

  /** What printing can add: at most five billionths of the device's memory. */
  lemma {:induction false} PrintedFractionFits(devices: seq<Device>, memory: seq<DeviceBudget>, i: nat, printed: real)
    requires |devices| == |memory| && Totalled(memory) && i < |devices| && devices[i].totalBytes > 0
    requires PrintedAs(Fraction(devices, memory), printed)
    ensures printed * devices[i].totalBytes as real
      <= Usable(memory[i]) + devices[i].totalBytes as real / 200000000.0
  {
    var fraction, bytes, usable := Fraction(devices, memory), devices[i].totalBytes as real, Usable(memory[i]);
    FractionFitsEveryRank(devices, memory, i);
    PrintingAddsLittle(fraction, printed, bytes, usable);
  }

  predicate WithinBudget(d: Device, b: DeviceBudget, fraction: real)
    requires BudgetOf(b).Some?
  {
    d.totalBytes > 0 ==> fraction * d.totalBytes as real <= Usable(b)
  }

  lemma ExceedsShare(f: real, amount: real, bytes: real)
    requires bytes > 0.0 && f > amount / bytes
    ensures f * bytes > amount
  {
    assert amount / bytes * bytes == amount;
    assert (f - amount / bytes) * bytes > 0.0;
  }

  lemma WithinBudgetIff(d: Device, b: DeviceBudget, fraction: real)
    requires BudgetOf(b).Some? && d.totalBytes > 0
    ensures WithinBudget(d, b, fraction) <==> fraction <= Share(d, b).value
  {
    var usable, bytes := Usable(b), d.totalBytes as real;
    if fraction <= usable / bytes {
      WithinShare(fraction, usable, bytes);
    } else {
      ExceedsShare(fraction, usable, bytes);
    }
  }

  /** What is printed keeps every rank within its budget exactly when it was not rounded up. */
  lemma {:induction false} FitsUnlessRoundedUp(devices: seq<Device>, memory: seq<DeviceBudget>, printed: real)
    requires |devices| == |memory| && Totalled(memory) && Fraction(devices, memory) < 1.0
    ensures (forall i :: 0 <= i < |devices| ==> WithinBudget(devices[i], memory[i], printed))
      <==> printed <= Fraction(devices, memory)
  {
    FractionIsAttained(devices, memory);
    var k :| 0 <= k < |devices| && Share(devices[k], memory[k]) == Some(Fraction(devices, memory));
    WithinBudgetIff(devices[k], memory[k], printed);
    forall i | 0 <= i < |devices| && printed <= Fraction(devices, memory)
      ensures WithinBudget(devices[i], memory[i], printed)
    {
      if devices[i].totalBytes > 0 {
        FractionIsLeast(devices, memory, i);
        WithinBudgetIff(devices[i], memory[i], printed);
      }
    }
  }

  /** A fraction strictly between 0 and 1 may still be printed as 0 or as 1, near the ends and only there. */
  lemma PrintedStaysProper(fraction: real, printed: real)
    requires 0.0 < fraction < 1.0 && PrintedAs(fraction, printed)
    ensures fraction * UNITS > 0.5 ==> printed > 0.0
    ensures fraction * UNITS < 0.5 ==> printed == 0.0
    ensures (1.0 - fraction) * UNITS > 0.5 ==> printed < 1.0
    ensures (1.0 - fraction) * UNITS < 0.5 ==> printed == 1.0
  {
    var n := (printed * UNITS).Floor;
    assert printed * UNITS == n as real;
  }

  /**
   * One rank with 1999999999 of 4000000000 bytes to use: the fraction is printed as 0.50000000 and exceeds its share.
   */
  lemma PrintedCanExceed() returns (d: Device, b: DeviceBudget, printed: real)
    ensures BudgetOf(b).Some? && PrintedAs(Fraction([d], [b]), printed)
    ensures printed * d.totalBytes as real > Usable(b)
  {
    d := Device("GPU", Some(0), 4000000000, Some(4000000000), true);
    b := DeviceBudget(1999999997, 0, 0, 0, 1, 1, 1);
    printed := 0.5;
    var amounts := Amounts(b);
    SumSplits(amounts[..4], amounts[4..]);
    assert amounts == amounts[..4] + amounts[4..];
    assert amounts[..4] == [1999999997, 0, 0, 0] && amounts[4..] == [1, 1, 1];
    assert Sum([1999999997, 0, 0, 0]) == 1999999997 && Sum([1, 1, 1]) == 3;
    assert BudgetOf(b) == Some(2000000000);
    assert Usable(b) == 1999999999.0;
    assert Fraction([d][..0], [b][..0]) == 1.0;
    assert Fraction([d], [b]) == 1999999999.0 / 4000000000.0;
    assert printed * UNITS == 50000000.0;
  }
}
