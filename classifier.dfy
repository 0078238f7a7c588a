/** The severity classification shared by the `/usage` and `/status` handlers (main.go). */
module Classifier {
  import opened Usage

  /** The `status` strings of the JSON responses. */
  datatype Status = Ok | Attention | Warning | Critical | NotConfigured | Error
  {
    function Name(): string
    {
      match this
      case Ok => "OK"
      case Attention => "ATTENTION"
      case Warning => "WARNING"
      case Critical => "CRITICAL"
      case NotConfigured => "NOT_CONFIGURED"
      case Error => "ERROR"
    }
  }

  /** A labelled percentage; a warning is one at 80 or above, reported as "<name> at <percentage>%". */
  datatype Reading = Reading(name: string, percentage: int)

  /** The running maximum of the handlers' loops, which starts at 0. */
  function Max0(ps: seq<int>): (m: int)
    ensures m >= 0
    ensures forall i :: 0 <= i < |ps| ==> ps[i] <= m
    ensures m == 0 || m in ps
  {
    if ps == [] then 0
    else
      var m := Max0(ps[..|ps| - 1]);
      if ps[|ps| - 1] > m then ps[|ps| - 1] else m
  }

  /** The threshold chain: 90 and above is CRITICAL, 80 WARNING, 60 ATTENTION, anything lower OK. */
  function StatusOf(max: int): (s: Status)
    ensures s == Critical <==> max >= 90
    ensures s == Warning <==> 80 <= max < 90
    ensures s == Attention <==> 60 <= max < 80
    ensures s == Ok <==> max < 60
  {
    if max >= 90 then Critical
    else if max >= 80 then Warning
    else if max >= 60 then Attention
    else Ok
  }

  predicate IsHigh(r: Reading)
  {
    r.percentage >= 80
  }

  /** The readings at 80% or more, in their original order. */
  function High(rs: seq<Reading>): seq<Reading>
  {
    if rs == [] then []
    else High(rs[..|rs| - 1]) + (if IsHigh(rs[|rs| - 1]) then [rs[|rs| - 1]] else [])
  }

  /** The percentages of the readings that are above 0, in their original order. */
  function Positive(rs: seq<Reading>): seq<int>
  {
    if rs == [] then []
    else Positive(rs[..|rs| - 1]) + (if rs[|rs| - 1].percentage > 0 then [rs[|rs| - 1].percentage] else [])
  }

  /** The percentages of the readings. */
  function Percentages(rs: seq<Reading>): (ps: seq<int>)
    ensures |ps| == |rs| && forall i :: 0 <= i < |rs| ==> ps[i] == rs[i].percentage
  {
    if rs == [] then [] else Percentages(rs[..|rs| - 1]) + [rs[|rs| - 1].percentage]
  }

  /** `/status` labels every percentage alike. */
  function Resources(ps: seq<int>): (rs: seq<Reading>)
    ensures |rs| == |ps| && forall i :: 0 <= i < |ps| ==> rs[i] == Reading("Resource", ps[i])
  {
    if ps == [] then [] else Resources(ps[..|ps| - 1]) + [Reading("Resource", ps[|ps| - 1])]
  }

  /** The five metrics in the order `/usage` examines them. */
  function UsageReadings(u: AllUsage): seq<Reading>
  {
    [Reading("ARM OCPUs", u.compute.arm.ocpus.percentage),
     Reading("ARM Memory", u.compute.arm.memoryGB.percentage),
     Reading("Block Storage", u.blockStorage.total.percentage),
     Reading("Public IPs", u.publicIPs.percentage),
     Reading("Object Storage", u.objectStorage.total.percentage)]
  }

  /** The five metrics in the order `/status` lists them. */
  function StatusPercentages(u: AllUsage): seq<int>
  {
    [u.compute.arm.ocpus.percentage,
     u.compute.arm.memoryGB.percentage,
     u.blockStorage.total.percentage,
     u.objectStorage.total.percentage,
     u.publicIPs.percentage]
  }

  /** The warning a single metric contributes. */
  function WarningFor(name: string, p: int): seq<Reading>
  {
    if p >= 80 then [Reading(name, p)] else []
  }

  /** The percentage a single metric contributes to `/usage`'s list. */
  function PositiveOf(p: int): seq<int>
  {
    if p > 0 then [p] else []
  }

  /** `/usage`: the five guarded appends; a metric at 0 or below is not collected at all. */
  method CollectUsage(u: AllUsage) returns (percentages: seq<int>, warnings: seq<Reading>)
    ensures percentages == Positive(UsageReadings(u))
    ensures warnings == High(UsageReadings(u))
  {
    ghost var p0, p1, p2, p3, p4 := u.compute.arm.ocpus.percentage, u.compute.arm.memoryGB.percentage,
      u.blockStorage.total.percentage, u.publicIPs.percentage, u.objectStorage.total.percentage;
    percentages, warnings := [], [];
    if u.compute.arm.ocpus.percentage > 0 {
      percentages := percentages + [u.compute.arm.ocpus.percentage];
      if u.compute.arm.ocpus.percentage >= 80 {
        warnings := warnings + [Reading("ARM OCPUs", u.compute.arm.ocpus.percentage)];
      }
    }
    assert percentages == PositiveOf(p0);
    assert warnings == WarningFor("ARM OCPUs", p0);
    if u.compute.arm.memoryGB.percentage > 0 {
      percentages := percentages + [u.compute.arm.memoryGB.percentage];
      if u.compute.arm.memoryGB.percentage >= 80 {
        warnings := warnings + [Reading("ARM Memory", u.compute.arm.memoryGB.percentage)];
      }
    }
    assert percentages == PositiveOf(p0) + PositiveOf(p1);
    assert warnings == WarningFor("ARM OCPUs", p0) + WarningFor("ARM Memory", p1);
    if u.blockStorage.total.percentage > 0 {
      percentages := percentages + [u.blockStorage.total.percentage];
      if u.blockStorage.total.percentage >= 80 {
        warnings := warnings + [Reading("Block Storage", u.blockStorage.total.percentage)];
      }
    }
    assert percentages == PositiveOf(p0) + PositiveOf(p1) + PositiveOf(p2);
    assert warnings == WarningFor("ARM OCPUs", p0) + WarningFor("ARM Memory", p1) + WarningFor("Block Storage", p2);
    if u.publicIPs.percentage > 0 {
      percentages := percentages + [u.publicIPs.percentage];
      if u.publicIPs.percentage >= 80 {
        warnings := warnings + [Reading("Public IPs", u.publicIPs.percentage)];
      }
    }
    assert percentages == PositiveOf(p0) + PositiveOf(p1) + PositiveOf(p2) + PositiveOf(p3);
    assert warnings == WarningFor("ARM OCPUs", p0) + WarningFor("ARM Memory", p1) + WarningFor("Block Storage", p2) + WarningFor("Public IPs", p3);
    if u.objectStorage.total.percentage > 0 {
      percentages := percentages + [u.objectStorage.total.percentage];
      if u.objectStorage.total.percentage >= 80 {
        warnings := warnings + [Reading("Object Storage", u.objectStorage.total.percentage)];
      }
    }
    assert percentages == PositiveOf(p0) + PositiveOf(p1) + PositiveOf(p2) + PositiveOf(p3) + PositiveOf(p4);
    assert warnings == WarningFor("ARM OCPUs", p0) + WarningFor("ARM Memory", p1) + WarningFor("Block Storage", p2) + WarningFor("Public IPs", p3) + WarningFor("Object Storage", p4);
    UsageWarningOrder(u);
    UsagePositiveOrder(u);
  }

  /** `/usage`: the maximum over the collected percentages. */
  method MaxPercentage(percentages: seq<int>) returns (max: int)
    ensures max == Max0(percentages)
  {
    max := 0;
    var i := 0;
    while i < |percentages|
      invariant 0 <= i <= |percentages|
      invariant max == Max0(percentages[..i])
    {
      assert percentages[..i + 1][..i] == percentages[..i];
      if percentages[i] > max {
        max := percentages[i];
      }
      i := i + 1;
    }
    assert percentages[..i] == percentages;
  }

  /** `/status`: one loop computes the maximum and a warning per percentage at 80 or above. */
  method ScanPercentages(percentages: seq<int>) returns (max: int, warnings: seq<Reading>)
    ensures max == Max0(percentages)
    ensures warnings == High(Resources(percentages))
  {
    max, warnings := 0, [];
    var i := 0;
    while i < |percentages|
      invariant 0 <= i <= |percentages|
      invariant max == Max0(percentages[..i])
      invariant warnings == High(Resources(percentages[..i]))
    {
      var p := percentages[i];
      assert percentages[..i + 1][..i] == percentages[..i];
      assert Resources(percentages[..i + 1])[..i] == Resources(percentages[..i]);
      if p > max {
        max := p;
      }
      if p >= 80 {
        warnings := warnings + [Reading("Resource", p)];
      }
      i := i + 1;
    }
    assert percentages[..i] == percentages;
  }

  /** Max0 depends only on which values occur. */
  lemma Max0SameValues(a: seq<int>, b: seq<int>)
    requires forall x :: x in a ==> x in b
    requires forall x :: x in b ==> x in a
    ensures Max0(a) == Max0(b)
  {
    var ma, mb := Max0(a), Max0(b);
    if ma != 0 { assert ma in b; }
    if mb != 0 { assert mb in a; }
  }

  /** Skipping percentages at 0 or below does not change the maximum, because it starts at 0. */
  lemma {:induction false} Max0IgnoresNonPositive(rs: seq<Reading>)
    ensures Max0(Positive(rs)) == Max0(Percentages(rs))
  {
    if rs != [] {
      var init, p := rs[..|rs| - 1], rs[|rs| - 1].percentage;
      Max0IgnoresNonPositive(init);
      var ps := Percentages(rs);
      assert ps[..|ps| - 1] == Percentages(init);
      var m := Max0(Percentages(init));
      assert Max0(ps) == if p > m then p else m;
      if p > 0 {
        var qs := Positive(init) + [p];
        assert Positive(rs) == qs;
        assert qs[..|qs| - 1] == Positive(init);
      } else {
        assert Positive(rs) == Positive(init);
      }
    }
  }

  /** The two handlers report the same maximum for the same snapshot. */
  lemma UsageMaxAgreesWithStatusMax(u: AllUsage)
    ensures Max0(Positive(UsageReadings(u))) == Max0(StatusPercentages(u))
  {
    var rs := UsageReadings(u);
    Max0IgnoresNonPositive(rs);
    var ps := Percentages(rs);
    assert ps == [rs[0].percentage, rs[1].percentage, rs[2].percentage, rs[3].percentage, rs[4].percentage];
    Max0SameValues(ps, StatusPercentages(u));
  }

  /** The maximum reaches a positive threshold exactly when some percentage does. */
  lemma Max0ReachesThreshold(ps: seq<int>, threshold: int)
    requires threshold > 0
    ensures Max0(ps) >= threshold <==> exists i :: 0 <= i < |ps| && ps[i] >= threshold
  {
    if Max0(ps) >= threshold {
      var i :| 0 <= i < |ps| && ps[i] == Max0(ps);
    }
  }

  /** There are warnings exactly when some reading is at 80 or above. */
  lemma {:induction false} HighNonEmpty(rs: seq<Reading>)
    ensures High(rs) != [] <==> exists i :: 0 <= i < |rs| && rs[i].percentage >= 80
  {
    if rs != [] {
      var init := rs[..|rs| - 1];
      HighNonEmpty(init);
      if exists i :: 0 <= i < |init| && init[i].percentage >= 80 {
        var i :| 0 <= i < |init| && init[i].percentage >= 80;
        assert rs[i] == init[i];
      }
      if exists i :: 0 <= i < |rs| && rs[i].percentage >= 80 {
        var i :| 0 <= i < |rs| && rs[i].percentage >= 80;
        if i < |init| { assert init[i] == rs[i]; }
      }
    }
  }

  /** `/usage` has warnings exactly when its status is WARNING or CRITICAL. */
  lemma UsageWarningsIffSevere(u: AllUsage)
    ensures var status := StatusOf(Max0(Positive(UsageReadings(u))));
      High(UsageReadings(u)) != [] <==> status == Warning || status == Critical
  {
    var rs := UsageReadings(u);
    Max0IgnoresNonPositive(rs);
    Max0ReachesThreshold(Percentages(rs), 80);
    HighNonEmpty(rs);
  }

  /** `/status` has warnings exactly when its status is WARNING or CRITICAL. */
  lemma StatusWarningsIffSevere(ps: seq<int>)
    ensures var status := StatusOf(Max0(ps));
      High(Resources(ps)) != [] <==> status == Warning || status == Critical
  {
    Max0ReachesThreshold(ps, 80);
    HighNonEmpty(Resources(ps));
  }

  /** High distributes over concatenation. */
  lemma {:induction false} HighAppend(a: seq<Reading>, b: seq<Reading>)
    ensures High(a + b) == High(a) + High(b)
  {
    if b == [] {
      assert a + b == a;
    } else {
      HighAppend(a, b[..|b| - 1]);
      assert (a + b)[..|a + b| - 1] == a + b[..|b| - 1];
    }
  }

  /** Positive distributes over concatenation. */
  lemma {:induction false} PositiveAppend(a: seq<Reading>, b: seq<Reading>)
    ensures Positive(a + b) == Positive(a) + Positive(b)
  {
    if b == [] {
      assert a + b == a;
    } else {
      PositiveAppend(a, b[..|b| - 1]);
      assert (a + b)[..|a + b| - 1] == a + b[..|b| - 1];
    }
  }

  /** High and Positive of five readings, one reading at a time. */
  lemma FiveReadings(r0: Reading, r1: Reading, r2: Reading, r3: Reading, r4: Reading)
    ensures High([r0, r1, r2, r3, r4]) ==
      WarningFor(r0.name, r0.percentage) + WarningFor(r1.name, r1.percentage) + WarningFor(r2.name, r2.percentage) +
      WarningFor(r3.name, r3.percentage) + WarningFor(r4.name, r4.percentage)
    ensures Positive([r0, r1, r2, r3, r4]) ==
      Positive([r0]) + Positive([r1]) + Positive([r2]) + Positive([r3]) + Positive([r4])
  {
    var rs := [r0, r1, r2, r3, r4];
    assert rs == [r0] + [r1] + [r2] + [r3] + [r4];
    HighAppend([r0] + [r1] + [r2] + [r3], [r4]);
    HighAppend([r0] + [r1] + [r2], [r3]);
    HighAppend([r0] + [r1], [r2]);
    HighAppend([r0], [r1]);
    PositiveAppend([r0] + [r1] + [r2] + [r3], [r4]);
    PositiveAppend([r0] + [r1] + [r2], [r3]);
    PositiveAppend([r0] + [r1], [r2]);
    PositiveAppend([r0], [r1]);
    forall r: Reading ensures High([r]) == WarningFor(r.name, r.percentage) {
      assert [r][..0] == [];
    }
  }

  /** The warnings of `/usage`: ARM OCPUs, ARM Memory, Block Storage, Public IPs, Object Storage. */
  lemma UsageWarningOrder(u: AllUsage)
    ensures High(UsageReadings(u)) ==
      WarningFor("ARM OCPUs", u.compute.arm.ocpus.percentage) +
      WarningFor("ARM Memory", u.compute.arm.memoryGB.percentage) +
      WarningFor("Block Storage", u.blockStorage.total.percentage) +
      WarningFor("Public IPs", u.publicIPs.percentage) +
      WarningFor("Object Storage", u.objectStorage.total.percentage)
  {
    var rs := UsageReadings(u);
    FiveReadings(rs[0], rs[1], rs[2], rs[3], rs[4]);
  }

  /** The percentages `/usage` collects: the positive ones, in its order. */
  lemma UsagePositiveOrder(u: AllUsage)
    ensures Positive(UsageReadings(u)) ==
      PositiveOf(u.compute.arm.ocpus.percentage) + PositiveOf(u.compute.arm.memoryGB.percentage) +
      PositiveOf(u.blockStorage.total.percentage) + PositiveOf(u.publicIPs.percentage) +
      PositiveOf(u.objectStorage.total.percentage)
  {
    var rs := UsageReadings(u);
    FiveReadings(rs[0], rs[1], rs[2], rs[3], rs[4]);
    forall r: Reading ensures Positive([r]) == PositiveOf(r.percentage) {
      assert [r][..0] == [];
    }
  }

  /** The warnings of `/status`: OCPUs, Memory, Block, Object, Public IPs; all labelled "Resource". */
  lemma StatusWarningOrder(u: AllUsage)
    ensures High(Resources(StatusPercentages(u))) ==
      WarningFor("Resource", u.compute.arm.ocpus.percentage) +
      WarningFor("Resource", u.compute.arm.memoryGB.percentage) +
      WarningFor("Resource", u.blockStorage.total.percentage) +
      WarningFor("Resource", u.objectStorage.total.percentage) +
      WarningFor("Resource", u.publicIPs.percentage)
  {
    var rs := Resources(StatusPercentages(u));
    assert rs == [rs[0], rs[1], rs[2], rs[3], rs[4]];
    FiveReadings(rs[0], rs[1], rs[2], rs[3], rs[4]);
  }

  /** The percentage a single metric contributes to the warnings. */
  function HighOf(p: int): seq<int>
  {
    if p >= 80 then [p] else []
  }

  /** Percentages distributes over concatenation. */
  lemma PercentagesAppend(a: seq<Reading>, b: seq<Reading>)
    ensures Percentages(a + b) == Percentages(a) + Percentages(b)
  {
    assert forall i :: 0 <= i < |a + b| ==> Percentages(a + b)[i] == (Percentages(a) + Percentages(b))[i];
  }

  /** The percentages of five guarded warnings are the five guarded percentages. */
  lemma PercentagesOfFive(n0: string, n1: string, n2: string, n3: string, n4: string,
                          p0: int, p1: int, p2: int, p3: int, p4: int)
    ensures Percentages(WarningFor(n0, p0) + WarningFor(n1, p1) + WarningFor(n2, p2) +
                        WarningFor(n3, p3) + WarningFor(n4, p4)) ==
            HighOf(p0) + HighOf(p1) + HighOf(p2) + HighOf(p3) + HighOf(p4)
  {
    var a0, a1, a2, a3, a4 := WarningFor(n0, p0), WarningFor(n1, p1), WarningFor(n2, p2),
      WarningFor(n3, p3), WarningFor(n4, p4);
    PercentagesAppend(a0 + a1 + a2 + a3, a4);
    PercentagesAppend(a0 + a1 + a2, a3);
    PercentagesAppend(a0 + a1, a2);
    PercentagesAppend(a0, a1);
    forall name: string, p: int ensures Percentages(WarningFor(name, p)) == HighOf(p) {
      assert Percentages(WarningFor(name, p)) == if p >= 80 then [p] else [];
    }
  }

  /** Both handlers warn about the same percentages, only in a different order. */
  lemma WarningsAgreeUpToOrder(u: AllUsage)
    ensures |High(UsageReadings(u))| == |High(Resources(StatusPercentages(u)))|
    ensures multiset(Percentages(High(UsageReadings(u)))) ==
            multiset(Percentages(High(Resources(StatusPercentages(u)))))
  {
    var p0, p1, p2, p3, p4 := u.compute.arm.ocpus.percentage, u.compute.arm.memoryGB.percentage,
      u.blockStorage.total.percentage, u.publicIPs.percentage, u.objectStorage.total.percentage;
    var a := Percentages(High(UsageReadings(u)));
    assert a == HighOf(p0) + HighOf(p1) + HighOf(p2) + HighOf(p3) + HighOf(p4) by {
      UsageWarningOrder(u);
      PercentagesOfFive("ARM OCPUs", "ARM Memory", "Block Storage", "Public IPs", "Object Storage", p0, p1, p2, p3, p4);
    }
    var b := Percentages(High(Resources(StatusPercentages(u))));
    assert b == HighOf(p0) + HighOf(p1) + HighOf(p2) + HighOf(p4) + HighOf(p3) by {
      StatusWarningOrder(u);
      PercentagesOfFive("Resource", "Resource", "Resource", "Resource", "Resource", p0, p1, p2, p4, p3);
    }
    assert multiset(a) == multiset(b);
    assert |multiset(a)| == |multiset(b)|;
  }
}
