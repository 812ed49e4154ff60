/**
 Confirming an OTA image: the firmware is marked valid after 60 s online, measured with the 32-bit
 millisecond counter.
 */
module FirmwareHealth {
  import opened Basics

  const WRAP: nat := 0x1_0000_0000
  const STABLE_MS: nat := 60000

  /** The counter at a true time. */
  function Millis(t: nat): uint32 {
    t % WRAP
  }

  /** One pass of the loop: whether it was online, and the true times of its two counter reads. */
  datatype Pass = Pass(online: bool, first: nat, second: nat)

  datatype Health = Health(validated: bool, stableSince: uint32)

  function Checked(h: Health, p: Pass): Health {
    if h.validated then h
    else if !p.online then Health(false, 0)
    else
      var since := if h.stableSince == 0 then Millis(p.first) else h.stableSince;
      Health((Millis(p.second) - since) % WRAP >= STABLE_MS, since)
  }

  class Validator {
    var firmwareValidated: bool
    var firmwareStableSince: uint32

    ghost function View(): Health
      reads this
    {
      Health(firmwareValidated, firmwareStableSince)
    }

    constructor ()
      ensures View() == Health(false, 0)
    {
      firmwareValidated, firmwareStableSince := false, 0;
    }

    method Check(p: Pass)
      modifies this
      ensures View() == Checked(old(View()), p)
    {
      if !firmwareValidated {
        if p.online {
          if firmwareStableSince == 0 {
            firmwareStableSince := Millis(p.first);
          }
          if (Millis(p.second) - firmwareStableSince) % WRAP >= STABLE_MS {
            firmwareValidated := true;
          }
        } else {
          firmwareStableSince := 0;
        }
      }
    }
  }

  // ---- runs ----

  ghost predicate InOrder(ps: seq<Pass>) {
    && (forall i :: 0 <= i < |ps| ==> ps[i].first <= ps[i].second)
    && (forall i, j :: 0 <= i < j < |ps| ==> ps[i].second <= ps[j].first)
  }

  function After(ps: seq<Pass>): Health {
    if ps == [] then Health(false, 0) else Checked(After(ps[..|ps| - 1]), ps[|ps| - 1])
  }

  /** Every pass from m to k was online, and together they span the given true time. */
  ghost predicate OnlineFor(ps: seq<Pass>, m: nat, k: nat, ms: nat)
    requires m <= k < |ps|
  {
    (forall i :: m <= i <= k ==> ps[i].online) && ps[k].second - ps[m].first >= ms
  }

  /** While counting, `stableSince` is the counter at the first pass of an unbroken online stretch. */
  lemma {:induction false} CountsFrom(ps: seq<Pass>) returns (m: nat)
    requires InOrder(ps) && !After(ps).validated && After(ps).stableSince != 0
    ensures m < |ps| && After(ps).stableSince == Millis(ps[m].first) && forall i :: m <= i < |ps| ==> ps[i].online
  {
    var init, last := ps[..|ps| - 1], ps[|ps| - 1];
    if After(init).stableSince == 0 {
      m := |ps| - 1;
    } else {
      m := CountsFrom(init);
    }
  }

  lemma {:induction false} TrueTime(a: nat, b: nat)
    requires a <= b && (Millis(b) - Millis(a)) % WRAP >= STABLE_MS
    ensures b - a >= STABLE_MS
  {
    if b - a < WRAP {
      Subtract(a, b);
    }
  }

  lemma {:induction false} Subtract(a: nat, b: nat)
    requires a <= b && b - a < WRAP
    ensures (Millis(b) - Millis(a)) % WRAP == b - a
  {
    var q := a / WRAP;
    assert a == q * WRAP + Millis(a);
    assert b / WRAP == q || b / WRAP == q + 1;
  }

  /** Marked valid only after a true 60 s or more in which every pass was online, whatever the counter did. */
  lemma {:induction false} ValidOnlyAfterStable(ps: seq<Pass>) returns (m: nat, k: nat)
    requires InOrder(ps) && After(ps).validated
    ensures m <= k < |ps| && OnlineFor(ps, m, k, 60000)
  {
    var init, last := ps[..|ps| - 1], ps[|ps| - 1];
    if After(init).validated {
      m, k := ValidOnlyAfterStable(init);
    } else {
      k := |ps| - 1;
      if After(init).stableSince == 0 {
        m := k;
      } else {
        m := CountsFrom(init);
      }
      TrueTime(ps[m].first, last.second);
    }
  }

  // ---- when it is marked, exactly ----

  /** What an online stretch from m counts from, seen before pass n: its first counter reading that is not 0. */
  function Since(ps: seq<Pass>, m: nat, n: nat): uint32
    requires m <= n <= |ps|
  {
    if n == m then 0
    else if Since(ps, m, n - 1) != 0 then Since(ps, m, n - 1)
    else Millis(ps[n - 1].first)
  }

  /** Pass k of the stretch finds the counter 60 s past that reading. */
  predicate Due(ps: seq<Pass>, m: nat, k: nat)
    requires m <= k < |ps|
  {
    (Millis(ps[k].second) - Since(ps, m, k + 1)) % 0x1_0000_0000 >= 60000
  }

  /** An online stretch that begins at m with nothing confirmed and nothing counted. */
  ghost predicate Stretch(ps: seq<Pass>, m: nat) {
    m <= |ps| && (forall i :: m <= i < |ps| ==> ps[i].online) && After(ps[..m]) == Health(false, 0)
  }

  lemma {:induction false} SincePrefix(ps: seq<Pass>, m: nat, n: nat)
    requires m <= n < |ps|
    ensures Since(ps[..|ps| - 1], m, n) == Since(ps, m, n)
  {
    if m < n {
      SincePrefix(ps, m, n - 1);
    }
  }

  ghost predicate SomeDue(ps: seq<Pass>, m: nat)
    requires m <= |ps|
  {
    exists k :: m <= k < |ps| && Due(ps, m, k)
  }

  lemma {:induction false} SomeDueSnoc(ps: seq<Pass>, m: nat)
    requires m < |ps|
    ensures SomeDue(ps, m) <==> SomeDue(ps[..|ps| - 1], m) || Due(ps, m, |ps| - 1)
  {
    var init := ps[..|ps| - 1];
    forall k | m <= k < |init|
      ensures Due(init, m, k) <==> Due(ps, m, k)
    {
      SincePrefix(ps, m, k + 1);
    }
    if SomeDue(init, m) {
      var k :| m <= k < |init| && Due(init, m, k);
      assert Due(ps, m, k);
    }
    if SomeDue(ps, m) {
      var k :| m <= k < |ps| && Due(ps, m, k);
      assert k < |init| ==> Due(init, m, k);
    }
  }

  /** The firmware is marked in a stretch exactly when one of its passes was due; till then it counts from Since. */
  lemma {:induction false} StretchCounts(ps: seq<Pass>, m: nat)
    requires Stretch(ps, m)
    ensures if SomeDue(ps, m) then After(ps).validated
            else After(ps) == Health(false, Since(ps, m, |ps|))
  {
    if m == |ps| {
      assert ps[..m] == ps;
    } else {
      var init := ps[..|ps| - 1];
      assert init[..m] == ps[..m];
      StretchCounts(init, m);
      SomeDueSnoc(ps, m);
      SincePrefix(ps, m, |ps| - 1);
      CountStep(ps, m, After(init));
      hide Checked, Due, Since, SomeDue;
    }
  }

  lemma {:induction false} CountStep(ps: seq<Pass>, m: nat, h: Health)
    requires m < |ps| && ps[|ps| - 1].online
    ensures h.validated ==> Checked(h, ps[|ps| - 1]) == h
    ensures h == Health(false, Since(ps, m, |ps| - 1)) ==>
              Checked(h, ps[|ps| - 1]) == Health(Due(ps, m, |ps| - 1), Since(ps, m, |ps|))
  {
  }

  /** Exactly when an online stretch marks the firmware. */
  lemma {:induction false} MarkedIffDue(ps: seq<Pass>, m: nat)
    requires Stretch(ps, m)
    ensures After(ps).validated <==> exists k :: m <= k < |ps| && Due(ps, m, k)
  {
    StretchCounts(ps, m);
  }

  /** A stretch of good passes starts with nothing counted, unless the firmware is confirmed already. */
  lemma {:induction false} OfflineForgets(ps: seq<Pass>, m: nat)
    requires m <= |ps| && (m == 0 || !ps[m - 1].online)
    ensures After(ps[..m]).validated || After(ps[..m]) == Health(false, 0)
  {
    if m > 0 {
      assert ps[..m][..m - 1] == ps[..m - 1];
    }
  }

  lemma {:induction false} ValidStays(ps: seq<Pass>, m: nat)
    requires m <= |ps| && After(ps[..m]).validated
    ensures After(ps).validated
  {
    if m < |ps| {
      assert ps[..|ps| - 1][..m] == ps[..m];
      ValidStays(ps[..|ps| - 1], m);
    } else {
      assert ps[..m] == ps;
    }
  }

  lemma {:induction false} SinceFirst(ps: seq<Pass>, m: nat, n: nat)
    requires m < n <= |ps| && Millis(ps[m].first) != 0
    ensures Since(ps, m, n) == Millis(ps[m].first)
  {
    if n > m + 1 {
      SinceFirst(ps, m, n - 1);
    }
  }

  /** So any pass 60 s into a stretch marks it, unless a whole counter period went by or the stretch began at 0. */
  lemma {:induction false} StableIsMarked(ps: seq<Pass>, m: nat)
    requires InOrder(ps) && m < |ps| && OnlineFor(ps, m, |ps| - 1, 60000)
    requires m == 0 || !ps[m - 1].online
    requires Millis(ps[m].first) != 0 && ps[|ps| - 1].second - ps[m].first < WRAP
    ensures After(ps).validated
  {
    OfflineForgets(ps, m);
    if After(ps[..m]).validated {
      ValidStays(ps, m);
    } else {
      var last := |ps| - 1;
      SinceFirst(ps, m, |ps|);
      Subtract(ps[m].first, ps[last].second);
      assert Due(ps, m, last);
      MarkedIffDue(ps, m);
    }
  }

  /** A run that is 60 s online and not marked: its first pass reads 0, which the code takes for not started. */
  lemma {:induction false} LateFromZero()
    ensures var ps := [Pass(true, 0, 0), Pass(true, 60000, 60000)];
            InOrder(ps) && OnlineFor(ps, 0, 1, 60000) && !After(ps).validated
    ensures After([Pass(true, 0, 0), Pass(true, 1, 1), Pass(true, 60001, 60001)]).validated
  {
    var a, b := Pass(true, 0, 0), Pass(true, 60000, 60000);
    RunOf([], a);
    RunOf([a], b);
    var c, d := Pass(true, 1, 1), Pass(true, 60001, 60001);
    RunOf([a], c);
    RunOf([a, c], d);
    assert [] + [a] == [a] && [a] + [b] == [a, b] && [a] + [c] == [a, c] && [a, c] + [d] == [a, c, d];
  }

  /** And one whose second pass comes a whole counter period after the first. */
  lemma {:induction false} LateAfterPeriod()
    ensures var ps := [Pass(true, 1, 1), Pass(true, WRAP + 1, WRAP + 1)];
            InOrder(ps) && OnlineFor(ps, 0, 1, 60000) && !After(ps).validated
  {
    var a, b := Pass(true, 1, 1), Pass(true, WRAP + 1, WRAP + 1);
    RunOf([], a);
    RunOf([a], b);
    assert [] + [a] == [a] && [a] + [b] == [a, b];
  }

  lemma {:induction false} RunOf(ps: seq<Pass>, p: Pass)
    ensures After(ps + [p]) == Checked(After(ps), p)
  {
    assert (ps + [p])[..|ps|] == ps;
  }
}
