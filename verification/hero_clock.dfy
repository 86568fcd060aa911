/**
 The two intervals the hero component registers when it mounts, driven by a
 millisecond virtual clock in place of the browser's timers. The clock
 starts at 0 when the intervals are registered; an interval of period p fires
 at every positive multiple of p until cleanup clears it. When both are due
 at the same instant the model delivers the group fire first; the two fires
 commute, so the order does not matter.
 */
module HeroClock {
  import opened HeroScene

  /** Period of the interval that switches the group. */
  const GroupPeriod: nat := 4000

  /** Period of the interval that advances the index. */
  const IndexPeriod: nat := 1500

  /** The virtual time, whether the two intervals are still registered, and
      the scene they act on. */
  datatype Clock = Clock(now: nat, live: bool, scene: Scene)

  /** The component mounts with the initial scene and registers both intervals. */
  function Mount(): (c: Clock)
    ensures c.now == 0 && c.live && Valid(c.scene)
    ensures c.scene.activation == Activation(Frontend, 0)
  {
    Clock(0, true, InitialScene())
  }

  /** The effect's cleanup clears both intervals; the scene is left as it is. */
  function Cleanup(c: Clock): (r: Clock)
    ensures !r.live
    ensures r.now == c.now && r.scene == c.scene
  {
    c.(live := false)
  }

  /** The scene after the intervals due at time t, if still registered, have fired. */
  function FireDue(s: Scene, t: nat, live: bool): (r: Scene)
    requires Valid(s)
    ensures Valid(r) && r.icons == s.icons
    ensures !live ==> r == s
  {
    if !live then s
    else
      var s1 := if t % GroupPeriod == 0 then Step(s, GroupTimer) else s;
      if t % IndexPeriod == 0 then Step(s1, IndexTimer) else s1
  }

  /** One millisecond passes. */
  function Tick(c: Clock): (r: Clock)
    requires Valid(c.scene)
    ensures r.now == c.now + 1 && r.live == c.live
    ensures Valid(r.scene) && r.scene.icons == c.scene.icons
  {
    Clock(c.now + 1, c.live, FireDue(c.scene, c.now + 1, c.live))
  }

  /** n milliseconds pass. */
  function Advance(c: Clock, n: nat): (r: Clock)
    requires Valid(c.scene)
    ensures r.now == c.now + n && r.live == c.live
    ensures Valid(r.scene) && r.scene.icons == c.scene.icons
  {
    if n == 0 then c else Tick(Advance(c, n - 1))
  }

  /** g with n group switches applied. */
  function FlipTimes(g: Group, n: nat): Group {
    if n == 0 then g else Flip(FlipTimes(g, n - 1))
  }

  /** An even number of switches is no switch; an odd number is one. */
  lemma {:induction false} FlipTimesParity(g: Group, n: nat)
    ensures FlipTimes(g, n) == (if n % 2 == 0 then g else Flip(g))
  {
    if n > 0 {
      FlipTimesParity(g, n - 1);
      FlipTwice(g);
    }
  }

  /** Counting multiples of p: passing t adds one exactly when t is a multiple of p. */
  lemma DivStep(t: nat, p: nat)
    requires t > 0 && p > 0
    ensures t / p == (t - 1) / p + (if t % p == 0 then 1 else 0)
  {
    var q, r := (t - 1) / p, (t - 1) % p;
    assert t - 1 == q * p + r && 0 <= r < p;
    if r == p - 1 {
      assert t == (q + 1) * p;
      DivUnique(t, p, q + 1, 0);
    } else {
      assert t == q * p + (r + 1);
      DivUnique(t, p, q, r + 1);
    }
  }

  lemma DivUnique(t: int, p: int, q: int, r: int)
    requires p > 0 && 0 <= r < p && t == q * p + r
    ensures t / p == q && t % p == r
  {
    var q', r' := t / p, t % p;
    assert t == q' * p + r' && 0 <= r' < p;
    if q' < q {
      MulAtLeast(q - q', p);
    } else if q' > q {
      MulAtLeast(q' - q, p);
    }
  }

  lemma MulAtLeast(a: int, p: int)
    requires a >= 1 && p > 0
    ensures a * p >= p
  {
    assert a * p == (a - 1) * p + p;
  }

  /** What one millisecond does to the activation of a live clock. */
  lemma TickActivation(c: Clock)
    requires Valid(c.scene) && c.live
    ensures var a := c.scene.activation;
            var t := c.now + 1;
            var a1 := if t % GroupPeriod == 0 then GroupFire(a) else a;
            Tick(c).scene.activation == (if t % IndexPeriod == 0 then IndexFire(a1) else a1)
  {
  }

  lemma GroupCount(t: nat)
    requires t > 0
    ensures FlipTimes(Frontend, t / GroupPeriod)
         == (if t % GroupPeriod == 0 then Flip(FlipTimes(Frontend, (t - 1) / GroupPeriod))
             else FlipTimes(Frontend, (t - 1) / GroupPeriod))
  {
    DivStep(t, GroupPeriod);
  }

  lemma IndexCount(t: nat)
    requires t > 0
    ensures (t / IndexPeriod) % TechCount
         == (if t % IndexPeriod == 0 then ((t - 1) / IndexPeriod % TechCount + 1) % TechCount
             else (t - 1) / IndexPeriod % TechCount)
  {
    DivStep(t, IndexPeriod);
    var q := (t - 1) / IndexPeriod;
    assert (q % TechCount + 1) % TechCount == (q + 1) % TechCount;
  }

  /** The activation a fresh mount reaches after t milliseconds: the group has
      switched once per elapsed multiple of 4000, and the index has stepped
      once per elapsed multiple of 1500, modulo 3. */
  lemma {:induction false} ActivationAt(t: nat)
    ensures Advance(Mount(), t).scene.activation
         == Activation(FlipTimes(Frontend, t / GroupPeriod), (t / IndexPeriod) % TechCount)
  {
    if t > 0 {
      var c := Advance(Mount(), t - 1);
      ActivationAt(t - 1);
      assert c.now == t - 1 && c.live;
      TickActivation(c);
      assert Advance(Mount(), t) == Tick(c);
      GroupCount(t);
      IndexCount(t);
    }
  }

  /** The closed form of ActivationAt, with the group switches counted by parity. */
  lemma ActivationAtParity(t: nat)
    ensures Advance(Mount(), t).scene.activation.group
         == (if (t / GroupPeriod) % 2 == 0 then Frontend else Backend)
    ensures Advance(Mount(), t).scene.activation.index == (t / IndexPeriod) % TechCount
  {
    ActivationAt(t);
    FlipTimesParity(Frontend, t / GroupPeriod);
  }

  /** ActivationAtParity for a t whose quotients and remainders are known. */
  lemma ActivationFromQuotients(t: nat, qg: nat, rg: nat, qi: nat, ri: nat)
    requires t == qg * GroupPeriod + rg && rg < GroupPeriod
    requires t == qi * IndexPeriod + ri && ri < IndexPeriod
    ensures Advance(Mount(), t).scene.activation
         == Activation(if qg % 2 == 0 then Frontend else Backend, qi % TechCount)
  {
    DivUnique(t, GroupPeriod, qg, rg);
    DivUnique(t, IndexPeriod, qi, ri);
    ActivationAtParity(t);
  }

  /** The activation at instants of the first eight seconds: the index steps
      every 1500 ms, the group switches at 4000 without touching the index,
      and switches back at 8000. */
  lemma Timeline()
    ensures Advance(Mount(), 0).scene.activation == Activation(Frontend, 0)
    ensures Advance(Mount(), 1500).scene.activation == Activation(Frontend, 1)
    ensures Advance(Mount(), 3000).scene.activation == Activation(Frontend, 2)
    ensures Advance(Mount(), 3999).scene.activation == Activation(Frontend, 2)
    ensures Advance(Mount(), 4000).scene.activation == Activation(Backend, 2)
    ensures Advance(Mount(), 4500).scene.activation == Activation(Backend, 0)
    ensures Advance(Mount(), 6000).scene.activation == Activation(Backend, 1)
    ensures Advance(Mount(), 8000).scene.activation == Activation(Frontend, 2)
  {
    ActivationFromQuotients(0, 0, 0, 0, 0);
    ActivationFromQuotients(1500, 0, 1500, 1, 0);
    ActivationFromQuotients(3000, 0, 3000, 2, 0);
    ActivationFromQuotients(3999, 0, 3999, 2, 999);
    ActivationFromQuotients(4000, 1, 0, 2, 1000);
    ActivationFromQuotients(4500, 1, 500, 3, 0);
    ActivationFromQuotients(6000, 1, 2000, 4, 0);
    ActivationFromQuotients(8000, 2, 0, 5, 500);
  }

  /** The pair (group, index) repeats every 72000 ms: two group periods give
      8000 and three index periods give 4500, whose least common multiple is
      72000. */
  lemma ActivationPeriodic(t: nat)
    ensures Advance(Mount(), t + 72000).scene.activation == Advance(Mount(), t).scene.activation
  {
    var g, i := t / GroupPeriod, t / IndexPeriod;
    assert (t + 72000) / GroupPeriod == g + 18 by {
      DivUnique(t + 72000, GroupPeriod, g + 18, t % GroupPeriod);
    }
    assert (t + 72000) / IndexPeriod == i + 48 by {
      DivUnique(t + 72000, IndexPeriod, i + 48, t % IndexPeriod);
    }
    assert (g + 18) % 2 == g % 2;
    assert (i + 48) % TechCount == i % TechCount;
    ActivationAtParity(t);
    ActivationAtParity(t + 72000);
  }

  /** 12000 ms, the least common multiple of the two periods, is not a period
      of the pair: both intervals fire at 12000 and the group has switched
      three times, so the backend group is active where the frontend was at 0. */
  lemma TwelveSecondsIsNotAPeriod()
    ensures Advance(Mount(), 12000).scene.activation == Activation(Backend, 2)
    ensures Advance(Mount(), 12000).scene.activation != Mount().scene.activation
  {
    ActivationFromQuotients(12000, 3, 0, 8, 0);
  }

  /** After cleanup no interval fires again, so the clock alone never changes
      the scene (frames and pointer events are not part of the clock). */
  lemma {:induction false} CleanupFreezes(c: Clock, n: nat)
    requires Valid(c.scene)
    ensures Advance(Cleanup(c), n).scene == c.scene
  {
    if n > 0 {
      CleanupFreezes(c, n - 1);
    }
  }
}
