/**
 * Sums and the thrust-weighted harmonic-mean Isp that EngineCluster, Stage and RocketStage
 * compute over their members.
 */
module Aggregates {
  import opened Physics

  /** What a member part reports: dry mass, mass, thrust and Isp. */
  datatype Reading = Reading(dryMass: real, mass: real, thrust: real, isp: real)

  /** The four quantities that are summed over members; Flow is a member's thrust / Isp. */
  datatype Quantity = DryMass | Mass | Thrust | Flow

  function Of(r: Reading, q: Quantity): real
  {
    match q
    case DryMass => r.dryMass
    case Mass => r.mass
    case Thrust => r.thrust
    case Flow => Div(r.thrust, r.isp)
  }

  /** Left-to-right accumulation of one quantity, as the source's loops do it. */
  function SumOf(rs: seq<Reading>, q: Quantity): real
  {
    if rs == [] then 0.0 else SumOf(rs[..|rs| - 1], q) + Of(rs[|rs| - 1], q)
  }

  /** Sigma thrust / Sigma (thrust / Isp). */
  function HarmonicIsp(rs: seq<Reading>): real
  {
    Div(SumOf(rs, Thrust), SumOf(rs, Flow))
  }

  /**
   * The accumulator loop of the parts package's EngineCluster and RocketStage constructors:
   * dry mass, total mass, thrust and thrust / Isp summed member by member.
   */
  method Accumulate(rs: seq<Reading>) returns (dryMass: real, totalMass: real, thrust: real, flow: real)
    ensures dryMass == SumOf(rs, DryMass) && totalMass == SumOf(rs, Mass)
    ensures thrust == SumOf(rs, Thrust) && flow == SumOf(rs, Flow)
  {
    dryMass, totalMass, thrust, flow := 0.0, 0.0, 0.0, 0.0;
    var i := 0;
    while i < |rs|
      invariant 0 <= i <= |rs|
      invariant dryMass == SumOf(rs[..i], DryMass) && totalMass == SumOf(rs[..i], Mass)
      invariant thrust == SumOf(rs[..i], Thrust) && flow == SumOf(rs[..i], Flow)
    {
      assert rs[..i + 1][..i] == rs[..i];
      dryMass := dryMass + rs[i].dryMass;
      totalMass := totalMass + rs[i].mass;
      thrust := thrust + rs[i].thrust;
      flow := flow + Div(rs[i].thrust, rs[i].isp);
      i := i + 1;
    }
    assert rs[..i] == rs;
  }

  /** One member with its Isp multiplied by s. */
  function Rescaled(r: Reading, s: real): Reading
  {
    r.(isp := s * r.isp)
  }

  /** The members with every Isp multiplied by s: what a change of the Isp scaler does to them. */
  function ScaleIsp(rs: seq<Reading>, s: real): (out: seq<Reading>)
    ensures |out| == |rs|
  {
    if rs == [] then [] else ScaleIsp(rs[..|rs| - 1], s) + [Rescaled(rs[|rs| - 1], s)]
  }

  lemma {:induction false} ScaleIspAt(rs: seq<Reading>, s: real, i: nat)
    requires i < |rs|
    ensures ScaleIsp(rs, s)[i] == Rescaled(rs[i], s)
  {
    if i < |rs| - 1 {
      ScaleIspAt(rs[..|rs| - 1], s, i);
    }
  }

  /** Scaling by 1 changes no member. */
  lemma ScaleIspByOne(rs: seq<Reading>)
    ensures ScaleIsp(rs, 1.0) == rs
  {
    forall i | 0 <= i < |rs|
      ensures ScaleIsp(rs, 1.0)[i] == rs[i]
    {
      ScaleIspAt(rs, 1.0, i);
    }
  }

  lemma SumOfOne(r: Reading, q: Quantity)
    ensures SumOf([r], q) == Of(r, q)
  {
    assert [r][..0] == [];
  }

  lemma SumOfTwo(r: Reading, r': Reading, q: Quantity)
    ensures SumOf([r, r'], q) == Of(r, q) + Of(r', q)
  {
    assert [r, r'][..1] == [r];
    SumOfOne(r, q);
  }

  /** n copies of one member. */
  function Repeat(r: Reading, n: nat): (out: seq<Reading>)
    ensures |out| == n
    ensures forall i :: 0 <= i < n ==> out[i] == r
  {
    if n == 0 then [] else Repeat(r, n - 1) + [r]
  }

  lemma {:induction false} SumOfAppend(a: seq<Reading>, b: seq<Reading>, q: Quantity)
    ensures SumOf(a + b, q) == SumOf(a, q) + SumOf(b, q)
    decreases |b|
  {
    if b == [] {
      assert a + b == a;
    } else {
      var b' := b[..|b| - 1];
      assert (a + b)[..|a + b| - 1] == a + b';
      SumOfAppend(a, b', q);
    }
  }

  lemma OneMoreCopy(a: real, x: real, m: real)
    requires a == Times(x, m)
    ensures a + x == Times(x, m + 1.0)
  {
  }

  /** n identical members contribute n times one member. */
  lemma {:induction false} SumOfRepeat(r: Reading, n: nat, q: Quantity)
    ensures SumOf(Repeat(r, n), q) == Times(Of(r, q), n as real)
  {
    var s := Repeat(r, n);
    if n > 0 {
      assert s[..n - 1] == Repeat(r, n - 1);
      SumOfRepeat(r, n - 1, q);
      OneMoreCopy(SumOf(s[..n - 1], q), Of(r, q), (n - 1) as real);
    } else {
      assert s == [];
    }
  }

  /** Scaling every Isp by s leaves thrust, and so its sum, alone. */
  lemma {:induction false} ScaleIspThrust(rs: seq<Reading>, s: real)
    ensures SumOf(ScaleIsp(rs, s), Thrust) == SumOf(rs, Thrust)
  {
    if rs != [] {
      assert ScaleIsp(rs, s)[..|rs| - 1] == ScaleIsp(rs[..|rs| - 1], s);
      ScaleIspThrust(rs[..|rs| - 1], s);
    }
  }

  /** One member's flow under an Isp scaled by s != 0 is its old flow divided by s. */
  lemma ScaleFlowOne(r: Reading, s: real)
    requires s != 0.0
    ensures Times(Of(Rescaled(r, s), Flow), s) == Of(r, Flow)
  {
    var t, isp := r.thrust, r.isp;
    if isp != 0.0 {
      var f, g := Div(t, s * isp), Div(t, isp);
      DivMul(t, s * isp);
      DivMul(t, isp);
      assert f * (s * isp) == t;
      assert (f * s) * isp == t;
      assert g * isp == t;
      assert (f * s - g) * isp == 0.0;
    } else {
      assert s * isp == 0.0;
    }
  }

  /** Pointwise "b times s is a" carries over to the sums. */
  lemma {:induction false} SumOfTimes(a: seq<Reading>, b: seq<Reading>, q: Quantity, s: real)
    requires |a| == |b|
    requires forall i :: 0 <= i < |a| ==> Times(Of(b[i], q), s) == Of(a[i], q)
    ensures Times(SumOf(b, q), s) == SumOf(a, q)
  {
    if a != [] {
      var n := |a| - 1;
      SumOfTimes(a[..n], b[..n], q, s);
      var x, y := SumOf(b[..n], q), Of(b[n], q);
      assert SumOf(b, q) == x + y;
      assert Times(x + y, s) == Times(x, s) + Times(y, s);
    }
  }

  lemma ScaleFlowEach(rs: seq<Reading>, s: real)
    requires s != 0.0
    ensures forall i :: 0 <= i < |rs| ==> Times(Of(ScaleIsp(rs, s)[i], Flow), s) == Of(rs[i], Flow)
  {
    forall i | 0 <= i < |rs|
      ensures Times(Of(ScaleIsp(rs, s)[i], Flow), s) == Of(rs[i], Flow)
    {
      ScaleIspAt(rs, s, i);
      ScaleFlowOne(rs[i], s);
    }
  }

  /** Scaling every Isp by s != 0 divides the summed flow by s. */
  lemma ScaleIspFlow(rs: seq<Reading>, s: real)
    requires s != 0.0
    ensures Times(SumOf(ScaleIsp(rs, s), Flow), s) == SumOf(rs, Flow)
  {
    ScaleFlowEach(rs, s);
    SumOfTimes(rs, ScaleIsp(rs, s), Flow, s);
  }

  /** Members whose Isp is all zero contribute no flow (Div yields 0 there). */
  lemma {:induction false} ZeroIspFlow(rs: seq<Reading>)
    requires forall i :: 0 <= i < |rs| ==> rs[i].isp == 0.0
    ensures SumOf(rs, Flow) == 0.0
  {
    if rs != [] {
      ZeroIspFlow(rs[..|rs| - 1]);
    }
  }

  /** The Isp scaler commutes with the harmonic mean: the mean of the scaled Isps is the scaled mean. */
  lemma ScaledHarmonicIsp(rs: seq<Reading>, s: real)
    ensures HarmonicIsp(ScaleIsp(rs, s)) == s * HarmonicIsp(rs)
  {
    var t, f, f' := SumOf(rs, Thrust), SumOf(rs, Flow), SumOf(ScaleIsp(rs, s), Flow);
    if s == 0.0 {
      forall i | 0 <= i < |rs|
        ensures ScaleIsp(rs, s)[i].isp == 0.0
      {
        ScaleIspAt(rs, s, i);
      }
      ZeroIspFlow(ScaleIsp(rs, s));
    } else {
      ScaleIspThrust(rs, s);
      assert HarmonicIsp(ScaleIsp(rs, s)) == Div(t, f');
      ScaleIspFlow(rs, s);
      DivRescaled(t, f, f', s);
    }
  }

  /** Members that all have Isp c != 0 contribute a flow of thrust / c. */
  lemma {:induction false} UniformFlow(rs: seq<Reading>, c: real)
    requires c != 0.0
    requires forall i :: 0 <= i < |rs| ==> rs[i].isp == c
    ensures Times(SumOf(rs, Flow), c) == SumOf(rs, Thrust)
  {
    if rs != [] {
      var n := |rs| - 1;
      UniformFlow(rs[..n], c);
      var x, y := SumOf(rs[..n], Flow), Of(rs[n], Flow);
      DivMul(rs[n].thrust, c);
      assert Times(y, c) == rs[n].thrust;
      assert SumOf(rs, Flow) == x + y;
      assert Times(x + y, c) == Times(x, c) + Times(y, c);
    }
  }

  /** If every member has the same Isp c, the harmonic mean is c. */
  lemma UniformHarmonicIsp(rs: seq<Reading>, c: real)
    requires c != 0.0
    requires SumOf(rs, Thrust) != 0.0
    requires forall i :: 0 <= i < |rs| ==> rs[i].isp == c
    ensures HarmonicIsp(rs) == c
  {
    UniformFlow(rs, c);
    var f := SumOf(rs, Flow);
    assert f != 0.0;
    DivOfTimes(SumOf(rs, Thrust), f, c);
  }
}
