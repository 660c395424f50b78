/** The ratio envelope of one (x, Q^2) point: the two uncertainty triples of the
    proton and the nuclear ensemble are turned into a central ratio c_A / c_p and a
    band [R_min, R_max] spanned by the four ratios of the upper/lower bounds. */
module RatioEnvelope {

  /** What an ensemble's uncertainty rule reports at one point. */
  datatype Uncertainty = Uncertainty(central: real, errplus: real, errminus: real)

  /** The band drawn around the central ratio. */
  datatype Band = Band(low: real, high: real)

  /** One point of a ratio curve: central ratio, band minimum, band maximum. */
  datatype Sample = Sample(central: real, low: real, high: real)

  /** A point either yields a sample or stops with a division by zero. */
  datatype Outcome = Ok(sample: Sample) | ZeroDivision

  /** The uncertainty rules of the ensembles report non-negative errors. */
  predicate WellFormed(u: Uncertainty) {
    u.errplus >= 0.0 && u.errminus >= 0.0
  }

  /** The upper and the lower bound of one side. */
  function Upper(u: Uncertainty): real {
    u.central + u.errplus
  }

  function Lower(u: Uncertainty): real {
    u.central - u.errminus
  }

  /** Non-negative errors put the central value between the two bounds. */
  lemma BoundsBracketCentral(u: Uncertainty)
    requires WellFormed(u)
    ensures Lower(u) <= u.central <= Upper(u)
    ensures Upper(u) - Lower(u) == u.errplus + u.errminus
  {
  }

  /** Python's max over four arguments: keep the running maximum, replace it by a
      strictly larger argument. */
  function Max4(a: real, b: real, c: real, d: real): (r: real)
    ensures a <= r && b <= r && c <= r && d <= r
    ensures r == a || r == b || r == c || r == d
  {
    var m1 := if b > a then b else a;
    var m2 := if c > m1 then c else m1;
    if d > m2 then d else m2
  }

  /** Python's min over four arguments, in the same left-to-right manner. */
  function Min4(a: real, b: real, c: real, d: real): (r: real)
    ensures r <= a && r <= b && r <= c && r <= d
    ensures r == a || r == b || r == c || r == d
  {
    var m1 := if b < a then b else a;
    var m2 := if c < m1 then c else m1;
    if d < m2 then d else m2
  }

  /** Both proton bounds are non-zero, so the four bound ratios exist. */
  predicate BandDefined(p: Uncertainty) {
    Upper(p) != 0.0 && Lower(p) != 0.0
  }

  /** In addition the proton central value is non-zero, so the central ratio exists. */
  predicate Defined(p: Uncertainty) {
    BandDefined(p) && p.central != 0.0
  }

  /** The four cross-ratios, in the order the source lists them. */
  function Candidates(p: Uncertainty, a: Uncertainty): seq<real>
    requires BandDefined(p)
  {
    [Upper(a) / Upper(p), Upper(a) / Lower(p), Lower(a) / Upper(p), Lower(a) / Lower(p)]
  }

  /** lo and hi are the least and the greatest element of cs. */
  predicate IsEnvelope(cs: seq<real>, lo: real, hi: real) {
    lo in cs && hi in cs && forall c :: c in cs ==> lo <= c <= hi
  }

  /** The band: maximum and minimum of the four candidates. */
  function Envelope(p: Uncertainty, a: Uncertainty): (b: Band)
    requires BandDefined(p)
    ensures IsEnvelope(Candidates(p, a), b.low, b.high)
    ensures b.low <= b.high
  {
    var cs := Candidates(p, a);
    Band(Min4(cs[0], cs[1], cs[2], cs[3]), Max4(cs[0], cs[1], cs[2], cs[3]))
  }

  /** The central ratio c_A / c_p: the number that times c_p gives c_A. */
  function CentralRatio(p: Uncertainty, a: Uncertainty): (r: real)
    requires p.central != 0.0
    ensures r * p.central == a.central
  {
    a.central / p.central
  }

  /** The whole point computation, with the division by zero the source would raise. */
  function Ratio(p: Uncertainty, a: Uncertainty): (o: Outcome)
    ensures o.Ok? <==> Defined(p)
    ensures o.Ok? ==> IsEnvelope(Candidates(p, a), o.sample.low, o.sample.high)
    ensures o.Ok? ==> o.sample.central * p.central == a.central
    ensures o.Ok? ==> o.sample.low <= o.sample.high
  {
    if !Defined(p) then
      ZeroDivision
    else
      var b := Envelope(p, a);
      Ok(Sample(CentralRatio(p, a), b.low, b.high))
  }

  /** The envelope determines the band: agreeing bounds are equal. */
  lemma EnvelopeUnique(cs: seq<real>, lo: real, hi: real, lo': real, hi': real)
    requires IsEnvelope(cs, lo, hi) && IsEnvelope(cs, lo', hi')
    ensures lo == lo' && hi == hi'
  {
  }

  /** The central ratio uses only the two central values, never the errors. */
  lemma CentralIgnoresErrors(p: Uncertainty, a: Uncertainty, p': Uncertainty, a': Uncertainty)
    requires Defined(p) && Defined(p')
    requires p.central == p'.central && a.central == a'.central
    ensures Ratio(p, a).sample.central == Ratio(p', a').sample.central
  {
  }

  /** Identical triples give the ratio 1, and 1 lies in the band. */
  lemma IdenticalTriples(u: Uncertainty)
    requires Defined(u)
    ensures Ratio(u, u).Ok?
    ensures Ratio(u, u).sample.central == 1.0
    ensures Ratio(u, u).sample.low <= 1.0 <= Ratio(u, u).sample.high
  {
  }

  /** Dividing by a positive number keeps the order of numerators, by a negative one
      reverses it. */
  lemma DivideNumerators(lo: real, hi: real, d: real)
    requires lo <= hi && d != 0.0
    ensures d > 0.0 ==> lo / d <= hi / d
    ensures d < 0.0 ==> hi / d <= lo / d
  {
  }

  /** On an interval of denominators that does not contain 0, a larger denominator gives
      a smaller quotient of a non-negative numerator and a larger one of a non-positive one. */
  lemma DivideDenominators(n: real, lo: real, hi: real)
    requires lo <= hi
    requires 0.0 < lo || hi < 0.0
    ensures n >= 0.0 ==> n / hi <= n / lo
    ensures n <= 0.0 ==> n / lo <= n / hi
  {
  }

  /** With non-negative errors and a proton interval on one side of 0, the central ratio
      lies in the band. */
  lemma CentralInBand(p: Uncertainty, a: Uncertainty)
    requires WellFormed(p) && WellFormed(a)
    requires 0.0 < Lower(p) || Upper(p) < 0.0
    ensures Ratio(p, a).Ok?
    ensures Ratio(p, a).sample.low <= Ratio(p, a).sample.central <= Ratio(p, a).sample.high
  {
    BoundsBracketCentral(p);
    BoundsBracketCentral(a);
    var s := Ratio(p, a).sample;
    var cs := Candidates(p, a);
    assert cs[0] in cs && cs[1] in cs && cs[2] in cs && cs[3] in cs;
    var ca, cp := a.central, p.central;
    assert s.central == ca / cp;
    // ca / cp lies between ca / Upper(p) and ca / Lower(p) ...
    DivideDenominators(ca, Lower(p), cp);
    DivideDenominators(ca, cp, Upper(p));
    // ... and each of those between the candidates with the same denominator.
    DivideNumerators(Lower(a), ca, Upper(p));
    DivideNumerators(ca, Upper(a), Upper(p));
    DivideNumerators(Lower(a), ca, Lower(p));
    DivideNumerators(ca, Upper(a), Lower(p));
  }

  /** When every bound is positive the band is spanned by the two extreme corners:
      lower_A / upper_p below and upper_A / lower_p above. */
  lemma PositiveBoundsCorners(p: Uncertainty, a: Uncertainty)
    requires WellFormed(p) && WellFormed(a)
    requires Lower(p) > 0.0 && Lower(a) > 0.0
    ensures Ratio(p, a).Ok?
    ensures Ratio(p, a).sample.low == Lower(a) / Upper(p)
    ensures Ratio(p, a).sample.high == Upper(a) / Lower(p)
  {
    BoundsBracketCentral(p);
    BoundsBracketCentral(a);
    var s := Ratio(p, a).sample;
    var cs := Candidates(p, a);
    DivideNumerators(Lower(a), Upper(a), Upper(p));
    DivideNumerators(Lower(a), Upper(a), Lower(p));
    DivideDenominators(Upper(a), Lower(p), Upper(p));
    DivideDenominators(Lower(a), Lower(p), Upper(p));
    assert forall c :: c in cs ==> cs[2] <= c <= cs[1];
    assert cs[1] in cs && cs[2] in cs;
    EnvelopeUnique(cs, s.low, s.high, cs[2], cs[1]);
  }

  /** A proton triple whose interval [-0.5, 1.5] straddles 0, and a nuclear triple without
      errors: the band is [-2, 2/3] while the central ratio is 2. */
  const StraddlingProton := Uncertainty(0.5, 1.0, 1.0)
  const ExactNucleus := Uncertainty(1.0, 0.0, 0.0)

  /** Without a proton interval on one side of 0 the central ratio can leave the band. */
  lemma CentralCanLeaveBand()
    ensures Ratio(StraddlingProton, ExactNucleus).Ok?
    ensures Ratio(StraddlingProton, ExactNucleus).sample.central
      > Ratio(StraddlingProton, ExactNucleus).sample.high
  {
    var p, a := StraddlingProton, ExactNucleus;
    assert Upper(p) == 1.5 && Lower(p) == -0.5 && Upper(a) == 1.0 && Lower(a) == 1.0;
    var high := Envelope(p, a).high;
    assert high < 1.0 by {
      assert high == Max4(1.0 / 1.5, 1.0 / -0.5, 1.0 / 1.5, 1.0 / -0.5);
    }
    assert CentralRatio(p, a) == 2.0;
  }

  /** A worked point: proton (1.0, 0.1, 0.1) and nucleus (1.2, 0.1, 0.1) give the
      central ratio 1.2 and the band [1.0, 1.3 / 0.9]. */
  lemma WorkedExample()
    ensures Ratio(Uncertainty(1.0, 0.1, 0.1), Uncertainty(1.2, 0.1, 0.1))
      == Ok(Sample(1.2, 1.0, 1.3 / 0.9))
  {
    var p, a := Uncertainty(1.0, 0.1, 0.1), Uncertainty(1.2, 0.1, 0.1);
    assert Candidates(p, a) == [1.3 / 1.1, 1.3 / 0.9, 1.0, 1.1 / 0.9];
  }
}
