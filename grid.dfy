/** One Q^2 slice of the ratio plot: for every x of the grid, evaluate all members of the
    proton and of the nuclear ensemble into scratch arrays, reduce each side to an
    uncertainty triple, and write the central ratio and the band into three arrays. */
module RatioGrid {
  import opened RatioEnvelope

  /** A loaded PDF set as the core sees it: its member count, the evaluation of one
      member at (flavour, x, Q^2), and the set's own uncertainty rule over the values
      of all members. */
  datatype Ensemble = Ensemble(
    size: nat,
    member: (int, real, real, nat) -> real,
    uncertainty: seq<real> -> Uncertainty)

  /** What one slice is computed from: the proton set, the nuclear set, the flavour
      and the Q^2 value. */
  datatype Slice = Slice(proton: Ensemble, nucleus: Ensemble, pdgid: int, q2: real)

  /** The values of all members of e at one (flavour, x, Q^2) point, in member order. */
  function MemberValues(e: Ensemble, pdgid: int, x: real, q2: real): (v: seq<real>)
    ensures |v| == e.size
    ensures forall j :: 0 <= j < |v| ==> v[j] == e.member(pdgid, x, q2, j)
  {
    seq(e.size, j requires 0 <= j => e.member(pdgid, x, q2, j))
  }

  /** The triples that the two uncertainty rules give at the point x of the slice. */
  function ProtonTriple(s: Slice, x: real): Uncertainty {
    s.proton.uncertainty(MemberValues(s.proton, s.pdgid, x, s.q2))
  }

  function NuclearTriple(s: Slice, x: real): Uncertainty {
    s.nucleus.uncertainty(MemberValues(s.nucleus, s.pdgid, x, s.q2))
  }

  /** What the point x of the slice should yield. */
  function SampleAt(s: Slice, x: real): Outcome {
    Ratio(ProtonTriple(s, x), NuclearTriple(s, x))
  }

  /** How a slice ends: every x filled, or a division by zero at the x of this index. */
  datatype Status = Complete | ZeroDivisionAt(index: nat)

  /** The entries before n hold the samples of their grid points. */
  predicate Filled(s: Slice, xs: seq<real>, vals: seq<real>, mins: seq<real>, maxs: seq<real>, n: nat) {
    n <= |xs| && n <= |vals| && n <= |mins| && n <= |maxs| &&
    forall ix :: 0 <= ix < n ==>
      var o := SampleAt(s, xs[ix]);
      o.Ok? && vals[ix] == o.sample.central && mins[ix] == o.sample.low && maxs[ix] == o.sample.high
  }

  /** The entries from n on still hold their initial 0. */
  predicate Untouched(vals: seq<real>, mins: seq<real>, maxs: seq<real>, n: nat) {
    |mins| == |vals| && |maxs| == |vals| &&
    forall ix :: n <= ix < |vals| ==> vals[ix] == 0.0 && mins[ix] == 0.0 && maxs[ix] == 0.0
  }

  /** Index k is where the division by zero happened: the band is written exactly when the
      two proton bounds are non-zero, the central ratio is never written. */
  predicate StoppedAt(s: Slice, xs: seq<real>, vals: seq<real>, mins: seq<real>, maxs: seq<real>, k: nat) {
    k < |xs| && k < |vals| && k < |mins| && k < |maxs| &&
    var p, a := ProtonTriple(s, xs[k]), NuclearTriple(s, xs[k]);
    !Defined(p) && vals[k] == 0.0 &&
    if BandDefined(p) then mins[k] == Envelope(p, a).low && maxs[k] == Envelope(p, a).high
    else mins[k] == 0.0 && maxs[k] == 0.0
  }

  /** Writing the sample of point n into slot n of each array extends the filled prefix by
      one and leaves the untouched suffix after n untouched. */
  lemma FilledStep(s: Slice, xs: seq<real>, vals: seq<real>, mins: seq<real>, maxs: seq<real>, n: nat)
    requires Filled(s, xs, vals, mins, maxs, n) && Untouched(vals, mins, maxs, n)
    requires n < |xs| && |vals| == |xs| && SampleAt(s, xs[n]).Ok?
    ensures var o := SampleAt(s, xs[n]).sample;
      var vals', mins', maxs' := vals[n := o.central], mins[n := o.low], maxs[n := o.high];
      Filled(s, xs, vals', mins', maxs', n + 1) && Untouched(vals', mins', maxs', n + 1)
  {
  }

  /** Stopping at point n after writing only what the source writes before its division
      by zero keeps the filled prefix, marks n as the stopping point and leaves the rest
      untouched. */
  lemma StopStep(s: Slice, xs: seq<real>, vals: seq<real>, mins: seq<real>, maxs: seq<real>,
                 vals': seq<real>, mins': seq<real>, maxs': seq<real>, n: nat)
    requires Filled(s, xs, vals, mins, maxs, n) && Untouched(vals, mins, maxs, n)
    requires n < |xs| && |vals| == |xs|
    requires !Defined(ProtonTriple(s, xs[n])) && vals' == vals
    requires var p, a := ProtonTriple(s, xs[n]), NuclearTriple(s, xs[n]);
      if BandDefined(p) then
        mins' == mins[n := Envelope(p, a).low] && maxs' == maxs[n := Envelope(p, a).high]
      else mins' == mins && maxs' == maxs
    ensures Filled(s, xs, vals', mins', maxs', n)
    ensures StoppedAt(s, xs, vals', mins', maxs', n)
    ensures Untouched(vals', mins', maxs', n + 1)
  {
  }

  /** Overwrite buf with the values of all members of e at (pdgid, x, q2). */
  method FillMembers(e: Ensemble, pdgid: int, x: real, q2: real, buf: array<real>)
    requires buf.Length == e.size
    modifies buf
    ensures buf[..] == MemberValues(e, pdgid, x, q2)
  {
    for imem := 0 to e.size
      invariant forall j :: 0 <= j < imem ==> buf[j] == e.member(pdgid, x, q2, j)
    {
      buf[imem] := e.member(pdgid, x, q2, imem);
    }
  }

  /** Evaluate every member of both sets at x into the scratch arrays, overwriting all of
      their previous contents, and reduce each side to its uncertainty triple. */
  method ReducePoint(s: Slice, x: real, xgp: array<real>, xgA: array<real>)
    returns (uncP: Uncertainty, uncA: Uncertainty)
    requires xgp.Length == s.proton.size && xgA.Length == s.nucleus.size && xgp != xgA
    modifies xgp, xgA
    ensures xgp[..] == MemberValues(s.proton, s.pdgid, x, s.q2)
    ensures xgA[..] == MemberValues(s.nucleus, s.pdgid, x, s.q2)
    ensures uncP == ProtonTriple(s, x) && uncA == NuclearTriple(s, x)
  {
    FillMembers(s.proton, s.pdgid, x, s.q2, xgp);
    FillMembers(s.nucleus, s.pdgid, x, s.q2, xgA);
    uncP := s.proton.uncertainty(xgp[..]);
    uncA := s.nucleus.uncertainty(xgA[..]);
  }

  /** The arithmetic of one point on the two triples, writing slot ix of the three arrays:
      the band first, then the central ratio. ok is false where the source would divide by
      zero; the band is then written only if the two proton bounds are non-zero. */
  method WritePoint(uncP: Uncertainty, uncA: Uncertainty, ix: nat,
                    rVal: array<real>, rMin: array<real>, rMax: array<real>) returns (ok: bool)
    requires rVal != rMin && rVal != rMax && rMin != rMax
    requires ix < rVal.Length && ix < rMin.Length && ix < rMax.Length
    modifies rVal, rMin, rMax
    ensures ok == Defined(uncP)
    ensures ok ==> Ratio(uncP, uncA) == Ok(Sample(rVal[ix], rMin[ix], rMax[ix]))
    ensures BandDefined(uncP) ==> Envelope(uncP, uncA) == Band(rMin[ix], rMax[ix])
    ensures ok ==> rVal[..] == old(rVal[..])[ix := rVal[ix]]
    ensures !ok ==> rVal[..] == old(rVal[..])
    ensures BandDefined(uncP) ==> rMin[..] == old(rMin[..])[ix := rMin[ix]] && rMax[..] == old(rMax[..])[ix := rMax[ix]]
    ensures !BandDefined(uncP) ==> rMin[..] == old(rMin[..]) && rMax[..] == old(rMax[..])
  {
    var upperP := uncP.central + uncP.errplus;
    var lowerP := uncP.central - uncP.errminus;
    var upperA := uncA.central + uncA.errplus;
    var lowerA := uncA.central - uncA.errminus;
    if upperP == 0.0 || lowerP == 0.0 {
      return false;
    }
    rMax[ix] := Max4(upperA / upperP, upperA / lowerP, lowerA / upperP, lowerA / lowerP);
    rMin[ix] := Min4(upperA / upperP, upperA / lowerP, lowerA / upperP, lowerA / lowerP);
    if uncP.central == 0.0 {
      return false;
    }
    rVal[ix] := uncA.central / uncP.central;
    return true;
  }

  /** One Q^2 slice over the grid xs. Entry ix depends only on xs[ix] and the slice. On a
      zero denominator the slice stops at that index. */
  method FillRatioArrays(s: Slice, xs: seq<real>)
    returns (rVal: array<real>, rMin: array<real>, rMax: array<real>, status: Status)
    ensures fresh(rVal) && fresh(rMin) && fresh(rMax)
    ensures rVal.Length == |xs| && rMin.Length == |xs| && rMax.Length == |xs|
    ensures status.Complete? <==> forall ix :: 0 <= ix < |xs| ==> SampleAt(s, xs[ix]).Ok?
    ensures status.Complete? ==> Filled(s, xs, rVal[..], rMin[..], rMax[..], |xs|)
    ensures status.ZeroDivisionAt? ==>
      && Filled(s, xs, rVal[..], rMin[..], rMax[..], status.index)
      && StoppedAt(s, xs, rVal[..], rMin[..], rMax[..], status.index)
      && Untouched(rVal[..], rMin[..], rMax[..], status.index + 1)
  {
    var xgp := new real[s.proton.size](_ => 0.0);
    var xgA := new real[s.nucleus.size](_ => 0.0);
    rMax := new real[|xs|](_ => 0.0);
    rMin := new real[|xs|](_ => 0.0);
    rVal := new real[|xs|](_ => 0.0);
    status := Complete;
    var ix := 0;
    while ix < |xs|
      invariant 0 <= ix <= |xs|
      invariant Filled(s, xs, rVal[..], rMin[..], rMax[..], ix)
      invariant Untouched(rVal[..], rMin[..], rMax[..], ix)
    {
      var uncP, uncA := ReducePoint(s, xs[ix], xgp, xgA);
      ghost var vals0, mins0, maxs0 := rVal[..], rMin[..], rMax[..];
      var ok := WritePoint(uncP, uncA, ix, rVal, rMin, rMax);
      if !ok {
        StopStep(s, xs, vals0, mins0, maxs0, rVal[..], rMin[..], rMax[..], ix);
        status := ZeroDivisionAt(ix);
        return;
      }
      FilledStep(s, xs, vals0, mins0, maxs0, ix);
      ix := ix + 1;
    }
  }
}
