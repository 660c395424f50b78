# Nuclear modification ratio: the envelope computation

This project models the numerical core of `npdfs.py`, a script that plots the nuclear
modification ratio R(x, Q²) = xf_A(x, Q²) / xf_p(x, Q²) of a nuclear PDF set (EPPS21 for
Pb208) against a proton PDF set (CT18A), with an uncertainty band.

For one Q² value and one flavour, the script does the following at every point x of a grid:

- It evaluates every member of the proton set and of the nuclear set into two scratch
  arrays, `xgp` and `xgA`.
- It reduces each array with its set's own uncertainty rule to a triple
  (central, errplus, errminus).
- It forms the bounds upper = central + errplus and lower = central − errminus on each side.
- It writes three arrays at index ix:
  - `R_max_val[ix]`, the maximum of the four cross-ratios upper/lower_A ÷ upper/lower_p;
  - `R_min_val[ix]`, their minimum;
  - `R_val[ix]`, the central ratio c_A / c_p.

The project has two modules:

- `RatioEnvelope` (`envelope.dfy`) holds the arithmetic of one point as functions:
  - `Max4` and `Min4` follow Python's `max` and `min`;
  - `Envelope` gives the band;
  - `CentralRatio` gives the central ratio;
  - `Ratio` is the whole point.

  It also holds the lemmas about these functions: bounds ordering, the identity case,
  the collapse of the band when every bound is positive, and when the central ratio lies
  in the band and when it does not.
- `RatioGrid` (`grid.dfy`) holds the per-Q² loop as imperative code over arrays:
  - `FillMembers` runs the member loops over a scratch array;
  - `ReducePoint` refills both scratch arrays and reduces each one;
  - `WritePoint` writes one index of the three result arrays;
  - `FillRatioArrays` allocates the zero arrays and runs the x loop.

  Each method is proved against the specification function `SampleAt`. The value at index
  ix is a function of `xs[ix]` and the slice (the two sets, the flavour and Q²) only.

The PDF library is abstracted:

- A set is an `Ensemble` value: a member count, a member-evaluation function of
  (pdgid, x, Q², member), and an uncertainty rule from the sequence of member values to a
  triple.
- Both functions are parameters of the model, about which nothing is assumed.
- The lemmas that need the library's promise of non-negative errors take it as the
  precondition `WellFormed`.

Quantities are Dafny `real`s. In Python, dividing a float by zero raises
`ZeroDivisionError`, and the script stops. The model makes this an explicit outcome:

- `Ratio` returns `ZeroDivision` exactly when a proton bound or the proton central value
  is 0.
- `FillRatioArrays` returns `ZeroDivisionAt(ix)` and stops at the first such point.

The model keeps the order of the writes. If only c_p is 0, line 82 and line 83 have
already written the band at ix before line 84 divides by zero. If a proton bound is 0,
nothing is written at ix.

Three points about what the code promises:

- The code never checks for a zero denominator. The only signal is the interpreter's
  `ZeroDivisionError`, and the model reports where it arises.
- The band contains the central ratio only under conditions. `CentralInBand` proves
  R_min ≤ R_central ≤ R_max when the errors are non-negative and the proton interval
  [lower_p, upper_p] lies on one side of 0. Both proton bounds positive is the usual case.
- `CentralCanLeaveBand` gives a concrete point where the proton interval straddles 0 and
  the central ratio falls outside the band.

## Model

| member | source | states |
|---|---|---|
| `RatioEnvelope.BoundsBracketCentral` | npdfs.py:76-79 | with non-negative errors, lower ≤ central ≤ upper, and upper − lower is errplus + errminus |
| `RatioEnvelope.Max4` | npdfs.py:82 | the result is at least each of the four arguments and equal to one of them |
| `RatioEnvelope.Min4` | npdfs.py:83 | the result is at most each of the four arguments and equal to one of them |
| `RatioEnvelope.Envelope` | npdfs.py:82-83 | for non-zero proton bounds, the band's high end is the greatest and its low end the least of the four cross-ratios, so low ≤ high |
| `RatioEnvelope.CentralRatio` | npdfs.py:84 | for c_p ≠ 0, the central ratio times c_p is c_A |
| `RatioEnvelope.Ratio` | npdfs.py:76-84 | a point yields a sample iff upper_p, lower_p and c_p are all non-zero (otherwise a division by zero); the sample's band is the envelope of the four candidates and its central value times c_p is c_A |
| `RatioEnvelope.EnvelopeUnique` | npdfs.py:82-83 | the least and greatest candidate are unique, so the band is determined by the candidates |
| `RatioEnvelope.CentralIgnoresErrors` | npdfs.py:84 | two pairs of triples with the same central values give the same central ratio, whatever their errors |
| `RatioEnvelope.IdenticalTriples` | npdfs.py:82-84 | identical proton and nuclear triples give central ratio 1 and a band containing 1 |
| `RatioEnvelope.CentralInBand` | npdfs.py:76-84 | with non-negative errors and a proton interval on one side of 0, the point is defined and R_min ≤ c_A / c_p ≤ R_max |
| `RatioEnvelope.PositiveBoundsCorners` | npdfs.py:76-83 | with non-negative errors and positive lower bounds, R_min = lower_A / upper_p and R_max = upper_A / lower_p |
| `RatioEnvelope.CentralCanLeaveBand` | npdfs.py:76-84 | proton (0.5, 1, 1), whose interval straddles 0, with nucleus (1, 0, 0) gives a central ratio above R_max |
| `RatioEnvelope.WorkedExample` | npdfs.py:76-84 | proton (1.0, 0.1, 0.1) and nucleus (1.2, 0.1, 0.1) give central 1.2, R_min 1.0, R_max 1.3 / 0.9 |
| `RatioGrid.MemberValues` | npdfs.py:65-69 | one value per member of the set, the j-th being member j evaluated at (pdgid, x, Q²) |
| `RatioGrid.FillMembers` | npdfs.py:65-69 | after the member loop the whole scratch array holds the current point's member values, none left from an earlier x |
| `RatioGrid.ReducePoint` | npdfs.py:64-73 | both scratch arrays are overwritten for the current x and the triples handed back are the sets' uncertainty rules applied to them |
| `RatioGrid.WritePoint` | npdfs.py:76-84 | ok iff the point is defined; then slot ix of the three arrays holds the point's sample; the band is written iff both proton bounds are non-zero; no other slot changes |
| `RatioGrid.FilledStep` | npdfs.py:63-84 | writing the sample of point n extends the filled prefix of the three arrays by one and keeps the zero suffix |
| `RatioGrid.StopStep` | npdfs.py:82-84 | stopping at point n after the partial writes keeps the filled prefix, marks n with the band written only when the proton bounds are non-zero, and leaves the rest zero |
| `RatioGrid.FillRatioArrays` | npdfs.py:57-84 | the three fresh arrays have length len(xs); the slice completes iff every point is defined, and then every index ix holds the sample of xs[ix]; otherwise it stops at the first failing index, with the prefix filled and the suffix still 0 |

## Left out

- The PDF library (LHAPDF): `getPDFSet`, `mkPDF`, `xfxQ2`, `size` and `uncertainty`
  (npdfs.py:7-17, 28-33, 72-73). It is a foreign numerical library. The model takes member
  evaluation and the uncertainty rule as functions inside `Ensemble`. Loading a set, and
  its failure, are not modelled.
- Reduction idempotence (calling the uncertainty rule twice gives the same triple) holds
  because the rule is a Dafny function. There is nothing separate to prove.
- Plotting and file export: matplotlib, `PdfPages`, figure layout, legend and the
  reference line (npdfs.py:1-5, 36-48, 86-93). This is presentational I/O.
- The x-grid `np.logspace(-4, 0, 50)` (npdfs.py:51). This is floating-point
  exponentiation. The grid is an input sequence `xs`, and no monotonicity is assumed or
  proved.
- The outer loops over nuclei and over the (Q², colour) pairs (npdfs.py:20-26, 53). They
  only repeat the per-slice computation with other configuration values. `pdgid` and Q²
  are fields of `Slice`.
- IEEE floating point: rounding, infinities, NaN and signed zero. The model uses exact
  reals. A division by zero is the error outcome described above, which is what Python
  raises for floats.
- The scratch arrays `xgp` and `xgA` in `FillRatioArrays` are local. Their final contents
  are not part of the method's result, but `ReducePoint` states them at every x.
