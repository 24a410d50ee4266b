/** `construct_xics`: extracted ion chromatograms for every ion of every
    compound, matched against the MS1 spectra of one file. */
module Processing {
  import opened Common
  import opened Measurements
  import Array2

  /** One recorded point of a chromatogram: the start time of the spectrum a
      peak belongs to, and the intensity of that peak. */
  datatype Sample = Sample(time: real, intensity: real)

  function Min(a: nat, b: nat): nat {
    if a <= b then a else b
  }

  /** The m/z window searched for an ion of mass `mass`: three mass
      accuracies either side, with the low end raised to zero when it would
      be negative. */
  function MassRange(mass: real, massAccuracy: real): (r: (real, real))
    ensures r.0 >= 0.0
    ensures forall mz :: InRange(mz, r.0, r.1) <==>
      0.0 <= mz && mass - 3.0 * massAccuracy <= mz <= mass + 3.0 * massAccuracy
  {
    var range := (mass - 3.0 * massAccuracy, mass + 3.0 * massAccuracy);
    if range.0 < 0.0 then (0.0, range.1) else range
  }

  predicate InRange(mz: real, lo: real, hi: real) {
    mz >= lo && mz <= hi
  }

  /** A spectrum whose peak data, when present, yields both of its arrays
      (otherwise `unwrap()` on the missing one panics). */
  predicate ArraysReadable(s: Spectrum) {
    s.arrays.Some? ==> s.arrays.value.mzs.Some? && s.arrays.value.intensities.Some?
  }

  predicate Readable(data: seq<Spectrum>) {
    forall i :: 0 <= i < |data| ==> ArraysReadable(data[i])
  }

  /** The samples recorded from the first `n` aligned (m/z, intensity) pairs
      of one spectrum, in array order. */
  function PeakMatches(time: real, mzs: seq<real>, intensities: seq<real>, lo: real, hi: real, n: nat): seq<Sample>
    requires n <= |mzs| && n <= |intensities|
  {
    if n == 0 then []
    else
      PeakMatches(time, mzs, intensities, lo, hi, n - 1)
      + (if InRange(mzs[n - 1], lo, hi) then [Sample(time, intensities[n - 1])] else [])
  }

  /** The samples one spectrum contributes: none without peak data, and the
      in-window peaks of the two arrays zipped (so cut to the shorter one). */
  function SpectrumMatches(s: Spectrum, lo: real, hi: real): seq<Sample> {
    match s.arrays
    case None => []
    case Some(arrays) =>
      if arrays.mzs.Some? && arrays.intensities.Some? then
        var mzs, intensities := arrays.mzs.value, arrays.intensities.value;
        PeakMatches(s.startTime, mzs, intensities, lo, hi, Min(|mzs|, |intensities|))
      else []
  }

  /** The samples recorded from all spectra, in spectrum order. */
  function Matches(data: seq<Spectrum>, lo: real, hi: real): seq<Sample> {
    if |data| == 0 then []
    else Matches(data[..|data| - 1], lo, hi) + SpectrumMatches(data[|data| - 1], lo, hi)
  }

  /** The `scan_times` vector: the first component of every sample. */
  function Times(samples: seq<Sample>): (ts: seq<real>)
    ensures |ts| == |samples|
    ensures forall k :: 0 <= k < |samples| ==> ts[k] == samples[k].time
  {
    seq(|samples|, k requires 0 <= k < |samples| => samples[k].time)
  }

  /** The `intensities` vector: the second component of every sample. */
  function Intensities(samples: seq<Sample>): (xs: seq<real>)
    ensures |xs| == |samples|
    ensures forall k :: 0 <= k < |samples| ==> xs[k] == samples[k].intensity
  {
    seq(|samples|, k requires 0 <= k < |samples| => samples[k].intensity)
  }

  /** Peak `j` of spectrum `s` lies in the window `[lo, hi]` and has a partner
      in the intensity array. */
  predicate PeakInWindow(s: Spectrum, j: nat, lo: real, hi: real) {
    && s.arrays.Some?
    && s.arrays.value.mzs.Some?
    && s.arrays.value.intensities.Some?
    && j < |s.arrays.value.mzs.value|
    && j < |s.arrays.value.intensities.value|
    && InRange(s.arrays.value.mzs.value[j], lo, hi)
  }

  /** The sample recorded for peak `j` of spectrum `s`. */
  function PeakSample(s: Spectrum, j: nat): Sample
    requires s.arrays.Some? && s.arrays.value.intensities.Some?
    requires j < |s.arrays.value.intensities.value|
  {
    Sample(s.startTime, s.arrays.value.intensities.value[j])
  }

  /** Lines 45-76 for one ion, given its collected vectors: the XIC array is
      the 2 x n matrix whose rows are the scan times and the intensities;
      `None` is a panic. */
  function XicUpdate(ionData: IonData, scanTimes: seq<real>, intensities: seq<real>, data: seq<Spectrum>): (r: Option<IonData>)
    requires |scanTimes| == |intensities|
    ensures r.Some? ==> MsIntensity in r.value && (r.value[MsIntensity].None? <==> |intensities| == 0)
    ensures r.None? ==> |intensities| >= 2
  {
    var xic := Array2.FromShapeVec(2, |intensities|, scanTimes + intensities);
    if xic.None? then None
    else if Array2.IsEmpty(xic.value) then Some(ionData[MsIntensity := None])
    else
      var updated := ionData[MsIntensity := Some(Array2.Sum(xic.value))];
      if MsIntensity !in updated || xic.value.cols < 2 then Some(updated)
      else
        var maxIndex := Array2.MaxByIndex(Array2.Column(xic.value, 1));
        if maxIndex.None? then Some(updated[Rt := Some(0.0)])
        else if maxIndex.value < |data| then Some(updated[Rt := Some(data[maxIndex.value].startTime)])
        else None
  }

  /** The new attribute bag of one ion, or `None` when processing it panics:
      an unparseable label, unreadable peak data, or an index past the end
      of `data`. */
  function IonResult(ionName: string, ionData: IonData, data: seq<Spectrum>, massAccuracy: real,
                     parseMass: string -> Option<real>): (r: Option<IonData>)
    ensures parseMass(ionName).None? ==> r.None?
    ensures r.Some? ==> MsIntensity in r.value
  {
    match parseMass(ionName)
    case None => None
    case Some(mass) =>
      var (lo, hi) := MassRange(mass, massAccuracy);
      WindowResult(ionData, data, lo, hi)
  }

  /** The new attribute bag for the window `[lo, hi]`, or `None` when reading
      the peaks or picking the RT spectrum panics. */
  function WindowResult(ionData: IonData, data: seq<Spectrum>, lo: real, hi: real): Option<IonData> {
    if !Readable(data) then None
    else
      var samples := Matches(data, lo, hi);
      XicUpdate(ionData, Times(samples), Intensities(samples), data)
  }

  /** The samples collected for an ion whose label parses. */
  function IonSamples(ionName: string, data: seq<Spectrum>, massAccuracy: real,
                      parseMass: string -> Option<real>): seq<Sample>
    requires parseMass(ionName).Some?
  {
    var (lo, hi) := MassRange(parseMass(ionName).value, massAccuracy);
    Matches(data, lo, hi)
  }
  /** Once the label parses and the spectra are readable, the ion's result
      is the XIC update over its samples. */
  lemma IonResultReadable(ionName: string, ionData: IonData, data: seq<Spectrum>, massAccuracy: real,
                          parseMass: string -> Option<real>)
    requires parseMass(ionName).Some? && Readable(data)
    ensures var samples := IonSamples(ionName, data, massAccuracy, parseMass);
      IonResult(ionName, ionData, data, massAccuracy, parseMass)
        == XicUpdate(ionData, Times(samples), Intensities(samples), data)
  {
  }


  /** The index that the code uses to pick the RT spectrum once two or more
      samples exist: `max_by` over `column(1)`, which is the pair
      (time, intensity) of the SECOND sample, ties going to the later one. */
  function RtIndex(samples: seq<Sample>): nat
    requires |samples| >= 2
  {
    if samples[1].time > samples[1].intensity then 0 else 1
  }

  /** The sum of the whole 2 x n XIC array: every matched scan time plus
      every matched intensity. */
  function XicTotal(samples: seq<Sample>): real {
    Array2.SeqSum(Times(samples)) + Array2.SeqSum(Intensities(samples))
  }

  /** Every ion of the compound is processed without a panic. */
  predicate CompoundCompletes(c: Compound, data: seq<Spectrum>, massAccuracy: real, parseMass: string -> Option<real>) {
    forall ionName :: ionName in c.ions ==> IonResult(ionName, c.ions[ionName], data, massAccuracy, parseMass).Some?
  }

  /** The compound with every ion's attribute bag replaced by its result. */
  function UpdateCompound(c: Compound, data: seq<Spectrum>, massAccuracy: real, parseMass: string -> Option<real>): Compound
    requires CompoundCompletes(c, data, massAccuracy, parseMass)
  {
    c.(ions := map ionName | ionName in c.ions :: IonResult(ionName, c.ions[ionName], data, massAccuracy, parseMass).value)
  }

  /** Some ion of some compound panics. */
  predicate Panics(data: seq<Spectrum>, ionList: seq<Compound>, massAccuracy: real, parseMass: string -> Option<real>) {
    exists c :: 0 <= c < |ionList| && !CompoundCompletes(ionList[c], data, massAccuracy, parseMass)
  }

  /** What `construct_xics` returns, independent of the order in which a
      hash map hands out the ions. */
  function Xics(data: seq<Spectrum>, ionList: seq<Compound>, massAccuracy: real,
                parseMass: string -> Option<real>): (r: Outcome<seq<Compound>>)
    ensures r.Done? ==> |r.value| == |ionList|
  {
    if Panics(data, ionList, massAccuracy, parseMass) then Panicked
    else Done(seq(|ionList|, c requires 0 <= c < |ionList| => UpdateCompound(ionList[c], data, massAccuracy, parseMass)))
  }

  /** Every ion's bag replaced by its result is the updated compound. */
  lemma CompoundUpdated(c: Compound, ions: map<string, IonData>, data: seq<Spectrum>, massAccuracy: real,
                        parseMass: string -> Option<real>)
    requires ions.Keys == c.ions.Keys
    requires forall l :: l in ions ==>
      IonResult(l, c.ions[l], data, massAccuracy, parseMass).Some?
      && ions[l] == IonResult(l, c.ions[l], data, massAccuracy, parseMass).value
    ensures CompoundCompletes(c, data, massAccuracy, parseMass)
    ensures c.(ions := ions) == UpdateCompound(c, data, massAccuracy, parseMass)
  {
  }

  /** Compounds that all completed make up the result of `Xics`. */
  lemma XicsDone(data: seq<Spectrum>, ionList: seq<Compound>, compounds: seq<Compound>, massAccuracy: real,
                 parseMass: string -> Option<real>)
    requires |compounds| == |ionList|
    requires forall i :: 0 <= i < |ionList| ==>
      CompoundCompletes(ionList[i], data, massAccuracy, parseMass)
      && compounds[i] == UpdateCompound(ionList[i], data, massAccuracy, parseMass)
    ensures Xics(data, ionList, massAccuracy, parseMass) == Done(compounds)
  {
    assert !Panics(data, ionList, massAccuracy, parseMass);
    var expected := seq(|ionList|, c requires 0 <= c < |ionList| => UpdateCompound(ionList[c], data, massAccuracy, parseMass));
    assert compounds == expected;
  }

  // ---------------------------------------------------------------------------
  // What is recorded (lines 22-43)
  // ---------------------------------------------------------------------------

  lemma {:induction false} PeakMatchesIff(time: real, mzs: seq<real>, intensities: seq<real>, lo: real, hi: real,
                                          n: nat, x: Sample)
    requires n <= |mzs| && n <= |intensities|
    ensures x in PeakMatches(time, mzs, intensities, lo, hi, n) <==>
      exists j :: 0 <= j < n && InRange(mzs[j], lo, hi) && x == Sample(time, intensities[j])
  {
    if n > 0 {
      PeakMatchesIff(time, mzs, intensities, lo, hi, n - 1, x);
    }
  }

  lemma SpectrumMatchesIff(s: Spectrum, lo: real, hi: real, x: Sample)
    ensures x in SpectrumMatches(s, lo, hi) <==> exists j: nat :: PeakInWindow(s, j, lo, hi) && x == PeakSample(s, j)
  {
    if s.arrays.Some? && s.arrays.value.mzs.Some? && s.arrays.value.intensities.Some? {
      var mzs, intensities := s.arrays.value.mzs.value, s.arrays.value.intensities.value;
      PeakMatchesIff(s.startTime, mzs, intensities, lo, hi, Min(|mzs|, |intensities|), x);
      if x in SpectrumMatches(s, lo, hi) {
        var j :| 0 <= j < Min(|mzs|, |intensities|) && InRange(mzs[j], lo, hi) && x == Sample(s.startTime, intensities[j]);
        assert PeakInWindow(s, j, lo, hi) && x == PeakSample(s, j);
      }
      if exists j: nat :: PeakInWindow(s, j, lo, hi) && x == PeakSample(s, j) {
        var j: nat :| PeakInWindow(s, j, lo, hi) && x == PeakSample(s, j);
        assert 0 <= j < Min(|mzs|, |intensities|) && InRange(mzs[j], lo, hi) && x == Sample(s.startTime, intensities[j]);
      }
    }
  }

  /** A sample is recorded exactly when it is the (start time, intensity) of
      an in-window peak of some spectrum that has both arrays; nothing outside
      the window, and nothing from a spectrum without peak data, is
      recorded. */
  lemma {:induction false} MatchesIff(data: seq<Spectrum>, lo: real, hi: real, x: Sample)
    ensures x in Matches(data, lo, hi) <==>
      exists i: int, j: nat :: 0 <= i < |data| && PeakInWindow(data[i], j, lo, hi) && x == PeakSample(data[i], j)
  {
    if |data| > 0 {
      var init, last := data[..|data| - 1], data[|data| - 1];
      MatchesIff(init, lo, hi, x);
      SpectrumMatchesIff(last, lo, hi, x);
      if x in Matches(data, lo, hi) {
        if x in Matches(init, lo, hi) {
          var i: int, j: nat :| 0 <= i < |init| && PeakInWindow(init[i], j, lo, hi) && x == PeakSample(init[i], j);
          assert data[i] == init[i];
        } else {
          var j: nat :| PeakInWindow(last, j, lo, hi) && x == PeakSample(last, j);
          assert PeakInWindow(data[|data| - 1], j, lo, hi);
        }
      }
      if exists i: int, j: nat :: 0 <= i < |data| && PeakInWindow(data[i], j, lo, hi) && x == PeakSample(data[i], j) {
        var i: int, j: nat :| 0 <= i < |data| && PeakInWindow(data[i], j, lo, hi) && x == PeakSample(data[i], j);
        if i < |init| {
          assert init[i] == data[i];
        }
      }
    }
  }

  /** Samples follow spectrum order: those of earlier spectra come first. */
  lemma {:induction false} MatchesAppend(front: seq<Spectrum>, back: seq<Spectrum>, lo: real, hi: real)
    ensures Matches(front + back, lo, hi) == Matches(front, lo, hi) + Matches(back, lo, hi)
    decreases |back|
  {
    if |back| == 0 {
      assert front + back == front;
    } else {
      var all, init, last := front + back, back[..|back| - 1], back[|back| - 1];
      assert all[..|all| - 1] == front + init;
      calc {
        Matches(all, lo, hi);
        Matches(front + init, lo, hi) + SpectrumMatches(last, lo, hi);
        { MatchesAppend(front, init, lo, hi); }
        Matches(front, lo, hi) + Matches(init, lo, hi) + SpectrumMatches(last, lo, hi);
      }
    }
  }

  // ---------------------------------------------------------------------------
  // What is written (lines 45-76)
  // ---------------------------------------------------------------------------

  /** The result of lines 45-76 in closed form: no sample writes "MS
      Intensity" = None; one sample writes the sum of the XIC array and no
      "RT"; two or more also write the start time of spectrum 0 or 1, chosen
      by comparing the second sample's time with its intensity, and panic when
      that spectrum does not exist. */
  lemma XicUpdateOutcome(ionData: IonData, samples: seq<Sample>, data: seq<Spectrum>)
    ensures var r := XicUpdate(ionData, Times(samples), Intensities(samples), data);
      && (|samples| == 0 ==> r == Some(ionData[MsIntensity := None]))
      && (|samples| == 1 ==> r == Some(ionData[MsIntensity := Some(samples[0].time + samples[0].intensity)]))
      && (|samples| >= 2 ==> r == (if RtIndex(samples) < |data|
                                 then Some(ionData[MsIntensity := Some(XicTotal(samples))]
                                                  [Rt := Some(data[RtIndex(samples)].startTime)])
                                 else None))
  {
    if |samples| == 0 {
      XicUpdateNoSample(ionData, samples, data);
    } else if |samples| == 1 {
      XicUpdateOneSample(ionData, samples, data);
    } else {
      XicUpdateSeveralSamples(ionData, samples, data);
    }
  }

  lemma XicUpdateNoSample(ionData: IonData, samples: seq<Sample>, data: seq<Spectrum>)
    requires |samples| == 0
    ensures XicUpdate(ionData, Times(samples), Intensities(samples), data) == Some(ionData[MsIntensity := None])
  {
    assert Times(samples) + Intensities(samples) == [];
  }

  lemma XicUpdateOneSample(ionData: IonData, samples: seq<Sample>, data: seq<Spectrum>)
    requires |samples| == 1
    ensures XicUpdate(ionData, Times(samples), Intensities(samples), data)
      == Some(ionData[MsIntensity := Some(samples[0].time + samples[0].intensity)])
    ensures XicTotal(samples) == samples[0].time + samples[0].intensity
  {
    var times, intensities := Times(samples), Intensities(samples);
    assert times == [samples[0].time] && intensities == [samples[0].intensity];
    Array2.SeqSumConcat(times, intensities);
    assert Array2.SeqSum(times) == samples[0].time by {
      assert times[..0] == [];
    }
    assert Array2.SeqSum(intensities) == samples[0].intensity by {
      assert intensities[..0] == [];
    }
  }

  lemma XicUpdateSeveralSamples(ionData: IonData, samples: seq<Sample>, data: seq<Spectrum>)
    requires |samples| >= 2
    ensures XicUpdate(ionData, Times(samples), Intensities(samples), data)
      == if RtIndex(samples) < |data|
         then Some(ionData[MsIntensity := Some(XicTotal(samples))][Rt := Some(data[RtIndex(samples)].startTime)])
         else None
  {
    var times, intensities := Times(samples), Intensities(samples);
    var n := |samples|;
    Array2.SeqSumConcat(times, intensities);
    var xic := Array2.Array2(2, n, times + intensities);
    assert Array2.FromShapeVec(2, n, times + intensities) == Some(xic);
    Array2.TwoRowColumn(xic, 1);
    assert (times + intensities)[n + 1] == intensities[1];
    var column := Array2.Column(xic, 1);
    assert column == [samples[1].time, samples[1].intensity];
    var k := Array2.MaxByIndex(column);
    assert k == Some(RtIndex(samples));
  }


  /** Processing an ion panics. */
  predicate IonPanics(ionName: string, data: seq<Spectrum>, massAccuracy: real, parseMass: string -> Option<real>) {
    || parseMass(ionName).None?
    || !Readable(data)
    || (var samples := IonSamples(ionName, data, massAccuracy, parseMass);
        |samples| >= 2 && RtIndex(samples) >= |data|)
  }

  /** An ion panics exactly when its label does not parse, when some spectrum
      lacks one of its arrays, or when the RT index is past the end of `data`;
      the last can only be index 1 with a single spectrum. */
  lemma IonResultPanics(ionName: string, ionData: IonData, data: seq<Spectrum>, massAccuracy: real,
                        parseMass: string -> Option<real>)
    ensures IonResult(ionName, ionData, data, massAccuracy, parseMass).None? <==>
      IonPanics(ionName, data, massAccuracy, parseMass)
    ensures parseMass(ionName).Some? && Readable(data) && IonPanics(ionName, data, massAccuracy, parseMass) ==>
      RtIndex(IonSamples(ionName, data, massAccuracy, parseMass)) == 1 && |data| == 1
  {
    if parseMass(ionName).Some? && Readable(data) {
      var samples := IonSamples(ionName, data, massAccuracy, parseMass);
      XicUpdateOutcome(ionData, samples, data);
      if |data| == 0 {
        assert samples == [];
      }
    }
  }

  /** The attributes an ion ends up with: "MS Intensity" is always written,
      absent exactly when nothing matched and otherwise the sum of all
      matched times and intensities; "RT" is written only from two matches
      on; every other attribute keeps its value. */
  lemma IonResultAttributes(ionName: string, ionData: IonData, data: seq<Spectrum>, massAccuracy: real,
                            parseMass: string -> Option<real>)
    requires parseMass(ionName).Some?
    requires IonResult(ionName, ionData, data, massAccuracy, parseMass).Some?
    ensures var r := IonResult(ionName, ionData, data, massAccuracy, parseMass).value;
      var samples := IonSamples(ionName, data, massAccuracy, parseMass);
      && MsIntensity in r
      && (|samples| >= 2 ==> Rt in r)
      && r.Keys == ionData.Keys + {MsIntensity} + (if |samples| >= 2 then {Rt} else {})
      && (forall k :: k in ionData && k != MsIntensity && (k != Rt || |samples| < 2) ==> r[k] == ionData[k])
      && (r[MsIntensity].None? <==> |samples| == 0)
      && (|samples| > 0 ==> r[MsIntensity] == Some(XicTotal(samples)))
      && (|samples| >= 2 ==> r[Rt] == Some(data[RtIndex(samples)].startTime))
  {
    assert Readable(data);
    IonResultReadable(ionName, ionData, data, massAccuracy, parseMass);
    XicUpdateAttributes(ionData, IonSamples(ionName, data, massAccuracy, parseMass), data);
  }

  lemma XicUpdateAttributes(ionData: IonData, samples: seq<Sample>, data: seq<Spectrum>)
    requires XicUpdate(ionData, Times(samples), Intensities(samples), data).Some?
    ensures var r := XicUpdate(ionData, Times(samples), Intensities(samples), data).value;
      && MsIntensity in r
      && (|samples| >= 2 ==> Rt in r)
      && r.Keys == ionData.Keys + {MsIntensity} + (if |samples| >= 2 then {Rt} else {})
      && (forall k :: k in ionData && k != MsIntensity && (k != Rt || |samples| < 2) ==> r[k] == ionData[k])
      && (r[MsIntensity].None? <==> |samples| == 0)
      && (|samples| > 0 ==> r[MsIntensity] == Some(XicTotal(samples)))
      && (|samples| >= 2 ==> r[Rt] == Some(data[RtIndex(samples)].startTime))
  {
    var r := XicUpdate(ionData, Times(samples), Intensities(samples), data).value;
    if |samples| == 0 {
      XicUpdateNoSample(ionData, samples, data);
      assert r == ionData[MsIntensity := None];
      assert r.Keys == ionData.Keys + {MsIntensity};
    } else if |samples| == 1 {
      XicUpdateOneSample(ionData, samples, data);
      assert r == ionData[MsIntensity := Some(XicTotal(samples))];
      assert r.Keys == ionData.Keys + {MsIntensity};
    } else {
      XicUpdateSeveralSamples(ionData, samples, data);
      var updated := ionData[MsIntensity := Some(XicTotal(samples))];
      assert r == updated[Rt := Some(data[RtIndex(samples)].startTime)];
      assert r.Keys == ionData.Keys + {MsIntensity} + {Rt};
    }
  }

  /** With no spectra (a file that could not be opened), every ion whose
      label parses gets "MS Intensity" = None and nothing else changes. */
  lemma IonResultWithoutSpectra(ionName: string, ionData: IonData, massAccuracy: real,
                                parseMass: string -> Option<real>)
    ensures IonResult(ionName, ionData, [], massAccuracy, parseMass) ==
      if parseMass(ionName).None? then None else Some(ionData[MsIntensity := None])
  {
    if parseMass(ionName).Some? {
      XicUpdateOutcome(ionData, [], []);
    }
  }

  // ---------------------------------------------------------------------------
  // The whole ion list (lines 12-14, 79)
  // ---------------------------------------------------------------------------

  /** The call panics exactly when some ion of some compound panics. */
  lemma XicsPanicked(data: seq<Spectrum>, ionList: seq<Compound>, massAccuracy: real,
                     parseMass: string -> Option<real>)
    ensures Xics(data, ionList, massAccuracy, parseMass).Panicked? <==>
      exists c, ionName :: 0 <= c < |ionList| && ionName in ionList[c].ions
        && IonPanics(ionName, data, massAccuracy, parseMass)
  {
    if Xics(data, ionList, massAccuracy, parseMass).Panicked? {
      var c :| 0 <= c < |ionList| && !CompoundCompletes(ionList[c], data, massAccuracy, parseMass);
      var ionName :| ionName in ionList[c].ions
        && IonResult(ionName, ionList[c].ions[ionName], data, massAccuracy, parseMass).None?;
      IonResultPanics(ionName, ionList[c].ions[ionName], data, massAccuracy, parseMass);
    }
    if exists c, ionName :: 0 <= c < |ionList| && ionName in ionList[c].ions
         && IonPanics(ionName, data, massAccuracy, parseMass) {
      var c, ionName :| 0 <= c < |ionList| && ionName in ionList[c].ions
        && IonPanics(ionName, data, massAccuracy, parseMass);
      IonResultPanics(ionName, ionList[c].ions[ionName], data, massAccuracy, parseMass);
    }
  }

  /** A completed call returns one compound per input compound, in order, with
      the same name, auxiliary fields and ion labels; each ion's bag is that
      ion's own result, which depends only on its label, its old bag, the
      spectra and the mass accuracy. */
  lemma XicsShape(data: seq<Spectrum>, ionList: seq<Compound>, massAccuracy: real,
                  parseMass: string -> Option<real>)
    requires Xics(data, ionList, massAccuracy, parseMass).Done?
    ensures var out := Xics(data, ionList, massAccuracy, parseMass).value;
      && |out| == |ionList|
      && forall c :: 0 <= c < |ionList| ==>
        && out[c].name == ionList[c].name
        && out[c].ionInfo == ionList[c].ionInfo
        && out[c].calibrationCurve == ionList[c].calibrationCurve
        && out[c].ms2 == ionList[c].ms2
        && out[c].ions.Keys == ionList[c].ions.Keys
        && forall ionName :: ionName in out[c].ions ==>
             IonResult(ionName, ionList[c].ions[ionName], data, massAccuracy, parseMass) == Some(out[c].ions[ionName])
  {
  }

  // ---------------------------------------------------------------------------
  // The code (processing.rs, lines 7-80)
  // ---------------------------------------------------------------------------

  /** Lines 31-43: scan every spectrum and collect the in-window peaks into
      the `scan_times` and `intensities` vectors. `readable` is false when
      `unwrap()` on a missing array panics. */
  method CollectPeaks(data: seq<Spectrum>, lo: real, hi: real)
    returns (readable: bool, scanTimes: seq<real>, intensities: seq<real>)
    ensures readable <==> Readable(data)
    ensures readable ==> scanTimes == Times(Matches(data, lo, hi))
    ensures readable ==> intensities == Intensities(Matches(data, lo, hi))
  {
    scanTimes, intensities := [], [];
    for s := 0 to |data|
      invariant Readable(data[..s])
      invariant scanTimes == Times(Matches(data[..s], lo, hi))
      invariant intensities == Intensities(Matches(data[..s], lo, hi))
    {
      var spectrum := data[s];
      MatchesStep(data, s, lo, hi);
      SamplesConcat(Matches(data[..s], lo, hi), SpectrumMatches(spectrum, lo, hi));
      if spectrum.arrays.Some? {
        var arrays := spectrum.arrays.value;
        if arrays.mzs.None? || arrays.intensities.None? {
          return false, [], [];
        }
        scanTimes, intensities := CollectSpectrumPeaks(spectrum.startTime, arrays.mzs.value, arrays.intensities.value,
                                                       lo, hi, scanTimes, intensities);
      }
    }
    assert data[..|data|] == data;
    readable := true;
  }

  /** Lines 34-40: the inner loop over one spectrum's zipped arrays, pushing
      onto the vectors collected so far. */
  method CollectSpectrumPeaks(time: real, mzs: seq<real>, ints: seq<real>, lo: real, hi: real,
                              scanTimes0: seq<real>, intensities0: seq<real>)
    returns (scanTimes: seq<real>, intensities: seq<real>)
    ensures scanTimes == scanTimes0 + Times(PeakMatches(time, mzs, ints, lo, hi, Min(|mzs|, |ints|)))
    ensures intensities == intensities0 + Intensities(PeakMatches(time, mzs, ints, lo, hi, Min(|mzs|, |ints|)))
  {
    scanTimes, intensities := scanTimes0, intensities0;
    for j := 0 to Min(|mzs|, |ints|)
      invariant scanTimes == scanTimes0 + Times(PeakMatches(time, mzs, ints, lo, hi, j))
      invariant intensities == intensities0 + Intensities(PeakMatches(time, mzs, ints, lo, hi, j))
    {
      if mzs[j] >= lo && mzs[j] <= hi {
        SampleAppended(PeakMatches(time, mzs, ints, lo, hi, j), Sample(time, ints[j]));
        intensities := intensities + [ints[j]];
        scanTimes := scanTimes + [time];
      }
    }
  }

  /** The times and intensities of concatenated samples are concatenated. */
  lemma SamplesConcat(a: seq<Sample>, b: seq<Sample>)
    ensures Times(a + b) == Times(a) + Times(b)
    ensures Intensities(a + b) == Intensities(a) + Intensities(b)
  {
  }

  /** Appending a sample appends its time and its intensity. */
  lemma SampleAppended(samples: seq<Sample>, x: Sample)
    ensures Times(samples + [x]) == Times(samples) + [x.time]
    ensures Intensities(samples + [x]) == Intensities(samples) + [x.intensity]
  {
  }

  /** Count, matched total and summed intensities of a concatenation of
      spectra are those of the parts added. */
  lemma MatchedTotalAppend(a: seq<Spectrum>, b: seq<Spectrum>, lo: real, hi: real)
    ensures |Matches(a + b, lo, hi)| == |Matches(a, lo, hi)| + |Matches(b, lo, hi)|
    ensures XicTotal(Matches(a + b, lo, hi)) == XicTotal(Matches(a, lo, hi)) + XicTotal(Matches(b, lo, hi))
    ensures Array2.SeqSum(Intensities(Matches(a + b, lo, hi)))
      == Array2.SeqSum(Intensities(Matches(a, lo, hi))) + Array2.SeqSum(Intensities(Matches(b, lo, hi)))
  {
    var ma, mb := Matches(a, lo, hi), Matches(b, lo, hi);
    MatchesAppend(a, b, lo, hi);
    SamplesConcat(ma, mb);
    Array2.SeqSumConcat(Times(ma), Times(mb));
    Array2.SeqSumConcat(Intensities(ma), Intensities(mb));
  }

  /** The order of the spectra does not matter to the sample count, the
      matched total or the summed intensities: any reordering gives the same
      values. */
  lemma MatchedTotalPermutation(data: seq<Spectrum>, data': seq<Spectrum>, lo: real, hi: real)
    requires multiset(data') == multiset(data)
    ensures |Matches(data', lo, hi)| == |Matches(data, lo, hi)|
    ensures XicTotal(Matches(data', lo, hi)) == XicTotal(Matches(data, lo, hi))
    ensures Array2.SeqSum(Intensities(Matches(data', lo, hi))) == Array2.SeqSum(Intensities(Matches(data, lo, hi)))
  {
    var count := d => |Matches(d, lo, hi)| as real;
    var total := d => XicTotal(Matches(d, lo, hi));
    var summed := d => Array2.SeqSum(Intensities(Matches(d, lo, hi)));
    forall a: seq<Spectrum>, b: seq<Spectrum>
      ensures count(a + b) == count(a) + count(b)
      ensures total(a + b) == total(a) + total(b)
      ensures summed(a + b) == summed(a) + summed(b)
    {
      MatchedTotalAppend(a, b, lo, hi);
    }
    AdditivePermutation(count, data, data');
    AdditivePermutation(total, data, data');
    AdditivePermutation(summed, data, data');
  }

  /** A measure that adds over concatenation takes the same value on any
      reordering of a sequence. */
  lemma {:induction false} AdditivePermutation<T>(m: seq<T> -> real, data: seq<T>, data': seq<T>)
    requires forall a: seq<T>, b: seq<T> :: m(a + b) == m(a) + m(b)
    requires multiset(data') == multiset(data)
    ensures m(data') == m(data)
    decreases |data|
  {
    if |data| == 0 {
      assert |data'| == |multiset(data')| == 0;
      assert data' == data;
    } else {
      assert data[0] in multiset(data');
      var k :| 0 <= k < |data'| && data'[k] == data[0];
      RemoveOne(data, data', k);
      AdditivePermutation(m, data[1..], data'[..k] + data'[k + 1..]);
      AdditiveSplit(m, data[..0], data, 0);
      assert data[..0] + data[1..] == data[1..];
      AdditiveSplit(m, data'[..k], data', k);
    }
  }

  /** An additive measure of a sequence is that of the element at `k` plus
      that of the rest. */
  lemma AdditiveSplit<T>(m: seq<T> -> real, front: seq<T>, data: seq<T>, k: nat)
    requires forall a: seq<T>, b: seq<T> :: m(a + b) == m(a) + m(b)
    requires k < |data| && front == data[..k]
    ensures m(data) == m(front + data[k + 1..]) + m([data[k]])
  {
    var x, back := data[k], data[k + 1..];
    assert data == front + [x] + back;
    assert m(front + [x] + back) == m(front + [x]) + m(back);
    assert m(front + [x]) == m(front) + m([x]);
    assert m(front + back) == m(front) + m(back);
  }

  /** Taking an element out of a reordering of `data` at a position holding
      its first element leaves a reordering of the rest of `data`. */
  lemma RemoveOne<T>(data: seq<T>, data': seq<T>, k: nat)
    requires |data| > 0 && k < |data'| && data'[k] == data[0]
    requires multiset(data') == multiset(data)
    ensures multiset(data'[..k] + data'[k + 1..]) == multiset(data[1..])
  {
    var x := data[0];
    assert data' == data'[..k] + [x] + data'[k + 1..];
    assert data == [x] + data[1..];
    var a := data'[..k] + data'[k + 1..];
    assert multiset(data') == multiset(a) + multiset([x]);
    assert multiset(data) == multiset(data[1..]) + multiset([x]);
    forall y
      ensures multiset(a)[y] == multiset(data[1..])[y]
    {
      assert multiset(data')[y] == multiset(a)[y] + multiset([x])[y];
      assert multiset(data)[y] == multiset(data[1..])[y] + multiset([x])[y];
    }
  }

  /** As written, reordering the spectra leaves an ion's "MS Intensity"
      unchanged whenever both orders complete. */
  lemma IonIntensityPermutation(ionName: string, ionData: IonData, data: seq<Spectrum>, data': seq<Spectrum>,
                                massAccuracy: real, parseMass: string -> Option<real>)
    requires multiset(data') == multiset(data)
    requires IonResult(ionName, ionData, data, massAccuracy, parseMass).Some?
    requires IonResult(ionName, ionData, data', massAccuracy, parseMass).Some?
    ensures IonResult(ionName, ionData, data', massAccuracy, parseMass).value[MsIntensity]
      == IonResult(ionName, ionData, data, massAccuracy, parseMass).value[MsIntensity]
  {
    IonResultAttributes(ionName, ionData, data, massAccuracy, parseMass);
    IonResultAttributes(ionName, ionData, data', massAccuracy, parseMass);
    var (lo, hi) := MassRange(parseMass(ionName).value, massAccuracy);
    MatchedTotalPermutation(data, data', lo, hi);
  }

  /** One more spectrum: its samples follow the earlier ones, and the prefix
      stays readable exactly when that spectrum's arrays can be read. */
  lemma MatchesStep(data: seq<Spectrum>, s: nat, lo: real, hi: real)
    requires s < |data|
    ensures Matches(data[..s + 1], lo, hi) == Matches(data[..s], lo, hi) + SpectrumMatches(data[s], lo, hi)
    ensures Readable(data[..s + 1]) <==> Readable(data[..s]) && ArraysReadable(data[s])
    ensures !ArraysReadable(data[s]) ==> !Readable(data)
  {
    assert data[..s + 1][..s] == data[..s];
    assert data[..s + 1][s] == data[s];
    if !ArraysReadable(data[s]) {
      assert !ArraysReadable(data[..s + 1][s]);
    }
  }

  /** Lines 15-76: the body of the loop over the ions of one compound. `None`
      is a panic. */
  method ExtractIon(ionName: string, ionData: IonData, data: seq<Spectrum>, massAccuracy: real,
                    parseMass: string -> Option<real>)
    returns (r: Option<IonData>)
    ensures r == IonResult(ionName, ionData, data, massAccuracy, parseMass)
  {
    var parsed := parseMass(ionName);
    if parsed.None? {
      return None;
    }
    var mass := parsed.value;
    var lo, hi := mass - 3.0 * massAccuracy, mass + 3.0 * massAccuracy;
    if lo < 0.0 {
      lo := 0.0;
    }
    assert (lo, hi) == MassRange(mass, massAccuracy);
    r := ExtractInWindow(ionData, data, lo, hi);
  }

  /** Lines 22-76 once the window is known: collect the peaks, then update
      the ion's attributes. */
  method ExtractInWindow(ionData: IonData, data: seq<Spectrum>, lo: real, hi: real) returns (r: Option<IonData>)
    ensures r == WindowResult(ionData, data, lo, hi)
  {
    var readable, scanTimes, intensities := CollectPeaks(data, lo, hi);
    if !readable {
      return None;
    }
    r := UpdateIonData(ionData, scanTimes, intensities, data);
  }


  /** Lines 45-76: build the XIC array and write the ion's attributes. `None`
      is a panic. */
  method UpdateIonData(ionData: IonData, scanTimes: seq<real>, intensities: seq<real>, data: seq<Spectrum>)
    returns (r: Option<IonData>)
    requires |scanTimes| == |intensities|
    ensures r == XicUpdate(ionData, scanTimes, intensities, data)
  {
    var xic := Array2.FromShapeVec(2, |intensities|, scanTimes + intensities);
    if xic.None? {
      return None;
    }
    var updated := ionData;
    if Array2.IsEmpty(xic.value) {
      updated := updated[MsIntensity := None];
      return Some(updated);
    }
    updated := updated[MsIntensity := Some(Array2.Sum(xic.value))];
    if MsIntensity !in updated || xic.value.cols < 2 {
      return Some(updated);
    }
    var maxIndex := Array2.MaxByIndex(Array2.Column(xic.value, 1));
    var rt: real;
    if maxIndex.Some? {
      if maxIndex.value >= |data| {
        return None;
      }
      rt := data[maxIndex.value].startTime;
    } else {
      rt := 0.0;
    }
    updated := updated[Rt := Some(rt)];
    return Some(updated);
  }

  /** Lines 14-77: update, in place, every ion of one compound, in the
      arbitrary order in which a hash map hands them out. */
  method UpdateCompoundIons(compound: Compound, data: seq<Spectrum>, massAccuracy: real,
                            parseMass: string -> Option<real>)
    returns (r: Outcome<Compound>)
    ensures r.Panicked? <==> !CompoundCompletes(compound, data, massAccuracy, parseMass)
    ensures r.Done? ==> r.value == UpdateCompound(compound, data, massAccuracy, parseMass)
  {
    var ions := compound.ions;
    var pending := ions.Keys;
    while pending != {}
      invariant pending <= ions.Keys && ions.Keys == compound.ions.Keys
      invariant forall l :: l in pending ==> ions[l] == compound.ions[l]
      invariant forall l :: l in ions && l !in pending ==>
        IonResult(l, compound.ions[l], data, massAccuracy, parseMass).Some?
        && ions[l] == IonResult(l, compound.ions[l], data, massAccuracy, parseMass).value
      decreases pending
    {
      var ionName :| ionName in pending;
      var result := ExtractIon(ionName, ions[ionName], data, massAccuracy, parseMass);
      if result.None? {
        return Panicked;
      }
      ions := ions[ionName := result.value];
      pending := pending - {ionName};
    }
    CompoundUpdated(compound, ions, data, massAccuracy, parseMass);
    return Done(compound.(ions := ions));
  }

  /** Lines 7-80: clone the ion list, then update every compound of the clone
      in place. */
  method ConstructXics(data: seq<Spectrum>, ionList: seq<Compound>, massAccuracy: real,
                       parseMass: string -> Option<real>)
    returns (r: Outcome<seq<Compound>>)
    ensures r == Xics(data, ionList, massAccuracy, parseMass)
  {
    var compounds := ionList;
    for c := 0 to |compounds|
      invariant |compounds| == |ionList|
      invariant forall i :: 0 <= i < c ==>
        CompoundCompletes(ionList[i], data, massAccuracy, parseMass)
        && compounds[i] == UpdateCompound(ionList[i], data, massAccuracy, parseMass)
      invariant forall i :: c <= i < |ionList| ==> compounds[i] == ionList[i]
    {
      var updated := UpdateCompoundIons(compounds[c], data, massAccuracy, parseMass);
      if updated.Panicked? {
        return Panicked;
      }
      compounds := compounds[c := updated.value];
    }
    XicsDone(data, ionList, compounds, massAccuracy, parseMass);
    return Done(compounds);
  }
}
