/** Where the code of `construct_xics` departs from what it evidently means
    to compute: a counterexample to each departure, as written, and a
    corrected per-ion result with the intended properties proved. */
module Findings {
  import opened Common
  import opened Measurements
  import Array2
  import opened Processing

  /** `t` is the start time of the earliest sample with the greatest
      intensity. */
  predicate IsPeakTime(samples: seq<Sample>, t: real) {
    exists k :: 0 <= k < |samples| && samples[k].time == t
      && (forall j :: 0 <= j < |samples| ==> samples[j].intensity <= samples[k].intensity)
      && (forall j :: 0 <= j < k ==> samples[j].intensity < samples[k].intensity)
  }

  /** The index of the first greatest element. */
  function FirstMaxIndex(xs: seq<real>): (k: nat)
    requires |xs| > 0
    ensures k < |xs|
    ensures forall j :: 0 <= j < |xs| ==> xs[j] <= xs[k]
    ensures forall j :: 0 <= j < k ==> xs[j] < xs[k]
    decreases |xs|
  {
    if |xs| == 1 then 0
    else
      var k := FirstMaxIndex(xs[..|xs| - 1]);
      if xs[|xs| - 1] > xs[k] then |xs| - 1 else k
  }

  /** The corrected lines 45-76: "MS Intensity" sums the matched intensities
      only, and from two samples on "RT" is the time of the first sample of
      greatest intensity, which always exists. */
  function IntendedIonResult(ionData: IonData, samples: seq<Sample>): (r: IonData)
    ensures MsIntensity in r
    ensures r[MsIntensity] == if |samples| == 0 then None else Some(Array2.SeqSum(Intensities(samples)))
    ensures |samples| >= 2 ==> Rt in r
    ensures forall k :: k in ionData && k != MsIntensity && (k != Rt || |samples| < 2) ==> k in r && r[k] == ionData[k]
  {
    if |samples| == 0 then ionData[MsIntensity := None]
    else
      var updated := ionData[MsIntensity := Some(Array2.SeqSum(Intensities(samples)))];
      if |samples| < 2 then updated
      else updated[Rt := Some(samples[FirstMaxIndex(Intensities(samples))].time)]
  }

  /** The intended property holds of the corrected result. */
  lemma IntendedRtIsPeakTime(ionData: IonData, samples: seq<Sample>)
    requires |samples| >= 2
    ensures var r := IntendedIonResult(ionData, samples);
      Rt in r && r[Rt].Some? && IsPeakTime(samples, r[Rt].value)
  {
    var k := FirstMaxIndex(Intensities(samples));
    assert samples[k].time == IntendedIonResult(ionData, samples)[Rt].value;
  }

  /** Corrected, "MS Intensity" does not depend on the order of the spectra
      either. */
  lemma IntendedIntensityPermutation(ionData: IonData, data: seq<Spectrum>, data': seq<Spectrum>, lo: real, hi: real)
    requires multiset(data') == multiset(data)
    ensures IntendedIonResult(ionData, Matches(data', lo, hi))[MsIntensity]
      == IntendedIonResult(ionData, Matches(data, lo, hi))[MsIntensity]
  {
    MatchedTotalPermutation(data, data', lo, hi);
  }

  /** Three MS1 spectra at 1, 2 and 3 seconds, each with one peak of
      intensity 50 at m/z 59.0139. */
  const AcetateSpectra: seq<Spectrum> := [
    Spectrum(1.0, 1, Some(BinaryArrays(Some([59.0139]), Some([50.0])))),
    Spectrum(2.0, 1, Some(BinaryArrays(Some([59.0139]), Some([50.0])))),
    Spectrum(3.0, 1, Some(BinaryArrays(Some([59.0139]), Some([50.0]))))
  ]

  function ParseAcetate(s: string): Option<real> {
    if s == "59.0139" then Some(59.0139) else None
  }

  lemma AcetateSamples()
    ensures IonSamples("59.0139", AcetateSpectra, 0.0001, ParseAcetate)
      == [Sample(1.0, 50.0), Sample(2.0, 50.0), Sample(3.0, 50.0)]
  {
    var d := AcetateSpectra;
    assert MassRange(59.0139, 0.0001) == (59.0136, 59.0142);
    assert d[..2][..1] == d[..1] && d[..1][..0] == [] && d[..3] == d;
    assert Matches(d[..1], 59.0136, 59.0142) == [Sample(1.0, 50.0)];
    assert Matches(d[..2], 59.0136, 59.0142) == [Sample(1.0, 50.0), Sample(2.0, 50.0)];
  }

  /** As written, the acetate ion gets "MS Intensity" 156 (the three scan
      times are added in) and "RT" 2.0 (spectrum 1, because the second
      sample's time does not exceed its intensity), although every sample has
      intensity 50 and the earliest maximum is at 1.0. */
  lemma AcetateAsWritten()
    ensures IonResult("59.0139", map[], AcetateSpectra, 0.0001, ParseAcetate)
      == Some(map[MsIntensity := Some(156.0), Rt := Some(2.0)])
    ensures !IsPeakTime(IonSamples("59.0139", AcetateSpectra, 0.0001, ParseAcetate), 2.0)
  {
    var samples := [Sample(1.0, 50.0), Sample(2.0, 50.0), Sample(3.0, 50.0)];
    AcetateSamples();
    AcetateXic(samples);
    AcetatePeakTime(samples);
  }

  /** Every acetate sample has intensity 50, so the earliest maximum is the
      first sample, at 1.0, and 2.0 is not the peak time. */
  lemma AcetatePeakTime(samples: seq<Sample>)
    requires samples == [Sample(1.0, 50.0), Sample(2.0, 50.0), Sample(3.0, 50.0)]
    ensures IsPeakTime(samples, 1.0) && !IsPeakTime(samples, 2.0)
  {
    assert forall k :: 0 <= k < |samples| && samples[k].time == 2.0 ==> k == 1;
    assert samples[0].intensity == samples[1].intensity;
    assert samples[0].time == 1.0;
  }

  /** The acetate ion's bag, given its samples. */
  lemma AcetateXic(samples: seq<Sample>)
    requires samples == [Sample(1.0, 50.0), Sample(2.0, 50.0), Sample(3.0, 50.0)]
    requires IonSamples("59.0139", AcetateSpectra, 0.0001, ParseAcetate) == samples
    ensures IonResult("59.0139", map[], AcetateSpectra, 0.0001, ParseAcetate)
      == Some(map[MsIntensity := Some(156.0), Rt := Some(2.0)])
  {
    AcetateTotal();
    assert Readable(AcetateSpectra);
    IonResultReadable("59.0139", map[], AcetateSpectra, 0.0001, ParseAcetate);
    XicUpdateSeveralSamples(map[], samples, AcetateSpectra);
    assert RtIndex(samples) == 1;
  }

  /** The sum of the acetate XIC array: times 1 + 2 + 3, intensities 3 x 50. */
  lemma AcetateTotal()
    ensures XicTotal([Sample(1.0, 50.0), Sample(2.0, 50.0), Sample(3.0, 50.0)]) == 156.0
  {
    var samples := [Sample(1.0, 50.0), Sample(2.0, 50.0), Sample(3.0, 50.0)];
    assert Times(samples) == [1.0, 2.0, 3.0] && Intensities(samples) == [50.0, 50.0, 50.0];
    assert Array2.SeqSum([1.0, 2.0, 3.0]) == 6.0 by {
      assert [1.0, 2.0, 3.0][..2] == [1.0, 2.0] && [1.0, 2.0][..1] == [1.0] && [1.0][..0] == [];
    }
    assert Array2.SeqSum([50.0, 50.0, 50.0]) == 150.0 by {
      assert [50.0, 50.0, 50.0][..2] == [50.0, 50.0] && [50.0, 50.0][..1] == [50.0] && [50.0][..0] == [];
    }
  }


  /** Corrected, the acetate ion gets "MS Intensity" 150 and "RT" 1.0. */
  lemma AcetateIntended()
    ensures IntendedIonResult(map[], IonSamples("59.0139", AcetateSpectra, 0.0001, ParseAcetate))
      == map[MsIntensity := Some(150.0), Rt := Some(1.0)]
  {
    var samples := IonSamples("59.0139", AcetateSpectra, 0.0001, ParseAcetate);
    AcetateSamples();
    assert Intensities(samples) == [50.0, 50.0, 50.0];
    assert Array2.SeqSum([50.0, 50.0, 50.0]) == 150.0 by {
      assert [50.0, 50.0, 50.0][..2] == [50.0, 50.0] && [50.0, 50.0][..1] == [50.0] && [50.0][..0] == [];
    }
    assert FirstMaxIndex([50.0, 50.0, 50.0]) == 0;
  }

  /** Reading the intensity row instead of `column(1)` but keeping
      `max_by`, which takes the last of equal maxima, would give the acetate
      ion "RT" 3.0, not 1.0. */
  lemma AcetateColumnOnly()
    ensures var samples := IonSamples("59.0139", AcetateSpectra, 0.0001, ParseAcetate);
      Array2.MaxByIndex(Intensities(samples)) == Some(2) && AcetateSpectra[2].startTime == 3.0
  {
    AcetateSamples();
    var samples := IonSamples("59.0139", AcetateSpectra, 0.0001, ParseAcetate);
    assert Intensities(samples) == [50.0, 50.0, 50.0];
  }

  /** One spectrum with two peaks of intensity 10 and 20 at m/z 100. */
  const TwoPeakSpectrum: seq<Spectrum> := [
    Spectrum(1.0, 1, Some(BinaryArrays(Some([100.0, 100.0]), Some([10.0, 20.0]))))
  ]

  function ParseHundred(s: string): Option<real> {
    if s == "100" then Some(100.0) else None
  }

  lemma TwoPeakSamples()
    ensures IonSamples("100", TwoPeakSpectrum, 0.0, ParseHundred) == [Sample(1.0, 10.0), Sample(1.0, 20.0)]
  {
    var d := TwoPeakSpectrum;
    assert d[..0] == [];
    var s := d[0];
    assert PeakMatches(1.0, [100.0, 100.0], [10.0, 20.0], 100.0, 100.0, 1) == [Sample(1.0, 10.0)];
  }

  /** As written, two matches in a file with a single MS1 spectrum make the
      code read `data[1]`, which panics. */
  lemma SingleSpectrumPanicsAsWritten()
    ensures IonResult("100", map[], TwoPeakSpectrum, 0.0, ParseHundred).None?
  {
    TwoPeakSamples();
    assert Readable(TwoPeakSpectrum);
    IonResultPanics("100", map[], TwoPeakSpectrum, 0.0, ParseHundred);
  }

  /** Corrected, the same input yields "MS Intensity" 30 and "RT" 1.0. */
  lemma SingleSpectrumIntended()
    ensures IntendedIonResult(map[], IonSamples("100", TwoPeakSpectrum, 0.0, ParseHundred))
      == map[MsIntensity := Some(30.0), Rt := Some(1.0)]
  {
    TwoPeakSamples();
    var samples := IonSamples("100", TwoPeakSpectrum, 0.0, ParseHundred);
    assert Intensities(samples) == [10.0, 20.0];
    assert Array2.SeqSum([10.0, 20.0]) == 30.0 by {
      assert [10.0, 20.0][..1] == [10.0] && [10.0][..0] == [];
    }
    assert FirstMaxIndex([10.0, 20.0]) == 1 by {
      assert [10.0, 20.0][..1] == [10.0];
    }
  }
}
