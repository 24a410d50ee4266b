/** The plain data the processing core works on: spectra as delivered by the
    mzML decoder, compounds of an ion list, and the per-file measurement. */
module Measurements {
  import opened Common

  /** The binary data arrays of one spectrum. Retrieving the m/z or the
      intensity array can fail (the array is absent from the map), which is
      why each is optional. */
  datatype BinaryArrays = BinaryArrays(mzs: Option<seq<real>>, intensities: Option<seq<real>>)

  /** One decoded scan: its acquisition start time, its MS level and, when the
      decoder produced peak data, its binary arrays. */
  datatype Spectrum = Spectrum(startTime: real, msLevel: nat, arrays: Option<BinaryArrays>)

  /** The attribute bag of one ion: attribute name to optional value. */
  type IonData = map<string, Option<real>>

  /** The two attribute names that XIC construction writes. */
  const MsIntensity: string := "MS Intensity"
  const Rt: string := "RT"

  /** A target compound: its name, its ions keyed by their mass label, and
      auxiliary fields that XIC construction carries through unchanged. */
  datatype Compound = Compound(
    name: string,
    ions: map<string, IonData>,
    ionInfo: seq<string>,
    calibrationCurve: map<string, real>,
    ms2: seq<Spectrum>)

  /** What one file yields: its MS1 and MS2 scans, the compounds with their
      XIC results, and the mass accuracy used. */
  datatype MSMeasurement = MSMeasurement(
    ms1Scans: seq<Spectrum>,
    ms2Scans: seq<Spectrum>,
    compounds: seq<Compound>,
    massAccuracy: real)
}
