/** Loading: reading the list of input files, splitting a decoded file into
    MS1 and MS2 scans, building compounds from the ion-list document, and
    processing every file. */
module Loading {
  import opened Common
  import opened Measurements
  import opened Json
  import opened Text
  import Processing

  /** An I/O error; what it says is not modelled. */
  datatype IoError = IoError(message: string)

  // ---------------------------------------------------------------------------
  // read_file_paths (lines 15-24)
  // ---------------------------------------------------------------------------

  /** The lines of the file, each trimmed, whitespace-only ones dropped; the
      first line that fails to read makes the whole result that error. */
  function CollectPaths(lines: seq<Result<string, IoError>>): Result<seq<string>, IoError>
  {
    if |lines| == 0 then Ok([])
    else
      match lines[0]
      case Err(e) => Err(e)
      case Ok(line) =>
        match CollectPaths(lines[1..])
        case Err(e) => Err(e)
        case Ok(rest) => Ok(Kept(line) + rest)
  }

  /** The path a line contributes: its trimmed form, unless that is empty. */
  function Kept(line: string): seq<string> {
    var path := Trim(line);
    if path == [] then [] else [path]
  }

  /** `read_file_paths`: the file is given by what opening it and reading its
      lines yields. */
  function ReadFilePaths(file: Result<seq<Result<string, IoError>>, IoError>): (r: Result<seq<string>, IoError>)
    ensures file.Err? ==> r == Err(file.error)
    ensures file.Ok? ==> (r.Err? <==> exists k :: 0 <= k < |file.value| && file.value[k].Err?)
  {
    match file
    case Err(e) => Err(e)
    case Ok(lines) =>
      CollectPathsFirstError(lines);
      CollectPaths(lines)
  }

  /** The result is an error exactly when some line fails to read, and then
      it is the error of the first such line. */
  lemma {:induction false} CollectPathsFirstError(lines: seq<Result<string, IoError>>)
    ensures CollectPaths(lines).Err? <==> exists k :: 0 <= k < |lines| && lines[k].Err?
    ensures CollectPaths(lines).Err? ==>
      exists k :: 0 <= k < |lines| && lines[k] == Err(CollectPaths(lines).error)
        && forall j :: 0 <= j < k ==> lines[j].Ok?
  {
    if |lines| > 0 {
      CollectPathsFirstError(lines[1..]);
      if lines[0].Ok? {
        if exists k :: 0 <= k < |lines| && lines[k].Err? {
          var k :| 0 <= k < |lines| && lines[k].Err?;
          assert lines[1..][k - 1].Err?;
        }
        if CollectPaths(lines).Err? {
          var k :| 0 <= k < |lines| - 1 && lines[1..][k] == Err(CollectPaths(lines).error)
            && forall j :: 0 <= j < k ==> lines[1..][j].Ok?;
          assert lines[k + 1] == Err(CollectPaths(lines).error);
          assert forall j :: 0 <= j < k + 1 ==> lines[j].Ok? by {
            forall j | 0 <= j < k + 1
              ensures lines[j].Ok?
            {
              if j > 0 {
                assert lines[j] == lines[1..][j - 1];
              }
            }
          }
        }
      }
    }
  }

  /** Line `k` was read and trims to the non-empty path `p`. */
  predicate LineYields(lines: seq<Result<string, IoError>>, k: int, p: string) {
    0 <= k < |lines| && lines[k].Ok? && p != [] && p == Trim(lines[k].value)
  }

  /** A path is returned exactly when it is the trimmed form of some line
      that was read and is not blank. */
  lemma {:induction false} CollectPathsMembers(lines: seq<Result<string, IoError>>, p: string)
    requires CollectPaths(lines).Ok?
    ensures p in CollectPaths(lines).value <==> exists k :: LineYields(lines, k, p)
  {
    if |lines| > 0 {
      var x, rest := lines[0], lines[1..];
      assert lines == [x] + rest;
      CollectPathsCons(x, rest);
      CollectPathsMembers(rest, p);
      assert p in Kept(x.value) <==> LineYields(lines, 0, p);
      if exists k :: LineYields(lines, k, p) {
        var k :| LineYields(lines, k, p);
        if k > 0 {
          assert LineYields(rest, k - 1, p);
        }
      }
      if exists k :: LineYields(rest, k, p) {
        var k :| LineYields(rest, k, p);
        assert LineYields(lines, k + 1, p);
      }
    }
  }

  /** No returned path is empty or has whitespace at either end. */
  lemma CollectPathsTrimmed(lines: seq<Result<string, IoError>>, p: string)
    requires CollectPaths(lines).Ok?
    requires p in CollectPaths(lines).value
    ensures p != [] && !IsWhitespace(p[0]) && !IsWhitespace(p[|p| - 1])
  {
    CollectPathsMembers(lines, p);
    var k :| LineYields(lines, k, p);
    Trimmed(lines[k].value);
  }

  /** Relative order is kept: the paths of an earlier block of lines come
      before those of a later one. */
  lemma {:induction false} CollectPathsAppend(front: seq<Result<string, IoError>>, back: seq<Result<string, IoError>>)
    requires CollectPaths(front).Ok? && CollectPaths(back).Ok?
    ensures CollectPaths(front + back) == Ok(CollectPaths(front).value + CollectPaths(back).value)
    decreases |front|
  {
    if |front| == 0 {
      assert front + back == back;
      assert CollectPaths(front) == Ok([]);
      assert [] + CollectPaths(back).value == CollectPaths(back).value;
    } else {
      var x, rest := front[0], front[1..];
      assert front == [x] + rest;
      CollectPathsCons(x, rest);
      CollectPathsAppend(rest, back);
      CollectPathsAppendCons(x, rest, back);
    }
  }

  /** The inductive step of `CollectPathsAppend`. */
  lemma CollectPathsAppendCons(x: Result<string, IoError>, rest: seq<Result<string, IoError>>,
                               back: seq<Result<string, IoError>>)
    requires x.Ok? && CollectPaths(rest).Ok? && CollectPaths(back).Ok?
    requires CollectPaths(rest + back) == Ok(CollectPaths(rest).value + CollectPaths(back).value)
    ensures CollectPaths([x] + rest + back) == Ok(CollectPaths([x] + rest).value + CollectPaths(back).value)
  {
    ConcatAssociates([x], rest, back);
    CollectPathsCons(x, rest);
    CollectPathsCons(x, rest + back);
    ConcatAssociates(Kept(x.value), CollectPaths(rest).value, CollectPaths(back).value);
  }

  lemma ConcatAssociates<T>(a: seq<T>, b: seq<T>, c: seq<T>)
    ensures a + (b + c) == (a + b) + c
  {
  }

  /** One step of `CollectPaths`: a line that was read adds its path in front
      of the rest, and any error is passed on. */
  lemma CollectPathsCons(x: Result<string, IoError>, rest: seq<Result<string, IoError>>)
    ensures x.Err? ==> CollectPaths([x] + rest) == Err(x.error)
    ensures x.Ok? && CollectPaths(rest).Err? ==> CollectPaths([x] + rest) == CollectPaths(rest)
    ensures x.Ok? && CollectPaths(rest).Ok? ==> CollectPaths([x] + rest) == Ok(Kept(x.value) + CollectPaths(rest).value)
  {
    assert ([x] + rest)[0] == x && ([x] + rest)[1..] == rest;
  }

  // ---------------------------------------------------------------------------
  // load_ms_scans (lines 26-54)
  // ---------------------------------------------------------------------------

  /** The scans of one MS level, in decoder order. */
  function ScansOfLevel(scans: seq<Spectrum>, level: nat): (r: seq<Spectrum>)
    ensures |r| <= |scans|
  {
    if |scans| == 0 then []
    else
      var init, last := scans[..|scans| - 1], scans[|scans| - 1];
      ScansOfLevel(init, level) + (if last.msLevel == level then [last] else [])
  }

  /** A scan is kept exactly when it is one of the input scans and has the
      requested level. */
  lemma {:induction false} ScansOfLevelMembers(scans: seq<Spectrum>, level: nat, s: Spectrum)
    ensures s in ScansOfLevel(scans, level) <==> s in scans && s.msLevel == level
  {
    if |scans| > 0 {
      var init, last := scans[..|scans| - 1], scans[|scans| - 1];
      assert scans == init + [last];
      ScansOfLevelMembers(init, level, s);
    }
  }

  /** What `load_ms_scans` returns for a file whose decoder yields `decoded`,
      `None` standing for a file that could not be opened. */
  function LoadedScans(decoded: Option<seq<Spectrum>>): (seq<Spectrum>, seq<Spectrum>) {
    match decoded
    case None => ([], [])
    case Some(scans) => (ScansOfLevel(scans, 1), ScansOfLevel(scans, 2))
  }

  /** `load_ms_scans`: a file that cannot be opened gives no scans (and no
      error); otherwise the MS1 scans and the MS2 scans, each in decoder
      order, and scans of any other level are dropped. */
  method LoadMsScans(decoded: Option<seq<Spectrum>>) returns (ms1Scans: seq<Spectrum>, ms2Scans: seq<Spectrum>)
    ensures decoded.None? ==> ms1Scans == [] && ms2Scans == []
    ensures decoded.Some? ==> ms1Scans == ScansOfLevel(decoded.value, 1) && ms2Scans == ScansOfLevel(decoded.value, 2)
    ensures (ms1Scans, ms2Scans) == LoadedScans(decoded)
  {
    if decoded.None? {
      return [], [];
    }
    var scans := decoded.value;
    ms1Scans, ms2Scans := [], [];
    for i := 0 to |scans|
      invariant ms1Scans == ScansOfLevel(scans[..i], 1)
      invariant ms2Scans == ScansOfLevel(scans[..i], 2)
    {
      var scan := scans[i];
      assert scans[..i + 1][..i] == scans[..i];
      match scan.msLevel
      case 1 => ms1Scans := ms1Scans + [scan];
      case 2 => ms2Scans := ms2Scans + [scan];
      case _ =>
    }
    assert scans[..|scans|] == scans;
  }

  /** Scans of each level keep decoder order across blocks of scans. */
  lemma {:induction false} ScansOfLevelAppend(front: seq<Spectrum>, back: seq<Spectrum>, level: nat)
    ensures ScansOfLevel(front + back, level) == ScansOfLevel(front, level) + ScansOfLevel(back, level)
    decreases |back|
  {
    if |back| == 0 {
      assert front + back == front;
    } else {
      var all, init, last := front + back, back[..|back| - 1], back[|back| - 1];
      assert all[..|all| - 1] == front + init;
      calc {
        ScansOfLevel(all, level);
        ScansOfLevel(front + init, level) + (if last.msLevel == level then [last] else []);
        { ScansOfLevelAppend(front, init, level); }
        ScansOfLevel(front, level) + ScansOfLevel(init, level) + (if last.msLevel == level then [last] else []);
      }
    }
  }

  /** Every scan is of level 1 or 2. */
  predicate KnownLevels(scans: seq<Spectrum>) {
    forall i :: 0 <= i < |scans| ==> scans[i].msLevel == 1 || scans[i].msLevel == 2
  }

  lemma KnownLevelsSnoc(scans: seq<Spectrum>)
    requires |scans| > 0
    ensures KnownLevels(scans) <==>
      KnownLevels(scans[..|scans| - 1]) && (scans[|scans| - 1].msLevel == 1 || scans[|scans| - 1].msLevel == 2)
  {
    var init := scans[..|scans| - 1];
    assert forall i :: 0 <= i < |init| ==> init[i] == scans[i];
  }

  /** No scan lands in both outputs, so together they hold at most every
      scan, and all of them exactly when every scan is of level 1 or 2. */
  lemma {:induction false} LevelsPartition(scans: seq<Spectrum>)
    ensures |ScansOfLevel(scans, 1)| + |ScansOfLevel(scans, 2)| <= |scans|
    ensures |ScansOfLevel(scans, 1)| + |ScansOfLevel(scans, 2)| == |scans| <==> KnownLevels(scans)
  {
    if |scans| > 0 {
      var init, last := scans[..|scans| - 1], scans[|scans| - 1];
      LevelsPartition(init);
      KnownLevelsSnoc(scans);
      assert |ScansOfLevel(scans, 1)| == |ScansOfLevel(init, 1)| + (if last.msLevel == 1 then 1 else 0);
      assert |ScansOfLevel(scans, 2)| == |ScansOfLevel(init, 2)| + (if last.msLevel == 2 then 1 else 0);
    }
  }

  // ---------------------------------------------------------------------------
  // load_ion_lists (lines 92-129)
  // ---------------------------------------------------------------------------

  /** `filter_map(f)` over the items of a JSON array: the items `f` accepts,
      converted, in order. */
  function FilterMap<T>(items: seq<JsonValue>, f: JsonValue -> Option<T>): (r: seq<T>)
    ensures |r| <= |items|
  {
    if |items| == 0 then []
    else
      var init, last := items[..|items| - 1], items[|items| - 1];
      FilterMap(init, f) + (match f(last) case Some(x) => [x] case None => [])
  }

  /** `filter_map` keeps exactly the values `f` produces from some item. */
  lemma {:induction false} FilterMapMembers<T>(items: seq<JsonValue>, f: JsonValue -> Option<T>, x: T)
    ensures x in FilterMap(items, f) <==> exists i :: 0 <= i < |items| && f(items[i]) == Some(x)
  {
    if |items| > 0 {
      var init, last := items[..|items| - 1], items[|items| - 1];
      FilterMapMembers(init, f, x);
      if x in FilterMap(items, f) {
        if x in FilterMap(init, f) {
          var i :| 0 <= i < |init| && f(init[i]) == Some(x);
          assert init[i] == items[i];
        } else {
          assert f(items[|items| - 1]) == Some(x);
        }
      }
      if exists i :: 0 <= i < |items| && f(items[i]) == Some(x) {
        var i :| 0 <= i < |items| && f(items[i]) == Some(x);
        if i < |init| {
          assert init[i] == items[i];
        }
      }
    }
  }

  /** Items skipped by `filter_map` do not disturb the order of the others. */
  lemma {:induction false} FilterMapAppend<T>(front: seq<JsonValue>, back: seq<JsonValue>, f: JsonValue -> Option<T>)
    ensures FilterMap(front + back, f) == FilterMap(front, f) + FilterMap(back, f)
    decreases |back|
  {
    if |back| == 0 {
      assert front + back == front;
    } else {
      var all, init, last := front + back, back[..|back| - 1], back[|back| - 1];
      assert all[..|all| - 1] == front + init;
      var tail := match f(last) case Some(x) => [x] case None => [];
      calc {
        FilterMap(all, f);
        FilterMap(front + init, f) + tail;
        { FilterMapAppend(front, init, f); }
        FilterMap(front, f) + FilterMap(init, f) + tail;
      }
    }
  }

  /** The ion masses of an ion-list entry: the numbers of its "ions" array,
      or none when "ions" is missing or not an array. */
  function EntryIons(entry: JsonValue): seq<real> {
    match AsArray(Index(entry, "ions"))
    case None => []
    case Some(items) => FilterMap(items, AsF64)
  }

  /** The descriptions of an ion-list entry: the strings of its "info" array,
      or none when "info" is missing or not an array. */
  function EntryInfo(entry: JsonValue): seq<string> {
    match AsArray(Index(entry, "info"))
    case None => []
    case Some(items) => FilterMap(items, AsStr)
  }

  /** `load_ion_lists` given the parsed ion-list document; `fromEntry` is
      `Compound::from_ion_list_entry`. */
  function LoadIonLists(ionLists: JsonValue, ionListName: string,
                        fromEntry: (string, seq<real>, seq<string>) -> Compound): (r: seq<Compound>)
    ensures Get(ionLists, ionListName).None? ==> r == []
    ensures Get(ionLists, ionListName).Some? ==>
      |r| == if Get(ionLists, ionListName).value.JObject? then |Get(ionLists, ionListName).value.members| else 0
  {
    match Get(ionLists, ionListName)
    case None => []
    case Some(list) =>
      match AsObject(list)
      case None => []
      case Some(entries) =>
        seq(|entries|, i requires 0 <= i < |entries| =>
          fromEntry(entries[i].0, EntryIons(entries[i].1), EntryInfo(entries[i].1)))
  }

  /** An unknown list name, or a list that is not an object, gives no
      compounds; otherwise there is one compound per entry, in entry order. */
  lemma LoadIonListsEntries(ionLists: JsonValue, ionListName: string,
                            fromEntry: (string, seq<real>, seq<string>) -> Compound)
    ensures var r := LoadIonLists(ionLists, ionListName, fromEntry);
      && (Get(ionLists, ionListName).None? ==> r == [])
      && (Get(ionLists, ionListName).Some? && !Get(ionLists, ionListName).value.JObject? ==> r == [])
      && (Get(ionLists, ionListName).Some? && Get(ionLists, ionListName).value.JObject? ==>
            var entries := Get(ionLists, ionListName).value.members;
            && |r| == |entries|
            && forall i :: 0 <= i < |entries| ==>
                 r[i] == fromEntry(entries[i].0, EntryIons(entries[i].1), EntryInfo(entries[i].1)))
  {
  }

  /** An entry's ions are exactly the numbers of its "ions" array and its
      descriptions exactly the strings of its "info" array: a missing or
      non-array field gives none, and items of another kind are skipped. */
  lemma EntryFields(entry: JsonValue)
    ensures forall x :: x in EntryIons(entry) <==>
      exists items :: Index(entry, "ions") == JArray(items) && JNumber(x) in items
    ensures forall s :: s in EntryInfo(entry) <==>
      exists items :: Index(entry, "info") == JArray(items) && JString(s) in items
  {
    forall x
      ensures x in EntryIons(entry) <==> exists items :: Index(entry, "ions") == JArray(items) && JNumber(x) in items
    {
      if Index(entry, "ions").JArray? {
        var items := Index(entry, "ions").items;
        FilterMapMembers(items, AsF64, x);
        if JNumber(x) in items {
          var k :| 0 <= k < |items| && items[k] == JNumber(x);
          assert AsF64(items[k]) == Some(x);
        }
      }
    }
    forall s
      ensures s in EntryInfo(entry) <==> exists items :: Index(entry, "info") == JArray(items) && JString(s) in items
    {
      if Index(entry, "info").JArray? {
        var items := Index(entry, "info").items;
        FilterMapMembers(items, AsStr, s);
        if JString(s) in items {
          var k :| 0 <= k < |items| && items[k] == JString(s);
          assert AsStr(items[k]) == Some(s);
        }
      }
    }
  }

  // ---------------------------------------------------------------------------
  // process_files_in_parallel (lines 58-90)
  // ---------------------------------------------------------------------------

  /** What the processing of a batch reads from outside: the file system with
      the mzML decoder (`None` when a file cannot be opened), the parsed
      ion-list document, `Compound::from_ion_list_entry`, and `f64` parsing of
      ion labels. */
  datatype Environment = Environment(
    decode: string -> Option<seq<Spectrum>>,
    ionLists: JsonValue,
    compoundFromEntry: (string, seq<real>, seq<string>) -> Compound,
    parseMass: string -> Option<real>)

  /** Lines 71-84: one file, against the shared ion list. */
  function ProcessFile(path: string, ionList: seq<Compound>, massAccuracy: real, env: Environment): (r: Outcome<MSMeasurement>)
    ensures r.Done? ==> r.value.massAccuracy == massAccuracy && |r.value.compounds| == |ionList|
    ensures r.Done? && env.decode(path).None? ==> r.value.ms1Scans == [] && r.value.ms2Scans == []
  {
    var (ms1Scans, ms2Scans) := LoadedScans(env.decode(path));
    match Processing.Xics(ms1Scans, ionList, massAccuracy, env.parseMass)
    case Panicked => Panicked
    case Done(compounds) => Done(MSMeasurement(ms1Scans, ms2Scans, compounds, massAccuracy))
  }

  /** Lines 69-85: the per-file work over all paths, gathered in input order
      (a panic in any worker panics the whole call). */
  function MapFiles(paths: seq<string>, ionList: seq<Compound>, massAccuracy: real, env: Environment): (r: Outcome<seq<MSMeasurement>>)
    ensures r.Done? ==> |r.value| == |paths|
  {
    if |paths| == 0 then Done([])
    else
      match ProcessFile(paths[0], ionList, massAccuracy, env)
      case Panicked => Panicked
      case Done(m) =>
        match MapFiles(paths[1..], ionList, massAccuracy, env)
        case Panicked => Panicked
        case Done(ms) => Done([m] + ms)
  }

  /** `process_files_in_parallel`: the ion list is loaded once and shared by
      every file. */
  function ProcessFilesInParallel(paths: seq<string>, ionListName: string, massAccuracy: real,
                                  env: Environment): (r: Outcome<seq<MSMeasurement>>)
    ensures r.Done? ==> |r.value| == |paths| && forall i :: 0 <= i < |paths| ==> r.value[i].massAccuracy == massAccuracy
  {
    var ionList := LoadIonLists(env.ionLists, ionListName, env.compoundFromEntry);
    MapFilesOnePerPath(paths, ionList, massAccuracy, env);
    MapFiles(paths, ionList, massAccuracy, env)
  }

  /** Exactly one measurement per path, in input order, unless some file's
      processing panics. */
  lemma {:induction false} MapFilesOnePerPath(paths: seq<string>, ionList: seq<Compound>, massAccuracy: real, env: Environment)
    ensures MapFiles(paths, ionList, massAccuracy, env).Done? <==>
      forall i :: 0 <= i < |paths| ==> ProcessFile(paths[i], ionList, massAccuracy, env).Done?
    ensures MapFiles(paths, ionList, massAccuracy, env).Done? ==>
      var ms := MapFiles(paths, ionList, massAccuracy, env).value;
      |ms| == |paths| && forall i :: 0 <= i < |paths| ==> ms[i] == ProcessFile(paths[i], ionList, massAccuracy, env).value
  {
    if |paths| > 0 {
      MapFilesOnePerPath(paths[1..], ionList, massAccuracy, env);
      assert forall i :: 1 <= i < |paths| ==> paths[i] == paths[1..][i - 1];
    }
  }

  /** Each measurement holds the file's MS1 and MS2 scans, the result of
      construct_xics over those MS1 scans with the one shared ion list, and
      the batch's mass accuracy. */
  lemma ProcessFilesMeasurements(paths: seq<string>, ionListName: string, massAccuracy: real, env: Environment)
    requires ProcessFilesInParallel(paths, ionListName, massAccuracy, env).Done?
    ensures var ms := ProcessFilesInParallel(paths, ionListName, massAccuracy, env).value;
      var ionList := LoadIonLists(env.ionLists, ionListName, env.compoundFromEntry);
      && |ms| == |paths|
      && forall i :: 0 <= i < |paths| ==>
           && (ms[i].ms1Scans, ms[i].ms2Scans) == LoadedScans(env.decode(paths[i]))
           && Processing.Xics(ms[i].ms1Scans, ionList, massAccuracy, env.parseMass) == Done(ms[i].compounds)
           && ms[i].massAccuracy == massAccuracy
  {
    var ionList := LoadIonLists(env.ionLists, ionListName, env.compoundFromEntry);
    MapFilesOnePerPath(paths, ionList, massAccuracy, env);
  }

  /** A file that cannot be opened does not stop the batch: it yields a
      measurement with no scans in which every ion's "MS Intensity" is None,
      unless an ion label fails to parse. */
  lemma MissingFileMeasurement(path: string, ionList: seq<Compound>, massAccuracy: real, env: Environment)
    requires env.decode(path).None?
    ensures ProcessFile(path, ionList, massAccuracy, env).Done? <==>
      forall c, ionName :: 0 <= c < |ionList| && ionName in ionList[c].ions ==> env.parseMass(ionName).Some?
    ensures ProcessFile(path, ionList, massAccuracy, env).Done? ==>
      var m := ProcessFile(path, ionList, massAccuracy, env).value;
      && m.ms1Scans == [] && m.ms2Scans == []
      && |m.compounds| == |ionList|
      && forall c, ionName :: 0 <= c < |ionList| && ionName in ionList[c].ions ==>
           ionName in m.compounds[c].ions
           && m.compounds[c].ions[ionName] == ionList[c].ions[ionName][MsIntensity := None]
  {
    Processing.XicsPanicked([], ionList, massAccuracy, env.parseMass);
    forall ionName | env.parseMass(ionName).Some?
      ensures !Processing.IonPanics(ionName, [], massAccuracy, env.parseMass)
    {
      assert Processing.IonSamples(ionName, [], massAccuracy, env.parseMass) == [];
    }
    if ProcessFile(path, ionList, massAccuracy, env).Done? {
      Processing.XicsShape([], ionList, massAccuracy, env.parseMass);
      forall c, ionName | 0 <= c < |ionList| && ionName in ionList[c].ions
        ensures Processing.IonResult(ionName, ionList[c].ions[ionName], [], massAccuracy, env.parseMass)
          == Some(ionList[c].ions[ionName][MsIntensity := None])
      {
        Processing.IonResultWithoutSpectra(ionName, ionList[c].ions[ionName], massAccuracy, env.parseMass);
      }
    }
  }
}
