/** The class `DataFile` of circus/files/datafile.py: a chunk-indexed view over a
    recording of shape (time samples, N_tot channels), its validation at construction,
    the resolution of `rate`, `N_e` and `N_tot`, and the lazily cached window values. */
module DataFiles {
  import opened Wrappers
  import opened Errors
  import opened Params
  import opened Paths
  import opened Requirements
  import opened Window
  import opened Chunks

  /** The per-format class attributes (`_description`, `_extension`, `_parallel_write`,
      `_is_writable`, `_requiered_fields`); `extensions == None` disables the check. */
  datatype Format = Format(
    description: string,
    extensions: Option<seq<string>>,
    parallelWrite: bool,
    writable: bool,
    requiredFields: Fields)

  /** The keyword arguments of the constructor, each set on the object when present. */
  datatype Overrides = Overrides(
    rate: Option<real>,
    nE: Option<int>,
    nTot: Option<int>,
    shape: Option<(int, int)>,
    maxOffset: Option<int>,
    nT: Option<int>,
    distPeaks: Option<int>,
    templateShift: Option<int>,
    safetyTime: Option<real>)

  const NoOverrides: Overrides := Overrides(None, None, None, None, None, None, None, None, None)

  /** The extension test: the listed spellings and their upper-case forms. */
  predicate ExtensionAccepted(extensions: Option<seq<string>>, ext: string) {
    extensions.None? || ext in extensions.value + UpperAll(extensions.value)
  }

  /** The three parameters every data file needs. */
  datatype Attr = Rate | Electrodes | TotalChannels

  /** One entry of `requiered_values`: the attribute and where [section] key it is read. */
  datatype Required = Required(attr: Attr, section: string, key: string)

  const RequiredValues: seq<Required> := [
    Required(Rate, "data", "sampling_rate"),
    Required(Electrodes, "data", "N_e"),
    Required(TotalChannels, "data", "N_total")]

  /** Which of `rate`, `N_e`, `N_tot` the object has (Python's `hasattr`), and their values. */
  datatype Attrs = Attrs(rate: Option<real>, nE: Option<int>, nTot: Option<int>)

  function Overridden(ov: Overrides): Attrs {
    Attrs(ov.rate, ov.nE, ov.nTot)
  }

  predicate Has(a: Attrs, x: Attr) {
    match x
    case Rate => a.rate.Some?
    case Electrodes => a.nE.Some?
    case TotalChannels => a.nTot.Some?
  }

  predicate AllSet(a: Attrs) {
    a.rate.Some? && a.nE.Some? && a.nTot.Some?
  }

  /** One step of the resolution loop: an attribute already set is kept, otherwise it
      is read from the parameter file as a float (`rate`) or an int. */
  function Fill(a: Attrs, rv: Required, cfg: Config): Result<Attrs, Error> {
    if Has(a, rv.attr) then Success(a)
    else
      match rv.attr
      case Rate =>
        var x :- GetFloat(cfg, rv.section, rv.key);
        Success(a.(rate := Some(x)))
      case Electrodes =>
        var n :- GetInt(cfg, rv.section, rv.key);
        Success(a.(nE := Some(n)))
      case TotalChannels =>
        var n :- GetInt(cfg, rv.section, rv.key);
        Success(a.(nTot := Some(n)))
  }

  function FillAll(a: Attrs, rvs: seq<Required>, cfg: Config): Result<Attrs, Error>
    decreases |rvs|
  {
    if rvs == [] then Success(a)
    else
      var a' :- Fill(a, rvs[0], cfg);
      FillAll(a', rvs[1..], cfg)
  }

  /** What construction decides: the two validations, in the source's order, then the
      resolution of the three parameters from the overrides and the parameter file. */
  function Resolve(format: Format, fileName: string, isEmpty: bool, ov: Overrides, cfg: Config): Result<Attrs, Error> {
    match Validate(format, fileName, isEmpty)
    case Some(e) => Failure(e)
    case None => FillAll(Overridden(ov), RequiredValues, cfg)
  }

  /** The two validations made before any parameter is read, in the source's order. */
  function Validate(format: Format, fileName: string, isEmpty: bool): Option<Error> {
    if isEmpty && !format.writable then Some(EmptyNotWritable(fileName))
    else
      var ext := SplitExt(fileName).1;
      if !ExtensionAccepted(format.extensions, ext) then Some(BadExtension(ext, format.description))
      else None
  }

  /** Construction succeeds exactly when both validations pass and every parameter has
      an override or a well-typed entry; each parameter is its override when there is one
      and its configuration value otherwise. */
  lemma ResolveOutcome(format: Format, fileName: string, isEmpty: bool, ov: Overrides, cfg: Config)
    ensures var r := Resolve(format, fileName, isEmpty, ov, cfg);
            && (r.Success? <==>
                  && !(isEmpty && !format.writable)
                  && ExtensionAccepted(format.extensions, SplitExt(fileName).1)
                  && (ov.rate.Some? || GetFloat(cfg, "data", "sampling_rate").Success?)
                  && (ov.nE.Some? || GetInt(cfg, "data", "N_e").Success?)
                  && (ov.nTot.Some? || GetInt(cfg, "data", "N_total").Success?))
            && (r.Success? ==>
                  && r.value.rate == Some(if ov.rate.Some? then ov.rate.value else GetFloat(cfg, "data", "sampling_rate").value)
                  && r.value.nE == Some(if ov.nE.Some? then ov.nE.value else GetInt(cfg, "data", "N_e").value)
                  && r.value.nTot == Some(if ov.nTot.Some? then ov.nTot.value else GetInt(cfg, "data", "N_total").value))
  {
  }

  /** A completed resolution has all three parameters. */
  lemma FillAllSetsAll(a: Attrs, cfg: Config)
    requires FillAll(a, RequiredValues, cfg).Success?
    ensures AllSet(FillAll(a, RequiredValues, cfg).value)
  {
  }

  /** A non-writable format refuses an empty file, whatever else is wrong. */
  lemma EmptyNotWritableRejected(format: Format, fileName: string, ov: Overrides, cfg: Config)
    requires !format.writable
    ensures Resolve(format, fileName, true, ov, cfg) == Failure(EmptyNotWritable(fileName))
  {
  }

  /** A file whose extension is not accepted is refused; with no extension list every
      file passes this test. */
  lemma ExtensionChecked(format: Format, fileName: string, isEmpty: bool, ov: Overrides, cfg: Config)
    requires !(isEmpty && !format.writable)
    ensures !ExtensionAccepted(format.extensions, SplitExt(fileName).1) ==>
              Resolve(format, fileName, isEmpty, ov, cfg) == Failure(BadExtension(SplitExt(fileName).1, format.description))
    ensures format.extensions.None? ==>
              Resolve(format, fileName, isEmpty, ov, cfg) == FillAll(Overridden(ov), RequiredValues, cfg)
  {
  }

  /** An accepted extension is one of the listed spellings or the upper-case form of one. */
  lemma ExtensionAcceptedIff(exts: seq<string>, ext: string)
    ensures ExtensionAccepted(Some(exts), ext) <==>
            exists i :: 0 <= i < |exts| && (ext == exts[i] || ext == Upper(exts[i]))
  {
  }

  /** An accepted extension that is not itself listed is the upper-case form of a listed
      one, so it has no lower-case letter: mixed-case spellings are always refused. */
  lemma AcceptedUnlistedHasNoLower(exts: seq<string>, ext: string)
    requires ExtensionAccepted(Some(exts), ext) && ext !in exts
    ensures exists i :: 0 <= i < |exts| && ext == Upper(exts[i])
    ensures forall k :: 0 <= k < |ext| ==> !('a' <= ext[k] <= 'z')
  {
  }

  /** Matching is case-insensitive only for all-upper-case spellings: ".DAT" passes for
      ".dat", ".Dat" does not, and ".xyz" is refused. */
  lemma ExtensionExamples()
    ensures ExtensionAccepted(Some([".dat"]), ".dat")
    ensures ExtensionAccepted(Some([".dat"]), ".DAT")
    ensures !ExtensionAccepted(Some([".dat"]), ".Dat")
    ensures !ExtensionAccepted(Some([".dat"]), ".xyz")
    ensures ExtensionAccepted(None, ".Dat")
  {
    var up := UpperAll([".dat"]);
    assert Upper(".dat") == ".DAT";
    assert up == [".DAT"];
    assert [".dat"] + up == [".dat", ".DAT"];
    assert ".Dat" != ".dat" && ".Dat" != ".DAT" by {
      assert ".Dat"[1] != ".dat"[1] && ".Dat"[2] != ".DAT"[2];
    }
    assert ".xyz"[1] != ".dat"[1] && ".xyz"[1] != ".DAT"[1];
  }

  /** A ".xyz" file is refused by a format that lists only ".dat". */
  lemma BadExtensionExample(cfg: Config)
    ensures var dat := Format("dat", Some([".dat"]), true, true, []);
            Resolve(dat, "rec.xyz", false, NoOverrides, cfg) == Failure(BadExtension(".xyz", "dat"))
  {
    var p := "rec.xyz";
    LastIndexIs(p, '.', 3);
    assert LastIndex(p, '/') == -1;
    assert p[0] != '.';
    assert p[..3] == "rec" && p[3..] == ".xyz";
    ExtensionExamples();
  }

  class DataFile {
    const format: Format
    const fileName: string
    const params: Config
    const isEmpty: bool

    var rate: Option<real>
    var nE: Option<int>
    var nTot: Option<int>
    var shape: (int, int)
    var maxOffset: int

    /** `_N_t`, `_dist_peaks`, `_template_shift`, `_safety_time` */
    var nTCache: Option<int>
    var distPeaksCache: Option<int>
    var templateShiftCache: Option<int>
    var safetyTimeCache: Option<real>

    /** The configuration keys the lazy properties have consulted, in order. */
    ghost var consulted: seq<(string, string)>
    /** How many times the backend's `_get_info_` has run. */
    ghost var infoCalls: nat

    /** After construction: the three parameters are set, and a cached window length is
        the one the configuration gives. */
    ghost predicate Valid()
      reads this
    {
      && rate.Some? && nE.Some? && nTot.Some?
      && (nTCache.Some? ==> WindowFromConfig(params, rate.value) == Success(nTCache.value))
    }

    function Attributes(): Attrs
      reads this
    {
      Attrs(rate, nE, nTot)
    }

    /** The object before `__init__` has set anything: the class-level defaults. */
    constructor (format: Format, fileName: string, params: Config, isEmpty: bool)
      ensures this.format == format && this.fileName == fileName
      ensures this.params == params && this.isEmpty == isEmpty
      ensures Attributes() == Attrs(None, None, None)
      ensures shape == (0, 0) && maxOffset == 0
      ensures nTCache == None && distPeaksCache == None && templateShiftCache == None && safetyTimeCache == None
      ensures consulted == [] && infoCalls == 0
    {
      this.format := format;
      this.fileName := fileName;
      this.params := params;
      this.isEmpty := isEmpty;
      rate, nE, nTot := None, None, None;
      shape, maxOffset := (0, 0), 0;
      nTCache, distPeaksCache, templateShiftCache, safetyTimeCache := None, None, None, None;
      consulted, infoCalls := [], 0;
    }

    /** `for key, value in kwargs.items(): self.__setattr__(key, value)` */
    method ApplyOverrides(ov: Overrides)
      modifies this`rate, this`nE, this`nTot, this`shape, this`maxOffset
      modifies this`nTCache, this`distPeaksCache, this`templateShiftCache, this`safetyTimeCache
      ensures rate == ov.rate.Or(old(rate))
      ensures nE == ov.nE.Or(old(nE))
      ensures nTot == ov.nTot.Or(old(nTot))
      ensures shape == ov.shape.GetOr(old(shape)) && maxOffset == ov.maxOffset.GetOr(old(maxOffset))
      ensures nTCache == ov.nT.Or(old(nTCache))
      ensures distPeaksCache == ov.distPeaks.Or(old(distPeaksCache))
      ensures templateShiftCache == ov.templateShift.Or(old(templateShiftCache))
      ensures safetyTimeCache == ov.safetyTime.Or(old(safetyTimeCache))
    {
      rate := ov.rate.Or(rate);
      nE := ov.nE.Or(nE);
      nTot := ov.nTot.Or(nTot);
      shape := ov.shape.GetOr(shape);
      maxOffset := ov.maxOffset.GetOr(maxOffset);
      nTCache := ov.nT.Or(nTCache);
      distPeaksCache := ov.distPeaks.Or(distPeaksCache);
      templateShiftCache := ov.templateShift.Or(templateShiftCache);
      safetyTimeCache := ov.safetyTime.Or(safetyTimeCache);
    }

    /** One iteration of the loop over `requiered_values`. */
    method Require(rv: Required) returns (e: Option<Error>)
      modifies this`rate, this`nE, this`nTot
      ensures match Fill(old(Attributes()), rv, params)
              case Success(a) => e == None && Attributes() == a
              case Failure(err) => e == Some(err) && Attributes() == old(Attributes())
    {
      e := None;
      if !Has(Attributes(), rv.attr) {
        match rv.attr
        case Rate =>
          var x := GetFloat(params, rv.section, rv.key);
          if x.Failure? { e := Some(x.error); return; }
          rate := Some(x.value);
        case Electrodes =>
          var n := GetInt(params, rv.section, rv.key);
          if n.Failure? { e := Some(n.error); return; }
          nE := Some(n.value);
        case TotalChannels =>
          var n := GetInt(params, rv.section, rv.key);
          if n.Failure? { e := Some(n.error); return; }
          nTot := Some(n.value);
      }
    }

    /** `for key, value in requiered_values.items()`: each parameter the object does not
        have yet is read from the parameter file; the first failed lookup ends construction. */
    method ResolveRequired() returns (e: Option<Error>)
      modifies this`rate, this`nE, this`nTot
      ensures e.None? <==> FillAll(old(Attributes()), RequiredValues, params).Success?
      ensures e.None? ==> Attributes() == FillAll(old(Attributes()), RequiredValues, params).value
      ensures e.Some? ==> e.value == FillAll(old(Attributes()), RequiredValues, params).error
    {
      var i := 0;
      while i < |RequiredValues|
        invariant 0 <= i <= |RequiredValues|
        invariant FillAll(Attributes(), RequiredValues[i..], params) == FillAll(old(Attributes()), RequiredValues, params)
      {
        assert RequiredValues[i..][1..] == RequiredValues[i + 1..];
        e := Require(RequiredValues[i]);
        if e.Some? {
          return;
        }
        i := i + 1;
      }
      e := None;
    }

    /** The four cache attributes are set to None, after the overrides were applied. */
    method ResetCaches()
      modifies this`nTCache, this`distPeaksCache, this`templateShiftCache, this`safetyTimeCache
      ensures nTCache == None && distPeaksCache == None && templateShiftCache == None && safetyTimeCache == None
    {
      nTCache, distPeaksCache, templateShiftCache, safetyTimeCache := None, None, None, None;
    }

    /** `_get_info_`: the backend's header introspection (empty in the generic class). */
    method GetInfo()
      modifies this`infoCalls
      ensures infoCalls == old(infoCalls) + 1
    {
      infoCalls := infoCalls + 1;
    }

    /** The part of `__init__` after the validations: the overrides are applied, the
        missing parameters are read, the caches are wiped and, for a non-empty file,
        the header is read. */
    static method Initialize(format: Format, fileName: string, params: Config, isEmpty: bool, ov: Overrides)
      returns (f: DataFile, e: Option<Error>)
      ensures fresh(f)
      ensures e.None? <==> FillAll(Overridden(ov), RequiredValues, params).Success?
      ensures e.Some? ==> e.value == FillAll(Overridden(ov), RequiredValues, params).error
      ensures e.None? ==> f.Valid() && f.Attributes() == FillAll(Overridden(ov), RequiredValues, params).value
      ensures f.format == format && f.fileName == fileName && f.params == params && f.isEmpty == isEmpty
      ensures f.shape == ov.shape.GetOr((0, 0)) && f.maxOffset == ov.maxOffset.GetOr(0)
      ensures e.None? ==> f.nTCache == None && f.distPeaksCache == None
      ensures e.None? ==> f.templateShiftCache == None && f.safetyTimeCache == None
      ensures e.None? ==> f.consulted == [] && f.infoCalls == (if isEmpty then 0 else 1)
    {
      f := new DataFile(format, fileName, params, isEmpty);
      f.ApplyOverrides(ov);
      assert f.Attributes() == Overridden(ov);
      e := f.ResolveRequired();
      if e.Some? {
        return;
      }
      FillAllSetsAll(Overridden(ov), params);
      f.ResetCaches();
      if !isEmpty {
        f.GetInfo();
      }
    }

    /** `DataFile(file_name, params, is_empty, **kwargs)`: fails as Resolve says, and
        otherwise yields an object holding the resolved parameters, with the shape and
        offset overrides kept, every cache empty (cache overrides included) and the
        header read exactly when the file is not empty. */
    static method Create(format: Format, fileName: string, params: Config, isEmpty: bool, ov: Overrides)
      returns (r: Result<DataFile, Error>)
      ensures r.Failure? <==> Resolve(format, fileName, isEmpty, ov, params).Failure?
      ensures r.Failure? ==> r.error == Resolve(format, fileName, isEmpty, ov, params).error
      ensures r.Success? ==> fresh(r.value) && r.value.Valid()
      ensures r.Success? ==> r.value.format == format && r.value.fileName == fileName
      ensures r.Success? ==> r.value.params == params && r.value.isEmpty == isEmpty
      ensures r.Success? ==> r.value.Attributes() == Resolve(format, fileName, isEmpty, ov, params).value
      ensures r.Success? ==> r.value.shape == ov.shape.GetOr((0, 0)) && r.value.maxOffset == ov.maxOffset.GetOr(0)
      ensures r.Success? ==> r.value.nTCache == None && r.value.distPeaksCache == None
      ensures r.Success? ==> r.value.templateShiftCache == None && r.value.safetyTimeCache == None
      ensures r.Success? ==> r.value.consulted == [] && r.value.infoCalls == (if isEmpty then 0 else 1)
    {
      var v := Validate(format, fileName, isEmpty);
      if v.Some? {
        return Failure(v.value);
      }
      var f, e := Initialize(format, fileName, params, isEmpty, ov);
      if e.Some? {
        return Failure(e.value);
      }
      return Success(f);
    }

    /** `N_t` (property): computed from the configuration on first access, then cached;
        a cached value is returned without consulting the configuration. */
    method NT() returns (r: Result<int, Error>)
      requires Valid()
      modifies this`nTCache, this`consulted
      ensures Valid()
      ensures r == WindowFromConfig(params, rate.value)
      ensures r.Success? ==> r.value % 2 == 1
      ensures old(nTCache).Some? ==> nTCache == old(nTCache) && consulted == old(consulted)
      ensures old(nTCache).None? ==>
                && consulted == old(consulted) + DurationKeys(params)
                && nTCache == (if r.Success? then Some(r.value) else None)
    {
      if nTCache.Some? {
        return Success(nTCache.value);
      }
      consulted := consulted + DurationKeys(params);
      var d := Duration(params);
      if d.Failure? {
        return Failure(d.error);
      }
      var samples := Samples(rate.value, d.value);
      var n := Trunc(samples);
      if n % 2 == 0 {
        n := n + 1;
      }
      assert n == WindowLength(rate.value, d.value);
      nTCache := Some(n);
      return Success(n);
    }

    /** `dist_peaks` (property): always the window length. */
    method DistPeaks() returns (r: Result<int, Error>)
      requires Valid()
      modifies this`nTCache, this`consulted
      ensures Valid()
      ensures r == WindowFromConfig(params, rate.value)
      ensures old(nTCache).Some? ==> nTCache == old(nTCache) && consulted == old(consulted)
      ensures old(nTCache).None? ==>
                && consulted == old(consulted) + DurationKeys(params)
                && nTCache == (if r.Success? then Some(r.value) else None)
    {
      r := NT();
    }

    /** `template_shift` (property): the `_template_shift` attribute when set, otherwise
        half the window length below its centre sample; the result itself is not cached. */
    method TemplateShift() returns (r: Result<int, Error>)
      requires Valid()
      modifies this`nTCache, this`consulted
      ensures Valid()
      ensures old(templateShiftCache).Some? ==>
                r == Success(old(templateShiftCache).value) && nTCache == old(nTCache) && consulted == old(consulted)
      ensures old(templateShiftCache).None? ==>
                && (r.Success? <==> WindowFromConfig(params, rate.value).Success?)
                && (r.Success? ==> 2 * r.value + 1 == WindowFromConfig(params, rate.value).value)
      ensures old(nTCache).Some? ==> nTCache == old(nTCache) && consulted == old(consulted)
      ensures old(templateShiftCache).None? && old(nTCache).None? ==>
                && consulted == old(consulted) + DurationKeys(params)
                && nTCache == (if r.Success? then Some(2 * r.value + 1) else None)
    {
      if templateShiftCache.Some? {
        return Success(templateShiftCache.value);
      }
      var n := NT();
      if n.Failure? {
        return Failure(n.error);
      }
      return Success((n.value - 1) / 2);
    }

    /** `get_safety_time(key)`: `[key] safety_time` as a number, or, when it is "auto",
        the window duration in ms floor-divided by 3 (milliseconds, not samples). */
    function GetSafetyTime(key: string): (r: Result<real, Error>)
      ensures Get(params, key, "safety_time").Failure? ==> r.Failure?
      ensures Get(params, key, "safety_time") == Success(StrV("auto")) ==>
                && (r.Success? <==> Duration(params).Success?)
                && (r.Success? ==> && r.value == r.value.Floor as real
                                   && 3.0 * r.value <= Duration(params).value < 3.0 * r.value + 3.0)
      ensures Get(params, key, "safety_time").Success? && Get(params, key, "safety_time").value != StrV("auto") ==>
                (r.Success? <==> ToFloat(Get(params, key, "safety_time").value).Some?) &&
                (r.Success? ==> r.value == ToFloat(Get(params, key, "safety_time").value).value)
    {
      var raw :- Get(params, key, "safety_time");
      if raw == StrV("auto") then
        var d :- Duration(params);
        Success((d / 3.0).Floor as real)
      else
        match ToFloat(raw)
        case Some(x) => Success(x)
        case None => Failure(BadValue(key, "safety_time", "float"))
    }

    /** `analyze(chunk_size)`: the chunk plan for the recording's first dimension, with
        the explicit chunk size or else the configured one; it changes nothing. */
    function Analyze(chunkSize: Option<int>): (r: Result<(int, int), Error>)
      reads this
      ensures chunkSize.Some? ==> r == Success(ChunkPlan(shape.0, chunkSize.value))
      ensures chunkSize.None? ==>
                && (r.Success? <==> GetInt(params, "data", "chunk_size").Success?)
                && (r.Success? ==> r.value == ChunkPlan(shape.0, GetInt(params, "data", "chunk_size").value))
    {
      var size :- ChunkSize(params, chunkSize);
      Success(ChunkPlan(shape.0, size))
    }
  }

  /** A second access to `N_t` returns the first one's value; after a successful first
      access the only keys consulted are those of that access, if it was the first. */
  method NTStable(f: DataFile) returns (first: Result<int, Error>, second: Result<int, Error>)
    requires f.Valid()
    modifies f
    ensures first == second
    ensures first.Success? ==> f.nTCache == Some(first.value)
    ensures first.Success? ==>
              f.consulted == old(f.consulted) + (if old(f.nTCache).None? then DurationKeys(f.params) else [])
  {
    first := f.NT();
    ghost var seen := f.consulted;
    second := f.NT();
    assert first.Success? ==> f.consulted == seen;
  }

  /** The safety time of a 3 ms window at 20 kHz is 1 (ms), not 20 samples. */
  lemma SafetyTimeInMilliseconds(f: DataFile)
    requires f.params == map[("clustering", "safety_time") := StrV("auto"), ("detection", "N_t") := RealV(3.0)]
    ensures f.GetSafetyTime("clustering") == Success(1.0)
  {
  }
}
