/** The renderer's filter store: the measurement, the designed
    coefficients and response, the design settings, and a status that
    moves between idle, loading, processing, ready and error. */
module FilterStore {
  import opened Common
  import FileManager
  import FirProcessor

  datatype Status = Idle | Loading | Processing | Ready | Error

  /** The design settings the store keeps. */
  datatype StoreConfig = StoreConfig(
    designMethod: string,
    numTaps: nat,
    sampleRate: real,
    filterType: string,
    cutoffFrequency: real,
    windowType: string,
    passbandRipple: real,
    stopbandAttenuation: real)

  const InitialConfig: StoreConfig :=
    StoreConfig("least-squares", 512, 48000.0, "lowpass", 0.1, "hamming", 0.1, 80.0)

  /** The keys an `updateFilterConfig` call gives; `None` for a key it
      leaves out. */
  datatype ConfigPatch = ConfigPatch(
    designMethod: Option<string>,
    numTaps: Option<nat>,
    sampleRate: Option<real>,
    filterType: Option<string>,
    cutoffFrequency: Option<real>,
    windowType: Option<string>,
    passbandRipple: Option<real>,
    stopbandAttenuation: Option<real>)

  /** `{ ...config, ...patch }`. */
  function Patched(c: StoreConfig, p: ConfigPatch): StoreConfig
  {
    StoreConfig(
      FirProcessor.Override(p.designMethod, c.designMethod),
      FirProcessor.Override(p.numTaps, c.numTaps),
      FirProcessor.Override(p.sampleRate, c.sampleRate),
      FirProcessor.Override(p.filterType, c.filterType),
      FirProcessor.Override(p.cutoffFrequency, c.cutoffFrequency),
      FirProcessor.Override(p.windowType, c.windowType),
      FirProcessor.Override(p.passbandRipple, c.passbandRipple),
      FirProcessor.Override(p.stopbandAttenuation, c.stopbandAttenuation))
  }

  /** A key the patch gives takes the patch's value; every other key keeps
      its old value; an empty patch changes nothing, and patching twice
      with the same patch is patching once. */
  lemma PatchRules(c: StoreConfig, p: ConfigPatch)
    ensures var n := Patched(c, p);
      && (p.designMethod.Some? ==> n.designMethod == p.designMethod.value)
      && (p.designMethod.None? ==> n.designMethod == c.designMethod)
      && (p.numTaps.Some? ==> n.numTaps == p.numTaps.value)
      && (p.numTaps.None? ==> n.numTaps == c.numTaps)
      && (p.sampleRate.Some? ==> n.sampleRate == p.sampleRate.value)
      && (p.sampleRate.None? ==> n.sampleRate == c.sampleRate)
      && (p.filterType.Some? ==> n.filterType == p.filterType.value)
      && (p.filterType.None? ==> n.filterType == c.filterType)
      && (p.cutoffFrequency.Some? ==> n.cutoffFrequency == p.cutoffFrequency.value)
      && (p.cutoffFrequency.None? ==> n.cutoffFrequency == c.cutoffFrequency)
      && (p.windowType.Some? ==> n.windowType == p.windowType.value)
      && (p.windowType.None? ==> n.windowType == c.windowType)
      && (p.passbandRipple.Some? ==> n.passbandRipple == p.passbandRipple.value)
      && (p.passbandRipple.None? ==> n.passbandRipple == c.passbandRipple)
      && (p.stopbandAttenuation.Some? ==> n.stopbandAttenuation == p.stopbandAttenuation.value)
      && (p.stopbandAttenuation.None? ==> n.stopbandAttenuation == c.stopbandAttenuation)
    ensures Patched(c, ConfigPatch(None, None, None, None, None, None, None, None)) == c
    ensures Patched(Patched(c, p), p) == Patched(c, p)
  {
  }

  /** The settings `designFilter` sends, as the design's options; the
      frequency-range key is absent. */
  function DesignRequest(c: StoreConfig): FirProcessor.Options
  {
    FirProcessor.Options(
      Some(c.designMethod), Some(c.numTaps), Some(c.sampleRate), Some(c.passbandRipple),
      Some(c.stopbandAttenuation), None, Some(c.filterType), Some(c.cutoffFrequency), Some(c.windowType))
  }

  /** The store's request is designed with the store's settings and never
      switches the range filter on, so the design cannot fail and uses
      every point. */
  lemma RequestUsesStoreSettings(c: StoreConfig)
    ensures var d := FirProcessor.MergeOptions(DesignRequest(c));
      && d.numTaps == c.numTaps && d.sampleRate == c.sampleRate && d.designMethod == c.designMethod
      && d.passbandRipple == c.passbandRipple && d.stopbandAttenuation == c.stopbandAttenuation
      && d.filterType == Some(c.filterType) && d.cutoffFrequency == Some(c.cutoffFrequency)
      && d.windowType == Some(c.windowType)
      && !FirProcessor.RangeFilterEnabled(d)
  {
    FirProcessor.RangeFilterOffByDefault();
  }

  /** What the file dialog of `openTRFFile` gives back: a processed file,
      nothing when the dialog is cancelled, or a failure message. */
  datatype LoadOutcome =
    | Opened(record: FileManager.FileRecord)
    | Cancelled
    | Failed(message: string)

  const NoElectronApi: string := "Electron API not available. Please run in Electron environment."
  const NoTRFDataLoaded: string := "No TRF data loaded"

  class Store {
    var trfData: Option<FileManager.FileRecord>
    var coefficients: seq<real>
    var frequencyResponse: Option<seq<FirProcessor.ResponsePoint>>
    var filterConfig: StoreConfig
    var status: Status
    var error: Option<string>

    constructor()
      ensures trfData == None && coefficients == [] && frequencyResponse == None
      ensures filterConfig == InitialConfig && filterConfig.numTaps == 512 && filterConfig.sampleRate == 48000.0
      ensures status == Idle && error == None
    {
      trfData := None;
      coefficients := [];
      frequencyResponse := None;
      filterConfig := InitialConfig;
      status := Idle;
      error := None;
    }

    predicate HasTRFData()
      reads this
    {
      trfData.Some?
    }

    predicate HasCoefficients()
      reads this
    {
      |coefficients| > 0
    }

    predicate IsProcessing()
      reads this
    {
      status == Loading || status == Processing
    }

    predicate CanDesignFilter()
      reads this
    {
      trfData.Some? && status != Loading && status != Processing
    }

    /** Designing is possible exactly when data is loaded and nothing is in
        progress. */
    lemma CanDesignWhenIdleWithData()
      ensures CanDesignFilter() <==> HasTRFData() && !IsProcessing()
    {
    }

    /** `loadTRFFile`: loading, then ready with the opened file, back to
        idle when the dialog is cancelled, or error with the message. */
    method LoadTRFFile(apiAvailable: bool, outcome: LoadOutcome) returns (r: Result<Option<FileManager.FileRecord>, string>)
      modifies this
      ensures coefficients == old(coefficients) && frequencyResponse == old(frequencyResponse)
      ensures filterConfig == old(filterConfig)
      ensures !apiAvailable ==>
        r == Err(NoElectronApi) && status == Error && error == Some(NoElectronApi) && trfData == old(trfData)
      ensures apiAvailable && outcome.Opened? ==>
        r == Ok(Some(outcome.record)) && trfData == Some(outcome.record) && status == Ready && error == None
      ensures apiAvailable && outcome.Cancelled? ==>
        r == Ok(None) && trfData == old(trfData) && status == Idle && error == None
      ensures apiAvailable && outcome.Failed? ==>
        r == Err(outcome.message) && trfData == old(trfData) && status == Error && error == Some(outcome.message)
    {
      status := Loading;
      error := None;
      if !apiAvailable {
        status := Error;
        error := Some(NoElectronApi);
        return Err(NoElectronApi);
      }
      match outcome
      case Opened(record) =>
        trfData := Some(record);
        status := Ready;
        r := Ok(Some(record));
      case Cancelled =>
        status := Idle;
        r := Ok(None);
      case Failed(message) =>
        status := Error;
        error := Some(message);
        r := Err(message);
    }

    /** `designFilter`: without data it fails before anything changes;
        otherwise it sends the points and the settings for design and
        keeps the coefficients, non-finite ones as 0, and the response.
        `rejection` is the message of a design request that the main
        process or the IPC call rejects, `None` when the request reaches
        the processor and returns its design. */
    method DesignFilter(apiAvailable: bool, rejection: Option<string>, m: FirProcessor.Numerics)
      returns (r: Result<FirProcessor.Design, string>)
      modifies this
      ensures old(trfData).None? ==>
        r == Err(NoTRFDataLoaded) && status == old(status) && error == old(error)
        && coefficients == old(coefficients) && frequencyResponse == old(frequencyResponse)
      ensures trfData == old(trfData) && filterConfig == old(filterConfig)
      ensures old(trfData).Some? && !apiAvailable ==>
        r == Err(NoElectronApi) && status == Error && error == Some(NoElectronApi)
        && coefficients == old(coefficients) && frequencyResponse == old(frequencyResponse)
      ensures old(trfData).Some? && apiAvailable && rejection.Some? ==>
        r == Err(rejection.value) && status == Error && error == rejection
        && coefficients == old(coefficients) && frequencyResponse == old(frequencyResponse)
      ensures old(trfData).Some? && apiAvailable && rejection.None? ==>
        && r.Ok?
        && r.value.coefficients == FirProcessor.Designed(old(filterConfig).numTaps, m)
        && |coefficients| == |r.value.coefficients| == old(filterConfig).numTaps
        && coefficients == FirProcessor.Sanitize(r.value.coefficients)
        && |r.value.frequencyResponse| == FirProcessor.NumPoints
        && (forall i :: 0 <= i < FirProcessor.NumPoints ==>
              r.value.frequencyResponse[i] == FirProcessor.ResponseAt(r.value.coefficients, old(filterConfig).sampleRate, i, m))
        && frequencyResponse == Some(r.value.frequencyResponse)
        && r.value.metadata == FirProcessor.Metadata(
             old(filterConfig).numTaps, old(filterConfig).sampleRate, old(filterConfig).designMethod,
             FirProcessor.OrString(Some(old(filterConfig).filterType), "lowpass"),
             FirProcessor.OrNumber(Some(old(filterConfig).cutoffFrequency), 0.1),
             FirProcessor.OrString(Some(old(filterConfig).windowType), "hamming"),
             Some(FirProcessor.DefaultFrequencyRange),
             |old(trfData).value.dataPoints|, |old(trfData).value.dataPoints|)
        && status == Ready && error == None
    {
      if trfData.None? {
        return Err(NoTRFDataLoaded);
      }
      status := Processing;
      error := None;
      if !apiAvailable {
        status := Error;
        error := Some(NoElectronApi);
        return Err(NoElectronApi);
      }
      if rejection.Some? {
        status := Error;
        error := rejection;
        return Err(rejection.value);
      }
      var points := trfData.value.dataPoints;
      RequestUsesStoreSettings(filterConfig);
      var result := FirProcessor.DesignFilter(points, DesignRequest(filterConfig), m);
      assert result.Ok?;
      coefficients := FirProcessor.Sanitize(result.value.coefficients);
      frequencyResponse := Some(result.value.frequencyResponse);
      status := Ready;
      r := Ok(result.value);
    }

    /** `updateFilterConfig`: the given keys replace the old ones. */
    method UpdateFilterConfig(patch: ConfigPatch)
      modifies this
      ensures filterConfig == Patched(old(filterConfig), patch)
      ensures trfData == old(trfData) && coefficients == old(coefficients)
      ensures frequencyResponse == old(frequencyResponse) && status == old(status) && error == old(error)
    {
      filterConfig := Patched(filterConfig, patch);
    }

    /** `resetState`: everything but the settings back to the initial
        state. */
    method ResetState()
      modifies this
      ensures trfData == None && coefficients == [] && frequencyResponse == None
      ensures status == Idle && error == None
      ensures filterConfig == old(filterConfig)
    {
      trfData := None;
      coefficients := [];
      frequencyResponse := None;
      status := Idle;
      error := None;
    }

    method SetError(message: string)
      modifies this
      ensures status == Error && error == Some(message)
      ensures trfData == old(trfData) && coefficients == old(coefficients)
      ensures frequencyResponse == old(frequencyResponse) && filterConfig == old(filterConfig)
    {
      status := Error;
      error := Some(message);
    }

    /** `clearError`: the message goes; an error status becomes idle, any
        other status stays. */
    method ClearError()
      modifies this
      ensures error == None
      ensures old(status) == Error ==> status == Idle
      ensures old(status) != Error ==> status == old(status)
      ensures trfData == old(trfData) && coefficients == old(coefficients)
      ensures frequencyResponse == old(frequencyResponse) && filterConfig == old(filterConfig)
    {
      error := None;
      if status == Error {
        status := Idle;
      }
    }
  }
}
