/** The processing parameters the pipeline reads from its project
  * configuration (the ARD template merged with user choices). Only the keys
  * the modelled code consults are kept; numbers the code only formats into
  * command lines are kept as their printed text. */
module Config {

  /** The elevation-model settings (`single_ARD.dem`). */
  datatype Dem = Dem(
    name: string, file: string, nodata: string, resampling: string,
    imageResampling: string, egmCorrection: bool)

  /** The eleven settings of a (multi-temporal) speckle filter. */
  datatype SpeckleFilter = SpeckleFilter(
    estimateEnl: string, panSize: string, damping: string, enl: string,
    filter: string, filterSizeX: string, filterSizeY: string, numLooks: string,
    sigma: string, targetWindowSize: string, windowSize: string)

  /** The seven settings of the polarimetric speckle filter. */
  datatype PolSpeckleFilter = PolSpeckleFilter(
    filter: string, filterSize: string, numLooks: string, windowSize: string,
    targetWindowSize: string, panSize: string, sigma: string)

  /** `processing.single_ARD`. */
  datatype SingleArd = SingleArd(
    ardType: string,
    productType: string,          // 'RTC-gamma0', 'GTC-gamma0', 'GTC-sigma0'
    resolution: int,
    polarisation: string,
    removeBorderNoise: bool,
    removeSpeckle: bool,
    speckleFilter: SpeckleFilter,
    createLsMask: bool,
    toDb: bool,
    dem: Dem,
    geocoding: string,            // 'ellipsoid' outside the elevation model's coverage
    backscatter: bool,
    coherence: bool,
    coherenceBands: string,
    coherenceAzimuth: string,
    coherenceRange: string,
    hAAlpha: bool,
    removePolSpeckle: bool,
    polSpeckleFilter: PolSpeckleFilter)

  /** `processing.time-series_ARD`. */
  datatype TimeseriesArd = TimeseriesArd(
    toDb: bool, removeMtSpeckle: bool, dtypeOutput: string, mtSpeckleFilter: SpeckleFilter)

  datatype Processing = Processing(single: SingleArd, timeseries: TimeseriesArd)

  /** The configuration dictionary handed to the processing functions.
    * `executorType` is the `executor_type` entry the GRD batch reads; a
    * project's own dictionary lacks it (see `PROJECT_CONFIG_KEYS`). */
  datatype ConfigDict = ConfigDict(
    processing: Processing,
    gptMaxWorkers: int,
    godaleMaxWorkers: int,
    tempDir: string,
    processingDir: string,
    executorType: string)

  /** The keys of a batch project's `config_dict` once its parameters are
    * updated: the directories, area and dates of `Generic`, the two worker
    * counts of `Sentinel1Batch`, and the inventory and processing
    * parameters of `update_ard_parameters`. The project file is the JSON
    * dump of this dictionary, so it has exactly these top-level keys. */
  const PROJECT_CONFIG_KEYS: set<string> := {"project_dir", "download_dir", "inventory_dir", "processing_dir",
    "temp_dir", "data_mount", "aoi", "start_date", "end_date", "gpt_max_workers", "godale_max_workers",
    "inventory", "processing"}
}
