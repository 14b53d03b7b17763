/**
 * The `DataSet` object (racoons/data/dataset.py): it remembers where its data
 * lives, loads the raw frame with the reader the file suffix selects, and
 * places the scale-level side-car file next to the dataset. The CSV and Excel
 * readers and the scale-level lookup are file I/O and enter as parameters.
 */
module Dataset {
  import opened Wrappers
  import opened Paths
  import opened Frames
  import opened DataUtils

  /** The `scale_levels` constructor argument. */
  datatype Arg = NoneArg | Text(text: string) | PathArg(path: Path)

  /** Python truthiness: None and "" are falsy; a Path object is always truthy. */
  predicate Truthy(a: Arg) {
    match a
    case NoneArg => false
    case Text(t) => t != ""
    case PathArg(_) => true
  }

  const ScaleLevelsFileName := "scale_levels.csv"

  /** `dataset_path.parent / "scale_levels.csv"`. */
  function SideCar(datasetPath: Path): (p: Path)
    ensures Parent(p) == Parent(datasetPath)
    ensures Name(p) == ScaleLevelsFileName
  {
    Join(Parent(datasetPath), ScaleLevelsFileName)
  }

  /** The reader a dataset path selects: exactly ".csv" or ".xlsx", case-sensitive; anything else loads nothing. */
  function RawDataframe(datasetPath: Path, readCsv: Path -> Frame, readExcel: Path -> Frame): Option<Frame> {
    if Suffix(datasetPath) == ".csv" then Some(readCsv(datasetPath))
    else if Suffix(datasetPath) == ".xlsx" then Some(readExcel(datasetPath))
    else None
  }

  /**
   * A frame is loaded iff the file name is longer than and ends with ".csv"
   * (then by the CSV reader) or with ".xlsx" (then by the Excel reader).
   */
  lemma RawDataframeByFileName(datasetPath: Path, readCsv: Path -> Frame, readExcel: Path -> Frame)
    ensures var name := Name(datasetPath);
      && (RawDataframe(datasetPath, readCsv, readExcel) == Some(readCsv(datasetPath))
          <== |name| > 4 && name[|name| - 4..] == ".csv")
      && (RawDataframe(datasetPath, readCsv, readExcel) == Some(readExcel(datasetPath))
          <== |name| > 5 && name[|name| - 5..] == ".xlsx")
      && (RawDataframe(datasetPath, readCsv, readExcel).Some?
          <==> (|name| > 4 && name[|name| - 4..] == ".csv") || (|name| > 5 && name[|name| - 5..] == ".xlsx"))
  {
    SuffixIs(datasetPath, ".csv");
    SuffixIs(datasetPath, ".xlsx");
  }

  class DataSet {
    var datasetPath: Path
    var features: seq<string>
    var targets: seq<string>
    /** `_raw_dataframe`; None while the attribute has not been assigned. */
    var rawDataframe: Option<Frame>
    /** `scale_levels`; None while the attribute has not been assigned. */
    var scaleLevels: Option<Path>

    /**
     * Stores the path and the feature and target lists, loads the frame, and,
     * for a falsy `scale_levels` argument, points at the side-car file. A
     * truthy argument is dropped: the attribute stays unassigned.
     */
    constructor (datasetPath: Path, features: seq<string>, targets: seq<string>, scaleLevels: Arg,
                 readCsv: Path -> Frame, readExcel: Path -> Frame)
      ensures this.datasetPath == datasetPath && this.features == features && this.targets == targets
      ensures rawDataframe == RawDataframe(datasetPath, readCsv, readExcel)
      ensures this.scaleLevels == if Truthy(scaleLevels) then None else Some(SideCar(datasetPath))
    {
      this.datasetPath := datasetPath;
      this.features := features;
      this.targets := targets;
      rawDataframe := None;
      this.scaleLevels := None;
      new;
      ReadDataframe(readCsv, readExcel);
      if !Truthy(scaleLevels) {
        this.scaleLevels := Some(Join(Parent(this.datasetPath), ScaleLevelsFileName));
      }
    }

    /** `_read_dataframe`: two independent suffix tests; any other suffix leaves the frame as it was. */
    method ReadDataframe(readCsv: Path -> Frame, readExcel: Path -> Frame)
      modifies this`rawDataframe
      ensures rawDataframe == if RawDataframe(datasetPath, readCsv, readExcel).Some?
                              then RawDataframe(datasetPath, readCsv, readExcel)
                              else old(rawDataframe)
    {
      if Suffix(datasetPath) == ".csv" {
        rawDataframe := Some(readCsv(datasetPath));
      }
      if Suffix(datasetPath) == ".xlsx" {
        rawDataframe := Some(readExcel(datasetPath));
      }
    }

    /**
     * `_read_scale_levels`: reading the side-car file through `lookup` (None
     * for a missing file). An unassigned attribute raises AttributeError; a
     * missing file makes it build the default template of the raw frame, which
     * it then discards (`template`). Nothing is returned in any case.
     */
    method ReadScaleLevels(lookup: Path -> Option<Frame>)
      returns (r: Result<(), Exception>, ghost template: Option<seq<TemplateRow>>)
      ensures scaleLevels.None? ==> r == Err(AttributeError("scale_levels"))
      ensures scaleLevels.Some? && lookup(scaleLevels.value).Some? ==> r == Ok(())
      ensures scaleLevels.Some? && lookup(scaleLevels.value).None? && rawDataframe.None?
          ==> r == Err(AttributeError("_raw_dataframe"))
      ensures scaleLevels.Some? && lookup(scaleLevels.value).None? && rawDataframe.Some? ==> r == Ok(())
      ensures template == if scaleLevels.Some? && lookup(scaleLevels.value).None? && rawDataframe.Some?
                          then Some(AlignedTemplate(rawDataframe.value, None)) else None
    {
      template := None;
      if scaleLevels.None? {
        return Err(AttributeError("scale_levels")), template;
      }
      var read := lookup(scaleLevels.value);
      if read.None? {
        if rawDataframe.None? {
          return Err(AttributeError("_raw_dataframe")), template;
        }
        var built := CreateScaleLevelTemplate(rawDataframe.value, None);
        DefaultColumnsInFrameOrder(rawDataframe.value, None);
        template := Some(built.value);
      }
      r := Ok(());
    }
  }
}
