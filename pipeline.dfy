/**
 * `main`: download, extract, parse, save, then print a summary, returning early when the download
 * or the extraction gives nothing. The download is an input (the HTTP request is not modelled),
 * and the console summary is a list of abstract lines whose number formatting is left open.
 */
module Pipeline {
  import opened Wrappers
  import opened Strings
  import opened Payload
  import opened Extractor
  import opened Dicts
  import opened Transformer
  import opened Persister

  /** The composition the tool extracts (`COMP_ID`). */
  const CompId := "381014"
  const ListSeparator := ", "

  /** One line of the summary printed after saving. */
  datatype Line =
    | SummaryHeader                // "COMP SUMMARY"
    | CompLine(name: string)       // "Comp: <name>"
    | UnitsLine(units: string)     // "Units: <units joined by ', '>"
    | AvgLine(avg: real)           // "Avg Placement: <avg to two decimals>"
    | SampleLine(count: int)       // "Sample Size: <count, thousands grouped> games"
    | Top4Line(rate: real)         // "Estimated Top 4 Rate: <rate>%"
    | CarryLine(carry: string)     // "Main carry: <carry>"
    | BestItemsLine(items: string) // "Best items: <items joined by ', '>"
    | DoneLine                     // "Data extraction complete!"

  predicate HasBestItems(lines: seq<Line>) {
    exists k :: 0 <= k < |lines| && lines[k].BestItemsLine?
  }

  /**
   * The summary `main` prints for a configuration: a header first and the closing line last, and a
   * "Best items" line, listing the main carry's items, exactly when the main carry has an entry
   * in `item_builds`.
   */
  function Summary(config: Config): (lines: seq<Line>)
    ensures |lines| >= 2 && lines[0] == SummaryHeader && lines[|lines| - 1] == DoneLine
    ensures HasBestItems(lines) <==> config.mainCarry in config.itemBuilds
    ensures config.mainCarry in config.itemBuilds ==>
      BestItemsLine(Join(config.itemBuilds[config.mainCarry].items, ListSeparator)) in lines
  {
    var performance := config.performance;
    var fixed := [
      SummaryHeader,
      CompLine(config.compName),
      UnitsLine(Join(config.units, ListSeparator)),
      AvgLine(performance.avgPlacement),
      SampleLine(performance.sampleSize),
      Top4Line(performance.estimatedTop4Rate),
      CarryLine(config.mainCarry)];
    var best :=
      if config.mainCarry in config.itemBuilds
      then [BestItemsLine(Join(config.itemBuilds[config.mainCarry].items, ListSeparator))]
      else [];
    var lines := fixed + best + [DoneLine];
    assert forall k :: 0 <= k < |fixed| ==> !lines[k].BestItemsLine?;
    assert best != [] ==> lines[|fixed|] == best[0];
    lines
  }

  /** How a run of `main` ends. */
  datatype Outcome =
    | DownloadFailed  // "Failed to download data"
    | ExtractFailed   // "Failed to extract comp data"
    | Raised          // an exception escapes before anything is saved
    | Saved(config: Config, path: string, summary: seq<Line>)

  /** The record that reaches `parse_comp_for_bot` and `save_config`, if the run gets that far. */
  ghost function RecordToSave(download: Option<Json>): Option<CompRecord> {
    if TruthyOpt(download) then
      var extraction := ExtractComp(download.value, CompId);
      if extraction.Found? && Truthy(extraction.comp) then DecodeComp(extraction.comp) else None
    else None
  }

  /**
   * `main()`, given what `download_all_comps()` returned. It saves exactly when the download and the
   * extracted record are both truthy and the record has the fields the parser reads; the saved
   * configuration is the parse of that record, the file is `data/piltover_t-hex_381014.json`, and
   * the "Best items" line appears exactly when some build's cleaned unit name is the main carry.
   */
  method Run(download: Option<Json>) returns (outcome: Outcome)
    ensures outcome.DownloadFailed? <==> !TruthyOpt(download)
    ensures outcome.ExtractFailed? <==>
      TruthyOpt(download) && !ExtractComp(download.value, CompId).Raises?
      && !TruthyOpt(Returned(ExtractComp(download.value, CompId)))
    ensures outcome.Saved? <==> RecordToSave(download).Some?
    ensures outcome.Saved? ==>
      && ParsedFrom(RecordToSave(download).value, outcome.config)
      && outcome.path == "data/piltover_t-hex_381014.json"
      && outcome.summary == Summary(outcome.config)
    ensures outcome.Saved? ==>
      (HasBestItems(outcome.summary) <==>
        exists i :: 0 <= i < |RecordToSave(download).value.builds|
          && Key(RecordToSave(download).value.builds[i]) == MainCarry)
  {
    if !TruthyOpt(download) {
      return DownloadFailed;
    }
    var extraction := ExtractComp(download.value, CompId);
    if extraction.Raises? {
      return Raised;
    }
    var comp := Returned(extraction);
    if !TruthyOpt(comp) {
      return ExtractFailed;
    }
    var record := DecodeComp(comp.value);
    if record.None? {
      return Raised;
    }
    var config := ParseCompForBot(record.value);
    var path := ConfigPath(Some(config.compName), Some(CompId));
    ConfigPathExample();
    outcome := Saved(config, path, Summary(config));
    assert config.mainCarry in config.itemBuilds <==> MainCarry in KeysWritten(Writes(record.value.builds));
  }
}
