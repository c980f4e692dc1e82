/**
 * `parse_comp_for_bot`: reshape one composition record into the agent-facing configuration.
 * The record is typed here; `DecodeComp` reads it out of the raw payload and gives `None`
 * where the source's unchecked lookups would raise.
 */
module Transformer {
  import opened Wrappers
  import opened Strings
  import opened Payload
  import opened Dicts

  const UnitSeparator := ", "
  const UnitPrefix := "TFT16_"
  const ItemPrefix := "TFT_Item_"
  const CompName := "Piltover T-Hex"
  const MainCarry := "THex"
  const DefaultDifficulty := "Unknown"
  const DefaultLevelling := "Standard"

  /** `comp_data['overall']`: average placement and number of games. */
  datatype Overall = Overall(avg: real, count: int)

  /** One entry of `comp_data['builds']`. */
  datatype Build = Build(unit: string, buildName: seq<string>, avg: real, placeChange: real, count: int)

  /** The fields of a raw composition record that `parse_comp_for_bot` reads. */
  datatype CompRecord = CompRecord(
    cluster: Json,
    unitsString: string,
    overall: Overall,
    builds: seq<Build>,
    difficulty: Option<Json>,
    levelling: Option<Json>)

  /** One value of the `item_builds` dict. */
  datatype ItemBuild = ItemBuild(items: seq<string>, avgPlacement: real, placeChange: real, sampleSize: int)

  datatype Performance = Performance(avgPlacement: real, sampleSize: int, estimatedTop4Rate: real)

  datatype StrategyNotes = StrategyNotes(difficulty: Json, levelling: Json)

  /** The cleaned configuration returned by `parse_comp_for_bot`. */
  datatype Config = Config(
    compId: Json,
    compName: string,
    units: seq<string>,
    mainCarry: string,
    performance: Performance,
    itemBuilds: map<string, ItemBuild>,
    strategyNotes: StrategyNotes)

  // ---------------------------------------------------------------------------
  // Reading the typed record out of the payload

  /** `v[key]` when it gives a value; `None` where it would raise. */
  function Field(v: Json, key: string): Option<Json> {
    match Index(v, key)
    case Value(x) => Some(x)
    case _ => None
  }

  function AsString(v: Json): Option<string> {
    if v.JStr? then Some(v.s) else None
  }

  function AsNumber(v: Json): Option<real> {
    match v
    case JInt(i) => Some(i as real)
    case JFloat(f) => Some(f)
    case _ => None
  }

  function AsInt(v: Json): Option<int> {
    if v.JInt? then Some(v.i) else None
  }

  function AsStrings(vs: seq<Json>): Option<seq<string>> {
    if vs == [] then Some([])
    else
      var head :- AsString(vs[0]);
      var tail :- AsStrings(vs[1..]);
      Some([head] + tail)
  }

  function DecodeBuild(v: Json): Option<Build> {
    var unit :- Field(v, "unit");
    var unit :- AsString(unit);
    var names :- Field(v, "buildName");
    var names :- AsList(names);
    var names :- AsStrings(names);
    var avg :- Field(v, "avg");
    var avg :- AsNumber(avg);
    var change :- Field(v, "place_change");
    var change :- AsNumber(change);
    var count :- Field(v, "count");
    var count :- AsInt(count);
    Some(Build(unit, names, avg, change, count))
  }

  function DecodeBuilds(vs: seq<Json>): Option<seq<Build>> {
    if vs == [] then Some([])
    else
      var head :- DecodeBuild(vs[0]);
      var tail :- DecodeBuilds(vs[1..]);
      Some([head] + tail)
  }

  function AsList(v: Json): Option<seq<Json>> {
    if v.JArr? then Some(v.items) else None
  }

  /**
   * The typed record, or `None` when a field `parse_comp_for_bot` reads is missing or of another
   * type. A decoded record carries the payload's `Cluster`, `units_string`, `difficulty` and
   * `levelling` unchanged; a payload without one of the keys the parser subscripts gives `None`.
   */
  function DecodeComp(v: Json): (r: Option<CompRecord>)
    ensures r.Some? ==>
      && Field(v, "Cluster") == Some(r.value.cluster)
      && Field(v, "units_string") == Some(JStr(r.value.unitsString))
      && r.value.difficulty == Field(v, "difficulty")
      && r.value.levelling == Field(v, "levelling")
    ensures Field(v, "units_string").None? || Field(v, "overall").None? || Field(v, "builds").None? || Field(v, "Cluster").None?
      ==> r.None?
  {
    var units :- Field(v, "units_string");
    var units :- AsString(units);
    var overall :- Field(v, "overall");
    var avg :- Field(overall, "avg");
    var avg :- AsNumber(avg);
    var count :- Field(overall, "count");
    var count :- AsInt(count);
    var builds :- Field(v, "builds");
    var builds :- AsList(builds);
    var builds :- DecodeBuilds(builds);
    var cluster :- Field(v, "Cluster");
    Some(CompRecord(cluster, units, Overall(avg, count), builds, Field(v, "difficulty"), Field(v, "levelling")))
  }

  /** Strings as JSON strings. */
  function EncodeStrings(ss: seq<string>): (vs: seq<Json>)
    ensures |vs| == |ss|
    ensures forall k :: 0 <= k < |ss| ==> vs[k] == JStr(ss[k])
  {
    seq(|ss|, k requires 0 <= k < |ss| => JStr(ss[k]))
  }

  /** A build as the JSON object the API sends for it. */
  function EncodeBuild(b: Build): Json {
    JObj(map[
      "unit" := JStr(b.unit),
      "buildName" := JArr(EncodeStrings(b.buildName)),
      "avg" := JFloat(b.avg),
      "place_change" := JFloat(b.placeChange),
      "count" := JInt(b.count)])
  }

  /** Builds as JSON objects, in order. */
  function EncodeBuilds(bs: seq<Build>): (vs: seq<Json>)
    ensures |vs| == |bs|
    ensures forall k :: 0 <= k < |bs| ==> vs[k] == EncodeBuild(bs[k])
  {
    seq(|bs|, k requires 0 <= k < |bs| => EncodeBuild(bs[k]))
  }

  /** A record as the JSON object the API sends for it; an absent note is an absent key. */
  function EncodeComp(c: CompRecord): Json {
    var fields := map[
      "units_string" := JStr(c.unitsString),
      "overall" := JObj(map["avg" := JFloat(c.overall.avg), "count" := JInt(c.overall.count)]),
      "builds" := JArr(EncodeBuilds(c.builds)),
      "Cluster" := c.cluster];
    var fields := if c.difficulty.Some? then fields["difficulty" := c.difficulty.value] else fields;
    var fields := if c.levelling.Some? then fields["levelling" := c.levelling.value] else fields;
    JObj(fields)
  }

  lemma {:induction false} DecodeEncodeStrings(ss: seq<string>)
    ensures AsStrings(EncodeStrings(ss)) == Some(ss)
  {
    if ss != [] {
      assert EncodeStrings(ss)[1..] == EncodeStrings(ss[1..]);
      DecodeEncodeStrings(ss[1..]);
      assert [ss[0]] + ss[1..] == ss;
    }
  }

  lemma DecodeEncodeBuild(b: Build)
    ensures DecodeBuild(EncodeBuild(b)) == Some(b)
  {
    DecodeEncodeStrings(b.buildName);
  }

  lemma {:induction false} DecodeEncodeBuilds(bs: seq<Build>)
    ensures DecodeBuilds(EncodeBuilds(bs)) == Some(bs)
  {
    if bs != [] {
      DecodeEncodeBuild(bs[0]);
      assert EncodeBuilds(bs)[1..] == EncodeBuilds(bs[1..]);
      DecodeEncodeBuilds(bs[1..]);
      assert [bs[0]] + bs[1..] == bs;
    }
  }

  /** Every typed record is read back from its JSON form unchanged. */
  lemma DecodeEncodeComp(c: CompRecord)
    ensures DecodeComp(EncodeComp(c)) == Some(c)
  {
    var v := EncodeComp(c);
    var overall := JObj(map["avg" := JFloat(c.overall.avg), "count" := JInt(c.overall.count)]);
    assert Field(v, "overall") == Some(overall);
    assert Field(v, "builds") == Some(JArr(EncodeBuilds(c.builds)));
    assert Field(v, "difficulty") == c.difficulty;
    assert Field(v, "levelling") == c.levelling;
    DecodeEncodeBuilds(c.builds);
  }

  // ---------------------------------------------------------------------------
  // Cleaning names

  /** A unit name with every `TFT16_` removed (`unit.replace('TFT16_', '')`). */
  function CleanUnit(unit: string): string {
    RemoveAll(unit, UnitPrefix)
  }

  /** An item name with every `TFT_Item_` removed (`item.replace('TFT_Item_', '')`). */
  function CleanItem(item: string): string {
    RemoveAll(item, ItemPrefix)
  }

  /**
   * `[unit.replace('TFT16_', '') for unit in units_string.split(', ')]`: one cleaned unit per
   * `", "`-separated token, in order, so one more than the number of separators.
   */
  function CleanUnits(unitsString: string): (units: seq<string>)
    ensures |units| == Occurrences(unitsString, UnitSeparator) + 1
    ensures forall k :: 0 <= k < |units| ==> units[k] == CleanUnit(Split(unitsString, UnitSeparator)[k])
  {
    var tokens := Split(unitsString, UnitSeparator);
    seq(|tokens|, k requires 0 <= k < |tokens| => CleanUnit(tokens[k]))
  }

  /** `[item.replace('TFT_Item_', '') for item in build['buildName']]`: same length and order. */
  function CleanItems(items: seq<string>): (cleaned: seq<string>)
    ensures |cleaned| == |items|
    ensures forall k :: 0 <= k < |items| ==> cleaned[k] == CleanItem(items[k])
  {
    seq(|items|, k requires 0 <= k < |items| => CleanItem(items[k]))
  }

  // The literals come in as parameters fixed by `requires` so the verifier does not unroll them.
  /** `'TFT16_Jinx, TFT16_Vi'` gives the units `['Jinx', 'Vi']`. */
  lemma CleanUnitsExample(jinx: string, vi: string)
    requires jinx == "Jinx" && vi == "Vi"
    ensures CleanUnits(UnitPrefix + jinx + UnitSeparator + UnitPrefix + vi) == [jinx, vi]
  {
    SplitUnitsExample(jinx, vi);
    FirstCharAbsent(jinx, UnitPrefix);
    FirstCharAbsent(vi, UnitPrefix);
    CleanPrefixedUnit(jinx);
    CleanPrefixedUnit(vi);
  }

  /** The example's unit string splits into its two prefixed names. */
  // The literals come in as parameters fixed by `requires` so the verifier does not unroll them.
  lemma SplitUnitsExample(jinx: string, vi: string)
    requires jinx == "Jinx" && vi == "Vi"
    ensures Split(UnitPrefix + jinx + UnitSeparator + UnitPrefix + vi, UnitSeparator) == [UnitPrefix + jinx, UnitPrefix + vi]
  {
    var first, second := UnitPrefix + jinx, UnitPrefix + vi;
    assert UnitPrefix + jinx + UnitSeparator + UnitPrefix + vi == first + UnitSeparator + second;
    SplitFirstToken(first, UnitSeparator, second);
    FirstCharAbsent(second, UnitSeparator);
    NoOccurrence(second, UnitSeparator, "");
  }

  /** `TFT16_` followed by a name that does not contain it is cleaned to that name. */
  lemma CleanPrefixedUnit(rest: string)
    requires !Contains(rest, UnitPrefix)
    ensures CleanUnit(UnitPrefix + rest) == rest
  {
    var unit := UnitPrefix + rest;
    assert IsAt(unit, UnitPrefix, 0) && unit[|UnitPrefix|..] == rest;
  }

  /** `'TFT_Item_InfinityEdge'` is cleaned to `'InfinityEdge'`. */
  lemma CleanItemExample()
    ensures CleanItem("TFT_Item_InfinityEdge") == "InfinityEdge"
  {
    var item := "TFT_Item_InfinityEdge";
    assert item == ItemPrefix + "InfinityEdge";
    assert IsAt(item, ItemPrefix, 0) && item[|ItemPrefix|..] == "InfinityEdge";
    FirstCharAbsent("InfinityEdge", ItemPrefix);
  }

  /**
   * `(8 - avg) / 7 * 100` before rounding: the share of top-4 finishes estimated linearly from
   * the average placement, 100 at placement 1 and 0 at placement 8.
   */
  function Top4Rate(avg: real): (rate: real)
    ensures 1.0 <= avg <= 8.0 ==> 0.0 <= rate <= 100.0
    ensures avg == 1.0 ==> rate == 100.0
    ensures avg == 4.5 ==> rate == 50.0
    ensures avg == 8.0 ==> rate == 0.0
  {
    (8.0 - avg) / 7.0 * 100.0
  }

  // ---------------------------------------------------------------------------
  // The item_builds dict

  /** The `item_builds` key of a build: its cleaned unit name. */
  function Key(b: Build): string {
    CleanUnit(b.unit)
  }

  /** The `item_builds` value a build writes: its cleaned items and its three statistics. */
  function Entry(b: Build): ItemBuild {
    ItemBuild(CleanItems(b.buildName), b.avg, b.placeChange, b.count)
  }

  /** The assignment `item_builds[unit_name] = {...}` that a build performs. */
  function Write(b: Build): (string, ItemBuild) {
    (Key(b), Entry(b))
  }

  /** The assignments the builds perform, in order. */
  function Writes(builds: seq<Build>): (writes: seq<(string, ItemBuild)>)
    ensures |writes| == |builds|
    ensures forall i :: 0 <= i < |builds| ==> writes[i] == Write(builds[i])
  {
    seq(|builds|, i requires 0 <= i < |builds| => Write(builds[i]))
  }

  // ---------------------------------------------------------------------------
  // parse_comp_for_bot

  /** `config` is what `parse_comp_for_bot` builds from `comp`. */
  ghost predicate ParsedFrom(comp: CompRecord, config: Config) {
    && config.compId == comp.cluster
    && config.compName == CompName
    && config.units == CleanUnits(comp.unitsString)
    && config.mainCarry == MainCarry
    && config.performance == Performance(comp.overall.avg, comp.overall.count, Top4Rate(comp.overall.avg))
    && LastWins(Writes(comp.builds), config.itemBuilds)
    && config.strategyNotes.difficulty == comp.difficulty.GetOr(JStr(DefaultDifficulty))
    && config.strategyNotes.levelling == comp.levelling.GetOr(JStr(DefaultLevelling))
  }

  /** `ParsedFrom` leaves one configuration per record. */
  lemma ParsedUnique(comp: CompRecord, c1: Config, c2: Config)
    requires ParsedFrom(comp, c1) && ParsedFrom(comp, c2)
    ensures c1 == c2
  {
    LastWinsUnique(Writes(comp.builds), c1.itemBuilds, c2.itemBuilds);
  }

  /**
   * `parse_comp_for_bot(comp_data)`: units split and cleaned, the `item_builds` dict filled build
   * by build with last write winning, the fixed name and carry, performance copied from `overall`
   * and the strategy notes defaulted field by field.
   */
  method ParseCompForBot(comp: CompRecord) returns (config: Config)
    ensures ParsedFrom(comp, config)
  {
    var units := CleanUnits(comp.unitsString);
    var itemBuilds: map<string, ItemBuild> := map[];
    ghost var writes := Writes(comp.builds);
    for n := 0 to |comp.builds|
      invariant LastWins(writes[..n], itemBuilds)
    {
      var build := comp.builds[n];
      var unitName := CleanUnit(build.unit);
      var items := CleanItems(build.buildName);
      LastWinsStep(writes, n, itemBuilds);
      itemBuilds := itemBuilds[unitName := ItemBuild(items, build.avg, build.placeChange, build.count)];
    }
    assert writes[..|writes|] == writes;
    var overall := comp.overall;
    config := Config(
      comp.cluster,
      CompName,
      units,
      MainCarry,
      Performance(overall.avg, overall.count, Top4Rate(overall.avg)),
      itemBuilds,
      StrategyNotes(comp.difficulty.GetOr(JStr(DefaultDifficulty)), comp.levelling.GetOr(JStr(DefaultLevelling))));
  }
}
