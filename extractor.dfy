/** `extract_comp`: find one composition in the API payload by its id. */
module Extractor {
  import opened Wrappers
  import opened Payload

  const ResultsKey := "results"
  const DataKey := "data"
  const ClusterDetailsKey := "cluster_details"

  /** How `extract_comp` ends, with the diagnostic it prints. */
  datatype Extraction =
    | Found(comp: Json)        // "Found Comp <id>", returns the record
    | NotFound                 // "Comp <id> not found", returns None
    | MissingKey(key: string)  // KeyError caught, "Data structure error <key>", returns None
    | Raises                   // a TypeError escapes: only KeyError is caught

  /** The `cluster_details` mapping, when `results`, `data` and `cluster_details` are nested dicts. */
  function ClusterDetails(data: Json): Option<map<string, Json>> {
    if data.JObj? && ResultsKey in data.fields then
      var results := data.fields[ResultsKey];
      if results.JObj? && DataKey in results.fields then
        var inner := results.fields[DataKey];
        if inner.JObj? && ClusterDetailsKey in inner.fields then
          var details := inner.fields[ClusterDetailsKey];
          if details.JObj? then Some(details.fields) else None
        else None
      else None
    else None
  }

  /** Every value met along the fixed key path is a dict (a key may still be missing). */
  predicate DictsAlongPath(data: Json) {
    && data.JObj?
    && (ResultsKey in data.fields ==>
          var results := data.fields[ResultsKey];
          && results.JObj?
          && (DataKey in results.fields ==>
                var inner := results.fields[DataKey];
                && inner.JObj?
                && (ClusterDetailsKey in inner.fields ==> inner.fields[ClusterDetailsKey].JObj?)))
  }

  /**
   * `extract_comp(data, comp_id)`. The record is found exactly when the path leads to a dict holding
   * `compId`, and it is returned unchanged. A missing path key and an absent id both end without a
   * record; on a payload that is a dict at every step neither raises, and a missing key is reported
   * exactly when the path is broken.
   */
  function ExtractComp(data: Json, compId: string): (r: Extraction)
    ensures r.Found? <==> ClusterDetails(data).Some? && compId in ClusterDetails(data).value
    ensures r.Found? ==> r.comp == ClusterDetails(data).value[compId]
    ensures ClusterDetails(data).Some? && compId !in ClusterDetails(data).value ==> r == NotFound
    ensures r.MissingKey? ==> ClusterDetails(data).None? && r.key in {ResultsKey, DataKey, ClusterDetailsKey}
    ensures DictsAlongPath(data) ==> !r.Raises? && (r.MissingKey? <==> ClusterDetails(data).None?)
  {
    match Index(data, ResultsKey)
    case KeyError => MissingKey(ResultsKey)
    case TypeError => Raises
    case Value(results) =>
      match Index(results, DataKey)
      case KeyError => MissingKey(DataKey)
      case TypeError => Raises
      case Value(inner) =>
        match Index(inner, ClusterDetailsKey)
        case KeyError => MissingKey(ClusterDetailsKey)
        case TypeError => Raises
        case Value(details) =>
          match Member(compId, details)
          case NotIterable => Raises
          case NotIn => NotFound
          case In =>
            match Index(details, compId)
            case Value(comp) => Found(comp)
            case _ => Raises
  }

  /** What `extract_comp` returns when it does not raise: the record, or `None`. */
  function Returned(r: Extraction): (o: Option<Json>)
    requires !r.Raises?
    ensures o.Some? <==> r.Found?
    ensures r.Found? ==> o.value == r.comp
  {
    match r
    case Found(comp) => Some(comp)
    case _ => None
  }

  /**
   * On a payload that is a dict at every step, `extract_comp` returns the record under the id
   * when the path leads to it, and `None` otherwise, whether the id or a path key is missing.
   */
  lemma ExtractReturns(data: Json, compId: string)
    requires DictsAlongPath(data)
    ensures !ExtractComp(data, compId).Raises?
    ensures Returned(ExtractComp(data, compId)) ==
      (if ClusterDetails(data).Some? && compId in ClusterDetails(data).value
       then Some(ClusterDetails(data).value[compId]) else None)
  {
  }
}
