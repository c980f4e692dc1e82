# Composition extractor for a TFT agent, in Dafny

This project models the data-handling core of `src/comp_data.py`. That script downloads
composition statistics from the MetaTFT analytics API and picks out one composition (`381014`).
It reshapes that composition into a small configuration for a Teamfight Tactics agent, writes the
configuration to a JSON file under `data/`, and prints a summary.

The model follows the script's own stages, one module each:

- `Wrappers`: the `Option` type, standing for Python's `None` and for `dict.get`.
- `Strings`: the Python string operations the script relies on. These are `str.split`,
  `str.replace`, `str.join`, `in` on strings and an ASCII `str.lower`. Split, replace and join
  are tied together by lemmas, and lower-casing states what it leaves behind.
- `Payload`: the decoded JSON body, Python's truth test (`if not x`), and what `x[key]` and
  `key in x` do on each kind of JSON value.
- `Dicts`: a dict filled by successive assignments, where a later write to a key replaces the
  earlier value whole.
- `Extractor`: `extract_comp`, the lookup along `results → data → cluster_details`.
- `Transformer`: `parse_comp_for_bot`. It is a method whose loop fills the `item_builds` dict one
  build at a time, with last write winning. Its unit and item cleaning are pure functions.
  `DecodeComp` reads the typed record that the parser works on out of the raw payload.
- `Persister`: the file name `save_config` picks.
- `Pipeline`: `main`, given the download's result. It returns how the run ends and, when it saves,
  the configuration, the path and the summary lines.

The model follows the code in three places that are easy to misread:

- A payload whose `results` or `data` holds a non-dict (a list, a string, a number or `null`), or
  whose `cluster_details` is a number, a boolean or `null`, is not reported as a missing key
  (`MissingKey`). `extract_comp` catches only `KeyError`, so Python's `TypeError` escapes
  (`Extractor.Extraction.Raises`). The same happens when `cluster_details` is a string containing
  the id (the `in` test is then a substring test), or a list containing it. A string or list
  `cluster_details` without the id does not raise: the `in` test is false and the result is
  "not found" (`NotFound`).
- An absent id and a missing path key do not give different results: both make `extract_comp`
  return `None`. They differ only in the message printed, which the model keeps as the variants
  `NotFound` and `MissingKey`.
- Names are not stripped of a leading prefix: `str.replace` removes every occurrence of `TFT16_`
  and `TFT_Item_`, wherever it stands.

## Model

| member | source | states |
|---|---|---|
| `Strings.Split` | src/comp_data.py:52 | `units_string.split(', ')` gives one more token than there are non-overlapping separators (so an empty string gives one token) |
| `Strings.JoinSplit` | src/comp_data.py:52 | joining the raw tokens with the separator gives back the split string |
| `Strings.SplitTokensFree` | src/comp_data.py:52 | no token produced by the split contains the separator |
| `Strings.NoOccurrence` | src/comp_data.py:52-53 | a string without the pattern splits into itself alone, has zero occurrences and is unchanged by `replace` |
| `Strings.ReplaceIsJoinSplit` | src/comp_data.py:53 | `s.replace(pat, rep)` equals `rep.join(s.split(pat))`, so every occurrence is replaced, not only a leading one |
| `Strings.RemoveAll` | src/comp_data.py:61 | `replace(pat, '')` joins the pieces between occurrences; a name without the pattern is unchanged; pattern + pattern-free rest becomes the rest |
| `Strings.ReplaceLength` | src/comp_data.py:53 | `s.replace(pat, rep)` changes the length by `len(rep) - len(pat)` per non-overlapping occurrence, and by nothing else |
| `Strings.Lower` | src/comp_data.py:106 | `name.lower()` keeps the length, turns each ASCII capital into its own small letter (so no capital is left), and keeps every character that is not a capital |
| `Payload.FalsyValues` | src/comp_data.py:121-130 | `if not x` fires exactly on `None`, `False`, `0`, `0.0`, `''`, `[]` and `{}` |
| `Payload.SubscriptMembership` | src/comp_data.py:33-35 | `d[key]` on a dict gives the value iff `key in d`, and raises `KeyError` iff not; on a string or list `in` answers while `[key]` raises `TypeError`; on a scalar both raise |
| `Strings.ReplaceCharPointwise` | src/comp_data.py:106 | `replace(' ', '_')` keeps the length and changes exactly the spaces |
| `Extractor.ExtractComp` | src/comp_data.py:31-44 | the record is found iff `results`, `data`, `cluster_details` are nested dicts holding the id, and is then returned unchanged; an absent id gives "not found"; on dict-shaped payloads nothing raises and a missing key is reported iff the path is broken |
| `Extractor.ExtractReturns` | src/comp_data.py:31-44 | on a payload that is a dict at every step, `extract_comp` does not raise and returns the record under the id when the path leads to it, and `None` both for an absent id and for a missing path key |
| `Transformer.DecodeComp` | src/comp_data.py:52-93 | a record the parser can read keeps the payload's `Cluster`, `units_string`, `difficulty` and `levelling`; a payload without `units_string`, `overall`, `builds` or `Cluster` gives none (the parser's `KeyError`) |
| `Transformer.DecodeEncodeComp` | src/comp_data.py:52-93 | every typed record is read back unchanged from the JSON object the API would send for it, with absent notes as absent keys |
| `Transformer.CleanUnits` | src/comp_data.py:52-53 | one unit per `', '`-separated token, in order (occurrences of the separator + 1), each the token with every `TFT16_` removed |
| `Transformer.CleanUnitsExample` | src/comp_data.py:52-53 | `'TFT16_Jinx, TFT16_Vi'` gives `['Jinx', 'Vi']` |
| `Transformer.CleanPrefixedUnit` | src/comp_data.py:61 | `TFT16_` followed by a name that does not contain `TFT16_` is cleaned to that name |
| `Transformer.CleanItems` | src/comp_data.py:64-67 | the cleaned item list has the build's length and order, each item with every `TFT_Item_` removed |
| `Transformer.CleanItemExample` | src/comp_data.py:65 | `'TFT_Item_InfinityEdge'` is cleaned to `'InfinityEdge'` |
| `Transformer.Top4Rate` | src/comp_data.py:86 | the unrounded estimate lies in 0..100 for placements 1..8, and is 100 at 1, 50 at 4.5 and 0 at 8 |
| `Dicts.LastWinsStep` | src/comp_data.py:60-74 | one more assignment `item_builds[unit_name] = {...}` keeps "keys are exactly the keys written, each mapped to the value of its last write" |
| `Dicts.LastWriteExists` | src/comp_data.py:59-74 | every key of `item_builds` has a last build that wrote it |
| `Dicts.LastWinsUnique` | src/comp_data.py:59-74 | last write wins fixes `item_builds` completely, with no field merged from earlier builds |
| `Transformer.ParseCompForBot` | src/comp_data.py:49-98 | `comp_id` is `Cluster`; name `'Piltover T-Hex'` and carry `'THex'`; cleaned units; performance copied from `overall` with the estimated rate; `item_builds` keyed by cleaned unit name with the last build winning; difficulty and levelling defaulted independently to `'Unknown'` and `'Standard'` only when absent |
| `Transformer.ParsedUnique` | src/comp_data.py:77-95 | the parser's contract leaves exactly one configuration per record |
| `Persister.Slug` | src/comp_data.py:106 | `name.lower().replace(' ', '_')` keeps the length, turns spaces into `_`, lower-cases the rest, and leaves no space or capital |
| `Persister.ConfigPath` | src/comp_data.py:103-109 | with a non-empty id the path is `data/` + slug of the name (`'unknown'` if absent) + `_` + id + `.json`; with no id or an empty one it is `data/comp_config.json` |
| `Persister.SlugExample` | src/comp_data.py:106 | `'Piltover T-Hex'` becomes `'piltover_t-hex'` |
| `Persister.ConfigPathExample` | src/comp_data.py:104-107 | `'Piltover T-Hex'` with id `381014` is saved to `data/piltover_t-hex_381014.json` |
| `Persister.ConfigPathIdsDistinct` | src/comp_data.py:107 | for one name, different non-empty ids give different files |
| `Pipeline.Summary` | src/comp_data.py:139-152 | the summary starts with the header and ends with the closing line; the "Best items" line appears iff the main carry is a key of `item_builds`, listing its items joined by `', '` |
| `Pipeline.Run` | src/comp_data.py:119-152 | it stops at the download iff the download is falsy, and at the extraction iff the extracted result is falsy; it saves iff both are truthy and the record has the parsed fields; the saved configuration is the parse of the record, at `data/piltover_t-hex_381014.json`; "Best items" appears iff some build's cleaned unit is `THex` |

## Left out

- `download_all_comps` (src/comp_data.py:10-26) sends an HTTP GET with `queue=1100` and checks the status. This is network I/O. Its result is the input of `Pipeline.Run`: `None` for a failed request, otherwise the decoded body.
- `save_config` creates the `data/` directory and writes the JSON file with `json.dump` (src/comp_data.py:111-114). This is filesystem I/O and a foreign serialiser; only the path is modelled.
- Every diagnostic `print`, and the number formatting of the summary (`:.2f`, `:,`), are presentation only. Summary lines carry the raw values.
- `Transformer.Top4Rate`: does not round to one decimal. Python's `round` on floats is not modelled; the rate is the exact real `(8 - avg) / 7 * 100`.
- JSON numbers are exact integers and reals. NaN and infinities, float rounding, and Python's treatment of `True`/`False` as numbers are not modelled.
- `Transformer.DecodeComp` decodes only the shapes the typed record holds. That means `builds` and `buildName` as lists, names as strings, `avg` and `place_change` as numbers, and `count` as an integer. A payload outside these shapes is treated as one on which the parser raises. The source would still let some of them through without raising. A string or number `avg`, `place_change` or `count` in a build is copied as it is. An empty dict or an empty string as `builds` gives no builds. A string `buildName` is iterated one character at a time, each character going through `replace`. (A non-empty dict of builds does raise: iterating it gives string keys, and subscripting a string with `'unit'` is a `TypeError`.)
- `Persister.Slug`: lower-cases ASCII letters only; Python's `str.lower` also lower-cases other Unicode letters.
- The insertion order of the `item_builds` dict, and therefore the key order of the written file, is not kept: the dict is a Dafny `map`.
- An exception after saving, such as `:,` applied to a non-number, cannot arise in the model, because the typed record's counts are integers.
