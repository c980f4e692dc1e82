/** The file name chosen by `save_config`; creating the directory and writing the JSON are not modelled. */
module Persister {
  import opened Wrappers
  import opened Strings

  const DataDir := "data/"
  const DefaultPath := "data/comp_config.json"
  const UnknownName := "unknown"
  const Extension := ".json"

  /**
   * `name.lower().replace(' ', '_')`: same length, every space becomes an underscore and every
   * other character is lower-cased, so the result has neither spaces nor ASCII capitals.
   */
  function Slug(name: string): (r: string)
    ensures |r| == |name|
    ensures forall k :: 0 <= k < |name| ==> r[k] == if name[k] == ' ' then '_' else LowerChar(name[k])
    ensures forall k :: 0 <= k < |r| ==> r[k] != ' ' && !('A' <= r[k] <= 'Z')
  {
    ReplaceCharPointwise(Lower(name), ' ', '_');
    ReplaceAll(Lower(name), " ", "_")
  }

  /** Python truth value of the optional `comp_id` argument. */
  predicate HasId(compId: Option<string>) {
    compId.Some? && compId.value != ""
  }

  /**
   * The path `save_config(config, comp_id)` writes to: with a non-empty id, the slug of the
   * configuration's name (`'unknown'` when it has none), an underscore and the id, under `data/`
   * with a `.json` extension; otherwise the fixed `data/comp_config.json`.
   */
  function ConfigPath(compName: Option<string>, compId: Option<string>): (path: string)
    ensures !HasId(compId) ==> path == DefaultPath
    ensures HasId(compId) ==> path == DataDir + Slug(compName.GetOr(UnknownName)) + "_" + compId.value + Extension
  {
    if HasId(compId) then
      DataDir + Slug(compName.GetOr(UnknownName)) + "_" + compId.value + Extension
    else
      DefaultPath
  }

  /** The composition this tool targets is saved as `data/piltover_t-hex_381014.json`. */
  lemma ConfigPathExample()
    ensures ConfigPath(Some("Piltover T-Hex"), Some("381014")) == "data/piltover_t-hex_381014.json"
  {
    SlugExample("Piltover T-Hex");
    PathSpelling("piltover_t-hex", "381014");
  }

  // The literals come in as parameters fixed by `requires` so the verifier does not unroll them.
  /** The pieces of the example path, put together. */
  lemma PathSpelling(slug: string, id: string)
    requires slug == "piltover_t-hex" && id == "381014"
    ensures DataDir + slug + "_" + id + Extension == "data/piltover_t-hex_381014.json"
  {
    var path, want := DataDir + slug + "_" + id + Extension, "data/piltover_t-hex_381014.json";
    assert |path| == |want|;
    forall k | 0 <= k < |want| ensures path[k] == want[k] {
      if k < 5 {
        assert path[k] == DataDir[k];
      } else if k < 19 {
        assert path[k] == slug[k - 5];
      } else if k == 19 {
        assert path[k] == '_';
      } else if k < 26 {
        assert path[k] == id[k - 20];
      } else {
        assert path[k] == Extension[k - 26];
      }
    }
  }

  // The literals come in as parameters fixed by `requires` so the verifier does not unroll them.
  /** `'Piltover T-Hex'` becomes `'piltover_t-hex'`. */
  lemma SlugExample(name: string)
    requires name == "Piltover T-Hex"
    ensures Slug(name) == "piltover_t-hex"
  {
    var slug, want := Slug(name), "piltover_t-hex";
    assert |slug| == |want|;
    assert name[0] == 'P' && slug[0] == 'p';
    assert name[1] == 'i' && slug[1] == 'i';
    assert name[2] == 'l' && slug[2] == 'l';
    assert name[3] == 't' && slug[3] == 't';
    assert name[4] == 'o' && slug[4] == 'o';
    assert name[5] == 'v' && slug[5] == 'v';
    assert name[6] == 'e' && slug[6] == 'e';
    assert name[7] == 'r' && slug[7] == 'r';
    assert name[8] == ' ' && slug[8] == '_';
    assert name[9] == 'T' && slug[9] == 't';
    assert name[10] == '-' && slug[10] == '-';
    assert name[11] == 'H' && slug[11] == 'h';
    assert name[12] == 'e' && slug[12] == 'e';
    assert name[13] == 'x' && slug[13] == 'x';
    assert slug == want;
  }

  /** For one name, two different non-empty ids never share a file. */
  lemma ConfigPathIdsDistinct(compName: Option<string>, a: string, b: string)
    requires a != "" && b != "" && a != b
    ensures ConfigPath(compName, Some(a)) != ConfigPath(compName, Some(b))
  {
    var stem := DataDir + Slug(compName.GetOr(UnknownName)) + "_";
    var pa, pb := ConfigPath(compName, Some(a)), ConfigPath(compName, Some(b));
    assert pa == stem + a + Extension && pb == stem + b + Extension;
    if |a| == |b| {
      assert pa[|stem|..|stem| + |a|] == a;
      assert pb[|stem|..|stem| + |b|] == b;
    }
  }
}
