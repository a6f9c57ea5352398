/** The configuration reader: the parsed `config.toml` is checked against
    the section and key names of `config.example.toml`, ignoring the
    `range_ring_*` sections, and is read only once per run. */
module Config {
  import opened Common
  import opened RangeRings

  /** A parsed TOML file: section name to that section's key-value table. */
  type Toml<V> = map<string, map<string, V>>

  /** The section names of a TOML file, each with the set of its keys. */
  ghost function SectionKeys<V>(input: Toml<V>): map<string, set<string>>
  {
    map k | k in input :: input[k].Keys
  }

  /** `_extract_toml_keys`: fills the key map one section at a time. */
  method ExtractKeys<V>(input: Toml<V>) returns (keys: map<string, set<string>>)
    ensures keys.Keys == input.Keys
    ensures forall k :: k in keys ==> keys[k] == input[k].Keys
  {
    keys := map[];
    var rest := input.Keys;
    while rest != {}
      invariant rest <= input.Keys
      invariant keys.Keys == input.Keys - rest
      invariant forall k :: k in keys ==> keys[k] == input[k].Keys
      decreases rest
    {
      var k :| k in rest;
      keys := keys[k := input[k].Keys];
      rest := rest - {k};
    }
  }

  /** The key map without the range-ring sections, whose number varies
      from one installation to the next. */
  function WithoutRangeRings(keys: map<string, set<string>>): (r: map<string, set<string>>)
    ensures forall k :: k in r <==> k in keys && !StartsWith(k, RangeRingPrefix)
    ensures forall k :: k in r ==> r[k] == keys[k]
  {
    map k | k in keys && !StartsWith(k, RangeRingPrefix) :: keys[k]
  }

  /** The accepted configurations: the same sections, apart from range
      rings, with the same keys in each. */
  ghost predicate KeysMatch<V>(config: Toml<V>, example: Toml<V>)
  {
    WithoutRangeRings(SectionKeys(config)) == WithoutRangeRings(SectionKeys(example))
  }

  /** The check, section by section: every section that is not a range
      ring is in both files or in neither, with equal key sets. */
  lemma KeysMatchIff<V>(config: Toml<V>, example: Toml<V>)
    ensures KeysMatch(config, example) <==>
      (forall k :: !StartsWith(k, RangeRingPrefix) ==> (k in config <==> k in example))
      && (forall k :: k in config && k in example && !StartsWith(k, RangeRingPrefix) ==> config[k].Keys == example[k].Keys)
  {
    var c := WithoutRangeRings(SectionKeys(config));
    var e := WithoutRangeRings(SectionKeys(example));
    if (forall k :: !StartsWith(k, RangeRingPrefix) ==> (k in config <==> k in example))
      && (forall k :: k in config && k in example && !StartsWith(k, RangeRingPrefix) ==> config[k].Keys == example[k].Keys) {
      assert c.Keys == e.Keys;
      assert forall k :: k in c ==> c[k] == e[k];
    }
    if c == e {
      forall k | !StartsWith(k, RangeRingPrefix)
        ensures k in config <==> k in example
      {
        assert k in config <==> k in c;
      }
      forall k | k in config && k in example && !StartsWith(k, RangeRingPrefix)
        ensures config[k].Keys == example[k].Keys
      {
        assert c[k] == e[k];
      }
    }
  }

  /** Whatever a range-ring section holds, it does not change the verdict. */
  lemma RangeRingSectionsIgnored<V>(config: Toml<V>, example: Toml<V>, name: string, section: map<string, V>)
    requires StartsWith(name, RangeRingPrefix)
    ensures KeysMatch(config[name := section], example) <==> KeysMatch(config, example)
  {
    assert WithoutRangeRings(SectionKeys(config[name := section])) == WithoutRangeRings(SectionKeys(config));
  }

  /** What a read does to the cache: `None` is `exit(1)`. A missing config
      file exits; a missing example file skips the check; a key mismatch
      exits after the cache has been set. A non-empty cache is returned
      as it is. */
  ghost function ReadStep<V>(cached: Toml<V>, configFile: Option<Toml<V>>, exampleFile: Option<Toml<V>>): (r: (Toml<V>, Option<Toml<V>>))
    ensures |cached| > 0 ==> r == (cached, Some(cached))
    ensures |cached| == 0 ==>
      (r.1.Some? <==> configFile.Some? && (exampleFile.None? || KeysMatch(configFile.value, exampleFile.value)))
    ensures |cached| == 0 && configFile.Some? ==> r.0 == configFile.value
    ensures r.1.Some? ==> r.1.value == r.0
  {
    if |cached| > 0 then (cached, Some(cached))
    else if configFile.None? then (cached, None)
    else if exampleFile.None? || KeysMatch(configFile.value, exampleFile.value) then (configFile.value, Some(configFile.value))
    else (configFile.value, None)
  }

  /** Read once: after a read that returned a non-empty configuration,
      every later read returns the same configuration, whatever the files
      then hold. */
  lemma ReadOnce<V>(cached: Toml<V>, configFile: Option<Toml<V>>, exampleFile: Option<Toml<V>>,
                    configFile': Option<Toml<V>>, exampleFile': Option<Toml<V>>)
    requires ReadStep(cached, configFile, exampleFile).1.Some?
    requires |ReadStep(cached, configFile, exampleFile).1.value| > 0
    ensures var (data, r) := ReadStep(cached, configFile, exampleFile);
      ReadStep(data, configFile', exampleFile') == (data, r)
  {
  }

  /** An empty `config.toml` leaves the cache empty, so the next read goes
      to the files again. */
  lemma EmptyConfigNotCached<V>(configFile': Option<Toml<V>>, exampleFile': Option<Toml<V>>)
    ensures var empty: Toml<V> := map[];
      ReadStep(empty, Some(empty), None).1 == Some(empty)
      && ReadStep(ReadStep(empty, Some(empty), None).0, configFile', exampleFile') ==
         ReadStep(empty, configFile', exampleFile')
  {
  }

  /** The module-level `_config_data` and `read_config`. */
  class ConfigStore<V> {
    var data: Toml<V>

    constructor()
      ensures data == map[]
    {
      data := map[];
    }

    /** `read_config`, with the two files given as their parsed contents
        (`None` when the file does not exist). */
    method Read(configFile: Option<Toml<V>>, exampleFile: Option<Toml<V>>) returns (r: Option<Toml<V>>)
      modifies this
      ensures (data, r) == ReadStep(old(data), configFile, exampleFile)
    {
      if |data| == 0 {
        if configFile.None? {
          return None;
        }
        data := configFile.value;
        if exampleFile.Some? {
          var configKeys := ExtractKeys(data);
          var exampleKeys := ExtractKeys(exampleFile.value);
          assert configKeys == SectionKeys(data);
          assert exampleKeys == SectionKeys(exampleFile.value);
          if WithoutRangeRings(configKeys) != WithoutRangeRings(exampleKeys) {
            return None;
          }
        }
      }
      r := Some(data);
    }
  }
}
