/** The application's configuration as the hosting framework exposes it: a
    flat mapping from keys to string values, where a hierarchical key joins
    its section names with ':' (for example "Twilio:Client:AccountSid"). */
module Configuration {
  import opened Wrappers

  /** The separator between the levels of a hierarchical key. */
  const KeyDelimiter: string := ":"

  /** A snapshot of every configuration value the application sees. */
  datatype Config = Config(entries: map<string, string>)

  /** The indexer `configuration[key]`: the value stored under `key`, or null. */
  function Get(c: Config, key: string): (r: Option<string>)
    ensures r.Some? <==> key in c.entries
    ensures r.Some? ==> r.value == c.entries[key]
  {
    if key in c.entries then Some(c.entries[key]) else None
  }

  /** The full key of child `name` of the section at `path`. */
  function ChildKey(path: string, name: string): (k: string)
    ensures path + KeyDelimiter <= k
    ensures |k| == |path| + 1 + |name|
  {
    path + KeyDelimiter + name
  }

  /** `GetSection(path).Exists()`: the section has a value of its own or at
      least one key below it. */
  predicate SectionExists(c: Config, path: string)
  {
    path in c.entries || exists k :: k in c.entries && path + KeyDelimiter <= k
  }

  /** `GetSection(path)[name]`: the value of one child key of a section. */
  function SectionGet(c: Config, path: string, name: string): Option<string>
  {
    Get(c, ChildKey(path, name))
  }

  /** A section that holds any child value exists. */
  lemma ChildMakesSectionExist(c: Config, path: string, name: string)
    requires SectionGet(c, path, name).Some?
    ensures SectionExists(c, path)
  {
    var k := ChildKey(path, name);
    assert k in c.entries && path + KeyDelimiter <= k;
  }
}
