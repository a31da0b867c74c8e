/** The `key=value` dump that `ConfigResource.getConfig` and
    `GreetingResource.config` both produce from the configuration: property
    names in ascending order, one line each, joined with "\n". */
module ConfigDump {
  import opened JavaText
  import opened StringOrder

  /** `config.getOptionalValue(key, String.class).orElse("")`. */
  function ValueOrEmpty(values: map<string, string>, key: string): string {
    if key in values then values[key] else ""
  }

  /** The lines for `keys`, in their order. */
  function Lines(keys: seq<string>, values: map<string, string>): (lines: seq<string>)
    ensures |lines| == |keys|
    ensures forall i :: 0 <= i < |keys| ==> lines[i] == keys[i] + "=" + ValueOrEmpty(values, keys[i])
  {
    if keys == [] then []
    else [keys[0] + "=" + ValueOrEmpty(values, keys[0])] + Lines(keys[1..], values)
  }

  /** The dump: the lines of the sorted names joined with "\n". It opens
      with the line of the least name, so a name that precedes all the
      others comes first. */
  function Dump(names: seq<string>, values: map<string, string>): (r: string)
    ensures names != [] ==> (exists least :: least in names
                               && (forall n :: n in names ==> StrLe(least, n))
                               && least + "=" + ValueOrEmpty(values, least) <= r)
  {
    var keys := SortStrings(names);
    var r := Join(Lines(keys, values), "\n");
    if names == [] then r
    else
      SortedHeadIsLeast(keys, names);
      assert keys[0] + "=" + ValueOrEmpty(values, keys[0]) <= r;
      r
  }

  /** What the dump is made of: one line per property name, the i-th line
      being the i-th name in ascending order, "=", and its value ("" when it
      has none); the names in it are exactly the given ones. */
  lemma DumpLayout(names: seq<string>, values: map<string, string>)
    ensures var keys := SortStrings(names);
      && Sorted(keys)
      && multiset(keys) == multiset(names)
      && Dump(names, values) == Join(Lines(keys, values), "\n")
      && |Lines(keys, values)| == |names|
      && forall i :: 0 <= i < |keys| ==> Lines(keys, values)[i] == keys[i] + "=" + ValueOrEmpty(values, keys[i])
  {
  }

  /** The dump is empty exactly when there are no property names: every
      line holds at least "=". */
  lemma DumpEmptyIff(names: seq<string>, values: map<string, string>)
    ensures Dump(names, values) == "" <==> names == []
  {
  }

  /** A dump of at least one name contains an "=". */
  lemma DumpHasSeparator(names: seq<string>, values: map<string, string>)
    requires names != []
    ensures '=' in Dump(names, values)
  {
  }

  /** The dump does not depend on the order in which the names arrive. */
  lemma DumpOrderInsensitive(names1: seq<string>, names2: seq<string>, values: map<string, string>)
    requires multiset(names1) == multiset(names2)
    ensures Dump(names1, values) == Dump(names2, values)
  {
    SortedUnique(SortStrings(names1), SortStrings(names2));
  }
}
