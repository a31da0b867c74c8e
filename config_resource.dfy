/** `ConfigResource.getConfig`: the sorted dump, or a placeholder when it
    comes out empty. */
module ConfigResource {
  import opened ConfigDump

  const NoKeysPlaceholder: string := "(no application keys found)"

  /** `getConfig`: copies the property names into a list, one by one as
      `forEach(keys::add)` does, then renders the dump of that list; an empty
      dump is replaced by the placeholder, which therefore appears exactly
      when there are no property names. */
  method GetConfig(names: seq<string>, values: map<string, string>) returns (body: string)
    ensures names != [] ==> body == Dump(names, values)
    ensures body == NoKeysPlaceholder <==> names == []
  {
    var keys: seq<string> := [];
    var i := 0;
    while i < |names|
      invariant 0 <= i <= |names|
      invariant keys == names[..i]
    {
      keys := keys + [names[i]];
      i := i + 1;
    }
    assert keys == names;
    body := Dump(keys, values);
    DumpEmptyIff(keys, values);
    if body == "" {
      body := NoKeysPlaceholder;
    } else if names != [] {
      assert body != NoKeysPlaceholder by {
        PlaceholderIsNoDump(names, values);
      }
    }
  }

  /** No non-empty dump equals the placeholder: the dump holds an "=" and the
      placeholder does not. */
  lemma PlaceholderIsNoDump(names: seq<string>, values: map<string, string>)
    requires names != []
    ensures Dump(names, values) != NoKeysPlaceholder
  {
    DumpHasSeparator(names, values);
    PlaceholderHasNoSeparator();
  }

  lemma PlaceholderHasNoSeparator()
    ensures '=' !in NoKeysPlaceholder
  {
  }
}
