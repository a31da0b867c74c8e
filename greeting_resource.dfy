/** `GreetingResource`: the greeting and the bare configuration dump. */
module GreetingResource {
  import opened ConfigDump

  const DefaultGreeting: string := "Hello"

  /** `greet`: the `app.greeting` value, or "Hello" when it has none, then
      " @ " and the current instant (`now`, already rendered). */
  function Greet(values: map<string, string>, now: string): (r: string)
    ensures "app.greeting" in values ==> r == values["app.greeting"] + " @ " + now
    ensures "app.greeting" !in values ==> r == DefaultGreeting + " @ " + now
  {
    var greeting := if "app.greeting" in values then values["app.greeting"] else DefaultGreeting;
    greeting + " @ " + now
  }

  /** `config`: the dump itself, with no placeholder, so it is empty exactly
      when there are no property names. */
  function Config(names: seq<string>, values: map<string, string>): (r: string)
    ensures r == "" <==> names == []
    ensures names != [] ==> r == Dump(names, values)
  {
    DumpEmptyIff(names, values);
    Dump(names, values)
  }
}
