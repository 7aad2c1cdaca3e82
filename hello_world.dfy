/**
 * The "hello-world" tool server: `say_hello` and `get_time`.
 * The wall clock is not modelled: `get_time` receives the already
 * locale-formatted clock string.
 */
module HelloWorld {
  import opened Wrappers
  import opened Js
  import opened ToolResult

  const DEFAULT_GREETING := "Hello, World!"
  const TIME_PREFIX := "Current time: "

  /** Tool `say_hello`: greets `name` when it is given and non-empty, the world otherwise. */
  function SayHello(name: Option<string>): (e: Envelope)
    ensures e.IsText()
    ensures TruthyString(name) ==> e.Text() == "Hello, " + name.value + "!"
    ensures !TruthyString(name) ==> e.Text() == DEFAULT_GREETING
  {
    var greeting := if TruthyString(name) then "Hello, " + name.value + "!" else DEFAULT_GREETING;
    TextEnvelope(greeting)
  }

  /** The name a greeting addresses: what lies between "Hello, " and the closing "!". */
  function GreetedName(greeting: string): Option<string> {
    if |greeting| >= 8 && greeting[..7] == "Hello, " && greeting[|greeting| - 1] == '!'
    then Some(greeting[7..|greeting| - 1])
    else None
  }

  /** A personalised greeting names exactly the caller's name. */
  lemma SayHelloNamesCaller(name: string)
    requires name != ""
    ensures GreetedName(SayHello(Some(name)).Text()) == Some(name)
  {
    var g := "Hello, " + name + "!";
    assert g[..7] == "Hello, ";
    assert g[7..|g| - 1] == name;
  }

  /** Different non-empty names get different greetings. */
  lemma SayHelloInjective(a: string, b: string)
    requires a != "" && b != ""
    requires SayHello(Some(a)) == SayHello(Some(b))
    ensures a == b
  {
    SayHelloNamesCaller(a);
    SayHelloNamesCaller(b);
  }

  /**
   * An absent name and an empty name both give the default greeting, which is
   * also the greeting for the name "World".
   */
  lemma SayHelloDefault()
    ensures SayHello(None) == SayHello(Some(""))
    ensures SayHello(None) == SayHello(Some("World"))
    ensures GreetedName(SayHello(None).Text()) == Some("World")
  {
    assert "Hello, " + "World" + "!" == DEFAULT_GREETING;
    SayHelloNamesCaller("World");
  }

  /** Tool `get_time`: the clock string, after a fixed prefix. */
  function GetTime(clock: string): (e: Envelope)
    ensures e.IsText()
    ensures |e.Text()| == |TIME_PREFIX| + |clock|
    ensures e.Text()[..|TIME_PREFIX|] == TIME_PREFIX
    ensures e.Text()[|TIME_PREFIX|..] == clock
  {
    TextEnvelope(TIME_PREFIX + clock)
  }

  /** The clock string a `get_time` text reports. */
  function ReportedClock(text: string): Option<string> {
    if |text| >= |TIME_PREFIX| && text[..|TIME_PREFIX|] == TIME_PREFIX
    then Some(text[|TIME_PREFIX|..])
    else None
  }

  /** The reported clock string is the one the handler was given. */
  lemma GetTimeRoundTrip(clock: string)
    ensures ReportedClock(GetTime(clock).Text()) == Some(clock)
  {
  }
}
