/**
 * The stages and chains of src/test.rs: `TestChainLink` turns a `SomeInput`
 * into its name, `StringToSomeInput` turns the name back (and panics on any
 * other string). Both are stateless, so each is a map link over one value type
 * holding either kind of value. A chain used as a link of another chain is
 * written out as the links it is made of.
 */
module TestLinks {
  import opened Wrappers
  import opened Stages
  import opened Chains

  datatype SomeInput = First | Second

  /** The values that travel through the test chains: an enum value or a string. */
  datatype Value = Input(input: SomeInput) | Text(text: string)

  /** The body of `TestChainLink`. */
  function Name(input: SomeInput): (s: string)
    ensures input == First <==> s == "first"
    ensures input == Second <==> s == "second"
  {
    match input
    case First => "first"
    case Second => "second"
  }

  /** The body of `StringToSomeInput`; `Err` stands for the panic on an unexpected string. */
  function Parse(s: string): (r: Result<SomeInput>)
    ensures r.Ok? <==> s == "first" || s == "second"
    ensures r == Ok(First) <==> s == "first"
    ensures r == Ok(Second) <==> s == "second"
  {
    if s == "first" then Ok(First)
    else if s == "second" then Ok(Second)
    else Err
  }

  /** Naming an input and parsing the name gives the input back. */
  lemma ParseName(input: SomeInput)
    ensures Parse(Name(input)) == Ok(input)
  {
  }

  /** Every string that parses is the name of what it parses to. */
  lemma NameParse(s: string)
    requires Parse(s).Ok?
    ensures Name(Parse(s).value) == s
  {
  }

  /** `TestChainLink` as a link map: an enum value becomes its name. */
  function TestChainLink(v: Value): (r: Option<Value>)
    ensures v.Input? <==> r.Some?
    ensures v.Input? ==> r == Some(Text(Name(v.input)))
  {
    match v
    case Input(input) => Some(Text(Name(input)))
    case Text(_) => None
  }

  /** `StringToSomeInput` as a link map: a name becomes its enum value; a panic yields no output. */
  function StringToSomeInput(v: Value): (r: Option<Value>)
    ensures r.Some? <==> v.Text? && Parse(v.text).Ok?
    ensures r.Some? ==> r == Some(Input(Parse(v.text).value))
  {
    match v
    case Text(s) => if Parse(s).Ok? then Some(Input(Parse(s).value)) else None
    case Input(_) => None
  }

  /** `ChainTest`: the link and its inverse. */
  function ChainTestMaps(): seq<Value -> Option<Value>>
  {
    [TestChainLink, StringToSomeInput]
  }

  /** `TripleTest`: link, inverse, link. */
  function TripleTestMaps(): seq<Value -> Option<Value>>
  {
    [TestChainLink, StringToSomeInput, TestChainLink]
  }

  function Links(fs: seq<Value -> Option<Value>>): (ts: seq<Transform<(), Value, Value>>)
    ensures MapLinks(fs, ts)
  {
    seq(|fs|, k requires 0 <= k < |fs| => MapLink(fs[k]))
  }

  function NoConfigs(n: nat): (cs: seq<()>)
    ensures |cs| == n
  {
    seq(n, _ => ())
  }

  /** `ChainTest` hands back exactly the value it was given. */
  lemma ChainTestIsIdentity(input: SomeInput)
    ensures Compose(ChainTestMaps(), Some(Input(input))) == Some(Input(input))
  {
    var fs := ChainTestMaps();
    assert fs[1..] == [StringToSomeInput] && fs[1..][1..] == [];
  }

  /** `TripleTest` turns a value into its name. */
  lemma TripleTestNames(input: SomeInput)
    ensures Compose(TripleTestMaps(), Some(Input(input))) == Some(Text(Name(input)))
  {
    var fs := TripleTestMaps();
    assert fs[1..] == [StringToSomeInput, TestChainLink];
    assert fs[1..][1..] == [TestChainLink] && fs[1..][1..][1..] == [];
  }

  /** `ChainToChain` is `ChainTest` followed by `TripleTest`: a value becomes its name. */
  lemma ChainToChainNames(input: SomeInput)
    ensures Compose(ChainTestMaps() + TripleTestMaps(), Some(Input(input))) == Some(Text(Name(input)))
  {
    ComposeConcat(ChainTestMaps(), TripleTestMaps(), Some(Input(input)));
    ChainTestIsIdentity(input);
    TripleTestNames(input);
  }

  /** `ChainToChainToLink` is `ChainTest`, `TripleTest`, then `StringToSomeInput`: a value comes back unchanged. */
  lemma ChainToChainToLinkIsIdentity(input: SomeInput)
    ensures Compose(ChainTestMaps() + TripleTestMaps() + [StringToSomeInput], Some(Input(input))) == Some(Input(input))
  {
    ComposeConcat(ChainTestMaps() + TripleTestMaps(), [StringToSomeInput], Some(Input(input)));
    ChainToChainNames(input);
    ComposeOne(StringToSomeInput, Some(Text(Name(input))));
    ParseName(input);
  }

  /** Push a value into a fresh chain of the given maps, process once, pop. */
  method Run(fs: seq<Value -> Option<Value>>, input: SomeInput) returns (response: Option<Value>)
    requires |fs| >= 1
    ensures response == Compose(fs, Some(Input(input)))
  {
    var chain := new Chain<(), Value>(NoConfigs(|fs|), Links(fs));
    chain.Push(Input(input));
    var processed := chain.Process(2);
    response := chain.TryPop();
    OneInputThroughMaps(fs, Links(fs), NoConfigs(|fs|), Input(input), 2);
  }

  /** The test `chain_link_enum_to_string`: one `TestChainLink` stage given `Second` answers "second". */
  method ChainLinkEnumToString() returns (response: Option<Value>)
    ensures response == Some(Text("second"))
  {
    var stage := new Stage<(), Value, Value>((), MapLink(TestChainLink));
    stage.Push(Input(Second));
    var processed := stage.Process();
    response := stage.TryPop();
  }

  /** The test `chain_enum_to_enum`: `ChainTest` given `Second` answers `Second`. */
  method ChainEnumToEnum() returns (response: Option<Value>)
    ensures response == Some(Input(Second))
  {
    response := Run(ChainTestMaps(), Second);
    ChainTestIsIdentity(Second);
  }

  /** The test `chain_enum_to_string_to_enum`: `TripleTest` given `First` answers "first". */
  method ChainEnumToStringToEnum() returns (response: Option<Value>)
    ensures response == Some(Text("first"))
  {
    response := Run(TripleTestMaps(), First);
    TripleTestNames(First);
  }

  /** The test `chain_to_chain`: `ChainToChain` given `First` answers "first". */
  method ChainToChain() returns (response: Option<Value>)
    ensures response == Some(Text("first"))
  {
    response := Run(ChainTestMaps() + TripleTestMaps(), First);
    ChainToChainNames(First);
  }

  /** The test `chain_to_chain_to_chain_link`: `ChainToChainToLink` given `Second` answers `Second`. */
  method ChainToChainToChainLink() returns (response: Option<Value>)
    ensures response == Some(Input(Second))
  {
    response := Run(ChainTestMaps() + TripleTestMaps() + [StringToSomeInput], Second);
    ChainToChainToLinkIsIdentity(Second);
  }
}
