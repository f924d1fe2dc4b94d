/**
 * examples/madlib.rs: a two-link chain that fills in a madlib. The first link,
 * `MadlibConstruction`, keeps a list of madlib parts and an index into it and
 * hands out one constructed part per call; the second,
 * `CollectConstructedMadlibParts`, buffers the words and, on `End`, answers
 * the buffered words joined with single spaces.
 *
 * The random choice of a word for a `Dynamic` part is a caller-supplied
 * `pick`: on the call at index `i` the word at position `pick(i)` (modulo the
 * number of candidates) is taken.
 */
module Madlib {
  import opened Wrappers
  import opened Queues
  import opened Stages
  import opened Chains

  datatype SpeechPart = Noun | Verb | Adjective

  datatype MadlibPart = Static(text: string) | Dynamic(speechPart: SpeechPart) | End

  datatype ConstructedMadlibPart = Word(word: string) | End

  /** The values that travel through the chain. */
  datatype Value = Parts(parts: seq<MadlibPart>) | Piece(piece: ConstructedMadlibPart) | Sentence(text: string)

  /** The initializers of the two links. */
  datatype Setup =
    | Construction(possibleWords: map<SpeechPart, seq<string>>, index: nat, madlibParts: Option<seq<MadlibPart>>)
    | Collection(buffer: seq<string>)

  /**
   * The constructed part for one madlib part. `None` stands for the panic of
   * `unwrap` on a speech part with no entry or with no candidate words.
   */
  function ConstructPart(possibleWords: map<SpeechPart, seq<string>>, part: MadlibPart, pick: nat)
    : (r: Option<ConstructedMadlibPart>)
    ensures part.Static? ==> r == Some(Word(part.text))
    ensures part == MadlibPart.End ==> r == Some(ConstructedMadlibPart.End)
    ensures part.Dynamic? ==>
              (r.Some? <==> part.speechPart in possibleWords && possibleWords[part.speechPart] != [])
    ensures part.Dynamic? && r.Some? ==> r.value.Word? && r.value.word in possibleWords[part.speechPart]
  {
    match part
    case Static(text) => Some(Word(text))
    case Dynamic(speechPart) =>
      if speechPart in possibleWords && possibleWords[speechPart] != [] then
        var candidates := possibleWords[speechPart];
        Some(Word(candidates[pick % |candidates|]))
      else None
    case End => Some(ConstructedMadlibPart.End)
  }

  /**
   * The body of `MadlibConstruction`. A received parts list replaces the stored
   * one without resetting the index. With no stored list, or the index at its
   * end, there is no output; otherwise the part at the index is constructed and
   * the index moves on by one. An index past the end of a (replaced, shorter)
   * list and a failed lookup are panics in the source and yield no output here.
   */
  function Construct(pick: nat -> nat, config: Setup, received: Option<Value>): (r: (Setup, Option<Value>))
    ensures config.Construction? ==>
              && r.0.Construction? && r.0.possibleWords == config.possibleWords
              && r.0.madlibParts == (if received.Some? && received.value.Parts? then Some(received.value.parts)
                                     else config.madlibParts)
    ensures config.Construction? ==>
              (r.1.Some? <==> r.0.index == config.index + 1) && (r.1.None? <==> r.0.index == config.index)
    ensures config.Construction? && (r.0.madlibParts.None? || config.index == |r.0.madlibParts.value|) ==>
              r.1.None?
    ensures config.Construction? && r.1.Some? ==>
              && r.0.madlibParts.Some? && config.index < |r.0.madlibParts.value|
              && var part := ConstructPart(config.possibleWords, r.0.madlibParts.value[config.index], pick(config.index));
                 part.Some? && r.1 == Some(Piece(part.value))
    ensures config.Collection? ==> r == (config, None)
  {
    if !config.Construction? then (config, None)
    else
      var c := if received.Some? && received.value.Parts? then config.(madlibParts := Some(received.value.parts))
               else config;
      if c.madlibParts.None? || c.index >= |c.madlibParts.value| then (c, None)
      else
        var part := ConstructPart(c.possibleWords, c.madlibParts.value[c.index], pick(c.index));
        if part.None? then (c, None)
        else (c.(index := c.index + 1), Some(Piece(part.value)))
  }

  /** `Vec::join(" ")`: the words with one space between neighbours, "" for none. */
  function JoinWords(words: seq<string>): string
  {
    if |words| == 0 then ""
    else if |words| == 1 then words[0]
    else words[0] + " " + JoinWords(words[1..])
  }

  /**
   * The body of `CollectConstructedMadlibParts`: a word is buffered and nothing
   * is answered; `End` answers the buffered words joined and clears the buffer.
   */
  function Collect(config: Setup, received: Option<Value>): (r: (Setup, Option<Value>))
    ensures config.Collection? && received.Some? && received.value.Piece? && received.value.piece.Word? ==>
              r == (Collection(config.buffer + [received.value.piece.word]), None)
    ensures config.Collection? && received == Some(Piece(ConstructedMadlibPart.End)) ==>
              r == (Collection([]), Some(Sentence(JoinWords(config.buffer))))
    ensures !(received.Some? && received.value.Piece?) || config.Construction? ==> r == (config, None)
  {
    if !config.Collection? || received.None? || !received.value.Piece? then (config, None)
    else match received.value.piece
      case Word(word) => (Collection(config.buffer + [word]), None)
      case End => (Collection([]), Some(Sentence(JoinWords(config.buffer))))
  }

  /** The first position of a space in `s`. */
  function FirstSpace(s: string): (i: nat)
    requires ' ' in s
    ensures i < |s| && s[i] == ' ' && ' ' !in s[..i]
  {
    if s[0] == ' ' then 0
    else
      var i := FirstSpace(s[1..]);
      assert s[1..][..i] == s[1..i + 1];
      assert s[..i + 1] == [s[0]] + s[1..i + 1];
      i + 1
  }

  /**
   * The pieces between spaces, as `str::split(' ')` gives them. The madlib does
   * not split; this is the reference inverse against which `JoinWords` is checked.
   */
  function SplitWords(s: string): (r: seq<string>)
    ensures |r| >= 1
    decreases |s|
  {
    if ' ' !in s then [s]
    else
      var i := FirstSpace(s);
      [s[..i]] + SplitWords(s[i + 1..])
  }

  /** A text that is one word followed by a space has its first space right after the word. */
  lemma FirstSpaceAfterWord(w: string, rest: string)
    requires ' ' !in w
    ensures ' ' in w + " " + rest && FirstSpace(w + " " + rest) == |w|
  {
    var s := w + " " + rest;
    assert s[|w|] == ' ';
    assert s[..|w|] == w;
  }

  /** Splitting a word, a space and more text gives the word, then the pieces of the rest. */
  lemma SplitCons(w: string, rest: string)
    requires ' ' !in w
    ensures SplitWords(w + " " + rest) == [w] + SplitWords(rest)
  {
    FirstSpaceAfterWord(w, rest);
    var s := w + " " + rest;
    assert s[..|w|] == w;
    assert s[|w| + 1..] == rest;
  }

  /** Splitting on spaces undoes the join of a non-empty list of words none of which holds a space. */
  lemma {:induction false} SplitJoin(words: seq<string>)
    requires |words| >= 1 && forall k :: 0 <= k < |words| ==> ' ' !in words[k]
    ensures SplitWords(JoinWords(words)) == words
    decreases |words|
  {
    if |words| > 1 {
      SplitCons(words[0], JoinWords(words[1..]));
      SplitJoin(words[1..]);
      assert words == [words[0]] + words[1..];
    }
  }

  /** Joining one more word adds a space and the word (or is the word alone). */
  lemma {:induction false} JoinSnoc(words: seq<string>, w: string)
    ensures JoinWords(words + [w]) == if words == [] then w else JoinWords(words) + " " + w
    decreases |words|
  {
    if |words| >= 2 {
      assert (words + [w])[1..] == words[1..] + [w];
      JoinSnoc(words[1..], w);
    } else if |words| == 1 {
      assert (words + [w])[1..] == [w];
    }
  }

  /** `MadlibConstruction` as a link of the chain. */
  function MadlibConstruction(pick: nat -> nat): Transform<Setup, Value, Value>
  {
    (c: Setup, received: Option<Value>) => Construct(pick, c, received)
  }

  /** `CollectConstructedMadlibParts` as a link of the chain. */
  function CollectConstructedMadlibParts(): Transform<Setup, Value, Value>
  {
    (c: Setup, received: Option<Value>) => Collect(c, received)
  }

  /** `MadlibConstructor`: construction, then collection. */
  function MadlibConstructor(pick: nat -> nat): (ts: seq<Transform<Setup, Value, Value>>)
    ensures |ts| == 2
  {
    [MadlibConstruction(pick), CollectConstructedMadlibParts()]
  }

  /** The initializers `main` gives: index 0, no parts yet, an empty buffer. */
  function Initializers(possibleWords: map<SpeechPart, seq<string>>): (cs: seq<Setup>)
    ensures |cs| == 2
  {
    [Construction(possibleWords, 0, None), Collection([])]
  }

  /**
   * A madlib that completes in one `process`: it ends with `End`, has no
   * earlier `End`, and every speech part it asks for has candidate words.
   */
  predicate WellFormed(possibleWords: map<SpeechPart, seq<string>>, parts: seq<MadlibPart>)
  {
    && |parts| >= 1
    && parts[|parts| - 1] == MadlibPart.End
    && (forall i :: 0 <= i < |parts| - 1 ==> parts[i] != MadlibPart.End)
    && (forall i :: 0 <= i < |parts| ==>
          parts[i].Dynamic? ==> parts[i].speechPart in possibleWords && possibleWords[parts[i].speechPart] != [])
  }

  /** The word the part at position `i` becomes. */
  function WordAt(possibleWords: map<SpeechPart, seq<string>>, pick: nat -> nat, parts: seq<MadlibPart>, i: nat): (w: string)
    requires WellFormed(possibleWords, parts) && i < |parts| - 1
    ensures ConstructPart(possibleWords, parts[i], pick(i)) == Some(Word(w))
  {
    ConstructPart(possibleWords, parts[i], pick(i)).value.word
  }

  /** The words of the first `k` parts, in order. */
  function Collected(possibleWords: map<SpeechPart, seq<string>>, pick: nat -> nat, parts: seq<MadlibPart>, k: nat)
    : (ws: seq<string>)
    requires WellFormed(possibleWords, parts) && k <= |parts| - 1
    ensures |ws| == k
    ensures forall i :: 0 <= i < k ==> ws[i] == WordAt(possibleWords, pick, parts, i)
  {
    if k == 0 then [] else Collected(possibleWords, pick, parts, k - 1) + [WordAt(possibleWords, pick, parts, k - 1)]
  }

  /** The filled-in madlib: every word before `End`, joined with single spaces. */
  function Filled(possibleWords: map<SpeechPart, seq<string>>, pick: nat -> nat, parts: seq<MadlibPart>): string
    requires WellFormed(possibleWords, parts)
  {
    JoinWords(Collected(possibleWords, pick, parts, |parts| - 1))
  }

  /** The chain after `k` rounds: `k` parts handed out and their words buffered. */
  function After(possibleWords: map<SpeechPart, seq<string>>, pick: nat -> nat, parts: seq<MadlibPart>, k: nat)
    : seq<StageState<Setup, Value, Value>>
    requires WellFormed(possibleWords, parts) && k <= |parts| - 1
  {
    [StageState(Construction(possibleWords, k, Some(parts)), [], []),
     StageState(Collection(Collected(possibleWords, pick, parts, k)), [], [])]
  }

  /** The chain once `End` has been collected: every part handed out, the buffer cleared, the sentence waiting. */
  function Done(possibleWords: map<SpeechPart, seq<string>>, pick: nat -> nat, parts: seq<MadlibPart>)
    : seq<StageState<Setup, Value, Value>>
    requires WellFormed(possibleWords, parts)
  {
    [StageState(Construction(possibleWords, |parts|, Some(parts)), [], []),
     StageState(Collection([]), [], [Sentence(Filled(possibleWords, pick, parts))])]
  }

  /**
   * The construction link, holding the template at index `k` (or, when `k == 0`,
   * with the template still queued), emits the piece for part `k`.
   */
  lemma ConstructStep(possibleWords: map<SpeechPart, seq<string>>, pick: nat -> nat, parts: seq<MadlibPart>,
                      k: nat, s: StageState<Setup, Value, Value>)
    requires WellFormed(possibleWords, parts) && k <= |parts| - 1
    requires s == StageState(Construction(possibleWords, k, Some(parts)), [], [])
             || (k == 0 && s == StageState(Construction(possibleWords, 0, None), [Parts(parts)], []))
    ensures var piece := ConstructPart(possibleWords, parts[k], pick(k)).value;
            Step(MadlibConstruction(pick), s)
            == (StageState(Construction(possibleWords, k + 1, Some(parts)), [], [Piece(piece)]), true)
  {
    var t := MadlibConstruction(pick);
    var piece := ConstructPart(possibleWords, parts[k], pick(k)).value;
    var c0 := Construction(possibleWords, k + 1, Some(parts));
    if s.inbox == [] {
      assert t(s.config, None) == (c0, Some(Piece(piece)));
    } else {
      assert t(s.config, None) == (s.config, None);
      assert Popped(s.inbox) == (Some(Parts(parts)), []);
      assert t(s.config, Some(Parts(parts))) == (c0, Some(Piece(piece)));
    }
  }

  /** The collection link, holding the first `k` words, takes piece `k`: a word is buffered, `End` emits the sentence. */
  lemma CollectStep(possibleWords: map<SpeechPart, seq<string>>, pick: nat -> nat, parts: seq<MadlibPart>, k: nat)
    requires WellFormed(possibleWords, parts) && k <= |parts| - 1
    ensures var piece := ConstructPart(possibleWords, parts[k], pick(k)).value;
            var s := StageState(Collection(Collected(possibleWords, pick, parts, k)), [Piece(piece)], []);
            && (k < |parts| - 1 ==>
                  Step(CollectConstructedMadlibParts(), s)
                  == (StageState(Collection(Collected(possibleWords, pick, parts, k + 1)), [], []), false))
            && (k == |parts| - 1 ==>
                  Step(CollectConstructedMadlibParts(), s)
                  == (StageState(Collection([]), [], [Sentence(Filled(possibleWords, pick, parts))]), true))
  {
    var t := CollectConstructedMadlibParts();
    var piece := ConstructPart(possibleWords, parts[k], pick(k)).value;
    var buffer := Collected(possibleWords, pick, parts, k);
    assert t(Collection(buffer), None) == (Collection(buffer), None);
    assert Popped([Piece(piece)]) == (Some(Piece(piece)), []);
    if k < |parts| - 1 {
      assert piece == Word(WordAt(possibleWords, pick, parts, k));
      assert t(Collection(buffer), Some(Piece(piece))) == (Collection(Collected(possibleWords, pick, parts, k + 1)), None);
    } else {
      assert piece == ConstructedMadlibPart.End;
      assert t(Collection(buffer), Some(Piece(piece))) == (Collection([]), Some(Sentence(Filled(possibleWords, pick, parts))));
    }
  }

  /** The round that starts from `After(k)`, or from the freshly pushed chain when `k == 0`. */
  lemma RoundFrom(possibleWords: map<SpeechPart, seq<string>>, pick: nat -> nat, parts: seq<MadlibPart>,
                  k: nat, ss: seq<StageState<Setup, Value, Value>>)
    requires WellFormed(possibleWords, parts) && k <= |parts| - 1
    requires ss == After(possibleWords, pick, parts, k)
             || (k == 0 && ss == PushFirst(Fresh(Initializers(possibleWords)), Parts(parts)))
    ensures k < |parts| - 1 ==>
              Round(MadlibConstructor(pick), ss) == RoundResult(After(possibleWords, pick, parts, k + 1), true, false)
    ensures k == |parts| - 1 ==>
              Round(MadlibConstructor(pick), ss) == RoundResult(Done(possibleWords, pick, parts), true, true)
  {
    var ts := MadlibConstructor(pick);
    var piece := ConstructPart(possibleWords, parts[k], pick(k)).value;
    ConstructStep(possibleWords, pick, parts, k, ss[0]);
    assert Popped([Piece(piece)]) == (Some(Piece(piece)), []);
    RoundUnfold(ts, ss);
    assert ss[1] == StageState(Collection(Collected(possibleWords, pick, parts, k)), [], []);
    CollectStep(possibleWords, pick, parts, k);
  }

  /** From the freshly pushed chain, the loop runs to `Done` given one round per part. */
  lemma LoopFillsMadlib(possibleWords: map<SpeechPart, seq<string>>, pick: nat -> nat, parts: seq<MadlibPart>,
                        ss: seq<StageState<Setup, Value, Value>>, fuel: nat)
    requires WellFormed(possibleWords, parts) && fuel >= |parts|
    requires ss == PushFirst(Fresh(Initializers(possibleWords)), Parts(parts))
    ensures Loop(MadlibConstructor(pick), ss, fuel, true, false) == RoundResult(Done(possibleWords, pick, parts), true, true)
  {
    var ts := MadlibConstructor(pick);
    var n := |parts|;
    var path := (i: nat) =>
      if i == 0 then ss else if i < n then After(possibleWords, pick, parts, i) else Done(possibleWords, pick, parts);
    forall i | 0 <= i < n
      ensures Round(ts, path(i)) == RoundResult(path(i + 1), true, i + 1 == n)
    {
      RoundFrom(possibleWords, pick, parts, i, path(i));
    }
    assert forall i :: 0 <= i <= n ==> |path(i)| == 2;
    LoopAlong(ts, path, 0, n, fuel);
  }

  /**
   * `main`'s single `process` after pushing a well-formed madlib: it reports
   * `true`, and `try_pop` then yields the filled-in sentence. The Rust loop
   * needs one round per part, so `fuel` must allow that many.
   */
  lemma OneProcessFillsMadlib(possibleWords: map<SpeechPart, seq<string>>, pick: nat -> nat, parts: seq<MadlibPart>, fuel: nat)
    requires WellFormed(possibleWords, parts) && fuel >= |parts|
    ensures var (ss, processed) := ChainProcess(MadlibConstructor(pick), PushFirst(Fresh(Initializers(possibleWords)), Parts(parts)), fuel);
            processed && PopLast(ss).0 == Some(Sentence(Filled(possibleWords, pick, parts)))
  {
    var ss := PushFirst(Fresh(Initializers(possibleWords)), Parts(parts));
    LoopFillsMadlib(possibleWords, pick, parts, ss, fuel);
    var done := Done(possibleWords, pick, parts);
    assert Popped(done[1].outbox).0 == Some(Sentence(Filled(possibleWords, pick, parts)));
  }

  /**
   * `main`: build the chain, push the madlib, process once, pop. With a
   * well-formed madlib the `assert!` holds and the `expect` does not panic.
   */
  method Run(possibleWords: map<SpeechPart, seq<string>>, pick: nat -> nat, parts: seq<MadlibPart>, fuel: nat)
    returns (isProcessed: bool, output: Option<Value>)
    requires WellFormed(possibleWords, parts) && fuel >= |parts|
    ensures isProcessed && output == Some(Sentence(Filled(possibleWords, pick, parts)))
  {
    var madlibConstructor := new Chain<Setup, Value>(Initializers(possibleWords), MadlibConstructor(pick));
    madlibConstructor.Push(Parts(parts));
    isProcessed := madlibConstructor.Process(fuel);
    output := madlibConstructor.TryPop();
    OneProcessFillsMadlib(possibleWords, pick, parts, fuel);
  }

  /** The initializer of `MadlibConstruction`, whose fields the link updates in place. */
  class MadlibConstructionInitializer {
    const possibleWords: map<SpeechPart, seq<string>>
    var index: nat
    var madlibParts: Option<seq<MadlibPart>>

    function Config(): Setup
      reads this
    {
      Construction(possibleWords, index, madlibParts)
    }

    constructor (possibleWords: map<SpeechPart, seq<string>>, index: nat, madlibParts: Option<seq<MadlibPart>>)
      ensures Config() == Construction(possibleWords, index, madlibParts)
    {
      this.possibleWords := possibleWords;
      this.index := index;
      this.madlibParts := madlibParts;
    }

    /** One call of the link's body, as `Construct` specifies it. */
    method Apply(pick: nat -> nat, received: Option<Value>) returns (output: Option<Value>)
      modifies this
      ensures (Config(), output) == Construct(pick, old(Config()), received)
    {
      if received.Some? && received.value.Parts? {
        madlibParts := Some(received.value.parts);
      }
      if madlibParts.None? {
        return None;
      }
      var parts := madlibParts.value;
      if index >= |parts| {
        return None;
      }
      var part := ConstructPart(possibleWords, parts[index], pick(index));
      if part.None? {
        return None;
      }
      index := index + 1;
      output := Some(Piece(part.value));
    }
  }

  /** The initializer of `CollectConstructedMadlibParts`: its buffer is pushed to and cleared in place. */
  class CollectConstructedMadlibPartsInitializer {
    var buffer: seq<string>

    constructor ()
      ensures buffer == []
    {
      buffer := [];
    }

    /** One call of the link's body, as `Collect` specifies it. */
    method Apply(received: Option<Value>) returns (output: Option<Value>)
      modifies this
      ensures (Collection(buffer), output) == Collect(Collection(old(buffer)), received)
    {
      output := None;
      if received.Some? && received.value.Piece? {
        match received.value.piece
        case End =>
          output := Some(Sentence(JoinWords(buffer)));
          buffer := [];
        case Word(word) =>
          buffer := buffer + [word];
      }
    }
  }
}
