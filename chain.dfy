/**
 * The sequential pipeline: `chain!` in src/chain.rs and the `process_<first>`
 * loop that `chain!` generates in src/macros.rs for every pipeline member of a
 * group. A pipeline is a list of at least two stages; the Rust macros give each
 * link its own input and output types, which this model erases to one value type
 * `V` (an application uses a sum type).
 *
 * `process` repeats rounds. A round processes the first link and pops its output,
 * then for each later link pushes the carried value (if any), processes the link
 * and pops its output; the last link's result is not popped. The loop goes on
 * while some link before the last processed and the last did not, and returns
 * whether the last link processed. The Rust loop has no bound, so the model
 * takes a `fuel` bound on the number of rounds (see `MoreFuelChangesNothing`).
 */
module Chains {
  import opened Wrappers
  import opened Queues
  import opened Stages

  /** What a round (or the whole loop) leaves: the links' states and the two loop flags. */
  datatype RoundResult<C, V> = RoundResult(states: seq<StageState<C, V, V>>, anyProcessed: bool, lastProcessed: bool)

  /** `if let Some(next_input) = next_input { link.push(next_input) }` */
  function Feed<C, V>(s: StageState<C, V, V>, carry: Option<V>): StageState<C, V, V>
  {
    if carry.Some? then s.(inbox := Pushed(s.inbox, carry.value)) else s
  }

  /**
   * The rest of a round from link `i` on, given the value carried out of link
   * `i - 1` (none into the first link) and whether some earlier non-last link
   * processed.
   */
  function Sweep<C, V>(ts: seq<Transform<C, V, V>>, ss: seq<StageState<C, V, V>>, i: nat, carry: Option<V>, any: bool)
    : (r: RoundResult<C, V>)
    requires |ts| == |ss| && i < |ss|
    ensures |r.states| == |ss|
    ensures forall k :: 0 <= k < i ==> r.states[k] == ss[k]
    ensures any ==> r.anyProcessed
    decreases |ss| - i
  {
    var (s, processed) := Step(ts[i], Feed(ss[i], carry));
    if i == |ss| - 1 then
      RoundResult(ss[i := s], any, processed)
    else
      var (out, rest) := Popped(s.outbox);
      Sweep(ts, ss[i := s.(outbox := rest)], i + 1, out, any || processed)
  }

  /** One step of `Sweep` at a link before the last: process it and pop its output. */
  lemma SweepUnfold<C, V>(ts: seq<Transform<C, V, V>>, ss: seq<StageState<C, V, V>>, i: nat, carry: Option<V>, any: bool)
    requires |ts| == |ss| && i < |ss| - 1
    ensures var stepped := Step(ts[i], Feed(ss[i], carry));
            var popped := Popped(stepped.0.outbox);
            Sweep(ts, ss, i, carry, any) == Sweep(ts, ss[i := stepped.0.(outbox := popped.1)], i + 1, popped.0, any || stepped.1)
  {
  }

  /** One round of the propagation loop over all links. */
  function Round<C, V>(ts: seq<Transform<C, V, V>>, ss: seq<StageState<C, V, V>>): (r: RoundResult<C, V>)
    requires |ts| == |ss| >= 2
    ensures |r.states| == |ss|
  {
    Sweep(ts, ss, 0, None, false)
  }

  lemma RoundUnfold<C, V>(ts: seq<Transform<C, V, V>>, ss: seq<StageState<C, V, V>>)
    requires |ts| == |ss| >= 2
    ensures var stepped := Step(ts[0], Feed(ss[0], None));
            var popped := Popped(stepped.0.outbox);
            Round(ts, ss) == Sweep(ts, ss[0 := stepped.0.(outbox := popped.1)], 1, popped.0, stepped.1)
  {
  }

  /** The source's loop condition: `is_at_least_one_processed && !is_last_processed`. */
  predicate Continues<C, V>(r: RoundResult<C, V>)
  {
    r.anyProcessed && !r.lastProcessed
  }

  /** A round as a step from one set of states and flags to the next, for `Iterate` and `Rounds`. */
  function NextRound<C, V>(ts: seq<Transform<C, V, V>>): RoundResult<C, V> -> RoundResult<C, V>
  {
    (r: RoundResult<C, V>) => if |r.states| == |ts| >= 2 then Round(ts, r.states) else r
  }

  /** The states and flags after `i` rounds by `next` from `from`, whatever the loop condition says. */
  function Iterate<C, V>(next: RoundResult<C, V> -> RoundResult<C, V>, from: RoundResult<C, V>, i: nat): RoundResult<C, V>
    decreases i
  {
    if i == 0 then from else Iterate(next, next(from), i - 1)
  }

  /**
   * How many rounds by `next` the `while` loop runs from `from` when it may
   * run at most `fuel` of them.
   */
  function Rounds<C, V>(next: RoundResult<C, V> -> RoundResult<C, V>, from: RoundResult<C, V>, fuel: nat): (n: nat)
    ensures n <= fuel
    decreases fuel
  {
    if !Continues(from) || fuel == 0 then 0
    else 1 + Rounds(next, next(from), fuel - 1)
  }

  /**
   * The `while` loop, started from the given flags, allowed `fuel` more rounds.
   * A loop whose condition is false at the start, or that has no fuel left,
   * leaves everything as it is. `LoopIsIterate`, `LoopContinuesBefore` and
   * `LoopStopsAtFirst` say where it stops.
   */
  function Loop<C, V>(ts: seq<Transform<C, V, V>>, ss: seq<StageState<C, V, V>>, fuel: nat, any: bool, last: bool)
    : (r: RoundResult<C, V>)
    requires |ts| == |ss| >= 2
    ensures |r.states| == |ss|
    ensures (any && !last && fuel > 0) || r == RoundResult(ss, any, last)
    decreases fuel
  {
    if !(any && !last) || fuel == 0 then RoundResult(ss, any, last)
    else
      var r := Round(ts, ss);
      Loop(ts, r.states, fuel - 1, r.anyProcessed, r.lastProcessed)
  }

  /** The loop ends where its rounds, counted by `Rounds`, lead from the start. */
  lemma {:induction false} LoopIsIterate<C, V>(ts: seq<Transform<C, V, V>>, ss: seq<StageState<C, V, V>>, fuel: nat,
                                               any: bool, last: bool)
    requires |ts| == |ss| >= 2
    ensures var from := RoundResult(ss, any, last);
            Loop(ts, ss, fuel, any, last) == Iterate(NextRound(ts), from, Rounds(NextRound(ts), from, fuel))
    decreases fuel
  {
    var from := RoundResult(ss, any, last);
    if any && !last && fuel > 0 {
      var r := Round(ts, ss);
      assert NextRound(ts)(from) == r;
      LoopIsIterate(ts, r.states, fuel - 1, r.anyProcessed, r.lastProcessed);
      LoopAfterRound(ts, ss, fuel, any, last, r);
      assert RoundResult(r.states, r.anyProcessed, r.lastProcessed) == r;
    }
  }

  /** Every round the loop runs starts from states and flags that let it go on. */
  lemma {:induction false} LoopContinuesBefore<C, V>(next: RoundResult<C, V> -> RoundResult<C, V>, from: RoundResult<C, V>,
                                                     fuel: nat, i: nat)
    requires i < Rounds(next, from, fuel)
    ensures Continues(Iterate(next, from, i))
    decreases fuel
  {
    if i > 0 {
      LoopContinuesBefore(next, next(from), fuel - 1, i - 1);
    }
  }

  /**
   * A loop that ends before its fuel is used up ends at the first states and
   * flags that do not let it go on.
   */
  lemma {:induction false} LoopStopsAtFirst<C, V>(next: RoundResult<C, V> -> RoundResult<C, V>, from: RoundResult<C, V>,
                                                  fuel: nat)
    requires Rounds(next, from, fuel) < fuel
    ensures !Continues(Iterate(next, from, Rounds(next, from, fuel)))
    decreases fuel
  {
    if Continues(from) {
      LoopStopsAtFirst(next, next(from), fuel - 1);
    }
  }

  /** A loop that may go on runs one round and continues from that round's states and flags. */
  lemma LoopAfterRound<C, V>(ts: seq<Transform<C, V, V>>, ss: seq<StageState<C, V, V>>, fuel: nat, any: bool, last: bool,
                             next: RoundResult<C, V>)
    requires |ts| == |ss| >= 2 && any && !last && fuel > 0 && Round(ts, ss) == next
    ensures Loop(ts, ss, fuel, any, last) == Loop(ts, next.states, fuel - 1, next.anyProcessed, next.lastProcessed)
  {
  }

  /**
   * A loop whose rounds follow `path`, each round processing something and the
   * round into `path(n)` being the first to process at the last link, stops
   * at `path(n)` when the fuel allows one round per step.
   */
  lemma {:induction false} LoopAlong<C, V>(ts: seq<Transform<C, V, V>>, path: nat -> seq<StageState<C, V, V>>,
                                           k: nat, n: nat, fuel: nat)
    requires |ts| >= 2 && k < n && fuel >= n - k
    requires forall i :: k <= i <= n ==> |path(i)| == |ts|
    requires forall i :: k <= i < n ==> Round(ts, path(i)) == RoundResult(path(i + 1), true, i + 1 == n)
    ensures Loop(ts, path(k), fuel, true, false) == RoundResult(path(n), true, true)
    decreases n - k
  {
    var next := path(k + 1);
    if k + 1 < n {
      LoopAfterRound(ts, path(k), fuel, true, false, RoundResult(next, true, false));
      LoopAlong(ts, path, k + 1, n, fuel - 1);
    } else {
      LoopAfterRound(ts, path(k), fuel, true, false, RoundResult(next, true, true));
    }
  }

  /**
   * `process` of a group member: a single link (a solo member) is processed once;
   * a pipeline runs the loop from `is_at_least_one_processed = true` and
   * `is_last_processed = false` and reports `is_last_processed`.
   */
  function ChainProcess<C, V>(ts: seq<Transform<C, V, V>>, ss: seq<StageState<C, V, V>>, fuel: nat)
    : (r: (seq<StageState<C, V, V>>, bool))
    requires |ts| == |ss| >= 1
    ensures |r.0| == |ss|
    ensures |ss| == 1 ==> r == ([Step(ts[0], ss[0]).0], Step(ts[0], ss[0]).1)
  {
    if |ss| == 1 then
      var (s, processed) := Step(ts[0], ss[0]);
      ([s], processed)
    else
      var r := Loop(ts, ss, fuel, true, false);
      (r.states, r.lastProcessed)
  }

  /**
   * A pipeline's `process` runs at least one round when it has fuel, goes on
   * while some link processed and the last did not, and reports whether the
   * last link processed in the final round. Unless the fuel ran out, that
   * round had the last link processing or no link processing at all.
   */
  lemma ChainProcessStops<C, V>(ts: seq<Transform<C, V, V>>, ss: seq<StageState<C, V, V>>, fuel: nat)
    requires |ts| == |ss| >= 2
    ensures var start := RoundResult(ss, true, false);
            var n := Rounds(NextRound(ts), start, fuel);
            var final := Iterate(NextRound(ts), start, n);
            && (fuel > 0 ==> n >= 1)
            && ChainProcess(ts, ss, fuel) == (final.states, final.lastProcessed)
            && (forall i :: 0 <= i < n ==> Continues(Iterate(NextRound(ts), start, i)))
            && (n < fuel ==> final.lastProcessed || !final.anyProcessed)
  {
    var start := RoundResult(ss, true, false);
    LoopIsIterate(ts, ss, fuel, true, false);
    forall i | 0 <= i < Rounds(NextRound(ts), start, fuel)
      ensures Continues(Iterate(NextRound(ts), start, i))
    {
      LoopContinuesBefore(NextRound(ts), start, fuel, i);
    }
    if Rounds(NextRound(ts), start, fuel) < fuel {
      LoopStopsAtFirst(NextRound(ts), start, fuel);
    }
  }

  /**
   * The fuel only bounds the model: once the loop has stopped by its own
   * condition, allowing more rounds changes nothing.
   */
  lemma {:induction false} MoreFuelChangesNothing<C, V>(
    ts: seq<Transform<C, V, V>>, ss: seq<StageState<C, V, V>>, fuel: nat, more: nat, any: bool, last: bool)
    requires |ts| == |ss| >= 2 && fuel <= more
    requires !Continues(Loop(ts, ss, fuel, any, last))
    ensures Loop(ts, ss, more, any, last) == Loop(ts, ss, fuel, any, last)
    decreases fuel
  {
    if !(any && !last) {
    } else if fuel == 0 {
      assert false;
    } else {
      var r := Round(ts, ss);
      LoopAfterRound(ts, ss, fuel, any, last, r);
      LoopAfterRound(ts, ss, more, any, last, r);
      MoreFuelChangesNothing(ts, r.states, fuel - 1, more - 1, r.anyProcessed, r.lastProcessed);
    }
  }

  /** A link is quiet on a configuration when the continuation call yields nothing and changes nothing. */
  ghost predicate Quiet<C, V>(t: Transform<C, V, V>, c: C)
  {
    t(c, None) == (c, None)
  }

  /** No link has anything queued and every continuation is quiet. */
  ghost predicate Idle<C, V>(ts: seq<Transform<C, V, V>>, ss: seq<StageState<C, V, V>>)
    requires |ts| == |ss|
  {
    forall k :: 0 <= k < |ss| ==> ss[k].inbox == [] && ss[k].outbox == [] && Quiet(ts[k], ss[k].config)
  }

  lemma {:induction false} IdleSweep<C, V>(ts: seq<Transform<C, V, V>>, ss: seq<StageState<C, V, V>>, i: nat, any: bool)
    requires |ts| == |ss| && 1 <= i < |ss| && Idle(ts, ss)
    ensures Sweep(ts, ss, i, None, any) == RoundResult(ss, any, false)
    decreases |ss| - i
  {
    var (s, processed) := Step(ts[i], Feed(ss[i], None));
    assert s == ss[i] && !processed;
    assert ss[i := s] == ss;
    if i < |ss| - 1 {
      IdleSweep(ts, ss, i + 1, any);
    }
  }

  /** A round over an idle pipeline changes nothing and processes nothing. */
  lemma IdleRound<C, V>(ts: seq<Transform<C, V, V>>, ss: seq<StageState<C, V, V>>)
    requires |ts| == |ss| >= 2 && Idle(ts, ss)
    ensures Round(ts, ss) == RoundResult(ss, false, false)
  {
    var (s, processed) := Step(ts[0], ss[0]);
    assert s == ss[0] && !processed;
    assert Popped(s.outbox) == (None, []);
    assert ss[0 := s.(outbox := [])] == ss;
    IdleSweep(ts, ss, 1, false);
  }

  /**
   * Processing an idle pipeline reports `false` and changes nothing: with no
   * queued input and no continuation output there is no work to do.
   */
  lemma IdleChainStaysIdle<C, V>(ts: seq<Transform<C, V, V>>, ss: seq<StageState<C, V, V>>, fuel: nat)
    requires |ts| == |ss| >= 1 && Idle(ts, ss)
    ensures ChainProcess(ts, ss, fuel) == (ss, false)
  {
    if |ss| == 1 {
      var (s, processed) := Step(ts[0], ss[0]);
      assert s == ss[0] && !processed;
      assert [s] == ss;
    } else if fuel > 0 {
      IdleRound(ts, ss);
      assert Loop(ts, ss, fuel, true, false) == Loop(ts, ss, fuel - 1, false, false);
    }
  }

  /** A stateless link: it keeps its configuration, yields nothing without input and applies `f` to an input. */
  function MapLink<C, V>(f: V -> Option<V>): Transform<C, V, V>
  {
    (c: C, received: Option<V>) => (c, if received.Some? then f(received.value) else None)
  }

  /** Feeding a value through the maps in order; `None` as soon as one map yields nothing. */
  function Compose<V>(fs: seq<V -> Option<V>>, x: Option<V>): Option<V>
    decreases |fs|
  {
    if fs == [] || x.None? then x else Compose(fs[1..], fs[0](x.value))
  }

  /** Running two lists of maps one after the other is running their concatenation. */
  lemma {:induction false} ComposeConcat<V>(fs: seq<V -> Option<V>>, gs: seq<V -> Option<V>>, x: Option<V>)
    ensures Compose(fs + gs, x) == Compose(gs, Compose(fs, x))
    decreases |fs|
  {
    if fs == [] {
      assert fs + gs == gs;
    } else if x.Some? {
      assert (fs + gs)[0] == fs[0] && (fs + gs)[1..] == fs[1..] + gs;
      ComposeConcat(fs[1..], gs, fs[0](x.value));
    }
  }

  lemma ComposeOne<V>(f: V -> Option<V>, x: Option<V>)
    ensures Compose([f], x) == if x.Some? then f(x.value) else None
  {
    if x.Some? {
      assert [f][1..] == [];
    }
  }

  ghost predicate MapLinks<C, V>(fs: seq<V -> Option<V>>, ts: seq<Transform<C, V, V>>)
  {
    |fs| == |ts| && forall k :: 0 <= k < |ts| ==> ts[k] == MapLink(fs[k])
  }

  lemma {:induction false} SweepOfMaps<C, V>(
    fs: seq<V -> Option<V>>, ts: seq<Transform<C, V, V>>, ss: seq<StageState<C, V, V>>, i: nat, carry: Option<V>, any: bool)
    requires MapLinks(fs, ts) && |ts| == |ss| && 1 <= i < |ss|
    requires forall k :: i <= k < |ss| ==> ss[k].inbox == [] && ss[k].outbox == []
    ensures var r := Sweep(ts, ss, i, carry, any);
            var y := Compose(fs[i..], carry);
            && r.states == ss[|ss| - 1 := ss[|ss| - 1].(outbox := if y.Some? then [y.value] else [])]
            && r.anyProcessed == (any || (i < |ss| - 1 && Compose([fs[i]], carry).Some?))
            && r.lastProcessed == y.Some?
    decreases |ss| - i
  {
    var n := |ss|;
    var fed := Feed(ss[i], carry);
    var (s, processed) := Step(ts[i], fed);
    var next := Compose([fs[i]], carry);
    assert ts[i] == MapLink(fs[i]);
    assert ts[i](ss[i].config, None) == (ss[i].config, None);
    ComposeOne(fs[i], carry);
    if carry.Some? {
      assert fed.inbox == [carry.value];
      assert Popped(fed.inbox) == (carry, []);
      assert ts[i](ss[i].config, carry) == (ss[i].config, next);
      assert fs[i..][0] == fs[i] && fs[i..][1..] == fs[i + 1..];
      assert Compose(fs[i..], carry) == Compose(fs[i + 1..], next);
    } else {
      assert fed == ss[i] && next == None;
      assert Compose(fs[i..], carry) == None == Compose(fs[i + 1..], next);
    }
    assert s.config == ss[i].config && s.inbox == [];
    assert processed == next.Some?;
    assert s.outbox == if next.Some? then [next.value] else [];
    if i == n - 1 {
      assert fs[i + 1..] == [];
    } else {
      var (out, rest) := Popped(s.outbox);
      assert out == next && rest == [];
      assert ss[i := s.(outbox := rest)] == ss;
      SweepOfMaps(fs, ts, ss, i + 1, out, any || processed);
      if i + 1 < n - 1 && Compose([fs[i + 1]], out).Some? {
        assert out.Some?;
      }
    }
  }

  /** Map links keep nothing between calls: they are quiet on every configuration. */
  lemma MapLinksAreQuiet<C, V>(fs: seq<V -> Option<V>>, ts: seq<Transform<C, V, V>>, ss: seq<StageState<C, V, V>>)
    requires MapLinks(fs, ts) && |ts| == |ss|
    requires forall k :: 0 <= k < |ss| ==> ss[k].inbox == [] && ss[k].outbox == []
    ensures Idle(ts, ss)
  {
    forall k | 0 <= k < |ss|
      ensures Quiet(ts[k], ss[k].config)
    {
      assert ts[k] == MapLink(fs[k]);
    }
  }

  /** The first round over map links with one input at the front carries it to the last link. */
  lemma FirstRoundOfMaps<C, V>(fs: seq<V -> Option<V>>, ts: seq<Transform<C, V, V>>, ss: seq<StageState<C, V, V>>, x: V)
    requires MapLinks(fs, ts) && |ts| == |ss| >= 2
    requires ss[0].inbox == [x] && ss[0].outbox == []
    requires forall k :: 1 <= k < |ss| ==> ss[k].inbox == [] && ss[k].outbox == []
    ensures var y := Compose(fs, Some(x));
            Round(ts, ss) ==
              RoundResult(ss[0 := ss[0].(inbox := [])][|ss| - 1 := ss[|ss| - 1].(outbox := if y.Some? then [y.value] else [])],
                          fs[0](x).Some?, y.Some?)
  {
    var (s, processed) := Step(ts[0], ss[0]);
    var first := fs[0](x);
    assert ts[0] == MapLink(fs[0]);
    assert s == ss[0].(inbox := [], outbox := if first.Some? then [first.value] else []);
    var (out, rest) := Popped(s.outbox);
    assert out == first && rest == [];
    var ss1 := ss[0 := ss[0].(inbox := [])];
    assert ss[0 := s.(outbox := rest)] == ss1;
    SweepOfMaps(fs, ts, ss1, 1, out, processed);
    ComposeOne(fs[1], out);
  }

  /**
   * A pipeline of stateless links with one input queued at the front: one
   * `process` call (two rounds of fuel suffice) reports `true` exactly when every
   * link yields a value, and then the last link holds exactly the composition
   * of the maps applied to the input; every other buffer ends empty.
   */
  lemma ChainOfMaps<C, V>(fs: seq<V -> Option<V>>, ts: seq<Transform<C, V, V>>, ss: seq<StageState<C, V, V>>, x: V, fuel: nat)
    requires MapLinks(fs, ts) && |ts| == |ss| >= 2 && fuel >= 2
    requires ss[0].inbox == [x] && ss[0].outbox == []
    requires forall k :: 1 <= k < |ss| ==> ss[k].inbox == [] && ss[k].outbox == []
    ensures var y := Compose(fs, Some(x));
            ChainProcess(ts, ss, fuel) ==
              (ss[0 := ss[0].(inbox := [])][|ss| - 1 := ss[|ss| - 1].(outbox := if y.Some? then [y.value] else [])],
               y.Some?)
  {
    var y := Compose(fs, Some(x));
    FirstRoundOfMaps(fs, ts, ss, x);
    var r1 := Round(ts, ss);
    assert Loop(ts, ss, fuel, true, false) == Loop(ts, r1.states, fuel - 1, r1.anyProcessed, r1.lastProcessed);
    if !y.Some? && r1.anyProcessed {
      // a second round finds every buffer empty and stops the loop
      MapLinksAreQuiet(fs, ts, r1.states);
      IdleRound(ts, r1.states);
      assert Loop(ts, r1.states, fuel - 1, true, false) == Loop(ts, r1.states, fuel - 2, false, false);
    }
  }

  /**
   * A freshly built chain of stateless links, given one input: one `process`
   * call reports `true` exactly when the composed maps yield an output, and the
   * next `try_pop` hands back that output.
   */
  lemma OneInputThroughMaps<C, V>(fs: seq<V -> Option<V>>, ts: seq<Transform<C, V, V>>, configs: seq<C>, x: V, fuel: nat)
    requires MapLinks(fs, ts) && |configs| == |ts| >= 1 && fuel >= 2
    ensures var (states, processed) := ChainProcess(ts, PushFirst(Fresh(configs), x), fuel);
            var y := Compose(fs, Some(x));
            processed == y.Some? && PopLast(states).0 == y
  {
    var ss := PushFirst(Fresh(configs), x);
    var y := Compose(fs, Some(x));
    assert ss[0].inbox == [x];
    if |ts| == 1 {
      assert ts[0] == MapLink(fs[0]);
      ComposeOne(fs[0], Some(x));
      assert fs == [fs[0]];
      var (s, processed) := Step(ts[0], ss[0]);
      assert s.outbox == if y.Some? then [y.value] else [];
    } else {
      ChainOfMaps(fs, ts, ss, x, fuel);
    }
  }

  /** A chain's `push`: the input goes into the first link's input buffer and nowhere else. */
  function PushFirst<C, V>(ss: seq<StageState<C, V, V>>, input: V): (r: seq<StageState<C, V, V>>)
    requires |ss| >= 1
    ensures |r| == |ss| && r[0].inbox == Pushed(ss[0].inbox, input)
    ensures r[0].config == ss[0].config && r[0].outbox == ss[0].outbox
    ensures forall k :: 1 <= k < |ss| ==> r[k] == ss[k]
  {
    ss[0 := ss[0].(inbox := Pushed(ss[0].inbox, input))]
  }

  /** A chain's `push_if_empty`: only the first link's input buffer is considered. */
  function PushFirstIfEmpty<C, V>(ss: seq<StageState<C, V, V>>, input: V): (r: seq<StageState<C, V, V>>)
    requires |ss| >= 1
    ensures |r| == |ss| && r[0].inbox == PushedIfEmpty(ss[0].inbox, input)
    ensures r[0].config == ss[0].config && r[0].outbox == ss[0].outbox
    ensures forall k :: 1 <= k < |ss| ==> r[k] == ss[k]
  {
    ss[0 := ss[0].(inbox := PushedIfEmpty(ss[0].inbox, input))]
  }

  /** A chain's `try_pop`: the last link's output buffer is popped and nothing else changes. */
  function PopLast<C, V>(ss: seq<StageState<C, V, V>>): (r: (Option<V>, seq<StageState<C, V, V>>))
    requires |ss| >= 1
    ensures |r.1| == |ss| && forall k :: 0 <= k < |ss| - 1 ==> r.1[k] == ss[k]
    ensures (r.0, r.1[|ss| - 1].outbox) == Popped(ss[|ss| - 1].outbox)
    ensures r.1[|ss| - 1].config == ss[|ss| - 1].config && r.1[|ss| - 1].inbox == ss[|ss| - 1].inbox
    ensures r.0.None? ==> r.1 == ss
  {
    var last := |ss| - 1;
    var (output, rest) := Popped(ss[last].outbox);
    (output, ss[last := ss[last].(outbox := rest)])
  }

  /** The states of freshly built links: each initial configuration, both buffers empty. */
  function Fresh<C, V>(configs: seq<C>): (ss: seq<StageState<C, V, V>>)
    ensures |ss| == |configs|
    ensures forall k :: 0 <= k < |ss| ==> ss[k] == StageState(configs[k], [], [])
  {
    seq(|configs|, k requires 0 <= k < |configs| => StageState(configs[k], [], []))
  }

  /**
   * The pipeline object. A one-link chain stands for a solo member of a group
   * (a plain stage); the `chain!` macros themselves always have two or more links.
   */
  class Chain<C, V> {
    const links: seq<Stage<C, V, V>>
    ghost const Repr: set<Stage<C, V, V>>

    ghost predicate Valid()
    {
      && |links| >= 1
      && (forall i, j :: 0 <= i < j < |links| ==> links[i] != links[j])
      && (forall k :: 0 <= k < |links| ==> links[k] in Repr)
    }

    ghost function Transforms(): (ts: seq<Transform<C, V, V>>)
      ensures |ts| == |links|
      ensures forall k :: 0 <= k < |links| ==> ts[k] == links[k].transform
    {
      seq(|links|, k requires 0 <= k < |links| => links[k].transform)
    }

    ghost function States(): (ss: seq<StageState<C, V, V>>)
      requires Valid()
      reads Repr
      ensures |ss| == |links|
      ensures forall k :: 0 <= k < |links| ==> ss[k] == links[k].State()
    {
      seq(|links|, k requires 0 <= k < |links| reads Repr => links[k].State())
    }

    /** `new`: one fresh link per transform, each built from its own initializer. */
    constructor (configs: seq<C>, transforms: seq<Transform<C, V, V>>)
      requires |configs| == |transforms| >= 1
      ensures Valid() && fresh(Repr)
      ensures Transforms() == transforms && States() == Fresh(configs)
    {
      var built: seq<Stage<C, V, V>> := [];
      while |built| < |configs|
        invariant |built| <= |configs|
        invariant forall i, j :: 0 <= i < j < |built| ==> built[i] != built[j]
        invariant forall k :: 0 <= k < |built| ==> fresh(built[k])
        invariant forall k :: 0 <= k < |built| ==> built[k].transform == transforms[k]
        invariant forall k :: 0 <= k < |built| ==> built[k].State() == StageState(configs[k], [], [])
      {
        var link := new Stage(configs[|built|], transforms[|built|]);
        built := built + [link];
      }
      links := built;
      Repr := set k | 0 <= k < |built| :: built[k];
    }

    /** Pushes the carried value (if any) into link `i` and processes that link. */
    method FeedAndProcess(i: nat, carry: Option<V>) returns (processed: bool)
      requires Valid() && i < |links|
      modifies links[i]
      ensures var (s, p) := Step(links[i].transform, Feed(old(States())[i], carry));
              processed == p && States() == old(States())[i := s]
    {
      ghost var before := States();
      if carry.Some? {
        links[i].Push(carry.value);
      }
      processed := links[i].Process();
      assert forall k :: 0 <= k < |links| && k != i ==> links[k].State() == before[k];
    }

    /** Pops the output of link `i`. */
    method PopLink(i: nat) returns (output: Option<V>)
      requires Valid() && i < |links|
      modifies links[i]
      ensures var (popped, rest) := Popped(old(States())[i].outbox);
              output == popped && States() == old(States())[i := old(States())[i].(outbox := rest)]
    {
      ghost var before := States();
      output := links[i].TryPop();
      assert forall k :: 0 <= k < |links| && k != i ==> links[k].State() == before[k];
    }

    /** `push` goes to the first link only. */
    method Push(input: V)
      requires Valid()
      modifies Repr
      ensures States() == PushFirst(old(States()), input)
    {
      ghost var before := States();
      links[0].Push(input);
      assert forall k :: 0 <= k < |links| && k != 0 ==> links[k].State() == before[k];
    }

    /** `push_if_empty` goes to the first link only. */
    method PushIfEmpty(input: V)
      requires Valid()
      modifies Repr
      ensures States() == PushFirstIfEmpty(old(States()), input)
    {
      ghost var before := States();
      links[0].PushIfEmpty(input);
      assert forall k :: 0 <= k < |links| && k != 0 ==> links[k].State() == before[k];
    }

    /** `try_pop` reads the last link only. */
    method TryPop() returns (output: Option<V>)
      requires Valid()
      modifies Repr
      ensures (output, States()) == PopLast(old(States()))
    {
      output := PopLink(|links| - 1);
    }

    /** A link before the last in a round: feed it the carried value, process it and pop its output. */
    method AdvanceLink(i: nat, carry: Option<V>, any: bool) returns (next: Option<V>, nextAny: bool)
      requires Valid() && i < |links| - 1
      modifies Repr
      ensures Sweep(Transforms(), old(States()), i, carry, any) == Sweep(Transforms(), States(), i + 1, next, nextAny)
    {
      ghost var before := States();
      ghost var stepped := Step(links[i].transform, Feed(before[i], carry));
      SweepUnfold(Transforms(), before, i, carry, any);
      var processed := FeedAndProcess(i, carry);
      assert processed == stepped.1 && States() == before[i := stepped.0];
      nextAny := any || processed;
      next := PopLink(i);
      assert next == Popped(stepped.0.outbox).0;
      assert States() == before[i := stepped.0.(outbox := Popped(stepped.0.outbox).1)];
    }

    /** One round of the loop body. */
    method PropagateOnce() returns (any: bool, last: bool)
      requires Valid() && |links| >= 2
      modifies Repr
      ensures RoundResult(States(), any, last) == Round(Transforms(), old(States()))
    {
      var n := |links|;
      ghost var ts := Transforms();
      ghost var start := States();
      var carry: Option<V> := None;
      any := false;
      var i := 0;
      while i < n - 1
        invariant i <= n - 1
        invariant Round(ts, start) == Sweep(ts, States(), i, carry, any)
      {
        carry, any := AdvanceLink(i, carry, any);
        i := i + 1;
      }
      last := FeedAndProcess(n - 1, carry);
    }

    /** `process`: the propagation loop (or the single link's `process` for a solo member). */
    method Process(fuel: nat) returns (processed: bool)
      requires Valid()
      modifies Repr
      ensures (States(), processed) == ChainProcess(Transforms(), old(States()), fuel)
    {
      if |links| == 1 {
        processed := FeedAndProcess(0, None);
        assert States() == [States()[0]];
        return;
      }
      ghost var ts := Transforms();
      ghost var start := States();
      var progress := true;
      processed := false;
      var remaining := fuel;
      while progress && !processed && remaining > 0
        invariant Loop(ts, start, fuel, true, false) == Loop(ts, States(), remaining, progress, processed)
        decreases remaining
      {
        progress, processed := PropagateOnce();
        remaining := remaining - 1;
      }
    }
  }
}
