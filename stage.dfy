/**
 * One pipeline stage, as generated by `chain_link!` (src/macros.rs, and the older
 * variant in src/chain.rs): a configuration record, an input buffer, an output
 * buffer and a user transform. The transform is called with the configuration
 * and an optional received input and returns the (possibly updated)
 * configuration and an optional output.
 */
module Stages {
  import opened Wrappers
  import opened Queues

  /** The map block of a stage: (configuration, received input) to (configuration, output). */
  type Transform<!C, !I, O> = (C, Option<I>) -> (C, Option<O>)

  /** The observable state of a stage: its configuration and its two buffers. */
  datatype StageState<C, I, O> = StageState(config: C, inbox: seq<I>, outbox: seq<O>)

  /**
   * `process`, "continuation first": the transform is first called with no input;
   * if that yields an output it is pushed and the call reports `true`. Otherwise
   * one input is popped (the most recent one) and the transform is called with it;
   * an output is pushed and reported as `true`, no output drops the input and
   * reports `false`. An empty input buffer after a silent continuation reports
   * `false`. Configuration changes made by either call are kept.
   */
  function Step<C, I, O>(t: Transform<C, I, O>, s: StageState<C, I, O>): (r: (StageState<C, I, O>, bool))
    // the continuation is tried first: when it yields, no input is consumed
    ensures t(s.config, None).1.Some? ==>
              r.1 && r.0.inbox == s.inbox && r.0.outbox == s.outbox + [t(s.config, None).1.value]
    // nothing to continue and nothing queued: no output, both buffers unchanged
    ensures t(s.config, None).1.None? && s.inbox == [] ==>
              !r.1 && r.0.inbox == [] && r.0.outbox == s.outbox
    // at most one input consumed, and it is the most recently queued one
    ensures r.0.inbox == s.inbox || (s.inbox != [] && r.0.inbox + [s.inbox[|s.inbox| - 1]] == s.inbox)
    // at most one output appended, the earlier outputs kept; `true` exactly when one was appended
    ensures |s.outbox| <= |r.0.outbox| <= |s.outbox| + 1 && r.0.outbox[..|s.outbox|] == s.outbox
    ensures r.1 <==> |r.0.outbox| == |s.outbox| + 1
  {
    var (c1, continued) := t(s.config, None);
    if continued.Some? then
      (StageState(c1, s.inbox, Pushed(s.outbox, continued.value)), true)
    else
      var (received, rest) := Popped(s.inbox);
      if received.None? then
        (StageState(c1, s.inbox, s.outbox), false)
      else
        var (c2, produced) := t(c1, received);
        if produced.Some? then
          (StageState(c2, rest, Pushed(s.outbox, produced.value)), true)
        else
          (StageState(c2, rest, s.outbox), false)
  }

  /**
   * The main path of `process`: when the continuation call yields nothing and an
   * input is queued, the newest input is popped and passed to the transform on the
   * configuration the continuation call left; its output, if any, is pushed, the
   * call reports `true` exactly when there was one, and the configuration is the
   * one the second call returned.
   */
  lemma PoppedInput<C, I, O>(t: Transform<C, I, O>, s: StageState<C, I, O>)
    requires t(s.config, None).1.None? && s.inbox != []
    ensures var (c2, produced) := t(t(s.config, None).0, Some(s.inbox[|s.inbox| - 1]));
            var (s', processed) := Step(t, s);
            && s'.inbox == s.inbox[..|s.inbox| - 1]
            && s'.config == c2
            && s'.outbox == s.outbox + (if produced.Some? then [produced.value] else [])
            && (processed <==> produced.Some?)
  {
  }

  /**
   * A popped input that the transform maps to nothing is dropped: the call reports
   * `false`, the input buffer loses that item and the output buffer is unchanged.
   */
  lemma DroppedInput<C, I, O>(t: Transform<C, I, O>, s: StageState<C, I, O>)
    requires t(s.config, None).1.None? && s.inbox != []
    requires t(t(s.config, None).0, Some(s.inbox[|s.inbox| - 1])).1.None?
    ensures var (s', processed) := Step(t, s);
            !processed && s'.inbox == s.inbox[..|s.inbox| - 1] && s'.outbox == s.outbox
  {
  }

  /**
   * When no input is popped (the continuation yielded, or nothing is queued), the
   * configuration is the one the continuation call returned.
   */
  lemma ContinuationConfig<C, I, O>(t: Transform<C, I, O>, s: StageState<C, I, O>)
    requires t(s.config, None).1.Some? || s.inbox == []
    ensures Step(t, s).0.config == t(s.config, None).0
  {
  }

  /** The stage object: the configuration and both buffers are updated in place. */
  class Stage<C, I, O> {
    var config: C
    var inbox: seq<I>
    var outbox: seq<O>
    const transform: Transform<C, I, O>

    function State(): StageState<C, I, O>
      reads this
    {
      StageState(config, inbox, outbox)
    }

    /** `new`: the configuration from the initializer, both buffers empty. */
    constructor (initializer: C, transform: Transform<C, I, O>)
      ensures State() == StageState(initializer, [], [])
      ensures this.transform == transform
    {
      config := initializer;
      inbox := [];
      outbox := [];
      this.transform := transform;
    }

    /** `push`: the input goes to the input buffer; nothing else changes. */
    method Push(input: I)
      modifies this
      ensures State() == old(State()).(inbox := Pushed(old(inbox), input))
    {
      inbox := Pushed(inbox, input);
    }

    /** `push_if_empty` on the input buffer. */
    method PushIfEmpty(input: I)
      modifies this
      ensures State() == old(State()).(inbox := PushedIfEmpty(old(inbox), input))
    {
      inbox := PushedIfEmpty(inbox, input);
    }

    /** `try_pop` on the output buffer; nothing else changes. */
    method TryPop() returns (output: Option<O>)
      modifies this
      ensures (output, outbox) == Popped(old(outbox))
      ensures config == old(config) && inbox == old(inbox)
    {
      output, outbox := Popped(outbox).0, Popped(outbox).1;
    }

    /** `process`: the continuation-first rule of `Step`. */
    method Process() returns (processed: bool)
      modifies this
      ensures (State(), processed) == Step(transform, old(State()))
    {
      var (c1, continued) := transform(config, None);
      config := c1;
      if continued.Some? {
        outbox := Pushed(outbox, continued.value);
        return true;
      }
      var (received, rest) := Popped(inbox);
      if received.Some? {
        inbox := rest;
        var (c2, produced) := transform(config, received);
        config := c2;
        if produced.Some? {
          outbox := Pushed(outbox, produced.value);
          return true;
        }
      }
      return false;
    }
  }
}
