/**
 * The stage buffer of src/queue.rs: a `Vec` under a lock with `push`,
 * `push_if_empty` and `try_pop`. `try_pop` calls `Vec::pop`, so it removes the
 * LAST item: the buffer is last-in-first-out although the type is called a queue.
 */
module Queues {
  import opened Wrappers

  /** `push`: the item goes to the end and every earlier item stays where it was. */
  function Pushed<T>(items: seq<T>, item: T): (r: seq<T>)
    ensures |r| == |items| + 1
    ensures r[..|items|] == items && r[|items|] == item
  {
    items + [item]
  }

  /** `push_if_empty`: an empty buffer receives the item; otherwise the item is discarded. */
  function PushedIfEmpty<T>(items: seq<T>, item: T): (r: seq<T>)
    ensures items == [] ==> r == [item]
    ensures items != [] ==> r == items
  {
    if items == [] then [item] else items
  }

  /**
   * `try_pop`: the popped item (if any) and the remaining items. An empty buffer
   * yields `None` and stays empty; otherwise the item pushed most recently among
   * those remaining comes out, and putting it back at the end restores the buffer.
   */
  function Popped<T>(items: seq<T>): (r: (Option<T>, seq<T>))
    ensures r.0.None? <==> items == []
    ensures r.0.None? ==> r.1 == items
    ensures r.0.Some? ==> r.1 + [r.0.value] == items
  {
    if items == [] then (None, items) else (Some(items[|items| - 1]), items[..|items| - 1])
  }

  /** A push followed by a pop hands back the pushed item and the previous contents. */
  lemma PushThenPop<T>(items: seq<T>, item: T)
    ensures Popped(Pushed(items, item)) == (Some(item), items)
  {
    assert Pushed(items, item)[..|items|] == items;
  }

  /** Last in, first out: of two pushes, the second pushed item is popped first. */
  lemma PopOrderIsReversed<T>(items: seq<T>, a: T, b: T)
    ensures var (first, rest) := Popped(Pushed(Pushed(items, a), b));
            var (second, rest') := Popped(rest);
            first == Some(b) && second == Some(a) && rest' == items
  {
    PushThenPop(Pushed(items, a), b);
    PushThenPop(items, a);
  }

  /**
   * The `push_if_empty` scenario: after `push(a)`, `push_if_empty(b)` discards `b`;
   * after `push(a)` and a pop, `push_if_empty(b)` leaves exactly `[b]`.
   */
  lemma PushIfEmptyScenario<T>(a: T, b: T)
    ensures PushedIfEmpty(Pushed([], a), b) == [a]
    ensures PushedIfEmpty(Popped(Pushed([], a)).1, b) == [b]
  {
    PushThenPop([], a);
  }

  /** The `Queue<T>` object: its `Vec` is the field `items`, updated in place. */
  class Queue<T> {
    var items: seq<T>

    /** `Queue::default`: an empty buffer. */
    constructor ()
      ensures items == []
    {
      items := [];
    }

    method Push(item: T)
      modifies this
      ensures items == Pushed(old(items), item)
    {
      items := items + [item];
    }

    method PushIfEmpty(item: T)
      modifies this
      ensures items == PushedIfEmpty(old(items), item)
    {
      if items == [] {
        items := items + [item];
      }
    }

    method TryPop() returns (popped: Option<T>)
      modifies this
      ensures (popped, items) == Popped(old(items))
    {
      if items == [] {
        popped := None;
      } else {
        popped := Some(items[|items| - 1]);
        items := items[..|items| - 1];
      }
    }
  }
}
