/**
 * Fan-out groups: the group form of `chain!` in src/macros.rs (members are solo
 * links or pipelines), `split_merge!` in src/chain.rs (members are links, always
 * joined) and `duplicate!` in src/macros.rs (`count` identical members).
 *
 * `push` hands the same input to every member; `try_pop` visits the members
 * round-robin from a cursor, at most `count` times, and returns the first output
 * found; `process` follows the group's mode (join, free or unique) and choice
 * (all members or the one under a second cursor). A spawned thread is modelled
 * as a pending job that `CompleteJob` later runs to the end in one step.
 */
module Groups {
  import opened Wrappers
  import opened Queues
  import opened Stages
  import opened Chains

  /** `join` waits for the members, `free` spawns them, `unique` spawns only members not already running. */
  datatype Mode = Join | Free | Unique

  /** `all` processes every member, `one` the member under the process cursor. */
  datatype Choice = All | One

  /** The cursor update shared by every round-robin loop: the next index, wrapping to 0 at `count`. */
  function Advance(cursor: nat, count: nat): (r: nat)
    requires cursor < count
    ensures r < count && (r == cursor + 1 || r + count == cursor + 1)
  {
    if cursor + 1 == count then 0 else cursor + 1
  }

  /** The member a round-robin loop started at `start` visits on its attempt number `k` (counted from 0). */
  function Rotated(start: nat, k: nat, count: nat): (r: nat)
    requires start < count && k <= count
    ensures r < count && (r == start + k || r + count == start + k)
  {
    if start + k < count then start + k else start + k - count
  }

  lemma RotatedAdvance(start: nat, k: nat, count: nat)
    requires start < count && k < count
    ensures Advance(Rotated(start, k, count), count) == Rotated(start, k + 1, count)
  {
  }

  /** Within one sweep the attempts visit distinct members, and after `count` attempts the cursor is back at `start`. */
  lemma RotatedSweep(start: nat, i: nat, j: nat, count: nat)
    requires start < count && i < count && j < count
    ensures Rotated(start, i, count) == Rotated(start, j, count) <==> i == j
    ensures Rotated(start, count, count) == start
  {
  }

  /** The attempts before `k` and the attempt at `k` all missed: so did the first `k + 1`. */
  lemma MissedOneMore(ready: seq<bool>, start: nat, k: nat)
    requires start < |ready| && k < |ready|
    requires forall j :: 0 <= j < k ==> !ready[Rotated(start, j, |ready|)]
    requires !ready[Rotated(start, k, |ready|)]
    ensures forall j :: 0 <= j < k + 1 ==> !ready[Rotated(start, j, |ready|)]
  {
  }

  /**
   * How many attempts a round-robin loop from `start` makes before it reaches a
   * member that is `ready`; `|ready|` when none is.
   */
  function Scan(ready: seq<bool>, start: nat, k: nat): (r: nat)
    requires start < |ready| && k <= |ready|
    ensures k <= r <= |ready|
    ensures r < |ready| ==> ready[Rotated(start, r, |ready|)]
    ensures forall j :: k <= j < r ==> !ready[Rotated(start, j, |ready|)]
    decreases |ready| - k
  {
    if k == |ready| then k
    else if ready[Rotated(start, k, |ready|)] then k
    else Scan(ready, start, k + 1)
  }

  /** The first ready member in cursor order is the one `Scan` stops at. */
  lemma ScanStopsAtFirst(ready: seq<bool>, start: nat, k: nat)
    requires start < |ready| && k <= |ready|
    requires k < |ready| ==> ready[Rotated(start, k, |ready|)]
    requires forall j :: 0 <= j < k ==> !ready[Rotated(start, j, |ready|)]
    ensures Scan(ready, start, 0) == k
  {
  }

  /** A sweep of `|ready|` attempts from `start` visits every member, so `Scan` reaching the end means none is ready. */
  lemma ScanCoversAll(ready: seq<bool>, start: nat)
    requires start < |ready| && Scan(ready, start, 0) == |ready|
    ensures forall i :: 0 <= i < |ready| ==> !ready[i]
  {
    forall i | 0 <= i < |ready|
      ensures !ready[i]
    {
      var j := if i >= start then i - start else i + |ready| - start;
      assert Rotated(start, j, |ready|) == i;
    }
  }

  /** The group's state: the members' link states, the two cursors and the unique bookkeeping. */
  datatype GroupState<C, V> = GroupState(
    members: seq<seq<StageState<C, V, V>>>,
    tryPopCursor: nat,
    processCursor: nat,
    running: seq<bool>,
    pending: seq<nat>)

  /** Under `unique`, a member is flagged running exactly while one job for it is pending. */
  predicate UniqueJobs(running: seq<bool>, pending: seq<nat>)
  {
    && (forall i :: 0 <= i < |running| ==> (running[i] <==> i in pending))
    && (forall j, k :: 0 <= j < k < |pending| ==> pending[j] != pending[k])
  }

  /** The cursors stay in range, every job names a member, and only `unique` ever sets a running flag. */
  predicate Bookkeeping(mode: Mode, n: nat, tryPopCursor: nat, processCursor: nat, running: seq<bool>, pending: seq<nat>)
  {
    && (tryPopCursor < n || tryPopCursor == 0)
    && (processCursor < n || processCursor == 0)
    && |running| == n
    && (forall j :: 0 <= j < |pending| ==> pending[j] < n)
    && (mode != Unique ==> forall i :: 0 <= i < n ==> !running[i])
    && (mode == Unique ==> UniqueJobs(running, pending))
  }

  /** The invariant every group operation keeps. */
  predicate Inv<C, V>(mode: Mode, gs: GroupState<C, V>)
  {
    && (forall i :: 0 <= i < |gs.members| ==> |gs.members[i]| >= 1)
    && Bookkeeping(mode, |gs.members|, gs.tryPopCursor, gs.processCursor, gs.running, gs.pending)
  }

  /** The transforms agree in shape with the member states. */
  ghost predicate Matches<C, V>(tss: seq<seq<Transform<C, V, V>>>, gs: GroupState<C, V>)
  {
    |tss| == |gs.members| && forall i :: 0 <= i < |tss| ==> |tss[i]| == |gs.members[i]|
  }

  /** A freshly built group: every member fresh, both cursors at 0, nothing running or pending. */
  function Initial<C, V>(configs: seq<seq<C>>): (gs: GroupState<C, V>)
    ensures |gs.members| == |configs| == |gs.running| && gs.pending == []
    ensures forall i :: 0 <= i < |configs| ==> gs.members[i] == Fresh(configs[i]) && !gs.running[i]
  {
    GroupState(seq(|configs|, i requires 0 <= i < |configs| => Fresh(configs[i])), 0, 0,
               seq(|configs|, _ => false), [])
  }

  /** `push`: every member receives the same input at its first link. */
  function GroupPush<C, V>(gs: GroupState<C, V>, input: V): (r: GroupState<C, V>)
    requires forall i :: 0 <= i < |gs.members| ==> |gs.members[i]| >= 1
    ensures |r.members| == |gs.members|
    ensures forall i :: 0 <= i < |gs.members| ==> r.members[i] == PushFirst(gs.members[i], input)
    ensures r.(members := gs.members) == gs
  {
    gs.(members := seq(|gs.members|, i requires 0 <= i < |gs.members| => PushFirst(gs.members[i], input)))
  }

  /** `push_if_empty`: every member is offered the input; each keeps it only if its first input buffer is empty. */
  function GroupPushIfEmpty<C, V>(gs: GroupState<C, V>, input: V): (r: GroupState<C, V>)
    requires forall i :: 0 <= i < |gs.members| ==> |gs.members[i]| >= 1
    ensures |r.members| == |gs.members|
    ensures forall i :: 0 <= i < |gs.members| ==> r.members[i] == PushFirstIfEmpty(gs.members[i], input)
    ensures r.(members := gs.members) == gs
  {
    gs.(members := seq(|gs.members|, i requires 0 <= i < |gs.members| => PushFirstIfEmpty(gs.members[i], input)))
  }

  /** Which members have an output to give: the last link's output buffer is non-empty. */
  function Ready<C, V>(members: seq<seq<StageState<C, V, V>>>): (r: seq<bool>)
    requires forall i :: 0 <= i < |members| ==> |members[i]| >= 1
    ensures |r| == |members|
    ensures forall i :: 0 <= i < |members| ==> (r[i] <==> members[i][|members[i]| - 1].outbox != [])
  {
    if members == [] then []
    else
      var last := members[|members| - 1];
      Ready(members[..|members| - 1]) + [last[|last| - 1].outbox != []]
  }

  /**
   * The rest of a `try_pop` sweep from attempt `k` on: pop the first member,
   * in cursor order, that has an output, and move the cursor just past it.
   */
  function PopFrom<C, V>(gs: GroupState<C, V>, k: nat): (r: (Option<V>, GroupState<C, V>))
    requires forall i :: 0 <= i < |gs.members| ==> |gs.members[i]| >= 1
    requires gs.tryPopCursor < |gs.members| && k <= |gs.members|
    ensures r.0.None? ==> r.1 == gs
    ensures |r.1.members| == |gs.members| && r.1.running == gs.running && r.1.pending == gs.pending
    ensures r.1.processCursor == gs.processCursor
    ensures forall i :: 0 <= i < |gs.members| ==> |r.1.members[i]| == |gs.members[i]|
    ensures r.1.tryPopCursor < |gs.members|
    decreases |gs.members| - k
  {
    var n := |gs.members|;
    if k == n then (None, gs)
    else
      var m := Rotated(gs.tryPopCursor, k, n);
      if gs.members[m][|gs.members[m]| - 1].outbox == [] then PopFrom(gs, k + 1)
      else
        var (output, rest) := PopLast(gs.members[m]);
        (output, gs.(members := gs.members[m := rest], tryPopCursor := Advance(m, n)))
  }

  /**
   * `try_pop`: at most `count` attempts from the try-pop cursor; with no output
   * anywhere the result is `None` and the cursor, after `count` advances, is back
   * where it started.
   */
  function GroupPop<C, V>(gs: GroupState<C, V>): (r: (Option<V>, GroupState<C, V>))
    requires forall i :: 0 <= i < |gs.members| ==> |gs.members[i]| >= 1
    requires gs.tryPopCursor < |gs.members| || gs.tryPopCursor == 0
    ensures r.0.None? ==> r.1 == gs
    ensures |r.1.members| == |gs.members| && r.1.running == gs.running && r.1.pending == gs.pending
    ensures r.1.processCursor == gs.processCursor
    ensures forall i :: 0 <= i < |gs.members| ==> |r.1.members[i]| == |gs.members[i]|
    ensures r.1.tryPopCursor < |gs.members| || r.1.tryPopCursor == 0
  {
    if |gs.members| == 0 then (None, gs) else PopFrom(gs, 0)
  }

  /** A sweep from attempt `a` that meets no output before attempt `k` pops the member visited at `k`. */
  lemma {:induction false} PopFromTakesFirstReady<C, V>(gs: GroupState<C, V>, a: nat, k: nat)
    requires forall i :: 0 <= i < |gs.members| ==> |gs.members[i]| >= 1
    requires gs.tryPopCursor < |gs.members| && a <= k < |gs.members|
    requires Ready(gs.members)[Rotated(gs.tryPopCursor, k, |gs.members|)]
    requires forall j :: a <= j < k ==> !Ready(gs.members)[Rotated(gs.tryPopCursor, j, |gs.members|)]
    ensures var m := Rotated(gs.tryPopCursor, k, |gs.members|);
            PopFrom(gs, a) == (PopLast(gs.members[m]).0,
                               gs.(members := gs.members[m := PopLast(gs.members[m]).1],
                                   tryPopCursor := Advance(m, |gs.members|)))
    decreases k - a
  {
    if a < k {
      PopFromSkips(gs, a);
      PopFromTakesFirstReady(gs, a + 1, k);
    } else {
      PopFromTakes(gs, k);
    }
  }

  /** The attempt `a` places after the cursor, at a member with no output, moves on to the next attempt. */
  lemma PopFromSkips<C, V>(gs: GroupState<C, V>, a: nat)
    requires forall i :: 0 <= i < |gs.members| ==> |gs.members[i]| >= 1
    requires gs.tryPopCursor < |gs.members| && a < |gs.members|
    requires !Ready(gs.members)[Rotated(gs.tryPopCursor, a, |gs.members|)]
    ensures PopFrom(gs, a) == PopFrom(gs, a + 1)
  {
  }

  /** The attempt `k` places after the cursor, at a member with output, pops it and moves the cursor past it. */
  lemma PopFromTakes<C, V>(gs: GroupState<C, V>, k: nat)
    requires forall i :: 0 <= i < |gs.members| ==> |gs.members[i]| >= 1
    requires gs.tryPopCursor < |gs.members| && k < |gs.members|
    requires Ready(gs.members)[Rotated(gs.tryPopCursor, k, |gs.members|)]
    ensures var m := Rotated(gs.tryPopCursor, k, |gs.members|);
            PopFrom(gs, k) == (PopLast(gs.members[m]).0,
                               gs.(members := gs.members[m := PopLast(gs.members[m]).1],
                                   tryPopCursor := Advance(m, |gs.members|)))
  {
  }

  /** A sweep from attempt `a` that meets no output returns `None` and changes nothing. */
  lemma {:induction false} PopFromFindsNone<C, V>(gs: GroupState<C, V>, a: nat)
    requires forall i :: 0 <= i < |gs.members| ==> |gs.members[i]| >= 1
    requires gs.tryPopCursor < |gs.members| && a <= |gs.members|
    requires forall j :: a <= j < |gs.members| ==> !Ready(gs.members)[Rotated(gs.tryPopCursor, j, |gs.members|)]
    ensures PopFrom(gs, a) == (None, gs)
    decreases |gs.members| - a
  {
    if a < |gs.members| {
      assert !Ready(gs.members)[Rotated(gs.tryPopCursor, a, |gs.members|)];
      PopFromFindsNone(gs, a + 1);
    }
  }

  /** `try_pop` returns `None` exactly when no member has an output, and then changes nothing. */
  lemma GroupPopNoneIffNoOutput<C, V>(gs: GroupState<C, V>)
    requires forall i :: 0 <= i < |gs.members| ==> |gs.members[i]| >= 1
    requires gs.tryPopCursor < |gs.members| || gs.tryPopCursor == 0
    ensures GroupPop(gs).0.None? <==> forall i :: 0 <= i < |gs.members| ==> gs.members[i][|gs.members[i]| - 1].outbox == []
    ensures GroupPop(gs).0.None? ==> GroupPop(gs).1 == gs
  {
    var n := |gs.members|;
    if n > 0 {
      var ready := Ready(gs.members);
      var k := Scan(ready, gs.tryPopCursor, 0);
      if k == n {
        ScanCoversAll(ready, gs.tryPopCursor);
        GroupPopFindsNone(gs);
      } else {
        GroupPopFindsOutput(gs, k);
      }
    }
  }

  /** With no member holding an output, `try_pop` yields nothing and changes nothing. */
  lemma GroupPopFindsNone<C, V>(gs: GroupState<C, V>)
    requires forall i :: 0 <= i < |gs.members| ==> |gs.members[i]| >= 1
    requires gs.tryPopCursor < |gs.members|
    requires forall i :: 0 <= i < |gs.members| ==> !Ready(gs.members)[i]
    ensures GroupPop(gs) == (None, gs)
  {
    PopFromFindsNone(gs, 0);
  }

  /** With the first ready member `k` places after the cursor, `try_pop` yields that member's newest output. */
  lemma GroupPopFindsOutput<C, V>(gs: GroupState<C, V>, k: nat)
    requires forall i :: 0 <= i < |gs.members| ==> |gs.members[i]| >= 1
    requires gs.tryPopCursor < |gs.members| && k < |gs.members|
    requires k == Scan(Ready(gs.members), gs.tryPopCursor, 0)
    ensures var m := Rotated(gs.tryPopCursor, k, |gs.members|);
            && gs.members[m][|gs.members[m]| - 1].outbox != []
            && GroupPop(gs).0 == Newest(gs.members[m]) && GroupPop(gs).0.Some?
  {
    PopFromTakesFirstReady(gs, 0, k);
  }


  /** The output a `try_pop` of `member` returns: the newest entry of its last link's output queue. */
  function Newest<C, V>(member: seq<StageState<C, V, V>>): (r: Option<V>)
    requires |member| >= 1
    ensures r == PopLast(member).0
    ensures r.Some? <==> member[|member| - 1].outbox != []
  {
    var outbox := member[|member| - 1].outbox;
    if outbox == [] then None else Some(outbox[|outbox| - 1])
  }

  /**
   * The `try_pop` loop ends at attempt `attempts` when the member it visits there
   * has an output, and then it has done what `try_pop` does.
   */
  lemma TryPopFound<C, V>(gs: GroupState<C, V>, attempts: nat, output: Option<V>,
                          members: seq<seq<StageState<C, V, V>>>, cursor: nat)
    requires forall i :: 0 <= i < |gs.members| ==> |gs.members[i]| >= 1
    requires gs.tryPopCursor < |gs.members| && attempts < |gs.members|
    requires forall j :: 0 <= j < attempts ==> !Ready(gs.members)[Rotated(gs.tryPopCursor, j, |gs.members|)]
    requires var m := Rotated(gs.tryPopCursor, attempts, |gs.members|);
             && output.Some? && output == Newest(gs.members[m])
             && members == gs.members[m := PopLast(gs.members[m]).1]
             && cursor == Advance(m, |gs.members|)
    ensures (output, gs.(members := members, tryPopCursor := cursor)) == GroupPop(gs)
  {
    GroupPopTakesFirstReady(gs, attempts);
  }

  /**
   * `try_pop` takes from the first member in cursor order that has an output,
   * returns that member's most recent output and leaves the cursor just after it.
   */
  lemma GroupPopTakesFirstReady<C, V>(gs: GroupState<C, V>, k: nat)
    requires forall i :: 0 <= i < |gs.members| ==> |gs.members[i]| >= 1
    requires gs.tryPopCursor < |gs.members| && k < |gs.members|
    requires Ready(gs.members)[Rotated(gs.tryPopCursor, k, |gs.members|)]
    requires forall j :: 0 <= j < k ==> !Ready(gs.members)[Rotated(gs.tryPopCursor, j, |gs.members|)]
    ensures var n := |gs.members|;
            var m := Rotated(gs.tryPopCursor, k, n);
            && GroupPop(gs).0 == Newest(gs.members[m])
            && GroupPop(gs).1 == gs.(members := gs.members[m := PopLast(gs.members[m]).1], tryPopCursor := Advance(m, n))
  {
    PopFromTakesFirstReady(gs, 0, k);
  }

  /** The outputs of `k` consecutive `try_pop` calls. */
  function PopMany<C, V>(gs: GroupState<C, V>, k: nat): (r: seq<Option<V>>)
    requires forall i :: 0 <= i < |gs.members| ==> |gs.members[i]| >= 1
    requires gs.tryPopCursor < |gs.members| || gs.tryPopCursor == 0
    ensures |r| == k
    decreases k
  {
    if k == 0 then []
    else
      var (output, next) := GroupPop(gs);
      [output] + PopMany(next, k - 1)
  }

  /** Moving the start one place on is the same as looking one attempt further, which never revisits the start. */
  lemma RotatedShift(start: nat, j: nat, count: nat)
    requires start < count && j + 1 < count
    ensures Rotated(Advance(start, count), j, count) == Rotated(start, j + 1, count) != start
  {
  }

  /**
   * After a successful `try_pop` at the cursor, the members the next attempts
   * visit are untouched, and each is visited one attempt earlier than before.
   */
  lemma PopAtReadyCursor<C, V>(gs: GroupState<C, V>, next: GroupState<C, V>, k: nat)
    requires forall i :: 0 <= i < |gs.members| ==> |gs.members[i]| >= 1
    requires gs.tryPopCursor < |gs.members| && 0 < k <= |gs.members|
    requires Ready(gs.members)[gs.tryPopCursor]
    requires next == GroupPop(gs).1
    ensures next.tryPopCursor < |gs.members|
    ensures forall j :: 0 <= j < k - 1 ==>
              Rotated(next.tryPopCursor, j, |gs.members|) == Rotated(gs.tryPopCursor, j + 1, |gs.members|)
    ensures forall j :: 0 <= j < k - 1 ==>
              next.members[Rotated(next.tryPopCursor, j, |gs.members|)]
              == gs.members[Rotated(next.tryPopCursor, j, |gs.members|)]
  {
    var c, n := gs.tryPopCursor, |gs.members|;
    assert Rotated(c, 0, n) == c;
    GroupPopTakesFirstReady(gs, 0);
    assert next.tryPopCursor == Advance(c, n);
    assert next.members == gs.members[c := PopLast(gs.members[c]).1];
    forall j | 0 <= j < k - 1
      ensures Rotated(next.tryPopCursor, j, n) == Rotated(c, j + 1, n)
      ensures next.members[Rotated(next.tryPopCursor, j, n)] == gs.members[Rotated(next.tryPopCursor, j, n)]
    {
      RotatedShift(c, j, n);
    }
  }

  /** The first output of `k` pops is the first pop's; the rest are those of `k - 1` pops from the state it leaves. */
  lemma PopManyStep<C, V>(gs: GroupState<C, V>, k: nat, j: nat)
    requires forall i :: 0 <= i < |gs.members| ==> |gs.members[i]| >= 1
    requires gs.tryPopCursor < |gs.members| || gs.tryPopCursor == 0
    requires j < k
    ensures j == 0 ==> PopMany(gs, k)[j] == GroupPop(gs).0
    ensures j > 0 ==> PopMany(gs, k)[j] == PopMany(GroupPop(gs).1, k - 1)[j - 1]
  {
  }

  /** After a pop at a ready cursor, the next `k - 1` members in the new cursor order still hold an output. */
  lemma ReadyAfterPop<C, V>(gs: GroupState<C, V>, next: GroupState<C, V>, k: nat)
    requires forall i :: 0 <= i < |gs.members| ==> |gs.members[i]| >= 1
    requires gs.tryPopCursor < |gs.members| && 0 < k <= |gs.members|
    requires forall i :: 0 <= i < k ==>
               var m := Rotated(gs.tryPopCursor, i, |gs.members|);
               gs.members[m][|gs.members[m]| - 1].outbox != []
    requires next == GroupPop(gs).1
    ensures Ready(gs.members)[gs.tryPopCursor]
    ensures forall i :: 0 <= i < |next.members| ==> |next.members[i]| >= 1
    ensures next.tryPopCursor < |next.members| && k - 1 <= |next.members|
    ensures forall i :: 0 <= i < k - 1 ==>
              var m := Rotated(next.tryPopCursor, i, |next.members|);
              next.members[m][|next.members[m]| - 1].outbox != []
  {
    var n, c := |gs.members|, gs.tryPopCursor;
    assert Rotated(c, 0, n) == c;
    assert Ready(gs.members)[c];
    PopAtReadyCursor(gs, next, k);
    forall i | 0 <= i < k - 1
      ensures var m := Rotated(next.tryPopCursor, i, |next.members|);
              next.members[m][|next.members[m]| - 1].outbox != []
    {
      assert Rotated(next.tryPopCursor, i, n) == Rotated(c, i + 1, n);
    }
  }

  /** The member the `j`-th attempt visits is the one the `(j - 1)`-th attempt visits after a pop at a ready cursor. */
  lemma ShiftAfterPop<C, V>(gs: GroupState<C, V>, next: GroupState<C, V>, k: nat, j: nat)
    requires forall i :: 0 <= i < |gs.members| ==> |gs.members[i]| >= 1
    requires gs.tryPopCursor < |gs.members| && 0 < j < k <= |gs.members|
    requires Ready(gs.members)[gs.tryPopCursor]
    requires next == GroupPop(gs).1
    ensures |next.members| == |gs.members| && next.tryPopCursor < |next.members|
    ensures |next.members[Rotated(next.tryPopCursor, j - 1, |next.members|)]| >= 1
    ensures Newest(next.members[Rotated(next.tryPopCursor, j - 1, |next.members|)])
            == Newest(gs.members[Rotated(gs.tryPopCursor, j, |gs.members|)])
  {
    PopAtReadyCursor(gs, next, k);
    assert Rotated(next.tryPopCursor, j - 1, |gs.members|) == Rotated(gs.tryPopCursor, j, |gs.members|);
  }

  /** The first of `k` pops at a ready cursor takes that member's newest output. */
  lemma FirstPopAtReadyCursor<C, V>(gs: GroupState<C, V>, k: nat)
    requires forall i :: 0 <= i < |gs.members| ==> |gs.members[i]| >= 1
    requires gs.tryPopCursor < |gs.members| && 0 < k
    requires Ready(gs.members)[gs.tryPopCursor]
    ensures PopMany(gs, k)[0] == Newest(gs.members[gs.tryPopCursor])
  {
    assert Rotated(gs.tryPopCursor, 0, |gs.members|) == gs.tryPopCursor;
    GroupPopTakesFirstReady(gs, 0);
    PopManyStep(gs, k, 0);
  }

  /**
   * One pop over ready members, seen from attempt `j` of `k`: the state it leaves
   * has the next `k - 1` members in its cursor order ready, and the `j`-th of the
   * `k` pops is the `(j - 1)`-th of the `k - 1` pops from there, at the same member.
   */
  lemma PopThenRest<C, V>(gs: GroupState<C, V>, k: nat, j: nat) returns (next: GroupState<C, V>)
    requires forall i :: 0 <= i < |gs.members| ==> |gs.members[i]| >= 1
    requires gs.tryPopCursor < |gs.members| && j < k <= |gs.members|
    requires forall i :: 0 <= i < k ==>
               var m := Rotated(gs.tryPopCursor, i, |gs.members|);
               gs.members[m][|gs.members[m]| - 1].outbox != []
    ensures forall i :: 0 <= i < |next.members| ==> |next.members[i]| >= 1
    ensures next.tryPopCursor < |next.members| && k - 1 <= |next.members|
    ensures forall i :: 0 <= i < k - 1 ==>
              var m := Rotated(next.tryPopCursor, i, |next.members|);
              next.members[m][|next.members[m]| - 1].outbox != []
    ensures j == 0 ==> PopMany(gs, k)[0] == Newest(gs.members[Rotated(gs.tryPopCursor, 0, |gs.members|)])
    ensures j > 0 ==>
              && PopMany(gs, k)[j] == PopMany(next, k - 1)[j - 1]
              && Newest(next.members[Rotated(next.tryPopCursor, j - 1, |next.members|)])
                 == Newest(gs.members[Rotated(gs.tryPopCursor, j, |gs.members|)])
  {
    next := GroupPop(gs).1;
    ReadyAfterPop(gs, next, k);
    if j == 0 {
      assert Rotated(gs.tryPopCursor, 0, |gs.members|) == gs.tryPopCursor;
      FirstPopAtReadyCursor(gs, k);
    } else {
      PopManyStep(gs, k, j);
      ShiftAfterPop(gs, next, k, j);
    }
  }

  /** The `j`-th of `k` pops over ready members takes from the `j`-th member in cursor order. */
  lemma {:induction false} RoundRobinAt<C, V>(gs: GroupState<C, V>, k: nat, j: nat)
    requires forall i :: 0 <= i < |gs.members| ==> |gs.members[i]| >= 1
    requires gs.tryPopCursor < |gs.members| && j < k <= |gs.members|
    requires forall i :: 0 <= i < k ==>
               var m := Rotated(gs.tryPopCursor, i, |gs.members|);
               gs.members[m][|gs.members[m]| - 1].outbox != []
    ensures PopMany(gs, k)[j] == Newest(gs.members[Rotated(gs.tryPopCursor, j, |gs.members|)])
    decreases j
  {
    var next := PopThenRest(gs, k, j);
    if j > 0 {
      RoundRobinAt(next, k - 1, j - 1);
    }
  }

  /**
   * Round-robin fairness: when the next `k <= count` members in cursor order all
   * hold an output, `k` calls of `try_pop` return one output from each of them,
   * in cursor order.
   */
  lemma RoundRobin<C, V>(gs: GroupState<C, V>, k: nat)
    requires forall i :: 0 <= i < |gs.members| ==> |gs.members[i]| >= 1
    requires gs.tryPopCursor < |gs.members| && k <= |gs.members|
    requires forall j :: 0 <= j < k ==>
               var m := Rotated(gs.tryPopCursor, j, |gs.members|);
               gs.members[m][|gs.members[m]| - 1].outbox != []
    ensures forall j :: 0 <= j < k ==> PopMany(gs, k)[j] == Newest(gs.members[Rotated(gs.tryPopCursor, j, |gs.members|)])
  {
    forall j | 0 <= j < k
      ensures PopMany(gs, k)[j] == Newest(gs.members[Rotated(gs.tryPopCursor, j, |gs.members|)])
    {
      RoundRobinAt(gs, k, j);
    }
  }

  /** The join result as written: the tuple of member results compared against the all-`false` tuple. */
  function JoinResult(results: seq<bool>): bool
  {
    results != seq(|results|, _ => false)
  }

  /** The comparison against the all-`false` tuple means exactly "some member returned true". */
  lemma JoinResultIsAny(results: seq<bool>)
    ensures JoinResult(results) <==> exists i :: 0 <= i < |results| && results[i]
  {
    if exists i :: 0 <= i < |results| && results[i] {
      var i :| 0 <= i < |results| && results[i];
      assert results[i] != seq(|results|, _ => false)[i];
    } else {
      assert results == seq(|results|, _ => false);
    }
  }

  /** Every member's `process`, each on its own links. */
  function ProcessEach<C, V>(tss: seq<seq<Transform<C, V, V>>>, members: seq<seq<StageState<C, V, V>>>, fuel: nat)
    : (r: (seq<seq<StageState<C, V, V>>>, seq<bool>))
    requires |tss| == |members| && forall i :: 0 <= i < |tss| ==> |tss[i]| == |members[i]| >= 1
    ensures |r.0| == |r.1| == |members|
    ensures forall i :: 0 <= i < |members| ==> (r.0[i], r.1[i]) == ChainProcess(tss[i], members[i], fuel)
  {
    (seq(|members|, i requires 0 <= i < |members| => ChainProcess(tss[i], members[i], fuel).0),
     seq(|members|, i requires 0 <= i < |members| => ChainProcess(tss[i], members[i], fuel).1))
  }

  /** `process_all_join`: every member processes; the result is the join of their results. */
  function JoinAll<C, V>(tss: seq<seq<Transform<C, V, V>>>, gs: GroupState<C, V>, fuel: nat)
    : (r: (GroupState<C, V>, bool))
    requires Matches(tss, gs) && forall i :: 0 <= i < |gs.members| ==> |gs.members[i]| >= 1
    ensures r.0.(members := gs.members) == gs && |r.0.members| == |gs.members|
    ensures forall i :: 0 <= i < |gs.members| ==> r.0.members[i] == ChainProcess(tss[i], gs.members[i], fuel).0
    ensures r.1 <==> exists i :: 0 <= i < |gs.members| && ChainProcess(tss[i], gs.members[i], fuel).1
  {
    var (members, results) := ProcessEach(tss, gs.members, fuel);
    JoinResultIsAny(results);
    (gs.(members := members), JoinResult(results))
  }

  /** `process_one_join`: the member under the process cursor processes, the cursor advances, its result is returned. */
  function JoinOne<C, V>(tss: seq<seq<Transform<C, V, V>>>, gs: GroupState<C, V>, fuel: nat)
    : (r: (GroupState<C, V>, bool))
    requires Matches(tss, gs) && forall i :: 0 <= i < |gs.members| ==> |gs.members[i]| >= 1
    requires gs.processCursor < |gs.members|
    ensures var m := gs.processCursor;
            var (states, processed) := ChainProcess(tss[m], gs.members[m], fuel);
            && r.1 == processed
            && r.0 == gs.(members := gs.members[m := states], processCursor := Advance(m, |gs.members|))
  {
    var m := gs.processCursor;
    var (states, processed) := ChainProcess(tss[m], gs.members[m], fuel);
    (gs.(members := gs.members[m := states], processCursor := Advance(m, |gs.members|)), processed)
  }

  /** `process_all_free`: one job per member is spawned. */
  function FreeAll<C, V>(gs: GroupState<C, V>): (r: GroupState<C, V>)
    ensures r.(pending := gs.pending) == gs
    ensures |r.pending| == |gs.pending| + |gs.members| && r.pending[..|gs.pending|] == gs.pending
    ensures r.pending[|gs.pending|..] == seq(|gs.members|, i => i)
  {
    gs.(pending := gs.pending + seq(|gs.members|, i => i))
  }

  /** `process_one_free`: a job for the member under the process cursor is spawned and the cursor advances. */
  function FreeOne<C, V>(gs: GroupState<C, V>): (r: GroupState<C, V>)
    requires gs.processCursor < |gs.members|
    ensures r.pending == gs.pending + [gs.processCursor]
    ensures r.processCursor == Advance(gs.processCursor, |gs.members|)
    ensures r.(pending := gs.pending, processCursor := gs.processCursor) == gs
  {
    gs.(pending := gs.pending + [gs.processCursor], processCursor := Advance(gs.processCursor, |gs.members|))
  }

  /** The members below `k` that are not running, in increasing order. */
  function NotRunning(running: seq<bool>, k: nat): (r: seq<nat>)
    requires k <= |running|
    ensures forall j :: 0 <= j < |r| ==> r[j] < k && !running[r[j]]
    ensures forall i: nat :: i < k && !running[i] ==> i in r
    ensures forall j, l :: 0 <= j < l < |r| ==> r[j] < r[l]
    decreases k
  {
    if k == 0 then []
    else if running[k - 1] then NotRunning(running, k - 1)
    else NotRunning(running, k - 1) + [k - 1]
  }

  /** `process_all_unique`: every member not already running is flagged and gets a job. */
  function UniqueAll<C, V>(gs: GroupState<C, V>): (r: GroupState<C, V>)
    requires |gs.running| == |gs.members|
    ensures r.running == seq(|gs.members|, _ => true)
    ensures r.pending == gs.pending + NotRunning(gs.running, |gs.members|)
    ensures r.(running := gs.running, pending := gs.pending) == gs
  {
    gs.(running := seq(|gs.members|, _ => true), pending := gs.pending + NotRunning(gs.running, |gs.members|))
  }

  /** The members whose running flag is clear. */
  function NotFlagged(running: seq<bool>): (r: seq<bool>)
    ensures |r| == |running| && forall i :: 0 <= i < |running| ==> r[i] == !running[i]
  {
    seq(|running|, i requires 0 <= i < |running| => !running[i])
  }

  /**
   * `process_one_unique`: from the process cursor, at most `count` attempts; the
   * first member found not running is flagged and gets a job, and the cursor is
   * left just after it. When every member is running nothing is launched and the
   * cursor ends where it started.
   */
  function UniqueOne<C, V>(gs: GroupState<C, V>): (r: GroupState<C, V>)
    requires |gs.running| == |gs.members| && gs.processCursor < |gs.members|
    ensures (forall i :: 0 <= i < |gs.members| ==> gs.running[i]) <==> r == gs
    ensures r.members == gs.members && r.tryPopCursor == gs.tryPopCursor
    ensures r != gs ==>
              exists k :: 0 <= k < |gs.members|
                && var m := Rotated(gs.processCursor, k, |gs.members|);
                && !gs.running[m]
                && (forall j :: 0 <= j < k ==> gs.running[Rotated(gs.processCursor, j, |gs.members|)])
                && r == gs.(running := gs.running[m := true], pending := gs.pending + [m],
                            processCursor := Advance(m, |gs.members|))
  {
    var n := |gs.members|;
    var idle := NotFlagged(gs.running);
    var k := Scan(idle, gs.processCursor, 0);
    if k == n then
      ScanCoversAll(idle, gs.processCursor);
      gs
    else
      var m := Rotated(gs.processCursor, k, n);
      gs.(running := gs.running[m := true], pending := gs.pending + [m], processCursor := Advance(m, n))
  }

  /**
   * A spawned job runs: the member's `process` runs to its end, the job leaves
   * the pending list and, under `unique`, the member's running flag is cleared.
   */
  function Completed<C, V>(mode: Mode, tss: seq<seq<Transform<C, V, V>>>, gs: GroupState<C, V>, j: nat, fuel: nat)
    : (r: GroupState<C, V>)
    requires Inv(mode, gs) && Matches(tss, gs) && j < |gs.pending|
    ensures var m := gs.pending[j];
            && r.members == gs.members[m := ChainProcess(tss[m], gs.members[m], fuel).0]
            && r.pending == gs.pending[..j] + gs.pending[j + 1..]
            && r.running == (if mode == Unique then gs.running[m := false] else gs.running)
            && r.tryPopCursor == gs.tryPopCursor && r.processCursor == gs.processCursor
  {
    var m := gs.pending[j];
    gs.(members := gs.members[m := ChainProcess(tss[m], gs.members[m], fuel).0],
        pending := gs.pending[..j] + gs.pending[j + 1..],
        running := if mode == Unique then gs.running[m := false] else gs.running)
  }

  /** The `process` dispatch on mode and choice. */
  function GroupProcess<C, V>(mode: Mode, choice: Choice, tss: seq<seq<Transform<C, V, V>>>, gs: GroupState<C, V>, fuel: nat)
    : (r: (GroupState<C, V>, bool))
    requires Inv(mode, gs) && Matches(tss, gs) && (choice == One ==> |gs.members| >= 1)
    ensures mode != Join ==> !r.1
    ensures mode == Join ==> r.0.running == gs.running && r.0.pending == gs.pending
    ensures mode != Join ==> r.0.members == gs.members
    ensures r.0.tryPopCursor == gs.tryPopCursor
  {
    match (mode, choice)
    case (Join, All) => JoinAll(tss, gs, fuel)
    case (Join, One) => JoinOne(tss, gs, fuel)
    case (Free, All) => (FreeAll(gs), false)
    case (Free, One) => (FreeOne(gs), false)
    case (Unique, All) => (UniqueAll(gs), false)
    case (Unique, One) => (UniqueOne(gs), false)
  }

  /** `process_all_unique` keeps the unique bookkeeping: every member ends flagged with exactly one job. */
  lemma UniqueAllKeepsInv<C, V>(gs: GroupState<C, V>)
    requires Inv(Unique, gs)
    ensures var r := UniqueAll(gs);
            && Inv(Unique, r)
            && forall j :: |gs.pending| <= j < |r.pending| ==> !gs.running[r.pending[j]]
  {
    var n := |gs.members|;
    var r := UniqueAll(gs);
    var launched := NotRunning(gs.running, n);
    forall i | 0 <= i < n
      ensures r.running[i] <==> i in r.pending
    {
      if !gs.running[i] {
        assert i in launched;
      }
    }
    forall j, l | 0 <= j < l < |r.pending|
      ensures r.pending[j] != r.pending[l]
    {
      if l >= |gs.pending| && j < |gs.pending| {
        assert gs.running[r.pending[j]];
      }
    }
  }

  /** `process_one_unique` keeps the unique bookkeeping and launches at most one member, one that was not running. */
  lemma UniqueOneKeepsInv<C, V>(gs: GroupState<C, V>)
    requires Inv(Unique, gs) && |gs.members| >= 1
    ensures var r := UniqueOne(gs);
            && Inv(Unique, r)
            && |gs.pending| <= |r.pending| <= |gs.pending| + 1 && r.pending[..|gs.pending|] == gs.pending
            && forall j :: |gs.pending| <= j < |r.pending| ==> !gs.running[r.pending[j]]
  {
    var r := UniqueOne(gs);
    if r != gs {
      var n := |gs.members|;
      var k := Scan(NotFlagged(gs.running), gs.processCursor, 0);
      var m := Rotated(gs.processCursor, k, n);
      assert r.pending == gs.pending + [m] && !gs.running[m];
      assert r.running == gs.running[m := true];
    }
  }

  /**
   * Every `process` variant keeps the group invariant. Jobs are only ever added;
   * under `unique` a member whose flag is set is never launched, and the `one`
   * choice launches at most one member per call.
   */
  lemma ProcessKeepsInv<C, V>(mode: Mode, choice: Choice, tss: seq<seq<Transform<C, V, V>>>, gs: GroupState<C, V>, fuel: nat)
    requires Inv(mode, gs) && Matches(tss, gs) && (choice == One ==> |gs.members| >= 1)
    ensures var r := GroupProcess(mode, choice, tss, gs, fuel).0;
            && Inv(mode, r) && Matches(tss, r)
            && |gs.pending| <= |r.pending| && r.pending[..|gs.pending|] == gs.pending
            && (mode == Unique ==> forall j :: |gs.pending| <= j < |r.pending| ==> !gs.running[r.pending[j]])
            && (mode == Unique && choice == One ==> |r.pending| <= |gs.pending| + 1)
  {
    match (mode, choice)
    case (Unique, All) => UniqueAllKeepsInv(gs);
    case (Unique, One) => UniqueOneKeepsInv(gs);
    case (Free, All) =>
    case (Free, One) =>
    case (Join, All) =>
    case (Join, One) =>
  }

  /**
   * Completing a job keeps the group invariant; under `unique` the completed
   * member is no longer flagged, so a later `process` may launch it again.
   */
  lemma CompletedKeepsInv<C, V>(mode: Mode, tss: seq<seq<Transform<C, V, V>>>, gs: GroupState<C, V>, j: nat, fuel: nat)
    requires Inv(mode, gs) && Matches(tss, gs) && j < |gs.pending|
    ensures var r := Completed(mode, tss, gs, j, fuel);
            && Inv(mode, r) && Matches(tss, r)
            && |r.pending| == |gs.pending| - 1
            && (mode == Unique ==> !r.running[gs.pending[j]])
  {
    var r := Completed(mode, tss, gs, j, fuel);
    assert forall l :: 0 <= l < |r.pending| ==> r.pending[l] == if l < j then gs.pending[l] else gs.pending[l + 1];
    if mode == Unique {
      DropJobKeepsUnique(gs.running, gs.pending, j);
    }
  }

  /** Dropping job `j` and clearing its member's flag keeps a flag set exactly while one job is pending. */
  lemma DropJobKeepsUnique(running: seq<bool>, pending: seq<nat>, j: nat)
    requires UniqueJobs(running, pending) && j < |pending| && pending[j] < |running|
    ensures UniqueJobs(running[pending[j] := false], pending[..j] + pending[j + 1..])
  {
    var rest := pending[..j] + pending[j + 1..];
    assert forall l :: 0 <= l < |rest| ==> rest[l] == if l < j then pending[l] else pending[l + 1];
    forall i | 0 <= i < |running|
      ensures running[pending[j] := false][i] <==> i in rest
    {
      if i in rest {
        var l :| 0 <= l < |rest| && rest[l] == i;
        assert i == if l < j then pending[l] else pending[l + 1];
      }
    }
  }

  /**
   * The group object. Each member is a `Chain`: one link for a solo member (or
   * a `split_merge!` destination), several for a pipeline member.
   */
  class Group<C, V> {
    const members: seq<Chain<C, V>>
    const mode: Mode
    const choice: Choice
    ghost const Repr: set<Stage<C, V, V>>
    var tryPopCursor: nat
    var processCursor: nat
    var running: seq<bool>
    var pending: seq<nat>

    /** The members are valid chains with disjoint links, all inside `Repr`. */
    ghost predicate Structure()
    {
      && (forall i :: 0 <= i < |members| ==> members[i].Valid() && members[i].Repr <= Repr)
      && (forall i, j :: 0 <= i < j < |members| ==> members[i].Repr !! members[j].Repr)
      && (choice == One ==> |members| >= 1)
    }

    ghost predicate Valid()
      reads this
    {
      Structure() && Bookkeeping(mode, |members|, tryPopCursor, processCursor, running, pending)
    }

    ghost function Transforms(): (tss: seq<seq<Transform<C, V, V>>>)
      ensures |tss| == |members|
      ensures forall i :: 0 <= i < |members| ==> tss[i] == members[i].Transforms()
    {
      seq(|members|, i requires 0 <= i < |members| => members[i].Transforms())
    }

    ghost function MemberStates(): (mss: seq<seq<StageState<C, V, V>>>)
      requires Structure()
      reads Repr
      ensures |mss| == |members|
      ensures forall i :: 0 <= i < |members| ==> mss[i] == members[i].States()
    {
      seq(|members|, i requires 0 <= i < |members| reads Repr => members[i].States())
    }

    ghost function State(): (gs: GroupState<C, V>)
      requires Valid()
      reads this, Repr
    {
      GroupState(MemberStates(), tryPopCursor, processCursor, running, pending)
    }

    /** A valid group's state satisfies the group invariant. */
    lemma StateInv()
      requires Valid()
      ensures Inv(mode, State()) && Matches(Transforms(), State())
    {
    }

    /** The members of `new`, each chain built from its own initializers. */
    static method BuildMembers(configs: seq<seq<C>>, transforms: seq<seq<Transform<C, V, V>>>) returns (built: seq<Chain<C, V>>)
      requires |configs| == |transforms|
      requires forall i :: 0 <= i < |configs| ==> |configs[i]| == |transforms[i]| >= 1
      ensures |built| == |configs|
      ensures forall i :: 0 <= i < |built| ==>
                && built[i].Valid() && fresh(built[i].Repr)
                && built[i].Transforms() == transforms[i] && built[i].States() == Fresh(configs[i])
      ensures forall i, j :: 0 <= i < j < |built| ==> built[i].Repr !! built[j].Repr
    {
      built := [];
      while |built| < |configs|
        invariant |built| <= |configs|
        invariant forall i :: 0 <= i < |built| ==>
                    && built[i].Valid() && fresh(built[i].Repr)
                    && built[i].Transforms() == transforms[i] && built[i].States() == Fresh(configs[i])
        invariant forall i, j :: 0 <= i < j < |built| ==> built[i].Repr !! built[j].Repr
      {
        var member := new Chain(configs[|built|], transforms[|built|]);
        built := built + [member];
      }
    }

    /** `new`: every member built from its own initializers; cursors at 0, nothing running. */
    constructor (configs: seq<seq<C>>, transforms: seq<seq<Transform<C, V, V>>>, mode: Mode, choice: Choice)
      requires |configs| == |transforms|
      requires forall i :: 0 <= i < |configs| ==> |configs[i]| == |transforms[i]| >= 1
      requires choice == One ==> |configs| >= 1
      ensures Valid() && fresh(Repr) && this.mode == mode && this.choice == choice
      ensures State() == Initial(configs) && Transforms() == transforms
    {
      var built := BuildMembers(configs, transforms);
      members := built;
      this.mode := mode;
      this.choice := choice;
      Repr := set i, o | 0 <= i < |built| && o in built[i].Repr :: o;
      tryPopCursor := 0;
      processCursor := 0;
      running := seq(|configs|, _ => false);
      pending := [];
      new;
      assert MemberStates() == Initial<C, V>(configs).members;
    }

    /** `duplicate!`'s `new`: `count` members, all built from the same initializers; every duplicate processes all members. */
    static method Duplicate(count: nat, configs: seq<C>, transforms: seq<Transform<C, V, V>>, mode: Mode) returns (g: Group<C, V>)
      requires |configs| == |transforms| >= 1
      ensures g.Valid() && fresh(g.Repr) && g.mode == mode && g.choice == All && |g.members| == count
      ensures g.State() == Initial(seq(count, _ => configs)) && g.Transforms() == seq(count, _ => transforms)
    {
      g := new Group(seq(count, _ => configs), seq(count, _ => transforms), mode, All);
    }

    /** `try_pop` of one member. */
    method PopMember(index: nat) returns (output: Option<V>)
      requires Valid() && index < |members|
      modifies members[index].Repr
      ensures Valid()
      ensures (output, MemberStates()) == (PopLast(old(MemberStates())[index]).0, old(MemberStates())[index := PopLast(old(MemberStates())[index]).1])
    {
      ghost var before := MemberStates();
      output := members[index].TryPop();
      assert forall k :: 0 <= k < |members| && k != index ==> members[k].States() == before[k];
      assert MemberStates() == before[index := members[index].States()];
    }

    /** `process` of one member. */
    method ProcessMember(index: nat, fuel: nat) returns (processed: bool)
      requires Valid() && index < |members|
      modifies members[index].Repr
      ensures Valid()
      ensures var (states, p) := ChainProcess(members[index].Transforms(), old(MemberStates())[index], fuel);
              processed == p && MemberStates() == old(MemberStates())[index := states]
    {
      ghost var before := MemberStates();
      processed := members[index].Process(fuel);
      assert forall k :: 0 <= k < |members| && k != index ==> members[k].States() == before[k];
      assert MemberStates() == before[index := members[index].States()];
    }

    /** `push` of one member. */
    method PushMember(index: nat, input: V)
      requires Valid() && index < |members|
      modifies members[index].Repr
      ensures Valid()
      ensures MemberStates() == old(MemberStates())[index := PushFirst(old(MemberStates())[index], input)]
    {
      ghost var before := MemberStates();
      members[index].Push(input);
      assert forall k :: 0 <= k < |members| && k != index ==> members[k].States() == before[k];
      assert MemberStates() == before[index := members[index].States()];
    }

    /** `push_if_empty` of one member. */
    method PushMemberIfEmpty(index: nat, input: V)
      requires Valid() && index < |members|
      modifies members[index].Repr
      ensures Valid()
      ensures MemberStates() == old(MemberStates())[index := PushFirstIfEmpty(old(MemberStates())[index], input)]
    {
      ghost var before := MemberStates();
      members[index].PushIfEmpty(input);
      assert forall k :: 0 <= k < |members| && k != index ==> members[k].States() == before[k];
      assert MemberStates() == before[index := members[index].States()];
    }

    /** `push`: the same input to every member, in member order. */
    method Push(input: V)
      requires Valid()
      modifies Repr
      ensures Valid() && State() == GroupPush(old(State()), input)
    {
      ghost var before := MemberStates();
      for i := 0 to |members|
        invariant Valid()
        invariant |MemberStates()| == |before|
        invariant forall k :: 0 <= k < i ==> MemberStates()[k] == PushFirst(before[k], input)
        invariant forall k :: i <= k < |members| ==> MemberStates()[k] == before[k]
      {
        PushMember(i, input);
      }
      assert MemberStates() == GroupPush(old(State()), input).members;
    }

    /** `push_if_empty`: every member is offered the same input. */
    method PushIfEmpty(input: V)
      requires Valid()
      modifies Repr
      ensures Valid() && State() == GroupPushIfEmpty(old(State()), input)
    {
      ghost var before := MemberStates();
      for i := 0 to |members|
        invariant Valid()
        invariant |MemberStates()| == |before|
        invariant forall k :: 0 <= k < i ==> MemberStates()[k] == PushFirstIfEmpty(before[k], input)
        invariant forall k :: i <= k < |members| ==> MemberStates()[k] == before[k]
      {
        PushMemberIfEmpty(i, input);
      }
      assert MemberStates() == GroupPushIfEmpty(old(State()), input).members;
    }

    /** One `try_pop` attempt: pop the member under the try-pop cursor and advance the cursor. */
    method PopAtCursor() returns (output: Option<V>)
      requires Valid() && |members| > 0
      modifies this, Repr
      ensures Valid()
      ensures output == Newest(old(MemberStates())[old(tryPopCursor)])
      ensures MemberStates() == old(MemberStates())[old(tryPopCursor) := PopLast(old(MemberStates())[old(tryPopCursor)]).1]
      ensures tryPopCursor == Advance(old(tryPopCursor), |members|)
      ensures running == old(running) && pending == old(pending) && processCursor == old(processCursor)
      ensures output.None? ==> MemberStates() == old(MemberStates())
    {
      var m := tryPopCursor;
      tryPopCursor := Advance(m, |members|);
      output := PopMember(m);
    }

    /**
     * The loop of `try_pop`: one attempt after another from the try-pop cursor,
     * until a member yields an output or every member has been tried once.
     */
    method TryEach() returns (output: Option<V>, ghost tries: nat)
      requires Valid()
      modifies this, Repr
      ensures Valid() && tries <= |members|
      ensures running == old(running) && pending == old(pending) && processCursor == old(processCursor)
      ensures forall j :: 0 <= j < tries ==> !Ready(old(MemberStates()))[Rotated(old(tryPopCursor), j, |members|)]
      ensures output.None? ==> tries == |members| && MemberStates() == old(MemberStates()) && tryPopCursor == old(tryPopCursor)
      ensures output.Some? ==> tries < |members|
      ensures output.Some? ==>
                var m := Rotated(old(tryPopCursor), tries, |members|);
                && output == Newest(old(MemberStates())[m])
                && MemberStates() == old(MemberStates())[m := PopLast(old(MemberStates())[m]).1]
                && tryPopCursor == Advance(m, |members|)
    {
      ghost var before := MemberStates();
      var n := |members|;
      ghost var start := tryPopCursor;
      var attempts := 0;
      while attempts < n
        invariant attempts <= n && Valid()
        invariant MemberStates() == before
        invariant running == old(running) && pending == old(pending) && processCursor == old(processCursor)
        invariant n > 0 ==> tryPopCursor == Rotated(start, attempts, n)
        invariant forall j :: 0 <= j < attempts ==> !Ready(before)[Rotated(start, j, n)]
      {
        RotatedAdvance(start, attempts, n);
        ghost var m := tryPopCursor;
        output := PopAtCursor();
        if output.Some? {
          tries := attempts;
          return;
        }
        MissedOneMore(Ready(before), start, attempts);
        attempts := attempts + 1;
      }
      if n > 0 {
        RotatedSweep(start, 0, 0, n);
      }
      output, tries := None, n;
    }

    /** `try_pop`: at most `count` round-robin attempts from the try-pop cursor. */
    method TryPop() returns (output: Option<V>)
      requires Valid()
      modifies this, Repr
      ensures Valid() && (output, State()) == GroupPop(old(State()))
    {
      StateInv();
      ghost var gs := State();
      ghost var tries;
      output, tries := TryEach();
      if output.Some? {
        TryPopFound(gs, tries, output, MemberStates(), tryPopCursor);
      } else if |members| > 0 {
        PopFromFindsNone(gs, 0);
      }
    }

    /** `process_all_join`: every member processes in turn; the result is whether any returned `true`. */
    method ProcessAllJoin(fuel: nat) returns (processed: bool)
      requires Valid() && mode == Join && choice == All
      modifies Repr
      ensures Valid() && (State(), processed) == JoinAll(Transforms(), old(State()), fuel)
    {
      var n := |members|;
      ghost var tss := Transforms();
      var results: seq<bool> := [];
      for i := 0 to n
        invariant |results| == i
        invariant forall k :: 0 <= k < i ==>
                    (members[k].States(), results[k]) == ChainProcess(tss[k], old(MemberStates())[k], fuel)
        invariant forall k :: i <= k < n ==> members[k].States() == old(MemberStates())[k]
      {
        var memberProcessed := ProcessMember(i, fuel);
        results := results + [memberProcessed];
      }
      processed := results != seq(|results|, _ => false);
      assert results == ProcessEach(tss, old(MemberStates()), fuel).1;
      assert MemberStates() == ProcessEach(tss, old(MemberStates()), fuel).0;
    }

    /** `process_one_join`: the member under the process cursor processes and the cursor advances. */
    method ProcessOneJoin(fuel: nat) returns (processed: bool)
      requires Valid() && mode == Join && choice == One
      modifies this, Repr
      ensures Valid() && (State(), processed) == JoinOne(Transforms(), old(State()), fuel)
    {
      StateInv();
      ghost var gs := State();
      ghost var tss := Transforms();
      var m := processCursor;
      processCursor := Advance(m, |members|);
      processed := ProcessMember(m, fuel);
      assert tss[m] == members[m].Transforms();
      assert MemberStates() == gs.members[m := ChainProcess(tss[m], gs.members[m], fuel).0];
      assert State() == gs.(members := MemberStates(), processCursor := processCursor);
    }

    /** `process_all_free`: a job for every member; the call itself reports `false`. */
    method ProcessAllFree() returns (processed: bool)
      requires Valid() && mode == Free && choice == All
      modifies this
      ensures Valid() && State() == FreeAll(old(State())) && !processed
    {
      for i := 0 to |members|
        invariant pending == old(pending) + seq(i, k => k)
        invariant tryPopCursor == old(tryPopCursor) && processCursor == old(processCursor) && running == old(running)
      {
        assert seq(i + 1, k => k) == seq(i, k => k) + [i];
        pending := pending + [i];
      }
      processed := false;
    }

    /** `process_one_free`: a job for the member under the process cursor, which advances. */
    method ProcessOneFree() returns (processed: bool)
      requires Valid() && mode == Free && choice == One
      modifies this
      ensures Valid() && State() == FreeOne(old(State())) && !processed
    {
      var m := processCursor;
      processCursor := Advance(m, |members|);
      pending := pending + [m];
      processed := false;
    }

    /** The loop of `process_all_unique`: every member whose flag is clear is flagged and gets a job, in member order. */
    static method LaunchIdle(running: seq<bool>, pending: seq<nat>) returns (flags: seq<bool>, jobs: seq<nat>)
      ensures flags == seq(|running|, _ => true)
      ensures jobs == pending + NotRunning(running, |running|)
    {
      var n := |running|;
      flags, jobs := running, pending;
      for i := 0 to n
        invariant |flags| == n
        invariant forall k :: 0 <= k < i ==> flags[k]
        invariant forall k :: i <= k < n ==> flags[k] == running[k]
        invariant jobs == pending + NotRunning(running, i)
      {
        if !flags[i] {
          flags := flags[i := true];
          jobs := jobs + [i];
        }
      }
    }

    /** `process_all_unique`: every member whose flag is clear is flagged and gets a job. */
    method ProcessAllUnique() returns (processed: bool)
      requires Valid() && mode == Unique && choice == All
      modifies this
      ensures Valid() && State() == UniqueAll(old(State())) && !processed
    {
      ghost var gs := State();
      running, pending := LaunchIdle(running, pending);
      UniqueAllKeepsInv(gs);
      processed := false;
    }

    /**
     * `process_one_unique`: at most `count` round-robin attempts from the process
     * cursor; the first member whose flag is clear is flagged and gets a job, and
     * the call returns at once.
     */
    method ProcessOneUnique() returns (processed: bool)
      requires Valid() && mode == Unique && choice == One
      modifies this
      ensures Valid() && State() == UniqueOne(old(State())) && !processed
    {
      ghost var gs := State();
      StateInv();
      UniqueOneKeepsInv(gs);
      running, pending, processCursor := ClaimFirstIdle(running, pending, processCursor);
      assert MemberStates() == gs.members;
      processed := false;
    }

    /**
     * The loop of `process_one_unique`: round-robin attempts from `cursor`, each
     * moving the cursor on; the first member whose flag is clear is flagged and
     * gets a job, and the loop stops there.
     */
    static method ClaimFirstIdle(running: seq<bool>, pending: seq<nat>, cursor: nat)
      returns (flags: seq<bool>, jobs: seq<nat>, next: nat)
      requires cursor < |running|
      ensures var n := |running|;
              var k := Scan(NotFlagged(running), cursor, 0);
              && (k == n ==> flags == running && jobs == pending && next == cursor)
              && (k < n ==> var m := Rotated(cursor, k, n);
                            flags == running[m := true] && jobs == pending + [m] && next == Advance(m, n))
    {
      var n := |running|;
      ghost var idle := NotFlagged(running);
      flags, jobs, next := running, pending, cursor;
      var attempts := 0;
      while attempts < n
        invariant attempts <= n && next == Rotated(cursor, attempts, n)
        invariant forall j :: 0 <= j < attempts ==> !idle[Rotated(cursor, j, n)]
      {
        var index := next;
        next := Advance(next, n);
        RotatedAdvance(cursor, attempts, n);
        if !running[index] {
          flags := running[index := true];
          jobs := pending + [index];
          ScanStopsAtFirst(idle, cursor, attempts);
          return;
        }
        attempts := attempts + 1;
      }
      ScanStopsAtFirst(idle, cursor, n);
      RotatedSweep(cursor, 0, 0, n);
    }

    /**
     * A spawned job runs: the member's `process` runs to its end and, under
     * `unique`, the member's running flag is cleared afterwards.
     */
    method CompleteJob(j: nat, fuel: nat)
      requires Valid() && j < |pending|
      modifies this, Repr
      ensures Valid() && State() == Completed(mode, Transforms(), old(State()), j, fuel)
    {
      ghost var gs := State();
      var m := pending[j];
      var _ := ProcessMember(m, fuel);
      pending := pending[..j] + pending[j + 1..];
      if mode == Unique {
        running := running[m := false];
      }
      CompletedKeepsInv(mode, Transforms(), gs, j, fuel);
    }

    /** `process`: dispatch on the group's mode and choice. */
    method Process(fuel: nat) returns (processed: bool)
      requires Valid()
      modifies this, Repr
      ensures Valid() && (State(), processed) == GroupProcess(mode, choice, Transforms(), old(State()), fuel)
    {
      match (mode, choice)
      case (Join, All) => processed := ProcessAllJoin(fuel);
      case (Join, One) => processed := ProcessOneJoin(fuel);
      case (Free, All) => processed := ProcessAllFree();
      case (Free, One) => processed := ProcessOneFree();
      case (Unique, All) => processed := ProcessAllUnique();
      case (Unique, One) => processed := ProcessOneUnique();
    }
  }
}
