/**
 * The split-merge end of examples/etl_split.rs: `SeparateDatabaseSplitMerge`
 * hands every customer to two `InsertCustomerIntoDatabase` stages (the
 * "Primary" and "Mirror" repositories), and the driver loop of `main` alternates
 * `process` and `try_pop` until a pop yields nothing or `false`.
 */
module EtlSplit {
  import opened Wrappers
  import opened Queues
  import opened Stages
  import opened Chains
  import opened Groups
  import opened Etl

  /** Both destinations of the split merge: one insertion stage each. */
  function SplitMergeTransforms(): (tss: seq<seq<Transform<Setup, Row, Row>>>)
    ensures |tss| == 2 && forall i :: 0 <= i < 2 ==> |tss[i]| == 1
  {
    [[MapLink(InsertCustomerIntoDatabase)], [MapLink(InsertCustomerIntoDatabase)]]
  }

  function SplitMergeConfigs(): (configs: seq<seq<Setup>>)
    ensures |configs| == 2 && forall i :: 0 <= i < 2 ==> |configs[i]| == 1
  {
    [[Repository("Primary")], [Repository("Mirror")]]
  }

  /** `new`: the split merge as a group whose `process` joins all members. */
  method NewSplitMerge() returns (g: Group<Setup, Row>)
    ensures g.Valid() && fresh(g.Repr) && g.mode == Join && g.choice == All
    ensures g.State() == Initial(SplitMergeConfigs()) && g.Transforms() == SplitMergeTransforms()
  {
    g := new Group(SplitMergeConfigs(), SplitMergeTransforms(), Join, All);
  }

  /** An insertion stage holding one customer: `process` moves it into the output buffer as `true`. */
  lemma InsertStep(s: StageState<Setup, Row, Row>, c: Customer)
    requires s.inbox == [Record(c)] && s.outbox == []
    ensures Step(MapLink(InsertCustomerIntoDatabase), s) == (s.(inbox := [], outbox := [Inserted(true)]), true)
  {
    var t := MapLink(InsertCustomerIntoDatabase);
    assert t(s.config, None) == (s.config, None);
    assert Popped(s.inbox) == (Some(Record(c)), []);
    assert t(s.config, Some(Record(c))) == (s.config, Some(Inserted(true)));
  }

  /** An insertion stage with nothing queued: `process` does nothing and reports `false`. */
  lemma IdleInsertStep(s: StageState<Setup, Row, Row>)
    requires s.inbox == []
    ensures Step(MapLink(InsertCustomerIntoDatabase), s) == (s, false)
  {
    var t := MapLink(InsertCustomerIntoDatabase);
    assert t(s.config, None) == (s.config, None);
  }

  /**
   * One customer through the split merge: `push` hands it to both
   * repositories, `process` reports `true`, and each repository then holds one
   * `true` for `try_pop`.
   */
  lemma SplitMergeInsertsIntoBoth(c: Customer, fuel: nat)
    ensures var gs := GroupPush(Initial(SplitMergeConfigs()), Record(c));
            var (gs', processed) := JoinAll(SplitMergeTransforms(), gs, fuel);
            && processed
            && forall i :: 0 <= i < 2 ==>
                 gs'.members[i] == [StageState(SplitMergeConfigs()[i][0], [], [Inserted(true)])]
  {
    var tss := SplitMergeTransforms();
    var gs := GroupPush(Initial(SplitMergeConfigs()), Record(c));
    forall i | 0 <= i < 2
      ensures ChainProcess(tss[i], gs.members[i], fuel) ==
                ([StageState(SplitMergeConfigs()[i][0], [], [Inserted(true)])], true)
    {
      assert tss[i][0] == MapLink(InsertCustomerIntoDatabase);
      assert gs.members[i] == [StageState(SplitMergeConfigs()[i][0], [Record(c)], [])];
      InsertStep(gs.members[i][0], c);
    }
    assert ChainProcess(tss[0], gs.members[0], fuel).1;
  }

  /** `is_successful` after a pop: only a popped `true` keeps the loop going. */
  predicate Succeeded(output: Option<Row>)
  {
    output == Some(Inserted(true))
  }

  /** One round of the driver loop: `process`, then `try_pop`. */
  function DriverRound(tss: seq<seq<Transform<Setup, Row, Row>>>, gs: GroupState<Setup, Row>, fuel: nat)
    : (r: (Option<Row>, GroupState<Setup, Row>))
    requires Inv(Join, gs) && Matches(tss, gs)
    ensures Inv(Join, r.1) && Matches(tss, r.1)
  {
    ProcessKeepsInv(Join, All, tss, gs, fuel);
    GroupPop(JoinAll(tss, gs, fuel).0)
  }

  /** `DriverRound` as a step function on group states; states outside the invariant never arise. */
  ghost function NextRound(tss: seq<seq<Transform<Setup, Row, Row>>>, fuel: nat)
    : GroupState<Setup, Row> -> (Option<Row>, GroupState<Setup, Row>)
  {
    gs => if Inv(Join, gs) && Matches(tss, gs) then DriverRound(tss, gs, fuel) else (None, gs)
  }

  /** On the states that arise, `NextRound` is `DriverRound`. */
  lemma NextRoundIs(tss: seq<seq<Transform<Setup, Row, Row>>>, fuel: nat, gs: GroupState<Setup, Row>)
    requires Inv(Join, gs) && Matches(tss, gs)
    ensures NextRound(tss, fuel)(gs) == DriverRound(tss, gs, fuel)
  {
  }

  /** Recording one more outcome in front of the rest of the loop's outcomes. */
  lemma AppendOutcome(prefix: seq<Option<Row>>, output: Option<Row>, rest: seq<Option<Row>>)
    ensures prefix + ([output] + rest) == (prefix + [output]) + rest
  {
  }

  /**
   * The driver loop, for at most `budget` rounds of `round`: the pops it makes,
   * and the state afterwards.
   */
  function Driven<S>(round: S -> (Option<Row>, S), s: S, budget: nat): (r: (seq<Option<Row>>, S))
    ensures |r.0| <= budget
    decreases budget
  {
    if budget == 0 then ([], s)
    else
      var (output, next) := round(s);
      if !Succeeded(output) then ([output], next)
      else
        var (rest, last) := Driven(round, next, budget - 1);
        ([output] + rest, last)
  }

  /**
   * The loop stops on the first pop that is not a `true`: every pop but the
   * last was a `true`, and a loop that stopped before the budget ran out
   * stopped on a pop that was not.
   */
  lemma {:induction false} DrivenStops<S>(round: S -> (Option<Row>, S), s: S, budget: nat)
    ensures var outcomes := Driven(round, s, budget).0;
            && (forall i :: 0 <= i < |outcomes| - 1 ==> Succeeded(outcomes[i]))
            && (|outcomes| < budget ==> outcomes != [] && !Succeeded(outcomes[|outcomes| - 1]))
    decreases budget
  {
    if budget > 0 {
      var (output, next) := round(s);
      if Succeeded(output) {
        DrivenStops(round, next, budget - 1);
        var rest := Driven(round, next, budget - 1).0;
        assert Driven(round, s, budget).0 == [output] + rest;
      }
    }
  }

  /** A round that pops a `true` is followed by the rest of the loop, with one round less. */
  lemma DrivenStep<S>(round: S -> (Option<Row>, S), s: S, budget: nat, output: Option<Row>, next: S)
    requires budget > 0 && round(s) == (output, next) && Succeeded(output)
    ensures var rest := Driven(round, next, budget - 1);
            Driven(round, s, budget) == ([output] + rest.0, rest.1)
  {
  }

  /** A round that pops anything but a `true` ends the loop. */
  lemma DrivenLast<S>(round: S -> (Option<Row>, S), s: S, budget: nat, output: Option<Row>, next: S)
    requires budget > 0 && round(s) == (output, next) && !Succeeded(output)
    ensures Driven(round, s, budget) == ([output], next)
  {
  }

  /**
   * What the loop has recorded, followed by what the rest of the loop records,
   * stays the whole loop's record across one round.
   */
  lemma DrivenGoesOn<S>(round: S -> (Option<Row>, S), whole: (seq<Option<Row>>, S), prefix: seq<Option<Row>>,
                        before: S, budget: nat, output: Option<Row>, after: S)
    requires budget > 0 && round(before) == (output, after)
    requires whole.0 == prefix + Driven(round, before, budget).0 && whole.1 == Driven(round, before, budget).1
    ensures Succeeded(output) ==>
              whole.0 == (prefix + [output]) + Driven(round, after, budget - 1).0
              && whole.1 == Driven(round, after, budget - 1).1
    ensures !Succeeded(output) ==> whole == (prefix + [output], after)
  {
    if Succeeded(output) {
      DrivenStep(round, before, budget, output, after);
      AppendOutcome(prefix, output, Driven(round, after, budget - 1).0);
    } else {
      DrivenLast(round, before, budget, output, after);
    }
  }

  /**
   * One round of the driver loop on the split-merge object: `process`, then
   * `try_pop`, which is what `DriverRound`, and so any `round` that implements it, does.
   */
  method Round(g: Group<Setup, Row>, fuel: nat,
               ghost round: GroupState<Setup, Row> -> (Option<Row>, GroupState<Setup, Row>))
    returns (output: Option<Row>)
    requires g.Valid() && g.mode == Join && g.choice == All && Implements(round, g.Transforms(), fuel)
    modifies g, g.Repr
    ensures g.Valid() && (output, g.State()) == round(old(g.State()))
  {
    g.StateInv();
    ghost var before := g.State();
    var _ := g.Process(fuel);
    output := g.TryPop();
    assert (output, g.State()) == DriverRound(g.Transforms(), before, fuel);
  }

  /** `round` does what `DriverRound` does on the states that arise. */
  ghost predicate Implements(round: GroupState<Setup, Row> -> (Option<Row>, GroupState<Setup, Row>),
                             tss: seq<seq<Transform<Setup, Row, Row>>>, fuel: nat)
  {
    forall gs {:trigger DriverRound(tss, gs, fuel)} :: Inv(Join, gs) && Matches(tss, gs) ==> round(gs) == DriverRound(tss, gs, fuel)
  }

  /** The driver loop of `main` over the split merge, bounded by `budget` rounds. */
  method Drive(g: Group<Setup, Row>, fuel: nat, budget: nat) returns (outcomes: seq<Option<Row>>)
    requires g.Valid() && g.mode == Join && g.choice == All
    modifies g, g.Repr
    ensures g.Valid() && (outcomes, g.State()) == Driven(NextRound(g.Transforms(), fuel), old(g.State()), budget)
  {
    forall gs | Inv(Join, gs) && Matches(g.Transforms(), gs)
      ensures NextRound(g.Transforms(), fuel)(gs) == DriverRound(g.Transforms(), gs, fuel)
    {
      NextRoundIs(g.Transforms(), fuel, gs);
    }
    outcomes := DriveBy(g, fuel, budget, NextRound(g.Transforms(), fuel));
  }

  /** The driver loop, for any step function on group states that does what one round does. */
  method DriveBy(g: Group<Setup, Row>, fuel: nat, budget: nat,
                 ghost round: GroupState<Setup, Row> -> (Option<Row>, GroupState<Setup, Row>))
    returns (outcomes: seq<Option<Row>>)
    requires g.Valid() && g.mode == Join && g.choice == All && Implements(round, g.Transforms(), fuel)
    modifies g, g.Repr
    ensures g.Valid() && (outcomes, g.State()) == Driven(round, old(g.State()), budget)
  {
    ghost var whole := Driven(round, g.State(), budget);
    outcomes := [];
    var isSuccessful := true;
    var remaining: nat := budget;
    assert [] + whole.0 == whole.0;
    while isSuccessful && remaining > 0
      invariant g.Valid() && Implements(round, g.Transforms(), fuel)
      invariant isSuccessful ==> whole.0 == outcomes + Driven(round, g.State(), remaining).0
      invariant isSuccessful ==> whole.1 == Driven(round, g.State(), remaining).1
      invariant !isSuccessful ==> whole == (outcomes, g.State())
    {
      ghost var before := g.State();
      ghost var prefix := outcomes;
      var output := Round(g, fuel, round);
      outcomes := outcomes + [output];
      isSuccessful := Succeeded(output);
      ghost var after := g.State();
      assert round(before) == (output, after);
      DrivenGoesOn(round, whole, prefix, before, remaining, output, after);
      remaining := remaining - 1;
      assert g.State() == after;
    }
    if isSuccessful {
      assert outcomes + [] == outcomes;
    }
  }

  /** The split merge after `push` of one customer. */
  function Loaded(c: Customer): GroupState<Setup, Row>
  {
    GroupState([[StageState(Repository("Primary"), [Record(c)], [])], [StageState(Repository("Mirror"), [Record(c)], [])]],
               0, 0, [false, false], [])
  }

  /** The split merge once both repositories have inserted and `k` of the two results are still to be popped. */
  function AfterInserts(k: nat): GroupState<Setup, Row>
    requires k <= 1
  {
    GroupState([[StageState(Repository("Primary"), [], [])],
                 [StageState(Repository("Mirror"), [], if k == 1 then [Inserted(true)] else [])]],
               if k == 1 then 1 else 0, 0, [false, false], [])
  }

  /** With nothing queued at either repository, `process` leaves the split merge as it is. */
  lemma IdleJoin(gs: GroupState<Setup, Row>, fuel: nat)
    requires |gs.members| == 2 && |gs.members[0]| == 1 && |gs.members[1]| == 1
    requires gs.members[0][0].inbox == [] && gs.members[1][0].inbox == []
    ensures JoinAll(SplitMergeTransforms(), gs, fuel).0 == gs
  {
    var tss := SplitMergeTransforms();
    forall i | 0 <= i < 2
      ensures ChainProcess(tss[i], gs.members[i], fuel).0 == gs.members[i]
    {
      assert tss[i][0] == MapLink(InsertCustomerIntoDatabase);
      IdleInsertStep(gs.members[i][0]);
    }
    assert JoinAll(tss, gs, fuel).0.members == gs.members;
  }

  /** The split merge once both repositories have inserted and neither result has been popped. */
  function BothInserted(): GroupState<Setup, Row>
  {
    GroupState([[StageState(Repository("Primary"), [], [Inserted(true)])],
                [StageState(Repository("Mirror"), [], [Inserted(true)])]],
               0, 0, [false, false], [])
  }

  /** The states the one-customer run passes through keep the group invariant. */
  lemma AfterInsertsInv(k: nat)
    requires k <= 1
    ensures Inv(Join, AfterInserts(k)) && Matches(SplitMergeTransforms(), AfterInserts(k))
  {
  }

  /** `push` of one customer into the fresh split merge queues it at both repositories. */
  lemma LoadedIsPushed(c: Customer)
    ensures Loaded(c) == GroupPush(Initial(SplitMergeConfigs()), Record(c))
    ensures Inv(Join, Loaded(c)) && Matches(SplitMergeTransforms(), Loaded(c))
  {
    var gs0 := GroupPush(Initial(SplitMergeConfigs()), Record(c));
    assert gs0.members[0] == [StageState(Repository("Primary"), [Record(c)], [])];
    assert gs0.members[1] == [StageState(Repository("Mirror"), [Record(c)], [])];
  }

  /** The `process` of round one: both repositories insert the customer. */
  lemma FirstJoin(c: Customer, fuel: nat)
    ensures JoinAll(SplitMergeTransforms(), Loaded(c), fuel).0 == BothInserted()
  {
    LoadedIsPushed(c);
    SplitMergeInsertsIntoBoth(c, fuel);
  }

  /** Round one: both repositories insert, and the pop takes Primary's `true`. */
  lemma FirstRound(c: Customer, fuel: nat)
    ensures Inv(Join, Loaded(c)) && Matches(SplitMergeTransforms(), Loaded(c))
    ensures DriverRound(SplitMergeTransforms(), Loaded(c), fuel) == (Some(Inserted(true)), AfterInserts(1))
  {
    LoadedIsPushed(c);
    FirstJoin(c, fuel);
    FirstPop();
  }

  lemma FirstPop()
    ensures GroupPop(BothInserted()) == (Some(Inserted(true)), AfterInserts(1))
  {
    var gs := BothInserted();
    assert Rotated(0, 0, 2) == 0 && Advance(0, 2) == 1;
    GroupPopTakesFirstReady(gs, 0);
    assert Popped([Inserted(true)]) == (Some(Inserted(true)), []);
    var popped := PopLast(gs.members[0]);
    assert popped.0 == Some(Inserted(true)) && |popped.1| == 1;
    assert popped.1[0] == StageState(Repository("Primary"), [], []);
    assert popped.1 == [StageState(Repository("Primary"), [], [])];
    assert gs.members[0 := PopLast(gs.members[0]).1] == AfterInserts(1).members;
  }

  lemma SecondPop()
    ensures GroupPop(AfterInserts(1)) == (Some(Inserted(true)), AfterInserts(0))
  {
    var gs := AfterInserts(1);
    assert Rotated(1, 0, 2) == 1 && Advance(1, 2) == 0;
    GroupPopTakesFirstReady(gs, 0);
    assert Popped([Inserted(true)]) == (Some(Inserted(true)), []);
    var popped := PopLast(gs.members[1]);
    assert popped.0 == Some(Inserted(true)) && |popped.1| == 1;
    assert popped.1[0] == StageState(Repository("Mirror"), [], []);
    assert popped.1 == [StageState(Repository("Mirror"), [], [])];
    assert gs.members[1 := PopLast(gs.members[1]).1] == AfterInserts(0).members;
  }

  /** Round two: nothing left to insert, and the pop takes Mirror's `true`. */
  lemma SecondRound(fuel: nat)
    requires Inv(Join, AfterInserts(1)) && Matches(SplitMergeTransforms(), AfterInserts(1))
    ensures DriverRound(SplitMergeTransforms(), AfterInserts(1), fuel) == (Some(Inserted(true)), AfterInserts(0))
  {
    IdleJoin(AfterInserts(1), fuel);
    SecondPop();
    assert DriverRound(SplitMergeTransforms(), AfterInserts(1), fuel) == GroupPop(AfterInserts(1));
  }

  /** Round three: nothing to insert and nothing to pop. */
  lemma ThirdRound(fuel: nat)
    requires Inv(Join, AfterInserts(0)) && Matches(SplitMergeTransforms(), AfterInserts(0))
    ensures DriverRound(SplitMergeTransforms(), AfterInserts(0), fuel) == (None, AfterInserts(0))
  {
    IdleJoin(AfterInserts(0), fuel);
  }

  /** Three rounds that pop `true`, `true`, then nothing: the loop records exactly these and stops. */
  lemma ThreeRounds<S>(round: S -> (Option<Row>, S), s0: S, s1: S, s2: S, budget: nat)
    requires budget >= 3
    requires round(s0) == (Some(Inserted(true)), s1)
    requires round(s1) == (Some(Inserted(true)), s2)
    requires round(s2) == (None, s2)
    ensures Driven(round, s0, budget).0 == [Some(Inserted(true)), Some(Inserted(true)), None]
  {
    DrivenLast(round, s2, budget - 2, None, s2);
    DrivenStep(round, s1, budget - 1, Some(Inserted(true)), s2);
    DrivenStep(round, s0, budget, Some(Inserted(true)), s1);
  }

  /** The rounds of the one-customer run, one by one. */
  lemma OneCustomerRounds(c: Customer, fuel: nat)
    ensures var round := NextRound(SplitMergeTransforms(), fuel);
            && round(Loaded(c)) == (Some(Inserted(true)), AfterInserts(1))
            && round(AfterInserts(1)) == (Some(Inserted(true)), AfterInserts(0))
            && round(AfterInserts(0)) == (None, AfterInserts(0))
  {
    AfterInsertsInv(0);
    AfterInsertsInv(1);
    FirstRound(c, fuel);
    SecondRound(fuel);
    ThirdRound(fuel);
    NextRoundIs(SplitMergeTransforms(), fuel, Loaded(c));
    NextRoundIs(SplitMergeTransforms(), fuel, AfterInserts(1));
    NextRoundIs(SplitMergeTransforms(), fuel, AfterInserts(0));
  }

  /**
   * The split-merge run of `main` for one customer: the first two rounds each
   * pop a `true` (one per repository) and the third pops nothing, which ends the loop.
   */
  lemma OneCustomerRun(c: Customer, fuel: nat, budget: nat)
    requires budget >= 3
    ensures Driven(NextRound(SplitMergeTransforms(), fuel), GroupPush(Initial(SplitMergeConfigs()), Record(c)), budget).0
              == [Some(Inserted(true)), Some(Inserted(true)), None]
  {
    LoadedIsPushed(c);
    OneCustomerRounds(c, fuel);
    ThreeRounds(NextRound(SplitMergeTransforms(), fuel), Loaded(c), AfterInserts(1), AfterInserts(0), budget);
  }
}
