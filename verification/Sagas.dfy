/** Sagas: `lib/cadence/saga/saga.rb` and `concern.rb`. */
module Sagas {
  import opened Base

  /** A raised exception: its class, and whether `rescue StandardError` catches it. */
  datatype Failure = Failure(kind: string, standard: bool)

  /** What an activity does to the world, and how it fails if it does. */
  type Performs<!W> = (string, W) -> (W, Option<Failure>)

  /** What a block does, in order. `Perform` is `execute_activity!`, which raises when the activity fails; `Attempt`
      is the same call inside a rescue of the block's own. */
  datatype Statement = Perform(activity: string) | Attempt(activity: string) | Register(compensation: string)
                     | Raise(failure: Failure)

  datatype Configuration = Configuration(compensateOn: seq<string>, doNotCompensateOn: seq<string>)

  /** What `run_saga` does: return a completed or a rolled-back result, or raise. */
  datatype Outcome = Completed | RolledBack(reason: Failure) | Raised(failure: Failure)

  /** `compensate?`. */
  predicate Compensates(failure: Failure, configuration: Configuration) {
    if configuration.compensateOn != [] then failure.kind in configuration.compensateOn
    else failure.kind !in configuration.doNotCompensateOn
  }

  /** Where a block leaves the world, the compensations it registered and the exception that ended it. */
  datatype Progress<+W> = Progress(world: W, registered: seq<string>, raised: Option<Failure>)

  function RunBlock<W>(perform: Performs<W>, world: W, block: seq<Statement>): Progress<W> {
    if block == [] then Progress(world, [], None)
    else
      match block[0]
      case Perform(a) =>
        var (after, failure) := perform(a, world);
        if failure.Some? then Progress(after, [], failure) else RunBlock(perform, after, block[1..])
      case Attempt(a) => RunBlock(perform, perform(a, world).0, block[1..])
      case Register(c) =>
        var rest := RunBlock(perform, world, block[1..]);
        rest.(registered := [c] + rest.registered)
      case Raise(f) => Progress(world, [], Some(f))
  }

  /** Where running compensations from the last to the first leaves the world, which ran, and what one raised. */
  datatype Unwound<+W> = Unwound(world: W, ran: seq<string>, raised: Option<Failure>)

  function Unwind<W>(perform: Performs<W>, world: W, compensations: seq<string>): Unwound<W> {
    if compensations == [] then Unwound(world, [], None)
    else
      var n := |compensations| - 1;
      var (after, failure) := perform(compensations[n], world);
      if failure.Some? then Unwound(after, [compensations[n]], failure)
      else
        var rest := Unwind(perform, after, compensations[..n]);
        rest.(ran := [compensations[n]] + rest.ran)
  }

  function Reversed(s: seq<string>): (r: seq<string>)
    ensures |r| == |s|
    ensures forall i :: 0 <= i < |s| ==> r[i] == s[|s| - 1 - i]
  {
    seq(|s|, i requires 0 <= i < |s| => s[|s| - 1 - i])
  }

  // ----- The objects -----

  /** The workflow context, as far as a saga uses it. */
  class Context<!W> {
    const perform: Performs<W>
    var world: W
    var executed: seq<string>

    constructor (perform: Performs<W>, world: W)
      ensures this.perform == perform && this.world == world && executed == []
    {
      this.perform, this.world, executed := perform, world, [];
    }

    /** `execute_activity!`: the failure is what it raises. */
    method ExecuteActivity(activity: string) returns (failure: Option<Failure>)
      modifies this
      ensures (world, failure) == perform(activity, old(world))
      ensures executed == old(executed) + [activity]
    {
      var (after, raised) := perform(activity, world);
      world, failure, executed := after, raised, executed + [activity];
    }
  }

  class Saga<!W> {
    const context: Context<W>
    var compensations: seq<string>

    constructor (context: Context<W>)
      ensures this.context == context && compensations == []
    {
      this.context, compensations := context, [];
    }

    method AddCompensation(activity: string)
      modifies this
      ensures compensations == old(compensations) + [activity]
    {
      compensations := compensations + [activity];
    }

    /** Walks the compensations backwards and stops where one raises. */
    method Compensate() returns (failure: Option<Failure>)
      modifies context
      ensures var u := Unwind(context.perform, old(context.world), compensations);
              && context.world == u.world && failure == u.raised
              && context.executed == old(context.executed) + u.ran
    {
      var i := |compensations|;
      failure := None;
      ghost var whole := Unwind(context.perform, context.world, compensations);
      assert compensations[..i] == compensations;
      while i > 0
        invariant 0 <= i <= |compensations|
        invariant failure == None
        invariant var u := Unwind(context.perform, context.world, compensations[..i]);
                  && u.world == whole.world && u.raised == whole.raised
                  && context.executed + u.ran == old(context.executed) + whole.ran
      {
        i := i - 1;
        assert compensations[..i + 1][..i] == compensations[..i];
        failure := context.ExecuteActivity(compensations[i]);
        if failure.Some? {
          return;
        }
      }
    }
  }

  /** The block given to `run_saga`, as far as it goes. */
  method CallBlock<W>(saga: Saga<W>, block: seq<Statement>) returns (raised: Option<Failure>)
    requires saga.compensations == []
    modifies saga, saga.context
    ensures var p := RunBlock(saga.context.perform, old(saga.context.world), block);
            saga.context.world == p.world && saga.compensations == p.registered && raised == p.raised
  {
    var context := saga.context;
    var i := 0;
    raised := None;
    ghost var whole := RunBlock(context.perform, context.world, block);
    assert block[0..] == block;
    while i < |block|
      invariant 0 <= i <= |block|
      invariant raised == None
      invariant var p := RunBlock(context.perform, context.world, block[i..]);
                && p.world == whole.world && p.raised == whole.raised
                && saga.compensations + p.registered == whole.registered
    {
      assert block[i..][1..] == block[i + 1..];
      match block[i] {
        case Perform(a) =>
          raised := context.ExecuteActivity(a);
          if raised.Some? {
            return;
          }
        case Attempt(a) =>
          var rescued := context.ExecuteActivity(a);
        case Register(c) => saga.AddCompensation(c);
        case Raise(f) => return Some(f);
      }
      i := i + 1;
    }
  }

  /** What `run_saga` promises: without an exception the block's effects stay and the result is completed; an
      exception that is to be compensated leaves what the compensations leave; any other passes through and nothing is
      undone. */
  method RunSaga<W>(context: Context<W>, configuration: Configuration, block: seq<Statement>) returns (outcome: Outcome)
    modifies context
    ensures (outcome, context.world) == SagaResult(context.perform, old(context.world), configuration, block)
  {
    var saga := new Saga(context);
    var raised := CallBlock(saga, block);
    if raised.None? {
      return Completed;
    }
    if !raised.value.standard || !Compensates(raised.value, configuration) {
      return Raised(raised.value);
    }
    var failure := saga.Compensate();
    outcome := if failure.Some? then Raised(failure.value) else RolledBack(raised.value);
  }

  function SagaResult<W>(perform: Performs<W>, world: W, configuration: Configuration, block: seq<Statement>):
    (Outcome, W)
  {
    var p := RunBlock(perform, world, block);
    if p.raised.None? then (Completed, p.world)
    else if !p.raised.value.standard || !Compensates(p.raised.value, configuration) then
      (Raised(p.raised.value), p.world)
    else
      var u := Unwind(perform, p.world, p.registered);
      (if u.raised.Some? then Raised(u.raised.value) else RolledBack(p.raised.value), u.world)
  }

  // ----- What it amounts to -----

  /** A standard error that is on the first list or, when that is empty, not on the second. */
  predicate ToCompensate(f: Failure, c: Configuration) {
    f.standard && (f.kind in c.compensateOn || (c.compensateOn == [] && f.kind !in c.doNotCompensateOn))
  }

  /** A call of activity `c` ended in this world with this failure. */
  ghost predicate EndsWith<W(!new)>(perform: Performs<W>, c: string, after: W, failure: Option<Failure>) {
    exists before: W :: perform(c, before) == (after, failure)
  }

  /** The compensations run newest first, each at most once; all of them when none raises, and when one does it is the
      last to run. */
  lemma {:induction false} CompensationOrder<W(!new)>(perform: Performs<W>, world: W, compensations: seq<string>)
    ensures var u := Unwind(perform, world, compensations);
            && u.ran <= Reversed(compensations)
            && (u.raised.None? ==> u.ran == Reversed(compensations))
            && (u.raised.Some? ==> u.ran != [] && EndsWith(perform, u.ran[|u.ran| - 1], u.world, u.raised))
  {
    if compensations != [] {
      var n := |compensations| - 1;
      var (after, failure) := perform(compensations[n], world);
      assert Reversed(compensations) == [compensations[n]] + Reversed(compensations[..n]);
      if failure.None? {
        CompensationOrder(perform, after, compensations[..n]);
      } else {
        assert perform(Unwind(perform, world, compensations).ran[0], world) == (after, failure);
      }
    }
  }

  /** A compensation raises and all have run nevertheless, exactly when it is the oldest one that raises. */
  lemma {:induction false} OldestRaises<W(!new)>(perform: Performs<W>, world: W, compensations: seq<string>)
    requires compensations != []
    ensures
      var u, younger := Unwind(perform, world, compensations), Unwind(perform, world, compensations[1..]);
      u.raised.Some? && |u.ran| == |compensations|
      <==> (younger.raised.None? && perform(compensations[0], younger.world).1.Some?)
  {
    var n := |compensations| - 1;
    var (after, failure) := perform(compensations[n], world);
    CompensationOrder(perform, world, compensations);
    if n == 0 {
      assert compensations[..0] == [] && compensations[1..] == [];
    } else {
      assert compensations[1..][..n - 1] == compensations[..n][1..];
      if failure.None? {
        OldestRaises(perform, after, compensations[..n]);
      }
    }
  }

  /** A block runs its statements one after the other, up to the first that raises. */
  lemma {:induction false} BlockInOrder<W>(perform: Performs<W>, world: W, a: seq<Statement>, b: seq<Statement>)
    ensures
      var first := RunBlock(perform, world, a);
      RunBlock(perform, world, a + b)
      == if first.raised.Some? then first
         else
           var rest := RunBlock(perform, first.world, b);
           rest.(registered := first.registered + rest.registered)
  {
    if a == [] {
      assert a + b == b;
    } else {
      assert (a + b)[1..] == a[1..] + b;
      match a[0]
      case Perform(activity) =>
        var (after, failure) := perform(activity, world);
        if failure.None? {
          BlockInOrder(perform, after, a[1..], b);
        }
      case Attempt(activity) => BlockInOrder(perform, perform(activity, world).0, a[1..], b);
      case Register(c) => BlockInOrder(perform, world, a[1..], b);
      case Raise(f) =>
    }
  }

  /** What each statement does: an activity changes the world and its failure ends the block, unless the block rescues
      it; a registration only adds a compensation. */
  lemma OneStatement<W>(perform: Performs<W>, world: W, s: Statement)
    ensures
      RunBlock(perform, world, [s])
      == match s
         case Perform(a) => Progress(perform(a, world).0, [], perform(a, world).1)
         case Attempt(a) => Progress(perform(a, world).0, [], None)
         case Register(c) => Progress(world, [c], None)
         case Raise(f) => Progress(world, [], Some(f))
  {
    assert [s][1..] == [];
  }

  /** Compensation `c` takes the world back to where it was. */
  predicate Undoes<W(==)>(perform: Performs<W>, c: string, after: W, before: W) {
    perform(c, after) == (before, None)
  }

  /** A block written as sagas are meant to be: an activity that fails changes nothing, and one that succeeds is
      followed at once by the registration of a compensation that undoes it there. */
  predicate WellCompensated<W(==)>(perform: Performs<W>, world: W, block: seq<Statement>)
    decreases |block|, 1
  {
    if block == [] then true
    else
      match block[0]
      case Raise(_) => true
      case Register(c) => Undoes(perform, c, world, world) && WellCompensated(perform, world, block[1..])
      case Perform(a) =>
        var (after, failure) := perform(a, world);
        if failure.Some? then after == world else UndoneNext(perform, world, after, block)
      case Attempt(a) =>
        var (after, failure) := perform(a, world);
        if failure.Some? then after == world && WellCompensated(perform, world, block[1..])
        else UndoneNext(perform, world, after, block)
  }

  predicate UndoneNext<W(==)>(perform: Performs<W>, before: W, after: W, block: seq<Statement>)
    requires block != []
    decreases |block|, 0
  {
    && |block| > 1 && block[1].Register? && Undoes(perform, block[1].compensation, after, before)
    && WellCompensated(perform, after, block[2..])
  }

  /** One more compensation at the bottom of the stack runs last. */
  lemma {:induction false} UnwindBottom<W>(perform: Performs<W>, world: W, c: string, rest: seq<string>)
    ensures var u := Unwind(perform, world, rest);
            u.raised.None? ==>
              var v := Unwind(perform, world, [c] + rest);
              var (end, failure) := perform(c, u.world);
              v.world == end && v.raised == failure
  {
    var all := [c] + rest;
    if rest == [] {
      assert all[..0] == [];
    } else {
      var n := |rest| - 1;
      assert all[..|all| - 1] == [c] + rest[..n];
      UnwindBottom(perform, perform(rest[n], world).0, c, rest[..n]);
    }
  }

  lemma {:induction false} BlockUndone<W>(perform: Performs<W>, world: W, block: seq<Statement>)
    requires WellCompensated(perform, world, block)
    ensures var p := RunBlock(perform, world, block);
            var u := Unwind(perform, p.world, p.registered);
            u.raised.None? && u.world == world
    decreases |block|
  {
    if block != [] && !block[0].Raise? {
      var p := RunBlock(perform, world, block);
      if block[0].Register? {
        BlockUndone(perform, world, block[1..]);
        UnwindBottom(perform, p.world, block[0].compensation, RunBlock(perform, world, block[1..]).registered);
      } else {
        var (after, failure) := perform(block[0].activity, world);
        if failure.None? {
          assert block[1..][1..] == block[2..] && block[1..][0] == block[1];
          BlockUndone(perform, after, block[2..]);
          UnwindBottom(perform, p.world, block[1].compensation, RunBlock(perform, after, block[2..]).registered);
        } else if block[0].Attempt? {
          BlockUndone(perform, world, block[1..]);
        }
      }
    }
  }

  /** Undo: wherever a well-compensated block is aborted by an error that is to be compensated, the saga restores the
      world it started from and reports that error; each registered compensation has run exactly once, in reverse. */
  lemma SagaUndo<W(!new)>(perform: Performs<W>, world: W, configuration: Configuration, block: seq<Statement>)
    requires WellCompensated(perform, world, block)
    ensures var p := RunBlock(perform, world, block);
            p.raised.Some? && ToCompensate(p.raised.value, configuration) ==>
              && SagaResult(perform, world, configuration, block) == (RolledBack(p.raised.value), world)
              && Unwind(perform, p.world, p.registered).ran == Reversed(p.registered)
  {
    var p := RunBlock(perform, world, block);
    BlockUndone(perform, world, block);
    CompensationOrder(perform, p.world, p.registered);
  }

  /** A rollback is reported exactly when the block raised an error to compensate and no compensation raised. */
  lemma RolledBackExactlyWhen<W(!new)>(perform: Performs<W>, world: W, configuration: Configuration,
          block: seq<Statement>)
    ensures var p := RunBlock(perform, world, block);
            SagaResult(perform, world, configuration, block).0.RolledBack? <==>
              && p.raised.Some? && ToCompensate(p.raised.value, configuration)
              && Unwind(perform, p.world, p.registered).ran == Reversed(p.registered)
              && Unwind(perform, p.world, p.registered).raised.None?
  {
    var p := RunBlock(perform, world, block);
    CompensationOrder(perform, p.world, p.registered);
  }

  /** How the two lists decide, for any block that ends with an exception. A list of errors to compensate on is the only
      one that counts: an error on it is compensated, any other passes through. Without such a list, exactly the errors
      not to compensate on pass through. What is no standard error always passes through. An error that passes through
      is raised in the world that the block left. */
  lemma ChoiceOfErrors<W>(perform: Performs<W>, world: W, on: seq<string>, notOn: seq<string>, block: seq<Statement>)
    requires RunBlock(perform, world, block).raised.Some?
    ensures
      var p := RunBlock(perform, world, block);
      var error, u := p.raised.value, Unwind(perform, p.world, p.registered);
      var passed := (Raised(error), p.world);
      var compensated := (if u.raised.Some? then Raised(u.raised.value) else RolledBack(error), u.world);
      var result := SagaResult(perform, world, Configuration(on, notOn), block);
      && (!error.standard ==> result == passed)
      && (error.standard && error.kind in on ==> result == compensated)
      && (on != [] && error.kind !in on ==> result == passed)
      && (on == [] && error.kind in notOn ==> result == passed)
      && (error.standard && on == [] && error.kind !in notOn ==> result == compensated)
  {
  }
}
