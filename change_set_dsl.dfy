/**
 * `ChangeSetDsl`: the block of a `changeSet` call, which fills in the change set being built.
 * `preConditions` creates the change set's precondition container only if it has none yet,
 * overwrites all five of its options and appends the new conditions after the existing ones;
 * `changes` and `rollback` append the changes their block built to the forward and to the
 * rollback list respectively.
 *
 * The block of `changes` and `rollback` is a `ChangesDsl` block; it is represented by the list of
 * changes it built, in order (each `ChangesDsl` builder appends exactly one change).
 */
module ChangeSetDsl {
  import opened Wrappers
  import opened Liquibase
  import opened PreConditionsDsl

  // ---------------------------------------------------------------------------------------------
  // The part of a change set that the block fills in, as a value

  /** A precondition container's options and conditions. */
  datatype Preconditions = Preconditions(options: ContainerOptions, nested: seq<Precondition>)

  /** The preconditions (`None` while there is no container), forward changes and rollback changes. */
  datatype Body = Body(preconditions: Option<Preconditions>, changes: seq<Change>, rollbackChanges: seq<Change>)

  /** What a freshly constructed change set holds. */
  const EmptyBody := Body(None, [], [])

  /** The current contents of a precondition container reference. */
  function PreconditionsOf(pre: PreconditionContainer?): Option<Preconditions>
    reads pre
  {
    if pre == null then None else Some(Preconditions(pre.Options(), pre.nested))
  }

  function BodyOf(cs: ChangeSet): Body
    reads cs, cs.preconditions
  {
    Body(PreconditionsOf(cs.preconditions), cs.changes, cs.rollbackChanges)
  }

  // ---------------------------------------------------------------------------------------------
  // Blocks

  /** One call of a `ChangeSetDsl` block. */
  datatype BodyCall =
    | PreConditionsCall(options: ContainerOptions, block: seq<PreCall>)
    | ChangesCall(changes: seq<Change>)
    | RollbackCall(changes: seq<Change>)

  /** The conditions of a container, or none when there is no container. */
  function NestedOf(pre: Option<Preconditions>): seq<Precondition>
  {
    if pre.None? then [] else pre.value.nested
  }

  /** The effect of one call. */
  function Step(b: Body, c: BodyCall): Body
  {
    match c
    case PreConditionsCall(options, block) =>
      b.(preconditions := Some(Preconditions(options, NestedOf(b.preconditions) + Build(block))))
    case ChangesCall(changes) => b.(changes := b.changes + changes)
    case RollbackCall(changes) => b.(rollbackChanges := b.rollbackChanges + changes)
  }

  /** The effect of a block: its calls in order. */
  function Steps(b: Body, calls: seq<BodyCall>): Body
  {
    if calls == [] then b else Step(Steps(b, calls[..|calls| - 1]), calls[|calls| - 1])
  }

  // ---------------------------------------------------------------------------------------------
  // Reference views of a block and the lemmas relating them to `Steps`

  /** The forward changes of all `changes` calls, in call order. */
  function ForwardChanges(calls: seq<BodyCall>): seq<Change>
  {
    if calls == [] then []
    else ForwardChanges(calls[..|calls| - 1])
         + (if calls[|calls| - 1].ChangesCall? then calls[|calls| - 1].changes else [])
  }

  /** The rollback changes of all `rollback` calls, in call order. */
  function RollbackChanges(calls: seq<BodyCall>): seq<Change>
  {
    if calls == [] then []
    else RollbackChanges(calls[..|calls| - 1])
         + (if calls[|calls| - 1].RollbackCall? then calls[|calls| - 1].changes else [])
  }

  /** The conditions all `preConditions` calls build, in call order. */
  function AllConditions(calls: seq<BodyCall>): seq<Precondition>
  {
    if calls == [] then []
    else AllConditions(calls[..|calls| - 1])
         + (if calls[|calls| - 1].PreConditionsCall? then Build(calls[|calls| - 1].block) else [])
  }

  /** Whether some call of the block is a `preConditions` call. */
  predicate HasPreConditions(calls: seq<BodyCall>)
  {
    exists i :: 0 <= i < |calls| && calls[i].PreConditionsCall?
  }

  /**
   * `changes` only ever adds to the forward list and `rollback` only to the rollback list:
   * after a block, the forward list is extended by exactly the `changes` calls' changes and
   * the rollback list by exactly the `rollback` calls' changes, each in call order.
   */
  lemma {:induction false} StepsChanges(b: Body, calls: seq<BodyCall>)
    ensures Steps(b, calls).changes == b.changes + ForwardChanges(calls)
    ensures Steps(b, calls).rollbackChanges == b.rollbackChanges + RollbackChanges(calls)
  {
    if calls != [] {
      var init, last := calls[..|calls| - 1], calls[|calls| - 1];
      StepsChanges(b, init);
      assert Steps(b, calls) == Step(Steps(b, init), last);
      match last
      case PreConditionsCall(_, _) =>
        assert ForwardChanges(calls) == ForwardChanges(init) + [];
        assert RollbackChanges(calls) == RollbackChanges(init) + [];
      case ChangesCall(changes) =>
        assert ForwardChanges(calls) == ForwardChanges(init) + changes;
        assert RollbackChanges(calls) == RollbackChanges(init) + [];
      case RollbackCall(changes) =>
        assert ForwardChanges(calls) == ForwardChanges(init) + [];
        assert RollbackChanges(calls) == RollbackChanges(init) + changes;
    }
  }

  /**
   * Repeated `preConditions` calls accumulate: a container exists after the block exactly when
   * one existed before or the block calls `preConditions`, and its conditions are the ones it
   * had followed by those of every `preConditions` call, in call order.
   */
  lemma {:induction false} StepsPreconditions(b: Body, calls: seq<BodyCall>)
    ensures Steps(b, calls).preconditions.Some? <==> b.preconditions.Some? || HasPreConditions(calls)
    ensures NestedOf(Steps(b, calls).preconditions) == NestedOf(b.preconditions) + AllConditions(calls)
  {
    if calls != [] {
      var init, last := calls[..|calls| - 1], calls[|calls| - 1];
      StepsPreconditions(b, init);
      HasPreConditionsSnoc(calls);
      var before := Steps(b, init);
      assert Steps(b, calls) == Step(before, last);
      if last.PreConditionsCall? {
        assert AllConditions(calls) == AllConditions(init) + Build(last.block);
      } else {
        assert AllConditions(calls) == AllConditions(init) + [];
        assert Step(before, last).preconditions == before.preconditions;
      }
    }
  }

  /** A block calls `preConditions` exactly when its front does or its last call is one. */
  lemma HasPreConditionsSnoc(calls: seq<BodyCall>)
    requires calls != []
    ensures HasPreConditions(calls)
        <==> HasPreConditions(calls[..|calls| - 1]) || calls[|calls| - 1].PreConditionsCall?
  {
    var init := calls[..|calls| - 1];
    if HasPreConditions(calls) && !calls[|calls| - 1].PreConditionsCall? {
      var i :| 0 <= i < |calls| && calls[i].PreConditionsCall?;
      assert init[i].PreConditionsCall?;
    }
    if HasPreConditions(init) {
      var i :| 0 <= i < |init| && init[i].PreConditionsCall?;
      assert calls[i].PreConditionsCall?;
    }
  }

  /** The options of the container after a block are those of the block's last `preConditions` call. */
  lemma {:induction false} LastOptionsWin(b: Body, calls: seq<BodyCall>, i: nat)
    requires i < |calls| && calls[i].PreConditionsCall?
    requires forall j :: i < j < |calls| ==> !calls[j].PreConditionsCall?
    ensures Steps(b, calls).preconditions.Some?
    ensures Steps(b, calls).preconditions.value.options == calls[i].options
  {
    if i < |calls| - 1 {
      LastOptionsWin(b, calls[..|calls| - 1], i);
    }
  }

  // ---------------------------------------------------------------------------------------------
  // The builder

  class ChangeSetDsl {
    const cs: ChangeSet

    constructor (cs: ChangeSet)
      ensures this.cs == cs
    {
      this.cs := cs;
    }

    /**
     * Creates the container if the change set has none and otherwise reuses it, overwrites its
     * options and appends the block's conditions.
     */
    method PreConditions(onError: ErrorOption := ErrorHalt, onErrorMessage: Option<string> := None,
                         onFail: FailOption := FailHalt, onFailMessage: Option<string> := None,
                         onSqlOutput: OnSqlOutputOption := SqlOutputIgnore, block: seq<PreCall>)
      modifies cs`preconditions, cs.preconditions
      ensures old(cs.preconditions) != null ==> cs.preconditions == old(cs.preconditions)
      ensures old(cs.preconditions) == null ==> cs.preconditions != null && fresh(cs.preconditions)
      ensures BodyOf(cs) == Step(old(BodyOf(cs)), PreConditionsCall(
                ContainerOptions(onError, onErrorMessage, onFail, onFailMessage, onSqlOutput), block))
    {
      if cs.preconditions == null {
        var container := new PreconditionContainer();
        cs.preconditions := container;
      }
      FillContainer(cs.preconditions, ContainerOptions(onError, onErrorMessage, onFail, onFailMessage, onSqlOutput),
                    block);
    }

    /** Adds the built changes to the forward list, one by one in order. */
    method Changes(built: seq<Change>)
      modifies cs`changes
      ensures cs.changes == old(cs.changes) + built
    {
      for i := 0 to |built|
        invariant cs.changes == old(cs.changes) + built[..i]
      {
        assert built[..i + 1] == built[..i] + [built[i]];
        cs.changes := cs.changes + [built[i]];
      }
      assert built[..|built|] == built;
    }

    /** Adds the built changes to the rollback list, one by one in order; the forward list stays as it was. */
    method Rollback(built: seq<Change>)
      modifies cs`rollbackChanges
      ensures cs.rollbackChanges == old(cs.rollbackChanges) + built
      ensures cs.changes == old(cs.changes)
    {
      for i := 0 to |built|
        invariant cs.rollbackChanges == old(cs.rollbackChanges) + built[..i]
      {
        assert built[..i + 1] == built[..i] + [built[i]];
        cs.rollbackChanges := cs.rollbackChanges + [built[i]];
      }
      assert built[..|built|] == built;
    }

    /** Runs a block: its calls in order. An existing container is kept, never replaced. */
    method Run(calls: seq<BodyCall>)
      modifies cs`preconditions, cs`changes, cs`rollbackChanges, cs.preconditions
      ensures old(cs.preconditions) != null ==> cs.preconditions == old(cs.preconditions)
      ensures cs.preconditions == null || cs.preconditions == old(cs.preconditions) || fresh(cs.preconditions)
      ensures BodyOf(cs) == Steps(old(BodyOf(cs)), calls)
    {
      for i := 0 to |calls|
        invariant old(cs.preconditions) != null ==> cs.preconditions == old(cs.preconditions)
        invariant cs.preconditions == null || cs.preconditions == old(cs.preconditions) || fresh(cs.preconditions)
        invariant BodyOf(cs) == Steps(old(BodyOf(cs)), calls[..i])
      {
        assert calls[..i + 1][..i] == calls[..i];
        match calls[i]
        case PreConditionsCall(options, block) =>
          PreConditions(options.onError, options.onErrorMessage, options.onFail, options.onFailMessage,
                        options.onSqlOutput, block);
        case ChangesCall(built) => Changes(built);
        case RollbackCall(built) => Rollback(built);
      }
      assert calls[..|calls|] == calls;
    }
  }
}
