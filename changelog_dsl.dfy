/**
 * `ChangelogDsl` and the top-level `ChangeLog` function. `ChangeLog` creates a change log, sets
 * its paths, context filter and quoting strategy, and runs its block. The block adds change
 * sets (each fully built, its own block included, before it is added), the change log's own
 * preconditions, properties, and the change visitors of `removeChangeSetProperty`.
 *
 * As in the other builders, a block is a script: the sequence of calls it makes.
 */
module ChangelogDsl {
  import opened Wrappers
  import opened Liquibase
  import opened PreConditionsDsl
  import opened ChangeSetDsl
  import Mikrator

  // ---------------------------------------------------------------------------------------------
  // Blocks

  /** The arguments of a `changeSet` call. */
  datatype ChangeSetArgs = ChangeSetArgs(
    id: string, author: string, comments: Option<string>, contextFilter: Option<string>, created: Option<string>,
    dbms: Option<string>, failOnError: Option<bool>, filePath: string, ignore: bool, labels: Option<string>,
    logicalFilePath: Option<string>, objectQuotingStrategy: Option<ObjectQuotingStrategy>,
    onValidationFail: ValidationFailOption, runAlways: bool, runInTransaction: bool, runOnChange: bool,
    runOrder: Option<string>, runWith: Option<string>, runWithSpoolFile: Option<string>,
    validCheckSums: seq<string>)

  /** One call of a `ChangelogDsl` block. */
  datatype ChangelogCall =
    | ChangeSetCall(args: ChangeSetArgs, body: seq<BodyCall>)
    | ChangeLogPreConditionsCall(options: ContainerOptions, block: seq<PreCall>)
    | PropertyCall(name: string, value: string, context: Option<string>, dbms: Option<string>, global: bool,
                   labels: Option<string>)
    | RemoveChangeSetPropertyCall(change: string, remove: string, dbms: Option<string>)

  // ---------------------------------------------------------------------------------------------
  // The change log as a value

  /** Everything a change set holds: the arguments `changeSet` stored in it, and its body. */
  datatype ChangeSetValue = ChangeSetValue(args: ChangeSetArgs, body: Body)

  /** The attributes of a change set, in the shape of the `changeSet` arguments that set them. */
  function ArgsOf(cs: Liquibase.ChangeSet): ChangeSetArgs
    reads cs
  {
    ChangeSetArgs(cs.id, cs.author, cs.comments, cs.contextFilter, cs.created, cs.dbmsList, cs.failOnError,
                  cs.filePath, cs.ignore, cs.labels, cs.logicalFilePath, cs.objectQuotingStrategy,
                  cs.onValidationFail, cs.alwaysRun, cs.runInTransaction, cs.runOnChange, cs.runOrder, cs.runWith,
                  cs.runWithSpoolFile, cs.validCheckSums)
  }

  /** The precondition containers of a list of change sets. */
  function Containers(changeSets: seq<Liquibase.ChangeSet>): set<PreconditionContainer?>
    reads changeSets
  {
    if changeSets == [] then {}
    else Containers(changeSets[..|changeSets| - 1]) + {changeSets[|changeSets| - 1].preconditions}
  }

  /** The contents of a list of change sets, in order. */
  function Values(changeSets: seq<Liquibase.ChangeSet>): (r: seq<ChangeSetValue>)
    reads changeSets, Containers(changeSets)
    ensures |r| == |changeSets|
    ensures forall i :: 0 <= i < |changeSets| ==>
              r[i] == ChangeSetValue(ArgsOf(changeSets[i]), BodyOf(changeSets[i]))
  {
    if changeSets == [] then []
    else
      var init := changeSets[..|changeSets| - 1];
      assert Containers(init) <= Containers(changeSets);
      Values(init) + [ChangeSetValue(ArgsOf(changeSets[|changeSets| - 1]), BodyOf(changeSets[|changeSets| - 1]))]
  }

  /** Adding a change set at the end adds its contents at the end. */
  lemma ValuesSnoc(changeSets: seq<Liquibase.ChangeSet>, cs: Liquibase.ChangeSet)
    ensures Values(changeSets + [cs]) == Values(changeSets) + [ChangeSetValue(ArgsOf(cs), BodyOf(cs))]
  {
    assert (changeSets + [cs])[..|changeSets|] == changeSets;
  }

  /** The contents of change sets that neither they nor their containers changed are unchanged. */
  twostate lemma {:induction false} ValuesUnchanged(changeSets: seq<Liquibase.ChangeSet>)
    requires forall i :: 0 <= i < |changeSets| ==> old(allocated(changeSets[i])) && unchanged(changeSets[i])
    requires forall i :: 0 <= i < |changeSets| && changeSets[i].preconditions != null ==>
               old(allocated(changeSets[i].preconditions)) && unchanged(changeSets[i].preconditions)
    ensures Values(changeSets) == old(Values(changeSets))
  {
    if changeSets != [] {
      ValuesUnchanged(changeSets[..|changeSets| - 1]);
    }
  }

  /** What a change-log block changes: the preconditions, visitors, properties and change sets. */
  datatype Log = Log(preconditions: Option<Preconditions>, changeVisitors: seq<ChangeVisitor>,
                     parameters: seq<ChangeLogProperty>, changeSets: seq<ChangeSetValue>)

  function LogOf(cl: DatabaseChangeLog): Log
    reads cl, cl.preconditions, cl.changeSets, Containers(cl.changeSets)
  {
    Log(PreconditionsOf(cl.preconditions), cl.changeVisitors, cl.parameters, Values(cl.changeSets))
  }

  /**
   * The change log's own precondition container is not also the container of one of its change
   * sets. A change log built by `ChangeLog` always has separate containers: each is created by
   * its own `preConditions` call.
   */
  predicate Separate(cl: DatabaseChangeLog)
    reads cl, cl.changeSets
  {
    cl.preconditions == null
    || forall i :: 0 <= i < |cl.changeSets| ==> cl.changeSets[i].preconditions != cl.preconditions
  }

  /**
   * The visitors `removeChangeSetProperty` leaves: one more, loaded with `dbms` and `remove`,
   * when the factory makes an add-column visitor; the same visitors otherwise.
   */
  function VisitorsAfter(visitors: seq<ChangeVisitor>, created: Option<ChangeVisitor>, remove: string,
                         dbms: Option<string>): (r: seq<ChangeVisitor>)
    ensures created.Some? && created.value.AddColumnChangeVisitor? ==>
              r == visitors + [AddColumnChangeVisitor(dbms, Some(remove))]
    ensures !(created.Some? && created.value.AddColumnChangeVisitor?) ==> r == visitors
  {
    match created
    case Some(AddColumnChangeVisitor(_, _)) => visitors + [AddColumnChangeVisitor(dbms, Some(remove))]
    case _ => visitors
  }

  /** The effect of one call; `factory` is Liquibase's `ChangeVisitorFactory.create`. */
  function LogStep(log: Log, c: ChangelogCall, factory: string -> Option<ChangeVisitor>): Log
  {
    match c
    case ChangeSetCall(args, body) =>
      log.(changeSets := log.changeSets + [ChangeSetValue(args, Steps(EmptyBody, body))])
    case ChangeLogPreConditionsCall(options, block) =>
      log.(preconditions := Some(Preconditions(options, NestedOf(log.preconditions) + Build(block))))
    case PropertyCall(name, value, context, dbms, global, labels) =>
      log.(parameters := log.parameters + [ChangeLogProperty(name, value, context, labels, dbms, global)])
    case RemoveChangeSetPropertyCall(change, remove, dbms) =>
      log.(changeVisitors := VisitorsAfter(log.changeVisitors, factory(change), remove, dbms))
  }

  function LogSteps(log: Log, calls: seq<ChangelogCall>, factory: string -> Option<ChangeVisitor>): Log
  {
    if calls == [] then log else LogStep(LogSteps(log, calls[..|calls| - 1], factory), calls[|calls| - 1], factory)
  }

  /**
   * The change sets the block's `changeSet` calls add, in call order: each holds its call's
   * arguments and the body its own block builds.
   */
  function AddedChangeSets(calls: seq<ChangelogCall>): seq<ChangeSetValue>
  {
    if calls == [] then []
    else AddedChangeSets(calls[..|calls| - 1])
         + (if calls[|calls| - 1].ChangeSetCall?
            then [ChangeSetValue(calls[|calls| - 1].args, Steps(EmptyBody, calls[|calls| - 1].body))]
            else [])
  }

  /**
   * Change sets appear in call order: after a block, the change log holds the change sets it
   * had, followed by one change set per `changeSet` call, in the order of the calls, each holding
   * its call's arguments and the body its block builds. (`addChangeSet`
   * is an append here; Liquibase's own placement by `runOrder` is not modelled, so this is the
   * order of a change log whose change sets give no `runOrder`.)
   */
  lemma {:induction false} ChangeSetsInCallOrder(log: Log, calls: seq<ChangelogCall>,
                                                 factory: string -> Option<ChangeVisitor>)
    ensures LogSteps(log, calls, factory).changeSets == log.changeSets + AddedChangeSets(calls)
  {
    if calls != [] {
      ChangeSetsInCallOrder(log, calls[..|calls| - 1], factory);
    }
  }

  /**
   * A visitor is registered only for an add-column visitor: a block whose `removeChangeSetProperty`
   * calls all get `null` (or another kind of visitor) from the factory leaves the visitors as they were.
   */
  lemma {:induction false} UnknownVisitorsIgnored(log: Log, calls: seq<ChangelogCall>,
                                                  factory: string -> Option<ChangeVisitor>)
    requires forall i :: 0 <= i < |calls| && calls[i].RemoveChangeSetPropertyCall? ==>
               !(factory(calls[i].change).Some? && factory(calls[i].change).value.AddColumnChangeVisitor?)
    ensures LogSteps(log, calls, factory).changeVisitors == log.changeVisitors
  {
    if calls != [] {
      UnknownVisitorsIgnored(log, calls[..|calls| - 1], factory);
    }
  }

  function Last<T>(s: seq<T>): T
    requires s != []
  {
    s[|s| - 1]
  }

  /** Whether a change set holds what `changeSet` sets from its arguments, for change log `cl`. */
  ghost predicate BuiltFrom(cs: Liquibase.ChangeSet, cl: DatabaseChangeLog, a: ChangeSetArgs)
    reads cs
  {
    cs.changeLog == cl && ArgsOf(cs) == a
  }

  /**
   * The first half of `changeSet`: construct the change set and set its attributes. Labels are
   * set only when given (otherwise the change set keeps Liquibase's default), and every valid
   * checksum is added, in order.
   */
  method NewChangeSet(cl: DatabaseChangeLog, a: ChangeSetArgs) returns (cs: Liquibase.ChangeSet)
    ensures fresh(cs)
    ensures BuiltFrom(cs, cl, a)
    ensures BodyOf(cs) == EmptyBody
  {
    cs := new Liquibase.ChangeSet(a.id, a.author, a.runAlways, a.runOnChange, a.filePath, a.contextFilter, a.dbms,
                                  a.runWith, a.runWithSpoolFile, a.runInTransaction, a.objectQuotingStrategy, cl);
    SetAttributes(cs, a);
    AddValidCheckSums(cs, a.validCheckSums);
  }

  /** `changeSet` before the change set is added: the new change set, with its block run on it. */
  method BuildChangeSet(cl: DatabaseChangeLog, a: ChangeSetArgs, body: seq<BodyCall>)
    returns (cs: Liquibase.ChangeSet)
    ensures fresh(cs)
    ensures cs.preconditions == null || fresh(cs.preconditions)
    ensures BuiltFrom(cs, cl, a)
    ensures BodyOf(cs) == Steps(EmptyBody, body)
  {
    cs := NewChangeSet(cl, a);
    var dsl := new ChangeSetDsl(cs);
    dsl.Run(body);
  }

  /** The attributes `changeSet` sets after construction; labels only when given. */
  method SetAttributes(cs: Liquibase.ChangeSet, a: ChangeSetArgs)
    modifies cs`created, cs`failOnError, cs`ignore, cs`labels, cs`logicalFilePath, cs`onValidationFail,
             cs`runOrder, cs`comments
    ensures cs.created == a.created && cs.failOnError == a.failOnError && cs.ignore == a.ignore
    ensures cs.labels == if a.labels.Some? then a.labels else old(cs.labels)
    ensures cs.logicalFilePath == a.logicalFilePath && cs.onValidationFail == a.onValidationFail
    ensures cs.runOrder == a.runOrder && cs.comments == a.comments
  {
    cs.created := a.created;
    cs.failOnError := a.failOnError;
    cs.ignore := a.ignore;
    if a.labels.Some? {
      cs.labels := a.labels;
    }
    cs.logicalFilePath := a.logicalFilePath;
    cs.onValidationFail := a.onValidationFail;
    cs.runOrder := a.runOrder;
    cs.comments := a.comments;
  }

  /** Adds every valid checksum to the change set, in order. */
  method AddValidCheckSums(cs: Liquibase.ChangeSet, sums: seq<string>)
    modifies cs`validCheckSums
    ensures cs.validCheckSums == old(cs.validCheckSums) + sums
  {
    for i := 0 to |sums|
      invariant cs.validCheckSums == old(cs.validCheckSums) + sums[..i]
    {
      assert sums[..i + 1] == sums[..i] + [sums[i]];
      cs.validCheckSums := cs.validCheckSums + [sums[i]];
    }
    assert sums[..|sums|] == sums;
  }

  // ---------------------------------------------------------------------------------------------
  // The builder

  class ChangelogDsl {
    const cl: DatabaseChangeLog
    /** Liquibase's `ChangeVisitorFactory.getInstance().create`, which is not part of this model. */
    const factory: string -> Option<ChangeVisitor>

    constructor (cl: DatabaseChangeLog, factory: string -> Option<ChangeVisitor>)
      ensures this.cl == cl && this.factory == factory
    {
      this.cl, this.factory := cl, factory;
    }

    /**
     * Builds a change set from the arguments, runs its block on it, and only then adds it to
     * the change log, after the change sets already there (the place Liquibase's `addChangeSet`
     * gives a change set without `runOrder`).
     */
    method ChangeSet(id: string, author: string, comments: Option<string> := None,
                     contextFilter: Option<string> := None, created: Option<string> := None,
                     dbms: Option<string> := None, failOnError: Option<bool> := None,
                     filePath: string := Mikrator.DefaultChangeSetPath, ignore: bool := false,
                     labels: Option<string> := None, logicalFilePath: Option<string> := None,
                     objectQuotingStrategy: Option<ObjectQuotingStrategy> := None,
                     onValidationFail: ValidationFailOption := ValidationHalt, runAlways: bool := false,
                     runInTransaction: bool := true, runOnChange: bool := false, runOrder: Option<string> := None,
                     runWith: Option<string> := None, runWithSpoolFile: Option<string> := None,
                     validCheckSums: seq<string> := [], body: seq<BodyCall>)
      requires Separate(cl)
      modifies cl`changeSets
      ensures Separate(cl)
      ensures |cl.changeSets| == |old(cl.changeSets)| + 1
      ensures cl.changeSets[..|old(cl.changeSets)|] == old(cl.changeSets)
      ensures fresh(Last(cl.changeSets))
      ensures BuiltFrom(Last(cl.changeSets), cl, ChangeSetArgs(
                id, author, comments, contextFilter, created, dbms, failOnError, filePath, ignore, labels,
                logicalFilePath, objectQuotingStrategy, onValidationFail, runAlways, runInTransaction, runOnChange,
                runOrder, runWith, runWithSpoolFile, validCheckSums))
      ensures BodyOf(Last(cl.changeSets)) == Steps(EmptyBody, body)
      ensures LogOf(cl) == LogStep(old(LogOf(cl)), ChangeSetCall(ChangeSetArgs(
                id, author, comments, contextFilter, created, dbms, failOnError, filePath, ignore, labels,
                logicalFilePath, objectQuotingStrategy, onValidationFail, runAlways, runInTransaction, runOnChange,
                runOrder, runWith, runWithSpoolFile, validCheckSums), body), factory)
    {
      var cs := AddChangeSet(ChangeSetArgs(
        id, author, comments, contextFilter, created, dbms, failOnError, filePath, ignore, labels, logicalFilePath,
        objectQuotingStrategy, onValidationFail, runAlways, runInTransaction, runOnChange, runOrder, runWith,
        runWithSpoolFile, validCheckSums), body);
    }

    /** `changeSet` with its arguments gathered in one value; `cs` is the change set it adds. */
    method AddChangeSet(a: ChangeSetArgs, body: seq<BodyCall>) returns (cs: Liquibase.ChangeSet)
      requires Separate(cl)
      modifies cl`changeSets
      ensures Separate(cl)
      ensures cl.changeSets == old(cl.changeSets) + [cs]
      ensures fresh(cs)
      ensures BuiltFrom(cs, cl, a)
      ensures BodyOf(cs) == Steps(EmptyBody, body)
      ensures LogOf(cl) == LogStep(old(LogOf(cl)), ChangeSetCall(a, body), factory)
    {
      cs := BuildChangeSet(cl, a, body);
      ValuesUnchanged(cl.changeSets);
      Append(cs);
    }

    /** `cl.addChangeSet(cs)`: the change set is added after the ones already there. */
    method Append(cs: Liquibase.ChangeSet)
      requires Separate(cl)
      requires cs.preconditions == null || cs.preconditions != cl.preconditions
      modifies cl`changeSets
      ensures Separate(cl)
      ensures cl.changeSets == old(cl.changeSets) + [cs]
      ensures LogOf(cl) == old(LogOf(cl)).(changeSets := old(LogOf(cl)).changeSets
                                                         + [ChangeSetValue(ArgsOf(cs), BodyOf(cs))])
    {
      var before := cl.changeSets;
      ghost var log := LogOf(cl);
      ValuesSnoc(before, cs);
      cl.changeSets := before + [cs];
      assert Values(before) == log.changeSets;
      assert PreconditionsOf(cl.preconditions) == log.preconditions;
    }

    /**
     * Creates the change log's container if it has none and otherwise reuses it, overwrites its
     * options and appends the block's conditions.
     */
    method PreConditions(onError: ErrorOption := ErrorHalt, onErrorMessage: Option<string> := None,
                         onFail: FailOption := FailHalt, onFailMessage: Option<string> := None,
                         onSqlOutput: OnSqlOutputOption := SqlOutputIgnore, block: seq<PreCall>)
      requires Separate(cl)
      modifies cl`preconditions, cl.preconditions
      ensures Separate(cl)
      ensures old(cl.preconditions) != null ==> cl.preconditions == old(cl.preconditions)
      ensures old(cl.preconditions) == null ==> cl.preconditions != null && fresh(cl.preconditions)
      ensures LogOf(cl) == LogStep(old(LogOf(cl)), ChangeLogPreConditionsCall(
                ContainerOptions(onError, onErrorMessage, onFail, onFailMessage, onSqlOutput), block), factory)
    {
      if cl.preconditions == null {
        var container := new PreconditionContainer();
        cl.preconditions := container;
      }
      FillContainer(cl.preconditions, ContainerOptions(onError, onErrorMessage, onFail, onFailMessage, onSqlOutput),
                    block);
      ValuesUnchanged(cl.changeSets);
    }

    /** Registers a property on the change log's parameters; `global` defaults to true. */
    method Property(name: string, value: string, context: Option<string> := None, dbms: Option<string> := None,
                    global: bool := true, labels: Option<string> := None)
      modifies cl`parameters
      ensures cl.parameters == old(cl.parameters) + [ChangeLogProperty(name, value, context, labels, dbms, global)]
    {
      cl.parameters := cl.parameters + [ChangeLogProperty(name, value, context, labels, dbms, global)];
    }

    /** Registers an add-column visitor loaded with `dbms` and `remove`; any other outcome is ignored. */
    method RemoveChangeSetProperty(change: string, remove: string, dbms: Option<string> := None)
      modifies cl`changeVisitors
      ensures cl.changeVisitors == VisitorsAfter(old(cl.changeVisitors), factory(change), remove, dbms)
    {
      var changeVisitor := factory(change);
      match changeVisitor
      case Some(AddColumnChangeVisitor(_, _)) =>
        cl.changeVisitors := cl.changeVisitors + [AddColumnChangeVisitor(dbms, Some(remove))];
      case None =>
      case Some(OtherChangeVisitor(_)) =>
    }

    /** Runs a block: its calls in order. An existing container is kept, never replaced. */
    method Run(calls: seq<ChangelogCall>)
      requires Separate(cl)
      modifies cl`changeSets, cl`preconditions, cl`parameters, cl`changeVisitors, cl.preconditions
      ensures Separate(cl)
      ensures old(cl.preconditions) != null ==> cl.preconditions == old(cl.preconditions)
      ensures LogOf(cl) == LogSteps(old(LogOf(cl)), calls, factory)
    {
      for i := 0 to |calls|
        invariant old(cl.preconditions) != null ==> cl.preconditions == old(cl.preconditions)
        invariant cl.preconditions == null || cl.preconditions == old(cl.preconditions) || fresh(cl.preconditions)
        invariant Separate(cl)
        invariant LogOf(cl) == LogSteps(old(LogOf(cl)), calls[..i], factory)
      {
        assert calls[..i + 1][..i] == calls[..i];
        RunCall(calls[i]);
      }
      assert calls[..|calls|] == calls;
    }

    /** Makes one call of a block. */
    method RunCall(c: ChangelogCall)
      requires Separate(cl)
      modifies cl`changeSets, cl`preconditions, cl`parameters, cl`changeVisitors, cl.preconditions
      ensures Separate(cl)
      ensures old(cl.preconditions) != null ==> cl.preconditions == old(cl.preconditions)
      ensures cl.preconditions == null || cl.preconditions == old(cl.preconditions) || fresh(cl.preconditions)
      ensures LogOf(cl) == LogStep(old(LogOf(cl)), c, factory)
    {
      match c
      case ChangeSetCall(a, body) =>
        var _ := AddChangeSet(a, body);
      case ChangeLogPreConditionsCall(options, block) =>
        PreConditions(options.onError, options.onErrorMessage, options.onFail, options.onFailMessage,
                      options.onSqlOutput, block);
      case PropertyCall(name, value, context, dbms, global, labels) =>
        Property(name, value, context, dbms, global, labels);
        ValuesUnchanged(cl.changeSets);
      case RemoveChangeSetPropertyCall(change, remove, dbms) =>
        RemoveChangeSetProperty(change, remove, dbms);
        ValuesUnchanged(cl.changeSets);
    }
  }

  /**
   * `ChangeLog(...) { ... }`: a fresh change log with the given logical path (default
   * "virtual"), physical path (default "virtual"), quoting strategy and, only when one is given,
   * context filter, filled in by the block.
   */
  method ChangeLog(contextFilter: Option<string> := None,
                   logicalFilePath: string := Mikrator.DefaultChangeLogLogicalPath,
                   objectQuotingStrategy: Option<ObjectQuotingStrategy> := None,
                   physicalFilePath: Option<string> := Some(Mikrator.DefaultChangeLogPhysicalPath),
                   factory: string -> Option<ChangeVisitor>, block: seq<ChangelogCall>)
    returns (cl: DatabaseChangeLog)
    ensures fresh(cl)
    ensures cl.logicalFilePath == Some(logicalFilePath) && cl.physicalFilePath == physicalFilePath
    ensures cl.contextFilter == contextFilter && cl.objectQuotingStrategy == objectQuotingStrategy
    ensures LogOf(cl) == LogSteps(Log(None, [], [], []), block, factory)
  {
    cl := new DatabaseChangeLog();
    cl.logicalFilePath := Some(logicalFilePath);
    cl.physicalFilePath := physicalFilePath;
    if contextFilter.Some? {
      cl.contextFilter := contextFilter;
    }
    cl.objectQuotingStrategy := objectQuotingStrategy;
    var dsl := new ChangelogDsl(cl, factory);
    dsl.Run(block);
  }
}
