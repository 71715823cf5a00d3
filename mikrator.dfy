/**
 * The decision logic of the `Mikrator` facade: the history filter, the change-set lookup and
 * checksum-version choice of `calculateChecksum`, the command sequence of
 * `updateTestingRollback`, and the filters of the status iterator.
 *
 * Every Liquibase command the facade issues is an abstract operation: an `Engine` gives, for each
 * command, the list of ran change sets after it runs on the list before it.
 */
module Mikrator {
  import opened Wrappers
  import opened Liquibase

  /** `DEFAULT_CHANGELOG_PHYSICAL_PATH`: a change log's physical path must not be empty. */
  const DefaultChangeLogPhysicalPath: string := "virtual"
  /** `DEFAULT_CHANGELOG_LOGICAL_PATH`. */
  const DefaultChangeLogLogicalPath: string := "virtual"
  /** `DEFAULT_CHANGESET_PATH`. */
  const DefaultChangeSetPath: string := ""

  // ---------------------------------------------------------------------------------------------
  // history

  /** Whether `history(onlyTags, tagsFilter)` keeps a ran change set. */
  predicate KeepInHistory(onlyTags: bool, tagsFilter: seq<string>, cs: RanChangeSet)
    ensures KeepInHistory(onlyTags, tagsFilter, cs) && onlyTags ==> cs.tag.Some? && cs.tag.value != ""
    ensures KeepInHistory(onlyTags, tagsFilter, cs) && tagsFilter != [] ==> cs.tag.Some? && cs.tag.value in tagsFilter
    ensures !onlyTags && tagsFilter == [] ==> KeepInHistory(onlyTags, tagsFilter, cs)
  {
    if onlyTags && (cs.tag.None? || cs.tag.value == "") then false
    else if |tagsFilter| > 0 && !(cs.tag.Some? && cs.tag.value in tagsFilter) then false
    else true
  }

  /** The ran change sets that `history` returns, in their original order. */
  function HistoryOf(ran: seq<RanChangeSet>, onlyTags: bool := false, tagsFilter: seq<string> := []): (r: seq<RanChangeSet>)
    ensures |r| <= |ran|
    ensures forall cs :: cs in r ==> cs in ran && KeepInHistory(onlyTags, tagsFilter, cs)
  {
    if ran == [] then []
    else (if KeepInHistory(onlyTags, tagsFilter, ran[0]) then [ran[0]] else []) + HistoryOf(ran[1..], onlyTags, tagsFilter)
  }

  /** `a` is `b` with some elements left out, the rest in their order. */
  predicate IsSubsequence<T(==)>(a: seq<T>, b: seq<T>)
  {
    if a == [] then true
    else if b == [] then false
    else if a[0] == b[0] then IsSubsequence(a[1..], b[1..])
    else IsSubsequence(a, b[1..])
  }

  /** `history` keeps the original order and invents nothing. */
  lemma {:induction false} HistoryIsSubsequence(ran: seq<RanChangeSet>, onlyTags: bool, tagsFilter: seq<string>)
    ensures IsSubsequence(HistoryOf(ran, onlyTags, tagsFilter), ran)
    ensures |HistoryOf(ran, onlyTags, tagsFilter)| <= |ran|
  {
    if ran != [] {
      HistoryIsSubsequence(ran[1..], onlyTags, tagsFilter);
      if KeepInHistory(onlyTags, tagsFilter, ran[0]) {
        assert HistoryOf(ran, onlyTags, tagsFilter)[1..] == HistoryOf(ran[1..], onlyTags, tagsFilter);
      } else {
        assert HistoryOf(ran, onlyTags, tagsFilter) == HistoryOf(ran[1..], onlyTags, tagsFilter);
        SubsequenceOfTail(HistoryOf(ran, onlyTags, tagsFilter), ran);
      }
    }
  }

  lemma SubsequenceOfTail<T>(a: seq<T>, b: seq<T>)
    requires b != [] && IsSubsequence(a, b[1..])
    ensures IsSubsequence(a, b)
  {
    if a != [] && a[0] == b[0] {
      SubsequenceDropFirst(a, b[1..]);
    }
  }

  lemma {:induction false} SubsequenceDropFirst<T>(a: seq<T>, b: seq<T>)
    requires a != [] && IsSubsequence(a, b)
    ensures IsSubsequence(a[1..], b)
  {
    if b != [] {
      if a[0] == b[0] {
        if a[1..] != [] {
          SubsequenceDropFirst(a[1..], b[1..]);
        }
        SubsequenceOfTail(a[1..], b);
      } else {
        SubsequenceDropFirst(a, b[1..]);
        SubsequenceOfTail(a[1..], b);
      }
    }
  }

  /** An entry is in the history exactly when it was ran and the filter keeps it. */
  lemma {:induction false} HistoryMembers(ran: seq<RanChangeSet>, onlyTags: bool, tagsFilter: seq<string>,
                                          cs: RanChangeSet)
    ensures cs in HistoryOf(ran, onlyTags, tagsFilter) <==> cs in ran && KeepInHistory(onlyTags, tagsFilter, cs)
  {
    if ran != [] {
      HistoryMembers(ran[1..], onlyTags, tagsFilter, cs);
      assert ran == [ran[0]] + ran[1..];
    }
  }

  /** With `onlyTags`, every entry of the history carries a non-empty tag. */
  lemma OnlyTaggedEntries(ran: seq<RanChangeSet>, tagsFilter: seq<string>)
    ensures forall cs :: cs in HistoryOf(ran, true, tagsFilter) ==> cs.tag.Some? && cs.tag.value != ""
  {
    forall cs | cs in HistoryOf(ran, true, tagsFilter) ensures cs.tag.Some? && cs.tag.value != "" {
      HistoryMembers(ran, true, tagsFilter, cs);
    }
  }

  /** With a non-empty `tagsFilter`, every entry's tag is one of the filter's tags. */
  lemma OnlyFilteredTags(ran: seq<RanChangeSet>, onlyTags: bool, tagsFilter: seq<string>)
    requires |tagsFilter| > 0
    ensures forall cs :: cs in HistoryOf(ran, onlyTags, tagsFilter) ==> cs.tag.Some? && cs.tag.value in tagsFilter
  {
    forall cs | cs in HistoryOf(ran, onlyTags, tagsFilter) ensures cs.tag.Some? && cs.tag.value in tagsFilter {
      HistoryMembers(ran, onlyTags, tagsFilter, cs);
    }
  }

  /** With the default arguments, `history` is the full ran list. */
  lemma {:induction false} HistoryDefaults(ran: seq<RanChangeSet>)
    ensures HistoryOf(ran) == ran
  {
    if ran != [] {
      HistoryDefaults(ran[1..]);
      assert ran == [ran[0]] + ran[1..];
    }
  }

  // ---------------------------------------------------------------------------------------------
  // The database and the commands the facade issues

  /** The arguments that `update`, `updateToTag` and `rollbackCount` forward to Liquibase and that this model keeps. */
  datatype CommandArgs = CommandArgs(contexts: Option<string>, labelFilter: Option<string>)

  /** A Liquibase command that the facade runs against the database. */
  datatype Command =
    | UpdateCommand(args: CommandArgs)
    | UpdateToTagCommand(tag: string, args: CommandArgs)
    | RollbackCountCommand(count: int, args: CommandArgs)

  /** The report a command returns; here it records which command produced it. */
  datatype Report = Report(command: Command)

  /** `UpdateTestingRollbackResult`. */
  datatype UpdateTestingRollbackResult = UpdateTestingRollbackResult(
    initialUpdateReport: Report, rollbackReport: Report, finalUpdateReport: Report)

  /** What Liquibase does: the ran change sets after a command, given those before it. */
  datatype Engine = Engine(execute: (Command, seq<RanChangeSet>) -> seq<RanChangeSet>)

  /** The database's DATABASECHANGELOG table, as the list of ran change sets. */
  class Database {
    var ran: seq<RanChangeSet>

    constructor (ran: seq<RanChangeSet>)
      ensures this.ran == ran
    {
      this.ran := ran;
    }
  }

  /** The update command `updateTestingRollback` uses: `updateToTag` exactly when a tag is given. */
  function UpdateFor(tag: Option<string>, args: CommandArgs): (c: Command)
    ensures tag.None? <==> c.UpdateCommand?
    ensures tag.Some? <==> c.UpdateToTagCommand? && c.tag == tag.value
    ensures c.args == args
  {
    if tag.None? then UpdateCommand(args) else UpdateToTagCommand(tag.value, args)
  }

  class Mikrator {
    const db: Database
    const engine: Engine

    constructor (db: Database, engine: Engine)
      ensures this.db == db && this.engine == engine
    {
      this.db, this.engine := db, engine;
    }

    /** Issues one command and returns its report. */
    method Issue(command: Command) returns (report: Report)
      modifies db
      ensures db.ran == engine.execute(command, old(db.ran))
      ensures report.command == command
    {
      db.ran := engine.execute(command, db.ran);
      report := Report(command);
    }

    method Update(contexts: Option<string> := None, labelFilter: Option<string> := None) returns (report: Report)
      modifies db
      ensures report.command == UpdateCommand(CommandArgs(contexts, labelFilter))
      ensures db.ran == engine.execute(report.command, old(db.ran))
    {
      report := Issue(UpdateCommand(CommandArgs(contexts, labelFilter)));
    }

    method UpdateToTag(tag: string, contexts: Option<string> := None, labelFilter: Option<string> := None)
      returns (report: Report)
      modifies db
      ensures report.command == UpdateToTagCommand(tag, CommandArgs(contexts, labelFilter))
      ensures db.ran == engine.execute(report.command, old(db.ran))
    {
      report := Issue(UpdateToTagCommand(tag, CommandArgs(contexts, labelFilter)));
    }

    method RollbackCount(count: int, contexts: Option<string> := None, labelFilter: Option<string> := None)
      returns (report: Report)
      modifies db
      ensures report.command == RollbackCountCommand(count, CommandArgs(contexts, labelFilter))
      ensures db.ran == engine.execute(report.command, old(db.ran))
    {
      report := Issue(RollbackCountCommand(count, CommandArgs(contexts, labelFilter)));
    }

    /**
     * `updateTestingRollback`: update (to the tag, if one is given), roll back as many change sets
     * as that update added, then update again the same way.
     */
    method UpdateTestingRollback(contexts: Option<string> := None, labelFilter: Option<string> := None,
                                 tag: Option<string> := None)
      returns (result: UpdateTestingRollbackResult)
      modifies db
      ensures var args := CommandArgs(contexts, labelFilter);
              var afterFirst := engine.execute(UpdateFor(tag, args), old(db.ran));
              var delta := |afterFirst| - |old(db.ran)|;
              && result.initialUpdateReport.command == UpdateFor(tag, args)
              && result.rollbackReport.command == RollbackCountCommand(delta, args)
              && result.finalUpdateReport.command == UpdateFor(tag, args)
              && db.ran == engine.execute(UpdateFor(tag, args),
                                          engine.execute(RollbackCountCommand(delta, args), afterFirst))
    {
      var originalChangeSetsCount := |db.ran|;
      var initialUpdateReport;
      if tag == None {
        initialUpdateReport := Update(contexts, labelFilter);
      } else {
        initialUpdateReport := UpdateToTag(tag.value, contexts, labelFilter);
      }
      var changeSetsDelta := |db.ran| - originalChangeSetsCount;
      var rollbackReport := RollbackCount(changeSetsDelta, contexts, labelFilter);
      var finalUpdateReport;
      if tag == None {
        finalUpdateReport := Update(contexts, labelFilter);
      } else {
        finalUpdateReport := UpdateToTag(tag.value, contexts, labelFilter);
      }
      result := UpdateTestingRollbackResult(initialUpdateReport, rollbackReport, finalUpdateReport);
    }

    /** `history(onlyTags, tagsFilter)` on the database's ran change sets. */
    method History(onlyTags: bool := false, tagsFilter: seq<string> := []) returns (r: seq<RanChangeSet>)
      ensures r == HistoryOf(db.ran, onlyTags, tagsFilter)
      ensures IsSubsequence(r, db.ran)
      ensures forall cs :: cs in r <==> cs in db.ran && KeepInHistory(onlyTags, tagsFilter, cs)
      ensures !onlyTags && tagsFilter == [] ==> r == db.ran
    {
      r := HistoryOf(db.ran, onlyTags, tagsFilter);
      HistoryIsSubsequence(db.ran, onlyTags, tagsFilter);
      forall cs ensures cs in r <==> cs in db.ran && KeepInHistory(onlyTags, tagsFilter, cs) {
        HistoryMembers(db.ran, onlyTags, tagsFilter, cs);
      }
      if !onlyTags && tagsFilter == [] {
        HistoryDefaults(db.ran);
      }
    }

    /**
     * `calculateChecksum`: the checksum of the change set with the given id, author and path,
     * computed with the checksum version recorded for it in the database when there is one.
     */
    method CalculateChecksum(changeLog: DatabaseChangeLog, changeSetId: string, changeSetAuthor: string,
                             versions: ChecksumVersions, generate: (ChangeSet, int) -> CheckSum,
                             changeSetPath: string := DefaultChangeSetPath)
      returns (r: Result<CheckSum>)
      ensures r.Err? <==> !exists i :: 0 <= i < |changeLog.changeSets|
                                         && changeLog.changeSets[i].filePath == changeSetPath
                                         && changeLog.changeSets[i].author == changeSetAuthor
                                         && changeLog.changeSets[i].id == changeSetId
      ensures r.Err? ==> r.message == "Couldn't find change set."
      ensures r.Ok? ==>
                var cs := FindChangeSet(changeLog.changeSets, changeSetPath, changeSetAuthor, changeSetId).value;
                var ranCs := FindRanChangeSet(db.ran, cs.filePath, cs.author, cs.id);
                r.value == generate(cs, ChecksumVersionFor(ranCs, versions))
    {
      var changeSet := FindChangeSet(changeLog.changeSets, changeSetPath, changeSetAuthor, changeSetId);
      if changeSet.None? {
        return Err("Couldn't find change set.");
      }
      var cs := changeSet.value;
      var ranChangeSet := FindRanChangeSet(db.ran, cs.filePath, cs.author, cs.id);
      var version := ChecksumVersionFor(ranChangeSet, versions);
      r := Ok(generate(cs, version));
    }
  }

  // ---------------------------------------------------------------------------------------------
  // The checksum version

  /**
   * Liquibase's `ChecksumVersion`: the versions it knows (what `enumFromChecksumVersion` returns a
   * constant for) and the latest one.
   */
  datatype ChecksumVersions = ChecksumVersions(known: set<int>, latest: int)

  /**
   * The version `calculateChecksum` uses: the version of the ran change set's last checksum if
   * there is one and Liquibase knows it, otherwise the latest version.
   */
  function ChecksumVersionFor(ran: Option<RanChangeSet>, versions: ChecksumVersions): (v: int)
    ensures ran.Some? && ran.value.lastCheckSum.Some? && ran.value.lastCheckSum.value.version in versions.known
            ==> v == ran.value.lastCheckSum.value.version
    ensures !(ran.Some? && ran.value.lastCheckSum.Some? && ran.value.lastCheckSum.value.version in versions.known)
            ==> v == versions.latest
    ensures v in versions.known || v == versions.latest
  {
    if ran.Some? && ran.value.lastCheckSum.Some? && ran.value.lastCheckSum.value.version in versions.known
    then ran.value.lastCheckSum.value.version
    else versions.latest
  }

  // ---------------------------------------------------------------------------------------------
  // updateTestingRollback against a well-behaved engine

  /** An update appends the change sets it runs; a rollback of `n` removes the last `n` (all, if fewer). */
  ghost predicate AppendsAndRollsBack(engine: Engine, args: CommandArgs, tag: Option<string>)
  {
    && (forall ran :: |engine.execute(UpdateFor(tag, args), ran)| >= |ran|
                      && engine.execute(UpdateFor(tag, args), ran)[..|ran|] == ran)
    && (forall ran, n: int :: 0 <= n <= |ran| ==>
          engine.execute(RollbackCountCommand(n, args), ran) == ran[..|ran| - n])
  }

  /**
   * When updates append and rollbacks remove from the end, the rollback of
   * `updateTestingRollback` restores the ran list from before the first update, and the final
   * update runs on that list again.
   */
  lemma RollbackRestores(engine: Engine, args: CommandArgs, tag: Option<string>, before: seq<RanChangeSet>)
    requires AppendsAndRollsBack(engine, args, tag)
    ensures var afterFirst := engine.execute(UpdateFor(tag, args), before);
            engine.execute(RollbackCountCommand(|afterFirst| - |before|, args), afterFirst) == before
  {
    var afterFirst := engine.execute(UpdateFor(tag, args), before);
    var delta := |afterFirst| - |before|;
    assert |afterFirst| >= |before| && afterFirst[..|before|] == before;
    assert engine.execute(RollbackCountCommand(delta, args), afterFirst) == afterFirst[..|afterFirst| - delta];
  }

  /**
   * Hence, with such an engine, the final ran list is the one the first update produced. This
   * rests on `Engine` being a function of the command and the ran list alone; Liquibase's real
   * update also depends on the change log, the clock and the database locks.
   */
  lemma FinalMatchesFirst(engine: Engine, args: CommandArgs, tag: Option<string>, before: seq<RanChangeSet>)
    requires AppendsAndRollsBack(engine, args, tag)
    ensures var afterFirst := engine.execute(UpdateFor(tag, args), before);
            engine.execute(UpdateFor(tag, args),
                           engine.execute(RollbackCountCommand(|afterFirst| - |before|, args), afterFirst))
            == afterFirst
  {
    RollbackRestores(engine, args, tag, before);
  }

  // ---------------------------------------------------------------------------------------------
  // The status iterator

  /** The change-set filters of a `ChangeLogIterator`; the context and label filters hold their arguments. */
  datatype ChangeSetFilter =
    | ShouldRunFilter
    | ContextFilter(contexts: Option<string>)
    | LabelFilter(labels: Option<string>)
    | DbmsFilter
    | IgnoreFilter

  /** `changeLogIterator(changeLog, contexts, labels)`: the filters in the order they are tried. */
  function ChangeLogIterator(contexts: Option<string> := None, labels: Option<string> := None)
    : (filters: seq<ChangeSetFilter>)
    ensures |filters| == 5
    ensures filters[0] == ShouldRunFilter && filters[3] == DbmsFilter && filters[4] == IgnoreFilter
    ensures filters[1] == ContextFilter(contexts) && filters[2] == LabelFilter(labels)
  {
    [ShouldRunFilter, ContextFilter(contexts), LabelFilter(labels), DbmsFilter, IgnoreFilter]
  }

  /** The attributes of a change set that the filters look at. */
  datatype ChangeSetView = ChangeSetView(contextFilter: Option<string>, labels: Option<string>,
                                         dbmsList: Option<string>, ignore: bool, ran: bool)

  /**
   * How Liquibase's filters decide, abstractly: whether a change set still has to run, whether a
   * context (label) expression matches a change set's contexts (labels), whether its dbms list
   * fits the database. A context or label filter without an expression accepts every change set.
   */
  datatype FilterSemantics = FilterSemantics(
    shouldRun: ChangeSetView -> bool,
    contextMatches: (string, Option<string>) -> bool,
    labelMatches: (string, Option<string>) -> bool,
    dbmsMatches: Option<string> -> bool)

  predicate Accepts(f: ChangeSetFilter, sem: FilterSemantics, cs: ChangeSetView)
  {
    match f
    case ShouldRunFilter => sem.shouldRun(cs)
    case ContextFilter(contexts) => contexts.None? || sem.contextMatches(contexts.value, cs.contextFilter)
    case LabelFilter(labels) => labels.None? || sem.labelMatches(labels.value, cs.labels)
    case DbmsFilter => sem.dbmsMatches(cs.dbmsList)
    case IgnoreFilter => !cs.ignore
  }

  /** The change sets an iterator visits: those every filter accepts, in change-log order. */
  function Visited(filters: seq<ChangeSetFilter>, sem: FilterSemantics, changeSets: seq<ChangeSetView>)
    : (r: seq<ChangeSetView>)
    ensures forall cs :: cs in r <==> cs in changeSets && forall f :: f in filters ==> Accepts(f, sem, cs)
  {
    if changeSets == [] then []
    else
      (if forall f :: f in filters ==> Accepts(f, sem, changeSets[0]) then [changeSets[0]] else [])
      + Visited(filters, sem, changeSets[1..])
  }

  /**
   * The iterator's filters together accept a change set exactly when it should run, matches the
   * contexts and labels that are given and the database, and is not ignored.
   */
  lemma IteratorAccepts(contexts: Option<string>, labels: Option<string>, sem: FilterSemantics)
    ensures forall cs :: (forall f :: f in ChangeLogIterator(contexts, labels) ==> Accepts(f, sem, cs)) <==>
              && sem.shouldRun(cs) && sem.dbmsMatches(cs.dbmsList) && !cs.ignore
              && (contexts.Some? ==> sem.contextMatches(contexts.value, cs.contextFilter))
              && (labels.Some? ==> sem.labelMatches(labels.value, cs.labels))
  {
    var filters := ChangeLogIterator(contexts, labels);
    forall cs | forall f :: f in filters ==> Accepts(f, sem, cs)
      ensures sem.shouldRun(cs) && sem.dbmsMatches(cs.dbmsList) && !cs.ignore
      ensures contexts.Some? ==> sem.contextMatches(contexts.value, cs.contextFilter)
      ensures labels.Some? ==> sem.labelMatches(labels.value, cs.labels)
    {
      assert Accepts(filters[0], sem, cs) && Accepts(filters[1], sem, cs) && Accepts(filters[2], sem, cs);
      assert Accepts(filters[3], sem, cs) && Accepts(filters[4], sem, cs);
    }
  }

  /** The change sets `status(changeLog, contextFilter, labels)` reports, as written. */
  function StatusAsWritten(changeSets: seq<ChangeSetView>, sem: FilterSemantics, contextFilter: Option<string>,
                           labels: Option<string>): (r: seq<ChangeSetView>)
    ensures forall cs :: cs in r <==> cs in changeSets && sem.shouldRun(cs) && sem.dbmsMatches(cs.dbmsList) && !cs.ignore
  {
    IteratorAccepts(None, None, sem);
    Visited(ChangeLogIterator(), sem, changeSets)
  }

  /** `status` with its context filter and labels passed on to the iterator's filters. */
  function Status(changeSets: seq<ChangeSetView>, sem: FilterSemantics, contextFilter: Option<string> := None,
                  labels: Option<string> := None): (r: seq<ChangeSetView>)
    ensures forall cs :: cs in r <==>
              && cs in changeSets && sem.shouldRun(cs) && sem.dbmsMatches(cs.dbmsList) && !cs.ignore
              && (contextFilter.Some? ==> sem.contextMatches(contextFilter.value, cs.contextFilter))
              && (labels.Some? ==> sem.labelMatches(labels.value, cs.labels))
  {
    IteratorAccepts(contextFilter, labels, sem);
    Visited(ChangeLogIterator(contextFilter, labels), sem, changeSets)
  }

  /** As written, the context filter and labels given to `status` change nothing. */
  lemma StatusAsWrittenIgnoresFilters(changeSets: seq<ChangeSetView>, sem: FilterSemantics,
                                      contextFilter: Option<string>, labels: Option<string>)
    ensures StatusAsWritten(changeSets, sem, contextFilter, labels) == Status(changeSets, sem)
  {
  }

  /** A semantics in which a context expression matches exactly the change sets with that context or none. */
  function ExactContexts(): FilterSemantics
  {
    FilterSemantics((cs: ChangeSetView) => !cs.ran, (expr: string, ctx: Option<string>) => ctx.None? || ctx == Some(expr),
                    (expr: string, lbl: Option<string>) => true, (dbms: Option<string>) => true)
  }

  /** A change set for context "test" is reported by `status` for context "prod" as written, and not when corrected. */
  lemma StatusContextCounterexample()
    ensures var cs := ChangeSetView(Some("test"), None, None, false, false);
            && StatusAsWritten([cs], ExactContexts(), Some("prod"), None) == [cs]
            && Status([cs], ExactContexts(), Some("prod")) == []
  {
    var cs := ChangeSetView(Some("test"), None, None, false, false);
    assert !Accepts(ContextFilter(Some("prod")), ExactContexts(), cs);
    assert ContextFilter(Some("prod")) in ChangeLogIterator(Some("prod"), None);
    assert forall f :: f in ChangeLogIterator() ==> Accepts(f, ExactContexts(), cs);
  }

  /** Corrected, every change set `status` reports matches the given context filter and labels. */
  lemma StatusHonoursFilters(changeSets: seq<ChangeSetView>, sem: FilterSemantics, contextFilter: Option<string>,
                             labels: Option<string>, cs: ChangeSetView)
    requires cs in Status(changeSets, sem, contextFilter, labels)
    ensures contextFilter.Some? ==> sem.contextMatches(contextFilter.value, cs.contextFilter)
    ensures labels.Some? ==> sem.labelMatches(labels.value, cs.labels)
    ensures sem.shouldRun(cs) && sem.dbmsMatches(cs.dbmsList) && !cs.ignore
  {
    var filters := ChangeLogIterator(contextFilter, labels);
    assert filters[1] in filters && filters[2] in filters;
    assert filters[0] in filters && filters[3] in filters && filters[4] in filters;
  }
}
