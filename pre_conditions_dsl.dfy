/**
 * `PreConditionsDsl`: the block of a `preConditions` call, and of the `and`, `or` and `not`
 * calls inside it. Every call appends exactly one precondition to the builder's list; the
 * nesting calls run their block on a fresh builder and wrap what it built in one node.
 *
 * A Kotlin block is a lambda over the builder. Here it is a script: the sequence of builder
 * calls it makes, in order, with their arguments (`PreCall`). `Build` says which preconditions
 * a script builds, and `PreConditionsDsl.Run` runs a script by calling the builder's methods.
 */
module PreConditionsDsl {
  import opened Wrappers
  import opened Liquibase
  import Mikrator

  /** One call of a `PreConditionsDsl` block, with the arguments it is given. */
  datatype PreCall =
    | AndCall(block: seq<PreCall>)
    | OrCall(block: seq<PreCall>)
    | NotCall(block: seq<PreCall>)
    | ChangeLogPropertyDefinedCall(property: string, value: Option<string>)
    | ChangeSetExecutedCall(id: string, author: string, changeLogFile: string)
    | ColumnExistsCall(tableName: string, columnName: string, schemaName: Option<string>, catalogName: Option<string>)
    | DbmsCall(dbmsType: string)
    | ExpectedQuotingStrategyCall(strategy: ObjectQuotingStrategy)
    | ForeignKeyConstraintExistsCall(foreignKeyName: string, foreignKeyTableName: string,
                                     schemaName: Option<string>, catalogName: Option<string>)
    | IndexExistsCall(indexName: Option<string>, indexTableName: Option<string>, columnNames: Option<string>,
                      schemaName: Option<string>, catalogName: Option<string>)
    | PrimaryKeyExistsCall(primaryKeyName: Option<string>, keyTableName: Option<string>,
                           schemaName: Option<string>, catalogName: Option<string>)
    | RowCountCall(expectedRows: int, tableName: string, schemaName: Option<string>, catalogName: Option<string>)
    | RunningAsCall(username: string)
    | SequenceExistsCall(sequenceName: string, schemaName: Option<string>, catalogName: Option<string>)
    | SqlCheckCall(expectedResult: string, sql: string)
    | TableExistsCall(tableName: string, schemaName: Option<string>, catalogName: Option<string>)
    | TableIsEmptyCall(tableName: string, schemaName: Option<string>, catalogName: Option<string>)
    | UniqueConstraintExistsCall(tableName: string, columnNames: Option<string>, constraintName: Option<string>,
                                 schemaName: Option<string>, catalogName: Option<string>)
    | ViewExistsCall(viewName: string, schemaName: Option<string>, catalogName: Option<string>)
    | CustomCall(preconditionClass: Option<string>, params: map<string, string>)
  {
    /** `and`, `or` and `not` nest a block; every other call builds a leaf. */
    predicate IsNesting()
    {
      AndCall? || OrCall? || NotCall?
    }
  }

  // ---------------------------------------------------------------------------------------------
  // What a script builds

  /** The leaf condition that a non-nesting call builds; `None` for the nesting calls. */
  function LeafOf(c: PreCall): (r: Option<LeafCondition>)
    ensures r.None? <==> c.IsNesting()
  {
    match c
    case AndCall(_) => None
    case OrCall(_) => None
    case NotCall(_) => None
    case ChangeLogPropertyDefinedCall(property, value) => Some(ChangeLogPropertyDefined(property, value))
    case ChangeSetExecutedCall(id, author, changeLogFile) => Some(ChangeSetExecuted(id, author, changeLogFile))
    case ColumnExistsCall(tableName, columnName, schemaName, catalogName) =>
      Some(ColumnExists(tableName, columnName, schemaName, catalogName))
    case DbmsCall(dbmsType) => Some(Dbms(dbmsType))
    case ExpectedQuotingStrategyCall(strategy) => Some(ExpectedQuotingStrategy(StrategyName(strategy)))
    case ForeignKeyConstraintExistsCall(foreignKeyName, foreignKeyTableName, schemaName, catalogName) =>
      Some(ForeignKeyConstraintExists(foreignKeyName, foreignKeyTableName, schemaName, catalogName))
    case IndexExistsCall(indexName, indexTableName, columnNames, schemaName, catalogName) =>
      Some(IndexExists(indexName, indexTableName, columnNames, schemaName, catalogName))
    case PrimaryKeyExistsCall(primaryKeyName, keyTableName, schemaName, catalogName) =>
      Some(PrimaryKeyExists(primaryKeyName, keyTableName, schemaName, catalogName))
    case RowCountCall(expectedRows, tableName, schemaName, catalogName) =>
      Some(RowCount(expectedRows, tableName, schemaName, catalogName))
    case RunningAsCall(username) => Some(RunningAs(username))
    case SequenceExistsCall(sequenceName, schemaName, catalogName) =>
      Some(SequenceExists(sequenceName, schemaName, catalogName))
    case SqlCheckCall(expectedResult, sql) => Some(SqlCheck(expectedResult, sql))
    case TableExistsCall(tableName, schemaName, catalogName) => Some(TableExists(tableName, schemaName, catalogName))
    case TableIsEmptyCall(tableName, schemaName, catalogName) => Some(TableIsEmpty(tableName, schemaName, catalogName))
    case UniqueConstraintExistsCall(tableName, columnNames, constraintName, schemaName, catalogName) =>
      Some(UniqueConstraintExists(tableName, columnNames, constraintName, schemaName, catalogName))
    case ViewExistsCall(viewName, schemaName, catalogName) => Some(ViewExists(viewName, schemaName, catalogName))
    case CustomCall(preconditionClass, params) => Some(Custom(preconditionClass, params))
  }

  /** The one precondition a call appends: a node over its block's conditions, or a leaf. */
  function BuildCall(c: PreCall): (r: Precondition)
    decreases c
  {
    match c
    case AndCall(block) => And(Build(block))
    case OrCall(block) => Or(Build(block))
    case NotCall(block) => Not(Build(block))
    case _ => Leaf(LeafOf(c).value)
  }

  /** The conditions a script builds: one per call, in call order. */
  function Build(block: seq<PreCall>): (r: seq<Precondition>)
    ensures |r| == |block|
    ensures forall i :: 0 <= i < |block| ==> r[i] == BuildCall(block[i])
    decreases block
  {
    if block == [] then [] else Build(block[..|block| - 1]) + [BuildCall(block[|block| - 1])]
  }

  // ---------------------------------------------------------------------------------------------
  // A reference view: the leaf conditions, in reading order

  /** The leaves of a precondition tree, left to right. */
  function Leaves(p: Precondition): seq<LeafCondition>
    decreases p
  {
    match p
    case Leaf(condition) => [condition]
    case And(nested) => LeavesAll(nested)
    case Or(nested) => LeavesAll(nested)
    case Not(nested) => LeavesAll(nested)
  }

  function LeavesAll(ps: seq<Precondition>): seq<LeafCondition>
    decreases ps
  {
    if ps == [] then [] else LeavesAll(ps[..|ps| - 1]) + Leaves(ps[|ps| - 1])
  }

  /** The leaf calls of a script, nested blocks included, in the order the source text names them. */
  function CallLeaves(c: PreCall): seq<LeafCondition>
    decreases c
  {
    match c
    case AndCall(block) => ScriptLeaves(block)
    case OrCall(block) => ScriptLeaves(block)
    case NotCall(block) => ScriptLeaves(block)
    case _ => [LeafOf(c).value]
  }

  function ScriptLeaves(block: seq<PreCall>): seq<LeafCondition>
    decreases block
  {
    if block == [] then [] else ScriptLeaves(block[..|block| - 1]) + CallLeaves(block[|block| - 1])
  }

  /**
   * Building keeps every leaf call, nested ones included, and keeps their order: reading the
   * built trees' leaves from left to right gives the script's leaf calls in text order.
   */
  lemma {:induction false} BuildKeepsLeaves(block: seq<PreCall>)
    ensures LeavesAll(Build(block)) == ScriptLeaves(block)
    decreases block, 0
  {
    if block != [] {
      var init, last := block[..|block| - 1], block[|block| - 1];
      BuildKeepsLeaves(init);
      BuildCallKeepsLeaves(last);
      assert Build(block) == Build(init) + [BuildCall(last)];
      assert Build(block)[..|block| - 1] == Build(init);
    }
  }

  lemma {:induction false} BuildCallKeepsLeaves(c: PreCall)
    ensures Leaves(BuildCall(c)) == CallLeaves(c)
    decreases c, 1
  {
    match c
    case AndCall(block) => BuildKeepsLeaves(block);
    case OrCall(block) => BuildKeepsLeaves(block);
    case NotCall(block) => BuildKeepsLeaves(block);
    case _ =>
  }

  /**
   * A nested block's conditions never reach the outer list directly: the outer list holds one
   * entry per call, and a nesting call's entry is a single node over its own block's conditions.
   */
  lemma NestedStaysNested(block: seq<PreCall>, i: nat)
    requires i < |block| && block[i].IsNesting()
    ensures |Build(block)| == |block|
    ensures !Build(block)[i].Leaf? && Build(block)[i].nested == Build(block[i].block)
  {
  }

  // ---------------------------------------------------------------------------------------------
  // The builder

  class PreConditionsDsl {
    var conditions: seq<Precondition>

    constructor ()
      ensures conditions == []
    {
      conditions := [];
    }

    method And(block: seq<PreCall>)
      modifies this
      ensures conditions == old(conditions) + [Liquibase.And(Build(block))]
      decreases block, 2
    {
      var dsl := new PreConditionsDsl();
      dsl.Run(block);
      assert dsl.conditions == Build(block);
      conditions := conditions + [Liquibase.And(dsl.conditions)];
    }

    method Or(block: seq<PreCall>)
      modifies this
      ensures conditions == old(conditions) + [Liquibase.Or(Build(block))]
      decreases block, 2
    {
      var dsl := new PreConditionsDsl();
      dsl.Run(block);
      assert dsl.conditions == Build(block);
      conditions := conditions + [Liquibase.Or(dsl.conditions)];
    }

    method Not(block: seq<PreCall>)
      modifies this
      ensures conditions == old(conditions) + [Liquibase.Not(Build(block))]
      decreases block, 2
    {
      var dsl := new PreConditionsDsl();
      dsl.Run(block);
      assert dsl.conditions == Build(block);
      conditions := conditions + [Liquibase.Not(dsl.conditions)];
    }

    method ChangeLogPropertyDefined(property: string, value: Option<string> := None)
      modifies this
      ensures conditions == old(conditions) + [Leaf(Liquibase.ChangeLogPropertyDefined(property, value))]
    {
      conditions := conditions + [Leaf(Liquibase.ChangeLogPropertyDefined(property, value))];
    }

    method ChangeSetExecuted(id: string, author: string,
                             changeLogFile: string := Mikrator.DefaultChangeLogLogicalPath)
      modifies this
      ensures conditions == old(conditions) + [Leaf(Liquibase.ChangeSetExecuted(id, author, changeLogFile))]
    {
      conditions := conditions + [Leaf(Liquibase.ChangeSetExecuted(id, author, changeLogFile))];
    }

    method ColumnExists(tableName: string, columnName: string, schemaName: Option<string> := None,
                        catalogName: Option<string> := None)
      modifies this
      ensures conditions == old(conditions)
                            + [Leaf(Liquibase.ColumnExists(tableName, columnName, schemaName, catalogName))]
    {
      conditions := conditions + [Leaf(Liquibase.ColumnExists(tableName, columnName, schemaName, catalogName))];
    }

    method Dbms(dbmsType: string)
      modifies this
      ensures conditions == old(conditions) + [Leaf(Liquibase.Dbms(dbmsType))]
    {
      conditions := conditions + [Leaf(Liquibase.Dbms(dbmsType))];
    }

    /** The strategy is stored by its constant name. */
    method ExpectedQuotingStrategy(strategy: ObjectQuotingStrategy)
      modifies this
      ensures conditions == old(conditions) + [Leaf(Liquibase.ExpectedQuotingStrategy(StrategyName(strategy)))]
    {
      conditions := conditions + [Leaf(Liquibase.ExpectedQuotingStrategy(StrategyName(strategy)))];
    }

    method ForeignKeyConstraintExists(foreignKeyName: string, foreignKeyTableName: string,
                                      schemaName: Option<string> := None, catalogName: Option<string> := None)
      modifies this
      ensures conditions == old(conditions) + [Leaf(Liquibase.ForeignKeyConstraintExists(
                                                 foreignKeyName, foreignKeyTableName, schemaName, catalogName))]
    {
      conditions := conditions + [Leaf(Liquibase.ForeignKeyConstraintExists(
                                         foreignKeyName, foreignKeyTableName, schemaName, catalogName))];
    }

    method IndexExists(indexName: Option<string> := None, tableName: Option<string> := None,
                       columnNames: Option<string> := None, schemaName: Option<string> := None,
                       catalogName: Option<string> := None)
      modifies this
      ensures conditions == old(conditions) + [Leaf(Liquibase.IndexExists(
                                                 indexName, tableName, columnNames, schemaName, catalogName))]
    {
      conditions := conditions + [Leaf(Liquibase.IndexExists(indexName, tableName, columnNames, schemaName,
                                                             catalogName))];
    }

    method PrimaryKeyExists(primaryKeyName: Option<string> := None, tableName: Option<string> := None,
                            schemaName: Option<string> := None, catalogName: Option<string> := None)
      modifies this
      ensures conditions == old(conditions) + [Leaf(Liquibase.PrimaryKeyExists(
                                                 primaryKeyName, tableName, schemaName, catalogName))]
    {
      conditions := conditions + [Leaf(Liquibase.PrimaryKeyExists(primaryKeyName, tableName, schemaName,
                                                                  catalogName))];
    }

    method RowCount(expectedRows: int, tableName: string, schemaName: Option<string> := None,
                    catalogName: Option<string> := None)
      modifies this
      ensures conditions == old(conditions)
                            + [Leaf(Liquibase.RowCount(expectedRows, tableName, schemaName, catalogName))]
    {
      conditions := conditions + [Leaf(Liquibase.RowCount(expectedRows, tableName, schemaName, catalogName))];
    }

    method RunningAs(username: string)
      modifies this
      ensures conditions == old(conditions) + [Leaf(Liquibase.RunningAs(username))]
    {
      conditions := conditions + [Leaf(Liquibase.RunningAs(username))];
    }

    method SequenceExists(sequenceName: string, schemaName: Option<string> := None,
                          catalogName: Option<string> := None)
      modifies this
      ensures conditions == old(conditions) + [Leaf(Liquibase.SequenceExists(sequenceName, schemaName, catalogName))]
    {
      conditions := conditions + [Leaf(Liquibase.SequenceExists(sequenceName, schemaName, catalogName))];
    }

    method SqlCheck(expectedResult: string, sql: string)
      modifies this
      ensures conditions == old(conditions) + [Leaf(Liquibase.SqlCheck(expectedResult, sql))]
    {
      conditions := conditions + [Leaf(Liquibase.SqlCheck(expectedResult, sql))];
    }

    method TableExists(tableName: string, schemaName: Option<string> := None, catalogName: Option<string> := None)
      modifies this
      ensures conditions == old(conditions) + [Leaf(Liquibase.TableExists(tableName, schemaName, catalogName))]
    {
      conditions := conditions + [Leaf(Liquibase.TableExists(tableName, schemaName, catalogName))];
    }

    method TableIsEmpty(tableName: string, schemaName: Option<string> := None, catalogName: Option<string> := None)
      modifies this
      ensures conditions == old(conditions) + [Leaf(Liquibase.TableIsEmpty(tableName, schemaName, catalogName))]
    {
      conditions := conditions + [Leaf(Liquibase.TableIsEmpty(tableName, schemaName, catalogName))];
    }

    method UniqueConstraintExists(tableName: string, columnNames: Option<string> := None,
                                  constraintName: Option<string> := None, schemaName: Option<string> := None,
                                  catalogName: Option<string> := None)
      modifies this
      ensures conditions == old(conditions) + [Leaf(Liquibase.UniqueConstraintExists(
                                                 tableName, columnNames, constraintName, schemaName, catalogName))]
    {
      conditions := conditions + [Leaf(Liquibase.UniqueConstraintExists(
                                         tableName, columnNames, constraintName, schemaName, catalogName))];
    }

    method ViewExists(viewName: string, schemaName: Option<string> := None, catalogName: Option<string> := None)
      modifies this
      ensures conditions == old(conditions) + [Leaf(Liquibase.ViewExists(viewName, schemaName, catalogName))]
    {
      conditions := conditions + [Leaf(Liquibase.ViewExists(viewName, schemaName, catalogName))];
    }

    /** `preconditionClass` is the class's qualified name, which Kotlin reports as null for a local or anonymous class. */
    method Custom(preconditionClass: Option<string>, params: map<string, string> := map[])
      modifies this
      ensures conditions == old(conditions) + [Leaf(Liquibase.Custom(preconditionClass, params))]
    {
      var stored := SetParams(params);
      conditions := conditions + [Leaf(Liquibase.Custom(preconditionClass, stored))];
    }

    /** Runs a block: each call in turn, each appending its one condition. */
    method Run(block: seq<PreCall>)
      modifies this
      ensures conditions == old(conditions) + Build(block)
      decreases block, 1
    {
      for i := 0 to |block|
        invariant conditions == old(conditions) + Build(block[..i])
      {
        assert block[..i + 1][..i] == block[..i];
        RunCall(block[i]);
      }
      assert block[..|block|] == block;
    }

    /** Makes one call of a block. */
    method RunCall(c: PreCall)
      modifies this
      ensures conditions == old(conditions) + [BuildCall(c)]
      decreases c, 0
    {
      match c
      case AndCall(b) => And(b);
      case OrCall(b) => Or(b);
      case NotCall(b) => Not(b);
      case _ => RunLeaf(c);
    }

    /** Makes one leaf call of a block. */
    method RunLeaf(c: PreCall)
      requires !c.IsNesting()
      modifies this
      ensures conditions == old(conditions) + [Leaf(LeafOf(c).value)]
    {
      match c
      case ChangeLogPropertyDefinedCall(property, value) => ChangeLogPropertyDefined(property, value);
      case ChangeSetExecutedCall(id, author, changeLogFile) => ChangeSetExecuted(id, author, changeLogFile);
      case ColumnExistsCall(tableName, columnName, schemaName, catalogName) =>
        ColumnExists(tableName, columnName, schemaName, catalogName);
      case DbmsCall(dbmsType) => Dbms(dbmsType);
      case ExpectedQuotingStrategyCall(strategy) => ExpectedQuotingStrategy(strategy);
      case ForeignKeyConstraintExistsCall(foreignKeyName, foreignKeyTableName, schemaName, catalogName) =>
        ForeignKeyConstraintExists(foreignKeyName, foreignKeyTableName, schemaName, catalogName);
      case IndexExistsCall(indexName, indexTableName, columnNames, schemaName, catalogName) =>
        IndexExists(indexName, indexTableName, columnNames, schemaName, catalogName);
      case PrimaryKeyExistsCall(primaryKeyName, keyTableName, schemaName, catalogName) =>
        PrimaryKeyExists(primaryKeyName, keyTableName, schemaName, catalogName);
      case RowCountCall(expectedRows, tableName, schemaName, catalogName) =>
        RowCount(expectedRows, tableName, schemaName, catalogName);
      case RunningAsCall(username) => RunningAs(username);
      case SequenceExistsCall(sequenceName, schemaName, catalogName) =>
        SequenceExists(sequenceName, schemaName, catalogName);
      case SqlCheckCall(expectedResult, sql) => SqlCheck(expectedResult, sql);
      case TableExistsCall(tableName, schemaName, catalogName) => TableExists(tableName, schemaName, catalogName);
      case TableIsEmptyCall(tableName, schemaName, catalogName) => TableIsEmpty(tableName, schemaName, catalogName);
      case UniqueConstraintExistsCall(tableName, columnNames, constraintName, schemaName, catalogName) =>
        UniqueConstraintExists(tableName, columnNames, constraintName, schemaName, catalogName);
      case ViewExistsCall(viewName, schemaName, catalogName) => ViewExists(viewName, schemaName, catalogName);
      case CustomCall(preconditionClass, params) => Custom(preconditionClass, params);
    }
  }

  /**
   * The part of `preConditions` that change sets and change logs share: overwrite all five
   * options of the container, run the block on a fresh builder, and append what it built after
   * the container's existing conditions (the container behaves as an 'and').
   */
  method FillContainer(pre: PreconditionContainer, options: ContainerOptions, block: seq<PreCall>)
    modifies pre
    ensures pre.Options() == options
    ensures pre.nested == old(pre.nested) + Build(block)
  {
    pre.onError, pre.onErrorMessage := options.onError, options.onErrorMessage;
    pre.onFail, pre.onFailMessage := options.onFail, options.onFailMessage;
    pre.onSqlOutput := options.onSqlOutput;
    var dsl := new PreConditionsDsl();
    dsl.Run(block);
    pre.nested := pre.nested + dsl.conditions;
  }
}
