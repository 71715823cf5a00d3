/**
 * The Liquibase types that the builders and the facade fill in or read.
 *
 * Liquibase itself is not part of this model: its types appear here only with the attributes
 * that the code under study sets or reads. Objects that the builders update in place after
 * creating them (a change set, a change log, a precondition container) are classes; everything
 * that is built once and then only stored (changes, preconditions, column descriptions, rows of
 * the change-set history) is a datatype.
 */
module Liquibase {
  import opened Wrappers

  // ---------------------------------------------------------------------------------------------
  // Enumerations used by the builders' parameters

  /** `PreconditionContainer.ErrorOption`. */
  datatype ErrorOption = ErrorHalt | ErrorContinue | ErrorMarkRan | ErrorWarn

  /** `PreconditionContainer.FailOption`. */
  datatype FailOption = FailHalt | FailContinue | FailMarkRan | FailWarn

  /** `PreconditionContainer.OnSqlOutputOption`. */
  datatype OnSqlOutputOption = SqlOutputIgnore | SqlOutputTest | SqlOutputFail

  /** `liquibase.database.ObjectQuotingStrategy`. */
  datatype ObjectQuotingStrategy = Legacy | QuoteAllObjects | QuoteOnlyReservedWords

  /** The enum constant's name, as Kotlin's `strategy.name` gives it. */
  function StrategyName(s: ObjectQuotingStrategy): string
  {
    match s
    case Legacy => "LEGACY"
    case QuoteAllObjects => "QUOTE_ALL_OBJECTS"
    case QuoteOnlyReservedWords => "QUOTE_ONLY_RESERVED_WORDS"
  }

  /** `ChangeSet.ValidationFailOption`. */
  datatype ValidationFailOption = ValidationHalt | ValidationMarkRan

  /** `liquibase.structure.core.ForeignKeyConstraintType`, by constant name. */
  datatype ForeignKeyConstraintType = ForeignKeyConstraintType(name: string)

  // ---------------------------------------------------------------------------------------------
  // Columns and database functions

  /**
   * A `ColumnConfig`. The column builders (outside this model) set its name and further
   * attributes; `attributes` holds those further attributes by name.
   */
  datatype ColumnConfig = ColumnConfig(name: Option<string>, attributes: map<string, string>)

  /** A column that has only a name, as `ColumnConfig().apply { name = it }` makes it. */
  function NamedColumn(name: string): ColumnConfig
  {
    ColumnConfig(Some(name), map[])
  }

  /** `liquibase.statement.DatabaseFunction(schemaName, value)`. */
  datatype DatabaseFunction = DatabaseFunction(schemaName: Option<string>, value: string)

  /** `liquibase.statement.SequenceNextValueFunction(schemaName, sequenceName)`. */
  datatype SequenceNextValueFunction = SequenceNextValueFunction(schemaName: Option<string>, sequenceName: string)

  // ---------------------------------------------------------------------------------------------
  // Preconditions

  /** The preconditions that have no nested preconditions. */
  datatype LeafCondition =
    | ChangeLogPropertyDefined(property: string, propertyValue: Option<string>)
    | ChangeSetExecuted(id: string, author: string, changeLogFile: string)
    | ColumnExists(tableName: string, columnName: string, schemaName: Option<string>, catalogName: Option<string>)
    | Dbms(dbmsType: string)
    | ExpectedQuotingStrategy(strategy: string)
    | ForeignKeyConstraintExists(foreignKeyName: string, foreignKeyTableName: string,
                                 schemaName: Option<string>, catalogName: Option<string>)
    | IndexExists(indexName: Option<string>, indexTableName: Option<string>, columnNames: Option<string>,
                  schemaName: Option<string>, catalogName: Option<string>)
    | PrimaryKeyExists(primaryKeyName: Option<string>, keyTableName: Option<string>,
                       schemaName: Option<string>, catalogName: Option<string>)
    | RowCount(expectedRows: int, tableName: string, schemaName: Option<string>, catalogName: Option<string>)
    | RunningAs(username: string)
    | SequenceExists(sequenceName: string, schemaName: Option<string>, catalogName: Option<string>)
    | SqlCheck(expectedResult: string, sql: string)
    | TableExists(tableName: string, schemaName: Option<string>, catalogName: Option<string>)
    | TableIsEmpty(tableName: string, schemaName: Option<string>, catalogName: Option<string>)
    | UniqueConstraintExists(tableName: string, columnNames: Option<string>, constraintName: Option<string>,
                             schemaName: Option<string>, catalogName: Option<string>)
    | ViewExists(viewName: string, schemaName: Option<string>, catalogName: Option<string>)
    | Custom(className: Option<string>, params: map<string, string>)

  /** A precondition tree: a leaf, or an and/or/not node over its nested preconditions, in order. */
  datatype Precondition =
    | Leaf(condition: LeafCondition)
    | And(nested: seq<Precondition>)
    | Or(nested: seq<Precondition>)
    | Not(nested: seq<Precondition>)

  /** The five options of a precondition container, which every `preConditions` call sets. */
  datatype ContainerOptions = ContainerOptions(
    onError: ErrorOption, onErrorMessage: Option<string>, onFail: FailOption, onFailMessage: Option<string>,
    onSqlOutput: OnSqlOutputOption)

  /** The options `preConditions` uses for the arguments it is not given: halt, halt, ignore, no messages. */
  const DefaultContainerOptions := ContainerOptions(ErrorHalt, None, FailHalt, None, SqlOutputIgnore)

  /**
   * A `PreconditionContainer`, the root of a change set's or change log's preconditions. Like
   * Liquibase's container it behaves as an 'and' over `nested`.
   */
  class PreconditionContainer {
    var onError: ErrorOption
    var onErrorMessage: Option<string>
    var onFail: FailOption
    var onFailMessage: Option<string>
    var onSqlOutput: OnSqlOutputOption
    var nested: seq<Precondition>

    /** An empty container; its options are overwritten by every builder that creates one. */
    constructor ()
      ensures nested == []
      ensures Options() == DefaultContainerOptions
    {
      onError, onErrorMessage := ErrorHalt, None;
      onFail, onFailMessage := FailHalt, None;
      onSqlOutput := SqlOutputIgnore;
      nested := [];
    }

    /** The container's five options, as a value. */
    function Options(): ContainerOptions
      reads this
    {
      ContainerOptions(onError, onErrorMessage, onFail, onFailMessage, onSqlOutput)
    }
  }

  // ---------------------------------------------------------------------------------------------
  // Changes: one record per Liquibase change class, with the attributes the builders set

  datatype CreateTableChange = CreateTableChange(
    tableName: string, catalogName: Option<string>, ifNotExists: bool, remarks: Option<string>,
    rowDependencies: bool, schemaName: Option<string>, tablespace: Option<string>, tableType: Option<string>,
    columns: seq<ColumnConfig>)

  datatype DropTableChange = DropTableChange(
    tableName: string, cascadeConstraints: Option<bool>, catalogName: Option<string>, schemaName: Option<string>)

  datatype SetTableRemarksChange = SetTableRemarksChange(
    tableName: string, remarks: string, catalogName: Option<string>, schemaName: Option<string>)

  datatype RenameTableChange = RenameTableChange(
    oldTableName: string, newTableName: string, catalogName: Option<string>, schemaName: Option<string>)

  datatype AddColumnChange = AddColumnChange(
    tableName: string, catalogName: Option<string>, schemaName: Option<string>, columns: seq<ColumnConfig>)

  datatype DropColumnChange = DropColumnChange(
    tableName: string, columnName: Option<string>, columns: seq<ColumnConfig>,
    catalogName: Option<string>, schemaName: Option<string>)

  datatype RenameColumnChange = RenameColumnChange(
    tableName: string, oldColumnName: string, newColumnName: string, catalogName: Option<string>,
    columnDataType: Option<string>, remarks: Option<string>, schemaName: Option<string>)

  datatype ModifyDataTypeChange = ModifyDataTypeChange(
    tableName: string, columnName: string, newDataType: string, catalogName: Option<string>,
    schemaName: Option<string>)

  datatype SetColumnRemarksChange = SetColumnRemarksChange(
    tableName: string, columnName: string, remarks: string, catalogName: Option<string>,
    columnDataType: Option<string>, columnParentType: Option<string>, schemaName: Option<string>)

  datatype AddAutoIncrementChange = AddAutoIncrementChange(
    tableName: string, columnName: string, catalogName: Option<string>, columnDataType: Option<string>,
    defaultOnNull: Option<bool>, generationType: Option<string>, incrementBy: Option<int>,
    schemaName: Option<string>, startWith: Option<int>)

  datatype CreateIndexChange = CreateIndexChange(
    tableName: string, associatedWith: Option<string>, catalogName: Option<string>, clustered: Option<bool>,
    indexName: Option<string>, schemaName: Option<string>, tablespace: Option<string>, unique: Option<bool>,
    using: Option<string>, columns: seq<ColumnConfig>)

  datatype DropIndexChange = DropIndexChange(
    indexName: string, catalogName: Option<string>, schemaName: Option<string>, tableName: Option<string>)

  datatype CreateViewChange = CreateViewChange(
    viewName: string, selectQuery: string, catalogName: Option<string>, fullDefinition: Option<bool>,
    remarks: Option<string>, replaceIfExists: Option<bool>, schemaName: Option<string>)

  datatype DropViewChange = DropViewChange(
    viewName: string, catalogName: Option<string>, ifExists: Option<bool>, schemaName: Option<string>)

  datatype RenameViewChange = RenameViewChange(
    oldViewName: string, newViewName: string, catalogName: Option<string>, schemaName: Option<string>)

  datatype CreateProcedureChange = CreateProcedureChange(
    procedureName: string, procedureText: string, catalogName: Option<string>, dbms: Option<string>,
    replaceIfExists: Option<bool>, schemaName: Option<string>)

  datatype DropProcedureChange = DropProcedureChange(
    procedureName: string, catalogName: Option<string>, schemaName: Option<string>)

  datatype CreateSequenceChange = CreateSequenceChange(
    sequenceName: string, cacheSize: Option<int>, catalogName: Option<string>, cycle: Option<bool>,
    dataType: Option<string>, incrementBy: Option<int>, maxValue: Option<int>, minValue: Option<int>,
    ordered: Option<bool>, schemaName: Option<string>, startValue: Option<int>)

  datatype DropSequenceChange = DropSequenceChange(
    sequenceName: string, catalogName: Option<string>, schemaName: Option<string>)

  datatype RenameSequenceChange = RenameSequenceChange(
    oldSequenceName: string, newSequenceName: string, catalogName: Option<string>, schemaName: Option<string>)

  datatype AlterSequenceChange = AlterSequenceChange(
    sequenceName: string, cacheSize: Option<int>, catalogName: Option<string>, cycle: Option<bool>,
    dataType: Option<string>, incrementBy: Option<int>, maxValue: Option<int>, minValue: Option<int>,
    ordered: Option<bool>, schemaName: Option<string>)

  /** The default-value attributes of an `AddDefaultValueChange`, which `CreateDefaultValueDsl` sets. */
  datatype DefaultValues = DefaultValues(
    defaultValue: Option<string>, defaultValueNumeric: Option<string>, defaultValueBoolean: Option<bool>,
    defaultValueComputed: Option<DatabaseFunction>, defaultValueSequenceNext: Option<SequenceNextValueFunction>,
    defaultValueDate: Option<string>)

  /** No default value of any kind set yet. */
  const NoDefaults := DefaultValues(None, None, None, None, None, None)

  datatype AddDefaultValueData = AddDefaultValueData(
    tableName: string, columnName: string, catalogName: Option<string>, columnDataType: Option<string>,
    defaultValueConstraintName: Option<string>, schemaName: Option<string>, defaults: DefaultValues)

  /**
   * An `AddDefaultValueChange` while its default value is being set: `addDefaultValue` fills in
   * the column it applies to and hands it to `CreateDefaultValueDsl`, whose calls set the
   * default-value attributes one by one.
   */
  class AddDefaultValueChange {
    const tableName: string
    const columnName: string
    const catalogName: Option<string>
    const columnDataType: Option<string>
    const defaultValueConstraintName: Option<string>
    const schemaName: Option<string>

    var defaultValue: Option<string>
    var defaultValueNumeric: Option<string>
    var defaultValueBoolean: Option<bool>
    var defaultValueComputed: Option<DatabaseFunction>
    var defaultValueSequenceNext: Option<SequenceNextValueFunction>
    var defaultValueDate: Option<string>

    constructor (tableName: string, columnName: string, catalogName: Option<string>, columnDataType: Option<string>,
                 defaultValueConstraintName: Option<string>, schemaName: Option<string>)
      ensures this.tableName == tableName && this.columnName == columnName && this.catalogName == catalogName
      ensures this.columnDataType == columnDataType && this.defaultValueConstraintName == defaultValueConstraintName
      ensures this.schemaName == schemaName
      ensures Defaults() == NoDefaults
    {
      this.tableName, this.columnName, this.catalogName := tableName, columnName, catalogName;
      this.columnDataType, this.defaultValueConstraintName, this.schemaName :=
        columnDataType, defaultValueConstraintName, schemaName;
      defaultValue, defaultValueNumeric, defaultValueBoolean := None, None, None;
      defaultValueComputed, defaultValueSequenceNext, defaultValueDate := None, None, None;
    }

    /** The default-value attributes, as a value. */
    function Defaults(): DefaultValues
      reads this
    {
      DefaultValues(defaultValue, defaultValueNumeric, defaultValueBoolean, defaultValueComputed,
                    defaultValueSequenceNext, defaultValueDate)
    }

    /** The change as it is stored in a change list. */
    function Data(): AddDefaultValueData
      reads this
    {
      AddDefaultValueData(tableName, columnName, catalogName, columnDataType, defaultValueConstraintName,
                          schemaName, Defaults())
    }
  }

  datatype DropDefaultValueChange = DropDefaultValueChange(
    tableName: string, columnName: string, catalogName: Option<string>, columnDataType: Option<string>,
    schemaName: Option<string>)

  datatype AddForeignKeyConstraintChange = AddForeignKeyConstraintChange(
    constraintName: string, baseTableName: string, baseColumnNames: string, referencedTableName: string,
    referencedColumnNames: string, baseTableCatalogName: Option<string>, baseTableSchemaName: Option<string>,
    deferrable: Option<bool>, initiallyDeferred: Option<bool>, onDelete: Option<ForeignKeyConstraintType>,
    onUpdate: Option<ForeignKeyConstraintType>, referencedTableCatalogName: Option<string>,
    referencedTableSchemaName: Option<string>, validate: Option<bool>)

  datatype DropForeignKeyConstraintChange = DropForeignKeyConstraintChange(
    constraintName: string, baseTableName: string, baseTableCatalogName: Option<string>,
    baseTableSchemaName: Option<string>)

  datatype DropAllForeignKeyConstraintsChange = DropAllForeignKeyConstraintsChange(
    baseTableName: string, baseTableCatalogName: Option<string>, baseTableSchemaName: Option<string>)

  datatype AddNotNullConstraintChange = AddNotNullConstraintChange(
    tableName: string, columnName: string, catalogName: Option<string>, columnDataType: Option<string>,
    constraintName: Option<string>, defaultNullValue: Option<string>, schemaName: Option<string>,
    validate: Option<bool>)

  datatype DropNotNullConstraintChange = DropNotNullConstraintChange(
    tableName: string, columnName: string, catalogName: Option<string>, columnDataType: Option<string>,
    constraintName: Option<string>, schemaName: Option<string>)

  datatype AddPrimaryKeyChange = AddPrimaryKeyChange(
    tableName: string, columnNames: string, catalogName: Option<string>, clustered: Option<bool>,
    constraintName: Option<string>, forIndexCatalogName: Option<string>, forIndexName: Option<string>,
    forIndexSchemaName: Option<string>, schemaName: Option<string>, tablespace: Option<string>,
    validate: Option<bool>)

  datatype DropPrimaryKeyChange = DropPrimaryKeyChange(
    tableName: string, catalogName: Option<string>, constraintName: Option<string>, dropIndex: Option<bool>,
    schemaName: Option<string>)

  datatype AddUniqueConstraintChange = AddUniqueConstraintChange(
    tableName: string, columnNames: string, catalogName: Option<string>, clustered: Option<bool>,
    constraintName: Option<string>, deferrable: Option<bool>, disabled: Option<bool>,
    forIndexCatalogName: Option<string>, forIndexName: Option<string>, forIndexSchemaName: Option<string>,
    initiallyDeferred: Option<bool>, schemaName: Option<string>, tablespace: Option<string>,
    validate: Option<bool>)

  datatype DropUniqueConstraintChange = DropUniqueConstraintChange(
    tableName: string, constraintName: string, catalogName: Option<string>, schemaName: Option<string>,
    uniqueColumns: Option<string>)

  datatype AddLookupTableChange = AddLookupTableChange(
    existingTableName: string, existingColumnName: string, newTableName: string, newColumnName: string,
    constraintName: Option<string>, existingTableCatalogName: Option<string>,
    existingTableSchemaName: Option<string>, newColumnDataType: Option<string>,
    newTableCatalogName: Option<string>, newTableSchemaName: Option<string>)

  datatype DeleteDataChange = DeleteDataChange(
    tableName: string, catalogName: Option<string>, schemaName: Option<string>, where: Option<string>,
    whereParams: seq<ColumnConfig>)

  datatype InsertDataChange = InsertDataChange(
    tableName: string, catalogName: Option<string>, dbms: Option<string>, schemaName: Option<string>,
    columns: seq<ColumnConfig>)

  datatype MergeColumnChange = MergeColumnChange(
    tableName: string, column1Name: string, column2Name: string, finalColumnName: string,
    finalColumnType: string, catalogName: Option<string>, joinString: Option<string>, schemaName: Option<string>)

  datatype UpdateDataChange = UpdateDataChange(
    tableName: string, catalogName: Option<string>, schemaName: Option<string>, where: Option<string>,
    whereParams: seq<ColumnConfig>, columns: seq<ColumnConfig>)

  /**
   * The parameter map of a custom precondition or custom change after `setParam(key, value)`
   * has been called for every entry of `params`, one entry at a time.
   */
  method SetParams(params: map<string, string>) returns (stored: map<string, string>)
    ensures stored == params
  {
    stored := map[];
    var remaining := params.Keys;
    while remaining != {}
      invariant remaining <= params.Keys
      invariant stored.Keys == params.Keys - remaining
      invariant forall key :: key in stored ==> stored[key] == params[key]
      decreases remaining
    {
      var key :| key in remaining;
      stored := stored[key := params[key]];
      remaining := remaining - {key};
    }
  }

  /** A `CustomChangeWrapper`: the class to instantiate and the parameters set on it. */
  datatype CustomChangeWrapper = CustomChangeWrapper(className: string, params: map<string, string>)

  datatype ExecuteShellCommandChange = ExecuteShellCommandChange(
    executable: string, os: Option<string>, timeout: Option<string>, args: seq<string>)

  datatype OutputChange = OutputChange(message: string, target: Option<string>)

  datatype RawSqlChange = RawSqlChange(
    sql: string, dbms: Option<string>, endDelimiter: Option<string>, splitStatements: Option<bool>,
    stripComments: Option<bool>)

  datatype StopChange = StopChange(message: Option<string>)

  datatype TagDatabaseChange = TagDatabaseChange(tag: string, keepTagOnRollback: Option<bool>)

  /** A Liquibase `Change`, one alternative per change class the builders create. */
  datatype Change =
    | CreateTable(createTable: CreateTableChange)
    | DropTable(dropTable: DropTableChange)
    | SetTableRemarks(setTableRemarks: SetTableRemarksChange)
    | RenameTable(renameTable: RenameTableChange)
    | AddColumn(addColumn: AddColumnChange)
    | DropColumn(dropColumn: DropColumnChange)
    | RenameColumn(renameColumn: RenameColumnChange)
    | ModifyDataType(modifyDataType: ModifyDataTypeChange)
    | SetColumnRemarks(setColumnRemarks: SetColumnRemarksChange)
    | AddAutoIncrement(addAutoIncrement: AddAutoIncrementChange)
    | CreateIndex(createIndex: CreateIndexChange)
    | DropIndex(dropIndex: DropIndexChange)
    | CreateView(createView: CreateViewChange)
    | DropView(dropView: DropViewChange)
    | RenameView(renameView: RenameViewChange)
    | CreateProcedure(createProcedure: CreateProcedureChange)
    | DropProcedure(dropProcedure: DropProcedureChange)
    | CreateSequence(createSequence: CreateSequenceChange)
    | DropSequence(dropSequence: DropSequenceChange)
    | RenameSequence(renameSequence: RenameSequenceChange)
    | AlterSequence(alterSequence: AlterSequenceChange)
    | AddDefaultValue(addDefaultValue: AddDefaultValueData)
    | DropDefaultValue(dropDefaultValue: DropDefaultValueChange)
    | AddForeignKeyConstraint(addForeignKeyConstraint: AddForeignKeyConstraintChange)
    | DropForeignKeyConstraint(dropForeignKeyConstraint: DropForeignKeyConstraintChange)
    | DropAllForeignKeyConstraints(dropAllForeignKeyConstraints: DropAllForeignKeyConstraintsChange)
    | AddNotNullConstraint(addNotNullConstraint: AddNotNullConstraintChange)
    | DropNotNullConstraint(dropNotNullConstraint: DropNotNullConstraintChange)
    | AddPrimaryKey(addPrimaryKey: AddPrimaryKeyChange)
    | DropPrimaryKey(dropPrimaryKey: DropPrimaryKeyChange)
    | AddUniqueConstraint(addUniqueConstraint: AddUniqueConstraintChange)
    | DropUniqueConstraint(dropUniqueConstraint: DropUniqueConstraintChange)
    | AddLookupTable(addLookupTable: AddLookupTableChange)
    | DeleteData(deleteData: DeleteDataChange)
    | InsertData(insertData: InsertDataChange)
    | MergeColumns(mergeColumns: MergeColumnChange)
    | UpdateData(updateData: UpdateDataChange)
    | CustomChange(customChange: CustomChangeWrapper)
    | ExecuteCommand(executeCommand: ExecuteShellCommandChange)
    | Output(output: OutputChange)
    | RawSql(rawSql: RawSqlChange)
    | Stop(stop: StopChange)
    | TagDatabase(tagDatabase: TagDatabaseChange)

  // ---------------------------------------------------------------------------------------------
  // Change sets, change logs and the change-set history

  /** A stored checksum: the checksum algorithm version and the stored text. */
  datatype CheckSum = CheckSum(version: int, storedCheckSum: string)

  /** A row of the DATABASECHANGELOG table, as the history service returns it. */
  datatype RanChangeSet = RanChangeSet(
    changeLog: string, id: string, author: string, lastCheckSum: Option<CheckSum>, tag: Option<string>)

  /** A property registered on a change log's `ChangeLogParameters`. */
  datatype ChangeLogProperty = ChangeLogProperty(
    name: string, value: string, context: Option<string>, labels: Option<string>, dbms: Option<string>,
    global: bool)

  /** A change visitor, as `ChangeVisitorFactory.create` returns it. */
  datatype ChangeVisitor =
    | AddColumnChangeVisitor(dbms: Option<string>, remove: Option<string>)
    | OtherChangeVisitor(change: string)

  /**
   * A `ChangeSet`. What its constructor receives is constant; the rest is set by the change-log
   * builder and by `ChangeSetDsl` while the change set is being built.
   */
  class ChangeSet {
    const id: string
    const author: string
    const alwaysRun: bool
    const runOnChange: bool
    const filePath: string
    const contextFilter: Option<string>
    const dbmsList: Option<string>
    const runWith: Option<string>
    const runWithSpoolFile: Option<string>
    const runInTransaction: bool
    const objectQuotingStrategy: Option<ObjectQuotingStrategy>
    const changeLog: DatabaseChangeLog

    var created: Option<string>
    var failOnError: Option<bool>
    var ignore: bool
    /** `None` is Liquibase's default label set, which the builder leaves alone when no labels are given. */
    var labels: Option<string>
    var logicalFilePath: Option<string>
    var onValidationFail: ValidationFailOption
    var runOrder: Option<string>
    var comments: Option<string>
    var validCheckSums: seq<string>
    var changes: seq<Change>
    var rollbackChanges: seq<Change>
    var preconditions: PreconditionContainer?

    constructor (id: string, author: string, alwaysRun: bool, runOnChange: bool, filePath: string,
                 contextFilter: Option<string>, dbmsList: Option<string>, runWith: Option<string>,
                 runWithSpoolFile: Option<string>, runInTransaction: bool,
                 objectQuotingStrategy: Option<ObjectQuotingStrategy>, changeLog: DatabaseChangeLog)
      ensures this.id == id && this.author == author && this.alwaysRun == alwaysRun
      ensures this.runOnChange == runOnChange && this.filePath == filePath
      ensures this.contextFilter == contextFilter && this.dbmsList == dbmsList
      ensures this.runWith == runWith && this.runWithSpoolFile == runWithSpoolFile
      ensures this.runInTransaction == runInTransaction && this.objectQuotingStrategy == objectQuotingStrategy
      ensures this.changeLog == changeLog
      ensures created == None && failOnError == None && !ignore && labels == None
      ensures logicalFilePath == None && onValidationFail == ValidationHalt && runOrder == None
      ensures comments == None && validCheckSums == [] && changes == [] && rollbackChanges == []
      ensures preconditions == null
    {
      this.id, this.author, this.alwaysRun, this.runOnChange := id, author, alwaysRun, runOnChange;
      this.filePath, this.contextFilter, this.dbmsList := filePath, contextFilter, dbmsList;
      this.runWith, this.runWithSpoolFile, this.runInTransaction := runWith, runWithSpoolFile, runInTransaction;
      this.objectQuotingStrategy, this.changeLog := objectQuotingStrategy, changeLog;
      created, failOnError, ignore, labels := None, None, false, None;
      logicalFilePath, onValidationFail, runOrder := None, ValidationHalt, None;
      comments, validCheckSums, changes, rollbackChanges := None, [], [], [];
      preconditions := null;
    }
  }

  /** A `DatabaseChangeLog`. */
  class DatabaseChangeLog {
    var logicalFilePath: Option<string>
    var physicalFilePath: Option<string>
    /** `None` is Liquibase's default context filter, which `ChangeLog` leaves alone when none is given. */
    var contextFilter: Option<string>
    var objectQuotingStrategy: Option<ObjectQuotingStrategy>
    var changeSets: seq<ChangeSet>
    var preconditions: PreconditionContainer?
    var changeVisitors: seq<ChangeVisitor>
    var parameters: seq<ChangeLogProperty>

    constructor ()
      ensures logicalFilePath == None && physicalFilePath == None && contextFilter == None
      ensures objectQuotingStrategy == None && changeSets == [] && preconditions == null
      ensures changeVisitors == [] && parameters == []
    {
      logicalFilePath, physicalFilePath, contextFilter := None, None, None;
      objectQuotingStrategy, changeSets, preconditions := None, [], null;
      changeVisitors, parameters := [], [];
    }
  }

  /**
   * The first change set of `changeSets` with the given path, author and id, as
   * `DatabaseChangeLog.getChangeSet(path, author, id)` looks it up.
   */
  function FindChangeSet(changeSets: seq<ChangeSet>, path: string, author: string, id: string): (r: Option<ChangeSet>)
    ensures r.Some? <==> exists i :: 0 <= i < |changeSets| && changeSets[i].filePath == path
                                     && changeSets[i].author == author && changeSets[i].id == id
    ensures r.Some? ==> r.value in changeSets && r.value.filePath == path && r.value.author == author
                        && r.value.id == id
    ensures r.Some? ==> exists i :: 0 <= i < |changeSets| && changeSets[i] == r.value
                          && forall j :: 0 <= j < i ==> !(changeSets[j].filePath == path
                                                          && changeSets[j].author == author && changeSets[j].id == id)
  {
    if changeSets == [] then None
    else if changeSets[0].filePath == path && changeSets[0].author == author && changeSets[0].id == id
    then Some(changeSets[0])
    else FindChangeSet(changeSets[1..], path, author, id)
  }

  /**
   * The first history row recorded for the change set with the given path, author and id, as
   * the history service's `getRanChangeSet(changeSet)` looks it up.
   */
  function FindRanChangeSet(ran: seq<RanChangeSet>, path: string, author: string, id: string): (r: Option<RanChangeSet>)
    ensures r.Some? <==> exists i :: 0 <= i < |ran| && ran[i].changeLog == path && ran[i].author == author
                                     && ran[i].id == id
    ensures r.Some? ==> r.value in ran && r.value.changeLog == path && r.value.author == author && r.value.id == id
    ensures r.Some? ==> exists i :: 0 <= i < |ran| && ran[i] == r.value
                          && forall j :: 0 <= j < i ==> !(ran[j].changeLog == path && ran[j].author == author
                                                          && ran[j].id == id)
  {
    if ran == [] then None
    else if ran[0].changeLog == path && ran[0].author == author && ran[0].id == id then Some(ran[0])
    else FindRanChangeSet(ran[1..], path, author, id)
  }
}
