/**
 * `ChangesDsl`: the block of a change set's `changes` and `rollback` calls. Every builder
 * creates one Liquibase change from its arguments, and from what its own block built where it
 * has one, and appends it to `changes`: the list grows by exactly one entry and the earlier
 * entries stay as they were.
 *
 * The column builders that some calls hand their block to (`CreateTableDsl`, `AddColumnDsl`,
 * `CreateIndexDsl`, `InsertDsl`, `UpdateWhereDsl`) only collect column descriptions; such a
 * block is represented by the columns it built, in order. The block of `addDefaultValue` is a
 * `CreateDefaultValueDsl` script.
 */
module ChangesDsl {
  import opened Wrappers
  import opened Liquibase
  import DefaultValue = CreateDefaultValueDsl

  /**
   * The change `dropColumn` builds: the single `columnName` is set exactly when one name is
   * given (what SQLite supports), and `columns` always holds one column per name, in order.
   */
  function DropColumnOf(tableName: string, columnNames: seq<string>, catalogName: Option<string>,
                        schemaName: Option<string>): (r: DropColumnChange)
    ensures r.tableName == tableName && r.catalogName == catalogName && r.schemaName == schemaName
    ensures r.columnName.Some? <==> |columnNames| == 1
    ensures r.columnName.Some? ==> r.columnName.value == columnNames[0]
    ensures |r.columns| == |columnNames|
    ensures forall i :: 0 <= i < |columnNames| ==> r.columns[i].name == Some(columnNames[i])
                                                    && r.columns[i].attributes == map[]
  {
    DropColumnChange(tableName, if |columnNames| == 1 then Some(columnNames[0]) else None,
                     seq(|columnNames|, i requires 0 <= i < |columnNames| => NamedColumn(columnNames[i])),
                     catalogName, schemaName)
  }

  class ChangesDsl {
    var changes: seq<Change>

    constructor ()
      ensures changes == []
    {
      changes := [];
    }

    // -- Tables

    /** The table's columns are the ones its block built, in order. */
    method CreateTable(tableName: string, catalogName: Option<string> := None, ifNotExists: bool := false,
                       remarks: Option<string> := None, rowDependencies: bool := false,
                       schemaName: Option<string> := None, tablespace: Option<string> := None,
                       tableType: Option<string> := None, columns: seq<ColumnConfig>)
      modifies this
      ensures changes == old(changes) + [Liquibase.CreateTable(
                CreateTableChange(tableName, catalogName, ifNotExists, remarks, rowDependencies, schemaName,
                                  tablespace, tableType, columns))]
    {
      var change := CreateTableChange(tableName, catalogName, ifNotExists, remarks, rowDependencies, schemaName,
        tablespace, tableType, columns);
      changes := changes + [Liquibase.CreateTable(change)];
    }

    method DropTable(tableName: string, cascadeConstraints: Option<bool> := None,
                     catalogName: Option<string> := None, schemaName: Option<string> := None)
      modifies this
      ensures changes == old(changes) + [Liquibase.DropTable(
                DropTableChange(tableName, cascadeConstraints, catalogName, schemaName))]
    {
      var change := DropTableChange(tableName, cascadeConstraints, catalogName, schemaName);
      changes := changes + [Liquibase.DropTable(change)];
    }

    method SetTableRemarks(tableName: string, remarks: string, catalogName: Option<string> := None,
                           schemaName: Option<string> := None)
      modifies this
      ensures changes == old(changes) + [Liquibase.SetTableRemarks(
                SetTableRemarksChange(tableName, remarks, catalogName, schemaName))]
    {
      var change := SetTableRemarksChange(tableName, remarks, catalogName, schemaName);
      changes := changes + [Liquibase.SetTableRemarks(change)];
    }

    method RenameTable(oldTableName: string, newTableName: string, catalogName: Option<string> := None,
                       schemaName: Option<string> := None)
      modifies this
      ensures changes == old(changes) + [Liquibase.RenameTable(
                RenameTableChange(oldTableName, newTableName, catalogName, schemaName))]
    {
      var change := RenameTableChange(oldTableName, newTableName, catalogName, schemaName);
      changes := changes + [Liquibase.RenameTable(change)];
    }

    // -- Columns

    /** The added columns are the ones its block built, in order. */
    method AddColumn(tableName: string, catalogName: Option<string> := None, schemaName: Option<string> := None,
                     columns: seq<ColumnConfig>)
      modifies this
      ensures changes == old(changes) + [Liquibase.AddColumn(AddColumnChange(tableName, catalogName, schemaName,
                                                                             columns))]
    {
      changes := changes + [Liquibase.AddColumn(AddColumnChange(tableName, catalogName, schemaName, columns))];
    }

    /** `columnNames` is Kotlin's `vararg columnName`, which may be empty. */
    method DropColumn(tableName: string, columnNames: seq<string>, catalogName: Option<string> := None,
                      schemaName: Option<string> := None)
      modifies this
      ensures changes == old(changes) + [Liquibase.DropColumn(DropColumnOf(tableName, columnNames, catalogName,
                                                                           schemaName))]
    {
      changes := changes + [Liquibase.DropColumn(DropColumnOf(tableName, columnNames, catalogName, schemaName))];
    }

    method RenameColumn(tableName: string, oldColumnName: string, newColumnName: string,
                        catalogName: Option<string> := None, columnDataType: Option<string> := None,
                        remarks: Option<string> := None, schemaName: Option<string> := None)
      modifies this
      ensures changes == old(changes) + [Liquibase.RenameColumn(
                RenameColumnChange(tableName, oldColumnName, newColumnName, catalogName, columnDataType,
                                   remarks, schemaName))]
    {
      var change := RenameColumnChange(tableName, oldColumnName, newColumnName, catalogName, columnDataType,
        remarks, schemaName);
      changes := changes + [Liquibase.RenameColumn(change)];
    }

    method ModifyDataType(tableName: string, columnName: string, newDataType: string,
                          catalogName: Option<string> := None, schemaName: Option<string> := None)
      modifies this
      ensures changes == old(changes) + [Liquibase.ModifyDataType(
                ModifyDataTypeChange(tableName, columnName, newDataType, catalogName, schemaName))]
    {
      var change := ModifyDataTypeChange(tableName, columnName, newDataType, catalogName, schemaName);
      changes := changes + [Liquibase.ModifyDataType(change)];
    }

    method SetColumnRemarks(tableName: string, columnName: string, remarks: string,
                            catalogName: Option<string> := None, columnDataType: Option<string> := None,
                            columnParentType: Option<string> := None, schemaName: Option<string> := None)
      modifies this
      ensures changes == old(changes) + [Liquibase.SetColumnRemarks(
                SetColumnRemarksChange(tableName, columnName, remarks, catalogName, columnDataType,
                                       columnParentType, schemaName))]
    {
      var change := SetColumnRemarksChange(tableName, columnName, remarks, catalogName, columnDataType,
        columnParentType, schemaName);
      changes := changes + [Liquibase.SetColumnRemarks(change)];
    }

    method AddAutoIncrement(tableName: string, columnName: string, catalogName: Option<string> := None,
                            columnDataType: Option<string> := None, defaultOnNull: Option<bool> := None,
                            generationType: Option<string> := None, incrementBy: Option<int> := None,
                            schemaName: Option<string> := None, startWith: Option<int> := None)
      modifies this
      ensures changes == old(changes) + [Liquibase.AddAutoIncrement(
                AddAutoIncrementChange(tableName, columnName, catalogName, columnDataType, defaultOnNull,
                                       generationType, incrementBy, schemaName, startWith))]
    {
      var change := AddAutoIncrementChange(tableName, columnName, catalogName, columnDataType, defaultOnNull,
        generationType, incrementBy, schemaName, startWith);
      changes := changes + [Liquibase.AddAutoIncrement(change)];
    }

    // -- Indexes, views, procedures and sequences

    method CreateIndex(tableName: string, associatedWith: Option<string> := None,
                       catalogName: Option<string> := None, clustered: Option<bool> := None,
                       indexName: Option<string> := None, schemaName: Option<string> := None,
                       tablespace: Option<string> := None, unique: Option<bool> := None,
                       using: Option<string> := None, columns: seq<ColumnConfig>)
      modifies this
      ensures changes == old(changes) + [Liquibase.CreateIndex(
                CreateIndexChange(tableName, associatedWith, catalogName, clustered, indexName, schemaName,
                                  tablespace, unique, using, columns))]
    {
      var change := CreateIndexChange(tableName, associatedWith, catalogName, clustered, indexName, schemaName,
        tablespace, unique, using, columns);
      changes := changes + [Liquibase.CreateIndex(change)];
    }

    method DropIndex(indexName: string, catalogName: Option<string> := None, schemaName: Option<string> := None,
                     tableName: Option<string> := None)
      modifies this
      ensures changes == old(changes) + [Liquibase.DropIndex(
                DropIndexChange(indexName, catalogName, schemaName, tableName))]
    {
      var change := DropIndexChange(indexName, catalogName, schemaName, tableName);
      changes := changes + [Liquibase.DropIndex(change)];
    }

    method CreateView(viewName: string, selectQuery: string, catalogName: Option<string> := None,
                      fullDefinition: Option<bool> := None, remarks: Option<string> := None,
                      replaceIfExists: Option<bool> := None, schemaName: Option<string> := None)
      modifies this
      ensures changes == old(changes) + [Liquibase.CreateView(
                CreateViewChange(viewName, selectQuery, catalogName, fullDefinition, remarks, replaceIfExists,
                                 schemaName))]
    {
      var change := CreateViewChange(viewName, selectQuery, catalogName, fullDefinition, remarks,
        replaceIfExists, schemaName);
      changes := changes + [Liquibase.CreateView(change)];
    }

    method DropView(viewName: string, catalogName: Option<string> := None, ifExists: Option<bool> := None,
                    schemaName: Option<string> := None)
      modifies this
      ensures changes == old(changes) + [Liquibase.DropView(
                DropViewChange(viewName, catalogName, ifExists, schemaName))]
    {
      var change := DropViewChange(viewName, catalogName, ifExists, schemaName);
      changes := changes + [Liquibase.DropView(change)];
    }

    method RenameView(oldViewName: string, newViewName: string, catalogName: Option<string> := None,
                      schemaName: Option<string> := None)
      modifies this
      ensures changes == old(changes) + [Liquibase.RenameView(
                RenameViewChange(oldViewName, newViewName, catalogName, schemaName))]
    {
      var change := RenameViewChange(oldViewName, newViewName, catalogName, schemaName);
      changes := changes + [Liquibase.RenameView(change)];
    }

    method CreateProcedure(procedureName: string, procedureText: string, catalogName: Option<string> := None,
                           dbms: Option<string> := None, replaceIfExists: Option<bool> := None,
                           schemaName: Option<string> := None)
      modifies this
      ensures changes == old(changes) + [Liquibase.CreateProcedure(
                CreateProcedureChange(procedureName, procedureText, catalogName, dbms, replaceIfExists,
                                      schemaName))]
    {
      var change := CreateProcedureChange(procedureName, procedureText, catalogName, dbms, replaceIfExists,
        schemaName);
      changes := changes + [Liquibase.CreateProcedure(change)];
    }

    method DropProcedure(procedureName: string, catalogName: Option<string> := None,
                         schemaName: Option<string> := None)
      modifies this
      ensures changes == old(changes) + [Liquibase.DropProcedure(
                DropProcedureChange(procedureName, catalogName, schemaName))]
    {
      var change := DropProcedureChange(procedureName, catalogName, schemaName);
      changes := changes + [Liquibase.DropProcedure(change)];
    }

    method CreateSequence(sequenceName: string, cacheSize: Option<int> := None,
                          catalogName: Option<string> := None, cycle: Option<bool> := None,
                          dataType: Option<string> := None, incrementBy: Option<int> := None,
                          maxValue: Option<int> := None, minValue: Option<int> := None,
                          ordered: Option<bool> := None, schemaName: Option<string> := None,
                          startValue: Option<int> := None)
      modifies this
      ensures changes == old(changes) + [Liquibase.CreateSequence(
                CreateSequenceChange(sequenceName, cacheSize, catalogName, cycle, dataType, incrementBy,
                                     maxValue, minValue, ordered, schemaName, startValue))]
    {
      var change := CreateSequenceChange(sequenceName, cacheSize, catalogName, cycle, dataType, incrementBy,
        maxValue, minValue, ordered, schemaName, startValue);
      changes := changes + [Liquibase.CreateSequence(change)];
    }

    method DropSequence(sequenceName: string, catalogName: Option<string> := None,
                        schemaName: Option<string> := None)
      modifies this
      ensures changes == old(changes) + [Liquibase.DropSequence(
                DropSequenceChange(sequenceName, catalogName, schemaName))]
    {
      var change := DropSequenceChange(sequenceName, catalogName, schemaName);
      changes := changes + [Liquibase.DropSequence(change)];
    }

    method RenameSequence(oldSequenceName: string, newSequenceName: string, catalogName: Option<string> := None,
                          schemaName: Option<string> := None)
      modifies this
      ensures changes == old(changes) + [Liquibase.RenameSequence(
                RenameSequenceChange(oldSequenceName, newSequenceName, catalogName, schemaName))]
    {
      var change := RenameSequenceChange(oldSequenceName, newSequenceName, catalogName, schemaName);
      changes := changes + [Liquibase.RenameSequence(change)];
    }

    method AlterSequence(sequenceName: string, cacheSize: Option<int> := None,
                         catalogName: Option<string> := None, cycle: Option<bool> := None,
                         dataType: Option<string> := None, incrementBy: Option<int> := None,
                         maxValue: Option<int> := None, minValue: Option<int> := None,
                         ordered: Option<bool> := None, schemaName: Option<string> := None)
      modifies this
      ensures changes == old(changes) + [Liquibase.AlterSequence(
                AlterSequenceChange(sequenceName, cacheSize, catalogName, cycle, dataType, incrementBy,
                                    maxValue, minValue, ordered, schemaName))]
    {
      var change := AlterSequenceChange(sequenceName, cacheSize, catalogName, cycle, dataType, incrementBy,
        maxValue, minValue, ordered, schemaName);
      changes := changes + [Liquibase.AlterSequence(change)];
    }

    // -- Constraints

    /**
     * Creates the change for the column, lets the block's calls set its default value, and
     * appends it with the default value they left.
     */
    method AddDefaultValue(tableName: string, columnName: string, catalogName: Option<string> := None,
                           columnDataType: Option<string> := None,
                           defaultValueConstraintName: Option<string> := None, schemaName: Option<string> := None,
                           block: seq<DefaultValue.DefaultValueCall>)
      requires DefaultValue.CallsFit(block)
      modifies this
      ensures changes == old(changes) + [Liquibase.AddDefaultValue(
                AddDefaultValueData(tableName, columnName, catalogName, columnDataType, defaultValueConstraintName,
                                    schemaName, DefaultValue.ApplyAll(NoDefaults, block)))]
    {
      var change := new AddDefaultValueChange(tableName, columnName, catalogName, columnDataType,
                                              defaultValueConstraintName, schemaName);
      var dsl := new DefaultValue.CreateDefaultValueDsl(change);
      dsl.Run(block);
      changes := changes + [Liquibase.AddDefaultValue(change.Data())];
    }

    method DropDefaultValue(tableName: string, columnName: string, catalogName: Option<string> := None,
                            columnDataType: Option<string> := None, schemaName: Option<string> := None)
      modifies this
      ensures changes == old(changes) + [Liquibase.DropDefaultValue(
                DropDefaultValueChange(tableName, columnName, catalogName, columnDataType, schemaName))]
    {
      var change := DropDefaultValueChange(tableName, columnName, catalogName, columnDataType, schemaName);
      changes := changes + [Liquibase.DropDefaultValue(change)];
    }

    method AddForeignKeyConstraint(constraintName: string, baseTableName: string, baseColumnNames: string,
                                   referencedTableName: string, referencedColumnNames: string,
                                   baseTableCatalogName: Option<string> := None,
                                   baseTableSchemaName: Option<string> := None,
                                   deferrable: Option<bool> := None, initiallyDeferred: Option<bool> := None,
                                   onDelete: Option<ForeignKeyConstraintType> := None,
                                   onUpdate: Option<ForeignKeyConstraintType> := None,
                                   referencedTableCatalogName: Option<string> := None,
                                   referencedTableSchemaName: Option<string> := None,
                                   validate: Option<bool> := None)
      modifies this
      ensures changes == old(changes) + [Liquibase.AddForeignKeyConstraint(
                AddForeignKeyConstraintChange(constraintName, baseTableName, baseColumnNames,
                                              referencedTableName, referencedColumnNames, baseTableCatalogName,
                                              baseTableSchemaName, deferrable, initiallyDeferred, onDelete,
                                              onUpdate, referencedTableCatalogName, referencedTableSchemaName,
                                              validate))]
    {
      var change := AddForeignKeyConstraintChange(constraintName, baseTableName, baseColumnNames,
        referencedTableName, referencedColumnNames, baseTableCatalogName, baseTableSchemaName, deferrable,
        initiallyDeferred, onDelete, onUpdate, referencedTableCatalogName, referencedTableSchemaName, validate);
      changes := changes + [Liquibase.AddForeignKeyConstraint(change)];
    }

    method DropForeignKeyConstraint(constraintName: string, baseTableName: string,
                                    baseTableCatalogName: Option<string> := None,
                                    baseTableSchemaName: Option<string> := None)
      modifies this
      ensures changes == old(changes) + [Liquibase.DropForeignKeyConstraint(
                DropForeignKeyConstraintChange(constraintName, baseTableName, baseTableCatalogName,
                                               baseTableSchemaName))]
    {
      var change := DropForeignKeyConstraintChange(constraintName, baseTableName, baseTableCatalogName,
        baseTableSchemaName);
      changes := changes + [Liquibase.DropForeignKeyConstraint(change)];
    }

    method DropAllForeignKeyConstraints(baseTableName: string, baseTableCatalogName: Option<string> := None,
                                        baseTableSchemaName: Option<string> := None)
      modifies this
      ensures changes == old(changes) + [Liquibase.DropAllForeignKeyConstraints(
                DropAllForeignKeyConstraintsChange(baseTableName, baseTableCatalogName, baseTableSchemaName))]
    {
      var change := DropAllForeignKeyConstraintsChange(baseTableName, baseTableCatalogName,
        baseTableSchemaName);
      changes := changes + [Liquibase.DropAllForeignKeyConstraints(change)];
    }

    method AddNotNullConstraint(tableName: string, columnName: string, catalogName: Option<string> := None,
                                columnDataType: Option<string> := None, constraintName: Option<string> := None,
                                defaultNullValue: Option<string> := None, schemaName: Option<string> := None,
                                validate: Option<bool> := None)
      modifies this
      ensures changes == old(changes) + [Liquibase.AddNotNullConstraint(
                AddNotNullConstraintChange(tableName, columnName, catalogName, columnDataType, constraintName,
                                           defaultNullValue, schemaName, validate))]
    {
      var change := AddNotNullConstraintChange(tableName, columnName, catalogName, columnDataType,
        constraintName, defaultNullValue, schemaName, validate);
      changes := changes + [Liquibase.AddNotNullConstraint(change)];
    }

    method DropNotNullConstraint(tableName: string, columnName: string, catalogName: Option<string> := None,
                                 columnDataType: Option<string> := None, constraintName: Option<string> := None,
                                 schemaName: Option<string> := None)
      modifies this
      ensures changes == old(changes) + [Liquibase.DropNotNullConstraint(
                DropNotNullConstraintChange(tableName, columnName, catalogName, columnDataType, constraintName,
                                            schemaName))]
    {
      var change := DropNotNullConstraintChange(tableName, columnName, catalogName, columnDataType,
        constraintName, schemaName);
      changes := changes + [Liquibase.DropNotNullConstraint(change)];
    }

    method AddPrimaryKey(tableName: string, columnNames: string, catalogName: Option<string> := None,
                         clustered: Option<bool> := None, constraintName: Option<string> := None,
                         forIndexCatalogName: Option<string> := None, forIndexName: Option<string> := None,
                         forIndexSchemaName: Option<string> := None, schemaName: Option<string> := None,
                         tablespace: Option<string> := None, validate: Option<bool> := None)
      modifies this
      ensures changes == old(changes) + [Liquibase.AddPrimaryKey(
                AddPrimaryKeyChange(tableName, columnNames, catalogName, clustered, constraintName,
                                    forIndexCatalogName, forIndexName, forIndexSchemaName, schemaName,
                                    tablespace, validate))]
    {
      var change := AddPrimaryKeyChange(tableName, columnNames, catalogName, clustered, constraintName,
        forIndexCatalogName, forIndexName, forIndexSchemaName, schemaName, tablespace, validate);
      changes := changes + [Liquibase.AddPrimaryKey(change)];
    }

    method DropPrimaryKey(tableName: string, catalogName: Option<string> := None,
                          constraintName: Option<string> := None, dropIndex: Option<bool> := None,
                          schemaName: Option<string> := None)
      modifies this
      ensures changes == old(changes) + [Liquibase.DropPrimaryKey(
                DropPrimaryKeyChange(tableName, catalogName, constraintName, dropIndex, schemaName))]
    {
      var change := DropPrimaryKeyChange(tableName, catalogName, constraintName, dropIndex, schemaName);
      changes := changes + [Liquibase.DropPrimaryKey(change)];
    }

    method AddUniqueConstraint(tableName: string, columnNames: string, catalogName: Option<string> := None,
                               clustered: Option<bool> := None, constraintName: Option<string> := None,
                               deferrable: Option<bool> := None, disabled: Option<bool> := None,
                               forIndexCatalogName: Option<string> := None,
                               forIndexName: Option<string> := None, forIndexSchemaName: Option<string> := None,
                               initiallyDeferred: Option<bool> := None, schemaName: Option<string> := None,
                               tablespace: Option<string> := None, validate: Option<bool> := None)
      modifies this
      ensures changes == old(changes) + [Liquibase.AddUniqueConstraint(
                AddUniqueConstraintChange(tableName, columnNames, catalogName, clustered, constraintName,
                                          deferrable, disabled, forIndexCatalogName, forIndexName,
                                          forIndexSchemaName, initiallyDeferred, schemaName, tablespace,
                                          validate))]
    {
      var change := AddUniqueConstraintChange(tableName, columnNames, catalogName, clustered, constraintName,
        deferrable, disabled, forIndexCatalogName, forIndexName, forIndexSchemaName, initiallyDeferred,
        schemaName, tablespace, validate);
      changes := changes + [Liquibase.AddUniqueConstraint(change)];
    }

    method DropUniqueConstraint(tableName: string, constraintName: string, catalogName: Option<string> := None,
                                schemaName: Option<string> := None, uniqueColumns: Option<string> := None)
      modifies this
      ensures changes == old(changes) + [Liquibase.DropUniqueConstraint(
                DropUniqueConstraintChange(tableName, constraintName, catalogName, schemaName, uniqueColumns))]
    {
      var change := DropUniqueConstraintChange(tableName, constraintName, catalogName, schemaName,
        uniqueColumns);
      changes := changes + [Liquibase.DropUniqueConstraint(change)];
    }

    // -- Data

    method AddLookupTable(existingTableName: string, existingColumnName: string, newTableName: string,
                          newColumnName: string, constraintName: Option<string> := None,
                          existingTableCatalogName: Option<string> := None,
                          existingTableSchemaName: Option<string> := None,
                          newColumnDataType: Option<string> := None,
                          newTableCatalogName: Option<string> := None,
                          newTableSchemaName: Option<string> := None)
      modifies this
      ensures changes == old(changes) + [Liquibase.AddLookupTable(
                AddLookupTableChange(existingTableName, existingColumnName, newTableName, newColumnName,
                                     constraintName, existingTableCatalogName, existingTableSchemaName,
                                     newColumnDataType, newTableCatalogName, newTableSchemaName))]
    {
      var change := AddLookupTableChange(existingTableName, existingColumnName, newTableName, newColumnName,
        constraintName, existingTableCatalogName, existingTableSchemaName, newColumnDataType,
        newTableCatalogName, newTableSchemaName);
      changes := changes + [Liquibase.AddLookupTable(change)];
    }

    /** The where-parameters are the columns its block built; by default the block builds none. */
    method Delete(tableName: string, catalogName: Option<string> := None, schemaName: Option<string> := None,
                  where: Option<string> := None, whereParams: seq<ColumnConfig> := [])
      modifies this
      ensures changes == old(changes) + [Liquibase.DeleteData(DeleteDataChange(tableName, catalogName, schemaName,
                                                                               where, whereParams))]
    {
      changes := changes + [Liquibase.DeleteData(DeleteDataChange(tableName, catalogName, schemaName, where,
                                                                  whereParams))];
    }

    /** The inserted columns are the ones its block built, in order. */
    method Insert(tableName: string, catalogName: Option<string> := None, dbms: Option<string> := None,
                  schemaName: Option<string> := None, columns: seq<ColumnConfig>)
      modifies this
      ensures changes == old(changes) + [Liquibase.InsertData(InsertDataChange(tableName, catalogName, dbms,
                                                                               schemaName, columns))]
    {
      changes := changes + [Liquibase.InsertData(InsertDataChange(tableName, catalogName, dbms, schemaName,
                                                                  columns))];
    }

    method MergeColumns(tableName: string, column1Name: string, column2Name: string, finalColumnName: string,
                        finalColumnType: string, catalogName: Option<string> := None,
                        joinString: Option<string> := None, schemaName: Option<string> := None)
      modifies this
      ensures changes == old(changes) + [Liquibase.MergeColumns(
                MergeColumnChange(tableName, column1Name, column2Name, finalColumnName, finalColumnType,
                                  catalogName, joinString, schemaName))]
    {
      var change := MergeColumnChange(tableName, column1Name, column2Name, finalColumnName, finalColumnType,
        catalogName, joinString, schemaName);
      changes := changes + [Liquibase.MergeColumns(change)];
    }

    /**
     * Two blocks, kept apart: the `whereParams` block's columns become the where-parameters
     * only, the main block's columns become the updated columns only.
     */
    method Update(tableName: string, catalogName: Option<string> := None, schemaName: Option<string> := None,
                  where: Option<string> := None, whereParams: seq<ColumnConfig> := [], columns: seq<ColumnConfig>)
      modifies this
      ensures changes == old(changes) + [Liquibase.UpdateData(
                UpdateDataChange(tableName, catalogName, schemaName, where, whereParams, columns))]
    {
      changes := changes + [Liquibase.UpdateData(UpdateDataChange(tableName, catalogName, schemaName, where,
                                                                  whereParams, columns))];
    }

    // -- Miscellaneous

    /** The wrapper names the class and carries every parameter, each set on it one by one. */
    method CustomChange(className: string, params: map<string, string> := map[])
      modifies this
      ensures changes == old(changes) + [Liquibase.CustomChange(CustomChangeWrapper(className, params))]
    {
      var stored := SetParams(params);
      changes := changes + [Liquibase.CustomChange(CustomChangeWrapper(className, stored))];
    }

    /** The arguments are added to the change one by one, in order. */
    method ExecuteCommand(executable: string, args: seq<string> := [], os: Option<string> := None,
                          timeout: Option<string> := None)
      modifies this
      ensures changes == old(changes) + [Liquibase.ExecuteCommand(
                ExecuteShellCommandChange(executable, os, timeout, args))]
    {
      var added: seq<string> := [];
      for i := 0 to |args|
        invariant added == args[..i]
      {
        added := added + [args[i]];
      }
      assert added == args;
      changes := changes + [Liquibase.ExecuteCommand(ExecuteShellCommandChange(executable, os, timeout, added))];
    }

    method Output(message: string, target: Option<string> := None)
      modifies this
      ensures changes == old(changes) + [Liquibase.Output(OutputChange(message, target))]
    {
      changes := changes + [Liquibase.Output(OutputChange(message, target))];
    }

    method Sql(sql: string, dbms: Option<string> := None, endDelimiter: Option<string> := None,
               splitStatements: Option<bool> := None, stripComments: Option<bool> := None)
      modifies this
      ensures changes == old(changes) + [Liquibase.RawSql(
                RawSqlChange(sql, dbms, endDelimiter, splitStatements, stripComments))]
    {
      var change := RawSqlChange(sql, dbms, endDelimiter, splitStatements, stripComments);
      changes := changes + [Liquibase.RawSql(change)];
    }

    method Stop(message: Option<string> := None)
      modifies this
      ensures changes == old(changes) + [Liquibase.Stop(StopChange(message))]
    {
      changes := changes + [Liquibase.Stop(StopChange(message))];
    }

    method TagDatabase(tag: string, keepTagOnRollback: Option<bool> := None)
      modifies this
      ensures changes == old(changes) + [Liquibase.TagDatabase(TagDatabaseChange(tag, keepTagOnRollback))]
    {
      changes := changes + [Liquibase.TagDatabase(TagDatabaseChange(tag, keepTagOnRollback))];
    }
  }
}
