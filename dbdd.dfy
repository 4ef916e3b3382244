/**
 * The DBDD (database design document) generator: its data interface, the
 * default record, the per-table field lists of the data dictionary, the
 * Markdown template and the export file name. The other field helpers are
 * those of FormRecord.
 */
module Dbdd {
  import opened Text
  import opened ListEdit
  import opened FormRecord
  import opened Markdown

  /** `keyof DBDDData`. */
  datatype DbddField =
    | systemName | moduleName | version | author | date | filePath
    | documentInfo | changeLog | erDiagram
    | tables | tableFields | indexes
    | constraintsRules | initScript | capacityEstimation
    | securityPermissions | backupRecovery | futureExtensions

  /** The declared type of each field of `DBDDData`. */
  function FieldKind(f: DbddField): Kind
  {
    match f
    case documentInfo | changeLog | tables | indexes | capacityEstimation => RowsKind
    case tableFields => TablesKind
    case _ => TextKind
  }

  /** Every field of `DBDDData`. */
  function AllFields(): set<DbddField>
  {
    {
      systemName, moduleName, version, author, date, filePath,
      documentInfo, changeLog, erDiagram,
      tables, tableFields, indexes,
      constraintsRules, initScript, capacityEstimation,
      securityPermissions, backupRecovery, futureExtensions
    }
  }

  /** The columns of the row each table starts with or its add button appends. */
  function RowKeys(f: DbddField): seq<string>
  {
    match f
    case documentInfo => ["field", "content"]
    case changeLog => ["version", "date", "author", "changes"]
    case tables => ["tableName", "description", "engine"]
    case indexes => ["indexName", "tableName", "fields", "type", "note"]
    case capacityEstimation => ["tableName", "initialRows", "yearlyGrowth", "avgRowSize", "yearSpace"]
    case _ => []
  }

  /**
   * The fields of `defaultDBDDData`: every text empty except the version
   * "v1.0" and the date (the date the page was loaded, given here as
   * `today`); the document information table holds its six preset rows, the
   * table list one `InnoDB` table, every other table one empty row, and no
   * table has fields yet.
   */
  function DefaultValue(f: DbddField, today: string): Field
  {
    match f
    case date => Text(today)
    case version => Text("v1.0")
    case documentInfo => Rows(InfoRows([("系统/子系统", ""), ("数据库类型", "MySQL 8.0"), ("字符集", "utf8mb4"), ("排序规则", "utf8mb4_general_ci"), ("高可用方案", ""), ("备份策略", "")]))
    case tables => Rows([NewTableRow()])
    case changeLog | indexes | capacityEstimation =>
      Rows([BlankRow(RowKeys(f))])
    case tableFields => Tables(map[])
    case _ => Text("")
  }

  /** One default field: of its declared kind, and a list holds its entries. */
  lemma DefaultValueShape(f: DbddField, today: string)
    ensures KindOf(DefaultValue(f, today)) == FieldKind(f)
    ensures IsList(DefaultValue(f, today)) ==> Length(DefaultValue(f, today)) > 0
    ensures IsList(DefaultValue(f, today)) && f != documentInfo ==> Length(DefaultValue(f, today)) == 1
  {
  }

  /** `defaultDBDDData`. */
  function Default(today: string): Record<DbddField>
  {
    map f | f in AllFields() :: DefaultValue(f, today)
  }

  /**
   * The default record has every field of `DBDDData` with its declared type;
   * every table other than the document information holds exactly one
   * row, so the form starts with no empty list.
   */
  lemma DefaultShape(today: string)
    ensures Conforms(Default(today), FieldKind)
    ensures ListsNonEmpty(Default(today))
    ensures forall f :: f in Default(today) && IsList(Default(today)[f]) && f != documentInfo ==> Length(Default(today)[f]) == 1
  {
    forall f: DbddField ensures KindOf(DefaultValue(f, today)) == FieldKind(f) && (IsList(DefaultValue(f, today)) ==> Length(DefaultValue(f, today)) > 0) && (IsList(DefaultValue(f, today)) && f != documentInfo ==> Length(DefaultValue(f, today)) == 1) {
      DefaultValueShape(f, today);
    }
    forall f: DbddField ensures f in AllFields() {
      match f {
        case systemName => case moduleName => case version => case author => case date => case filePath =>
        case documentInfo => case changeLog => case erDiagram =>
        case tables => case tableFields => case indexes =>
        case constraintsRules => case initScript => case capacityEstimation =>
        case securityPermissions => case backupRecovery => case futureExtensions =>
      }
    }
  }

  /** The version is "v1.0", the date is today's, the information table has six rows and no table has fields. */
  lemma DefaultValues(today: string)
    ensures Default(today)[version] == Text("v1.0") && Default(today)[date] == Text(today)
    ensures |RowsOf(Default(today), documentInfo)| == 6 && TablesOf(Default(today), tableFields) == map[]
    ensures RowsOf(Default(today), tables) == [NewTableRow()]
  {
    assert version in AllFields() && date in AllFields() && documentInfo in AllFields() && tableFields in AllFields();
    assert tables in AllFields();
  }

  /** The preset rows of the document information table: a field and its content. */
  function InfoRows(presets: seq<(string, string)>): (rows: seq<Row>)
    ensures |rows| == |presets|
    ensures forall i :: 0 <= i < |rows| ==>
      rows[i].Keys == {"field", "content"} && rows[i]["field"] == presets[i].0 && rows[i]["content"] == presets[i].1
  {
    seq(|presets|, i requires 0 <= i < |presets| => map["field" := presets[i].0, "content" := presets[i].1])
  }

  /** The row the table list starts with and its add button appends. */
  function NewTableRow(): (row: Row)
    ensures row.Keys == {"tableName", "description", "engine"}
    ensures row["tableName"] == "" && row["description"] == "" && row["engine"] == "InnoDB"
  {
    map["tableName" := "", "description" := "", "engine" := "InnoDB"]
  }

  /** The row `addTableField` appends: every column empty except `nullable`, which is "否" (no). */
  function NewFieldRow(): (row: Row)
    ensures row.Keys == {"fieldName", "type", "nullable", "defaultValue", "description", "index"}
    ensures row["nullable"] == "否"
    ensures forall k :: k in row && k != "nullable" ==> row[k] == ""
  {
    map["fieldName" := "", "type" := "", "nullable" := "否", "defaultValue" := "", "description" := "", "index" := ""]
  }

  /*
   * `tableFields` is a plain object literal, so as written
   * `tableFields[name] || []` finds the members every object inherits from
   * `Object.prototype` when the object has no entry of its own for `name`:
   * a table named `constructor` or `toString` gets a function instead of a
   * field list, and `.map`, `.filter` and spreading it throw a TypeError.
   */

  /** The names an object literal inherits from `Object.prototype`. */
  function PrototypeMembers(): set<string>
  {
    {
      "constructor", "__proto__", "toString", "toLocaleString", "valueOf",
      "hasOwnProperty", "isPrototypeOf", "propertyIsEnumerable",
      "__defineGetter__", "__defineSetter__", "__lookupGetter__", "__lookupSetter__"
    }
  }

  /** What an array operation on `tableFields[name] || []` meets: a field list, or a value that makes it throw. */
  datatype Lookup = FieldList(rows: seq<Row>) | TypeError

  /** `tableFields[name] || []` followed by `.map`, `.filter` or a spread, as written. */
  function FieldsOfAsWritten(tf: map<string, seq<Row>>, name: string): Lookup
  {
    if name in tf then FieldList(tf[name])
    else if name in PrototypeMembers() then TypeError
    else FieldList([])
  }

  /** A table named `constructor` with no fields yet crashes the form and the export. */
  lemma ConstructorTableThrows()
    ensures FieldsOfAsWritten(map[], "constructor") == TypeError
    ensures forall tf: map<string, seq<Row>>, name :: name !in tf && name in PrototypeMembers() ==> FieldsOfAsWritten(tf, name) == TypeError
  {
  }

  /** The lookup the model uses: the object's own entry for `name`, or no fields. */
  function FieldsOf(tf: map<string, seq<Row>>, name: string): (rows: seq<Row>)
    ensures name in tf ==> rows == tf[name]
    ensures name !in tf ==> rows == []
  {
    if name in tf then tf[name] else []
  }

  /** Off the inherited names, the lookup as written and the corrected one agree. */
  lemma FieldsOfAgreesOffPrototype(tf: map<string, seq<Row>>, name: string)
    requires name !in PrototypeMembers()
    ensures FieldsOfAsWritten(tf, name) == FieldList(FieldsOf(tf, name))
  {
  }

  /** `addTableField(tableName)`: appends a new field row to the table's list, creating the list if needed. */
  function AddTableField(r: Record<DbddField>, name: string): (r': Record<DbddField>)
    ensures r'.Keys == r.Keys + {tableFields}
    ensures forall f :: f in r && f != tableFields ==> r'[f] == r[f]
    ensures r'[tableFields].Tables? && name in TablesOf(r', tableFields)
    ensures FieldsOf(TablesOf(r', tableFields), name) == FieldsOf(TablesOf(r, tableFields), name) + [NewFieldRow()]
    ensures forall n :: n != name ==> FieldsOf(TablesOf(r', tableFields), n) == FieldsOf(TablesOf(r, tableFields), n)
  {
    var tf := TablesOf(r, tableFields);
    r[tableFields := Tables(tf[name := FieldsOf(tf, name) + [NewFieldRow()]])]
  }

  /** `removeTableField(tableName, index)`: drops one field of one table; no other table changes. */
  function RemoveTableField(r: Record<DbddField>, name: string, index: int): (r': Record<DbddField>)
    ensures r'.Keys == r.Keys + {tableFields}
    ensures forall f :: f in r && f != tableFields ==> r'[f] == r[f]
    ensures r'[tableFields].Tables? && name in TablesOf(r', tableFields)
    ensures FieldsOf(TablesOf(r', tableFields), name) == RemoveAt(FieldsOf(TablesOf(r, tableFields), name), index)
    ensures forall n :: n != name ==> FieldsOf(TablesOf(r', tableFields), n) == FieldsOf(TablesOf(r, tableFields), n)
  {
    var tf := TablesOf(r, tableFields);
    r[tableFields := Tables(tf[name := RemoveAt(FieldsOf(tf, name), index)])]
  }

  /** `updateTableField(tableName, index, key, value)`: sets one cell of one field of one table. */
  function UpdateTableField(r: Record<DbddField>, name: string, index: int, key: string, value: string): (r': Record<DbddField>)
    ensures r'.Keys == r.Keys + {tableFields}
    ensures forall f :: f in r && f != tableFields ==> r'[f] == r[f]
    ensures r'[tableFields].Tables? && name in TablesOf(r', tableFields)
    ensures FieldsOf(TablesOf(r', tableFields), name) == SetCell(FieldsOf(TablesOf(r, tableFields), name), index, key, value)
    ensures forall n :: n != name ==> FieldsOf(TablesOf(r', tableFields), n) == FieldsOf(TablesOf(r, tableFields), n)
  {
    var tf := TablesOf(r, tableFields);
    r[tableFields := Tables(tf[name := SetCell(FieldsOf(tf, name), index, key, value)])]
  }

  /** One change the DBDD form makes: a form edit, or an edit of one table's field list. */
  datatype DbddEdit =
    | FormEdit(edit: Edit<DbddField>)
    | AddFieldTo(table: string)                                            // the add-field button of a table
    | RemoveFieldOf(table: string, index: int)                             // the delete button of a field
    | SetFieldCell(table: string, index: int, key: string, value: string)  // an input of a field row

  /** A table's field controls are shown only for a table of the list whose name is not empty. */
  predicate Shown(r: Record<DbddField>, name: string)
  {
    name != "" && exists i :: 0 <= i < |RowsOf(r, tables)| && "tableName" in RowsOf(r, tables)[i] && RowsOf(r, tables)[i]["tableName"] == name
  }

  /** The control exists; a field's delete button is never disabled. */
  predicate DbddEnabled(r: Record<DbddField>, e: DbddEdit)
  {
    match e
    case FormEdit(x) => Enabled(r, x)
    case AddFieldTo(t) => Shown(r, t)
    case RemoveFieldOf(t, _) => Shown(r, t)
    case SetFieldCell(t, _, _, _) => Shown(r, t)
  }

  function ApplyDbdd(r: Record<DbddField>, e: DbddEdit): Record<DbddField>
    requires DbddEnabled(r, e)
  {
    match e
    case FormEdit(x) => Apply(r, x)
    case AddFieldTo(t) => AddTableField(r, t)
    case RemoveFieldOf(t, i) => RemoveTableField(r, t, i)
    case SetFieldCell(t, i, k, v) => UpdateTableField(r, t, i, k, v)
  }

  /** A session of DBDD form edits, in order; a click on a disabled control does nothing. */
  function ApplyAllDbdd(r: Record<DbddField>, edits: seq<DbddEdit>): Record<DbddField>
    decreases |edits|
  {
    if edits == [] then r
    else ApplyAllDbdd(if DbddEnabled(r, edits[0]) then ApplyDbdd(r, edits[0]) else r, edits[1..])
  }

  /** One enabled edit keeps the interface and an entry in every list. */
  lemma DbddEditKeepsShape(r: Record<DbddField>, e: DbddEdit)
    requires Conforms(r, FieldKind) && ListsNonEmpty(r) && DbddEnabled(r, e)
    ensures Conforms(ApplyDbdd(r, e), FieldKind) && ListsNonEmpty(ApplyDbdd(r, e))
  {
    var tf := TablesOf(r, tableFields);
    match e
    case FormEdit(x) => EditKeepsShape(r, FieldKind, x);
    case AddFieldTo(t) =>
      TableFieldsEditKeepsShape(r, tf[t := FieldsOf(tf, t) + [NewFieldRow()]]);
    case RemoveFieldOf(t, i) =>
      TableFieldsEditKeepsShape(r, tf[t := RemoveAt(FieldsOf(tf, t), i)]);
    case SetFieldCell(t, i, k, v) =>
      TableFieldsEditKeepsShape(r, tf[t := SetCell(FieldsOf(tf, t), i, k, v)]);
  }

  /** Replacing the field lists of the data dictionary touches no list of the record. */
  lemma TableFieldsEditKeepsShape(r: Record<DbddField>, tf: map<string, seq<Row>>)
    requires Conforms(r, FieldKind) && ListsNonEmpty(r)
    ensures Conforms(r[tableFields := Tables(tf)], FieldKind) && ListsNonEmpty(r[tableFields := Tables(tf)])
  {
  }

  /**
   * Every record the form can reach from one with an entry in every list
   * keeps the interface and an entry in every list. The field lists of the
   * data dictionary are not lists of the record and may become empty: their
   * delete buttons are never disabled.
   */
  lemma {:induction false} DbddEditsKeepShape(r: Record<DbddField>, edits: seq<DbddEdit>)
    requires Conforms(r, FieldKind) && ListsNonEmpty(r)
    ensures Conforms(ApplyAllDbdd(r, edits), FieldKind) && ListsNonEmpty(ApplyAllDbdd(r, edits))
    decreases |edits|
  {
    if edits != [] {
      var next := if DbddEnabled(r, edits[0]) then ApplyDbdd(r, edits[0]) else r;
      if DbddEnabled(r, edits[0]) {
        DbddEditKeepsShape(r, edits[0]);
      }
      DbddEditsKeepShape(next, edits[1..]);
    }
  }

  /** Every record the DBDD form can reach from the default one keeps the interface and an entry in every list. */
  lemma FormSessionsKeepLists(today: string, edits: seq<DbddEdit>)
    ensures Conforms(ApplyAllDbdd(Default(today), edits), FieldKind)
    ensures ListsNonEmpty(ApplyAllDbdd(Default(today), edits))
  {
    DefaultShape(today);
    DbddEditsKeepShape(Default(today), edits);
  }

  /** The controls the form offers for the document information table: its cells only. */
  predicate Offered(e: DbddEdit)
  {
    e.FormEdit? && e.edit.field == documentInfo ==> e.edit.SetCellOf?
  }

  /** Whatever the user does through the form, the document information table keeps its six rows. */
  lemma {:induction false} DocumentInfoKeepsRows(r: Record<DbddField>, edits: seq<DbddEdit>)
    requires documentInfo in r && r[documentInfo].Rows?
    requires forall i :: 0 <= i < |edits| ==> Offered(edits[i])
    ensures documentInfo in ApplyAllDbdd(r, edits) && ApplyAllDbdd(r, edits)[documentInfo].Rows?
    ensures |ApplyAllDbdd(r, edits)[documentInfo].rows| == |r[documentInfo].rows|
    decreases |edits|
  {
    if edits != [] {
      var next := if DbddEnabled(r, edits[0]) then ApplyDbdd(r, edits[0]) else r;
      assert documentInfo in next && next[documentInfo].Rows? && |next[documentInfo].rows| == |r[documentInfo].rows|;
      DocumentInfoKeepsRows(next, edits[1..]);
    }
  }

  lemma DocumentInfoStaysSix(today: string, edits: seq<DbddEdit>)
    requires forall i :: 0 <= i < |edits| ==> Offered(edits[i])
    ensures |RowsOf(ApplyAllDbdd(Default(today), edits), documentInfo)| == 6
  {
    DefaultShape(today);
    DefaultValues(today);
    DocumentInfoKeepsRows(Default(today), edits);
  }

  /** The per-row templates of the tables. */
  const DocumentInfoRow: Template := [Lit("| "), Key("field"), Lit(" | "), Key("content"), Lit(" |")]
  const ChangeLogRow: Template := [Lit("| "), Key("version"), Lit(" | "), Key("date"), Lit(" | "), Key("author"), Lit(" | "), Key("changes"), Lit(" |")]
  const IndexesRow: Template := [Lit("| `"), Key("indexName"), Lit("` | `"), Key("tableName"), Lit("` | ("), Key("fields"), Lit(") | "), Key("type"), Lit(" | "), Key("note"), Lit(" |")]
  const CapacityEstimationRow: Template := [Lit("| `"), Key("tableName"), Lit("` | "), Key("initialRows"), Lit(" | "), Key("yearlyGrowth"), Lit(" | "), Key("avgRowSize"), Lit(" | "), Key("yearSpace"), Lit(" |")]

  /** The per-row template of each table field. */
  function RowTemplate(f: DbddField): Template
  {
    match f
    case documentInfo => DocumentInfoRow
    case changeLog => ChangeLogRow
    case indexes => IndexesRow
    case capacityEstimation => CapacityEstimationRow
    case _ => []
  }

  /**
   * Every column a table's template prints is a column of the row the table
   * starts with and its add button appends, so such a row prints the
   * template's fixed text with empty cells and never `undefined`.
   */
  lemma FreshRowsPrintBlank(f: DbddField)
    ensures KeysRead(RowTemplate(f)) <= BlankRow(RowKeys(f)).Keys
    ensures Fill(BlankRow(RowKeys(f)), RowTemplate(f)) == LitText(RowTemplate(f))
  {
    FillBlankRow(BlankRow(RowKeys(f)), RowTemplate(f));
  }

  /** The per-field template of a table's entry in the data dictionary. */
  const FieldRow: Template := [Lit("| `"), Key("fieldName"), Lit("` | `"), Key("type"), Lit("` | "), Key("nullable"), Lit(" | "), Key("defaultValue"), Lit(" | "), Key("description"), Lit(" | "), Key("index"), Lit(" |")]

  /** The column header of a table's entry in the data dictionary. */
  const FieldHeader := "\n\n| 字段 | 类型 | 是否可空 | 默认值 | 描述 | 索引 |\n|---|---|---|---|---|---|\n"

  /** The number of the data dictionary entry of the table at position `i`: `4.<i + 1>` (`tables.indexOf(table) + 1`). */
  function EntryNumber(i: nat): string
  {
    "## 4." + NatToString(i + 1) + " "
  }

  /** The digits of an entry number sit between `## 4.` and the final space. */
  lemma EntryNumberDigits(i: nat)
    ensures 6 <= |EntryNumber(i)| && EntryNumber(i)[5..|EntryNumber(i)| - 1] == NatToString(i + 1)
  {
  }

  /** The heading of the data dictionary entry of the table at position `i`: its number, description and name. */
  function EntryHeading(rows: seq<Row>, i: int): string
    requires 0 <= i < |rows|
  {
    EntryNumber(i) + (CellText(rows[i], "description") + " `" + CellText(rows[i], "tableName") + "`" + FieldHeader)
  }

  /** The data dictionary entry of the table at position `i`: its heading, then one line per field of its own field list. */
  function DictionaryEntry(rows: seq<Row>, tf: map<string, seq<Row>>, i: int): string
    requires 0 <= i < |rows|
  {
    EntryHeading(rows, i) + TableText(FieldsOf(tf, CellText(rows[i], "tableName")), FieldRow)
  }

  /** One data dictionary entry per table, in the order of the table list. */
  function DictionaryEntries(rows: seq<Row>, tf: map<string, seq<Row>>): (entries: seq<string>)
    ensures |entries| == |rows|
    ensures forall i :: 0 <= i < |rows| ==> entries[i] == DictionaryEntry(rows, tf, i)
  {
    seq(|rows|, i requires 0 <= i < |rows| => DictionaryEntry(rows, tf, i))
  }

  /** The data dictionary: the entries separated by a blank line. */
  function DataDictionary(rows: seq<Row>, tf: map<string, seq<Row>>): string
  {
    Join(DictionaryEntries(rows, tf), "\n\n")
  }

  /**
   * The entry of the table at position `i` is headed `## 4.<i + 1>`, and
   * the digits after `4.` denote `i + 1`.
   */
  lemma DictionaryNumbering(rows: seq<Row>, tf: map<string, seq<Row>>, i: int)
    requires 0 <= i < |rows|
    ensures StartsWith(DictionaryEntries(rows, tf)[i], EntryNumber(i))
    ensures DigitsValue(NatToString(i + 1)) == i + 1
  {
    var rest := CellText(rows[i], "description") + " `" + CellText(rows[i], "tableName") + "`" + FieldHeader;
    StartsWithAppend(EntryNumber(i), rest, TableText(FieldsOf(tf, CellText(rows[i], "tableName")), FieldRow));
    NatToStringValue(i + 1);
  }

  /** Tables at different positions get different entry numbers. */
  lemma EntryNumbersDistinct(i: nat, j: nat)
    ensures EntryNumber(i) == EntryNumber(j) <==> i == j
  {
    EntryNumberDigits(i);
    EntryNumberDigits(j);
    NatToStringInjective(i + 1, j + 1);
  }

  /**
   * Adding a field row to a table adds exactly one line, that row's, at the
   * end of the table's dictionary entry (`addTableField` adds `NewFieldRow()`).
   */
  lemma AddedFieldIsLastLine(rows: seq<Row>, tf: map<string, seq<Row>>, i: int, row: Row)
    requires 0 <= i < |rows|
    ensures var name := CellText(rows[i], "tableName");
            var tf' := tf[name := FieldsOf(tf, name) + [row]];
            DictionaryEntry(rows, tf', i)
              == DictionaryEntry(rows, tf, i) + (if FieldsOf(tf, name) == [] then "" else "\n") + Fill(row, FieldRow)
  {
    var name := CellText(rows[i], "tableName");
    var before := FieldsOf(tf, name);
    var tf' := tf[name := before + [row]];
    assert FieldsOf(tf', name) == before + [row];
    var h, sep, line := EntryHeading(rows, i), (if before == [] then "" else "\n"), Fill(row, FieldRow);
    assert DictionaryEntry(rows, tf, i) == h + TableText(before, FieldRow);
    assert DictionaryEntry(rows, tf', i) == h + TableText(before + [row], FieldRow);
    TableTextAppend(before, row, FieldRow);
    AppendRegroup(h, TableText(before, FieldRow), sep, line);
  }

  /** Regrouping of a four-part concatenation. */
  lemma AppendRegroup(h: string, t: string, sep: string, line: string)
    ensures h + (t + sep + line) == h + t + sep + line
  {
  }

  /**
   * Renaming a table does not move its fields: they stay filed under the old
   * name, and a table renamed to a name with no fields of its own shows an
   * empty field table.
   */
  lemma RenamedTableShowsNoFields(r: Record<DbddField>, i: int, name: string)
    requires tables in r && r[tables].Rows? && 0 <= i < |r[tables].rows|
    requires name !in TablesOf(r, tableFields)
    ensures var r' := UpdateTableRow(r, tables, i, "tableName", name);
            && TablesOf(r', tableFields) == TablesOf(r, tableFields)
            && DictionaryEntry(RowsOf(r', tables), TablesOf(r', tableFields), i)
               == "## 4." + NatToString(i + 1) + " " + CellText(r[tables].rows[i], "description") + " `" + name + "`" + FieldHeader
  {
    var r' := UpdateTableRow(r, tables, i, "tableName", name);
    assert RowsOf(r', tables)[i] == r[tables].rows[i]["tableName" := name];
    assert TableText([], FieldRow) == "";
  }

  /** `generateMarkdown()`: the template literal with the record's fields interpolated. */
  function GenerateMarkdown(r: Record<DbddField>): string
  {
    "<!-- =====================================================\n数据库设计文档（DBDD）\n系统："
      + TextOf(r, systemName)
      + "\n模块："
      + TextOf(r, moduleName)
      + "\n版本："
      + TextOf(r, version)
      + "\n作者："
      + TextOf(r, author)
      + "\n日期："
      + TextOf(r, date)
      + "\n存放："
      + TextOf(r, filePath)
      + "\n===================================================== -->\n\n# 1. 文档信息\n\n| 字段 | 内容 |\n|---|---|\n"
      + TableText(RowsOf(r, documentInfo), DocumentInfoRow)
      + "\n\n---\n\n# 2. 版本与变更记录\n\n| 版本 | 日期 | 作者 | 变更描述 |\n|---|---|---|---|\n"
      + TableText(RowsOf(r, changeLog), ChangeLogRow)
      + "\n\n---\n\n# 3. ER 图\n\n"
      + TextOf(r, erDiagram)
      + "\n\n---\n\n# 4. 数据字典\n\n"
      + DataDictionary(RowsOf(r, tables), TablesOf(r, tableFields))
      + "\n\n---\n\n# 5. 索引设计\n\n| 索引名 | 表 | 字段 | 类型 | 备注 |\n|---|---|---|---|---|\n"
      + TableText(RowsOf(r, indexes), IndexesRow)
      + "\n\n---\n\n# 6. 约束 & 规则\n\n"
      + TextOf(r, constraintsRules)
      + "\n\n---\n\n# 7. 初始化脚本\n\n```sql\n"
      + TextOf(r, initScript)
      + "\n```\n\n---\n\n# 8. 容量预估\n\n| 表 | 初始行数 | 年增长 | 平均行大小 | 1年空间 |\n|---|---|---|---|---|\n"
      + TableText(RowsOf(r, capacityEstimation), CapacityEstimationRow)
      + "\n\n---\n\n# 9. 安全与权限\n\n"
      + TextOf(r, securityPermissions)
      + "\n\n---\n\n# 10. 备份 & 恢复\n\n"
      + TextOf(r, backupRecovery)
      + "\n\n---\n\n# 11. 未来扩展点\n\n"
      + TextOf(r, futureExtensions)
      + "\n\n---\n\n> **评审签字**  \n> DBA：_______  后端：_______  架构：_______  日期：_______"
  }

  /** The download name `dbdd-${moduleName || 'module'}-${version}.md`. */
  function ExportFileName(r: Record<DbddField>): (name: string)
    ensures TextOf(r, moduleName) != "" ==> name == "dbdd-" + TextOf(r, moduleName) + "-" + TextOf(r, version) + ".md"
    ensures TextOf(r, moduleName) == "" ==> name == "dbdd-module-" + TextOf(r, version) + ".md"
  {
    "dbdd-" + OrElse(TextOf(r, moduleName), "module") + "-" + TextOf(r, version) + ".md"
  }

}
