/**
 * The LLD (low-level design) generator: its data interface, the default
 * record, the Markdown template and the export file name. The field helpers
 * are those of FormRecord.
 */
module Lld {
  import opened Text
  import opened ListEdit
  import opened FormRecord
  import opened Markdown

  /** `keyof LLDData`. */
  datatype LldField =
    | moduleName | version | author | date | filePath
    | requirements | currentScope | classDiagram | interfaceList
    | tableChanges | indexDesign | keyMethods | nonFunctionalImpl | exceptionMatrix
    | deploymentConfig | changeLog

  /** The declared type of each field of `LLDData`. */
  function FieldKind(f: LldField): Kind
  {
    match f
    case requirements | interfaceList | indexDesign | keyMethods | nonFunctionalImpl | exceptionMatrix | changeLog => RowsKind
    case _ => TextKind
  }

  /** Every field of `LLDData`. */
  function AllFields(): set<LldField>
  {
    {
      moduleName, version, author, date, filePath,
      requirements, currentScope, classDiagram, interfaceList,
      tableChanges, indexDesign, keyMethods, nonFunctionalImpl, exceptionMatrix,
      deploymentConfig, changeLog
    }
  }

  /** The columns of the row each table starts with and its add button appends. */
  function RowKeys(f: LldField): seq<string>
  {
    match f
    case requirements => ["id", "description", "source"]
    case interfaceList => ["interface", "signature", "logic"]
    case indexDesign => ["indexName", "fields", "type", "reason"]
    case keyMethods => ["methodName", "signature", "pseudocode"]
    case nonFunctionalImpl => ["dimension", "implementation"]
    case exceptionMatrix => ["scenario", "errorCode", "userMessage", "compensation"]
    case changeLog => ["version", "date", "author", "changes"]
    case _ => []
  }

  /**
   * The fields of `defaultLLDData`: every text empty except the version
   * "v1.0" and the date (the date the page was loaded, given here as
   * `today`); every table holds one empty row.
   */
  function DefaultValue(f: LldField, today: string): Field
  {
    match f
    case date => Text(today)
    case version => Text("v1.0")
    case requirements | interfaceList | indexDesign | keyMethods | nonFunctionalImpl | exceptionMatrix | changeLog =>
      Rows([BlankRow(RowKeys(f))])
    case _ => Text("")
  }

  /** One default field: of its declared kind, and a list holds its entries. */
  lemma DefaultValueShape(f: LldField, today: string)
    ensures KindOf(DefaultValue(f, today)) == FieldKind(f)
    ensures IsList(DefaultValue(f, today)) ==> Length(DefaultValue(f, today)) == 1
  {
  }

  /** `defaultLLDData`. */
  function Default(today: string): Record<LldField>
  {
    map f | f in AllFields() :: DefaultValue(f, today)
  }

  /**
   * The default record has every field of `LLDData` with its declared type;
   * every table holds exactly one row, so the form starts with no empty list.
   */
  lemma DefaultShape(today: string)
    ensures Conforms(Default(today), FieldKind)
    ensures ListsNonEmpty(Default(today))
    ensures forall f :: f in Default(today) && IsList(Default(today)[f]) ==> Length(Default(today)[f]) == 1
  {
    forall f: LldField ensures KindOf(DefaultValue(f, today)) == FieldKind(f) && (IsList(DefaultValue(f, today)) ==> Length(DefaultValue(f, today)) == 1) {
      DefaultValueShape(f, today);
    }
    forall f: LldField ensures f in AllFields() {
      match f {
        case moduleName => case version => case author => case date => case filePath =>
        case requirements => case currentScope => case classDiagram => case interfaceList =>
        case tableChanges => case indexDesign => case keyMethods => case nonFunctionalImpl => case exceptionMatrix =>
        case deploymentConfig => case changeLog =>
      }
    }
  }

  /** The version is "v1.0" and the date is today's. */
  lemma DefaultValues(today: string)
    ensures Default(today)[version] == Text("v1.0") && Default(today)[date] == Text(today)
  {
    assert version in AllFields() && date in AllFields();
  }

  /**
   * Every record the form can reach from the default one, by any sequence of
   * typing, add, delete and cell edits, keeps the interface and has an entry
   * in every list.
   */
  lemma FormSessionsKeepLists(today: string, edits: seq<Edit<LldField>>)
    ensures Conforms(ApplyAll(Default(today), edits), FieldKind)
    ensures ListsNonEmpty(ApplyAll(Default(today), edits))
  {
    DefaultShape(today);
    EditsKeepShape(Default(today), FieldKind, edits);
  }

  /** The per-row templates of the tables. */
  const RequirementsRow: Template := [Lit("| "), Key("id"), Lit(" | "), Key("description"), Lit(" | "), Key("source"), Lit(" |")]
  const InterfaceListRow: Template := [Lit("| "), Key("interface"), Lit(" | "), Key("signature"), Lit(" | "), Key("logic"), Lit(" |")]
  const IndexDesignRow: Template := [Lit("| "), Key("indexName"), Lit(" | "), Key("fields"), Lit(" | "), Key("type"), Lit(" | "), Key("reason"), Lit(" |")]
  const KeyMethodsSection: Template := [Lit("## "), Key("methodName"), Lit("\n\n```java\n"), Key("signature"), Lit("\n"), Key("pseudocode"), Lit("\n```")]
  const NonFunctionalImplRow: Template := [Lit("| **"), Key("dimension"), Lit("** | "), Key("implementation"), Lit(" |")]
  const ExceptionMatrixRow: Template := [Lit("| "), Key("scenario"), Lit(" | "), Key("errorCode"), Lit(" | "), Key("userMessage"), Lit(" | "), Key("compensation"), Lit(" |")]
  const ChangeLogRow: Template := [Lit("| "), Key("version"), Lit(" | "), Key("date"), Lit(" | "), Key("author"), Lit(" | "), Key("changes"), Lit(" |")]

  /** The per-row template of each table field. */
  function RowTemplate(f: LldField): Template
  {
    match f
    case requirements => RequirementsRow
    case interfaceList => InterfaceListRow
    case indexDesign => IndexDesignRow
    case keyMethods => KeyMethodsSection
    case nonFunctionalImpl => NonFunctionalImplRow
    case exceptionMatrix => ExceptionMatrixRow
    case changeLog => ChangeLogRow
    case _ => []
  }

  /**
   * Every column a table's template prints is a column of the row the table
   * starts with and its add button appends, so such a row prints the
   * template's fixed text with empty cells and never `undefined`.
   */
  lemma FreshRowsPrintBlank(f: LldField)
    ensures KeysRead(RowTemplate(f)) <= BlankRow(RowKeys(f)).Keys
    ensures Fill(BlankRow(RowKeys(f)), RowTemplate(f)) == LitText(RowTemplate(f))
  {
    FillBlankRow(BlankRow(RowKeys(f)), RowTemplate(f));
  }

  /**
   * Each key method prints as its `## name` heading, a blank line, and a
   * fenced `java` block holding the signature and then the pseudocode.
   */
  lemma KeyMethodSectionText(row: Row)
    ensures Fill(row, KeyMethodsSection) ==
      "## " + CellText(row, "methodName") + ("\n\n```java\n" + CellText(row, "signature") + ("\n" + CellText(row, "pseudocode") + "\n```"))
  {
    var close: Template := [Lit("\n```")];
    assert Fill(row, close) == "\n```";
    var code: Template := [Lit("\n"), Key("pseudocode")] + close;
    FillLitKey(row, "\n", "pseudocode", close);
    var fence: Template := [Lit("\n\n```java\n"), Key("signature")] + code;
    FillLitKey(row, "\n\n```java\n", "signature", code);
    FillLitKey(row, "## ", "methodName", fence);
    assert KeyMethodsSection == [Lit("## "), Key("methodName")] + fence;
  }

  /** `generateMarkdown()`: the template literal with the record's fields interpolated. */
  function GenerateMarkdown(r: Record<LldField>): string
  {
    "<!-- =====================================================\n详细设计说明书（LLD）\n模块："
      + TextOf(r, moduleName)
      + "\n版本："
      + TextOf(r, version)
      + "\n作者："
      + TextOf(r, author)
      + "\n日期："
      + TextOf(r, date)
      + "\n存放："
      + TextOf(r, filePath)
      + "\n===================================================== -->\n\n# 1. 需求追溯\n\n| 编号 | 描述 | 来源 |\n|---|---|---|\n"
      + TableText(RowsOf(r, requirements), RequirementsRow)
      + "\n\n# 2. 设计范围\n\n- **本期**："
      + TextOf(r, currentScope)
      + "\n\n# 3. 类/接口/方法级设计\n\n## 3.1 类图\n\n"
      + TextOf(r, classDiagram)
      + "\n\n## 3.2 接口清单\n\n| 接口 | 方法签名 | 主要逻辑 |\n|---|---|---|\n"
      + TableText(RowsOf(r, interfaceList), InterfaceListRow)
      + "\n\n# 4. 数据层设计\n\n## 4.1 表结构（本次变更）\n\n"
      + TextOf(r, tableChanges)
      + "\n\n## 4.2 索引设计\n\n| 索引名 | 字段 | 类型 | 原因 |\n|---|---|---|---|\n"
      + TableText(RowsOf(r, indexDesign), IndexDesignRow)
      + "\n\n# 5. 关键方法伪代码\n\n"
      + SectionsText(RowsOf(r, keyMethods), KeyMethodsSection)
      + "\n\n# 6. 非功能实现\n\n| 维度 | 实现 |\n|---|---|\n"
      + TableText(RowsOf(r, nonFunctionalImpl), NonFunctionalImplRow)
      + "\n\n# 7. 异常处理矩阵\n\n| 场景 | 错误码 | 前端提示 | 内部补偿 |\n|---|---|---|---|\n"
      + TableText(RowsOf(r, exceptionMatrix), ExceptionMatrixRow)
      + "\n\n# 8. 部署 & 配置\n\n"
      + TextOf(r, deploymentConfig)
      + "\n\n# 9. 变更记录\n\n| 版本 | 日期 | 作者 | 变更要点 |\n|---|---|---|---|\n"
      + TableText(RowsOf(r, changeLog), ChangeLogRow)
  }

  /** The download name `lld-${moduleName || 'module'}-${version}.md`. */
  function ExportFileName(r: Record<LldField>): (name: string)
    ensures TextOf(r, moduleName) != "" ==> name == "lld-" + TextOf(r, moduleName) + "-" + TextOf(r, version) + ".md"
    ensures TextOf(r, moduleName) == "" ==> name == "lld-module-" + TextOf(r, version) + ".md"
  {
    "lld-" + OrElse(TextOf(r, moduleName), "module") + "-" + TextOf(r, version) + ".md"
  }

}
