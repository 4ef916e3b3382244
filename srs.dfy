/**
 * The SRS (software requirements specification) generator: its data
 * interface, the default record, the Markdown template and the export file
 * name. The field helpers are those of FormRecord.
 */
module Srs {
  import opened Text
  import opened ListEdit
  import opened FormRecord
  import opened Markdown

  /** `keyof SRSData`. */
  datatype SrsField =
    | systemName | moduleName | version | author | date | filePath
    | introduction | generalDescription | businessRequirements
    | useCaseDiagram | useCaseDetails | userStories
    | nonFunctionalReqs | dataRequirements | interfaceSpecs
    | acceptanceCriteria | risksAssumptions | appendix

  /** The declared type of each field of `SRSData`. */
  function FieldKind(f: SrsField): Kind
  {
    match f
    case acceptanceCriteria | appendix => ItemsKind
    case introduction | generalDescription | businessRequirements | useCaseDetails | userStories | nonFunctionalReqs | dataRequirements | interfaceSpecs | risksAssumptions => RowsKind
    case _ => TextKind
  }

  /** Every field of `SRSData`. */
  function AllFields(): set<SrsField>
  {
    {
      systemName, moduleName, version, author, date, filePath,
      introduction, generalDescription, businessRequirements,
      useCaseDiagram, useCaseDetails, userStories,
      nonFunctionalReqs, dataRequirements, interfaceSpecs,
      acceptanceCriteria, risksAssumptions, appendix
    }
  }

  /** The columns of the row each table starts with (for the fixed tables) or its add button appends. */
  function RowKeys(f: SrsField): seq<string>
  {
    match f
    case introduction => ["category", "content"]
    case generalDescription => ["category", "content"]
    case businessRequirements => ["id", "description", "criteria"]
    case useCaseDetails => ["field", "content"]
    case userStories => ["role", "story", "value"]
    case nonFunctionalReqs => ["dimension", "indicator", "requirement"]
    case dataRequirements => ["dataItem", "type", "source", "usage", "retention"]
    case interfaceSpecs => ["endpoint", "method", "request", "response", "errorCode"]
    case risksAssumptions => ["risk", "level", "mitigation"]
    case _ => []
  }

  /**
   * The fields of `defaultSRSData`: every text empty except the version
   * "v1.0" and the date (the date the page was loaded, given here as
   * `today`); the introduction, general description and use-case tables hold
   * their fixed labelled rows, every other list one empty entry. The interface
   * and risk rows are the corrected ones (see `InterfaceRowAsWritten`).
   */
  function DefaultValue(f: SrsField, today: string): Field
  {
    match f
    case date => Text(today)
    case version => Text("v1.0")
    case acceptanceCriteria | appendix => Items([""])
    case introduction => Rows(LabelRows("category", ["1.1 目的", "1.2 范围", "1.3 名词解释", "1.4 参考资料"]))
    case generalDescription => Rows(LabelRows("category", ["2.1 业务背景", "2.2 用户角色", "2.3 运行环境"]))
    case useCaseDetails => Rows(LabelRows("field", ["用例编号", "用例名称", "参与者", "前置条件", "基本流", "备选流", "异常流", "后置条件"]))
    case businessRequirements | userStories | nonFunctionalReqs | dataRequirements | interfaceSpecs | risksAssumptions =>
      Rows([BlankRow(RowKeys(f))])
    case _ => Text("")
  }

  /** One default field: of its declared kind, and a list holds its entries. */
  lemma DefaultValueShape(f: SrsField, today: string)
    ensures KindOf(DefaultValue(f, today)) == FieldKind(f)
    ensures IsList(DefaultValue(f, today)) ==> Length(DefaultValue(f, today)) > 0
    ensures IsList(DefaultValue(f, today)) && f !in FixedTables() ==> Length(DefaultValue(f, today)) == 1
  {
  }

  /** `defaultSRSData`. */
  function Default(today: string): Record<SrsField>
  {
    map f | f in AllFields() :: DefaultValue(f, today)
  }

  /**
   * The default record has every field of `SRSData` with its declared type;
   * every list other than the fixed tables holds exactly one entry, so the
   * form starts with no empty list.
   */
  lemma DefaultShape(today: string)
    ensures Conforms(Default(today), FieldKind)
    ensures ListsNonEmpty(Default(today))
    ensures forall f :: f in Default(today) && IsList(Default(today)[f]) && f !in FixedTables() ==> Length(Default(today)[f]) == 1
  {
    forall f: SrsField ensures KindOf(DefaultValue(f, today)) == FieldKind(f) && (IsList(DefaultValue(f, today)) ==> Length(DefaultValue(f, today)) > 0) && (IsList(DefaultValue(f, today)) && f !in FixedTables() ==> Length(DefaultValue(f, today)) == 1) {
      DefaultValueShape(f, today);
    }
    forall f: SrsField ensures f in AllFields() {
      match f {
        case systemName => case moduleName => case version => case author => case date => case filePath =>
        case introduction => case generalDescription => case businessRequirements =>
        case useCaseDiagram => case useCaseDetails => case userStories =>
        case nonFunctionalReqs => case dataRequirements => case interfaceSpecs =>
        case acceptanceCriteria => case risksAssumptions => case appendix =>
      }
    }
  }

  /** The version is "v1.0", the date is today's, and the fixed tables start with 4, 3 and 8 labelled rows. */
  lemma DefaultValues(today: string)
    ensures Default(today)[version] == Text("v1.0") && Default(today)[date] == Text(today)
    ensures |RowsOf(Default(today), introduction)| == 4 && |RowsOf(Default(today), generalDescription)| == 3 && |RowsOf(Default(today), useCaseDetails)| == 8
  {
    assert version in AllFields() && date in AllFields() && introduction in AllFields() && generalDescription in AllFields() && useCaseDetails in AllFields();
  }

  /** The rows of a fixed table: one per caption, in order, each with its caption in column `column` and an empty `content`. */
  function LabelRows(column: string, captions: seq<string>): (rows: seq<Row>)
    ensures |rows| == |captions|
    ensures forall i :: 0 <= i < |rows| ==> rows[i].Keys == {column, "content"} && rows[i][column] == captions[i]
    ensures column != "content" ==> forall i :: 0 <= i < |rows| ==> rows[i]["content"] == ""
  {
    seq(|captions|, i requires 0 <= i < |captions| => map["content" := "", column := captions[i]])
  }

  /** The tables the form shows with a fixed set of rows: no add or delete button, only cell inputs. */
  function FixedTables(): set<SrsField>
  {
    {introduction, generalDescription, useCaseDetails}
  }

  /**
   * Every record the form can reach from the default one, by any sequence of
   * typing, add, delete and cell edits, keeps the interface and has an entry
   * in every list.
   */
  lemma FormSessionsKeepLists(today: string, edits: seq<Edit<SrsField>>)
    ensures Conforms(ApplyAll(Default(today), edits), FieldKind)
    ensures ListsNonEmpty(ApplyAll(Default(today), edits))
  {
    DefaultShape(today);
    EditsKeepShape(Default(today), FieldKind, edits);
  }

  /** The controls the form offers: the fixed tables can only have their cells edited. */
  predicate Offered(e: Edit<SrsField>)
  {
    e.field in FixedTables() ==> e.SetCellOf?
  }

  /**
   * Whatever the user does through the form, the introduction, general
   * description and use-case tables keep their 4, 3 and 8 rows.
   */
  lemma FixedTablesKeepRows(today: string, edits: seq<Edit<SrsField>>)
    requires forall i :: 0 <= i < |edits| ==> Offered(edits[i])
    ensures var r := ApplyAll(Default(today), edits);
            && |RowsOf(r, introduction)| == 4
            && |RowsOf(r, generalDescription)| == 3
            && |RowsOf(r, useCaseDetails)| == 8
  {
    DefaultShape(today);
    DefaultValues(today);
    CellEditsKeepRowCount(Default(today), edits, introduction);
    CellEditsKeepRowCount(Default(today), edits, generalDescription);
    CellEditsKeepRowCount(Default(today), edits, useCaseDetails);
  }

  /** The per-row templates of the tables. */
  const IntroductionRow: Template := [Lit("| **"), Key("category"), Lit("** | "), Key("content"), Lit(" |")]
  const GeneralDescriptionRow: Template := [Lit("| **"), Key("category"), Lit("** | "), Key("content"), Lit(" |")]
  const BusinessRequirementsRow: Template := [Lit("| "), Key("id"), Lit(" | "), Key("description"), Lit(" | "), Key("criteria"), Lit(" |")]
  const UseCaseDetailsRow: Template := [Lit("| **"), Key("field"), Lit("** | "), Key("content"), Lit(" |")]
  const UserStoriesRow: Template := [Lit("| "), Key("role"), Lit(" | "), Key("story"), Lit(" | "), Key("value"), Lit(" |")]
  const NonFunctionalReqsRow: Template := [Lit("| **"), Key("dimension"), Lit("** | "), Key("indicator"), Lit(" | "), Key("requirement"), Lit(" |")]
  const DataRequirementsRow: Template := [Lit("| "), Key("dataItem"), Lit(" | "), Key("type"), Lit(" | "), Key("source"), Lit(" | "), Key("usage"), Lit(" | "), Key("retention"), Lit(" |")]
  const InterfaceSpecsRow: Template := [Lit("| `"), Key("endpoint"), Lit("` | "), Key("method"), Lit(" | `"), Key("request"), Lit("` | `"), Key("response"), Lit("` | "), Key("errorCode"), Lit(" |")]
  const RisksAssumptionsRow: Template := [Lit("| "), Key("risk"), Lit(" | "), Key("level"), Lit(" | "), Key("mitigation"), Lit(" |")]

  /** The per-row template of each table field. */
  function RowTemplate(f: SrsField): Template
  {
    match f
    case introduction => IntroductionRow
    case generalDescription => GeneralDescriptionRow
    case businessRequirements => BusinessRequirementsRow
    case useCaseDetails => UseCaseDetailsRow
    case userStories => UserStoriesRow
    case nonFunctionalReqs => NonFunctionalReqsRow
    case dataRequirements => DataRequirementsRow
    case interfaceSpecs => InterfaceSpecsRow
    case risksAssumptions => RisksAssumptionsRow
    case _ => []
  }

  /**
   * Every column a table's template prints is a column of the row the table
   * starts with and its add button appends, so such a row prints the
   * template's fixed text with empty cells and never `undefined`.
   */
  lemma FreshRowsPrintBlank(f: SrsField)
    ensures KeysRead(RowTemplate(f)) <= BlankRow(RowKeys(f)).Keys
    ensures Fill(BlankRow(RowKeys(f)), RowTemplate(f)) == LitText(RowTemplate(f))
  {
    FillBlankRow(BlankRow(RowKeys(f)), RowTemplate(f));
  }

  /*
   * As written, `defaultSRSData` starts the interface table with a row
   * `{ interface, description, format }`, while the template prints
   * `endpoint`, `method`, `request`, `response` and `errorCode`; and the risk
   * row of the default record and of the add button is
   * `{ risk, probability, impact, mitigation }`, while the template and the
   * level selector use `level`. The model's `RowKeys` uses the columns the
   * template prints.
   */

  /** The interface row of `defaultSRSData` as written. */
  function InterfaceRowAsWritten(): Row
  {
    BlankRow(["interface", "description", "format"])
  }

  /** The risk row of `defaultSRSData` and of the risk add button as written. */
  function RiskRowAsWritten(): Row
  {
    BlankRow(["risk", "probability", "impact", "mitigation"])
  }

  /** The default interface row prints `undefined` in its endpoint cell. */
  lemma InterfaceRowAsWrittenPrintsUndefined()
    ensures exists before, after :: Fill(InterfaceRowAsWritten(), InterfaceSpecsRow) == before + "undefined" + after
  {
    MissingKeyPrintsUndefined(InterfaceRowAsWritten(), InterfaceSpecsRow, 1);
  }

  /** A fresh risk row prints `undefined` in its level cell. */
  lemma RiskRowAsWrittenPrintsUndefined()
    ensures exists before, after :: Fill(RiskRowAsWritten(), RisksAssumptionsRow) == before + "undefined" + after
  {
    MissingKeyPrintsUndefined(RiskRowAsWritten(), RisksAssumptionsRow, 3);
  }

  /** `generateMarkdown()`: the template literal with the record's fields interpolated. */
  function GenerateMarkdown(r: Record<SrsField>): string
  {
    "<!-- =====================================================\n需求规格说明书（SRS）\n系统："
      + TextOf(r, systemName)
      + "\n模块："
      + TextOf(r, moduleName)
      + "\n版本："
      + TextOf(r, version)
      + "\n作者："
      + TextOf(r, author)
      + "\n日期："
      + TextOf(r, date)
      + "\n存放："
      + TextOf(r, filePath)
      + "\n===================================================== -->\n\n# 1. 引言\n\n| 类别 | 内容 |\n|---|---|\n"
      + TableText(RowsOf(r, introduction), IntroductionRow)
      + "\n\n---\n\n# 2. 综合描述\n\n| 类别 | 内容 |\n|---|---|\n"
      + TableText(RowsOf(r, generalDescription), GeneralDescriptionRow)
      + "\n\n---\n\n# 3. 业务需求\n\n| 编号 | 需求描述 | 验收标准 |\n|---|---|---|\n"
      + TableText(RowsOf(r, businessRequirements), BusinessRequirementsRow)
      + "\n\n---\n\n# 4. 功能需求\n\n> 采用 **Use Case + 用户故事** 双轨描述。\n\n## 4.1 用例图\n\n"
      + TextOf(r, useCaseDiagram)
      + "\n\n## 4.2 用例详述\n\n| 字段 | 内容 |\n|---|---|\n"
      + TableText(RowsOf(r, useCaseDetails), UseCaseDetailsRow)
      + "\n\n## 4.3 用户故事\n\n| 角色 | 故事 | 价值 |\n|---|---|---|\n"
      + TableText(RowsOf(r, userStories), UserStoriesRow)
      + "\n\n---\n\n# 5. 非功能需求\n\n| 维度 | 指标 | 需求描述 |\n|---|---|---|\n"
      + TableText(RowsOf(r, nonFunctionalReqs), NonFunctionalReqsRow)
      + "\n\n---\n\n# 6. 数据需求\n\n| 数据项 | 类型 | 来源 | 用途 | 存储期限 |\n|---|---|---|---|---|\n"
      + TableText(RowsOf(r, dataRequirements), DataRequirementsRow)
      + "\n\n---\n\n# 7. 接口规范\n\n| 端点 | 方法 | 请求示例 | 响应示例 | 错误码 |\n|---|---|---|---|---|\n"
      + TableText(RowsOf(r, interfaceSpecs), InterfaceSpecsRow)
      + "\n\n---\n\n# 8. 验收标准（DoD）\n\n"
      + BulletList(ItemsOf(r, acceptanceCriteria), "- [ ] ")
      + "\n\n---\n\n# 9. 风险与假设\n\n| 风险 | 等级 | 缓解措施 |\n|---|---|---|\n"
      + TableText(RowsOf(r, risksAssumptions), RisksAssumptionsRow)
      + "\n\n---\n\n# 10. 附录\n\n"
      + BulletList(ItemsOf(r, appendix), "- ")
      + "\n\n---\n\n> **签字区**  \n> 产品：_______  技术：_______  测试：_______  业务：_______"
  }

  /** The download name `srs-${moduleName || 'module'}-${version}.md`. */
  function ExportFileName(r: Record<SrsField>): (name: string)
    ensures TextOf(r, moduleName) != "" ==> name == "srs-" + TextOf(r, moduleName) + "-" + TextOf(r, version) + ".md"
    ensures TextOf(r, moduleName) == "" ==> name == "srs-module-" + TextOf(r, version) + ".md"
  {
    "srs-" + OrElse(TextOf(r, moduleName), "module") + "-" + TextOf(r, version) + ".md"
  }

}
