/**
 * The HLD (high-level design) generator: its data interface, the default
 * record, the Markdown template and the export file name. The field helpers
 * are those of FormRecord.
 */
module Hld {
  import opened Text
  import opened ListEdit
  import opened FormRecord
  import opened Markdown

  /** `keyof HLDData`. */
  datatype HldField =
    | systemName | version | author | reviewDate | status
    | businessBackground | businessGoal | currentScope
    | architectureDiagram
    | coreModules | apiList | databaseTables | techStack
    | deploymentDesc
    | performanceReqs | securityMeasures | monitoringItems | risks | developmentPlan

  /** The declared type of each field of `HLDData`. */
  function FieldKind(f: HldField): Kind
  {
    match f
    case securityMeasures => ItemsKind
    case coreModules | apiList | databaseTables | techStack | performanceReqs | monitoringItems | risks | developmentPlan => RowsKind
    case _ => TextKind
  }

  /** Every field of `HLDData`. */
  function AllFields(): set<HldField>
  {
    {
      systemName, version, author, reviewDate, status,
      businessBackground, businessGoal, currentScope, architectureDiagram,
      coreModules, apiList, databaseTables, techStack, deploymentDesc,
      performanceReqs, securityMeasures, monitoringItems, risks, developmentPlan
    }
  }

  /** The columns of the row a table starts with and its add button appends, all empty. */
  function RowKeys(f: HldField): seq<string>
  {
    match f
    case coreModules => ["name", "responsibility", "technology", "interface"]
    case apiList => ["endpoint", "method", "description", "request", "response"]
    case databaseTables => ["tableName", "description", "keyFields", "indexes"]
    case techStack => ["category", "technology", "version", "reason"]
    case performanceReqs => ["metric", "target", "measurement"]
    case monitoringItems => ["item", "metric", "threshold", "action"]
    case risks => ["risk", "probability", "impact", "mitigation"]
    case developmentPlan => ["phase", "duration", "deliverable", "owner"]
    case _ => []
  }

  /**
   * The fields of `defaultHLDData`: every text empty except the version
   * "v1.0" and the status "草稿" (draft); every list holds one empty entry.
   */
  function DefaultValue(f: HldField): Field
  {
    match f
    case version => Text("v1.0")
    case status => Text("草稿")
    case securityMeasures => Items([""])
    case coreModules | apiList | databaseTables | techStack | performanceReqs | monitoringItems | risks | developmentPlan =>
      Rows([BlankRow(RowKeys(f))])
    case _ => Text("")
  }

  /** One default field: of its declared kind, and a list holds its entries. */
  lemma DefaultValueShape(f: HldField)
    ensures KindOf(DefaultValue(f)) == FieldKind(f)
    ensures IsList(DefaultValue(f)) ==> Length(DefaultValue(f)) == 1
  {
  }

  /** `defaultHLDData`. */
  function Default(): Record<HldField>
  {
    map f | f in AllFields() :: DefaultValue(f)
  }

  /**
   * The default record has every field of `HLDData` with its declared type;
   * every list holds exactly one entry, so the form starts with no empty list.
   */
  lemma DefaultShape()
    ensures Conforms(Default(), FieldKind)
    ensures ListsNonEmpty(Default())
    ensures forall f :: f in Default() && IsList(Default()[f]) ==> Length(Default()[f]) == 1
    ensures Default()[version] == Text("v1.0") && Default()[status] == Text("草稿")
  {
    forall f: HldField ensures KindOf(DefaultValue(f)) == FieldKind(f) && (IsList(DefaultValue(f)) ==> Length(DefaultValue(f)) == 1) {
      DefaultValueShape(f);
    }
    forall f: HldField ensures f in AllFields() {
      match f {
        case systemName => case version => case author => case reviewDate => case status =>
        case businessBackground => case businessGoal => case currentScope => case architectureDiagram =>
        case coreModules => case apiList => case databaseTables => case techStack => case deploymentDesc =>
        case performanceReqs => case securityMeasures => case monitoringItems => case risks => case developmentPlan =>
      }
    }
  }

  /**
   * Every record the form can reach from the default one, by any sequence of
   * typing, add, delete and cell edits, keeps the interface and has an entry
   * in every list.
   */
  lemma FormSessionsKeepLists(edits: seq<Edit<HldField>>)
    ensures Conforms(ApplyAll(Default(), edits), FieldKind)
    ensures ListsNonEmpty(ApplyAll(Default(), edits))
  {
    DefaultShape();
    EditsKeepShape(Default(), FieldKind, edits);
  }

  /** The per-row templates of the tables. */
  const CoreModulesRow: Template := [Lit("| "), Key("name"), Lit(" | "), Key("responsibility"), Lit(" | "), Key("technology"), Lit(" | "), Key("interface"), Lit(" |")]
  const ApiListRow: Template := [Lit("| "), Key("endpoint"), Lit(" | "), Key("method"), Lit(" | "), Key("description"), Lit(" | "), Key("request"), Lit(" | "), Key("response"), Lit(" |")]
  const DatabaseTablesRow: Template := [Lit("| "), Key("tableName"), Lit(" | "), Key("description"), Lit(" | "), Key("keyFields"), Lit(" | "), Key("indexes"), Lit(" |")]
  const TechStackRow: Template := [Lit("| "), Key("category"), Lit(" | "), Key("technology"), Lit(" | "), Key("version"), Lit(" | "), Key("reason"), Lit(" |")]
  const PerformanceReqsRow: Template := [Lit("| "), Key("metric"), Lit(" | "), Key("target"), Lit(" | "), Key("measurement"), Lit(" |")]
  const MonitoringItemsRow: Template := [Lit("| "), Key("item"), Lit(" | "), Key("metric"), Lit(" | "), Key("threshold"), Lit(" | "), Key("action"), Lit(" |")]
  const RisksRow: Template := [Lit("| "), Key("risk"), Lit(" | "), Key("probability"), Lit(" | "), Key("impact"), Lit(" | "), Key("mitigation"), Lit(" |")]
  const DevelopmentPlanRow: Template := [Lit("| "), Key("phase"), Lit(" | "), Key("duration"), Lit(" | "), Key("deliverable"), Lit(" | "), Key("owner"), Lit(" |")]

  /** The per-row template of each table field. */
  function RowTemplate(f: HldField): Template
  {
    match f
    case coreModules => CoreModulesRow
    case apiList => ApiListRow
    case databaseTables => DatabaseTablesRow
    case techStack => TechStackRow
    case performanceReqs => PerformanceReqsRow
    case monitoringItems => MonitoringItemsRow
    case risks => RisksRow
    case developmentPlan => DevelopmentPlanRow
    case _ => []
  }

  /**
   * Every column a table's template prints is a column of the row the table
   * starts with and its add button appends, so such a row prints the
   * template's fixed text with empty cells and never `undefined`.
   */
  lemma FreshRowsPrintBlank(f: HldField)
    ensures KeysRead(RowTemplate(f)) <= BlankRow(RowKeys(f)).Keys
    ensures Fill(BlankRow(RowKeys(f)), RowTemplate(f)) == LitText(RowTemplate(f))
  {
    FillBlankRow(BlankRow(RowKeys(f)), RowTemplate(f));
  }

  /** `generateMarkdown()`: the template literal with the record's fields interpolated. */
  function GenerateMarkdown(r: Record<HldField>): string
  {
    "# 概要设计说明书（HLD）\n\n> **系统名称**："
      + TextOf(r, systemName)
      + "  \n> **版本**："
      + TextOf(r, version)
      + "  \n> **作者**："
      + TextOf(r, author)
      + "  \n> **评审日期**："
      + TextOf(r, reviewDate)
      + "  \n> **当前状态**："
      + TextOf(r, status)
      + "\n\n---\n\n## 1. 背景与目标\n\n- **业务背景**："
      + TextOf(r, businessBackground)
      + "\n- **业务目标**："
      + TextOf(r, businessGoal)
      + "\n- **本期范围**："
      + TextOf(r, currentScope)
      + "\n\n---\n\n## 2. 整体架构图\n\n"
      + TextOf(r, architectureDiagram)
      + "\n\n---\n\n## 3. 核心模块设计\n\n| 模块名称 | 职责描述 | 技术选型 | 接口说明 |\n|---|---|---|---|\n"
      + TableText(RowsOf(r, coreModules), CoreModulesRow)
      + "\n\n---\n\n## 4. API 设计\n\n| 接口路径 | 请求方法 | 功能描述 | 请求参数 | 响应格式 |\n|---|---|---|---|---|\n"
      + TableText(RowsOf(r, apiList), ApiListRow)
      + "\n\n---\n\n## 5. 数据库设计\n\n| 表名 | 功能描述 | 关键字段 | 索引设计 |\n|---|---|---|---|\n"
      + TableText(RowsOf(r, databaseTables), DatabaseTablesRow)
      + "\n\n---\n\n## 6. 技术栈选型\n\n| 技术分类 | 技术选型 | 版本要求 | 选型理由 |\n|---|---|---|---|\n"
      + TableText(RowsOf(r, techStack), TechStackRow)
      + "\n\n---\n\n## 7. 部署架构\n\n"
      + TextOf(r, deploymentDesc)
      + "\n\n---\n\n## 8. 性能指标\n\n| 性能指标 | 目标值 | 测量方法 |\n|---|---|---|\n"
      + TableText(RowsOf(r, performanceReqs), PerformanceReqsRow)
      + "\n\n---\n\n## 9. 安全设计\n\n"
      + BulletList(ItemsOf(r, securityMeasures), "- ")
      + "\n\n---\n\n## 10. 监控告警\n\n| 监控项 | 监控指标 | 告警阈值 | 处理动作 |\n|---|---|---|---|\n"
      + TableText(RowsOf(r, monitoringItems), MonitoringItemsRow)
      + "\n\n---\n\n## 11. 风险评估\n\n| 风险项 | 发生概率 | 影响程度 | 应对措施 |\n|---|---|---|---|\n"
      + TableText(RowsOf(r, risks), RisksRow)
      + "\n\n---\n\n## 12. 开发计划\n\n| 开发阶段 | 预计工期 | 交付物 | 负责人 |\n|---|---|---|---|\n"
      + TableText(RowsOf(r, developmentPlan), DevelopmentPlanRow)
      + "\n\n---\n\n### 附录\n\n- **相关文档**：PRD、详细设计文档\n- **技术调研**：技术选型调研报告\n- **性能测试**：压测报告和性能基准\n\n> **评审要点**：  \n> 1. 架构设计是否满足业务需求和性能指标  \n> 2. 技术选型是否合理，是否考虑了扩展性和维护性  \n> 3. 安全设计是否完备，是否符合公司安全规范  \n> 4. 监控告警是否覆盖关键指标，是否便于故障定位"
  }

  /** The download name `${systemName || 'HLD'}_${version}.md`. */
  function ExportFileName(r: Record<HldField>): (name: string)
    ensures TextOf(r, systemName) != "" ==> name == TextOf(r, systemName) + "_" + TextOf(r, version) + ".md"
    ensures TextOf(r, systemName) == "" ==> name == "HLD_" + TextOf(r, version) + ".md"
  {
    OrElse(TextOf(r, systemName), "HLD") + "_" + TextOf(r, version) + ".md"
  }
}
