/**
 * The PRD (product requirements document) generator: its data interface,
 * the default record, the Markdown template and the export file name. The
 * field helpers are those of FormRecord.
 */
module Prd {
  import opened Text
  import opened ListEdit
  import opened FormRecord
  import opened Markdown

  /** `keyof PRDData`. */
  datatype PrdField =
    | documentName | productOwner | writeDate | reviewDate | status
    | userPainPoint | businessGoal | strategicAlignment
    | inScope | outOfScope
    | userStories
    | flowchartDescription | featureList
    | prototypeLink | keyInteractions
    | dataRequirements | nonFunctionalReqs
    | acceptanceCriteria | risks | milestones | changeLog | appendix

  /** The declared type of each field of `PRDData`. */
  function FieldKind(f: PrdField): Kind
  {
    match f
    case inScope | outOfScope | acceptanceCriteria | appendix => ItemsKind
    case userStories | featureList | dataRequirements | nonFunctionalReqs | risks | milestones | changeLog => RowsKind
    case _ => TextKind
  }

  /** Every field of `PRDData`. */
  function AllFields(): set<PrdField>
  {
    {
      documentName, productOwner, writeDate, reviewDate, status,
      userPainPoint, businessGoal, strategicAlignment, inScope, outOfScope, userStories,
      flowchartDescription, featureList, prototypeLink, keyInteractions,
      dataRequirements, nonFunctionalReqs, acceptanceCriteria, risks, milestones, changeLog, appendix
    }
  }

  /** The columns of the row a table starts with and its add button appends, all empty. */
  function RowKeys(f: PrdField): seq<string>
  {
    match f
    case userStories => ["role", "scenario", "requirement", "value"]
    case featureList => ["feature", "trigger", "precondition", "rules", "exception"]
    case dataRequirements => ["input", "output", "event", "note"]
    case nonFunctionalReqs => ["type", "requirement"]
    case risks => ["description", "probability", "impact", "solution", "owner"]
    case milestones => ["stage", "time", "deliverable", "owner"]
    case changeLog => ["version", "date", "changes", "author"]
    case _ => []
  }

  /**
   * The fields of `getDefaultPRDData()`: every text empty except the date
   * (today's date, given here as `today`) and the status "草稿" (draft);
   * every list holds exactly one empty entry.
   */
  function DefaultValue(f: PrdField, today: string): Field
  {
    match f
    case writeDate => Text(today)
    case status => Text("草稿")
    case inScope | outOfScope | acceptanceCriteria | appendix => Items([""])
    case userStories | featureList | dataRequirements | nonFunctionalReqs | risks | milestones | changeLog =>
      Rows([BlankRow(RowKeys(f))])
    case _ => Text("")
  }

  /** One default field: of its declared kind, and a list holds one entry. */
  lemma DefaultValueShape(f: PrdField, today: string)
    ensures KindOf(DefaultValue(f, today)) == FieldKind(f)
    ensures IsList(DefaultValue(f, today)) ==> Length(DefaultValue(f, today)) == 1
  {
  }

  /** `getDefaultPRDData()`. */
  function Default(today: string): Record<PrdField>
  {
    map f | f in AllFields() :: DefaultValue(f, today)
  }

  /**
   * The default record has every field of `PRDData` with its declared type;
   * every list holds exactly one entry, so the form starts with no empty list.
   */
  lemma DefaultShape(today: string)
    ensures Conforms(Default(today), FieldKind)
    ensures ListsNonEmpty(Default(today))
    ensures forall f :: f in Default(today) && IsList(Default(today)[f]) ==> Length(Default(today)[f]) == 1
    ensures Default(today)[writeDate] == Text(today) && Default(today)[status] == Text("草稿")
  {
    forall f: PrdField ensures KindOf(DefaultValue(f, today)) == FieldKind(f) && (IsList(DefaultValue(f, today)) ==> Length(DefaultValue(f, today)) == 1) {
      DefaultValueShape(f, today);
    }
    forall f: PrdField ensures f in AllFields() {
      match f {
        case documentName => case productOwner => case writeDate => case reviewDate => case status =>
        case userPainPoint => case businessGoal => case strategicAlignment =>
        case inScope => case outOfScope => case userStories =>
        case flowchartDescription => case featureList =>
        case prototypeLink => case keyInteractions =>
        case dataRequirements => case nonFunctionalReqs =>
        case acceptanceCriteria => case risks => case milestones => case changeLog => case appendix =>
      }
    }
  }

  /**
   * Every record the form can reach from the default one, by any sequence of
   * typing, add, delete and cell edits, keeps the interface and has an entry
   * in every list.
   */
  lemma FormSessionsKeepLists(today: string, edits: seq<Edit<PrdField>>)
    ensures Conforms(ApplyAll(Default(today), edits), FieldKind)
    ensures ListsNonEmpty(ApplyAll(Default(today), edits))
  {
    DefaultShape(today);
    EditsKeepShape(Default(today), FieldKind, edits);
  }

  /** The per-row templates of the tables. */
  const UserStoriesRow: Template := [Lit("| "), Key("role"), Lit(" | "), Key("scenario"), Lit(" | "), Key("requirement"), Lit(" | "), Key("value"), Lit(" |")]
  const FeatureListRow: Template := [Lit("| "), Key("feature"), Lit(" | "), Key("trigger"), Lit(" | "), Key("precondition"), Lit(" | "), Key("rules"), Lit(" | "), Key("exception"), Lit(" |")]
  const DataRequirementsRow: Template := [Lit("| "), Key("input"), Lit(" | "), Key("output"), Lit(" | "), Key("event"), Lit(" | "), Key("note"), Lit(" |")]
  const NonFunctionalReqsRow: Template := [Lit("| "), Key("type"), Lit(" | "), Key("requirement"), Lit(" |")]
  const RisksRow: Template := [Lit("| "), Key("description"), Lit(" | "), Key("probability"), Lit(" | "), Key("impact"), Lit(" | "), Key("solution"), Lit(" | "), Key("owner"), Lit(" |")]
  const MilestonesRow: Template := [Lit("| "), Key("stage"), Lit(" | "), Key("time"), Lit(" | "), Key("deliverable"), Lit(" | "), Key("owner"), Lit(" |")]
  const ChangeLogRow: Template := [Lit("| "), Key("version"), Lit(" | "), Key("date"), Lit(" | "), Key("changes"), Lit(" | "), Key("author"), Lit(" |")]

  /** The per-row template of each table field. */
  function RowTemplate(f: PrdField): Template
  {
    match f
    case userStories => UserStoriesRow
    case featureList => FeatureListRow
    case dataRequirements => DataRequirementsRow
    case nonFunctionalReqs => NonFunctionalReqsRow
    case risks => RisksRow
    case milestones => MilestonesRow
    case changeLog => ChangeLogRow
    case _ => []
  }

  /**
   * Every column a table's template prints is a column of the row the table
   * starts with and its add button appends, so such a row prints the
   * template's fixed text with empty cells and never `undefined`.
   */
  lemma FreshRowsPrintBlank(f: PrdField)
    ensures KeysRead(RowTemplate(f)) <= BlankRow(RowKeys(f)).Keys
    ensures Fill(BlankRow(RowKeys(f)), RowTemplate(f)) == LitText(RowTemplate(f))
  {
    FillBlankRow(BlankRow(RowKeys(f)), RowTemplate(f));
  }

  /** `generateMarkdown()`: the template literal with the record's fields interpolated. */
  function GenerateMarkdown(r: Record<PrdField>): string
  {
    "# \U{1F3AF} 产品需求文档（PRD）\n\n**文档名称**："
      + TextOf(r, documentName)
      + "PRD_v1.0  \n**产品负责人**："
      + TextOf(r, productOwner)
      + "  \n**撰写日期**："
      + TextOf(r, writeDate)
      + "  \n**评审日期**："
      + TextOf(r, reviewDate)
      + "  \n**当前状态**："
      + TextOf(r, status)
      + "\n\n---\n\n## 1. 项目背景 & 目标\n\n| 字段 | 内容 |\n|---|---|\n| 用户痛点 | "
      + TextOf(r, userPainPoint)
      + " |\n| 业务目标 | "
      + TextOf(r, businessGoal)
      + " |\n| 战略对齐 | "
      + TextOf(r, strategicAlignment)
      + " |\n\n---\n\n## 2. 需求范围\n\n- **本期需求（In Scope）**\n"
      + BulletList(ItemsOf(r, inScope), "  - ")
      + "\n\n- **明确不做（Out of Scope）**\n"
      + BulletList(ItemsOf(r, outOfScope), "  - ")
      + "\n\n---\n\n## 3. 用户故事\n\n| 用户角色 | 场景 | 需求描述 | 价值 |\n|---|---|---|---|\n"
      + TableText(RowsOf(r, userStories), UserStoriesRow)
      + "\n\n---\n\n## 4. 功能逻辑\n\n### 4.1 流程图\n\n"
      + TextOf(r, flowchartDescription)
      + "\n\n### 4.2 功能清单 & 规则\n\n| 功能点 | 触发条件 | 前置条件 | 规则 & 限制 | 异常处理 |\n|---|---|---|---|---|\n"
      + TableText(RowsOf(r, featureList), FeatureListRow)
      + "\n\n---\n\n## 5. 原型 & 交互\n\n- **原型链接**："
      + TextOf(r, prototypeLink)
      + "\n- **关键交互说明**\n"
      + TextOf(r, keyInteractions)
      + "\n\n---\n\n## 6. 数据需求\n\n| 输入 | 输出 | 埋点事件 | 备注 |\n|---|---|---|---|\n"
      + TableText(RowsOf(r, dataRequirements), DataRequirementsRow)
      + "\n\n---\n\n## 7. 非功能需求\n\n| 类型 | 要求 |\n|---|---|\n"
      + TableText(RowsOf(r, nonFunctionalReqs), NonFunctionalReqsRow)
      + "\n\n---\n\n## 8. 验收标准（DoD）\n\n"
      + BulletList(ItemsOf(r, acceptanceCriteria), "- [ ] ")
      + "\n\n---\n\n## 9. 风险 & 依赖\n\n| 风险描述 | 概率 | 影响 | 应对方案 | Owner |\n|---|---|---|---|---|\n"
      + TableText(RowsOf(r, risks), RisksRow)
      + "\n\n---\n\n## 10. 里程碑 & 资源\n\n| 阶段 | 时间 | 交付物 | 负责人 |\n|---|---|---|---|\n"
      + TableText(RowsOf(r, milestones), MilestonesRow)
      + "\n\n---\n\n## 11. 变更记录\n\n| 版本 | 日期 | 变更内容 | 作者 |\n|---|---|---|---|\n"
      + TableText(RowsOf(r, changeLog), ChangeLogRow)
      + "\n\n---\n\n### \U{1F517} 附录\n\n"
      + BulletList(ItemsOf(r, appendix), "- ")
      + "\n\n" + "> **使用提示**：  \n> 1. 敏捷迭代可精简「里程碑」章节，改用 Jira Sprint 管理。  \n> 2. 复杂业务请补充「状态机图」和「领域模型图」。  \n> 3. 评审前请在「风险 & 依赖」栏提前 @ 全部干系人补充隐藏坑点。"
  }

  /** The download name `${documentName || 'PRD'}_v1.0.md`. */
  function ExportFileName(r: Record<PrdField>): (name: string)
    ensures TextOf(r, documentName) != "" ==> name == TextOf(r, documentName) + "_v1.0.md"
    ensures TextOf(r, documentName) == "" ==> name == "PRD_v1.0.md"
  {
    OrElse(TextOf(r, documentName), "PRD") + "_v1.0.md"
  }
}
