/**
 * The prototype design generator: its data interface, the default record,
 * the Markdown template and the export file name. The field helpers are
 * those of FormRecord.
 */
module Prototype {
  import opened Text
  import opened ListEdit
  import opened FormRecord
  import opened Markdown

  /** `keyof PrototypeData`. */
  datatype PrototypeField =
    | systemName | functionName | version | author | date | filePath | figmaUrl
    | prototypeInfo | prototypeLinks | iaDescription | pageComponents
    | mainFlow | branchFlows | pageDetails | responsiveBreakpoints
    | accessibilityFeatures | trackingEvents | visualSpecs | todosRisks | reviewRecords

  /** The declared type of each field of `PrototypeData`. */
  function FieldKind(f: PrototypeField): Kind
  {
    match f
    case prototypeInfo | prototypeLinks | pageComponents | pageDetails | responsiveBreakpoints | trackingEvents | reviewRecords => RowsKind
    case _ => TextKind
  }

  /** Every field of `PrototypeData`. */
  function AllFields(): set<PrototypeField>
  {
    {
      systemName, functionName, version, author, date, filePath, figmaUrl,
      prototypeInfo, prototypeLinks, iaDescription, pageComponents,
      mainFlow, branchFlows, pageDetails, responsiveBreakpoints,
      accessibilityFeatures, trackingEvents, visualSpecs, todosRisks, reviewRecords
    }
  }

  /** The columns of the row each table starts with or its add button appends, without the preset values. */
  function RowKeys(f: PrototypeField): seq<string>
  {
    match f
    case prototypeInfo => ["item", "content"]
    case prototypeLinks => ["platform", "link", "permission"]
    case pageComponents => ["id", "name", "purpose", "note"]
    case pageDetails => ["pageId", "pageName", "url", "entry", "elements", "interactions", "imageUrl"]
    case responsiveBreakpoints => ["breakpoint", "layoutChange", "note"]
    case trackingEvents => ["event", "parameters", "trigger"]
    case reviewRecords => ["reviewer", "opinion", "status", "date"]
    case _ => []
  }

  /**
   * The fields of `defaultPrototypeData`: every text empty except the
   * version "v1.0" and the date (the date the page was loaded, given here as
   * `today`); the prototype information table holds its five preset rows, the
   * links table its three preset platforms, every other table one empty row.
   */
  function DefaultValue(f: PrototypeField, today: string): Field
  {
    match f
    case date => Text(today)
    case version => Text("v1.0")
    case prototypeInfo => Rows(InfoRows([("功能名称", ""), ("原型工具", "Figma"), ("设计分辨率", "1440×1024（Web） / 375×812（App）"), ("设计走查日期", ""), ("评审状态", "待评审")]))
    case prototypeLinks => Rows(LinkRows([("Web 高保真", "只读"), ("App 高保真", "可评论"), ("可交互 Demo", "无需登录")]))
    case pageComponents | pageDetails | responsiveBreakpoints | trackingEvents | reviewRecords =>
      Rows([BlankRow(RowKeys(f))])
    case _ => Text("")
  }

  /** One default field: of its declared kind, and a list holds its entries. */
  lemma DefaultValueShape(f: PrototypeField, today: string)
    ensures KindOf(DefaultValue(f, today)) == FieldKind(f)
    ensures IsList(DefaultValue(f, today)) ==> Length(DefaultValue(f, today)) > 0
    ensures IsList(DefaultValue(f, today)) && f != prototypeInfo && f != prototypeLinks ==> Length(DefaultValue(f, today)) == 1
  {
  }

  /** `defaultPrototypeData`. */
  function Default(today: string): Record<PrototypeField>
  {
    map f | f in AllFields() :: DefaultValue(f, today)
  }

  /**
   * The default record has every field of `PrototypeData` with its declared type;
   * every table other than the preset ones holds exactly one row, so the
   * form starts with no empty list.
   */
  lemma DefaultShape(today: string)
    ensures Conforms(Default(today), FieldKind)
    ensures ListsNonEmpty(Default(today))
    ensures forall f :: f in Default(today) && IsList(Default(today)[f]) && f != prototypeInfo && f != prototypeLinks ==> Length(Default(today)[f]) == 1
  {
    forall f: PrototypeField ensures KindOf(DefaultValue(f, today)) == FieldKind(f) && (IsList(DefaultValue(f, today)) ==> Length(DefaultValue(f, today)) > 0) && (IsList(DefaultValue(f, today)) && f != prototypeInfo && f != prototypeLinks ==> Length(DefaultValue(f, today)) == 1) {
      DefaultValueShape(f, today);
    }
    forall f: PrototypeField ensures f in AllFields() {
      match f {
        case systemName => case functionName => case version => case author => case date => case filePath => case figmaUrl =>
        case prototypeInfo => case prototypeLinks => case iaDescription => case pageComponents =>
        case mainFlow => case branchFlows => case pageDetails => case responsiveBreakpoints =>
        case accessibilityFeatures => case trackingEvents => case visualSpecs => case todosRisks => case reviewRecords =>
      }
    }
  }

  /** The version is "v1.0", the date is today's, the information table has five rows and the links table three. */
  lemma DefaultValues(today: string)
    ensures Default(today)[version] == Text("v1.0") && Default(today)[date] == Text(today)
    ensures |RowsOf(Default(today), prototypeInfo)| == 5 && |RowsOf(Default(today), prototypeLinks)| == 3
  {
    assert version in AllFields() && date in AllFields() && prototypeInfo in AllFields() && prototypeLinks in AllFields();
  }

  /** The preset rows of the information table: an item and its content. */
  function InfoRows(presets: seq<(string, string)>): (rows: seq<Row>)
    ensures |rows| == |presets|
    ensures forall i :: 0 <= i < |rows| ==>
      rows[i].Keys == {"item", "content"} && rows[i]["item"] == presets[i].0 && rows[i]["content"] == presets[i].1
  {
    seq(|presets|, i requires 0 <= i < |presets| => map["item" := presets[i].0, "content" := presets[i].1])
  }

  /** The preset rows of the links table: a platform, an empty link and its permission. */
  function LinkRows(presets: seq<(string, string)>): (rows: seq<Row>)
    ensures |rows| == |presets|
    ensures forall i :: 0 <= i < |rows| ==>
      && rows[i].Keys == {"platform", "link", "permission"}
      && rows[i]["platform"] == presets[i].0 && rows[i]["link"] == "" && rows[i]["permission"] == presets[i].1
  {
    seq(|presets|, i requires 0 <= i < |presets| => map["platform" := presets[i].0, "link" := "", "permission" := presets[i].1])
  }

  /**
   * Every record the form can reach from the default one, by any sequence of
   * typing, add, delete and cell edits, keeps the interface and has an entry
   * in every list.
   */
  lemma FormSessionsKeepLists(today: string, edits: seq<Edit<PrototypeField>>)
    ensures Conforms(ApplyAll(Default(today), edits), FieldKind)
    ensures ListsNonEmpty(ApplyAll(Default(today), edits))
  {
    DefaultShape(today);
    EditsKeepShape(Default(today), FieldKind, edits);
  }

  /**
   * The controls the form offers: the information table can only have its
   * cells edited, and the page details and breakpoints have no control.
   */
  predicate Offered(e: Edit<PrototypeField>)
  {
    && (e.field == prototypeInfo ==> e.SetCellOf?)
    && e.field != pageDetails && e.field != responsiveBreakpoints
  }

  /**
   * Whatever the user does through the form, the information table keeps
   * its five rows, and the page details and breakpoints keep their default
   * contents.
   */
  lemma FixedTablesKeepRows(today: string, edits: seq<Edit<PrototypeField>>)
    requires forall i :: 0 <= i < |edits| ==> Offered(edits[i])
    ensures var r := ApplyAll(Default(today), edits);
            && |RowsOf(r, prototypeInfo)| == 5
            && pageDetails in r && r[pageDetails] == Default(today)[pageDetails]
            && responsiveBreakpoints in r && r[responsiveBreakpoints] == Default(today)[responsiveBreakpoints]
  {
    DefaultShape(today);
    DefaultValues(today);
    CellEditsKeepRowCount(Default(today), edits, prototypeInfo);
    UneditedFieldUnchanged(Default(today), edits, pageDetails);
    UneditedFieldUnchanged(Default(today), edits, responsiveBreakpoints);
  }

  /** The per-row templates of the tables. */
  const PrototypeInfoRow: Template := [Lit("| "), Key("item"), Lit(" | "), Key("content"), Lit(" |")]
  const PrototypeLinksRow: Template := [Lit("| "), Key("platform"), Lit(" | ["), Key("platform"), Lit("]("), Key("link"), Lit(") | "), Key("permission"), Lit(" |")]
  const PageComponentsRow: Template := [Lit("| "), Key("id"), Lit(" | "), Key("name"), Lit(" | "), Key("purpose"), Lit(" | "), Key("note"), Lit(" |")]
  const PageDetailsSection: Template := [Lit("## "), Key("pageId"), Lit(" "), Key("pageName"), Lit("\n\n- **URL**：`"), Key("url"), Lit("`\n- **入口**："), Key("entry"), Lit("\n- **新增元素**："), Key("elements"), Lit("\n- **交互说明**："), Key("interactions"), Lit("\n\n!["), Key("pageName"), Lit("]("), Key("imageUrl"), Lit(")")]
  const ResponsiveBreakpointsRow: Template := [Lit("| "), Key("breakpoint"), Lit(" | "), Key("layoutChange"), Lit(" | "), Key("note"), Lit(" |")]
  const TrackingEventsRow: Template := [Lit("| `"), Key("event"), Lit("` | `"), Key("parameters"), Lit("` | "), Key("trigger"), Lit(" |")]
  const ReviewRecordsRow: Template := [Lit("| "), Key("reviewer"), Lit(" | "), Key("opinion"), Lit(" | "), Key("status"), Lit(" | "), Key("date"), Lit(" |")]

  /** The per-row template of each table field. */
  function RowTemplate(f: PrototypeField): Template
  {
    match f
    case prototypeInfo => PrototypeInfoRow
    case prototypeLinks => PrototypeLinksRow
    case pageComponents => PageComponentsRow
    case pageDetails => PageDetailsSection
    case responsiveBreakpoints => ResponsiveBreakpointsRow
    case trackingEvents => TrackingEventsRow
    case reviewRecords => ReviewRecordsRow
    case _ => []
  }

  /**
   * Every column a table's template prints is a column of the row the table
   * starts with and its add button appends, so such a row prints the
   * template's fixed text with empty cells and never `undefined`.
   */
  lemma FreshRowsPrintBlank(f: PrototypeField)
    ensures KeysRead(RowTemplate(f)) <= BlankRow(RowKeys(f)).Keys
    ensures Fill(BlankRow(RowKeys(f)), RowTemplate(f)) == LitText(RowTemplate(f))
  {
    FillBlankRow(BlankRow(RowKeys(f)), RowTemplate(f));
  }

  /** A link row names its platform twice: as a cell and as the text of the Markdown link to `link`. */
  lemma LinkRowText(row: Row)
    ensures Fill(row, PrototypeLinksRow) ==
      "| " + CellText(row, "platform") + (" | [" + CellText(row, "platform") + ("](" + CellText(row, "link") + (") | " + CellText(row, "permission") + " |")))
  {
    var close: Template := [Lit(" |")];
    assert Fill(row, close) == " |";
    var permission: Template := [Lit(") | "), Key("permission")] + close;
    FillLitKey(row, ") | ", "permission", close);
    var link: Template := [Lit("]("), Key("link")] + permission;
    FillLitKey(row, "](", "link", permission);
    var text: Template := [Lit(" | ["), Key("platform")] + link;
    FillLitKey(row, " | [", "platform", text[2..]);
    FillLitKey(row, "| ", "platform", text);
    assert PrototypeLinksRow == [Lit("| "), Key("platform")] + text;
  }

  /** Every page section ends with the page's image, captioned with the page name. */
  lemma PageSectionEndsWithImage(row: Row)
    ensures exists before ::
      Fill(row, PageDetailsSection) == before + ("\n\n![" + CellText(row, "pageName") + ("](" + CellText(row, "imageUrl") + ")"))
  {
    var t := PageDetailsSection;
    var close: Template := [Lit(")")];
    assert Fill(row, close) == ")";
    var image: Template := [Lit("]("), Key("imageUrl")] + close;
    FillLitKey(row, "](", "imageUrl", close);
    var caption: Template := [Lit("\n\n!["), Key("pageName")] + image;
    FillLitKey(row, "\n\n![", "pageName", image);
    assert t == t[..12] + caption;
    FillAppend(row, t[..12], caption);
    var before := Fill(row, t[..12]);
    assert Fill(row, t) == before + Fill(row, caption);
  }

  /** `generateMarkdown()`: the template literal with the record's fields interpolated. */
  function GenerateMarkdown(r: Record<PrototypeField>): string
  {
    "<!-- =====================================================\n产品原型设计文档（PRD-Prototyping）\n系统："
      + TextOf(r, systemName)
      + "\n功能："
      + TextOf(r, functionName)
      + "\n版本："
      + TextOf(r, version)
      + "\n作者："
      + TextOf(r, author)
      + "\n日期："
      + TextOf(r, date)
      + "\n存放："
      + TextOf(r, filePath)
      + "\n工具：Figma（"
      + TextOf(r, figmaUrl)
      + "）\n===================================================== -->\n\n# 1. 原型信息\n\n| 项目 | 内容 |\n|---|---|\n"
      + TableText(RowsOf(r, prototypeInfo), PrototypeInfoRow)
      + "\n\n---\n\n# 2. 原型链接\n\n| 端 | 链接 | 权限 |\n|---|---|---|\n"
      + TableText(RowsOf(r, prototypeLinks), PrototypeLinksRow)
      + "\n\n---\n\n# 3. 信息架构（IA）\n\n"
      + TextOf(r, iaDescription)
      + "\n\n---\n\n# 4. 页面/组件清单\n\n| 编号 | 页面/组件 | 用途 | 备注 |\n|---|---|---|---|\n"
      + TableText(RowsOf(r, pageComponents), PageComponentsRow)
      + "\n\n---\n\n# 5. 交互流程\n\n## 5.1 主流程\n\n"
      + TextOf(r, mainFlow)
      + "\n\n## 5.2 分支流程\n\n"
      + TextOf(r, branchFlows)
      + "\n\n---\n\n# 6. 页面原型详情\n\n"
      + SectionsText(RowsOf(r, pageDetails), PageDetailsSection)
      + "\n\n---\n\n# 7. 响应式 & 断点\n\n| 断点 | 布局变化 | 备注 |\n|---|---|---|\n"
      + TableText(RowsOf(r, responsiveBreakpoints), ResponsiveBreakpointsRow)
      + "\n\n---\n\n# 8. 可访问性（a11y）\n\n"
      + TextOf(r, accessibilityFeatures)
      + "\n\n---\n\n# 9. 数据与埋点\n\n| 事件 | 参数 | 触发时机 |\n|---|---|---|\n"
      + TableText(RowsOf(r, trackingEvents), TrackingEventsRow)
      + "\n\n---\n\n# 10. 视觉规范\n\n"
      + TextOf(r, visualSpecs)
      + "\n\n---\n\n# 11. 待办 & 风险\n\n"
      + TextOf(r, todosRisks)
      + "\n\n---\n\n# 12. 评审记录\n\n| 评审人 | 意见 | 状态 | 日期 |\n|---|---|---|---|\n"
      + TableText(RowsOf(r, reviewRecords), ReviewRecordsRow)
  }

  /** The download name `prototype-${functionName || 'design'}-${version}.md`. */
  function ExportFileName(r: Record<PrototypeField>): (name: string)
    ensures TextOf(r, functionName) != "" ==> name == "prototype-" + TextOf(r, functionName) + "-" + TextOf(r, version) + ".md"
    ensures TextOf(r, functionName) == "" ==> name == "prototype-design-" + TextOf(r, version) + ".md"
  {
    "prototype-" + OrElse(TextOf(r, functionName), "design") + "-" + TextOf(r, version) + ".md"
  }

}
