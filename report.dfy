/** The deterministic, non-drawing parts of server/generatePdf.ts: the seven
    report sections, the gender label on the cover, and the path a locally
    stored report is served from. */
module Report {
  import opened Options
  import opened TextUtil
  import opened PaymentTypes
  import opened Orders

  datatype Section = Section(title: string, body: string)

  /** The paragraph every body of the first six sections ends with. */
  const CommonParagraph: string :=
    "本日はあなたにとって、新しい視点が芽生えるタイミング。"
    + " 過去の選択に縛られず、軽やかに一歩踏み出すことで運気は回り始めます。"
    + " 小さな改善が積み重なり、7〜10日後に目に見える変化として表れるでしょう。"

  /** What separates a theme from the common paragraph. */
  const ParagraphTail: string := "\n\n" + CommonParagraph

  /** The helper `p(t)`: a theme, a blank line, then the common paragraph. */
  function Paragraph(theme: string): string {
    theme + ParagraphTail
  }

  /** Titles of sections 2 to 7, in order. */
  const FixedTitles: seq<string> := ["総合運", "恋愛運", "仕事運", "金運", "ヘルス", "今月のアクション"]

  /** Themes of sections 2 to 6, in order. */
  const FixedThemes: seq<string> := ["全体の流れ", "人間関係と愛情", "集中と成果", "価値と交換", "休息と回復"]

  /** The body of the last section, a three-item checklist. */
  const ActionBody: string := "・朝の10分散歩\n・情報の断捨離\n・週1回のセルフリセット"

  const ActionItems: seq<string> := ["・朝の10分散歩", "・情報の断捨離", "・週1回のセルフリセット"]

  /** The first section, chosen by the nested conditional on `order.gender`. */
  function FirstSection(gender: string): Section {
    if gender == "female" then Section("女性のあなたへ", Paragraph("心の安定と直感がテーマです。"))
    else if gender == "male" then Section("男性のあなたへ", Paragraph("挑戦と行動力がテーマです。"))
    else if gender == "non-binary" then Section("ノンバイナリーのあなたへ", Paragraph("自由な選択と調和がテーマです。"))
    else if gender == "transgender" then Section("トランスジェンダーのあなたへ", Paragraph("変化と自己受容がテーマです。"))
    else if gender == "genderqueer" then Section("ジェンダークィアのあなたへ", Paragraph("独自性と可能性がテーマです。"))
    else Section("あなたへ", Paragraph("自分らしくあることがテーマです。"))
  }

  predicate EndsWith(s: string, tail: string) {
    |s| >= |tail| && s[|s| - |tail|..] == tail
  }

  /** `buildSections(order)`: always seven sections; sections 2 to 7 carry
      the fixed titles in order; the first six bodies end with the blank
      line and the common paragraph; the last body is the checklist; the
      first section is the one `order.gender` selects. */
  function BuildSections(order: Order): (r: seq<Section>)
    ensures |r| == 7
    ensures r[0] == FirstSection(order.gender)
    ensures forall i :: 1 <= i < 7 ==> r[i].title == FixedTitles[i - 1]
    ensures forall i :: 0 <= i < 6 ==> EndsWith(r[i].body, ParagraphTail)
    ensures forall i :: 1 <= i < 6 ==> r[i].body == FixedThemes[i - 1] + ParagraphTail
    ensures r[6].body == ActionBody
  {
    FixedParagraphsEndWithTail();
    FirstSectionEndsWithTail(order.gender);
    [ FirstSection(order.gender),
      Section("総合運", Paragraph("全体の流れ")),
      Section("恋愛運", Paragraph("人間関係と愛情")),
      Section("仕事運", Paragraph("集中と成果")),
      Section("金運", Paragraph("価値と交換")),
      Section("ヘルス", Paragraph("休息と回復")),
      Section("今月のアクション", ActionBody) ]
  }

  lemma TailOfParagraph(theme: string)
    ensures EndsWith(Paragraph(theme), ParagraphTail)
  {
    assert Paragraph(theme)[|theme|..] == ParagraphTail;
  }

  lemma FixedParagraphsEndWithTail()
    ensures forall i :: 0 <= i < |FixedThemes| ==> EndsWith(Paragraph(FixedThemes[i]), ParagraphTail)
  {
    forall i | 0 <= i < |FixedThemes| {
      TailOfParagraph(FixedThemes[i]);
    }
  }

  lemma FirstSectionEndsWithTail(gender: string)
    ensures EndsWith(FirstSection(gender).body, ParagraphTail)
  {
    if gender == "female" { TailOfParagraph("心の安定と直感がテーマです。"); }
    else if gender == "male" { TailOfParagraph("挑戦と行動力がテーマです。"); }
    else if gender == "non-binary" { TailOfParagraph("自由な選択と調和がテーマです。"); }
    else if gender == "transgender" { TailOfParagraph("変化と自己受容がテーマです。"); }
    else if gender == "genderqueer" { TailOfParagraph("独自性と可能性がテーマです。"); }
    else { TailOfParagraph("自分らしくあることがテーマです。"); }
  }

  /** The sections depend on the order only through its gender. */
  lemma SectionsDependOnlyOnGender(o1: Order, o2: Order)
    requires o1.gender == o2.gender
    ensures BuildSections(o1) == BuildSections(o2)
  {
  }

  /** The last body is exactly three lines, each starting with `・`. */
  lemma ActionBodyLines()
    ensures Split(ActionBody, '\n') == ActionItems
    ensures |ActionItems| == 3
    ensures forall i :: 0 <= i < 3 ==> |ActionItems[i]| > 1 && ActionItems[i][0] == '・'
  {
    ActionBodyIsJoin();
    ActionItemsHaveNoNewline();
    SplitOfJoin(ActionBody, ActionItems, '\n');
    ActionItemsShape();
  }

  lemma ActionItemsShape()
    ensures |ActionItems| == 3
    ensures forall i :: 0 <= i < 3 ==> |ActionItems[i]| > 1 && ActionItems[i][0] == '・'
  {
    assert |ActionItems[0]| > 1 && ActionItems[0][0] == '・';
    assert |ActionItems[1]| > 1 && ActionItems[1][0] == '・';
    assert |ActionItems[2]| > 1 && ActionItems[2][0] == '・';
  }

  lemma SplitOfJoin(body: string, items: seq<string>, sep: char)
    requires |items| >= 1 && Join(items, sep) == body
    requires forall i :: 0 <= i < |items| ==> sep !in items[i]
    ensures Split(body, sep) == items
  {
    SplitJoin(items, sep);
  }

  lemma ActionBodyIsJoin()
    ensures Join(ActionItems, '\n') == ActionBody
  {
    var items := ActionItems;
    assert Join(items[2..], '\n') == items[2];
    assert Join(items[1..], '\n') == items[1] + "\n" + items[2];
    assert Join(items, '\n') == items[0] + "\n" + (items[1] + "\n" + items[2]);
  }

  lemma ActionItemsHaveNoNewline()
    ensures forall i :: 0 <= i < |ActionItems| ==> '\n' !in ActionItems[i]
  {
    assert '\n' !in ActionItems[0];
    assert '\n' !in ActionItems[1];
    assert '\n' !in ActionItems[2];
  }

  /** `mapGender(g)`: the six literals map to six distinct labels; every
      other string, and `undefined`, maps to 未設定. */
  function MapGender(g: Option<string>): (r: string)
    ensures r == "未設定" <==> g.None? || ParseGender(g.value).None?
  {
    match g
    case None => "未設定"
    case Some(s) =>
      match s
      case "female" => "女性"
      case "male" => "男性"
      case "non-binary" => "ノンバイナリー"
      case "transgender" => "トランスジェンダー"
      case "genderqueer" => "ジェンダークィア"
      case "prefer-not" => "回答しない"
      case _ => "未設定"
  }

  /** Distinct genders get distinct labels. */
  lemma MapGenderInjective(g1: Gender, g2: Gender)
    requires MapGender(Some(g1.Literal())) == MapGender(Some(g2.Literal()))
    ensures g1 == g2
  {
  }

  /** The first title is the cover's gender label followed by のあなたへ for
      the five genders other than prefer-not, and plain あなたへ for
      prefer-not and every unrecognised value. */
  lemma FirstTitleFromLabel(gender: string)
    ensures var g := ParseGender(gender);
      if g.Some? && g.value != PreferNot then FirstSection(gender).title == MapGender(Some(gender)) + "のあなたへ"
      else FirstSection(gender).title == "あなたへ"
  {
  }

  const ReportsDir: string := "/reports/"
  const PdfExtension: string := ".pdf"

  /** The path `generateAndStorePdfLocal` answers with. */
  function LocalReportPath(orderId: string): (r: string)
    ensures |r| == |ReportsDir| + |orderId| + |PdfExtension|
    ensures r[..|ReportsDir|] == ReportsDir
    ensures r[|ReportsDir|..|ReportsDir| + |orderId|] == orderId
    ensures r[|ReportsDir| + |orderId|..] == PdfExtension
  {
    ReportsDir + orderId + PdfExtension
  }

  /** The order id a report path names, if it has the report-path shape. */
  function OrderIdOfReportPath(path: string): Option<string> {
    if |path| >= |ReportsDir| + |PdfExtension|
      && path[..|ReportsDir|] == ReportsDir
      && path[|path| - |PdfExtension|..] == PdfExtension
    then Some(path[|ReportsDir|..|path| - |PdfExtension|])
    else None
  }

  /** The local report path names exactly the order it was built for. */
  lemma ReportPathRoundTrip(orderId: string)
    ensures OrderIdOfReportPath(LocalReportPath(orderId)) == Some(orderId)
  {
    var path := LocalReportPath(orderId);
    assert path[..|ReportsDir|] == ReportsDir;
    assert path[|path| - |PdfExtension|..] == PdfExtension;
    assert path[|ReportsDir|..|path| - |PdfExtension|] == orderId;
  }
}
