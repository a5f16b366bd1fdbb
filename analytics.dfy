/**
 * The two pieces of logic in the analytics service: the label of the
 * reporting period that `getBusinessAnalytics` returns, and the canned
 * answer `requestAIAnalysis` picks for a question by the first of four
 * keywords the lower-cased question contains. The name of the file that
 * `exportAnalyticsReport` announces is modelled too; the clock is a
 * parameter.
 */
module Analytics {
  import opened Wrappers
  import opened JsText
  import opened KeywordRules

  // ------------------------------------------------------------ period label

  /** `AnalyticsFilters.period` */
  datatype Period = Week | Month | Quarter | Year

  const WeekLabel: string := "7 Hari Terakhir"
  const QuarterLabel: string := "Quarter Ini"
  const YearLabel: string := "Tahun Ini"
  const DefaultLabel: string := "30 Hari Terakhir"

  /** The label for `filters?.period`, which is `None` when there are no filters or no period. */
  function PeriodLabel(period: Option<Period>): (r: string)
    ensures ThirtyDays(period) ==> r == DefaultLabel
  {
    if period == Some(Week) then WeekLabel
    else if period == Some(Quarter) then QuarterLabel
    else if period == Some(Year) then YearLabel
    else DefaultLabel
  }

  /** The periods reported over the last thirty days. */
  predicate ThirtyDays(p: Option<Period>) {
    p == None || p == Some(Month)
  }

  /**
   * Week, quarter and year each have a label of their own; a month and no
   * period at all share the thirty-day label, so the label tells which of
   * the four cases was asked for.
   */
  lemma PeriodLabelMeaning(p: Option<Period>, q: Option<Period>)
    ensures PeriodLabel(p) in [WeekLabel, QuarterLabel, YearLabel, DefaultLabel]
    ensures PeriodLabel(p) == DefaultLabel <==> ThirtyDays(p)
    ensures PeriodLabel(p) == PeriodLabel(q) <==> (p == q || (ThirtyDays(p) && ThirtyDays(q)))
  {
    assert WeekLabel[0] == '7' && QuarterLabel[0] == 'Q' && YearLabel[0] == 'T' && DefaultLabel[0] == '3';
    assert WeekLabel != DefaultLabel && QuarterLabel != DefaultLabel && YearLabel != DefaultLabel;
    assert WeekLabel != QuarterLabel && WeekLabel != YearLabel && QuarterLabel != YearLabel;
    LabelOf(p);
    LabelOf(q);
  }

  /**
   * The label of each case, one by one: the case split the proof of
   * `PeriodLabelMeaning` needs, kept apart so that its own proof stays small.
   */
  lemma LabelOf(p: Option<Period>)
    ensures p == Some(Week) ==> PeriodLabel(p) == WeekLabel
    ensures p == Some(Quarter) ==> PeriodLabel(p) == QuarterLabel
    ensures p == Some(Year) ==> PeriodLabel(p) == YearLabel
    ensures ThirtyDays(p) ==> PeriodLabel(p) == DefaultLabel
    ensures ThirtyDays(p) || p == Some(Week) || p == Some(Quarter) || p == Some(Year)
  {
    match p
    case None =>
    case Some(x) =>
      match x
      case Week =>
      case Month =>
      case Quarter =>
      case Year =>
  }

  // ------------------------------------------------------------ AI analysis

  const RevenueAnswer: string := "Berdasarkan analisis data 6 bulan terakhir, revenue Anda menunjukkan trend pertumbuhan yang konsisten sebesar 12-15% per bulan. Faktor utama adalah peningkatan customer retention dan average order value. Saya merekomendasikan untuk fokus pada kategori elektronik yang memiliki growth rate tertinggi."
  const CustomerAnswer: string := "Customer base Anda menunjukkan kesehatan yang baik dengan retention rate 78%. Namun, churn rate yang meningkat perlu perhatian. Saya sarankan untuk segera implementasi program loyalty dan win-back campaign untuk mengurangi churn."
  const ProfitAnswer: string := "Profitabilitas bisnis Anda sangat baik dengan margin 38.5%, di atas rata-rata industri. Efisiensi operasional terus meningkat. Untuk optimasi lebih lanjut, fokus pada pengurangan operating expense ratio yang masih 2% di atas target."
  const GrowthAnswer: string := "Potensi pertumbuhan bisnis Anda sangat menjanjikan. Dengan momentum saat ini dan seasonality mendukung, saya prediksi pertumbuhan 15-20% dalam 3 bulan ke depan. Kunci sukses: ekspansi kategori elektronik dan optimasi marketing spend."
  const DefaultAnswer: string := "Berdasarkan data yang tersedia, bisnis Anda menunjukkan performa yang positif secara keseluruhan. Overall score 78/100 menunjukkan kesehatan bisnis yang baik. Area yang perlu perhatian adalah churn rate dan kategori produk yang declining. Silakan ajukan pertanyaan spesifik untuk analisis lebih mendalam."

  /** Which of the canned answers a question gets. */
  datatype Topic = Revenue | Customer | Profit | Growth | General

  /** The text of each answer. */
  function Answer(t: Topic): string {
    match t
    case Revenue => RevenueAnswer
    case Customer => CustomerAnswer
    case Profit => ProfitAnswer
    case Growth => GrowthAnswer
    case General => DefaultAnswer
  }

  const RevenueTest: Rule<Topic> := Rule(["revenue"], Revenue)
  const CustomerTest: Rule<Topic> := Rule(["customer"], Customer)
  const ProfitTest: Rule<Topic> := Rule(["profit"], Profit)
  const GrowthTest: Rule<Topic> := Rule(["growth"], Growth)

  /** The entries of `responses` in the order `Object.entries` visits them. */
  const Responses: seq<Rule<Topic>> := [RevenueTest, CustomerTest, ProfitTest, GrowthTest]

  /** The answer `requestAIAnalysis` picks, by the first key in the lower-cased question. */
  function AnalysisTopic(question: string): (t: Topic)
    ensures t == General <==> forall j :: 0 <= j < |Responses| ==> !Matches(ToLower(question), Responses[j])
    ensures t != General ==>
      exists j :: 0 <= j < |Responses| && Responses[j].reply == t && Matches(ToLower(question), Responses[j])
  {
    assert Responses[0] == RevenueTest && Responses[1] == CustomerTest;
    assert Responses[2] == ProfitTest && Responses[3] == GrowthTest;
    match FirstMatch(ToLower(question), Responses)
      case Some(i) => Responses[i].reply
      case None => General
  }

  /** `requestAIAnalysis` without its delay. */
  function RequestAIAnalysis(question: string): (r: string)
    ensures (forall j :: 0 <= j < |Responses| ==> !Matches(ToLower(question), Responses[j])) ==> r == Answer(General)
    ensures r == Answer(General) || exists j :: 0 <= j < |Responses| && r == Answer(Responses[j].reply) && Matches(ToLower(question), Responses[j])
  {
    Answer(AnalysisTopic(question))
  }

  /**
   * The answer is that of the first keyword, in the order revenue,
   * customer, profit, growth, that the lower-cased question contains, and
   * the default text when it contains none of them.
   */
  lemma AnalysisAnswers(question: string)
    ensures var lower, t := ToLower(question), AnalysisTopic(question);
      (Contains(lower, "revenue") ==> t == Revenue)
      && (!Contains(lower, "revenue") && Contains(lower, "customer") ==> t == Customer)
      && (!Contains(lower, "revenue") && !Contains(lower, "customer") && Contains(lower, "profit") ==> t == Profit)
      && ((!Contains(lower, "revenue") && !Contains(lower, "customer") && !Contains(lower, "profit")
          && Contains(lower, "growth")) ==> t == Growth)
      && ((!Contains(lower, "revenue") && !Contains(lower, "customer") && !Contains(lower, "profit")
          && !Contains(lower, "growth")) ==> t == General)
  {
    var lower := ToLower(question);
    SingleKey(lower, RevenueTest);
    SingleKey(lower, CustomerTest);
    SingleKey(lower, ProfitTest);
    SingleKey(lower, GrowthTest);
    assert Responses[0] == RevenueTest && Responses[1] == CustomerTest;
    assert Responses[2] == ProfitTest && Responses[3] == GrowthTest;
    match FirstMatch(lower, Responses)
    case None =>
      assert !Matches(lower, Responses[0]) && !Matches(lower, Responses[1]);
      assert !Matches(lower, Responses[2]) && !Matches(lower, Responses[3]);
    case Some(i) =>
  }

  /** A question about both revenue and profit gets the revenue answer. */
  lemma RevenueBeatsProfit(question: string)
    requires Contains(ToLower(question), "revenue") && Contains(ToLower(question), "profit")
    ensures AnalysisTopic(question) == Revenue
  {
    AnalysisAnswers(question);
  }

  /** The case of the question does not change the answer. */
  lemma AnswerIgnoresCase(question: string)
    ensures AnalysisTopic(ToLower(question)) == AnalysisTopic(question)
  {
    ToLowerIdempotent(question);
  }

  // ------------------------------------------------------------ export

  datatype ExportFormat = Pdf | Excel

  const ExportPrefix: string := "analytics_report_"

  function Extension(format: ExportFormat): string {
    if format == Pdf then "pdf" else "xlsx"
  }

  /** The file name `exportAnalyticsReport` returns, `now` being `Date.now()`. */
  function ExportFileName(format: ExportFormat, now: nat): (r: string)
    ensures StartsWith(r, ExportPrefix)
    ensures |r| > |ExportPrefix| + |Extension(format)| && r[|r| - |Extension(format)|..] == Extension(format)
  {
    ExportPrefix + NatToString(now) + "." + Extension(format)
  }

  /** The name ends in the extension of the format and tells format and time apart. */
  lemma ExportFileNameMeaning(f: ExportFormat, g: ExportFormat, m: nat, n: nat)
    ensures StartsWith(ExportFileName(f, m), ExportPrefix)
    ensures var name := ExportFileName(f, m); name[|name| - 1] == if f == Pdf then 'f' else 'x'
    ensures ExportFileName(f, m) == ExportFileName(g, n) <==> f == g && m == n
  {
    var a, b := ExportFileName(f, m), ExportFileName(g, n);
    assert a[..|ExportPrefix|] == ExportPrefix;
    if a == b {
      assert a[|a| - 1] == b[|b| - 1];
      assert f == g;
      var e := "." + Extension(f);
      assert a == (ExportPrefix + NatToString(m)) + e;
      assert b == (ExportPrefix + NatToString(n)) + e;
      assert a[..|a| - |e|] == ExportPrefix + NatToString(m);
      assert b[..|b| - |e|] == ExportPrefix + NatToString(n);
      if m != n {
        PrefixedNatInjective(ExportPrefix, m, n);
      }
    }
  }
}
