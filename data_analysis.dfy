/** The data analysis tool: a four-line header, then the advice list chosen by
    the lower-cased analysis type, with a warning before the basic list when the
    type is none of the three it knows. */
module DataAnalysis {
  import opened Text

  datatype AnalysisKind = Descriptive | Statistical | Trend | Unknown

  /** The type names are compared after lower-casing. */
  function Classify(analysisType: string): (k: AnalysisKind)
    ensures k == Descriptive <==> Lower(analysisType) == "descriptive"
    ensures k == Statistical <==> Lower(analysisType) == "statistical"
    ensures k == Trend <==> Lower(analysisType) == "trend"
  {
    var t := Lower(analysisType);
    if t == "descriptive" then Descriptive
    else if t == "statistical" then Statistical
    else if t == "trend" then Trend
    else Unknown
  }

  /** The warning line; its sign is kept apart so that its first character is
      visible to the proofs. */
  const UnknownWarning: string := "⚠️  " + "Unknown analysis type. Performing basic analysis."

  const DescriptiveAdvice: seq<string> := [
    "\n📊 Descriptive Analysis Recommendations:",
    "   • Calculate central tendency measures (mean, median, mode)",
    "   • Determine variability measures (standard deviation, range)",
    "   • Identify outliers and anomalies",
    "   • Generate frequency distributions",
    "   • Create summary statistics tables",
    "\n💡 Insights to look for:",
    "   • Data distribution patterns",
    "   • Missing or inconsistent values",
    "   • Unusual patterns or anomalies",
    "   • Key performance indicators"]

  const StatisticalAdvice: seq<string> := [
    "\n📈 Statistical Analysis Recommendations:",
    "   • Perform hypothesis testing",
    "   • Calculate correlation coefficients",
    "   • Conduct regression analysis",
    "   • Apply significance testing",
    "   • Generate confidence intervals",
    "\n🔬 Advanced techniques to consider:",
    "   • ANOVA for group comparisons",
    "   • Chi-square tests for categorical data",
    "   • Time series analysis for temporal data",
    "   • Multivariate analysis for complex relationships"]

  const TrendAdvice: seq<string> := [
    "\n📈 Trend Analysis Recommendations:",
    "   • Identify seasonal patterns",
    "   • Calculate growth rates and trends",
    "   • Detect cyclical behaviors",
    "   • Forecast future values",
    "   • Analyze trend significance",
    "\n🔮 Forecasting considerations:",
    "   • Moving averages for smoothing",
    "   • Exponential smoothing techniques",
    "   • ARIMA models for complex patterns",
    "   • Confidence intervals for predictions"]

  const BasicAdvice: seq<string> := [
    "\n📋 Basic Analysis Recommendations:",
    "   • Review data quality and completeness",
    "   • Understand data structure and format",
    "   • Identify key variables and relationships",
    "   • Create initial visualizations",
    "   • Document findings and observations"]

  /** The lines after the header, per kind. */
  function Body(k: AnalysisKind): seq<string> {
    match k
    case Descriptive => DescriptiveAdvice
    case Statistical => StatisticalAdvice
    case Trend => TrendAdvice
    case Unknown => [UnknownWarning] + BasicAdvice
  }

  function Header(dataDescription: string, analysisType: string): seq<string> {
    ["📈 Data Analysis Report",
     "Data: " + dataDescription,
     "Analysis Type: " + analysisType,
     Repeat('=', 50)]
  }

  /** The lines of the report: the header, which echoes both arguments as
      given, then the body for the classified type. */
  function ReportLines(dataDescription: string, analysisType: string := "descriptive"): (r: seq<string>)
    ensures |r| >= 4 && r[..4] == Header(dataDescription, analysisType)
    ensures r[4..] == Body(Classify(analysisType))
  {
    Header(dataDescription, analysisType) + Body(Classify(analysisType))
  }

  /** `DataAnalysisTool._run`: the report lines joined by line feeds. */
  function AnalyzeData(dataDescription: string, analysisType: string := "descriptive"): (r: string)
    ensures r == Join(Header(dataDescription, analysisType), "\n") + "\n" + Join(Body(Classify(analysisType)), "\n")
  {
    JoinAppend(Header(dataDescription, analysisType), Body(Classify(analysisType)), "\n");
    Join(ReportLines(dataDescription, analysisType), "\n")
  }

  /** The warning appears in the report exactly when the type is unknown, and
      then right after the header, followed by the basic list. */
  lemma WarningIffUnknown(dataDescription: string, analysisType: string)
    ensures UnknownWarning in ReportLines(dataDescription, analysisType)
            <==> Classify(analysisType) == Unknown
    ensures Classify(analysisType) == Unknown ==>
              ReportLines(dataDescription, analysisType)[4] == UnknownWarning
              && ReportLines(dataDescription, analysisType)[5..] == BasicAdvice
  {
    var h := Header(dataDescription, analysisType);
    var k := Classify(analysisType);
    assert ReportLines(dataDescription, analysisType) == h + Body(k);
    HeaderLacksWarning(dataDescription, analysisType);
    if k != Unknown {
      AdviceLacksWarning();
    }
  }

  lemma HeaderLacksWarning(dataDescription: string, analysisType: string)
    ensures UnknownWarning !in Header(dataDescription, analysisType)
  {
    assert UnknownWarning[0] == '⚠';
    assert ("Data: " + dataDescription)[0] == 'D';
    assert ("Analysis Type: " + analysisType)[0] == 'A';
  }

  lemma AdviceLacksWarning()
    ensures UnknownWarning !in DescriptiveAdvice
    ensures UnknownWarning !in StatisticalAdvice
    ensures UnknownWarning !in TrendAdvice
  {
  }

  /** The type is matched in any capitalisation: whatever letters of
      "trend", "statistical" or "descriptive" are capitalised, the advice
      after the header is that type's list; the default type is descriptive. */
  lemma TypeInAnyCase(dataDescription: string, analysisType: string)
    ensures IsCasingOf(analysisType, "trend") ==> ReportLines(dataDescription, analysisType)[4..] == TrendAdvice
    ensures IsCasingOf(analysisType, "statistical") ==> ReportLines(dataDescription, analysisType)[4..] == StatisticalAdvice
    ensures IsCasingOf(analysisType, "descriptive") ==> ReportLines(dataDescription, analysisType)[4..] == DescriptiveAdvice
    ensures ReportLines(dataDescription)[4..] == DescriptiveAdvice
  {
    assert IsLowerWord("trend");
    assert IsLowerWord("statistical");
    assert IsLowerWord("descriptive");
    LowerIsCasing(analysisType, "trend");
    LowerIsCasing(analysisType, "statistical");
    LowerIsCasing(analysisType, "descriptive");
    assert Lower("descriptive") == "descriptive";
  }
}
