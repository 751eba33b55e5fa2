/** Chart recommendations: six keyword groups, tried in a fixed order on the
    lower-cased data type and analysis goal; the charts of every group that
    matches are appended and the list is cut to its first six entries. */
module ChartAdvice {
  import opened Text

  /** A group reads either the analysis goal or the data type, matches when
      one of its keywords is a substring of it, and then adds its charts. */
  datatype ChartGroup = ChartGroup(onGoal: bool, keywords: seq<string>, charts: seq<string>)

  const TimeCharts: seq<string> := [
    "Line Chart - Show trends over time",
    "Area Chart - Show cumulative changes",
    "Candlestick Chart - For financial data"]

  const CategoricalCharts: seq<string> := [
    "Bar Chart - Compare categories",
    "Pie Chart - Show proportions (max 5-7 categories)",
    "Donut Chart - Alternative to pie chart"]

  const NumericalCharts: seq<string> := [
    "Histogram - Show distribution",
    "Box Plot - Show quartiles and outliers",
    "Scatter Plot - Show relationships"]

  const ComparisonCharts: seq<string> := [
    "Bar Chart - Direct comparison",
    "Radar Chart - Multi-dimensional comparison",
    "Parallel Coordinates - Complex comparisons"]

  const CorrelationCharts: seq<string> := [
    "Scatter Plot - Show correlation",
    "Correlation Matrix Heatmap - Multiple relationships",
    "Bubble Chart - Three-dimensional relationships"]

  const DistributionCharts: seq<string> := [
    "Histogram - Frequency distribution",
    "Violin Plot - Distribution shape",
    "Q-Q Plot - Compare with theoretical distribution"]

  const MaxCharts: nat := 6

  /** The six groups in the order they are tried. */
  const Groups: seq<ChartGroup> := [
    ChartGroup(false, ["time", "temporal"], TimeCharts),
    ChartGroup(false, ["categorical", "category"], CategoricalCharts),
    ChartGroup(false, ["numerical", "continuous"], NumericalCharts),
    ChartGroup(true, ["comparison"], ComparisonCharts),
    ChartGroup(true, ["correlation", "relationship"], CorrelationCharts),
    ChartGroup(true, ["distribution"], DistributionCharts)]

  predicate MentionsAny(s: string, keywords: seq<string>)
    decreases |keywords|
  {
    keywords != [] && (Contains(s, keywords[0]) || MentionsAny(s, keywords[1..]))
  }

  lemma {:induction false} MentionsAnyIff(s: string, keywords: seq<string>)
    ensures MentionsAny(s, keywords) <==> exists k :: k in keywords && Contains(s, k)
    decreases |keywords|
  {
    if keywords != [] {
      MentionsAnyIff(s, keywords[1..]);
      if Contains(s, keywords[0]) {
        assert keywords[0] in keywords;
      } else if exists k :: k in keywords && Contains(s, k) {
        var k :| k in keywords && Contains(s, k);
        assert k in keywords[1..];
      }
      assert forall k :: k in keywords[1..] ==> k in keywords;
    }
  }

  /** `dataType` and `goal` are already lower-cased. */
  predicate GroupMatches(g: ChartGroup, dataType: string, goal: string) {
    MentionsAny(if g.onGoal then goal else dataType, g.keywords)
  }

  /** The uncut list: the charts of the matching groups, in group order. */
  function Matched(groups: seq<ChartGroup>, dataType: string, goal: string): seq<string>
    decreases |groups|
  {
    if groups == [] then []
    else
      var last := groups[|groups| - 1];
      Matched(groups[..|groups| - 1], dataType, goal)
        + (if GroupMatches(last, dataType, goal) then last.charts else [])
  }

  /** One more group adds its charts when it matches. */
  lemma MatchedSnoc(groups: seq<ChartGroup>, k: nat, dataType: string, goal: string)
    requires k < |groups|
    ensures Matched(groups[..k + 1], dataType, goal)
            == Matched(groups[..k], dataType, goal)
               + (if GroupMatches(groups[k], dataType, goal) then groups[k].charts else [])
  {
    assert groups[..k + 1][..k] == groups[..k];
  }

  /** The six tests written out. */
  lemma GroupTests(dt: string, goal: string)
    ensures GroupMatches(Groups[0], dt, goal) <==> Contains(dt, "time") || Contains(dt, "temporal")
    ensures GroupMatches(Groups[1], dt, goal) <==> Contains(dt, "categorical") || Contains(dt, "category")
    ensures GroupMatches(Groups[2], dt, goal) <==> Contains(dt, "numerical") || Contains(dt, "continuous")
    ensures GroupMatches(Groups[3], dt, goal) <==> Contains(goal, "comparison")
    ensures GroupMatches(Groups[4], dt, goal) <==> Contains(goal, "correlation") || Contains(goal, "relationship")
    ensures GroupMatches(Groups[5], dt, goal) <==> Contains(goal, "distribution")
  {
  }

  /** The uncut list grown one group at a time, each step in the words of the
      source's test: first the three data-type groups ... */
  lemma DataTypeSteps(dt: string, goal: string)
    ensures Matched(Groups[..1], dt, goal) == (if Contains(dt, "time") || Contains(dt, "temporal") then TimeCharts else [])
    ensures Matched(Groups[..2], dt, goal) == Matched(Groups[..1], dt, goal)
              + (if Contains(dt, "categorical") || Contains(dt, "category") then CategoricalCharts else [])
    ensures Matched(Groups[..3], dt, goal) == Matched(Groups[..2], dt, goal)
              + (if Contains(dt, "numerical") || Contains(dt, "continuous") then NumericalCharts else [])
  {
    GroupTests(dt, goal);
    MatchedSnoc(Groups, 0, dt, goal);
    MatchedSnoc(Groups, 1, dt, goal);
    MatchedSnoc(Groups, 2, dt, goal);
  }

  /** ... then the three goal groups. */
  lemma GoalSteps(dt: string, goal: string)
    ensures Matched(Groups[..4], dt, goal) == Matched(Groups[..3], dt, goal)
              + (if Contains(goal, "comparison") then ComparisonCharts else [])
    ensures Matched(Groups[..5], dt, goal) == Matched(Groups[..4], dt, goal)
              + (if Contains(goal, "correlation") || Contains(goal, "relationship") then CorrelationCharts else [])
    ensures Matched(Groups, dt, goal) == Matched(Groups[..5], dt, goal)
              + (if Contains(goal, "distribution") then DistributionCharts else [])
  {
    GroupTests(dt, goal);
    MatchedSnoc(Groups, 3, dt, goal);
    MatchedSnoc(Groups, 4, dt, goal);
    MatchedSnoc(Groups, 5, dt, goal);
    assert Groups[..6] == Groups;
  }

  /** `_get_chart_recommendations(data_type, analysis_goal)`: case-insensitive
      matching, then at most six entries, the first ones of the uncut list. */
  function Recommended(dataType: string, analysisGoal: string): (r: seq<string>)
    ensures |r| == Min(|Matched(Groups, Lower(dataType), Lower(analysisGoal))|, MaxCharts)
    ensures r == Matched(Groups, Lower(dataType), Lower(analysisGoal))[..|r|]
  {
    PyPrefix(Matched(Groups, Lower(dataType), Lower(analysisGoal)), MaxCharts)
  }

  /** The local list is extended by each group whose test holds, in the
      source's order, then cut to six entries. */
  method ChartRecommendations(dataType: string, analysisGoal: string) returns (charts: seq<string>)
    ensures charts == Recommended(dataType, analysisGoal)
  {
    var dt := Lower(dataType);
    var goal := Lower(analysisGoal);
    DataTypeSteps(dt, goal);
    GoalSteps(dt, goal);
    charts := [];
    charts := charts + (if Contains(dt, "time") || Contains(dt, "temporal") then TimeCharts else []);
    assert charts == Matched(Groups[..1], dt, goal);
    charts := charts + (if Contains(dt, "categorical") || Contains(dt, "category") then CategoricalCharts else []);
    assert charts == Matched(Groups[..2], dt, goal);
    charts := charts + (if Contains(dt, "numerical") || Contains(dt, "continuous") then NumericalCharts else []);
    assert charts == Matched(Groups[..3], dt, goal);
    charts := charts + (if Contains(goal, "comparison") then ComparisonCharts else []);
    assert charts == Matched(Groups[..4], dt, goal);
    charts := charts + (if Contains(goal, "correlation") || Contains(goal, "relationship") then CorrelationCharts else []);
    assert charts == Matched(Groups[..5], dt, goal);
    charts := charts + (if Contains(goal, "distribution") then DistributionCharts else []);
    assert charts == Matched(Groups, dt, goal);
    charts := PyPrefix(charts, MaxCharts);
  }

  /** A chart is in the uncut list exactly when some matching group offers it. */
  lemma {:induction false} MatchedMembers(groups: seq<ChartGroup>, dataType: string, goal: string, c: string)
    ensures c in Matched(groups, dataType, goal) <==>
            exists i :: 0 <= i < |groups| && GroupMatches(groups[i], dataType, goal) && c in groups[i].charts
    decreases |groups|
  {
    if groups != [] {
      var n := |groups| - 1;
      var init := groups[..n];
      MatchedMembers(init, dataType, goal, c);
      assert forall i :: 0 <= i < n ==> init[i] == groups[i];
      if c in Matched(groups, dataType, goal) && c !in Matched(init, dataType, goal) {
        assert GroupMatches(groups[n], dataType, goal) && c in groups[n].charts;
      }
    }
  }

  /** The uncut list for a prefix of the groups is a prefix of the uncut list. */
  lemma {:induction false} MatchedPrefix(groups: seq<ChartGroup>, k: nat, dataType: string, goal: string)
    requires k <= |groups|
    ensures var m := Matched(groups[..k], dataType, goal);
            |m| <= |Matched(groups, dataType, goal)| && Matched(groups, dataType, goal)[..|m|] == m
    decreases |groups| - k
  {
    if k < |groups| {
      MatchedSnoc(groups, k, dataType, goal);
      MatchedPrefix(groups, k + 1, dataType, goal);
    } else {
      assert groups[..k] == groups;
    }
  }

  /** Number of groups that match. */
  function MatchCount(groups: seq<ChartGroup>, dataType: string, goal: string): (n: nat)
    ensures n <= |groups|
    decreases |groups|
  {
    if groups == [] then 0
    else MatchCount(groups[..|groups| - 1], dataType, goal)
         + (if GroupMatches(groups[|groups| - 1], dataType, goal) then 1 else 0)
  }

  /** When every group offers three charts, the uncut list has three per
      matching group. */
  lemma {:induction false} MatchedLength(groups: seq<ChartGroup>, dataType: string, goal: string)
    requires forall i :: 0 <= i < |groups| ==> |groups[i].charts| == 3
    ensures |Matched(groups, dataType, goal)| == 3 * MatchCount(groups, dataType, goal)
    decreases |groups|
  {
    if groups != [] {
      MatchedLength(groups[..|groups| - 1], dataType, goal);
    }
  }

  /** So the cut keeps the charts of the first two matching groups. */
  lemma RecommendedLength(dataType: string, analysisGoal: string)
    ensures |Recommended(dataType, analysisGoal)|
            == Min(3 * MatchCount(Groups, Lower(dataType), Lower(analysisGoal)), MaxCharts)
  {
    MatchedLength(Groups, Lower(dataType), Lower(analysisGoal));
  }

  /** Without any keyword there is no recommendation. */
  lemma NoKeywordNoCharts(dataType: string, analysisGoal: string)
    requires forall i :: 0 <= i < |Groups| ==> !GroupMatches(Groups[i], Lower(dataType), Lower(analysisGoal))
    ensures Recommended(dataType, analysisGoal) == []
  {
    MatchedLength(Groups, Lower(dataType), Lower(analysisGoal));
    MatchCountZero(Groups, Lower(dataType), Lower(analysisGoal));
  }

  lemma {:induction false} MatchCountZero(groups: seq<ChartGroup>, dataType: string, goal: string)
    requires forall i :: 0 <= i < |groups| ==> !GroupMatches(groups[i], dataType, goal)
    ensures MatchCount(groups, dataType, goal) == 0
    decreases |groups|
  {
    if groups != [] {
      var init := groups[..|groups| - 1];
      assert forall i :: 0 <= i < |init| ==> init[i] == groups[i];
      MatchCountZero(init, dataType, goal);
    }
  }

  /** Capitalisation of the inputs does not matter. */
  lemma CaseInsensitive(dataType: string, analysisGoal: string)
    ensures Recommended(Upper(dataType), Upper(analysisGoal)) == Recommended(dataType, analysisGoal)
  {
    LowerOfUpper(dataType);
    LowerOfUpper(analysisGoal);
  }

  lemma LowerOfUpper(s: string)
    ensures Lower(Upper(s)) == Lower(s)
  {
    assert forall i :: 0 <= i < |s| ==> LowerChar(UpperChar(s[i])) == LowerChar(s[i]);
  }

  /** A data type that mentions both time and categories fills the six
      places with the time and categorical charts, whatever the goal: the
      later groups are cut. */
  lemma CapDropsLaterGroups(dataType: string, analysisGoal: string)
    requires Contains(Lower(dataType), "time") && Contains(Lower(dataType), "categorical")
    ensures Recommended(dataType, analysisGoal) == TimeCharts + CategoricalCharts
  {
    var dt, goal := Lower(dataType), Lower(analysisGoal);
    GroupTests(dt, goal);
    MatchedSnoc(Groups, 0, dt, goal);
    MatchedSnoc(Groups, 1, dt, goal);
    assert Groups[..1][..0] == [];
    assert Matched(Groups[..2], dt, goal) == TimeCharts + CategoricalCharts;
    MatchedPrefix(Groups, 2, dt, goal);
  }
}
