/** The integrations section: four category cards, each counting the integrations
    whose category mentions the first word of the card's heading, and a grid of
    badges for the first twelve integrations with a Live or Soon label. */
module IntegrationSection {
  import opened Sequences
  import opened Text

  /** One partner system. */
  datatype Integration = Integration(name: string, category: string, status: string)

  /** The sixteen integrations, in page order: seven EHR systems, one CRM, three
      communication tools, two analytics tools, then one each of Data, Cloud and AI. */
  const Integrations: seq<Integration> :=
    EhrRun + (CrmRun + (CommunicationRun + (AnalyticsRun + (DataRun + (CloudRun + AiRun)))))

  const EhrRun: seq<Integration> := [
    Integration("Epic", "EHR", "active"),
    Integration("Cerner", "EHR", "active"),
    Integration("Allscripts", "EHR", "active"),
    Integration("athenahealth", "EHR", "active"),
    Integration("eClinicalWorks", "EHR", "active"),
    Integration("NextGen", "EHR", "active"),
    Integration("Meditech", "EHR", "active")
  ]
  const CrmRun: seq<Integration> := [Integration("Salesforce Health Cloud", "CRM", "active")]
  const CommunicationRun: seq<Integration> := [
    Integration("Microsoft Teams", "Communication", "active"),
    Integration("Slack", "Communication", "active"),
    Integration("Zoom", "Communication", "active")
  ]
  const AnalyticsRun: seq<Integration> := [
    Integration("Tableau", "Analytics", "active"),
    Integration("Power BI", "Analytics", "active")
  ]
  const DataRun: seq<Integration> := [Integration("Snowflake", "Data", "coming-soon")]
  const CloudRun: seq<Integration> := [Integration("AWS HealthLake", "Cloud", "active")]
  const AiRun: seq<Integration> := [Integration("Azure Health Bot", "AI", "coming-soon")]

  /** The labels of the four category cards. */
  const CategoryLabels: seq<string> := ["EHR Systems", "Communication", "Analytics", "Cloud Services"]

  /** `heading.toLowerCase().split(' ')[0]`: the keyword a card searches for, the
      lower-cased heading up to (not including) its first space, or all of it when
      it has none. */
  function CategoryKeyword(heading: string): (keyword: string)
    ensures ' ' !in keyword
    ensures keyword <= Lower(heading)
    ensures |keyword| < |heading| ==> Lower(heading)[|keyword|] == ' '
  {
    Split(Lower(heading), ' ')[0]
  }

  /** An integration belongs to a card when its lower-cased category contains the
      keyword: the empty keyword takes every integration, and a keyword longer than
      the category takes none. */
  predicate InCategory(i: Integration, keyword: string): (r: bool)
    ensures keyword == "" ==> r
    ensures r ==> |keyword| <= |i.category|
  {
    Includes(Lower(i.category), keyword)
  }

  /** `InCategory` as the callback handed to `filter`. */
  function InCategoryFn(keyword: string): Integration -> bool
  {
    i => InCategory(i, keyword)
  }

  /** The integrations a card counts, in page order. */
  function CategoryMembers(integrations: seq<Integration>, heading: string): (r: seq<Integration>)
    ensures |r| <= |integrations|
    ensures forall k :: 0 <= k < |r| ==> InCategory(r[k], CategoryKeyword(heading))
  {
    Filter(integrations, InCategoryFn(CategoryKeyword(heading)))
  }

  /** The number printed on a card: never more than the sixteen integrations listed. */
  function CategoryCount(heading: string): (n: nat)
    ensures n <= |Integrations|
  {
    |CategoryMembers(Integrations, heading)|
  }

  /** A card counts exactly the listed integrations whose lower-cased category has
      the lower-cased first word of the heading as a substring, each once, in page order. */
  lemma CategoryMembersExact(integrations: seq<Integration>, heading: string, i: Integration)
    ensures IsSubsequence(CategoryMembers(integrations, heading), integrations)
    ensures i in CategoryMembers(integrations, heading)
            <==> i in integrations && exists k :: OccursAt(Lower(i.category), CategoryKeyword(heading), k)
  {
    var keyword := CategoryKeyword(heading);
    FilterIsSubsequence(integrations, InCategoryFn(keyword));
    FilterMembership(integrations, InCategoryFn(keyword), i);
    assert InCategoryFn(keyword)(i) == Includes(Lower(i.category), keyword);
    IncludesIffOccurs(Lower(i.category), keyword);
  }

  /** A run of integrations sharing one category is kept whole or dropped whole. */
  lemma SameCategory(s: seq<Integration>, category: string, keyword: string)
    requires forall k :: 0 <= k < |s| ==> s[k].category == category
    ensures |Filter(s, InCategoryFn(keyword))|
            == if Includes(Lower(category), keyword) then |s| else 0
  {
    if Includes(Lower(category), keyword) {
      FilterKeepsAll(s, InCategoryFn(keyword));
    } else {
      FilterKeepsNone(s, InCategoryFn(keyword));
    }
  }

  /** What a run of `n` integrations whose category lower-cases to `lowered` adds
      to a card's count. */
  function RunCount(lowered: string, n: nat, keyword: string): nat
  {
    if Includes(lowered, keyword) then n else 0
  }

  /** The two halves of a list are counted separately. */
  lemma CountConcat(a: seq<Integration>, b: seq<Integration>, keyword: string)
    ensures |Filter(a + b, InCategoryFn(keyword))|
            == |Filter(a, InCategoryFn(keyword))| + |Filter(b, InCategoryFn(keyword))|
  {
    FilterConcat(a, b, InCategoryFn(keyword));
  }

  /** A run of one category followed by the rest of a list: the run adds all or
      nothing to the count. */
  lemma CountRun(run: seq<Integration>, rest: seq<Integration>, category: string, keyword: string)
    requires forall k :: 0 <= k < |run| ==> run[k].category == category
    ensures |Filter(run + rest, InCategoryFn(keyword))|
            == RunCount(Lower(category), |run|, keyword) + |Filter(rest, InCategoryFn(keyword))|
  {
    CountConcat(run, rest, keyword);
    SameCategory(run, category, keyword);
  }

  /** A run whose lowered category cannot contain the keyword adds nothing. */
  lemma RunCountNone(lowered: string, n: nat, keyword: string, j: int)
    requires 0 <= j < |keyword|
    requires |keyword| > |lowered| || keyword[j] !in lowered
    ensures RunCount(lowered, n, keyword) == 0
  {
    NotIncluded(lowered, keyword, j);
  }

  lemma CountFromAi(keyword: string)
    ensures |Filter(AiRun, InCategoryFn(keyword))|
            == RunCount("ai", 1, keyword)
  {
    LowerAi();
    assert AiRun + [] == AiRun;
    CountRun(AiRun, [], "AI", keyword);
  }

  lemma CountFromCloud(keyword: string)
    ensures |Filter(CloudRun + AiRun, InCategoryFn(keyword))|
            == RunCount("cloud", 1, keyword) + RunCount("ai", 1, keyword)
  {
    LowerCloud();
    CountRun(CloudRun, AiRun, "Cloud", keyword);
    CountFromAi(keyword);
  }

  lemma CountFromData(keyword: string)
    ensures |Filter(DataRun + (CloudRun + AiRun), InCategoryFn(keyword))|
            == RunCount("data", 1, keyword) + RunCount("cloud", 1, keyword) + RunCount("ai", 1, keyword)
  {
    LowerData();
    CountRun(DataRun, CloudRun + AiRun, "Data", keyword);
    CountFromCloud(keyword);
  }

  lemma CountFromAnalytics(keyword: string)
    ensures |Filter(AnalyticsRun + (DataRun + (CloudRun + AiRun)), InCategoryFn(keyword))|
            == RunCount("analytics", 2, keyword) + RunCount("data", 1, keyword) + RunCount("cloud", 1, keyword) + RunCount("ai", 1, keyword)
  {
    LowerAnalytics();
    CountRun(AnalyticsRun, DataRun + (CloudRun + AiRun), "Analytics", keyword);
    CountFromData(keyword);
  }

  lemma CountFromCommunication(keyword: string)
    ensures |Filter(CommunicationRun + (AnalyticsRun + (DataRun + (CloudRun + AiRun))), InCategoryFn(keyword))|
            == RunCount("communication", 3, keyword) + RunCount("analytics", 2, keyword) + RunCount("data", 1, keyword) + RunCount("cloud", 1, keyword) + RunCount("ai", 1, keyword)
  {
    LowerCommunication();
    CountRun(CommunicationRun, AnalyticsRun + (DataRun + (CloudRun + AiRun)), "Communication", keyword);
    CountFromAnalytics(keyword);
  }

  lemma CountFromCrm(keyword: string)
    ensures |Filter(CrmRun + (CommunicationRun + (AnalyticsRun + (DataRun + (CloudRun + AiRun)))), InCategoryFn(keyword))|
            == RunCount("crm", 1, keyword) + RunCount("communication", 3, keyword) + RunCount("analytics", 2, keyword) + RunCount("data", 1, keyword) + RunCount("cloud", 1, keyword) + RunCount("ai", 1, keyword)
  {
    LowerCrm();
    CountRun(CrmRun, CommunicationRun + (AnalyticsRun + (DataRun + (CloudRun + AiRun))), "CRM", keyword);
    CountFromCommunication(keyword);
  }

  /** A card's count is the sum of what the seven runs of the list add. */
  lemma CountByRuns(keyword: string)
    ensures |Filter(Integrations, InCategoryFn(keyword))|
            == RunCount("ehr", 7, keyword) + RunCount("crm", 1, keyword)
               + RunCount("communication", 3, keyword) + RunCount("analytics", 2, keyword)
               + RunCount("data", 1, keyword) + RunCount("cloud", 1, keyword)
               + RunCount("ai", 1, keyword)
  {
    LowerEhr();
    CountRun(EhrRun, CrmRun + (CommunicationRun + (AnalyticsRun + (DataRun + (CloudRun + AiRun)))), "EHR", keyword);
    CountFromCrm(keyword);
  }

  /** The seven categories in lower case. */
  lemma LowerEhr() ensures Lower("EHR") == "ehr" {}
  lemma LowerCrm() ensures Lower("CRM") == "crm" {}
  lemma LowerCommunication() ensures Lower("Communication") == "communication" {}
  lemma LowerAnalytics() ensures Lower("Analytics") == "analytics" {}
  lemma LowerData() ensures Lower("Data") == "data" {}
  lemma LowerCloud() ensures Lower("Cloud") == "cloud" {}
  lemma LowerAi() ensures Lower("AI") == "ai" {}

  /** "EHR Systems" searches for its first word, "ehr". */
  lemma EhrKeyword()
    ensures CategoryKeyword("EHR Systems") == "ehr"
  {
    assert Lower("EHR Systems") == Join(["ehr", "systems"], ' ');
    SplitJoin(["ehr", "systems"], ' ');
  }

  /** What each run adds to the "ehr" count. */
  lemma EhrRunCounts()
    ensures RunCount("ehr", 7, "ehr") == 7
    ensures RunCount("crm", 1, "ehr") == 0
    ensures RunCount("communication", 3, "ehr") == 0
    ensures RunCount("analytics", 2, "ehr") == 0
    ensures RunCount("data", 1, "ehr") == 0
    ensures RunCount("cloud", 1, "ehr") == 0
    ensures RunCount("ai", 1, "ehr") == 0
  {
    assert 'e' !in "crm" && 'e' !in "communication" && 'e' !in "analytics";
    assert 'e' !in "data" && 'e' !in "cloud";
    RunCountNone("crm", 1, "ehr", 0);
    RunCountNone("communication", 3, "ehr", 0);
    RunCountNone("analytics", 2, "ehr", 0);
    RunCountNone("data", 1, "ehr", 0);
    RunCountNone("cloud", 1, "ehr", 0);
    RunCountNone("ai", 1, "ehr", 0);
  }

  /** "EHR Systems" counts the seven EHR systems. */
  lemma EhrCount()
    ensures CategoryCount("EHR Systems") == 7
  {
    EhrKeyword();
    CountByRuns("ehr");
    EhrRunCounts();
  }

  /** "Communication" is a single word, so it is its own keyword. */
  lemma CommunicationKeyword()
    ensures CategoryKeyword("Communication") == "communication"
  {
    LowerCommunication();
    SplitNoSeparator("communication", ' ');
  }

  /** What each run adds to the "communication" count. */
  lemma CommunicationRunCounts()
    ensures RunCount("ehr", 7, "communication") == 0
    ensures RunCount("crm", 1, "communication") == 0
    ensures RunCount("communication", 3, "communication") == 3
    ensures RunCount("analytics", 2, "communication") == 0
    ensures RunCount("data", 1, "communication") == 0
    ensures RunCount("cloud", 1, "communication") == 0
    ensures RunCount("ai", 1, "communication") == 0
  {
    RunCountNone("ehr", 7, "communication", 0);
    RunCountNone("crm", 1, "communication", 0);
    RunCountNone("analytics", 2, "communication", 0);
    RunCountNone("data", 1, "communication", 0);
    RunCountNone("cloud", 1, "communication", 0);
    RunCountNone("ai", 1, "communication", 0);
  }

  /** "Communication" counts Microsoft Teams, Slack and Zoom. */
  lemma CommunicationCount()
    ensures CategoryCount("Communication") == 3
  {
    CommunicationKeyword();
    CountByRuns("communication");
    CommunicationRunCounts();
  }

  /** "Analytics" is a single word, so it is its own keyword. */
  lemma AnalyticsKeyword()
    ensures CategoryKeyword("Analytics") == "analytics"
  {
    LowerAnalytics();
    SplitNoSeparator("analytics", ' ');
  }

  /** What each run adds to the "analytics" count. */
  lemma AnalyticsRunCounts()
    ensures RunCount("ehr", 7, "analytics") == 0
    ensures RunCount("crm", 1, "analytics") == 0
    ensures RunCount("communication", 3, "analytics") == 0
    ensures RunCount("analytics", 2, "analytics") == 2
    ensures RunCount("data", 1, "analytics") == 0
    ensures RunCount("cloud", 1, "analytics") == 0
    ensures RunCount("ai", 1, "analytics") == 0
  {
    assert 'y' !in "communication";
    RunCountNone("ehr", 7, "analytics", 0);
    RunCountNone("crm", 1, "analytics", 0);
    RunCountNone("communication", 3, "analytics", 4);
    RunCountNone("data", 1, "analytics", 0);
    RunCountNone("cloud", 1, "analytics", 0);
    RunCountNone("ai", 1, "analytics", 0);
  }

  /** "Analytics" counts Tableau and Power BI. */
  lemma AnalyticsCount()
    ensures CategoryCount("Analytics") == 2
  {
    AnalyticsKeyword();
    CountByRuns("analytics");
    AnalyticsRunCounts();
  }

  /** "Cloud Services" searches for its first word, "cloud". */
  lemma CloudKeyword()
    ensures CategoryKeyword("Cloud Services") == "cloud"
  {
    assert Lower("Cloud Services") == Join(["cloud", "services"], ' ');
    SplitJoin(["cloud", "services"], ' ');
  }

  /** What each run adds to the "cloud" count. */
  lemma CloudRunCounts()
    ensures RunCount("ehr", 7, "cloud") == 0
    ensures RunCount("crm", 1, "cloud") == 0
    ensures RunCount("communication", 3, "cloud") == 0
    ensures RunCount("analytics", 2, "cloud") == 0
    ensures RunCount("data", 1, "cloud") == 0
    ensures RunCount("cloud", 1, "cloud") == 1
    ensures RunCount("ai", 1, "cloud") == 0
  {
    assert 'd' !in "communication" && 'd' !in "analytics";
    RunCountNone("ehr", 7, "cloud", 0);
    RunCountNone("crm", 1, "cloud", 0);
    RunCountNone("communication", 3, "cloud", 4);
    RunCountNone("analytics", 2, "cloud", 4);
    RunCountNone("data", 1, "cloud", 0);
    RunCountNone("ai", 1, "cloud", 0);
  }

  /** "Cloud Services" counts AWS HealthLake only: the Salesforce Health Cloud entry has "Cloud" in its name, not in its category. */
  lemma CloudCount()
    ensures CategoryCount("Cloud Services") == 1
  {
    CloudKeyword();
    CountByRuns("cloud");
    CloudRunCounts();
  }

  /** The four cards read 7, 3, 2 and 1; the CRM, Data and AI integrations are
      counted by no card. */
  lemma CategoryCounts()
    ensures CategoryCount(CategoryLabels[0]) == 7
    ensures CategoryCount(CategoryLabels[1]) == 3
    ensures CategoryCount(CategoryLabels[2]) == 2
    ensures CategoryCount(CategoryLabels[3]) == 1
  {
    EhrCount();
    CommunicationCount();
    AnalyticsCount();
    CloudCount();
  }

  /** How many badges the grid shows. */
  const BadgeCount: nat := 12

  /** `integrations.slice(0, 12)`: exactly the first twelve integrations, in order. */
  function ShownBadges(integrations: seq<Integration>): (shown: seq<Integration>)
    ensures shown <= integrations
    ensures |shown| == if |integrations| < BadgeCount then |integrations| else BadgeCount
  {
    Prefix(integrations, BadgeCount)
  }

  /** The badge labels. */
  datatype Label = Live | Soon

  /** `status === 'active' ? 'Live' : 'Soon'`. */
  function StatusLabel(status: string): (l: Label)
    ensures l == Live <==> status == "active"
    ensures l == Soon <==> status != "active"
  {
    if status == "active" then Live else Soon
  }

  /** The grid shows twelve of the sixteen integrations, and every one of them reads
      Live; both coming-soon integrations fall outside the grid. */
  lemma ShownBadgesAllLive()
    ensures |ShownBadges(Integrations)| == 12
    ensures forall k :: 0 <= k < 12 ==> ShownBadges(Integrations)[k] == Integrations[k]
    ensures forall k :: 0 <= k < 12 ==> StatusLabel(ShownBadges(Integrations)[k].status) == Live
    ensures forall k :: 12 <= k < |Integrations| && Integrations[k].status != "active" ==> k == 13 || k == 15
  {
  }
}
