/** The services tab: the fixed service categories, each with the services
    currently provided and the additional needs identified, the summary totals
    over them, and the set of expanded category cards. Descriptions, strategies,
    providers, icons and colours are display text and are not modelled; each
    category's random identifier becomes its position number. */
module Services {
  import opened Base

  datatype ServiceStatus = Current | Needed | Adequate | Insufficient | Excellent

  datatype Priority = High | Medium | Low

  datatype CurrentService = CurrentService(name: string, weeklyMinutes: int, status: ServiceStatus)

  datatype AdditionalNeed = AdditionalNeed(area: string, priority: Priority, status: ServiceStatus)

  datatype ServiceCategory = ServiceCategory(
    id: nat,
    title: string,
    currentServices: seq<CurrentService>,
    additionalNeeds: seq<AdditionalNeed>,
    overallStatus: ServiceStatus)

  /** `categories.flatMap { $0.currentServices }` */
  function AllServices(categories: seq<ServiceCategory>): seq<CurrentService>
    decreases |categories|
  {
    if categories == [] then [] else categories[0].currentServices + AllServices(categories[1..])
  }

  /** `categories.flatMap { $0.additionalNeeds }` */
  function AllNeeds(categories: seq<ServiceCategory>): seq<AdditionalNeed>
    decreases |categories|
  {
    if categories == [] then [] else categories[0].additionalNeeds + AllNeeds(categories[1..])
  }

  /** `reduce(0) { $0 + $1.weeklyMinutes }` */
  function Minutes(services: seq<CurrentService>): int
    decreases |services|
  {
    if services == [] then 0 else services[0].weeklyMinutes + Minutes(services[1..])
  }

  /** `filter { $0.priority == .high }.count`: never more than the needs counted. */
  function HighCount(needs: seq<AdditionalNeed>): (r: nat)
    ensures r <= |needs|
    ensures r == |needs| <==> forall k :: 0 <= k < |needs| ==> needs[k].priority == High
    decreases |needs|
  {
    if needs == [] then 0
    else
      assert forall k :: 1 <= k < |needs| ==> needs[k] == needs[1..][k - 1];
      (if needs[0].priority == High then 1 else 0) + HighCount(needs[1..])
  }

  function TotalCurrentServices(categories: seq<ServiceCategory>): nat { |AllServices(categories)| }
  function TotalAdditionalNeeds(categories: seq<ServiceCategory>): nat { |AllNeeds(categories)| }
  function TotalWeeklyMinutes(categories: seq<ServiceCategory>): int { Minutes(AllServices(categories)) }
  function HighPriorityNeeds(categories: seq<ServiceCategory>): nat { HighCount(AllNeeds(categories)) }

  /** The per-category figures, added up category by category. */
  function ServiceCountSum(categories: seq<ServiceCategory>): nat
    decreases |categories|
  {
    if categories == [] then 0 else |categories[0].currentServices| + ServiceCountSum(categories[1..])
  }

  function NeedCountSum(categories: seq<ServiceCategory>): nat
    decreases |categories|
  {
    if categories == [] then 0 else |categories[0].additionalNeeds| + NeedCountSum(categories[1..])
  }

  function MinutesSum(categories: seq<ServiceCategory>): int
    decreases |categories|
  {
    if categories == [] then 0 else Minutes(categories[0].currentServices) + MinutesSum(categories[1..])
  }

  /** Minutes over two lists of services add up. */
  lemma {:induction false} MinutesAppend(a: seq<CurrentService>, b: seq<CurrentService>)
    ensures Minutes(a + b) == Minutes(a) + Minutes(b)
    decreases |a|
  {
    if a == [] {
      assert a + b == b;
    } else {
      assert (a + b)[1..] == a[1..] + b;
      MinutesAppend(a[1..], b);
    }
  }

  /** The totals equal the sums of the per-category figures. */
  lemma {:induction false} TotalsArePerCategorySums(categories: seq<ServiceCategory>)
    ensures TotalCurrentServices(categories) == ServiceCountSum(categories)
    ensures TotalAdditionalNeeds(categories) == NeedCountSum(categories)
    ensures TotalWeeklyMinutes(categories) == MinutesSum(categories)
    decreases |categories|
  {
    if categories != [] {
      TotalsArePerCategorySums(categories[1..]);
      MinutesAppend(categories[0].currentServices, AllServices(categories[1..]));
    }
  }

  /** The high-priority count never exceeds the number of needs. */
  lemma HighPriorityBounded(categories: seq<ServiceCategory>)
    ensures HighPriorityNeeds(categories) <= TotalAdditionalNeeds(categories)
  {
  }

  /** The fixed `serviceCategories` dataset, one category at a time. */
  const Academic := ServiceCategory(0, "Current Educational Services",
    [CurrentService("Specialized Academic Instruction", 1530, Current),
     CurrentService("Intensive Individual Services", 1835, Current),
     CurrentService("General Education Integration", 60, Current)],
    [AdditionalNeed("Academic Support Strategies", High, Needed),
     AdditionalNeed("Specific Academic Focus Areas", High, Needed)],
    Adequate)

  const Communication := ServiceCategory(1, "Communication & Language Services",
    [CurrentService("Speech and Language Services", 100, Current)],
    [AdditionalNeed("Expressive & Receptive Language", High, Needed),
     AdditionalNeed("Pragmatic Language", High, Needed)],
    Insufficient)

  const Occupational := ServiceCategory(2, "Occupational Therapy Services",
    [CurrentService("Occupational Therapy", 100, Current),
     CurrentService("Sensory Consultation", 30, Current)],
    [AdditionalNeed("Fine Motor & Visual-Motor Skills", High, Needed),
     AdditionalNeed("Sensory Processing Support", High, Needed)],
    Insufficient)

  const SocialEmotional := ServiceCategory(3, "Social-Emotional & Behavioral Support",
    [],
    [AdditionalNeed("Social Skills Training", High, Needed),
     AdditionalNeed("Behavioral Regulation Support", High, Needed),
     AdditionalNeed("Sensory-Related Behavioral Support", High, Needed)],
    Needed)

  const DailyLiving := ServiceCategory(4, "Daily Living & Vocational Support",
    [],
    [AdditionalNeed("Daily Living Skills", Medium, Needed),
     AdditionalNeed("Vocational & Life Skills", Medium, Needed)],
    Needed)

  const ServiceCategories: seq<ServiceCategory> := [Academic, Communication, Occupational, SocialEmotional, DailyLiving]

  /** High-priority needs over two lists of needs add up. */
  lemma {:induction false} HighCountAppend(a: seq<AdditionalNeed>, b: seq<AdditionalNeed>)
    ensures HighCount(a + b) == HighCount(a) + HighCount(b)
    decreases |a|
  {
    if a == [] {
      assert a + b == b;
    } else {
      assert (a + b)[1..] == a[1..] + b;
      HighCountAppend(a[1..], b);
    }
  }

  function HighSum(categories: seq<ServiceCategory>): nat
    decreases |categories|
  {
    if categories == [] then 0 else HighCount(categories[0].additionalNeeds) + HighSum(categories[1..])
  }

  /** The high-priority count is the sum of the per-category counts. */
  lemma {:induction false} HighIsPerCategorySum(categories: seq<ServiceCategory>)
    ensures HighPriorityNeeds(categories) == HighSum(categories)
    decreases |categories|
  {
    if categories != [] {
      HighIsPerCategorySum(categories[1..]);
      HighCountAppend(categories[0].additionalNeeds, AllNeeds(categories[1..]));
    }
  }

  /** The per-category sums over a list of five categories. */
  lemma FiveCategories(c: seq<ServiceCategory>, a: ServiceCategory, b: ServiceCategory, d: ServiceCategory, e: ServiceCategory, f: ServiceCategory)
    requires c == [a, b, d, e, f]
    ensures ServiceCountSum(c) == |a.currentServices| + |b.currentServices| + |d.currentServices| + |e.currentServices| + |f.currentServices|
    ensures NeedCountSum(c) == |a.additionalNeeds| + |b.additionalNeeds| + |d.additionalNeeds| + |e.additionalNeeds| + |f.additionalNeeds|
    ensures MinutesSum(c) == Minutes(a.currentServices) + Minutes(b.currentServices) + Minutes(d.currentServices) + Minutes(e.currentServices) + Minutes(f.currentServices)
    ensures HighSum(c) == HighCount(a.additionalNeeds) + HighCount(b.additionalNeeds) + HighCount(d.additionalNeeds) + HighCount(e.additionalNeeds) + HighCount(f.additionalNeeds)
  {
    var c1, c2, c3, c4 := [b, d, e, f], [d, e, f], [e, f], [f];
    assert c[1..] == c1 && c1[1..] == c2 && c2[1..] == c3 && c3[1..] == c4 && c4[1..] == [];
    assert ServiceCountSum(c4) == |f.currentServices| && NeedCountSum(c4) == |f.additionalNeeds|;
    assert MinutesSum(c4) == Minutes(f.currentServices) && HighSum(c4) == HighCount(f.additionalNeeds);
    assert ServiceCountSum(c3) == |e.currentServices| + ServiceCountSum(c4);
    assert ServiceCountSum(c2) == |d.currentServices| + ServiceCountSum(c3);
    assert ServiceCountSum(c1) == |b.currentServices| + ServiceCountSum(c2);
    assert NeedCountSum(c3) == |e.additionalNeeds| + NeedCountSum(c4);
    assert NeedCountSum(c2) == |d.additionalNeeds| + NeedCountSum(c3);
    assert NeedCountSum(c1) == |b.additionalNeeds| + NeedCountSum(c2);
    assert MinutesSum(c3) == Minutes(e.currentServices) + MinutesSum(c4);
    assert MinutesSum(c2) == Minutes(d.currentServices) + MinutesSum(c3);
    assert MinutesSum(c1) == Minutes(b.currentServices) + MinutesSum(c2);
    assert HighSum(c3) == HighCount(e.additionalNeeds) + HighSum(c4);
    assert HighSum(c2) == HighCount(d.additionalNeeds) + HighSum(c3);
    assert HighSum(c1) == HighCount(b.additionalNeeds) + HighSum(c2);
  }

  /** Each category's own figures. */
  lemma CategoryFigures()
    ensures |Academic.currentServices| == 3 && Minutes(Academic.currentServices) == 3425
    ensures |Communication.currentServices| == 1 && Minutes(Communication.currentServices) == 100
    ensures |Occupational.currentServices| == 2 && Minutes(Occupational.currentServices) == 130
    ensures SocialEmotional.currentServices == [] && DailyLiving.currentServices == []
    ensures |Academic.additionalNeeds| == 2 && HighCount(Academic.additionalNeeds) == 2
    ensures |Communication.additionalNeeds| == 2 && HighCount(Communication.additionalNeeds) == 2
    ensures |Occupational.additionalNeeds| == 2 && HighCount(Occupational.additionalNeeds) == 2
    ensures |SocialEmotional.additionalNeeds| == 3 && HighCount(SocialEmotional.additionalNeeds) == 3
    ensures |DailyLiving.additionalNeeds| == 2 && HighCount(DailyLiving.additionalNeeds) == 0
  {
  }

  /** The dataset's summary: 6 current services, 11 additional needs, 3655 weekly
      minutes and 9 high-priority needs. */
  lemma DatasetTotals(categories: seq<ServiceCategory>)
    requires categories == ServiceCategories
    ensures TotalCurrentServices(categories) == 6
    ensures TotalAdditionalNeeds(categories) == 11
    ensures TotalWeeklyMinutes(categories) == 3655
    ensures HighPriorityNeeds(categories) == 9
  {
    TotalsArePerCategorySums(categories);
    HighIsPerCategorySum(categories);
    FiveCategories(categories, Academic, Communication, Occupational, SocialEmotional, DailyLiving);
    CategoryFigures();
  }

  /** The tab's expanded cards. */
  class ServicesTab {
    var expandedCategories: set<nat>

    constructor ()
      ensures expandedCategories == {}
    {
      expandedCategories := {};
    }

    /** `toggleCategory`: opens a closed card and closes an open one. */
    method ToggleCategory(id: nat)
      modifies this
      ensures expandedCategories == Toggle(old(expandedCategories), id)
      ensures id in expandedCategories <==> id !in old(expandedCategories)
    {
      if id in expandedCategories {
        expandedCategories := expandedCategories - {id};
      } else {
        expandedCategories := expandedCategories + {id};
      }
    }
  }
}
