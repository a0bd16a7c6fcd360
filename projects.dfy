/**
 * The projects section: a fixed list of projects, two category cards with
 * counts, and three filter buttons that choose which projects are shown.
 */
module ProjectsModel {

  /** A project, reduced to the fields the filter and the cards read. */
  datatype Project = Project(title: string, category: string)

  /** The four categories the list uses. */
  const MachineLearning: string := "Machine Learning"
  const DataAnalytics: string := "Data Analytics"
  const FinancialAnalytics: string := "Financial Analytics"
  const FrontendDevelopment: string := "Frontend Development"

  /** The project list, in display order. */
  const Projects: seq<Project> := [
    Project("Movie Recommendation System", MachineLearning),
    Project("E-commerce Data Analysis", DataAnalytics),
    Project("Mudra Loan Analysis", FinancialAnalytics),
    Project("Laptop Price Prediction", MachineLearning),
    Project("Netflix Content Analysis", DataAnalytics),
    Project("Stock Market Analysis", FinancialAnalytics),
    Project("Hospital Finder Platform", FrontendDevelopment),
    Project("Portfolio Website", FrontendDevelopment)
  ]

  /** The labels of the filter buttons. */
  const FilterButtons: seq<string> := ["All", "ML/Analytics", "Frontend"]

  /** `sub` occurs in `s` starting at offset `i`. */
  predicate OccursAt(s: string, sub: string, i: nat) {
    i + |sub| <= |s| && s[i..i + |sub|] == sub
  }

  /** `String.prototype.includes`: `sub` occurs in `s` at some offset. */
  function Includes(s: string, sub: string): (b: bool)
    ensures b <==> exists i: nat :: OccursAt(s, sub, i)
    decreases |s|
  {
    if |sub| <= |s| && sub == s[..|sub|] then
      assert OccursAt(s, sub, 0);
      true
    else if |s| == 0 then
      false
    else
      var b := Includes(s[1..], sub);
      forall i: nat ensures OccursAt(s, sub, i + 1) == OccursAt(s[1..], sub, i) {
        if i + 1 + |sub| <= |s| {
          assert s[i + 1..i + 1 + |sub|] == s[1..][i..i + |sub|];
        }
      }
      assert !OccursAt(s, sub, 0);
      assert forall i: nat :: OccursAt(s, sub, i) ==> i > 0 && OccursAt(s[1..], sub, i - 1);
      b
  }

  /** A pattern with a character that `s` lacks does not occur in `s`. */
  lemma MissingCharExcludes(s: string, sub: string, k: nat)
    requires k < |sub| && sub[k] !in s
    ensures !Includes(s, sub)
  {
  }

  /** The category test of the "ML/Analytics" filter and of the first card. */
  predicate MLOrAnalyticsCategory(category: string) {
    Includes(category, "Machine Learning") || Includes(category, "Analytics")
  }

  /** The category test of the "Frontend" filter and of the second card. */
  predicate FrontendCategory(category: string) {
    Includes(category, "Frontend")
  }

  predicate IsMLOrAnalytics(p: Project) { MLOrAnalyticsCategory(p.category) }

  predicate IsFrontend(p: Project) { FrontendCategory(p.category) }

  /** `xs` is `ys` with some elements dropped, order kept. */
  predicate IsSubsequence<T(==)>(xs: seq<T>, ys: seq<T>)
    decreases |ys|
  {
    if xs == [] then true
    else if ys == [] then false
    else if xs[0] == ys[0] then IsSubsequence(xs[1..], ys[1..])
    else IsSubsequence(xs, ys[1..])
  }

  /** `Array.prototype.filter`. */
  function Filter(ps: seq<Project>, keep: Project -> bool): (r: seq<Project>)
    ensures IsSubsequence(r, ps)
    ensures forall p :: p in r <==> p in ps && keep(p)
    ensures |r| <= |ps|
  {
    if ps == [] then []
    else
      var rest := Filter(ps[1..], keep);
      assert forall p :: p in ps <==> p == ps[0] || p in ps[1..];
      if keep(ps[0]) then [ps[0]] + rest else rest
  }

  /** Filtering with two predicates that agree on every element gives the same list. */
  lemma {:induction false} FilterAgree(ps: seq<Project>, f: Project -> bool, g: Project -> bool)
    requires forall i :: 0 <= i < |ps| ==> f(ps[i]) == g(ps[i])
    ensures Filter(ps, f) == Filter(ps, g)
  {
    if ps != [] {
      FilterAgree(ps[1..], f, g);
    }
  }

  /** Every element is kept by exactly one of `keep` and its negation. */
  lemma {:induction false} FilterPartition(ps: seq<Project>, keep: Project -> bool)
    ensures |Filter(ps, keep)| + |Filter(ps, p => !keep(p))| == |ps|
  {
    if ps != [] {
      FilterPartition(ps[1..], keep);
    }
  }

  /** The card predicate that a non-"All" selection applies. */
  predicate Matches(selection: string, p: Project) {
    if selection == "ML/Analytics" then IsMLOrAnalytics(p) else IsFrontend(p)
  }

  /** `filteredProjects` for a selected category. */
  function FilteredProjects(ps: seq<Project>, selection: string): (r: seq<Project>)
    ensures selection == "All" ==> r == ps
    ensures selection != "All" ==> IsSubsequence(r, ps)
    ensures selection == "ML/Analytics" ==> forall p :: p in r <==> p in ps && IsMLOrAnalytics(p)
    ensures selection != "All" && selection != "ML/Analytics" ==> forall p :: p in r <==> p in ps && IsFrontend(p)
  {
    if selection == "All" then ps
    else Filter(ps, p => Matches(selection, p))
  }

  /** A statistics card. */
  datatype Category = Category(name: string, count: nat)

  /** `categories`: each count is the length of its own filter of the list. */
  function Categories(ps: seq<Project>): (r: seq<Category>)
    ensures |r| == 2
    ensures r[0].name == "Machine Learning & Analytics" && r[1].name == "Frontend Development"
    ensures r[0].count <= |ps| && r[1].count <= |ps|
  {
    [ Category("Machine Learning & Analytics", |Filter(ps, IsMLOrAnalytics)|),
      Category("Frontend Development", |Filter(ps, IsFrontend)|) ]
  }

  /** Each card's count is the number of projects its filter button shows. */
  lemma CountsMatchFilters(ps: seq<Project>)
    ensures Categories(ps)[0].count == |FilteredProjects(ps, "ML/Analytics")|
    ensures Categories(ps)[1].count == |FilteredProjects(ps, "Frontend")|
  {
    FilterAgree(ps, IsMLOrAnalytics, p => Matches("ML/Analytics", p));
    FilterAgree(ps, IsFrontend, p => Matches("Frontend", p));
  }

  /** A filter that keeps exactly the first `k` elements returns that prefix. */
  lemma {:induction false} FilterPrefix(ps: seq<Project>, keep: Project -> bool, k: nat)
    requires k <= |ps|
    requires forall i :: 0 <= i < |ps| ==> (keep(ps[i]) <==> i < k)
    ensures Filter(ps, keep) == ps[..k]
  {
    if ps != [] {
      FilterPrefix(ps[1..], keep, if k == 0 then 0 else k - 1);
      if k > 0 {
        assert ps[..k] == [ps[0]] + ps[1..][..k - 1];
      }
    }
  }

  /** A filter that keeps exactly the elements from position `k` on returns that suffix. */
  lemma {:induction false} FilterSuffix(ps: seq<Project>, keep: Project -> bool, k: nat)
    requires k <= |ps|
    requires forall i :: 0 <= i < |ps| ==> (keep(ps[i]) <==> i >= k)
    ensures Filter(ps, keep) == ps[k..]
  {
    if ps != [] {
      if k == 0 {
        FilterSuffix(ps[1..], keep, 0);
      } else {
        FilterSuffix(ps[1..], keep, k - 1);
      }
    }
  }

  /** How each of the four categories used in the list is classified. */
  lemma MachineLearningCategory()
    ensures MLOrAnalyticsCategory(MachineLearning) && !FrontendCategory(MachineLearning)
  {
    assert OccursAt(MachineLearning, "Machine Learning", 0);
    // the final 'd' of "Frontend" does not occur in the category
    MissingCharExcludes(MachineLearning, "Frontend", 7);
  }

  lemma DataAnalyticsCategory()
    ensures MLOrAnalyticsCategory(DataAnalytics) && !FrontendCategory(DataAnalytics)
  {
    assert OccursAt(DataAnalytics, "Analytics", 5);
    MissingCharExcludes(DataAnalytics, "Frontend", 7);
  }

  lemma FinancialAnalyticsCategory()
    ensures MLOrAnalyticsCategory(FinancialAnalytics) && !FrontendCategory(FinancialAnalytics)
  {
    assert OccursAt(FinancialAnalytics, "Analytics", 10);
    MissingCharExcludes(FinancialAnalytics, "Frontend", 7);
  }

  lemma FrontendDevelopmentCategory()
    ensures !MLOrAnalyticsCategory(FrontendDevelopment) && FrontendCategory(FrontendDevelopment)
  {
    assert OccursAt(FrontendDevelopment, "Frontend", 0);
    NotMLOrAnalytics(FrontendDevelopment);
  }

  /** A category with neither an 'M' nor an 'A' is not a machine-learning or analytics one. */
  lemma NotMLOrAnalytics(category: string)
    requires 'M' !in category && 'A' !in category
    ensures !MLOrAnalyticsCategory(category)
  {
    MissingCharExcludes(category, "Machine Learning", 0);
    MissingCharExcludes(category, "Analytics", 0);
  }

  /** Which category each project of the list has. */
  lemma ListCategoryNames()
    ensures forall i :: 0 <= i < 6 && i % 3 == 0 ==> Projects[i].category == MachineLearning
    ensures forall i :: 0 <= i < 6 && i % 3 == 1 ==> Projects[i].category == DataAnalytics
    ensures forall i :: 0 <= i < 6 && i % 3 == 2 ==> Projects[i].category == FinancialAnalytics
    ensures forall i :: 6 <= i < 8 ==> Projects[i].category == FrontendDevelopment
  {
    forall i | 0 <= i < 8
      ensures i < 6 && i % 3 == 0 ==> Projects[i].category == MachineLearning
      ensures i < 6 && i % 3 == 1 ==> Projects[i].category == DataAnalytics
      ensures i < 6 && i % 3 == 2 ==> Projects[i].category == FinancialAnalytics
      ensures i >= 6 ==> Projects[i].category == FrontendDevelopment
    {
      var c := Projects[i].category;
      if i == 0 { assert c == MachineLearning; }
      else if i == 1 { assert c == DataAnalytics; }
      else if i == 2 { assert c == FinancialAnalytics; }
      else if i == 3 { assert c == MachineLearning; }
      else if i == 4 { assert c == DataAnalytics; }
      else if i == 5 { assert c == FinancialAnalytics; }
      else if i == 6 { assert c == FrontendDevelopment; }
      else { assert c == FrontendDevelopment; }
    }
  }

  /** The first six projects are machine-learning or analytics ones, the
   *  last two frontend ones. */
  lemma ListCategories()
    ensures forall i :: 0 <= i < 6 ==> IsMLOrAnalytics(Projects[i]) && !IsFrontend(Projects[i])
    ensures forall i :: 6 <= i < 8 ==> !IsMLOrAnalytics(Projects[i]) && IsFrontend(Projects[i])
  {
    ListCategoryNames();
    forall i | 0 <= i < 6 ensures IsMLOrAnalytics(Projects[i]) && !IsFrontend(Projects[i]) {
      if i % 3 == 0 { MachineLearningCategory(); }
      else if i % 3 == 1 { DataAnalyticsCategory(); }
      else { FinancialAnalyticsCategory(); }
    }
    forall i | 6 <= i < 8 ensures !IsMLOrAnalytics(Projects[i]) && IsFrontend(Projects[i]) {
      FrontendDevelopmentCategory();
    }
  }

  /** The first card counts the six machine-learning and analytics projects. */
  lemma SiteMLCount()
    ensures |Filter(Projects, IsMLOrAnalytics)| == 6
  {
    ListCategories();
    FilterPrefix(Projects, IsMLOrAnalytics, 6);
  }

  /** The second card counts the two frontend projects. */
  lemma SiteFrontendCount()
    ensures |Filter(Projects, IsFrontend)| == 2
  {
    ListCategories();
    FilterSuffix(Projects, IsFrontend, 6);
  }

  /**
   * On the site's own list every project is in exactly one of the two
   * categories, and the cards read 6 and 2, which add up to the 8 projects.
   */
  lemma SiteCounts()
    ensures forall i :: 0 <= i < |Projects| ==> IsMLOrAnalytics(Projects[i]) != IsFrontend(Projects[i])
    ensures Categories(Projects)[0].count == 6 && Categories(Projects)[1].count == 2
    ensures Categories(Projects)[0].count + Categories(Projects)[1].count == |Projects|
  {
    ListCategories();
    SiteMLCount();
    SiteFrontendCount();
  }

  /** The section's one piece of state. */
  class ProjectsSection {
    var selectedCategory: string

    constructor ()
      ensures selectedCategory == "All"
    {
      selectedCategory := "All";
    }

    /** The projects on screen. */
    function Shown(): seq<Project>
      reads this
    {
      FilteredProjects(Projects, selectedCategory)
    }

    /** A filter button is clicked: only the selection changes. */
    method SelectCategory(category: string)
      modifies this
      ensures selectedCategory == category
      ensures Shown() == FilteredProjects(Projects, category)
    {
      selectedCategory := category;
    }
  }
}
