/**
 * The category filter of src/components/Projects.jsx: translated category
 * names are mapped back to the English categories stored on the projects,
 * and the project list is filtered in order. The translation function is
 * represented by the seven category labels it yields.
 */
module ProjectsFilter {

  /** The fields of a project the filter and the cards depend on. */
  datatype Project = Project(id: nat, category: string, featured: bool, hasGithub: bool, hasDemo: bool)

  /** The six projects, in display order. */
  const AllProjects: seq<Project> := [
    Project(1, "Web Development", true, true, true),
    Project(2, "Mobile Development", true, false, false),
    Project(3, "Desktop Development", false, true, false),
    Project(4, "Web Development", false, true, true),
    Project(5, "Network Analysis", false, false, false),
    Project(6, "Web Development", false, true, true)
  ]

  /** `t('projects.categories.*')` for the current language. */
  datatype Labels = Labels(all: string, web: string, data: string, mobile: string,
                           backend: string, desktop: string, network: string)

  /** The English and Spanish labels of the translation tables. */
  const EnglishLabels: Labels := Labels("All", "Web Development", "Data Analysis",
    "Mobile Development", "Backend", "Desktop Development", "Network Analysis")
  const SpanishLabels: Labels := Labels("Todos", "Desarrollo Web", "Análisis de Datos",
    "Desarrollo Móvil", "Backend", "Desarrollo de Escritorio", "Análisis de Redes")

  /** The six English category names. */
  predicate IsEnglishCategory(c: string)
  {
    c in {"Web Development", "Data Analysis", "Mobile Development", "Backend",
          "Desktop Development", "Network Analysis"}
  }

  /** The names every object literal inherits from `Object.prototype`. */
  predicate IsInheritedName(c: string)
  {
    c in {"constructor", "hasOwnProperty", "isPrototypeOf", "propertyIsEnumerable",
          "toLocaleString", "toString", "valueOf", "__proto__", "__defineGetter__",
          "__defineSetter__", "__lookupGetter__", "__lookupSetter__"}
  }

  /** What `mapping[c] || c` yields: a string, or a member inherited from
      `Object.prototype` (a method or the prototype itself, both truthy and
      neither equal to any string). */
  datatype Mapped = Category(name: string) | Inherited(name: string)

  /** `getCategoryMapping`: the object literal's keys are the translated
      labels, so when two labels coincide the later key wins; a name that is no
      label is looked up on the prototype chain, and when nothing is found
      there either it is returned unchanged. */
  function CategoryMapping(t: Labels, c: string): (r: Mapped)
    ensures r.Category? ==> IsEnglishCategory(r.name) || r.name == c
    ensures r.Inherited? <==> c !in {t.web, t.data, t.mobile, t.backend, t.desktop, t.network} && IsInheritedName(c)
    ensures r.Inherited? ==> r.name == c
    ensures c !in {t.web, t.data, t.mobile, t.backend, t.desktop, t.network} && !IsInheritedName(c) ==> r == Category(c)
    ensures c == t.network ==> r == Category("Network Analysis")
    ensures c == t.desktop && c != t.network ==> r == Category("Desktop Development")
    ensures c == t.backend && c !in {t.desktop, t.network} ==> r == Category("Backend")
    ensures c == t.mobile && c !in {t.backend, t.desktop, t.network} ==> r == Category("Mobile Development")
    ensures c == t.data && c !in {t.mobile, t.backend, t.desktop, t.network} ==> r == Category("Data Analysis")
    ensures c == t.web && c !in {t.data, t.mobile, t.backend, t.desktop, t.network} ==> r == Category("Web Development")
  {
    if c == t.network then Category("Network Analysis")
    else if c == t.desktop then Category("Desktop Development")
    else if c == t.backend then Category("Backend")
    else if c == t.mobile then Category("Mobile Development")
    else if c == t.data then Category("Data Analysis")
    else if c == t.web then Category("Web Development")
    else if IsInheritedName(c) then Inherited(c)
    else Category(c)
  }

  /** `projects.filter(p => p.category === category)`: never longer than the
      list, and every project it keeps is of the category. */
  function Filter(ps: seq<Project>, category: string): (r: seq<Project>)
    ensures |r| <= |ps|
    ensures forall k :: 0 <= k < |r| ==> r[k].category == category
  {
    if ps == [] then []
    else if ps[0].category == category then [ps[0]] + Filter(ps[1..], category)
    else Filter(ps[1..], category)
  }

  /** The filter keeps exactly the projects of the category. */
  lemma {:induction false} FilterExact(ps: seq<Project>, category: string)
    ensures forall p :: p in Filter(ps, category) <==> p in ps && p.category == category
  {
    if ps != [] {
      FilterExact(ps[1..], category);
      assert ps == [ps[0]] + ps[1..];
    }
  }

  /** `r` keeps some of the elements of `ps`, in their original order. */
  predicate IsSubsequence(r: seq<Project>, ps: seq<Project>)
  {
    if r == [] then true
    else if ps == [] then false
    else if r[0] == ps[0] then IsSubsequence(r[1..], ps[1..])
    else IsSubsequence(r, ps[1..])
  }

  /** The filter preserves the original order. */
  lemma {:induction false} FilterKeepsOrder(ps: seq<Project>, category: string)
    ensures IsSubsequence(Filter(ps, category), ps)
  {
    if ps != [] {
      FilterKeepsOrder(ps[1..], category);
      var r := Filter(ps, category);
      if r != [] && ps[0].category != category {
        FilterExact(ps[1..], category);
        assert r[0] in r;
      }
    }
  }

  /** The list the filter effect computes for a non-empty active category:
      everything for the "all" label, otherwise the projects whose category
      equals what the mapping yields, so none when it yields an inherited
      member. */
  function Filtered(t: Labels, active: string, ps: seq<Project>): (r: seq<Project>)
    ensures active == t.all ==> r == ps
    ensures active != t.all ==> forall p :: p in r <==> p in ps && CategoryMapping(t, active) == Category(p.category)
  {
    if active == t.all then ps
    else match CategoryMapping(t, active)
      case Category(english) => FilterExact(ps, english); Filter(ps, english)
      case Inherited(_) => []
  }

  /** A category name that collides with a prototype member and is no label
      shows no project, whatever the list. */
  lemma InheritedNameShowsNothing(t: Labels, active: string, ps: seq<Project>)
    requires active != t.all && IsInheritedName(active)
    requires active !in {t.web, t.data, t.mobile, t.backend, t.desktop, t.network}
    ensures Filtered(t, active, ps) == []
  {
  }

  function Ids(ps: seq<Project>): seq<nat>
  {
    if ps == [] then [] else [ps[0].id] + Ids(ps[1..])
  }

  /** Filtering a concatenation filters each part. */
  lemma {:induction false} FilterAppend(a: seq<Project>, b: seq<Project>, category: string)
    ensures Filter(a + b, category) == Filter(a, category) + Filter(b, category)
  {
    if a != [] {
      assert (a + b)[1..] == a[1..] + b;
      FilterAppend(a[1..], b, category);
    } else {
      assert a + b == b;
    }
  }

  /** With the site's data, the web category holds projects 1, 4 and 6, and
      no project is filed under data analysis or backend. */
  lemma SiteCategories()
    ensures Ids(Filter(AllProjects, "Web Development")) == [1, 4, 6]
    ensures Filter(AllProjects, "Data Analysis") == []
    ensures Filter(AllProjects, "Backend") == []
  {
    var ps := AllProjects;
    assert ps == [ps[0]] + [ps[1]] + [ps[2]] + [ps[3]] + [ps[4]] + [ps[5]];
    forall c: string {:trigger Filter(ps, c)}
      ensures Filter(ps, c) == Filter([ps[0]], c) + Filter([ps[1]], c) + Filter([ps[2]], c)
                             + Filter([ps[3]], c) + Filter([ps[4]], c) + Filter([ps[5]], c)
    {
      FilterAppend([ps[0]] + [ps[1]] + [ps[2]] + [ps[3]] + [ps[4]], [ps[5]], c);
      FilterAppend([ps[0]] + [ps[1]] + [ps[2]] + [ps[3]], [ps[4]], c);
      FilterAppend([ps[0]] + [ps[1]] + [ps[2]], [ps[3]], c);
      FilterAppend([ps[0]] + [ps[1]], [ps[2]], c);
      FilterAppend([ps[0]], [ps[1]], c);
    }
    assert Filter(ps, "Web Development") == [ps[0], ps[3], ps[5]];
    assert Ids([ps[5]]) == [6];
    assert Ids([ps[3], ps[5]]) == [4] + Ids([ps[5]]);
    assert Ids([ps[0], ps[3], ps[5]]) == [1] + Ids([ps[3], ps[5]]);
  }

  /** In both languages the web label shows projects 1, 4 and 6 and the "all"
      label shows every project. */
  lemma SiteFilters()
    ensures Ids(Filtered(EnglishLabels, "Web Development", AllProjects)) == [1, 4, 6]
    ensures Ids(Filtered(SpanishLabels, "Desarrollo Web", AllProjects)) == [1, 4, 6]
    ensures Filtered(SpanishLabels, "Análisis de Datos", AllProjects) == []
    ensures Filtered(SpanishLabels, "Todos", AllProjects) == AllProjects
  {
    SiteCategories();
    assert CategoryMapping(EnglishLabels, "Web Development") == Category("Web Development");
    assert CategoryMapping(SpanishLabels, "Desarrollo Web") == Category("Web Development");
    assert CategoryMapping(SpanishLabels, "Análisis de Datos") == Category("Data Analysis");
  }

  /** The icon of a project card. */
  datatype Icon = CodeIcon | DatabaseIcon | MobileIcon

  /** `getCategoryIcon`: web and every unknown category get the code icon. */
  function CategoryIcon(category: string): (i: Icon)
    ensures i == DatabaseIcon <==> category == "Data Analysis"
    ensures i == MobileIcon <==> category == "Mobile Development"
    ensures category == "Web Development" ==> i == CodeIcon
  {
    match category
    case "Web Development" => CodeIcon
    case "Data Analysis" => DatabaseIcon
    case "Mobile Development" => MobileIcon
    case _ => CodeIcon
  }

  /** The state cells of the component. */
  class ProjectsSection {
    var labels: Labels
    /** The `activeCategory` state; empty until the translation effect runs. */
    var activeCategory: string
    /** The `filteredProjects` state. */
    var filtered: seq<Project>

    constructor (t: Labels)
      ensures labels == t && activeCategory == "" && filtered == []
    {
      labels := t;
      activeCategory := "";
      filtered := [];
    }

    /** The effect on `[t]`: the active category becomes the translated "all",
        on mount and on every language change. */
    method OnTranslation(t: Labels)
      modifies this`labels, this`activeCategory
      ensures labels == t && activeCategory == t.all
    {
      labels := t;
      activeCategory := t.all;
    }

    /** A filter button click. */
    method SelectCategory(c: string)
      modifies this`activeCategory
      ensures activeCategory == c
    {
      activeCategory := c;
    }

    /** The filter effect: nothing happens while the active category is empty. */
    method RunFilter()
      modifies this`filtered
      ensures activeCategory == "" ==> filtered == old(filtered)
      ensures activeCategory != "" ==> filtered == Filtered(labels, activeCategory, AllProjects)
    {
      if activeCategory != "" && |AllProjects| > 0 {
        filtered := Filtered(labels, activeCategory, AllProjects);
      }
    }

    /** The no-projects message is shown iff the filtered list is empty. */
    function ShowsNoProjects(): (shown: bool)
      reads this
      ensures shown <==> forall p :: p !in filtered
    {
      if |filtered| == 0 then true else assert filtered[0] in filtered; false
    }
  }
}
