/**
 * The projects page's category filter. A project lists several categories,
 * and a category selects the projects whose list contains it.
 */
module Projects {
  import opened Seqs

  /** One project; only the members the filter reads, plus its identity. */
  datatype Project = Project(id: string, title: string, category: seq<string>)

  /** `projects.filter(project => activeCategory === 'All' ||
      project.category.includes(activeCategory))`. */
  function FilterProjects(projects: seq<Project>, active: string): (r: seq<Project>)
    ensures active == "All" ==> r == projects
    ensures forall p :: p in r <==> p in projects && (active == "All" || active in p.category)
    ensures |r| <= |projects|
  {
    if projects == [] then []
    else if active == "All" || active in projects[0].category then
      [projects[0]] + FilterProjects(projects[1..], active)
    else FilterProjects(projects[1..], active)
  }

  /** The filter keeps the original order: its result is a subsequence. */
  lemma {:induction false} FilterProjectsSubsequence(projects: seq<Project>, active: string)
    ensures Subsequence(FilterProjects(projects, active), projects)
  {
    if projects != [] {
      FilterProjectsSubsequence(projects[1..], active);
    }
  }

  /** Every selected project is kept as many times as it occurs. */
  lemma {:induction false} FilterProjectsCounts(projects: seq<Project>, active: string, p: Project)
    ensures multiset(FilterProjects(projects, active))[p]
         == if active == "All" || active in p.category then multiset(projects)[p] else 0
  {
    if projects != [] {
      assert projects == [projects[0]] + projects[1..];
      FilterProjectsCounts(projects[1..], active, p);
    }
  }

  /** Filtering a concatenation filters each part. */
  lemma {:induction false} FilterProjectsConcat(a: seq<Project>, b: seq<Project>, active: string)
    ensures FilterProjects(a + b, active) == FilterProjects(a, active) + FilterProjects(b, active)
  {
    if a != [] {
      assert (a + b)[0] == a[0] && (a + b)[1..] == a[1..] + b;
      FilterProjectsConcat(a[1..], b, active);
    } else {
      assert a + b == b;
    }
  }
}
