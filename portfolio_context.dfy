/**
 * The portfolio catalogue (components/portfolio-context.tsx): a constant table of eight
 * projects, the derived list of featured projects, lookup by id, selection by type, and
 * the hook that reads the context and fails outside its provider.
 */
module PortfolioContext {
  import opened Wrappers
  import opened Seqs

  /** The `type` union of a portfolio item. */
  datatype ProjectType = Web | Data | Mobile | Design | ThreeD

  /** The string literal each member of the union stands for. */
  function TypeName(t: ProjectType): string
  {
    match t
    case Web => "web"
    case Data => "data"
    case Mobile => "mobile"
    case Design => "design"
    case ThreeD => "3d"
  }

  /** A catalogue entry; `link`, `github` and `featured` are optional fields. */
  datatype PortfolioItem = PortfolioItem(
    id: string,
    title: string,
    description: string,
    image: string,
    technologies: seq<string>,
    link: Option<string>,
    github: Option<string>,
    kind: ProjectType,
    featured: Option<bool>)

  // The string literals below spell the catalogue's strings; they are split into pieces
  // joined with `+` only to keep verification of the literal catalogue cheap.
  const Placeholder: string := "/placeholder" + ".svg?height" + "=600&width" + "=800"

  /** The constant catalogue the provider starts from and never replaces: entries 1 to 8, in order. */
  function PortfolioData(): (projects: seq<PortfolioItem>)
    ensures |projects| == 8
  {
    seq(8, i requires 0 <= i < 8 => Entry(i + 1))
  }

  /** Entry n of the catalogue, the one with id "project" followed by n. */
  function Entry(n: nat): PortfolioItem
    requires 1 <= n <= 8
  {
    match n
    case 1 => PortfolioItem("project1", "Data " + "Visualization " + "Dashboard",
        "Interactive " + "dashboard " + "for " + "visualizing " + "complex " + "datasets " + "with " + "filtering " + "and " + "real-time " + "updates.",
        Placeholder, ["React", "D3.js", "Python", "Flask"],
        Some("https://" + "example.com/" + "project1"), Some("https://" + "github.com/" + "yourusername/" + "project1"),
        Data, Some(true))
    case 2 => PortfolioItem("project2", "Machine " + "Learning " + "Model",
        "Predictive " + "analytics " + "model for " + "customer " + "segmentation " + "with 95% " + "accuracy.",
        Placeholder, ["Python", "TensorFlow", "Scikit-learn", "Pandas"],
        None, Some("https://" + "github.com/" + "yourusername/" + "project2"),
        Data, Some(true))
    case 3 => PortfolioItem("project3", "E-commerce " + "Platform",
        "Full-stack " + "e-commerce " + "solution " + "with " + "payment " + "processing " + "and " + "inventory " + "management.",
        Placeholder, ["Next.js", "Node.js", "MongoDB", "Stripe"],
        Some("https://" + "example.com/" + "project3"), Some("https://" + "github.com/" + "yourusername/" + "project3"),
        Web, Some(true))
    case 4 => PortfolioItem("project4", "Mobile " + "Fitness App",
        "Cross-platform " + "mobile " + "application " + "for fitness " + "tracking " + "and workout " + "planning.",
        Placeholder, ["React Native", "Firebase", "Redux", "Expo"],
        Some("https://" + "example.com/" + "project4"), None,
        Mobile, None)
    case 5 => PortfolioItem("project5", "Natural " + "Language " + "Processing " + "Tool",
        "Text " + "analysis " + "tool for " + "sentiment " + "analysis " + "and entity " + "recognition.",
        Placeholder, ["Python", "NLTK", "spaCy", "Flask"],
        None, Some("https://" + "github.com/" + "yourusername/" + "project5"),
        Data, None)
    case 6 => PortfolioItem("project6", "3D Product " + "Configurator",
        "Interactive " + "3D product " + "customization " + "tool for " + "e-commerce.",
        Placeholder, ["Three.js", "React", "WebGL", "GLSL"],
        Some("https://" + "example.com/" + "project6"), Some("https://" + "github.com/" + "yourusername/" + "project6"),
        ThreeD, None)
    case 7 => PortfolioItem("project7", "Blockchain " + "Analytics " + "Platform",
        "Real-time " + "analytics " + "dashboard " + "for " + "blockchain " + "transactions " + "and smart " + "contracts.",
        Placeholder, ["Ethereum", "Web3.js", "React", "Node.js"],
        Some("https://" + "example.com/" + "project7"), None,
        Web, None)
    case _ => PortfolioItem("project8", "Augmented " + "Reality " + "Experience",
        "AR " + "application " + "for " + "educational " + "purposes " + "with " + "interactive " + "3D models.",
        Placeholder, ["Unity", "ARKit", "ARCore", "C#"],
        Some("https://" + "example.com/" + "project8"), None,
        ThreeD, None)
  }

  /** JavaScript truthiness of the optional `featured` flag: only `true` counts. */
  predicate IsFeatured(project: PortfolioItem)
  {
    project.featured == Some(true)
  }

  /** `projects.filter((project) => project.featured)`. */
  function FeaturedProjects(projects: seq<PortfolioItem>): (r: seq<PortfolioItem>)
    ensures forall p :: p in r <==> p in projects && p.featured == Some(true)
    ensures PicksInOrder(r, projects, MatchingPositions(projects, IsFeatured, 0))
  {
    FilterKeepsOrder(projects, IsFeatured, 0);
    assert projects[0..] == projects;
    Filter(projects, IsFeatured)
  }

  /** `projects.find((project) => project.id === id)`. */
  function GetProjectById(projects: seq<PortfolioItem>, id: string): (r: Option<PortfolioItem>)
    ensures r.None? <==> forall j :: 0 <= j < |projects| ==> projects[j].id != id
    ensures r.Some? ==> r.value.id == id
    ensures r.Some? ==> exists i :: 0 <= i < |projects| && projects[i] == r.value
                                  && forall j :: 0 <= j < i ==> projects[j].id != id
  {
    Find(projects, (project: PortfolioItem) => project.id == id)
  }

  /** The callback `(project) => project.type === type` for the queried string. */
  function HasType(queried: string): PortfolioItem -> bool
  {
    (project: PortfolioItem) => TypeName(project.kind) == queried
  }

  /** `projects.filter((project) => project.type === type)` for a query string `type`. */
  function GetProjectsByType(projects: seq<PortfolioItem>, queried: string): (r: seq<PortfolioItem>)
    ensures forall p :: p in r <==> p in projects && TypeName(p.kind) == queried
    ensures PicksInOrder(r, projects, MatchingPositions(projects, HasType(queried), 0))
  {
    FilterKeepsOrder(projects, HasType(queried), 0);
    assert projects[0..] == projects;
    Filter(projects, HasType(queried))
  }

  /** The value the provider puts in the context (the static `bio` record is not modelled). */
  datatype PortfolioContextValue = PortfolioContextValue(
    projects: seq<PortfolioItem>,
    featuredProjects: seq<PortfolioItem>)

  /**
   * `PortfolioProvider` holding `projects` in its state: it exposes that list and the
   * featured projects filtered from it.
   */
  function PortfolioProvider(projects: seq<PortfolioItem>): (ctx: PortfolioContextValue)
    ensures ctx.projects == projects
    ensures forall p :: p in ctx.featuredProjects <==> p in projects && p.featured == Some(true)
    ensures PicksInOrder(ctx.featuredProjects, projects, MatchingPositions(projects, IsFeatured, 0))
  {
    PortfolioContextValue(projects, FeaturedProjects(projects))
  }

  const MissingProviderError: string := "usePortfolio must be used within a PortfolioProvider"

  /** `usePortfolio`: the nearest provider's value, or the thrown error when there is none. */
  function UsePortfolio(context: Option<PortfolioContextValue>): (r: Result<PortfolioContextValue, string>)
    ensures r.Failure? <==> context.None?
    ensures r.Failure? ==> r.error == MissingProviderError
    ensures r.Success? ==> context == Some(r.value)
  {
    match context
    case None => Failure(MissingProviderError)
    case Some(ctx) => Success(ctx)
  }

  /** The number an id of the form "projectN" ends in, or -1 for any other id. */
  ghost function IdNumber(id: string): int
  {
    if |id| == 8 && id[..7] == "project" then id[7] as int - '0' as int else -1
  }

  /** The catalogue's ids are "project1" to "project8", in order. */
  lemma CatalogueIds()
    ensures forall i :: 0 <= i < |PortfolioData()| ==> IdNumber(PortfolioData()[i].id) == i + 1
  {
    forall i | 0 <= i < 8
      ensures IdNumber(PortfolioData()[i].id) == i + 1
    {
      if i == 0 {} else if i == 1 {} else if i == 2 {} else if i == 3 {}
      else if i == 4 {} else if i == 5 {} else if i == 6 {} else {}
    }
  }

  /** So no id is listed twice. */
  lemma DistinctIds()
    ensures forall i, j :: 0 <= i < |PortfolioData()| && 0 <= j < |PortfolioData()| && i != j
              ==> PortfolioData()[i].id != PortfolioData()[j].id
  {
    CatalogueIds();
  }

  /** Exactly the first three entries are featured; the others carry no `featured` flag at all. */
  lemma CatalogueFeatured()
    ensures forall i :: 0 <= i < |PortfolioData()| ==> (IsFeatured(PortfolioData()[i]) <==> i < 3)
    ensures forall i :: 3 <= i < |PortfolioData()| ==> PortfolioData()[i].featured.None?
  {
    forall i | 0 <= i < 8
      ensures IsFeatured(PortfolioData()[i]) <==> i < 3
      ensures 3 <= i ==> PortfolioData()[i].featured.None?
    {
      if i == 0 {} else if i == 1 {} else if i == 2 {} else if i == 3 {}
      else if i == 4 {} else if i == 5 {} else if i == 6 {} else {}
    }
  }

  /** No entry has type "design". */
  lemma CatalogueKinds()
    ensures forall i :: 0 <= i < |PortfolioData()| ==> PortfolioData()[i].kind != Design
  {
    forall i | 0 <= i < 8
      ensures PortfolioData()[i].kind != Design
    {
      if i == 0 {} else if i == 1 {} else if i == 2 {} else if i == 3 {}
      else if i == 4 {} else if i == 5 {} else if i == 6 {} else {}
    }
  }

  /** In a list whose ids are distinct, looking up an entry's id finds that entry. */
  lemma {:induction false} LookupUniqueId(projects: seq<PortfolioItem>, i: nat)
    requires i < |projects|
    requires forall j :: 0 <= j < |projects| && j != i ==> projects[j].id != projects[i].id
    ensures GetProjectById(projects, projects[i].id) == Some(projects[i])
  {
    var r := GetProjectById(projects, projects[i].id);
    var k :| 0 <= k < |projects| && projects[k] == r.value
             && forall j :: 0 <= j < k ==> projects[j].id != projects[i].id;
  }

  /** Looking up each listed id returns that very entry. */
  lemma LookupListedIds(i: nat)
    requires i < |PortfolioData()|
    ensures GetProjectById(PortfolioData(), PortfolioData()[i].id) == Some(PortfolioData()[i])
  {
    var projects := PortfolioData();
    DistinctIds();
    assert forall j :: 0 <= j < |projects| && j != i ==> projects[j].id != projects[i].id;
    LookupUniqueId(projects, i);
  }

  /** "design" names only the Design member of the union. */
  lemma DesignName(t: ProjectType)
    ensures TypeName(t) == "design" <==> t == Design
  {
    if t == Mobile {
      assert TypeName(t)[0] != "design"[0];
    }
  }

  /** The union admits "design", but no catalogue entry has that type. */
  lemma NoDesignProjects()
    ensures GetProjectsByType(PortfolioData(), "design") == []
  {
    CatalogueKinds();
    forall i | 0 <= i < |PortfolioData()|
      ensures !HasType("design")(PortfolioData()[i])
    {
      DesignName(PortfolioData()[i].kind);
    }
    FilterNone(PortfolioData(), HasType("design"));
  }

  /**
   * The provider over the catalogue lists all eight entries and features the first three
   * (project1 to project3), in order.
   */
  lemma FeaturedCatalogue()
    ensures PortfolioProvider(PortfolioData()).projects == PortfolioData()
    ensures PortfolioProvider(PortfolioData()).featuredProjects == PortfolioData()[..3]
  {
    CatalogueFeatured();
    FilterPrefix(PortfolioData(), IsFeatured, 3);
  }
}
