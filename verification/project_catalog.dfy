/**
 The projects section: a fixed list of projects, split by category into the
 web list and the mobile list, and the conditions under which each project
 card shows its optional parts.
 */
module ProjectCatalog {

  /** An optional property of a record: absent, or present with a value. */
  datatype Opt<T> = Undefined | Defined(value: T)

  datatype Category = App | Web

  datatype Project = Project(
    id: string,
    title: string,
    description: string,
    image: string,
    technologies: seq<string>,
    liveUrl: Opt<string>,
    githubUrl: Opt<string>,
    category: Category,
    featured: Opt<bool>)

  /** The projects, in display order. */
  const Projects: seq<Project> := [
    Project("1", "Watu Collection",
      "A basic E-Commerce website with nice UI for better UX.",
      "/api/placeholder/600/400",
      ["Html", "Css", "JavaScript"],
      Defined("https://watu-collection.vercel.app/"),
      Defined("https://github.com/raykaris/Watu-collection"),
      Web, Defined(true)),
    Project("2", "Pesa Track",
      "Cross-platform Expense tracking application with clerk authentication. ",
      "/api/placeholder/600/400",
      ["React Native", "Express JS", "Upstash Redis", "Neon", "RESTful API"],
      Defined(""),
      Defined("https://github.com/raykaris/pesa-track"),
      App, Defined(true)),
    Project("3", "Quantum E-Commerce",
      "Next-generation shopping platform with quantum-inspired recommendations and immersive 3D product previews.",
      "/api/placeholder/600/400",
      ["Next.js", "Three.js", "Stripe", "MongoDB", "Redis"],
      Defined("https://quantum-shop.demo"),
      Defined("https://github.com/ryan/quantum-shop"),
      Web, Undefined),
    Project("4", "7-17 Gaming & Laundry",
      "A Laundry and gaming service web-app.",
      "/api/placeholder/600/400",
      ["React", "Vite", "Tailwind CSS", "TypeScript", "Shadcn-ui"],
      Defined("https://7-17-laundry-app.vercel.app/"),
      Defined("https://github.com/raykaris/7-17-laundry-app"),
      App, Undefined),
    Project("5", "Shelfie Inventory",
      "Inventory management web-app.",
      "/api/placeholder/600/400",
      ["Vite", "TypeScript", "React", "Shadcn-ui", "Tailwind CSS"],
      Defined("https://hypercloud.demo"),
      Defined("https://github.com/raykaris/shelfie-inventory-management-app"),
      Web, Undefined),
    Project("6", "NeoBank Mobile",
      "Digital banking app with biometric security, cryptocurrency support, and AI-powered financial insights.",
      "/api/placeholder/600/400",
      ["React Native", "Blockchain", "Biometrics", "GraphQL"],
      Defined("https://neobank.demo"),
      Defined("https://github.com/ryan/neobank"),
      App, Undefined)
  ]

  /** The ids of the list are pairwise distinct, so they serve as card keys. */
  lemma ProjectIdsDistinct()
    ensures forall i, j :: 0 <= i < j < |Projects| ==> Projects[i].id != Projects[j].id
  {
  }

  // ---------------------------------------------------------------------------
  // Splitting the list by category
  // ---------------------------------------------------------------------------

  /** xs is ys with some elements left out, the rest kept in order. */
  predicate Subsequence<T(==)>(xs: seq<T>, ys: seq<T>)
    decreases |ys|
  {
    if |xs| == 0 then true
    else if |ys| == 0 then false
    else if xs[0] == ys[0] then Subsequence(xs[1..], ys[1..])
    else Subsequence(xs, ys[1..])
  }

  /** The projects of one category, in list order. */
  function Filter(ps: seq<Project>, c: Category): (r: seq<Project>)
    ensures |r| <= |ps|
    ensures forall i :: 0 <= i < |r| ==> r[i].category == c
  {
    if |ps| == 0 then []
    else if ps[0].category == c then [ps[0]] + Filter(ps[1..], c)
    else Filter(ps[1..], c)
  }

  /** Filtering keeps the order of what it keeps. */
  lemma {:induction false} FilterIsSubsequence(ps: seq<Project>, c: Category)
    ensures Subsequence(Filter(ps, c), ps)
  {
    if |ps| > 0 {
      FilterIsSubsequence(ps[1..], c);
      if ps[0].category == c {
        assert ([ps[0]] + Filter(ps[1..], c))[1..] == Filter(ps[1..], c);
      }
    }
  }

  /** Filtering keeps exactly the projects of the category. */
  lemma {:induction false} FilterMembers(ps: seq<Project>, c: Category, p: Project)
    ensures p in Filter(ps, c) <==> p in ps && p.category == c
  {
    if |ps| > 0 {
      FilterMembers(ps[1..], c, p);
      assert ps == [ps[0]] + ps[1..];
    }
  }

  /** The web list. */
  function WebProjects(): seq<Project> {
    Filter(Projects, Web)
  }

  /** The mobile list. */
  function AppProjects(): seq<Project> {
    Filter(Projects, App)
  }

  /** The two lists split any project list: their lengths add up to its
      length and together they hold each project as often as it does. */
  lemma {:induction false} FilterPartition(ps: seq<Project>)
    ensures |Filter(ps, Web)| + |Filter(ps, App)| == |ps|
    ensures multiset(Filter(ps, Web)) + multiset(Filter(ps, App)) == multiset(ps)
  {
    if |ps| > 0 {
      FilterPartition(ps[1..]);
      assert ps == [ps[0]] + ps[1..];
    }
  }

  /** Every project is in exactly one of the two lists. */
  lemma InExactlyOneList(p: Project)
    requires p in Projects
    ensures (p in WebProjects()) != (p in AppProjects())
  {
    FilterMembers(Projects, Web, p);
    FilterMembers(Projects, App, p);
  }

  /** The web list holds projects 1, 3 and 5, in that order. */
  lemma WebListContents()
    ensures WebProjects() == [Projects[0], Projects[2], Projects[4]]
  {
  }

  /** The mobile list holds projects 2, 4 and 6, in that order. */
  lemma AppListContents()
    ensures AppProjects() == [Projects[1], Projects[3], Projects[5]]
  {
  }

  // ---------------------------------------------------------------------------
  // The card
  // ---------------------------------------------------------------------------

  datatype CategoryIcon = Globe | Smartphone

  datatype CategoryConfig = CategoryConfig(icon: CategoryIcon, color: string, caption: string)

  /** The badge of each category. */
  function Config(c: Category): (r: CategoryConfig)
    ensures c == Web ==> r.caption == "Web App" && r.icon == Globe
    ensures c == App ==> r.caption == "Mobile App" && r.icon == Smartphone
  {
    match c
    case Web => CategoryConfig(Globe, "cyber-primary", "Web App")
    case App => CategoryConfig(Smartphone, "cyber-secondary", "Mobile App")
  }

  /** Whether an optional property is truthy: present and, for a string,
      non-empty. */
  predicate TruthyString(o: Opt<string>) {
    o.Defined? && o.value != ""
  }

  predicate TruthyBool(o: Opt<bool>) {
    o.Defined? && o.value
  }

  /** The parts of a card that depend on the project. */
  datatype Card = Card(
    wide: bool,
    badge: CategoryConfig,
    featuredBadge: bool,
    liveDemo: Opt<string>,
    code: Opt<string>)

  /** The card of a project: two columns wide with a Featured badge exactly
      when the project is featured; a Live Demo link to liveUrl and a Code
      link to githubUrl, each only when that address is given and non-empty. */
  function CardOf(p: Project): (r: Card)
    ensures r.wide <==> r.featuredBadge
    ensures r.featuredBadge <==> p.featured == Defined(true)
    ensures r.liveDemo.Defined? <==> p.liveUrl.Defined? && p.liveUrl.value != ""
    ensures r.liveDemo.Defined? ==> r.liveDemo == p.liveUrl
    ensures r.code.Defined? <==> p.githubUrl.Defined? && p.githubUrl.value != ""
    ensures r.code.Defined? ==> r.code == p.githubUrl
    ensures r.badge == Config(p.category)
  {
    var featured := TruthyBool(p.featured);
    Card(featured, Config(p.category), featured,
         if TruthyString(p.liveUrl) then p.liveUrl else Undefined,
         if TruthyString(p.githubUrl) then p.githubUrl else Undefined)
  }

  /** On the list as it stands: only Pesa Track, whose live address is empty,
      has no Live Demo link; every project has a Code link; projects 1 and 2
      are the featured ones. */
  lemma CardsOfTheList()
    ensures forall i :: 0 <= i < |Projects| ==>
              (CardOf(Projects[i]).liveDemo.Defined? <==> Projects[i].title != "Pesa Track")
    ensures forall i :: 0 <= i < |Projects| ==> CardOf(Projects[i]).code.Defined?
    ensures forall i :: 0 <= i < |Projects| ==>
              (CardOf(Projects[i]).featuredBadge <==> Projects[i].id in {"1", "2"})
  {
  }
}
