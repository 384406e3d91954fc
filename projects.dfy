/** The project gallery of src/components/sections/ProjectCases.tsx: a
    fixed list of fifteen example projects, a category filter set by the
    tabs or by a `filterProjects` event from the navigation bar, a detail
    view for one project, and the WhatsApp inquiry it opens. */
module Projects {
  import opened Wrappers
  import opened Text
  import WhatsApp

  /** A project record. The descriptive fields the gallery only displays
      (`client`, `description`, `challenge`, `solution`, `results`) are not
      modelled. `technologies` is optional in the record type. */
  datatype Project = Project(
    id: string,
    title: string,
    category: string,
    technologies: Option<seq<string>>)

  /** The filter value that shows every project. */
  const AllFilter := "all"

  const EnterpriseChatbots := "Enterprise Chatbots"
  const DocumentAi := "Document AI & RAG"
  const LlmIntegrations := "LLM Integrations"
  const ProcessAutomation := "AI Process Automation"
  const CustomSolutions := "Custom AI Solutions"

  /** The `title` of each of the fifteen projects, in source order. */
  function Title(n: nat): string
    requires n < 15
  {
    match n
    case 0 => "Customer Service AI Assistant"
    case 1 => "Internal HR Virtual Assistant"
    case 2 => "Sales Qualification Bot"
    case 3 => "Legal Document Analysis Platform"
    case 4 => "Technical Documentation Assistant"
    case 5 => "Compliance Knowledge Base"
    case 6 => "CRM Intelligence Layer"
    case 7 => "Email Intelligence System"
    case 8 => "Slack AI Copilot"
    case 9 => "Invoice Processing Pipeline"
    case 10 => "Resume Screening System"
    case 11 => "Report Generation Engine"
    case 12 => "Product Recommendation Engine"
    case 13 => "Code Review Assistant"
    case 14 => "Meeting Intelligence Platform"
  }

  /** The `technologies` of each of the fifteen projects, in source order:
      four for every project. */
  function Technologies(n: nat): (r: seq<string>)
    requires n < 15
    ensures |r| == 4
  {
    match n
    case 0 => ["OpenAI GPT-4", "LangChain", "Python", "Salesforce API"]
    case 1 => ["Claude API", "Slack API", "RAG", "Pinecone"]
    case 2 => ["GPT-4", "HubSpot API", "Calendly", "Node.js"]
    case 3 => ["Claude API", "LlamaIndex", "PostgreSQL", "Vector DB"]
    case 4 => ["OpenAI Embeddings", "Pinecone", "Next.js", "MDX"]
    case 5 => ["Claude API", "ChromaDB", "FastAPI", "React"]
    case 6 => ["GPT-4", "Salesforce API", "Whisper", "Python"]
    case 7 => ["Claude API", "Google Workspace API", "Chrome Extension", "TypeScript"]
    case 8 => ["OpenAI API", "Slack Bolt", "Supabase", "Node.js"]
    case 9 => ["GPT-4 Vision", "Claude API", "QuickBooks API", "Python"]
    case 10 => ["Claude API", "Python", "PostgreSQL", "React"]
    case 11 => ["GPT-4", "Python", "Tableau API", "Jinja2"]
    case 12 => ["Claude API", "Recommendation Systems", "React", "Redis"]
    case 13 => ["GPT-4", "GitHub API", "AST Parsing", "Python"]
    case 14 => ["Whisper", "Claude API", "Supabase", "Next.js"]
  }

  /** The `// Enterprise Chatbots` group of `projects`. */
  function EnterpriseChatbotProjects(): (r: seq<Project>)
    ensures |r| == 3
  {
    [
      Project("chatbot-1", Title(0), EnterpriseChatbots, Some(Technologies(0))),
      Project("chatbot-2", Title(1), EnterpriseChatbots, Some(Technologies(1))),
      Project("chatbot-3", Title(2), EnterpriseChatbots, Some(Technologies(2)))
    ]
  }

  /** The `// Document AI & RAG` group of `projects`. */
  function DocumentAiProjects(): (r: seq<Project>)
    ensures |r| == 3
  {
    [
      Project("rag-1", Title(3), DocumentAi, Some(Technologies(3))),
      Project("rag-2", Title(4), DocumentAi, Some(Technologies(4))),
      Project("rag-3", Title(5), DocumentAi, Some(Technologies(5)))
    ]
  }

  /** The `// LLM Integrations` group of `projects`. */
  function LlmIntegrationProjects(): (r: seq<Project>)
    ensures |r| == 3
  {
    [
      Project("integration-1", Title(6), LlmIntegrations, Some(Technologies(6))),
      Project("integration-2", Title(7), LlmIntegrations, Some(Technologies(7))),
      Project("integration-3", Title(8), LlmIntegrations, Some(Technologies(8)))
    ]
  }

  /** The `// AI Process Automation` group of `projects`. */
  function ProcessAutomationProjects(): (r: seq<Project>)
    ensures |r| == 3
  {
    [
      Project("automation-1", Title(9), ProcessAutomation, Some(Technologies(9))),
      Project("automation-2", Title(10), ProcessAutomation, Some(Technologies(10))),
      Project("automation-3", Title(11), ProcessAutomation, Some(Technologies(11)))
    ]
  }

  /** The `// Custom AI Solutions` group of `projects`. */
  function CustomSolutionProjects(): (r: seq<Project>)
    ensures |r| == 3
  {
    [
      Project("custom-1", Title(12), CustomSolutions, Some(Technologies(12))),
      Project("custom-2", Title(13), CustomSolutions, Some(Technologies(13))),
      Project("custom-3", Title(14), CustomSolutions, Some(Technologies(14)))
    ]
  }

  /** The group of projects shown under the tab `categories[b + 1]`. */
  function Block(b: nat): (r: seq<Project>)
    requires b < 5
    ensures |r| == 3
    ensures forall i :: 0 <= i < 3 ==>
      r[i].category == Categories()[b + 1] && r[i].technologies.Some? && |r[i].technologies.value| == 4
  {
    match b
    case 0 => EnterpriseChatbotProjects()
    case 1 => DocumentAiProjects()
    case 2 => LlmIntegrationProjects()
    case 3 => ProcessAutomationProjects()
    case 4 => CustomSolutionProjects()
  }

  /** The five groups, in source order. */
  function Groups(): (r: seq<seq<Project>>)
    ensures |r| == 5
  {
    seq(5, b requires 0 <= b < 5 => Block(b))
  }

  /** The `projects` array: the five groups one after the other. */
  function Projects(): (r: seq<Project>)
    ensures |r| == 15
  {
    FlattenLength(Groups(), 3);
    Flatten(Groups())
  }

  /** The lists of `xss`, one after the other. */
  function Flatten<T>(xss: seq<seq<T>>): seq<T>
    decreases |xss|
  {
    if xss == [] then [] else xss[0] + Flatten(xss[1..])
  }

  /** Lists of `n` elements each flatten to `n` times as many. */
  lemma {:induction false} FlattenLength<T>(xss: seq<seq<T>>, n: nat)
    requires forall b :: 0 <= b < |xss| ==> |xss[b]| == n
    ensures |Flatten(xss)| == n * |xss|
    decreases |xss|
  {
    if xss != [] {
      FlattenLength(xss[1..], n);
    }
  }

  /** Every element of a flattened list comes from one of the lists. */
  lemma {:induction false} FlattenMember<T>(xss: seq<seq<T>>, x: T)
    requires x in Flatten(xss)
    ensures exists b :: 0 <= b < |xss| && x in xss[b]
    decreases |xss|
  {
    if x !in xss[0] {
      FlattenMember(xss[1..], x);
      var b :| 0 <= b < |xss[1..]| && x in xss[1..][b];
      assert x in xss[b + 1];
    }
  }

  /** The `categories` of the filter tabs: `'all'` first, then the five
      project categories. */
  function Categories(): (r: seq<string>)
    ensures |r| == 6 && r[0] == AllFilter
  {
    [AllFilter, EnterpriseChatbots, DocumentAi, LlmIntegrations, ProcessAutomation, CustomSolutions]
  }

  // Filtering

  /** `ps.filter(p => p.category === cat)`: the projects of `ps` in category
      `cat`, in order. */
  function Matching(ps: seq<Project>, cat: string): (r: seq<Project>)
    ensures |r| <= |ps|
    decreases |ps|
  {
    if ps == [] then []
    else (if ps[0].category == cat then [ps[0]] else []) + Matching(ps[1..], cat)
  }

  /** A project is kept exactly when it is in the list and in the category. */
  lemma {:induction false} MatchingMembers(ps: seq<Project>, cat: string)
    ensures forall p :: p in Matching(ps, cat) <==> p in ps && p.category == cat
    decreases |ps|
  {
    if ps != [] {
      MatchingMembers(ps[1..], cat);
      assert ps == [ps[0]] + ps[1..];
    }
  }

  /** The positions, from `from` on and in order, of the projects of `ps` in
      category `cat`: an independent description of what a filter keeps. */
  function Positions(ps: seq<Project>, cat: string, from: nat): (idx: seq<nat>)
    requires from <= |ps|
    ensures forall k :: 0 <= k < |idx| ==> from <= idx[k] < |ps|
    decreases |ps| - from
  {
    if from == |ps| then []
    else (if ps[from].category == cat then [from] else []) + Positions(ps, cat, from + 1)
  }

  /** The positions listed are increasing and are exactly those from `from`
      on whose project is in `cat`. */
  lemma {:induction false} PositionsExact(ps: seq<Project>, cat: string, from: nat)
    requires from <= |ps|
    ensures forall k :: 0 <= k < |Positions(ps, cat, from)| ==>
      ps[Positions(ps, cat, from)[k]].category == cat
    ensures forall k, l :: 0 <= k < l < |Positions(ps, cat, from)| ==>
      Positions(ps, cat, from)[k] < Positions(ps, cat, from)[l]
    ensures forall i :: from <= i < |ps| && ps[i].category == cat ==> i in Positions(ps, cat, from)
    decreases |ps| - from
  {
    if from < |ps| {
      PositionsExact(ps, cat, from + 1);
    }
  }

  /** Filtering a suffix looks at its first project, then at the rest. */
  lemma MatchingStep(ps: seq<Project>, cat: string, from: nat)
    requires from < |ps|
    ensures Matching(ps[from..], cat)
      == (if ps[from].category == cat then [ps[from]] else []) + Matching(ps[from + 1..], cat)
  {
    assert ps[from..][1..] == ps[from + 1..];
  }

  /** The filter keeps exactly the projects at those positions, in that
      order. */
  lemma {:induction false} MatchingAtPositions(ps: seq<Project>, cat: string, from: nat)
    requires from <= |ps|
    ensures |Matching(ps[from..], cat)| == |Positions(ps, cat, from)|
    ensures forall k :: 0 <= k < |Positions(ps, cat, from)| ==>
      Matching(ps[from..], cat)[k] == ps[Positions(ps, cat, from)[k]]
    decreases |ps| - from
  {
    if from < |ps| {
      MatchingAtPositions(ps, cat, from + 1);
      MatchingStep(ps, cat, from);
    }
  }

  /** `filteredProjects`: the whole list for `'all'`, otherwise the
      projects of that category. */
  function FilterProjects(filter: string, ps: seq<Project>): (r: seq<Project>)
    ensures filter == AllFilter ==> r == ps
    ensures |r| <= |ps|
  {
    if filter == AllFilter then ps else Matching(ps, filter)
  }

  /** Any value other than `'all'` keeps the projects of that category and
      no other, in their original order: the projects at the positions
      `Positions(ps, filter, 0)`, which are increasing and complete. */
  lemma FilterProjectsKeeps(filter: string, ps: seq<Project>)
    requires filter != AllFilter
    ensures forall p :: p in FilterProjects(filter, ps) <==> p in ps && p.category == filter
    ensures |FilterProjects(filter, ps)| == |Positions(ps, filter, 0)|
    ensures forall k :: 0 <= k < |FilterProjects(filter, ps)| ==>
      FilterProjects(filter, ps)[k] == ps[Positions(ps, filter, 0)[k]]
  {
    MatchingMembers(ps, filter);
    MatchingAtPositions(ps, filter, 0);
    assert ps[0..] == ps;
  }

  /** Filtering distributes over concatenation. */
  lemma {:induction false} MatchingAppend(a: seq<Project>, b: seq<Project>, cat: string)
    ensures Matching(a + b, cat) == Matching(a, cat) + Matching(b, cat)
    decreases |a|
  {
    if a == [] {
      assert a + b == b;
    } else {
      var head := if a[0].category == cat then [a[0]] else [];
      var ab := a + b;
      assert ab[0] == a[0];
      assert ab[1..] == a[1..] + b;
      assert Matching(ab, cat) == head + Matching(a[1..] + b, cat);
      MatchingAppend(a[1..], b, cat);
      assert Matching(a, cat) == head + Matching(a[1..], cat);
      assert head + (Matching(a[1..], cat) + Matching(b, cat))
          == (head + Matching(a[1..], cat)) + Matching(b, cat);
    }
  }

  /** A list whose projects are all in `cat` passes the filter whole. */
  lemma {:induction false} MatchingAll(ps: seq<Project>, cat: string)
    requires forall p :: p in ps ==> p.category == cat
    ensures Matching(ps, cat) == ps
    decreases |ps|
  {
    if ps != [] {
      assert ps[0] in ps;
      assert forall p :: p in ps[1..] ==> p in ps;
      MatchingAll(ps[1..], cat);
    }
  }

  /** A list with no project in `cat` is filtered to nothing. */
  lemma {:induction false} MatchingNone(ps: seq<Project>, cat: string)
    requires forall p :: p in ps ==> p.category != cat
    ensures Matching(ps, cat) == []
    decreases |ps|
  {
    if ps != [] {
      assert ps[0] in ps;
      assert forall p :: p in ps[1..] ==> p in ps;
      MatchingNone(ps[1..], cat);
    }
  }

  /** `idx` lists, in increasing order, positions of `b` that hold `a`. */
  predicate Embeds(idx: seq<nat>, a: seq<Project>, b: seq<Project>) {
    && |idx| == |a|
    && (forall k :: 0 <= k < |idx| ==> idx[k] < |b| && b[idx[k]] == a[k])
    && (forall k, l :: 0 <= k < l < |idx| ==> idx[k] < idx[l])
  }

  /** `a` is `b` with some elements left out, the rest kept in order. */
  ghost predicate IsSubsequence(a: seq<Project>, b: seq<Project>) {
    exists idx :: Embeds(idx, a, b)
  }

  /** Whatever the filter value, the filtered list is a subsequence of the
      list it filters. */
  lemma FilteredIsSubsequence(filter: string, ps: seq<Project>)
    ensures IsSubsequence(FilterProjects(filter, ps), ps)
  {
    var r := FilterProjects(filter, ps);
    if filter == AllFilter {
      var idx := seq(|ps|, i requires 0 <= i < |ps| => i as nat);
      assert Embeds(idx, r, ps);
    } else {
      FilterProjectsKeeps(filter, ps);
      PositionsExact(ps, filter, 0);
      assert Embeds(Positions(ps, filter, 0), r, ps);
    }
  }

  /** A filter value that no project has as its category gives an empty
      list. */
  lemma NoMatchIsEmpty(filter: string, ps: seq<Project>)
    requires filter != AllFilter
    requires forall p :: p in ps ==> p.category != filter
    ensures FilterProjects(filter, ps) == []
  {
    MatchingNone(ps, filter);
  }

  // Facts about the fixed data

  /** The six tab values are pairwise different. */
  lemma CategoriesDistinct()
    ensures forall i, j :: 0 <= i < j < |Categories()| ==> Categories()[i] != Categories()[j]
  {
  }

  /** Every project's category is one of the five tabs after `'all'`. */
  lemma CategoriesListed()
    ensures forall p :: p in Projects() ==> p.category in Categories()[1..]
  {
    forall p | p in Projects()
      ensures p.category in Categories()[1..]
    {
      FlattenMember(Groups(), p);
      var b :| 0 <= b < 5 && p in Groups()[b];
      assert Categories()[1..][b] == Categories()[b + 1];
    }
  }

  /** The ids of `ps`, in order. */
  function Ids(ps: seq<Project>): (r: seq<string>)
    ensures |r| == |ps| && forall i :: 0 <= i < |ps| ==> r[i] == ps[i].id
  {
    seq(|ps|, i requires 0 <= i < |ps| => ps[i].id)
  }

  /** The ids of a concatenation are the ids of its parts. */
  lemma IdsAppend(a: seq<Project>, b: seq<Project>)
    ensures Ids(a + b) == Ids(a) + Ids(b)
  {
  }

  /** The ids of a flattened list are the flattened ids of its lists. */
  lemma {:induction false} IdsFlatten(groups: seq<seq<Project>>, ids: seq<seq<string>>)
    requires |ids| == |groups|
    requires forall b :: 0 <= b < |groups| ==> Ids(groups[b]) == ids[b]
    ensures Ids(Flatten(groups)) == Flatten(ids)
    decreases |groups|
  {
    if groups != [] {
      IdsFlatten(groups[1..], ids[1..]);
      IdsAppend(groups[0], Flatten(groups[1..]));
    }
  }

  /** The ids written in group `b` of `projects`. */
  function GroupIds(b: nat): seq<string>
    requires b < 5
  {
    match b
    case 0 => ["chatbot-1", "chatbot-2", "chatbot-3"]
    case 1 => ["rag-1", "rag-2", "rag-3"]
    case 2 => ["integration-1", "integration-2", "integration-3"]
    case 3 => ["automation-1", "automation-2", "automation-3"]
    case 4 => ["custom-1", "custom-2", "custom-3"]
  }

  /** The fifteen ids, group by group. */
  function IdList(): seq<string> {
    GroupIds(0) + GroupIds(1) + GroupIds(2) + GroupIds(3) + GroupIds(4)
  }

  /** The fifteen ids are pairwise different. */
  lemma IdListDistinct()
    ensures forall i, j :: 0 <= i < j < |IdList()| ==> IdList()[i] != IdList()[j]
  {
  }

  /** Each group carries the ids written for it. */
  lemma BlockIds(b: nat)
    requires b < 5
    ensures Ids(Block(b)) == GroupIds(b)
  {
  }

  /** Flattening five lists is concatenating them. */
  lemma FlattenFive<T>(xss: seq<seq<T>>)
    requires |xss| == 5
    ensures Flatten(xss) == xss[0] + xss[1] + xss[2] + xss[3] + xss[4]
  {
    var t1 := xss[1..];
    var t2 := t1[1..];
    var t3 := t2[1..];
    var t4 := t3[1..];
    assert Flatten(t4) == xss[4] by {
      assert t4[1..] == [];
    }
    assert Flatten(t3) == xss[3] + xss[4];
    assert Flatten(t2) == xss[2] + (xss[3] + xss[4]);
    assert Flatten(t1) == xss[1] + (xss[2] + (xss[3] + xss[4]));
  }

  /** The ids of the gallery, in order. */
  lemma ProjectIds()
    ensures Ids(Projects()) == IdList()
  {
    var ids := seq(5, b requires 0 <= b < 5 => GroupIds(b));
    forall b | 0 <= b < 5
      ensures Ids(Groups()[b]) == ids[b]
    {
      BlockIds(b);
    }
    IdsFlatten(Groups(), ids);
    FlattenFive(ids);
  }

  /** A list whose ids are `IdList()` has pairwise different ids. */
  lemma DistinctIdsOf(ps: seq<Project>)
    requires Ids(ps) == IdList()
    ensures forall i, j :: 0 <= i < j < |ps| ==> ps[i].id != ps[j].id
  {
    IdListDistinct();
    assert forall i :: 0 <= i < |ps| ==> ps[i].id == IdList()[i];
  }

  /** Project ids are pairwise different. */
  lemma DistinctIds()
    ensures forall i, j :: 0 <= i < j < |Projects()| ==> Projects()[i].id != Projects()[j].id
  {
    ProjectIds();
    DistinctIdsOf(Projects());
  }

  /** Groups with no project in `cat` flatten to a list the filter empties. */
  lemma {:induction false} MatchingNoneOfGroups(groups: seq<seq<Project>>, cat: string)
    requires forall b, p :: 0 <= b < |groups| && p in groups[b] ==> p.category != cat
    ensures Matching(Flatten(groups), cat) == []
    decreases |groups|
  {
    if groups != [] {
      MatchingNone(groups[0], cat);
      assert forall b, p :: 0 <= b < |groups[1..]| && p in groups[1..][b] ==> p in groups[b + 1];
      MatchingNoneOfGroups(groups[1..], cat);
      MatchingAppend(groups[0], Flatten(groups[1..]), cat);
    }
  }

  /** Groups whose projects carry pairwise different categories, group `b`
      all in `cats[b]`: the filter for `cats[k]` keeps exactly group `k`. */
  lemma {:induction false} FilterSelectsGroup(groups: seq<seq<Project>>, cats: seq<string>, k: nat)
    requires |cats| == |groups| && k < |groups|
    requires forall i, j :: 0 <= i < j < |cats| ==> cats[i] != cats[j]
    requires forall b, p :: 0 <= b < |groups| && p in groups[b] ==> p.category == cats[b]
    ensures Matching(Flatten(groups), cats[k]) == groups[k]
    decreases |groups|
  {
    var rest := groups[1..];
    assert forall b, p: Project :: 0 <= b < |rest| && p in rest[b] ==> p.category == cats[1..][b] by {
      forall b, p: Project | 0 <= b < |rest| && p in rest[b]
        ensures p.category == cats[1..][b]
      {
        assert p in groups[b + 1];
      }
    }
    MatchingAppend(groups[0], Flatten(rest), cats[k]);
    if k == 0 {
      MatchingAll(groups[0], cats[0]);
      forall b, p: Project | 0 <= b < |rest| && p in rest[b]
        ensures p.category != cats[0]
      {
        assert cats[1..][b] == cats[b + 1];
      }
      MatchingNoneOfGroups(rest, cats[0]);
      assert groups[0] + [] == groups[0];
    } else {
      MatchingNone(groups[0], cats[k]);
      FilterSelectsGroup(rest, cats[1..], k - 1);
      assert [] + rest[k - 1] == groups[k];
    }
  }

  /** Group `b` is all in the `b`-th tab category after `'all'`. */
  lemma GroupsCategorized()
    ensures forall b, p :: 0 <= b < 5 && p in Groups()[b] ==> p.category == Categories()[1..][b]
  {
    forall b, p | 0 <= b < 5 && p in Groups()[b]
      ensures p.category == Categories()[1..][b]
    {
      assert Groups()[b] == Block(b);
    }
  }

  /** The five tab categories after `'all'` are pairwise different. */
  lemma TabCategoriesDistinct()
    ensures forall i, j :: 0 <= i < j < 5 ==> Categories()[1..][i] != Categories()[1..][j]
  {
    CategoriesDistinct();
  }

  /** The tab `categories[k]` shows exactly the group `Block(k - 1)`. */
  lemma FilterSelectsBlock(k: nat)
    requires 1 <= k < |Categories()|
    ensures FilterProjects(Categories()[k], Projects()) == Block(k - 1)
  {
    GroupsCategorized();
    TabCategoriesDistinct();
    FilterSelectsGroup(Groups(), Categories()[1..], k - 1);
  }

  /** Each of the five category tabs shows exactly three projects, so the
      five tabs partition the fifteen projects. */
  lemma ThreePerCategory(k: nat)
    requires 1 <= k < |Categories()|
    ensures |FilterProjects(Categories()[k], Projects())| == 3
  {
    FilterSelectsBlock(k);
  }

  /** A filter value outside `categories`, such as one sent with a
      `filterProjects` event, shows no project at all. */
  lemma UnknownFilterIsEmpty(filter: string)
    requires filter !in Categories()
    ensures FilterProjects(filter, Projects()) == []
  {
    CategoriesListed();
    NoMatchIsEmpty(filter, Projects());
  }

  // The card and the inquiry text

  /** `project.technologies && project.technologies.slice(0, 3)`: no tags
      without a list, otherwise the first three (all of them when there are
      fewer). */
  function CardTechnologies(p: Project): (r: Option<seq<string>>)
    ensures r.Some? <==> p.technologies.Some?
    ensures r.Some? ==> |r.value| <= 3 && |r.value| <= |p.technologies.value|
    ensures r.Some? ==> r.value == p.technologies.value[..|r.value|]
    ensures r.Some? && |r.value| < 3 ==> r.value == p.technologies.value
  {
    match p.technologies
    case None => None
    case Some(techs) => Some(if |techs| <= 3 then techs else techs[..3])
  }

  /** Every project of the gallery lists four technologies, so every card
      shows exactly three tags. */
  lemma EveryCardShowsThree()
    ensures forall p :: p in Projects() ==> CardTechnologies(p).Some? && |CardTechnologies(p).value| == 3
  {
    forall p | p in Projects()
      ensures CardTechnologies(p).Some? && |CardTechnologies(p).value| == 3
    {
      FlattenMember(Groups(), p);
    }
  }

  /** The inquiry text up to the opening quote of the title. */
  const InquiryLead := "Hi Karuna! I'm interested in discussing an AI solution similar to "

  /** The inquiry text when no title is given. */
  const GenericInquiry := "Hi Karuna! I'd like to discuss AI/LLM solutions for my business"

  /** `projectTitle` is truthy: given and not empty. */
  predicate HasTitle(title: Option<string>) {
    title.Some? && title.value != ""
  }

  /** The message of `openWhatsApp(projectTitle?)`: with a title, the inquiry
      quoting it; without one (or with an empty one), the generic text. */
  function InquiryText(title: Option<string>): (r: string)
    ensures HasTitle(title) ==> StartsWith(r, InquiryLead) && r[|InquiryLead|..] == "\"" + title.value + "\""
    ensures !HasTitle(title) ==> r == GenericInquiry
  {
    if HasTitle(title) then InquiryLead + "\"" + title.value + "\"" else GenericInquiry
  }

  /** A titled inquiry quotes its title. */
  lemma InquiryQuotesTitle(title: string)
    requires title != ""
    ensures Contains(InquiryText(Some(title)), "\"" + title + "\"")
  {
    ContainsMiddle(InquiryLead, "\"" + title + "\"", "");
    assert InquiryLead + ("\"" + title + "\"") + "" == InquiryText(Some(title));
  }

  /** The text determines the inquiry: two titled inquiries are the same only
      for the same title, and no titled inquiry is the generic text. */
  lemma InquiryTextInjective(a: Option<string>, b: Option<string>)
    requires HasTitle(a)
    ensures InquiryText(a) == InquiryText(b) <==> a == b
  {
    if InquiryText(a) == InquiryText(b) {
      if HasTitle(b) {
        var s := InquiryText(a)[|InquiryLead|..];
        assert s[1..|s| - 1] == a.value;
        assert s[1..|s| - 1] == b.value;
      }
    }
  }

  /** The section's state: the active filter, the project open in the detail
      view, and the last link handed to `window.open`. */
  class ProjectCases {
    var filter: string
    var selectedProject: Option<Project>
    var lastOpenedUrl: Option<string>

    /** The projects the grid shows. */
    function Visible(): seq<Project>
      reads this
    {
      FilterProjects(filter, Projects())
    }

    /** First render: filter `'all'`, nothing selected, so every project is
        shown. */
    constructor()
      ensures filter == AllFilter && selectedProject == None && lastOpenedUrl == None
      ensures Visible() == Projects()
    {
      filter := AllFilter;
      selectedProject := None;
      lastOpenedUrl := None;
    }

    /** The `filterProjects` listener: the event's detail becomes the filter
        as it is, whether or not it names a category. */
    method HandleFilterEvent(detail: string)
      modifies this
      ensures filter == detail
      ensures selectedProject == old(selectedProject) && lastOpenedUrl == old(lastOpenedUrl)
      ensures detail !in Categories() ==> Visible() == []
    {
      filter := detail;
      if detail !in Categories() {
        UnknownFilterIsEmpty(detail);
      }
    }

    /** A click on the filter tab for `categories[k]`. */
    method SelectTab(k: nat)
      requires k < |Categories()|
      modifies this
      ensures filter == Categories()[k]
      ensures selectedProject == old(selectedProject) && lastOpenedUrl == old(lastOpenedUrl)
      ensures |Visible()| == if k == 0 then 15 else 3
    {
      filter := Categories()[k];
      if k > 0 {
        ThreePerCategory(k);
      }
    }

    /** A click on a card opens the detail view of that project; the filter,
        and with it the grid, stays as it was. */
    method OpenDetails(p: Project)
      modifies this
      ensures selectedProject == Some(p)
      ensures filter == old(filter) && lastOpenedUrl == old(lastOpenedUrl)
    {
      selectedProject := Some(p);
    }

    /** The detail view's close button. */
    method CloseDetails()
      modifies this
      ensures selectedProject == None
      ensures filter == old(filter) && lastOpenedUrl == old(lastOpenedUrl)
    {
      selectedProject := None;
    }

    /** `openWhatsApp(projectTitle?)`; `encode` stands for
        `encodeURIComponent`. The header button passes no title, the detail
        view passes the title of the open project. */
    method OpenWhatsApp(title: Option<string>, encode: string -> string)
      modifies this
      ensures lastOpenedUrl == Some(WhatsApp.Link(encode(InquiryText(title))))
      ensures filter == old(filter) && selectedProject == old(selectedProject)
    {
      lastOpenedUrl := Some(WhatsApp.Link(encode(InquiryText(title))));
    }
  }
}
