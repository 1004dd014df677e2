/** The agent marketplace page of `src/components/agents/agent-marketplace.tsx`:
    the filters over the agent list, the category choices, the result count,
    the star rating and the handlers that open and close the registration
    dialog. The sample agents themselves are data and are not reproduced;
    every operation takes the list as a parameter. `toLowerCase` is its ASCII
    version. */
module Marketplace {
  import opened Options
  import opened Text
  import opened Seqs
  import RegistrationModal

  /** The fields of an agent the page computes with. */
  datatype Agent = Agent(
    id: string,
    name: string,
    description: string,
    isPublic: bool,
    rating: real,
    category: string,
    tags: seq<string>)

  /** The categories an agent may have. */
  const AgentCategories: seq<string> :=
    ["Trading", "Analytics", "Data Collection", "Investment", "AI Assistant", "Automation"]

  /** The value of the category filter that lets every category through. */
  const AllCategories := "all"

  datatype VisibilityFilter = ShowAll | ShowPublic | ShowPrivate

  // ---------------------------------------------------------------------------
  // Filtering

  predicate MatchesVisibility(a: Agent, v: VisibilityFilter) {
    match v
    case ShowAll => true
    case ShowPublic => a.isPublic
    case ShowPrivate => !a.isPublic
  }

  predicate MatchesCategory(a: Agent, category: string) {
    category == AllCategories || a.category == category
  }

  /** `text.toLowerCase().includes(query.toLowerCase())`. */
  predicate Mentions(text: string, query: string) {
    Contains(ToLower(text), ToLower(query))
  }

  /** The query is empty, or the name, the description or some tag mentions
      it ignoring case. */
  predicate MatchesSearch(a: Agent, query: string) {
    || query == ""
    || Mentions(a.name, query)
    || Mentions(a.description, query)
    || exists i :: 0 <= i < |a.tags| && Mentions(a.tags[i], query)
  }

  predicate Shown(a: Agent, v: VisibilityFilter, category: string, query: string) {
    MatchesVisibility(a, v) && MatchesCategory(a, category) && MatchesSearch(a, query)
  }

  /** `filteredAgents`: the agents all three filters let through, each as
      often as in the list and in list order. */
  function FilterAgents(agents: seq<Agent>, v: VisibilityFilter, category: string, query: string): (r: seq<Agent>)
    ensures forall a :: multiset(r)[a] == if Shown(a, v, category, query) then multiset(agents)[a] else 0
    ensures SubsequenceOf(r, agents)
    decreases |agents|
  {
    if |agents| == 0 then []
    else
      var rest := FilterAgents(agents[1..], v, category, query);
      assert agents == [agents[0]] + agents[1..];
      if Shown(agents[0], v, category, query) then [agents[0]] + rest else rest
  }

  /** With every filter at its initial value the whole list is shown. */
  lemma {:induction false} InitialFiltersShowAll(agents: seq<Agent>)
    ensures FilterAgents(agents, ShowAll, AllCategories, "") == agents
    decreases |agents|
  {
    if |agents| > 0 {
      InitialFiltersShowAll(agents[1..]);
    }
  }

  /** The public and the private view split the unfiltered view between
      them, whatever the category and the query. */
  lemma {:induction false} PublicPrivatePartition(agents: seq<Agent>, category: string, query: string)
    ensures |FilterAgents(agents, ShowPublic, category, query)| + |FilterAgents(agents, ShowPrivate, category, query)|
            == |FilterAgents(agents, ShowAll, category, query)|
    decreases |agents|
  {
    if |agents| > 0 {
      PublicPrivatePartition(agents[1..], category, query);
    }
  }

  // ---------------------------------------------------------------------------
  // Category choices

  /** The category of every agent, in list order. */
  function Categories(agents: seq<Agent>): (r: seq<string>)
    ensures |r| == |agents|
    ensures forall i :: 0 <= i < |agents| ==> r[i] == agents[i].category
  {
    seq(|agents|, i requires 0 <= i < |agents| => agents[i].category)
  }

  /** `categories`: "all" first, then every category some agent has, once,
      in the order the agents bring them in. */
  function CategoryChoices(agents: seq<Agent>): (r: seq<string>)
    ensures |r| >= 1 && r[0] == AllCategories
    ensures forall c :: c in r[1..] <==> c in Categories(agents)
    ensures NoDuplicates(r[1..])
    // first-occurrence order
    ensures forall i, j :: 1 <= i < j < |r| ==>
              r[i] in Categories(agents) && r[j] in Categories(agents) &&
              FirstIndex(Categories(agents), r[i]) < FirstIndex(Categories(agents), r[j])
    // as long as no agent's category is literally "all", no choice repeats
    ensures AllCategories !in Categories(agents) ==> NoDuplicates(r)
  {
    var cats := Categories(agents);
    var d := Distinct(cats);
    var r := [AllCategories] + d;
    assert r[1..] == d;
    assert forall i :: 1 <= i < |r| ==> r[i] == d[i - 1];
    assert AllCategories !in cats ==> NoDuplicates(r) by {
      if AllCategories !in cats {
        forall i, j | 0 <= i < j < |r| ensures r[i] != r[j] {
          assert r[j] == d[j - 1];
          if i > 0 {
            assert r[i] == d[i - 1];
          }
        }
      }
    }
    r
  }

  /** Choosing a category from the list shows the agents of that category
      and no others, and every agent's category is among the choices. Agents
      carry one of the six categories, none of which is "all". */
  lemma CategoryChoiceSelects(agents: seq<Agent>, k: nat, a: Agent)
    requires forall i :: 0 <= i < |agents| ==> agents[i].category in AgentCategories
    requires 1 <= k < |CategoryChoices(agents)|
    requires a in agents
    ensures MatchesCategory(a, CategoryChoices(agents)[k]) <==> a.category == CategoryChoices(agents)[k]
    ensures exists j :: 1 <= j < |CategoryChoices(agents)| && CategoryChoices(agents)[j] == a.category
  {
    var r := CategoryChoices(agents);
    var cats := Categories(agents);
    var tail := r[1..];
    var i :| 0 <= i < |agents| && agents[i] == a;
    assert cats[i] == a.category;
    assert a.category in tail;
    var j :| 0 <= j < |tail| && tail[j] == a.category;
    assert r[j + 1] == tail[j];
    AllIsNoCategory();
    assert AllCategories !in cats by {
      forall q | 0 <= q < |cats| ensures cats[q] != AllCategories {
        assert cats[q] == agents[q].category;
      }
    }
    assert NoDuplicates(r);
    assert r[k] != r[0];
  }

  lemma AllIsNoCategory()
    ensures AllCategories !in AgentCategories
  {
  }

  // ---------------------------------------------------------------------------
  // Result count and stars

  const Singular := " agent found"
  const Plural := " agents found"

  /** The result line, `${n} agent${n !== 1 ? 's' : ''} found`. */
  function CountLabel(n: nat): (r: string)
    ensures var d := NatToDecimal(n);
            && |r| > |d| && r[..|d|] == d
            && r[|d|..] == (if n == 1 then Singular else Plural)
  {
    NatToDecimal(n) + (if n == 1 then Singular else Plural)
  }

  /** The count line reads back as the number of agents shown, and uses the
      singular exactly for one agent. */
  lemma CountLabelReadsBack(agents: seq<Agent>, v: VisibilityFilter, category: string, query: string)
    ensures var n := |FilterAgents(agents, v, category, query)|;
            var line := CountLabel(n);
            var d := NatToDecimal(n);
            && (forall k :: 0 <= k < |d| ==> IsDigit(line[k]))
            && !IsDigit(line[|d|])
            && DecimalToNat(line[..|d|]) == n
            && (line[|d|..] == Singular <==> n == 1)
  {
    var n := |FilterAgents(agents, v, category, query)|;
    DecimalRoundTrip(n);
    var d := NatToDecimal(n);
    var line := CountLabel(n);
    assert line[|d|] == ' ';
    if n != 1 {
      assert line[|d|..][6] == 's';
    }
  }

  /** `renderStars`: five stars, the `i`-th filled when `i < floor(rating)`. */
  function Stars(rating: real): (r: seq<bool>)
    ensures |r| == 5
    // a star is filled exactly when the rating reaches its number
    ensures forall i :: 0 <= i < 5 ==> (r[i] <==> (i + 1) as real <= rating)
    // the filled stars come first
    ensures forall i, j :: 0 <= i < j < 5 && r[j] ==> r[i]
  {
    seq(5, i requires 0 <= i < 5 => i < rating.Floor)
  }

  // ---------------------------------------------------------------------------
  // Registration dialog handlers

  /** The page state besides the filters. */
  datatype Page = Page(
    visibility: VisibilityFilter,
    category: string,
    query: string,
    registrationOpen: bool,
    agentToRegister: Option<Agent>)

  const InitialPage := Page(ShowAll, AllCategories, "", false, None)

  /** What the dialog is told about the agent. */
  function ModalAgent(p: Page): Option<RegistrationModal.AgentInfo> {
    match p.agentToRegister
    case None => None
    case Some(a) => Some(RegistrationModal.AgentInfo(a.id, a.name))
  }

  /** `handleRegisterAgent`: remembers the agent and opens the dialog, so the
      dialog shows that agent; the filters stay. */
  function RegisterAgent(p: Page, a: Agent): (p': Page)
    ensures RegistrationModal.Renders(p'.registrationOpen, ModalAgent(p'))
    ensures ModalAgent(p') == Some(RegistrationModal.AgentInfo(a.id, a.name))
    ensures p'.visibility == p.visibility && p'.category == p.category && p'.query == p.query
  {
    p.(agentToRegister := Some(a), registrationOpen := true)
  }

  /** `handleRegisterComplete` and the dialog's `onClose` alike: the dialog
      closes and forgets the agent, so it draws nothing; the filters stay. */
  function CloseRegistration(p: Page): (p': Page)
    ensures !RegistrationModal.Renders(p'.registrationOpen, ModalAgent(p'))
    ensures !p'.registrationOpen && ModalAgent(p').None?
    ensures p'.visibility == p.visibility && p'.category == p.category && p'.query == p.query
  {
    p.(registrationOpen := false, agentToRegister := None)
  }

  /** The page's reaction to what the dialog reports: a registration or a
      close shuts the dialog. */
  function OnDialogEffect(p: Page, e: RegistrationModal.Effect): (p': Page)
    ensures e.Quiet? ==> p' == p
    ensures !e.Quiet? ==> !RegistrationModal.Renders(p'.registrationOpen, ModalAgent(p'))
  {
    if e.Quiet? then p else CloseRegistration(p)
  }

  /** Registering an agent from the page: the dialog opens on that agent, a
      click and the registration timer report the agent's id, and the page
      then shuts the dialog while keeping its filters. */
  lemma RegisterFromPage(p: Page, a: Agent, m: RegistrationModal.Modal, parseFloat: string -> real)
    requires RegistrationModal.Consistent(m) && m.step == RegistrationModal.Configure
    ensures var p1 := RegisterAgent(p, a);
            var o1 := RegistrationModal.Handle(m, p1.registrationOpen, ModalAgent(p1), parseFloat, RegistrationModal.ClickRegister);
            var o2 := RegistrationModal.Handle(o1.modal, p1.registrationOpen, ModalAgent(p1), parseFloat, RegistrationModal.RegistrationTimerFires);
            var p2 := OnDialogEffect(p1, o2.effect);
            && o2.effect.Register? && o2.effect.agentId == a.id
            && !p2.registrationOpen && p2.agentToRegister.None?
            && p2.visibility == p.visibility && p2.category == p.category && p2.query == p.query
  {
  }
}
