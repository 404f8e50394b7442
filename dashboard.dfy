/** The dashboard page: the fetched environments, the search text and the two categorical
    filters, the derived list of environments shown, the status colour and the empty state. */
module Dashboard {
  import opened Wrappers
  import opened Text
  import opened Seqs
  import opened Entities
  import opened Views

  const AllOption := "all"
  const NoMatchesMessage := "No environments match your filters."
  const NoneFoundMessage := "No environments found."

  /** The search test: the name or the owner contains the query, ignoring case. */
  predicate MatchesSearch(e: DevelopmentEnvironment, query: string) {
    FieldMatches(e.environmentName, query) || FieldMatches(e.owner, query)
  }

  /** A categorical filter: `"all"` is a wildcard, any other value must equal the field exactly. */
  predicate MatchesFilter(v: Option<string>, filter: string) {
    filter == AllOption || v == Some(filter)
  }

  predicate Keeps(e: DevelopmentEnvironment, query: string, statusFilter: string, typeFilter: string) {
    MatchesSearch(e, query) && MatchesFilter(e.status, statusFilter) && MatchesFilter(e.environmentType, typeFilter)
  }

  /** The filter callback of `filteredEnvironments`. */
  function Keeper(query: string, statusFilter: string, typeFilter: string): DevelopmentEnvironment -> bool {
    e => Keeps(e, query, statusFilter, typeFilter)
  }

  /** `filteredEnvironments`. */
  function Visible(envs: seq<DevelopmentEnvironment>, query: string, statusFilter: string, typeFilter: string)
    : seq<DevelopmentEnvironment>
  {
    Filter(envs, Keeper(query, statusFilter, typeFilter))
  }

  /** An environment is shown iff it was fetched and passes all three tests. */
  lemma VisibleMembers(envs: seq<DevelopmentEnvironment>, query: string, statusFilter: string, typeFilter: string,
                       e: DevelopmentEnvironment)
    ensures e in Visible(envs, query, statusFilter, typeFilter) <==>
            e in envs && MatchesSearch(e, query) &&
            (statusFilter == AllOption || e.status == Some(statusFilter)) &&
            (typeFilter == AllOption || e.environmentType == Some(typeFilter))
  {
    FilterMembers(envs, Keeper(query, statusFilter, typeFilter), e);
  }

  /** The shown list keeps the fetch order, and shows each kept record as often as it was fetched. */
  lemma VisibleIsOrderedSelection(envs: seq<DevelopmentEnvironment>, query: string, statusFilter: string,
                                  typeFilter: string, e: DevelopmentEnvironment)
    ensures IsSubsequence(Visible(envs, query, statusFilter, typeFilter), envs)
    ensures multiset(Visible(envs, query, statusFilter, typeFilter))[e] ==
            if Keeps(e, query, statusFilter, typeFilter) then multiset(envs)[e] else 0
  {
    FilterIsSubsequence(envs, Keeper(query, statusFilter, typeFilter));
    FilterCounts(envs, Keeper(query, statusFilter, typeFilter), e);
  }

  predicate HasNameOrOwner(e: DevelopmentEnvironment) {
    e.environmentName.Some? || e.owner.Some?
  }

  /** With no search text and both filters on `"all"`, exactly the records with a name or an
      owner are shown: a record with neither is never listed. */
  lemma DefaultViewShowsNamedOrOwned(envs: seq<DevelopmentEnvironment>)
    ensures Visible(envs, "", AllOption, AllOption) == Filter(envs, HasNameOrOwner)
  {
    forall i | 0 <= i < |envs|
      ensures Keeps(envs[i], "", AllOption, AllOption) == HasNameOrOwner(envs[i])
    {
      if envs[i].environmentName.Some? {
        EmptyQueryMatchesPresent(envs[i].environmentName.value);
      }
      if envs[i].owner.Some? {
        EmptyQueryMatchesPresent(envs[i].owner.value);
      }
    }
    FilterCongruent(envs, Keeper("", AllOption, AllOption), HasNameOrOwner);
  }

  /** Search ignores case: any case variant of the query shows the same list. */
  lemma SearchIgnoresCase(envs: seq<DevelopmentEnvironment>, q1: string, q2: string,
                          statusFilter: string, typeFilter: string)
    requires SameIgnoringCase(q1, q2)
    ensures Visible(envs, q1, statusFilter, typeFilter) == Visible(envs, q2, statusFilter, typeFilter)
  {
    LowerIgnoresCase(q1, q2);
    FilterCongruent(envs, Keeper(q1, statusFilter, typeFilter), Keeper(q2, statusFilter, typeFilter));
  }

  function StatusIs(statusFilter: string): DevelopmentEnvironment -> bool {
    (e: DevelopmentEnvironment) => MatchesFilter(e.status, statusFilter)
  }

  /** Choosing a status narrows the `"all"`-status list to the records with exactly that status. */
  lemma StatusFilterNarrows(envs: seq<DevelopmentEnvironment>, query: string, statusFilter: string, typeFilter: string)
    ensures Visible(envs, query, statusFilter, typeFilter) ==
            Filter(Visible(envs, query, AllOption, typeFilter), StatusIs(statusFilter))
  {
    var p := Keeper(query, AllOption, typeFilter);
    FilterFilter(envs, p, StatusIs(statusFilter));
    FilterCongruent(envs, Keeper(query, statusFilter, typeFilter), Both(p, StatusIs(statusFilter)));
  }

  /** The status filter compares exactly while the colour ignores case: a record whose status is
      `"active"` is coloured as active but is hidden by the `"Active"` filter. */
  lemma StatusFilterIsCaseSensitive(e: DevelopmentEnvironment)
    requires e.status == Some("active")
    ensures StatusTone(e.status) == Green
    ensures !Keeps(e, "", "Active", AllOption)
  {
    LowerOfLiteral("active", "active");
  }

  /** The colour behind `getStatusColor`: a case-insensitive lookup of the status; `"stopped"`,
      unknown values and an undefined status all get the subtle colour. */
  function StatusTone(status: Option<string>): (t: Tone)
    ensures t == Green <==> status.Some? && Lower(status.value) == "active"
    ensures t == Yellow <==> status.Some? && Lower(status.value) == "provisioning"
    ensures t == Destructive <==> status.Some? && Lower(status.value) == "error"
    ensures status.None? ==> t == Subtle
  {
    if status.None? then Subtle
    else
      var s := Lower(status.value);
      if s == "active" then Green
      else if s == "stopped" then Subtle
      else if s == "provisioning" then Yellow
      else if s == "error" then Destructive
      else Subtle
  }

  /** `getStatusColor`: the class string of the status colour. */
  function StatusColor(status: Option<string>): (c: string)
    ensures c == "text-green-600" <==> status.Some? && Lower(status.value) == "active"
    ensures c == "text-yellow-600" <==> status.Some? && Lower(status.value) == "provisioning"
    ensures c == "text-destructive" <==> status.Some? && Lower(status.value) == "error"
    ensures c == "text-subtletext" <==>
              status.None? || Lower(status.value) !in {"active", "provisioning", "error"}
  {
    var t := StatusTone(status);
    ToneClassInjective(t, Green);
    ToneClassInjective(t, Yellow);
    ToneClassInjective(t, Destructive);
    ToneClassInjective(t, Subtle);
    ToneClass(t)
  }

  /** The colour does not depend on the case of the status. */
  lemma StatusToneIgnoresCase(s1: string, s2: string)
    requires SameIgnoringCase(s1, s2)
    ensures StatusTone(Some(s1)) == StatusTone(Some(s2))
  {
    LowerIgnoresCase(s1, s2);
  }

  /** The statuses offered by the status filter, with the colour each one gets. */
  const StatusOptions: seq<(string, Tone)> :=
    [("Active", Green), ("Stopped", Subtle), ("Provisioning", Yellow), ("Error", Destructive)]

  /** Each status offered by the status filter gets its colour. */
  lemma StatusToneOfFilterValue(k: nat)
    requires k < |StatusOptions|
    ensures StatusTone(Some(StatusOptions[k].0)) == StatusOptions[k].1
  {
    if k == 0 {
      LowerOfLiteral("Active", "active");
    } else if k == 1 {
      LowerOfLiteral("Stopped", "stopped");
    } else if k == 2 {
      LowerOfLiteral("Provisioning", "provisioning");
    } else {
      LowerOfLiteral("Error", "error");
    }
  }

  /** Whether the search text or either filter narrows the list. */
  predicate FiltersActive(query: string, statusFilter: string, typeFilter: string) {
    query != "" || statusFilter != AllOption || typeFilter != AllOption
  }

  /** The rendering choice of the list region. */
  function Render(isLoading: bool, visible: seq<DevelopmentEnvironment>, query: string, statusFilter: string,
                  typeFilter: string): (c: Content<DevelopmentEnvironment>)
    ensures isLoading <==> c.Nothing?
    ensures c.Listing? ==> c.items == visible && |visible| > 0
    ensures c.EmptyState? <==> !isLoading && visible == []
    ensures c.EmptyState? ==>
              c.message == (if FiltersActive(query, statusFilter, typeFilter) then NoMatchesMessage else NoneFoundMessage)
  {
    if isLoading then Nothing
    else if |visible| > 0 then Listing(visible)
    else EmptyState(if FiltersActive(query, statusFilter, typeFilter) then NoMatchesMessage else NoneFoundMessage)
  }

  /** Once loaded, with no filter active, the "no environments found" text is shown iff no
      fetched record has a name or an owner (in particular when nothing was fetched). */
  lemma UnfilteredEmptyState(envs: seq<DevelopmentEnvironment>)
    ensures Render(false, Visible(envs, "", AllOption, AllOption), "", AllOption, AllOption) == EmptyState(NoneFoundMessage)
            <==> forall i :: 0 <= i < |envs| ==> envs[i].environmentName.None? && envs[i].owner.None?
  {
    DefaultViewShowsNamedOrOwned(envs);
    FilterEmpty(envs, HasNameOrOwner);
  }

  /** Once loaded, if records were fetched but the active filters exclude all of them,
      the "no match" text is shown. */
  lemma FilteredOutEmptyState(envs: seq<DevelopmentEnvironment>, query: string, statusFilter: string, typeFilter: string)
    requires FiltersActive(query, statusFilter, typeFilter)
    requires forall i :: 0 <= i < |envs| ==> !Keeps(envs[i], query, statusFilter, typeFilter)
    ensures Render(false, Visible(envs, query, statusFilter, typeFilter), query, statusFilter, typeFilter)
            == EmptyState(NoMatchesMessage)
  {
    FilterNone(envs, Keeper(query, statusFilter, typeFilter));
  }

  /** The page's state. */
  class DashboardPage {
    var environments: seq<DevelopmentEnvironment>
    var isLoading: bool
    var searchQuery: string
    var statusFilter: string
    var typeFilter: string

    constructor ()
      ensures environments == [] && isLoading
      ensures searchQuery == "" && statusFilter == AllOption && typeFilter == AllOption
    {
      environments := [];
      isLoading := true;
      searchQuery := "";
      statusFilter := AllOption;
      typeFilter := AllOption;
    }

    /** `loadEnvironments`: a resolved fetch replaces the list, a rejected one leaves it as it
        was; either way loading ends. */
    method LoadEnvironments(outcome: Fetch<seq<DevelopmentEnvironment>>)
      modifies this
      ensures environments == if outcome.Ok? then outcome.value else old(environments)
      ensures !isLoading
      ensures searchQuery == old(searchQuery) && statusFilter == old(statusFilter) && typeFilter == old(typeFilter)
    {
      if outcome.Ok? {
        environments := outcome.value;
      }
      isLoading := false;
    }

    method SetSearchQuery(q: string)
      modifies this`searchQuery
      ensures searchQuery == q
    {
      searchQuery := q;
    }

    method SetStatusFilter(s: string)
      modifies this`statusFilter
      ensures statusFilter == s
    {
      statusFilter := s;
    }

    method SetTypeFilter(t: string)
      modifies this`typeFilter
      ensures typeFilter == t
    {
      typeFilter := t;
    }

    function FilteredEnvironments(): seq<DevelopmentEnvironment>
      reads this
    {
      Visible(environments, searchQuery, statusFilter, typeFilter)
    }

    function ListContent(): Content<DevelopmentEnvironment>
      reads this
    {
      Render(isLoading, FilteredEnvironments(), searchQuery, statusFilter, typeFilter)
    }
  }

  /** A freshly mounted page shows nothing; after a rejected fetch it shows the
      "no environments found" text. */
  method MountWithFailedFetch() returns (page: DashboardPage)
    ensures fresh(page)
    ensures page.ListContent() == EmptyState(NoneFoundMessage)
  {
    page := new DashboardPage();
    assert page.ListContent() == Nothing;
    page.LoadEnvironments(Fail);
  }
}
