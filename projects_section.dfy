/** The state of the projects section of the page: three category buckets
    filled by one load on mount, a loading flag, the project shown in the
    detail overlay, the active tab and a one-shot visibility flag. The three
    concurrent category fetches are joined into one step that receives the
    outcome of each. */
module ProjectsView {
  import opened Wrappers
  import opened Models

  datatype Tab = CvTab | BrandingTab | SocialTab

  /** The tabs in the order they are laid out. */
  const Tabs: seq<Tab> := [CvTab, BrandingTab, SocialTab]

  /** The projects of the three categories, each in the order received. */
  datatype Buckets = Buckets(cv: seq<Project>, branding: seq<Project>, social: seq<Project>) {
    function Of(t: Tab): seq<Project> {
      match t
      case CvTab => cv
      case BrandingTab => branding
      case SocialTab => social
    }
  }

  const NoProjects: Buckets := Buckets([], [], [])

  /** The outcome of one category fetch: the projects received, or the
      transport error's description. */
  type Fetch = Result<seq<Project>, string>

  const LoadFailedToast: string := "Failed to load projects. Please try again."

  /** The joined fetch succeeds only when all three fetches succeed. */
  predicate AllFetched(cv: Fetch, branding: Fetch, social: Fetch) {
    cv.Ok? && branding.Ok? && social.Ok?
  }

  /** The fetch whose result belongs in a tab's bucket. */
  function FetchFor(t: Tab, cv: Fetch, branding: Fetch, social: Fetch): Fetch {
    match t
    case CvTab => cv
    case BrandingTab => branding
    case SocialTab => social
  }

  /** The buckets once the joined fetch settles: on success every bucket holds
      the result fetched for its own category; on any failure no bucket
      changes. */
  function Settled(prev: Buckets, cv: Fetch, branding: Fetch, social: Fetch): (b: Buckets)
    ensures AllFetched(cv, branding, social) ==>
              forall t :: b.Of(t) == FetchFor(t, cv, branding, social).value
    ensures !AllFetched(cv, branding, social) ==> b == prev
  {
    if AllFetched(cv, branding, social) then Buckets(cv.value, branding.value, social.value)
    else prev
  }

  // ------------------------------------------------------------ presentation

  /** What a tab's panel shows. */
  datatype View = Spinner | Grid(cards: seq<Project>) | EmptyState(category: string)

  /** The category name in a tab's empty-state message. */
  function EmptyLabel(t: Tab): string {
    match t
    case CvTab => "CV design"
    case BrandingTab => "branding"
    case SocialTab => "social media"
  }

  /** The title on a tab's trigger. */
  function TabTitle(t: Tab): string {
    match t
    case CvTab => "CV Designs"
    case BrandingTab => "Brand Identity"
    case SocialTab => "Social Media"
  }

  /** A tab trigger: its title and the number shown beside it. */
  datatype TabLabel = TabLabel(title: string, count: nat)

  /** The panel of a tab: the spinner while loading, otherwise the cards of
      a non-empty bucket, otherwise the category's empty state. */
  function TabContent(loading: bool, bucket: seq<Project>, t: Tab): (v: View)
    ensures v.Spinner? <==> loading
    ensures v.Grid? <==> !loading && bucket != []
    ensures v.Grid? ==> v.cards == bucket
    ensures v.EmptyState? ==> v.category == EmptyLabel(t)
  {
    if loading then Spinner
    else if |bucket| > 0 then Grid(bucket)
    else EmptyState(EmptyLabel(t))
  }

  // ------------------------------------------------------------ the section

  class ProjectsSection {
    var isVisible: bool
    var selectedProject: Option<Project>
    var projects: Buckets
    var loading: bool
    var activeTab: Tab

    /** The state on mount: empty buckets, loading, the CV tab, no project
        selected, not yet revealed. */
    constructor ()
      ensures !isVisible && selectedProject == None
      ensures projects == NoProjects && loading && activeTab == CvTab
    {
      isVisible := false;
      selectedProject := None;
      projects := NoProjects;
      loading := true;
      activeTab := CvTab;
    }

    /** The viewport observer's callback: the flag is raised on the first
        intersection and never lowered. */
    method OnIntersection(isIntersecting: bool)
      modifies this`isVisible
      ensures isVisible == (old(isVisible) || isIntersecting)
      ensures old(isVisible) ==> isVisible
    {
      if isIntersecting {
        isVisible := true;
      }
    }

    /** The start of the load: the flag is raised before the fetches. */
    method StartLoading()
      modifies this`loading
      ensures loading
    {
      loading := true;
    }

    /** The end of the load, given the outcome of the three category fetches:
        all buckets are set together or none is, an error notice is raised on
        failure, and loading ends either way. */
    method FinishLoading(cv: Fetch, branding: Fetch, social: Fetch) returns (toast: Option<string>)
      modifies this`projects, this`loading
      ensures !loading
      ensures projects == Settled(old(projects), cv, branding, social)
      ensures toast.Some? <==> !AllFetched(cv, branding, social)
      ensures toast.Some? ==> toast.value == LoadFailedToast
    {
      if cv.Ok? && branding.Ok? && social.Ok? {
        projects := Buckets(cv.value, branding.value, social.value);
        toast := None;
      } else {
        toast := Some(LoadFailedToast);
      }
      loading := false;
    }

    /** A card click opens the detail overlay for that project. */
    method SelectProject(p: Project)
      modifies this`selectedProject
      ensures selectedProject == Some(p)
    {
      selectedProject := Some(p);
    }

    /** Closing the overlay clears the selection. */
    method CloseProject()
      modifies this`selectedProject
      ensures selectedProject == None
    {
      selectedProject := None;
    }

    /** Switching tabs only changes the active tab: nothing is fetched. */
    method ChangeTab(t: Tab)
      modifies this`activeTab
      ensures activeTab == t
    {
      activeTab := t;
    }

    /** A tab trigger shows its title and the size of its bucket. */
    function Label(t: Tab): (l: TabLabel)
      reads this
      ensures l.count == |projects.Of(t)| && l.title == TabTitle(t)
    {
      TabLabel(TabTitle(t), |projects.Of(t)|)
    }
  }

  /** Mounting the section and running its one load: every panel shows the
      spinner until the load settles; afterwards a failed load shows every
      category's empty state (no error view), and a successful one shows each
      category's own fetched projects, or its empty state when none came. */
  method MountAndLoad(cv: Fetch, branding: Fetch, social: Fetch)
      returns (during: seq<View>, after: seq<View>, toast: Option<string>)
    ensures |during| == 3 && |after| == 3
    ensures forall i :: 0 <= i < 3 ==> during[i] == Spinner
    ensures !AllFetched(cv, branding, social) ==>
              toast == Some(LoadFailedToast)
              && forall i :: 0 <= i < 3 ==> after[i] == EmptyState(EmptyLabel(Tabs[i]))
    ensures AllFetched(cv, branding, social) ==>
              toast == None
              && forall i :: 0 <= i < 3 ==>
                   var fetched := FetchFor(Tabs[i], cv, branding, social).value;
                   after[i] == (if fetched == [] then EmptyState(EmptyLabel(Tabs[i]))
                                else Grid(fetched))
  {
    var section := new ProjectsSection();
    section.StartLoading();
    during := [TabContent(section.loading, section.projects.Of(CvTab), CvTab),
               TabContent(section.loading, section.projects.Of(BrandingTab), BrandingTab),
               TabContent(section.loading, section.projects.Of(SocialTab), SocialTab)];
    toast := section.FinishLoading(cv, branding, social);
    after := [TabContent(section.loading, section.projects.Of(CvTab), CvTab),
              TabContent(section.loading, section.projects.Of(BrandingTab), BrandingTab),
              TabContent(section.loading, section.projects.Of(SocialTab), SocialTab)];
  }

  /** Selecting a card, switching tabs and closing the overlay leave the
      buckets and the loading flag as they were: neither triggers a fetch. */
  method BrowseWithoutFetching(section: ProjectsSection, p: Project, t: Tab)
      returns (shown: Option<Project>)
    modifies section
    ensures shown == Some(p)
    ensures section.selectedProject == None && section.activeTab == t
    ensures section.projects == old(section.projects) && section.loading == old(section.loading)
    ensures section.isVisible == old(section.isVisible)
  {
    section.SelectProject(p);
    shown := section.selectedProject;
    section.ChangeTab(t);
    section.CloseProject();
  }
}
