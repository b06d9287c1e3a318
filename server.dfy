/** The content API's request handlers, as operations on an in-memory store
    of four collections: projects, contacts, testimonials and the profile
    (a collection in which the handlers insert a document only while it is
    empty). Each handler is one atomic step on the store. */
module Server {
  import opened Wrappers
  import opened Models
  import opened Collection

  /** The HTTP error a handler raises. */
  datatype HttpError = HttpError(status: int, detail: string)

  const ProjectNotFound: HttpError := HttpError(404, "Project not found")
  const ContactNotFound: HttpError := HttpError(404, "Contact not found")
  const TestimonialNotFound: HttpError := HttpError(404, "Testimonial not found")
  const ProfileNotFound: HttpError := HttpError(404, "Profile not found")

  /** The response to an exception a handler does not catch: here, a number
      the document store cannot hold. */
  const InternalError: HttpError := HttpError(500, "Internal Server Error")

  const ProjectDeleted: string := "Project deleted successfully"
  const TestimonialDeleted: string := "Testimonial deleted successfully"
  const ContactMarkedRead: string := "Contact marked as read"
  const CvDownloadIncremented: string := "CV download count incremented"

  // ------------------------------------------------------- lookups by id

  /** The position of the first project with the given id. */
  function ProjectIndex(s: seq<Project>, id: string): (r: Option<nat>)
    ensures r.None? <==> forall p :: p in s ==> p.id != id
    ensures r.Some? ==> r.value < |s| && s[r.value].id == id
    ensures r.Some? ==> forall j :: 0 <= j < r.value ==> s[j].id != id
  {
    FirstMatch(s, (p: Project) => p.id == id)
  }

  /** The position of the first testimonial with the given id. */
  function TestimonialIndex(s: seq<Testimonial>, id: string): (r: Option<nat>)
    ensures r.None? <==> forall t :: t in s ==> t.id != id
    ensures r.Some? ==> r.value < |s| && s[r.value].id == id
    ensures r.Some? ==> forall j :: 0 <= j < r.value ==> s[j].id != id
  {
    FirstMatch(s, (t: Testimonial) => t.id == id)
  }

  /** The position of the first contact with the given id. */
  function ContactIndex(s: seq<Contact>, id: string): (r: Option<nat>)
    ensures r.None? <==> forall c :: c in s ==> c.id != id
    ensures r.Some? ==> r.value < |s| && s[r.value].id == id
    ensures r.Some? ==> forall j :: 0 <= j < r.value ==> s[j].id != id
  {
    FirstMatch(s, (c: Contact) => c.id == id)
  }

  // ---------------------------------------------------- marking as read

  /** The contacts after the read flag of the first contact with the given id
      is set: only that flag of that one contact can change. */
  function MarkedRead(cs: seq<Contact>, id: string): (r: seq<Contact>)
    ensures |r| == |cs|
    ensures forall j :: 0 <= j < |cs| ==> r[j].(isRead := cs[j].isRead) == cs[j]
    ensures forall j :: 0 <= j < |cs| ==>
              r[j].isRead == (cs[j].isRead || ContactIndex(cs, id) == Some(j))
  {
    match ContactIndex(cs, id)
    case None => cs
    case Some(i) => cs[i := cs[i].(isRead := true)]
  }

  /** Marking the same contact as read twice gives the state of marking it
      once, and the second time it is still found. */
  lemma MarkReadIdempotent(cs: seq<Contact>, id: string)
    ensures ContactIndex(MarkedRead(cs, id), id) == ContactIndex(cs, id)
    ensures MarkedRead(MarkedRead(cs, id), id) == MarkedRead(cs, id)
  {
    var once := MarkedRead(cs, id);
    assert forall j :: 0 <= j < |cs| ==> once[j].id == cs[j].id by {
      forall j | 0 <= j < |cs| ensures once[j].id == cs[j].id {
        assert once[j].(isRead := cs[j].isRead) == cs[j];
      }
    }
    var twice := MarkedRead(once, id);
    forall j | 0 <= j < |cs| ensures twice[j] == once[j] {
      assert twice[j].(isRead := once[j].isRead) == once[j];
    }
  }

  // ------------------------------------------------------------ profile

  /** The body of the profile that the first read creates. */
  const DefaultBio: string :=
    "Passionate visual designer specializing in creating modern, professional designs that make an impact. With expertise in CV design, brand identity, and social media templates."

  /** The profile inserted when none is stored. */
  function DefaultProfile(at: Timestamp): (p: ProfileInfo)
    ensures p.bio == DefaultBio && p.updatedAt == at
    ensures p.totalProjects == 150 && p.happyClients == 50 && p.awards == 5
    ensures p.cvDownloadCount == 0
    ensures p.name == DefaultName && p.email == DefaultEmail
    ensures p.linkedin == DefaultLinkedin && p.behance == DefaultBehance
  {
    NewProfile(DefaultBio, at).(totalProjects := 150, happyClients := 50, awards := 5)
  }

  /** The fields an update writes: exactly those it supplies as non-None. */
  function UpdateDict(u: ProfileUpdate): (d: map<ProfileField, FieldValue>)
    ensures forall f :: f in d <==> Supplied(u, f).Some?
    ensures forall f :: f in d ==> d[f] == Supplied(u, f).value
  {
    ProfileFieldsComplete();
    map f | f in ProfileFields && Supplied(u, f).Some? :: Supplied(u, f).value
  }

  /** An update writes nothing exactly when it supplies no field. */
  lemma EmptyUpdateDict(u: ProfileUpdate)
    ensures UpdateDict(u) == map[] <==> u == NoChanges
  {
    NoChangesSuppliesNothing(u);
    if u == NoChanges {
      assert forall f :: f !in UpdateDict(u);
    } else {
      var f :| Supplied(u, f).Some?;
      assert f in UpdateDict(u);
    }
  }

  /** Every number a `$set` writes fits a stored 64-bit integer; otherwise
      the update cannot be encoded and nothing is written. */
  predicate Encodable(d: map<ProfileField, FieldValue>) {
    forall f :: f in d && d[f].Number? ==> FitsInt64(d[f].number)
  }

  /** Every counter of a profile fits a stored 64-bit integer. */
  predicate CountersFit(p: ProfileInfo) {
    forall f :: f != UpdatedAt && Get(p, f).Number? ==> FitsInt64(Get(p, f).number)
  }

  /** The text stored under a key after `$set`. */
  function TextAfterSet(d: map<ProfileField, FieldValue>, f: ProfileField, current: string): string {
    if f in d && d[f].Text? then d[f].text else current
  }

  /** The number stored under a key after `$set`. */
  function NumberAfterSet(d: map<ProfileField, FieldValue>, f: ProfileField, current: int): int {
    if f in d && d[f].Number? then d[f].number else current
  }

  /** The document after `$set` of the given fields. */
  function SetFields(p: ProfileInfo, d: map<ProfileField, FieldValue>): (r: ProfileInfo)
    requires forall f :: f in d ==> WellTyped(f, d[f])
    ensures forall f :: Get(r, f) == if f in d then d[f] else Get(p, f)
  {
    var r := ProfileInfo(
      TextAfterSet(d, Name, p.name),
      TextAfterSet(d, Bio, p.bio),
      TextAfterSet(d, Email, p.email),
      TextAfterSet(d, Linkedin, p.linkedin),
      TextAfterSet(d, Behance, p.behance),
      NumberAfterSet(d, CvDownloadCount, p.cvDownloadCount),
      NumberAfterSet(d, TotalProjects, p.totalProjects),
      NumberAfterSet(d, HappyClients, p.happyClients),
      NumberAfterSet(d, Awards, p.awards),
      NumberAfterSet(d, UpdatedAt, p.updatedAt));
    assert forall f :: Get(r, f) == if f in d then d[f] else Get(p, f) by {
      forall f ensures Get(r, f) == if f in d then d[f] else Get(p, f) {
        if f in d {
          assert WellTyped(f, d[f]);
        }
      }
    }
    r
  }

  /** The stored profile after a partial update: every supplied field takes
      the supplied value, every other field keeps its value; the name and the
      update time never change. */
  function ApplyUpdate(p: ProfileInfo, u: ProfileUpdate): (r: ProfileInfo)
    ensures forall f :: Supplied(u, f).Some? ==> Get(r, f) == Supplied(u, f).value
    ensures forall f :: Supplied(u, f).None? ==> Get(r, f) == Get(p, f)
    ensures r.name == p.name && r.updatedAt == p.updatedAt
  {
    var r := SetFields(p, UpdateDict(u));
    assert Get(r, Name) == Get(p, Name) && Get(r, UpdatedAt) == Get(p, UpdatedAt);
    r
  }

  /** An all-None update leaves the profile as it is. */
  lemma NoChangesKeepsProfile(p: ProfileInfo)
    ensures ApplyUpdate(p, NoChanges) == p
  {
    ProfileExtensionality(ApplyUpdate(p, NoChanges), p);
  }

  /** Applying the same partial update twice is applying it once. */
  lemma ApplyUpdateIdempotent(p: ProfileInfo, u: ProfileUpdate)
    ensures ApplyUpdate(ApplyUpdate(p, u), u) == ApplyUpdate(p, u)
  {
    ProfileExtensionality(ApplyUpdate(ApplyUpdate(p, u), u), ApplyUpdate(p, u));
  }

  /** The profile after `$inc` of the download counter: that counter is one
      higher and every other field is unchanged. */
  function Incremented(p: ProfileInfo): (r: ProfileInfo)
    ensures Get(r, CvDownloadCount) == Number(p.cvDownloadCount + 1)
    ensures forall f :: f != CvDownloadCount ==> Get(r, f) == Get(p, f)
  {
    p.(cvDownloadCount := p.cvDownloadCount + 1)
  }

  // -------------------------------------------------------- sample data

  /** The nine sample projects: three CV designs, three brand identities and
      three social media kits, in that order. */
  const SampleProjects: seq<ProjectCreate> := [
    ProjectRequest("Modern Professional CV",
      "Clean, minimalist design perfect for corporate professionals",
      "https://images.unsplash.com/photo-1586281380349-632531db7ed4?w=400&h=600&fit=crop",
      CvCategory, ["Professional", "Modern", "Clean"], Some(true)),
    ProjectRequest("Creative Designer CV",
      "Bold, colorful design for creative professionals",
      "https://images.unsplash.com/photo-1551836022-deb4988cc6c0?w=400&h=600&fit=crop",
      CvCategory, ["Creative", "Bold", "Colorful"], Some(false)),
    ProjectRequest("Executive CV Template",
      "Premium design for senior executives and leadership roles",
      "https://images.unsplash.com/photo-1507003211169-0a1dd7228f2d?w=400&h=600&fit=crop",
      CvCategory, ["Executive", "Premium", "Leadership"], Some(true)),
    ProjectRequest("Tech Startup Brand",
      "Complete brand identity for innovative tech company",
      "https://images.unsplash.com/photo-1611224923853-80b023f02d71?w=400&h=400&fit=crop",
      BrandingCategory, ["Tech", "Startup", "Innovation"], Some(true)),
    ProjectRequest("Coffee Shop Branding",
      "Warm, inviting brand identity for local coffee shop",
      "https://images.unsplash.com/photo-1559056199-641a0ac8b55e?w=400&h=400&fit=crop",
      BrandingCategory, ["Coffee", "Local", "Warm"], Some(false)),
    ProjectRequest("Fashion Brand Identity",
      "Elegant and sophisticated branding for fashion label",
      "https://images.unsplash.com/photo-1441986300917-64674bd600d8?w=400&h=400&fit=crop",
      BrandingCategory, ["Fashion", "Elegant", "Sophisticated"], Some(false)),
    ProjectRequest("Instagram Post Templates",
      "Cohesive social media templates for Instagram",
      "https://images.unsplash.com/photo-1611262588024-d12430b98920?w=400&h=400&fit=crop",
      SocialCategory, ["Instagram", "Social", "Templates"], Some(true)),
    ProjectRequest("LinkedIn Post Designs",
      "Professional post templates for LinkedIn engagement",
      "https://images.unsplash.com/photo-1611224923853-80b023f02d71?w=400&h=400&fit=crop",
      SocialCategory, ["LinkedIn", "Professional", "Engagement"], Some(false)),
    ProjectRequest("Social Media Kit",
      "Complete social media design kit for businesses",
      "https://images.unsplash.com/photo-1432888622747-4eb9a8efeb07?w=400&h=400&fit=crop",
      SocialCategory, ["Social Media", "Business", "Kit"], Some(false))
  ]

  /** The three sample testimonials; none states `is_active`. */
  const SampleTestimonials: seq<TestimonialCreate> := [
    TestimonialRequest("Sarah Johnson", "Marketing Director", "TechCorp",
      "Ashin's design work is exceptional. The CV template helped me land my dream job!",
      "https://images.unsplash.com/photo-1494790108755-2616b9de11e2?w=100&h=100&fit=crop&crop=face",
      None),
    TestimonialRequest("Michael Chen", "Startup Founder", "InnovateLab",
      "The branding identity Ashin created perfectly captures our company's vision and values.",
      "https://images.unsplash.com/photo-1507003211169-0a1dd7228f2d?w=100&h=100&fit=crop&crop=face",
      None),
    TestimonialRequest("Emma Rodriguez", "Social Media Manager", "Creative Agency",
      "The social media templates have transformed our online presence. Highly recommended!",
      "https://images.unsplash.com/photo-1438761681033-6461ffad8d80?w=100&h=100&fit=crop&crop=face",
      None)
  ]

  /** The stored sample projects, given the ids and times their factories
      produce: nine projects, three per category, each carrying its sample
      payload, its own id and its own creation time as stored. */
  function SeededProjects(origins: seq<Origin>): (r: seq<Project>)
    requires |origins| == |SampleProjects|
    ensures |r| == 9
    ensures forall i :: 0 <= i < 9 ==>
              ProjectPayload(r[i]) == SampleProjects[i] && r[i].id == origins[i].id
              && r[i].createdAt == StoredTime(origins[i].at)
    ensures forall i :: 0 <= i < 3 ==> r[i].category == CvCategory
    ensures forall i :: 3 <= i < 6 ==> r[i].category == BrandingCategory
    ensures forall i :: 6 <= i < 9 ==> r[i].category == SocialCategory
  {
    seq(|SampleProjects|, i requires 0 <= i < |SampleProjects| =>
      StoredProject(NewProject(SampleProjects[i], origins[i])))
  }

  /** The stored sample testimonials: three, each active and carrying its
      sample payload, its own id and its own creation time as stored. */
  function SeededTestimonials(origins: seq<Origin>): (r: seq<Testimonial>)
    requires |origins| == |SampleTestimonials|
    ensures |r| == 3
    ensures forall i :: 0 <= i < 3 ==>
              TestimonialPayload(r[i]) == SampleTestimonials[i] && r[i].id == origins[i].id
              && r[i].createdAt == StoredTime(origins[i].at)
    ensures forall t :: t in r ==> t.isActive
  {
    seq(|SampleTestimonials|, i requires 0 <= i < |SampleTestimonials| =>
      StoredTestimonial(NewTestimonial(SampleTestimonials[i], origins[i])))
  }

  // ---------------------------------------------------- listing filters

  /** The filter `{"category": category}`. */
  function InCategory(category: string): Project -> bool {
    (p: Project) => p.category == category
  }

  /** The filter `{"is_featured": True}`. */
  predicate IsFeatured(p: Project) {
    p.isFeatured
  }

  /** The filter `{"is_active": True}`. */
  predicate IsActive(t: Testimonial) {
    t.isActive
  }

  // ------------------------------------------------------------- the store

  class ContentStore {
    var projects: seq<Project>
    var contacts: seq<Contact>
    var testimonials: seq<Testimonial>
    var profiles: seq<ProfileInfo>

    /** A store holding the given collections. */
    constructor (projects: seq<Project>, contacts: seq<Contact>,
                 testimonials: seq<Testimonial>, profiles: seq<ProfileInfo>)
      ensures this.projects == projects && this.contacts == contacts
      ensures this.testimonials == testimonials && this.profiles == profiles
    {
      this.projects := projects;
      this.contacts := contacts;
      this.testimonials := testimonials;
      this.profiles := profiles;
    }

    // ------------------------------------------------------- read handlers

    /** All projects, capped at ListLimit: the stored ones in order, as many
        as there are up to the cap. */
    function AllProjects(): (r: seq<Project>)
      reads this
      ensures |r| == Capped(|projects|) && r <= projects
      ensures |projects| <= ListLimit ==> r == projects
    {
      ToList(projects, ListLimit)
    }

    /** The projects of one category: as many as are stored, up to the cap,
        each at most as often as it is stored; below the cap, all of them. */
    function ProjectsByCategory(category: string): (r: seq<Project>)
      reads this
      ensures |r| == Capped(|Filter(projects, InCategory(category))|)
      ensures forall p :: multiset(r)[p] <=
                if p.category == category then multiset(projects)[p] else 0
      ensures |Filter(projects, InCategory(category))| <= ListLimit ==>
                forall p :: multiset(r)[p] ==
                  if p.category == category then multiset(projects)[p] else 0
    {
      Find(projects, InCategory(category))
    }

    /** The featured projects, capped at ListLimit. */
    function FeaturedProjects(): (r: seq<Project>)
      reads this
      ensures |r| == Capped(|Filter(projects, IsFeatured)|)
      ensures forall p :: multiset(r)[p] <= if p.isFeatured then multiset(projects)[p] else 0
      ensures |Filter(projects, IsFeatured)| <= ListLimit ==>
                forall p :: multiset(r)[p] == if p.isFeatured then multiset(projects)[p] else 0
    {
      Find(projects, IsFeatured)
    }

    /** The active testimonials, capped at ListLimit. */
    function ActiveTestimonials(): (r: seq<Testimonial>)
      reads this
      ensures |r| == Capped(|Filter(testimonials, IsActive)|)
      ensures forall t :: multiset(r)[t] <= if t.isActive then multiset(testimonials)[t] else 0
      ensures |Filter(testimonials, IsActive)| <= ListLimit ==>
                forall t :: multiset(r)[t] == if t.isActive then multiset(testimonials)[t] else 0
    {
      Find(testimonials, IsActive)
    }

    /** The contacts, newest first, capped at ListLimit: as many stored
        contacts as there are up to the cap, each at most as often as it is
        stored, all of them below the cap; when the cap cuts, every contact
        left out is no newer than every contact returned. */
    function ContactsNewestFirst(): (r: seq<Contact>)
      reads this
      ensures |r| == Capped(|contacts|) && NewestFirst(r)
      ensures multiset(r) <= multiset(contacts)
      ensures |contacts| <= ListLimit ==> multiset(r) == multiset(contacts)
      ensures forall c, x :: multiset(r)[c] < multiset(contacts)[c] && x in r ==>
                x.createdAt >= c.createdAt
    {
      var sorted := SortNewestFirst(contacts);
      assert |sorted| == |multiset(sorted)| == |multiset(contacts)| == |contacts|;
      var r := ToList(sorted, ListLimit);
      assert sorted == r + sorted[|r|..];
      assert forall c :: c in contacts <==> c in sorted by {
        assert forall c :: c in contacts <==> c in multiset(contacts);
        assert forall c :: c in sorted <==> c in multiset(sorted);
      }
      assert NewestFirst(r) by {
        forall i, j | 0 <= i < j < |r| ensures r[i].createdAt >= r[j].createdAt {
          assert r[i] == sorted[i] && r[j] == sorted[j];
        }
      }
      assert r == sorted[..|r|];
      forall c, x | multiset(r)[c] < multiset(contacts)[c] && x in r
        ensures x.createdAt >= c.createdAt
      {
        assert multiset(sorted) == multiset(r) + multiset(sorted[|r|..]);
        assert c in sorted[|r|..];
        PrefixIsNewest(sorted, |r|, c, x);
      }
      r
    }

    /** The project with the given id, or 404 when none is stored. */
    function ProjectById(id: string): (r: Result<Project, HttpError>)
      reads this
      ensures r.Ok? ==> r.value in projects && r.value.id == id
      ensures r.Err? <==> forall p :: p in projects ==> p.id != id
      ensures r.Err? ==> r.error == ProjectNotFound
    {
      match ProjectIndex(projects, id)
      case None => Err(ProjectNotFound)
      case Some(i) => Ok(projects[i])
    }

    // ------------------------------------------------------ write handlers

    /** Stores and returns a new project; existing projects are unchanged.
        The stored copy keeps the creation time to the millisecond. */
    method CreateProject(data: ProjectCreate, o: Origin) returns (p: Project)
      modifies this`projects
      ensures p == NewProject(data, o)
      ensures projects == old(projects) + [StoredProject(p)]
    {
      p := NewProject(data, o);
      projects := projects + [StoredProject(p)];
    }

    /** Stores and returns a new, unread contact; the stored copy keeps the
        creation time to the millisecond. */
    method CreateContact(data: ContactCreate, o: Origin) returns (c: Contact)
      modifies this`contacts
      ensures c == NewContact(data, o)
      ensures contacts == old(contacts) + [StoredContact(c)]
    {
      c := NewContact(data, o);
      contacts := contacts + [StoredContact(c)];
    }

    /** Stores and returns a new testimonial; the stored copy keeps the
        creation time to the millisecond. */
    method CreateTestimonial(data: TestimonialCreate, o: Origin) returns (t: Testimonial)
      modifies this`testimonials
      ensures t == NewTestimonial(data, o)
      ensures testimonials == old(testimonials) + [StoredTestimonial(t)]
    {
      t := NewTestimonial(data, o);
      testimonials := testimonials + [StoredTestimonial(t)];
    }

    /** Removes the first project with the given id, or raises 404 and
        changes nothing when there is none. */
    method DeleteProject(id: string) returns (r: Result<string, HttpError>)
      modifies this`projects
      ensures r.Err? <==> forall p :: p in old(projects) ==> p.id != id
      ensures r.Err? ==> r.error == ProjectNotFound && projects == old(projects)
      ensures r.Ok? ==> r.value == ProjectDeleted
      ensures r.Ok? ==> (ProjectIndex(old(projects), id).Some?
                         && projects == RemoveAt(old(projects), ProjectIndex(old(projects), id).value))
    {
      match ProjectIndex(projects, id)
      case None =>
        r := Err(ProjectNotFound);
      case Some(i) =>
        projects := RemoveAt(projects, i);
        r := Ok(ProjectDeleted);
    }

    /** Removes the first testimonial with the given id, or raises 404 and
        changes nothing when there is none. */
    method DeleteTestimonial(id: string) returns (r: Result<string, HttpError>)
      modifies this`testimonials
      ensures r.Err? <==> forall t :: t in old(testimonials) ==> t.id != id
      ensures r.Err? ==> r.error == TestimonialNotFound && testimonials == old(testimonials)
      ensures r.Ok? ==> r.value == TestimonialDeleted
      ensures r.Ok? ==> (TestimonialIndex(old(testimonials), id).Some?
                         && testimonials == RemoveAt(old(testimonials),
                                                     TestimonialIndex(old(testimonials), id).value))
    {
      match TestimonialIndex(testimonials, id)
      case None =>
        r := Err(TestimonialNotFound);
      case Some(i) =>
        testimonials := RemoveAt(testimonials, i);
        r := Ok(TestimonialDeleted);
    }

    /** Sets the read flag of the first contact with the given id, or raises
        404 when there is none (and then changes nothing). */
    method MarkContactAsRead(id: string) returns (r: Result<string, HttpError>)
      modifies this`contacts
      ensures contacts == MarkedRead(old(contacts), id)
      ensures r.Err? <==> forall c :: c in old(contacts) ==> c.id != id
      ensures r.Err? ==> r.error == ContactNotFound && contacts == old(contacts)
      ensures r.Ok? ==> r.value == ContactMarkedRead
    {
      match ContactIndex(contacts, id)
      case None =>
        r := Err(ContactNotFound);
      case Some(i) =>
        contacts := contacts[i := contacts[i].(isRead := true)];
        r := Ok(ContactMarkedRead);
    }

    /** Returns the stored profile; when none is stored, inserts the default
        profile and returns it (the stored copy keeps its update time to the
        millisecond). */
    method GetProfile(now: Timestamp) returns (p: ProfileInfo)
      modifies this`profiles
      ensures old(profiles) == [] ==> p == DefaultProfile(now) && profiles == [StoredProfile(p)]
      ensures old(profiles) != [] ==> p == old(profiles)[0] && profiles == old(profiles)
    {
      if |profiles| == 0 {
        p := DefaultProfile(now);
        profiles := profiles + [StoredProfile(p)];
      } else {
        p := profiles[0];
      }
    }

    /** Writes the supplied fields into the stored profile and returns it;
        raises 404 when there is no profile, and fails with nothing written
        when a supplied number does not fit a stored integer. */
    method UpdateProfile(u: ProfileUpdate) returns (r: Result<ProfileInfo, HttpError>)
      modifies this`profiles
      ensures old(profiles) == [] ==> r == Err(ProfileNotFound) && profiles == old(profiles)
      ensures old(profiles) != [] && !Encodable(UpdateDict(u)) ==>
                r == Err(InternalError) && profiles == old(profiles)
      ensures old(profiles) != [] && Encodable(UpdateDict(u)) ==>
                profiles == old(profiles)[0 := ApplyUpdate(old(profiles)[0], u)]
                && r == Ok(profiles[0])
      ensures old(profiles) != [] && CountersFit(old(profiles)[0]) ==> CountersFit(profiles[0])
    {
      if |profiles| == 0 {
        return Err(ProfileNotFound);
      }
      var updateDict := UpdateDict(u);
      if updateDict != map[] {
        if !Encodable(updateDict) {
          return Err(InternalError);
        }
        profiles := profiles[0 := SetFields(profiles[0], updateDict)];
      } else {
        EmptyUpdateDict(u);
        NoChangesKeepsProfile(profiles[0]);
      }
      r := Ok(profiles[0]);
    }

    /** Adds one to the stored download counter; raises 404 when there is
        no profile, and fails with nothing written when the counter is at the
        largest stored integer. */
    method IncrementCvDownload() returns (r: Result<string, HttpError>)
      modifies this`profiles
      ensures old(profiles) == [] ==> r == Err(ProfileNotFound) && profiles == old(profiles)
      ensures old(profiles) != [] && !FitsInt64(old(profiles)[0].cvDownloadCount + 1) ==>
                r == Err(InternalError) && profiles == old(profiles)
      ensures old(profiles) != [] && FitsInt64(old(profiles)[0].cvDownloadCount + 1) ==>
                profiles == old(profiles)[0 := Incremented(old(profiles)[0])]
                && r == Ok(CvDownloadIncremented)
      ensures old(profiles) != [] && CountersFit(old(profiles)[0]) ==> CountersFit(profiles[0])
    {
      if |profiles| == 0 {
        return Err(ProfileNotFound);
      }
      if !FitsInt64(profiles[0].cvDownloadCount + 1) {
        return Err(InternalError);
      }
      profiles := profiles[0 := Incremented(profiles[0])];
      r := Ok(CvDownloadIncremented);
    }

    /** Seeds the sample projects into an empty project collection and the
        sample testimonials into an empty testimonial collection; a collection
        that holds anything is left as it is. */
    method InitializeSampleData(projectOrigins: seq<Origin>, testimonialOrigins: seq<Origin>)
      requires |projectOrigins| == |SampleProjects|
      requires |testimonialOrigins| == |SampleTestimonials|
      modifies this`projects, this`testimonials
      ensures old(projects) == [] ==> projects == SeededProjects(projectOrigins)
      ensures old(projects) != [] ==> projects == old(projects)
      ensures old(testimonials) == [] ==> testimonials == SeededTestimonials(testimonialOrigins)
      ensures old(testimonials) != [] ==> testimonials == old(testimonials)
    {
      if |projects| == 0 {
        for k := 0 to |SampleProjects|
          invariant projects == SeededProjects(projectOrigins)[..k]
          invariant testimonials == old(testimonials)
        {
          projects := projects + [StoredProject(NewProject(SampleProjects[k], projectOrigins[k]))];
        }
      }
      ghost var seeded := projects;
      if |testimonials| == 0 {
        for k := 0 to |SampleTestimonials|
          invariant testimonials == SeededTestimonials(testimonialOrigins)[..k]
          invariant projects == seeded
        {
          testimonials := testimonials + [StoredTestimonial(NewTestimonial(SampleTestimonials[k], testimonialOrigins[k]))];
        }
      }
    }
  }

  /** Marking a contact read and then marking it again leaves the state of
      the first call, and the second call gives the same response as the
      first. Only the contacts change. */
  method MarkTwice(store: ContentStore, id: string)
      returns (first: Result<string, HttpError>, second: Result<string, HttpError>)
    modifies store`contacts
    ensures store.contacts == MarkedRead(old(store.contacts), id)
    ensures first == second
  {
    first := store.MarkContactAsRead(id);
    MarkReadIdempotent(old(store.contacts), id);
    second := store.MarkContactAsRead(id);
  }
}
