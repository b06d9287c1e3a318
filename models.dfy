/** The records the content store keeps, with the defaults the record
    declarations give their fields. Generated ids and creation times are
    inputs here: a record receives them as an `Origin`. */
module Models {
  import opened Wrappers

  /** A point in time as the server's clock gives it: microseconds since
      the epoch. A stored document keeps it to the millisecond only. */
  type Timestamp = int

  /** The id and creation time the default factories give a new record. */
  datatype Origin = Origin(id: string, at: Timestamp)

  /** The three category names the site uses; `category` itself is an
      unconstrained string. */
  const CvCategory: string := "cv"
  const BrandingCategory: string := "branding"
  const SocialCategory: string := "social"

  // ---------------------------------------------------------------- projects

  datatype Project = Project(
    id: string,
    title: string,
    description: string,
    image: string,
    category: string,
    tags: seq<string>,
    createdAt: Timestamp,
    isFeatured: bool)

  /** The payload of a project creation request: a project without id and
      creation time. */
  datatype ProjectCreate = ProjectCreate(
    title: string,
    description: string,
    image: string,
    category: string,
    tags: seq<string>,
    isFeatured: bool)

  /** A creation payload as parsed from a request body, where `is_featured`
      may be absent. */
  function ProjectRequest(title: string, description: string, image: string,
                          category: string, tags: seq<string>,
                          isFeatured: Option<bool>): (c: ProjectCreate)
    ensures c.isFeatured <==> isFeatured == Some(true)
    ensures c.title == title && c.description == description && c.image == image
    ensures c.category == category && c.tags == tags
  {
    ProjectCreate(title, description, image, category, tags, isFeatured.GetOr(false))
  }

  /** The payload part of a stored project. */
  function ProjectPayload(p: Project): ProjectCreate {
    ProjectCreate(p.title, p.description, p.image, p.category, p.tags, p.isFeatured)
  }

  /** Builds a project from a creation payload: every payload field is kept
      and only the id and the creation time are added. */
  function NewProject(c: ProjectCreate, o: Origin): (p: Project)
    ensures ProjectPayload(p) == c
    ensures p.id == o.id && p.createdAt == o.at
  {
    Project(o.id, c.title, c.description, c.image, c.category, c.tags, o.at, c.isFeatured)
  }

  /** A project is determined by its payload, its id and its creation time. */
  lemma ProjectPayloadComplete(p: Project)
    ensures NewProject(ProjectPayload(p), Origin(p.id, p.createdAt)) == p
  {
  }

  // ---------------------------------------------------------------- contacts

  datatype Contact = Contact(
    id: string,
    name: string,
    email: string,
    message: string,
    createdAt: Timestamp,
    isRead: bool)

  /** A contact submission carries only a name, an email and a message. */
  datatype ContactCreate = ContactCreate(name: string, email: string, message: string)

  /** Builds a stored contact from a submission: unread, with the
      submission's three fields. */
  function NewContact(c: ContactCreate, o: Origin): (r: Contact)
    ensures !r.isRead
    ensures ContactCreate(r.name, r.email, r.message) == c
    ensures r.id == o.id && r.createdAt == o.at
  {
    Contact(o.id, c.name, c.email, c.message, o.at, false)
  }

  // ------------------------------------------------------------ testimonials

  datatype Testimonial = Testimonial(
    id: string,
    name: string,
    role: string,
    company: string,
    message: string,
    avatar: string,
    createdAt: Timestamp,
    isActive: bool)

  datatype TestimonialCreate = TestimonialCreate(
    name: string,
    role: string,
    company: string,
    message: string,
    avatar: string,
    isActive: bool)

  /** A testimonial payload as parsed from a request body, where `is_active`
      may be absent: it is active unless explicitly deactivated. */
  function TestimonialRequest(name: string, role: string, company: string,
                              message: string, avatar: string,
                              isActive: Option<bool>): (c: TestimonialCreate)
    ensures c.isActive <==> isActive != Some(false)
    ensures c.name == name && c.role == role && c.company == company
    ensures c.message == message && c.avatar == avatar
  {
    TestimonialCreate(name, role, company, message, avatar, isActive.GetOr(true))
  }

  function TestimonialPayload(t: Testimonial): TestimonialCreate {
    TestimonialCreate(t.name, t.role, t.company, t.message, t.avatar, t.isActive)
  }

  /** Builds a stored testimonial from a payload: every payload field,
      `is_active` included, is kept; only id and creation time are added. */
  function NewTestimonial(c: TestimonialCreate, o: Origin): (t: Testimonial)
    ensures TestimonialPayload(t) == c
    ensures t.id == o.id && t.createdAt == o.at
  {
    Testimonial(o.id, c.name, c.role, c.company, c.message, c.avatar, o.at, c.isActive)
  }

  // ----------------------------------------------------------------- profile

  datatype ProfileInfo = ProfileInfo(
    name: string,
    bio: string,
    email: string,
    linkedin: string,
    behance: string,
    cvDownloadCount: int,
    totalProjects: int,
    happyClients: int,
    awards: int,
    updatedAt: Timestamp)

  const DefaultName: string := "Ashin Krishna"
  const DefaultEmail: string := "ashin.krishna@example.com"
  const DefaultLinkedin: string := "https://linkedin.com/in/ashin-krishna"
  const DefaultBehance: string := "https://behance.net/ashin-krishna"

  /** A profile built from its one required field: fixed contact defaults and
      every counter at zero. */
  function NewProfile(bio: string, updatedAt: Timestamp): (p: ProfileInfo)
    ensures p.bio == bio && p.updatedAt == updatedAt
    ensures p.name == DefaultName && p.email == DefaultEmail
    ensures p.linkedin == DefaultLinkedin && p.behance == DefaultBehance
    ensures p.cvDownloadCount == 0 && p.totalProjects == 0
    ensures p.happyClients == 0 && p.awards == 0
  {
    ProfileInfo(DefaultName, bio, DefaultEmail, DefaultLinkedin, DefaultBehance, 0, 0, 0, 0, updatedAt)
  }

  /** A partial profile update: every field optional, and no field for the
      name or the update time. */
  datatype ProfileUpdate = ProfileUpdate(
    bio: Option<string>,
    email: Option<string>,
    linkedin: Option<string>,
    behance: Option<string>,
    cvDownloadCount: Option<int>,
    totalProjects: Option<int>,
    happyClients: Option<int>,
    awards: Option<int>)

  /** The update every field of which is left at its default, None. */
  const NoChanges: ProfileUpdate :=
    ProfileUpdate(None, None, None, None, None, None, None, None)

  /** The stored fields of a profile, as the keys of its document. */
  datatype ProfileField =
    | Name | Bio | Email | Linkedin | Behance
    | CvDownloadCount | TotalProjects | HappyClients | Awards | UpdatedAt

  /** Every key of a profile document. */
  const ProfileFields: set<ProfileField> :=
    {Name, Bio, Email, Linkedin, Behance, CvDownloadCount, TotalProjects, HappyClients, Awards, UpdatedAt}

  lemma ProfileFieldsComplete()
    ensures forall f :: f in ProfileFields
  {
    forall f ensures f in ProfileFields {
      match f
      case Name => case Bio => case Email => case Linkedin => case Behance =>
      case CvDownloadCount => case TotalProjects => case HappyClients =>
      case Awards => case UpdatedAt =>
    }
  }

  /** A stored field value. */
  datatype FieldValue = Text(text: string) | Number(number: int)

  predicate IsTextField(f: ProfileField) {
    f.Name? || f.Bio? || f.Email? || f.Linkedin? || f.Behance?
  }

  /** A value fits a field when it has the field's declared type. */
  predicate WellTyped(f: ProfileField, v: FieldValue) {
    v.Text? <==> IsTextField(f)
  }

  /** The value stored under one key of a profile document. */
  function Get(p: ProfileInfo, f: ProfileField): (v: FieldValue)
    ensures WellTyped(f, v)
  {
    match f
    case Name => Text(p.name)
    case Bio => Text(p.bio)
    case Email => Text(p.email)
    case Linkedin => Text(p.linkedin)
    case Behance => Text(p.behance)
    case CvDownloadCount => Number(p.cvDownloadCount)
    case TotalProjects => Number(p.totalProjects)
    case HappyClients => Number(p.happyClients)
    case Awards => Number(p.awards)
    case UpdatedAt => Number(p.updatedAt)
  }

  /** Two profiles that agree on every key are the same profile. */
  lemma ProfileExtensionality(p: ProfileInfo, q: ProfileInfo)
    requires forall f :: Get(p, f) == Get(q, f)
    ensures p == q
  {
    assert Get(p, Name) == Get(q, Name);
    assert Get(p, Bio) == Get(q, Bio);
    assert Get(p, Email) == Get(q, Email);
    assert Get(p, Linkedin) == Get(q, Linkedin);
    assert Get(p, Behance) == Get(q, Behance);
    assert Get(p, CvDownloadCount) == Get(q, CvDownloadCount);
    assert Get(p, TotalProjects) == Get(q, TotalProjects);
    assert Get(p, HappyClients) == Get(q, HappyClients);
    assert Get(p, Awards) == Get(q, Awards);
    assert Get(p, UpdatedAt) == Get(q, UpdatedAt);
  }

  /** The value a partial update supplies for a key, if any. The name and the
      update time have no field in an update, so it never supplies them. */
  function Supplied(u: ProfileUpdate, f: ProfileField): (v: Option<FieldValue>)
    ensures f.Name? || f.UpdatedAt? ==> v == None
    ensures v.Some? ==> WellTyped(f, v.value)
  {
    match f
    case Name => None
    case Bio => if u.bio.Some? then Some(Text(u.bio.value)) else None
    case Email => if u.email.Some? then Some(Text(u.email.value)) else None
    case Linkedin => if u.linkedin.Some? then Some(Text(u.linkedin.value)) else None
    case Behance => if u.behance.Some? then Some(Text(u.behance.value)) else None
    case CvDownloadCount =>
      if u.cvDownloadCount.Some? then Some(Number(u.cvDownloadCount.value)) else None
    case TotalProjects =>
      if u.totalProjects.Some? then Some(Number(u.totalProjects.value)) else None
    case HappyClients =>
      if u.happyClients.Some? then Some(Number(u.happyClients.value)) else None
    case Awards => if u.awards.Some? then Some(Number(u.awards.value)) else None
    case UpdatedAt => None
  }

  /** The all-default update, and only it, supplies no field. */
  lemma NoChangesSuppliesNothing(u: ProfileUpdate)
    ensures (forall f :: Supplied(u, f) == None) <==> u == NoChanges
  {
    if forall f :: Supplied(u, f) == None {
      assert Supplied(u, Bio) == None && Supplied(u, Email) == None;
      assert Supplied(u, Linkedin) == None && Supplied(u, Behance) == None;
      assert Supplied(u, CvDownloadCount) == None && Supplied(u, TotalProjects) == None;
      assert Supplied(u, HappyClients) == None && Supplied(u, Awards) == None;
    }
  }
}
