# Portfolio content store and section state, in Dafny

This project models the logic of a designer's portfolio site:

- the content API's request handlers (projects, contacts, testimonials and a
  singleton profile), modelled as operations on an in-memory store whose
  collections are sequences of records;
- the records those handlers exchange, with their field defaults;
- two client-side state machines: the projects section and the contact form.

The projects section loads three category buckets once on mount. It also holds
a loading flag, the project shown in the detail overlay, the active tab and a
one-shot visibility flag. The contact form holds three fields, a submitting
flag and a simulated send.

Files:

- `wrappers.dfy`: `Option` and `Result`.
- `models.dfy` (module `Models`): the records of `backend/models.py`. Ids and
  creation times are inputs, carried by an `Origin` value. A profile is also
  viewed as a document, a map from `ProfileField` keys to `FieldValue`s.
- `collection.dfy` (module `Collection`): the document-store operations the
  handlers use: a filtered `find`, the `to_list(1000)` cap, `find_one`,
  `delete_one` and the newest-first sort. Each works on a sequence in stored
  order.
- `server.dfy` (module `Server`): class `ContentStore` with one member per
  handler. Read handlers are functions of the store. Write handlers are
  methods that reassign exactly the collection they change. The module also
  holds the sample data and the profile-update semantics.
- `projects_section.dfy` (module `ProjectsView`): class `ProjectsSection`,
  plus the per-tab view choice as a pure function.
- `contact_section.dfy` (module `ContactView`): class `ContactSection`.

Points of the code worth knowing before reading the model:

- A failed projects load has no separate state. The buckets stay as they
  were, a notice is raised and `loading` is cleared, so a failed first load
  shows every category's empty state.
- The contact form's simulated send has no failure branch.
- The categories are `cv`, `branding` and `social`.
- No client code keeps a CV-download counter; only the server-side increment
  is modelled.
- A stored document keeps a datetime to the millisecond and an integer in 64
  bits. Times are microseconds since the epoch, as the server's clock gives
  them. So each stored record's creation time is the returned record's time
  rounded down to a whole millisecond. A number outside the 64-bit range
  cannot be written, and the handler fails with the framework's 500
  response.

## Model

| member | source | states |
|---|---|---|
| `Models.ProjectRequest` | backend/models.py:16-22 | a project payload is featured exactly when `is_featured` is supplied as true; the other fields are as given |
| `Models.NewProject` | backend/models.py:6-14 | a new project keeps every payload field and only adds the factory id and creation time |
| `Models.ProjectPayloadComplete` | backend/models.py:6-22 | a project is exactly its creation payload plus id and creation time |
| `Models.NewContact` | backend/models.py:24-35 | a new contact is unread, carries the submission's name, email and message, and gets the factory id and time |
| `Models.TestimonialRequest` | backend/models.py:47-53 | a testimonial payload is active unless `is_active` is supplied as false |
| `Models.NewTestimonial` | backend/models.py:37-45 | a new testimonial keeps every payload field, `is_active` included, and only adds id and time |
| `Models.NewProfile` | backend/models.py:55-65 | a profile built from its one required field, `bio`, has the fixed name, email, LinkedIn and Behance defaults and all four counters at 0 |
| `Models.Supplied` | backend/models.py:67-75 | an update never supplies the name or the update time (it has no field for them); a supplied value has its field's type |
| `Models.NoChangesSuppliesNothing` | backend/models.py:67-75 | the all-None update, and only it, supplies no field |
| `Models.ProfileExtensionality` | backend/models.py:55-65 | two profiles with equal values under every document key are equal |
| `Collection.Filter` | backend/server.py:36 | a query returns each matching record exactly as many times as it is stored, and no other record |
| `Collection.ToList` | backend/server.py:31 | the cursor cap returns a prefix of at most the limit, the whole cursor when it fits |
| `Collection.Find` | backend/server.py:34-42 | a capped listing holds min(number of matches, 1000) records, each at most as often as it is stored and matches; below the cap it holds every match as often as it is stored |
| `Collection.StoredTime` | backend/server.py:48 | a stored time is the given one rounded down to a whole millisecond, and unchanged exactly when it is one already |
| `Collection.StoredProject` | backend/server.py:48 | an inserted project differs from the given one only in its creation time, which is rounded down to the millisecond |
| `Collection.StoredContact` | backend/server.py:70 | an inserted contact differs from the given one only in its creation time, which is rounded down to the millisecond |
| `Collection.StoredTestimonial` | backend/server.py:98 | an inserted testimonial differs from the given one only in its creation time, which is rounded down to the millisecond |
| `Collection.StoredProfile` | backend/server.py:120 | an inserted profile differs from the given one only in its update time, which is rounded down to the millisecond |
| `Collection.FirstMatch` | backend/server.py:53 | the selected position is the first match; none only when nothing matches |
| `Collection.RemoveAt` | backend/server.py:60 | removal drops exactly one occurrence of the record at that position |
| `Collection.SortNewestFirst` | backend/server.py:75 | the sorted contacts are a permutation of the stored ones, in non-increasing `created_at` order |
| `Collection.PrefixIsNewest` | backend/server.py:75 | a contact past a newest-first prefix is no newer than any contact in the prefix |
| `Server.ProjectIndex` | backend/server.py:53 | the position of the first project with the id; none exactly when no stored project has it |
| `Server.TestimonialIndex` | backend/server.py:103 | the position of the first testimonial with the id; none exactly when no stored testimonial has it |
| `Server.ContactIndex` | backend/server.py:80-81 | the position of the first contact with the id; none exactly when no stored contact has it |
| `Server.MarkedRead` | backend/server.py:78-86 | marking read sets the flag of the first contact with the id and changes no other field and no other contact |
| `Server.MarkReadIdempotent` | backend/server.py:78-86 | marking the same contact read twice equals marking it once, and the contact is still found the second time |
| `Server.DefaultProfile` | backend/server.py:113-119 | the profile created on first read has the default bio, 150 projects, 50 clients, 5 awards, 0 downloads and the contact defaults |
| `Server.UpdateDict` | backend/server.py:132 | the fields an update writes are exactly those it supplies as non-None, with the supplied values |
| `Server.EmptyUpdateDict` | backend/server.py:132-134 | an update writes nothing exactly when all its fields are None |
| `Server.SetFields` | backend/server.py:134 | `$set` gives each listed key its new value and leaves every other key unchanged |
| `Server.ApplyUpdate` | backend/server.py:124-138 | a partial update overwrites exactly the supplied fields and never the name or the update time |
| `Server.NoChangesKeepsProfile` | backend/server.py:132-134 | an all-None update leaves the profile unchanged |
| `Server.ApplyUpdateIdempotent` | backend/server.py:124-138 | applying the same partial update twice equals applying it once |
| `Server.Incremented` | backend/server.py:142-145 | the download counter rises by exactly 1 and every other field is unchanged |
| `Server.SeededProjects` | backend/server.py:188-268 | the sample projects are nine, three per category in the order cv, branding, social, each with its sample payload, its own id and its own creation time as stored |
| `Server.SeededTestimonials` | backend/server.py:273-302 | the sample testimonials are three, all active, each with its sample payload, its own id and its own creation time as stored |
| `Server.ContentStore.AllProjects` | backend/server.py:29-32 | the full listing is the prefix of the stored projects of length min(number stored, 1000) |
| `Server.ContentStore.ProjectsByCategory` | backend/server.py:34-37 | the listing holds min(number in the category, 1000) projects, each of the category and at most as often as stored; below the cap, exactly the category's projects |
| `Server.ContentStore.FeaturedProjects` | backend/server.py:39-42 | the listing holds min(number featured, 1000) projects, each featured and at most as often as stored; below the cap, exactly the featured projects |
| `Server.ContentStore.ActiveTestimonials` | backend/server.py:89-92 | the listing holds min(number active, 1000) testimonials, each active and at most as often as stored; below the cap, exactly the active ones |
| `Server.ContentStore.ContactsNewestFirst` | backend/server.py:73-76 | min(number stored, 1000) contacts, a sub-multiset of the stored ones (all of them below the cap), newest first; when the cap cuts, every copy of a contact that is left out is no newer than any contact returned |
| `Server.ContentStore.ProjectById` | backend/server.py:51-56 | the result is a stored project with the requested id, or 404 "Project not found" exactly when none has it |
| `Server.ContentStore.CreateProject` | backend/server.py:44-49 | exactly one project is appended, the returned one with its creation time rounded down to the millisecond; the existing projects are unchanged |
| `Server.ContentStore.CreateContact` | backend/server.py:66-71 | exactly one unread contact is appended, the returned one with its creation time rounded down to the millisecond |
| `Server.ContentStore.CreateTestimonial` | backend/server.py:94-99 | exactly one testimonial is appended, the returned one with its creation time rounded down to the millisecond |
| `Server.ContentStore.DeleteProject` | backend/server.py:58-63 | the first project with the id is removed; 404 "Project not found" with the collection unchanged exactly when none has it |
| `Server.ContentStore.DeleteTestimonial` | backend/server.py:101-106 | the first testimonial with the id is removed; 404 "Testimonial not found" with the collection unchanged exactly when none has it |
| `Server.ContentStore.MarkContactAsRead` | backend/server.py:78-86 | the contacts become `MarkedRead` of the old ones; 404 "Contact not found" exactly when no contact has the id |
| `Server.ContentStore.GetProfile` | backend/server.py:109-122 | with no profile stored, the default is returned and stored with its update time rounded down to the millisecond; otherwise the stored profile is returned and nothing is written |
| `Server.ContentStore.UpdateProfile` | backend/server.py:124-138 | 404 "Profile not found" with nothing written when no profile exists; 500 with nothing written when a supplied number is outside 64 bits; otherwise the stored profile becomes `ApplyUpdate` of itself and is returned; counters that fit 64 bits keep fitting |
| `Server.ContentStore.IncrementCvDownload` | backend/server.py:140-148 | 404 when no profile exists; 500 with nothing written when the counter is at the 64-bit maximum; otherwise only the stored profile's counter rises by 1; counters that fit 64 bits keep fitting |
| `Server.ContentStore.InitializeSampleData` | backend/server.py:184-304 | each sample set is seeded only into an empty collection, and a non-empty collection is left untouched |
| `Server.MarkTwice` | backend/server.py:78-86 | a repeated mark-as-read returns the same response as the first and leaves the state of the first |
| `ProjectsView.Settled` | frontend/src/components/ProjectsSection.jsx:45-58 | on success each bucket holds its own category's fetch result, in order; on any failure no bucket changes |
| `ProjectsView.TabContent` | frontend/src/components/ProjectsSection.jsx:209-248 | a panel shows the spinner exactly while loading, the bucket's cards exactly when loaded and non-empty, otherwise its category's empty state |
| `ProjectsView.ProjectsSection.constructor` | frontend/src/components/ProjectsSection.jsx:10-18 | on mount the buckets are empty, loading is true, the CV tab is active, nothing is selected and the section is not revealed |
| `ProjectsView.ProjectsSection.OnIntersection` | frontend/src/components/ProjectsSection.jsx:20-36 | visibility is raised on intersection and never lowered |
| `ProjectsView.ProjectsSection.StartLoading` | frontend/src/components/ProjectsSection.jsx:44 | loading is raised before the fetches |
| `ProjectsView.ProjectsSection.FinishLoading` | frontend/src/components/ProjectsSection.jsx:45-61 | the buckets become `Settled`; an error notice exactly when a fetch failed; loading is false either way |
| `ProjectsView.ProjectsSection.SelectProject` | frontend/src/components/ProjectsSection.jsx:70 | the clicked project becomes the selection; nothing else changes |
| `ProjectsView.ProjectsSection.CloseProject` | frontend/src/components/ProjectsSection.jsx:251-254 | closing clears the selection; nothing else changes |
| `ProjectsView.ProjectsSection.ChangeTab` | frontend/src/components/ProjectsSection.jsx:195 | switching tabs changes only the active tab |
| `ProjectsView.ProjectsSection.Label` | frontend/src/components/ProjectsSection.jsx:197-205 | each tab trigger shows its title and the length of its bucket |
| `ProjectsView.MountAndLoad` | frontend/src/components/ProjectsSection.jsx:38-248 | all panels show the spinner until the load settles; afterwards a failed load shows every empty state, and a successful one shows each category's own results or its empty state |
| `ProjectsView.BrowseWithoutFetching` | frontend/src/components/ProjectsSection.jsx:195-254 | selecting, switching tabs and closing leave buckets, loading and visibility unchanged |
| `ContactView.FormData.With` | frontend/src/components/ContactSection.jsx:37-43 | an input change sets only the named field; the other two are unchanged |
| `ContactView.ContactSection.constructor` | frontend/src/components/ContactSection.jsx:11-17 | on mount the three fields are empty, the form is not submitting and the section is not revealed |
| `ContactView.ContactSection.OnIntersection` | frontend/src/components/ContactSection.jsx:19-35 | visibility is raised on intersection and never lowered |
| `ContactView.ContactSection.HandleInputChange` | frontend/src/components/ContactSection.jsx:37-43 | the form becomes `With` of the old form |
| `ContactView.ContactSection.SubmitDisabled` | frontend/src/components/ContactSection.jsx:121-123 | the submit button is disabled exactly while submitting |
| `ContactView.ContactSection.HandleSubmit` | frontend/src/components/ContactSection.jsx:45-50 | submitting is raised and the simulated send is scheduled; the fields are kept |
| `ContactView.ContactSection.PressSubmit` | frontend/src/components/ContactSection.jsx:78-123 | a press reaches the handler exactly when the form is not already submitting and passes constraint validation (no empty field, a valid email); otherwise nothing changes |
| `ContactView.ContactSection.SendCompleted` | frontend/src/components/ContactSection.jsx:50-56 | on completion the success notice is shown, the fields are cleared and submitting ends; there is no failure outcome |
| `ContactView.SubmitCycle` | frontend/src/components/ContactSection.jsx:37-125 | a form is sent exactly when it passes constraint validation; then the typed values stay while the send is pending, a second press is ignored, and after completion the form is empty and enabled; otherwise nothing is sent and the values stay |

## Left out

- The database driver, environment loading, CORS, logging, and the startup and
  shutdown hooks (backend/server.py:1-26, 155-182). These are I/O. The store is
  an object holding sequences, and startup seeding is the
  `InitializeSampleData` operation.
- The health-check handler (backend/server.py:151-153). It returns a constant
  and touches no state.
- Id and timestamp generation. The `uuid4` and `utcnow` factories are not
  modelled; callers pass each id and time as an `Origin`. So the model makes
  no claim that ids are unique.
- Route dispatch. `/projects/{category}` is declared before
  `/projects/featured`. The handlers are modelled, not the router, and nothing
  is claimed about what an HTTP request for the featured path reaches.
- Query result order. A `find` without a sort is modelled in stored order,
  which the database does not promise. The full project listing is claimed to
  be the stored-order prefix of the projects, so that claim rests on this
  convention. The filtered listings claim no order. The contact listing's
  newest-first order is what its sort promises. The model orders contacts with equal
  `created_at` one fixed way; the database may order them differently.
- Server.ContentStore.UpdateProfile: the model writes into the first stored
  profile document (and, for `get_profile`, reads the first one). With more
  than one profile document, which one the database picks is not modelled.
  Taken one at a time, the handlers insert a profile only into an empty
  collection.
- Concurrent requests. Every handler is modelled as one atomic step on the
  store, but each one awaits the database between its reads and writes. Two
  interleavings are therefore not modelled. Two first `get_profile` calls on
  an empty collection can both insert a default profile (backend/server.py:111,
  120). `update_profile` can return a profile that another request changed
  between its write and its re-read (backend/server.py:134, 137).
- Request validation. Malformed bodies are rejected before a handler runs, so
  every payload in the model is well formed and well typed.
- The HTTP client module (frontend/src/services/api.js). It only logs and
  re-raises errors. Each category fetch is an input to `FinishLoading`: a
  result or an error description.
- Asynchrony. `Promise.all` is one step given all three outcomes, and the
  contact form's `setTimeout` is the `SendCompleted` step. A load settling
  after the section unmounts is not modelled.
- The email check. Whether the browser accepts the email input's value is an
  input, `emailValid`, to `PressSubmit`; the address grammar is not modelled.
- ContactView.ContactSection.HandleSubmit requires that the form is not
  already submitting. This holds because the browser does not submit a form
  whose submit button is disabled, and that behaviour is assumed, not modelled.
- Notices (toasts), markup, animation and the observer's DOM lookup and
  disconnect. The toasts appear only as returned strings.
- The static sections (hero, about, footer, the page) and the mock catalogue.
  They hold no state logic. The "download CV" button only logs, so there is
  no client-side counter to model.
