/** The document-collection operations the request handlers rely on, over a
    collection held as a sequence of records in stored order: a query
    (`find` with a filter), the 1000-document cap of `to_list`, `find_one`
    (the first match), `delete_one` (removal of the first match) and the
    newest-first sort of contacts. */
module Collection {
  import opened Wrappers
  import opened Models

  /** The number of documents every listing handler materialises. */
  const ListLimit: nat := 1000

  /** The records that satisfy `keep`, in stored order: each matching record
      as many times as it is stored, and nothing else. */
  function Filter<T(!new)>(s: seq<T>, keep: T -> bool): (r: seq<T>)
    ensures |r| <= |s|
    ensures forall x :: multiset(r)[x] == if keep(x) then multiset(s)[x] else 0
    ensures forall x :: x in r <==> x in s && keep(x)
  {
    if s == [] then []
    else
      assert s == [s[0]] + s[1..];
      if keep(s[0]) then [s[0]] + Filter(s[1..], keep)
      else Filter(s[1..], keep)
  }

  /** The number of records a listing materialises out of `n` candidates. */
  function Capped(n: nat): nat {
    if n <= ListLimit then n else ListLimit
  }

  /** At most the first `limit` records of a cursor. */
  function ToList<T>(s: seq<T>, limit: nat): (r: seq<T>)
    ensures r <= s
    ensures |r| == if |s| <= limit then |s| else limit
  {
    if |s| <= limit then s else s[..limit]
  }

  /** A listing: the records that satisfy `keep`, capped at ListLimit. It
      holds as many records as match, up to the cap, each at most as often as
      it is stored and matches; below the cap it holds every match. */
  function Find<T(!new)>(s: seq<T>, keep: T -> bool): (r: seq<T>)
    ensures |r| == Capped(|Filter(s, keep)|)
    ensures forall x :: multiset(r)[x] <= if keep(x) then multiset(s)[x] else 0
    ensures |Filter(s, keep)| <= ListLimit ==>
              forall x :: multiset(r)[x] == if keep(x) then multiset(s)[x] else 0
    ensures forall x :: x in r ==> x in s && keep(x)
  {
    var matches := Filter(s, keep);
    var r := ToList(matches, ListLimit);
    assert matches == r + matches[|r|..];
    r
  }

  /** The position of the first record that satisfies `keep`, as `find_one`,
      `delete_one` and `update_one` select it. */
  function FirstMatch<T>(s: seq<T>, keep: T -> bool): (r: Option<nat>)
    ensures r.None? <==> forall i :: 0 <= i < |s| ==> !keep(s[i])
    ensures r.Some? ==> r.value < |s| && keep(s[r.value])
    ensures r.Some? ==> forall j :: 0 <= j < r.value ==> !keep(s[j])
  {
    if s == [] then None
    else if keep(s[0]) then Some(0)
    else match FirstMatch(s[1..], keep)
      case None => None
      case Some(i) => Some(i + 1)
  }

  /** The collection without the record at position `i`. */
  function RemoveAt<T>(s: seq<T>, i: nat): (r: seq<T>)
    requires i < |s|
    ensures |r| == |s| - 1
    ensures multiset(r) + multiset{s[i]} == multiset(s)
  {
    assert s == s[..i] + [s[i]] + s[i + 1..];
    s[..i] + s[i + 1..]
  }

  // ---------------------------------------------- what a document keeps

  /** Microseconds per millisecond: a stored datetime keeps whole
      milliseconds only (the UTC datetime of the BSON specification is a
      64-bit count of milliseconds). */
  const MicrosPerMilli: nat := 1000

  /** A time as a stored document keeps it: rounded down to a whole
      millisecond. It is unchanged exactly when it already is one. */
  function StoredTime(t: Timestamp): (r: Timestamp)
    ensures r % MicrosPerMilli == 0
    ensures r <= t < r + MicrosPerMilli
    ensures r == t <==> t % MicrosPerMilli == 0
  {
    t - t % MicrosPerMilli
  }

  /** A project as inserted: only its creation time changes, to the stored
      time. */
  function StoredProject(p: Project): (r: Project)
    ensures r.(createdAt := p.createdAt) == p
    ensures r.createdAt == StoredTime(p.createdAt)
    ensures r == p <==> p.createdAt % MicrosPerMilli == 0
  {
    p.(createdAt := StoredTime(p.createdAt))
  }

  // The record types share no field update that could be written once for
  // all of them, so each stored form has its own function.

  /** A contact as inserted: only its creation time changes. */
  function StoredContact(c: Contact): (r: Contact)
    ensures r.(createdAt := c.createdAt) == c
    ensures r.createdAt == StoredTime(c.createdAt)
    ensures r == c <==> c.createdAt % MicrosPerMilli == 0
  {
    c.(createdAt := StoredTime(c.createdAt))
  }

  /** A testimonial as inserted: only its creation time changes. */
  function StoredTestimonial(t: Testimonial): (r: Testimonial)
    ensures r.(createdAt := t.createdAt) == t
    ensures r.createdAt == StoredTime(t.createdAt)
    ensures r == t <==> t.createdAt % MicrosPerMilli == 0
  {
    t.(createdAt := StoredTime(t.createdAt))
  }

  /** A profile as inserted: only its update time changes. */
  function StoredProfile(p: ProfileInfo): (r: ProfileInfo)
    ensures r.(updatedAt := p.updatedAt) == p
    ensures r.updatedAt == StoredTime(p.updatedAt)
    ensures r == p <==> p.updatedAt % MicrosPerMilli == 0
  {
    p.(updatedAt := StoredTime(p.updatedAt))
  }

  /** The range of the widest integer a document can hold. */
  const MinInt64: int := -0x8000_0000_0000_0000
  const MaxInt64: int := 0x7FFF_FFFF_FFFF_FFFF

  predicate FitsInt64(n: int) {
    MinInt64 <= n <= MaxInt64
  }

  // ------------------------------------------------- contacts, newest first

  predicate NewestFirst(s: seq<Contact>) {
    forall i, j :: 0 <= i < j < |s| ==> s[i].createdAt >= s[j].createdAt
  }

  /** Inserts a contact into a newest-first sequence, after every contact that
      is strictly newer. */
  function Insert(c: Contact, s: seq<Contact>): (r: seq<Contact>)
    requires NewestFirst(s)
    ensures NewestFirst(r)
    ensures multiset(r) == multiset(s) + multiset{c}
    ensures forall x :: x in r ==> x == c || x in s
  {
    if s == [] then [c]
    else if c.createdAt >= s[0].createdAt then
      PrependNewest(c, s);
      [c] + s
    else
      var rest := Insert(c, s[1..]);
      HeadIsNewest(s);
      assert rest[0] in rest;
      PrependNewest(s[0], rest);
      assert s == [s[0]] + s[1..];
      [s[0]] + rest
  }

  /** The head of a newest-first sequence is no older than any of its
      records. */
  lemma HeadIsNewest(s: seq<Contact>)
    requires NewestFirst(s) && s != []
    ensures forall x :: x in s ==> s[0].createdAt >= x.createdAt
  {
    forall x | x in s ensures s[0].createdAt >= x.createdAt {
      var k :| 0 <= k < |s| && s[k] == x;
    }
  }

  /** A record no older than the head of a newest-first sequence can be put
      in front of it. */
  lemma PrependNewest(h: Contact, s: seq<Contact>)
    requires NewestFirst(s)
    requires s != [] ==> h.createdAt >= s[0].createdAt
    ensures NewestFirst([h] + s)
  {
    forall i, j | 0 <= i < j < |[h] + s|
      ensures ([h] + s)[i].createdAt >= ([h] + s)[j].createdAt
    {
      if i == 0 && j > 1 {
        assert s[0].createdAt >= s[j - 1].createdAt;
      }
    }
  }

  /** The contacts sorted by creation time, newest first. */
  function SortNewestFirst(s: seq<Contact>): (r: seq<Contact>)
    ensures NewestFirst(r)
    ensures multiset(r) == multiset(s)
  {
    if s == [] then []
    else
      assert s == [s[0]] + s[1..];
      Insert(s[0], SortNewestFirst(s[1..]))
  }

  /** Every record of a newest-first sequence that lies beyond a prefix is no
      newer than any record of that prefix. */
  lemma PrefixIsNewest(s: seq<Contact>, n: nat, c: Contact, x: Contact)
    requires NewestFirst(s) && n <= |s|
    requires c in s[n..] && x in s[..n]
    ensures x.createdAt >= c.createdAt
  {
    var j :| 0 <= j < |s| - n && s[n..][j] == c;
    var i :| 0 <= i < n && s[..n][i] == x;
    assert s[i] == x && s[n + j] == c;
  }
}
