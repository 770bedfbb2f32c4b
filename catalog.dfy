/**
 * The records the read-only routes of app/routes/specifics.js look up,
 * as the tables hold them. Each table is a sequence in storage order; a
 * lookup by id, `findOne` and `exists` see the first matching row, and
 * the list lookups keep storage order. Ids that may be NULL are
 * `Option<int>`, and a lookup by a NULL id matches no row.
 */
module Catalog {
  import opened Wrappers
  import opened Js
  import opened Sql

  datatype UserRec = UserRec(userId: int, firstName: Json, lastName: Option<string>, email: Json,
                             phoneId: Option<int>, entrepreneurId: Option<int>, contributorId: Option<int>)
  datatype PhoneRec = PhoneRec(phoneId: int, phoneNumber: Json)
  datatype EntrepreneurRec = EntrepreneurRec(entrepreneurId: int, gender: Json, passportId: Option<int>,
                                             addressId: Option<int>, startupId: Option<int>)
  datatype ContributorRec = ContributorRec(contributorId: int, gender: Json, passportId: Option<int>)
  /** A startup: the ids it refers to, and its remaining columns as a row. */
  datatype StartupRec = StartupRec(startupId: int, regionId: Option<int>, categoryId: Option<int>,
                                   agreementId: Option<int>, columns: Row)
  /** A contribution; `startDate` is in milliseconds since the epoch. */
  datatype ContributionRec = ContributionRec(contributionId: int, startupId: Option<int>, contributorId: Option<int>,
                                             startDate: int, amount: int)
  /** A region or a category. */
  datatype NamedRec = NamedRec(id: int, name: Json)
  /** A passport, an address or an agreement: shown whole, so kept as its row. */
  datatype DocRec = DocRec(id: int, row: Row)

  datatype Catalog = Catalog(
    users: seq<UserRec>, phones: seq<PhoneRec>, entrepreneurs: seq<EntrepreneurRec>,
    contributors: seq<ContributorRec>, startups: seq<StartupRec>, contributions: seq<ContributionRec>,
    regions: seq<NamedRec>, categories: seq<NamedRec>,
    passports: seq<DocRec>, addresses: seq<DocRec>, agreements: seq<DocRec>)

  /** The first row that matches, if any. */
  function Find<T>(s: seq<T>, matches: T -> bool): (r: Option<T>)
    ensures r.Some? ==> exists i :: 0 <= i < |s| && s[i] == r.value && matches(s[i]) &&
                                    forall j :: 0 <= j < i ==> !matches(s[j])
    ensures r.None? <==> forall i :: 0 <= i < |s| ==> !matches(s[i])
  {
    if s == [] then None
    else if matches(s[0]) then Some(s[0])
    else
      var r := Find(s[1..], matches);
      assert r.Some? ==> exists i :: 0 <= i < |s| && s[i] == r.value && matches(s[i]) &&
                                    forall j :: 0 <= j < i ==> !matches(s[j]) by {
        if r.Some? {
          var i :| 0 <= i < |s[1..]| && s[1..][i] == r.value && matches(s[1..][i]) &&
                   forall j :: 0 <= j < i ==> !matches(s[1..][j]);
          assert s[i + 1] == r.value && forall j :: 0 <= j < i + 1 ==> !matches(s[j]);
        }
      }
      r
  }

  /** The matching rows, in storage order: each one as often as it occurs. */
  function Filter<T>(s: seq<T>, keep: T -> bool): (r: seq<T>)
    ensures |r| <= |s|
    ensures forall i :: 0 <= i < |r| ==> r[i] in s && keep(r[i])
    ensures forall i :: 0 <= i < |s| && keep(s[i]) ==> s[i] in r
  {
    if s == [] then [] else (if keep(s[0]) then [s[0]] else []) + Filter(s[1..], keep)
  }

  /** A kept row occurs in the result as often as in the table; any other row not at all. */
  lemma {:induction false} FilterOccurrences<T>(s: seq<T>, keep: T -> bool, x: T)
    ensures multiset(Filter(s, keep))[x] == if keep(x) then multiset(s)[x] else 0
    decreases |s|
  {
    if s != [] {
      assert s == [s[0]] + s[1..];
      FilterOccurrences(s[1..], keep, x);
    }
  }

  /** Filtering a concatenation filters each part. */
  lemma {:induction false} FilterAppend<T>(a: seq<T>, b: seq<T>, keep: T -> bool)
    ensures Filter(a + b, keep) == Filter(a, keep) + Filter(b, keep)
    decreases |a|
  {
    if a == [] {
      assert a + b == b;
    } else {
      assert (a + b)[1..] == a[1..] + b;
      FilterAppend(a[1..], b, keep);
    }
  }

  /** The positions of `s` whose row `keep` accepts. */
  function Matching<T>(s: seq<T>, keep: T -> bool): set<int>
  {
    set i | 0 <= i < |s| && keep(s[i])
  }

  /** As many rows are kept as there are positions that match. */
  lemma {:induction false} FilterCount<T>(s: seq<T>, keep: T -> bool)
    ensures |Filter(s, keep)| == |Matching(s, keep)|
    decreases |s|
  {
    if s == [] {
      assert Matching(s, keep) == {};
    } else {
      var n := |s| - 1;
      var front := s[..n];
      assert s == front + [s[n]];
      FilterAppend(front, [s[n]], keep);
      FilterCount(front, keep);
      assert [s[n]][1..] == [];
      if keep(s[n]) {
        assert Matching(s, keep) == Matching(front, keep) + {n};
      } else {
        assert Matching(s, keep) == Matching(front, keep);
      }
    }
  }

  /** Truthiness of an id column: NULL and 0 are falsy. */
  predicate IdTruthy(id: Option<int>)
  {
    id.Some? && id.value != 0
  }

  /** An id column as it is serialised. */
  function IdJson(id: Option<int>): Json
  {
    if id.Some? then JNum(id.value) else JNull
  }

  function UserById(c: Catalog, id: Option<int>): Option<UserRec>
  {
    if id.None? then None else var k := id.value; Find(c.users, (u: UserRec) => u.userId == k)
  }

  /** `User.findOne({ entrepreneur_id })`. */
  function UserByEntrepreneur(c: Catalog, entrepreneurId: int): Option<UserRec>
  {
    Find(c.users, (u: UserRec) => u.entrepreneurId == Some(entrepreneurId))
  }

  /** `User.findOne({ contributor_id })`. */
  function UserByContributor(c: Catalog, contributorId: int): Option<UserRec>
  {
    Find(c.users, (u: UserRec) => u.contributorId == Some(contributorId))
  }

  function PhoneById(c: Catalog, id: Option<int>): Option<PhoneRec>
  {
    if id.None? then None else var k := id.value; Find(c.phones, (p: PhoneRec) => p.phoneId == k)
  }

  function EntrepreneurById(c: Catalog, id: Option<int>): Option<EntrepreneurRec>
  {
    if id.None? then None else var k := id.value; Find(c.entrepreneurs, (e: EntrepreneurRec) => e.entrepreneurId == k)
  }

  /** `Entrepreneur.findOne({ startup_id })`. */
  function EntrepreneurByStartup(c: Catalog, startupId: int): Option<EntrepreneurRec>
  {
    Find(c.entrepreneurs, (e: EntrepreneurRec) => e.startupId == Some(startupId))
  }

  function ContributorById(c: Catalog, id: Option<int>): Option<ContributorRec>
  {
    if id.None? then None else var k := id.value; Find(c.contributors, (x: ContributorRec) => x.contributorId == k)
  }

  function StartupById(c: Catalog, id: Option<int>): Option<StartupRec>
  {
    if id.None? then None else var k := id.value; Find(c.startups, (s: StartupRec) => s.startupId == k)
  }

  function ContributionById(c: Catalog, id: Option<int>): Option<ContributionRec>
  {
    if id.None? then None else var k := id.value; Find(c.contributions, (x: ContributionRec) => x.contributionId == k)
  }

  function NamedById(table: seq<NamedRec>, id: Option<int>): Option<NamedRec>
  {
    if id.None? then None else var k := id.value; Find(table, (x: NamedRec) => x.id == k)
  }

  function DocById(table: seq<DocRec>, id: Option<int>): Option<DocRec>
  {
    if id.None? then None else var k := id.value; Find(table, (x: DocRec) => x.id == k)
  }

  /** `Contribution.findByContributorId(id)`. */
  function ContributionsByContributor(c: Catalog, id: Option<int>): seq<ContributionRec>
  {
    if id.None? then [] else var k := id.value; Filter(c.contributions, (x: ContributionRec) => x.contributorId == Some(k))
  }

  /** `Contribution.findByStartupId(id)`. */
  function ContributionsByStartup(c: Catalog, id: Option<int>): seq<ContributionRec>
  {
    if id.None? then [] else var k := id.value; Filter(c.contributions, (x: ContributionRec) => x.startupId == Some(k))
  }

  /** `Contribution.exists({ startup_id, contributor_id })`. */
  predicate ContributionExists(c: Catalog, startupId: int, contributorId: int)
  {
    exists i :: 0 <= i < |c.contributions| &&
      c.contributions[i].startupId == Some(startupId) && c.contributions[i].contributorId == Some(contributorId)
  }
}
