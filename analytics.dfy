/**
 * The normalizer of lib/gitem/analytics.py: each endpoint's raw records are
 * mapped, through a fixed ordered list of (platform name, human-readable
 * name) pairs, to records with exactly those human-readable keys in that
 * order; paged results are flattened into one list.
 *
 * A paged result is the drained generator: the pages it yielded and the
 * failure it ended with, if any (`Api.Paged`). Records are normalized page by
 * page as they are pulled, so a missing field on an earlier page is raised
 * before a failure of a later request.
 */
module Analytics {
  import opened Values
  import opened ApiErrors
  import opened Api

  /** A normalized record: human-readable names with their values, in declared order. */
  type Record = seq<(string, Scalar)>

  /** A declared mapping: (platform field name, human-readable name) pairs, in output order. */
  type Fields = seq<(string, string)>

  const OrganizationFields: Fields := [
    ("name", "Organization Name"),
    ("description", "Description"),
    ("blog", "Website"),
    ("html_url", "Github URL"),
    ("created_at", "Created"),
    ("updated_at", "Last Updated"),
    ("email", "Email Address"),
    ("location", "Location"),
    ("login", "Username"),
    ("public_repos", "# of Public Repositories")
  ]

  const RepositoryFields: Fields := [
    ("name", "Repository Name"),
    ("description", "Description"),
    ("html_url", "Github URL"),
    ("watchers_count", "Watchers"),
    ("stargazers_count", "Stars"),
    ("forks_count", "Forks"),
    ("created_at", "Created"),
    ("updated_at", "Last Updated"),
    ("pushed_at", "Last Pushed")
  ]

  const MemberFields: Fields := [
    ("login", "Username"),
    ("site_admin", "Site Administrator"),
    ("html_url", "Github URL")
  ]

  const ContributorFields: Fields := [
    ("login", "Username"),
    ("contributions", "Contributions")
  ]

  /** The human-readable names of a mapping, in order. */
  function HumanNames(fields: Fields): (r: seq<string>)
    ensures |r| == |fields| && forall i :: 0 <= i < |fields| ==> r[i] == fields[i].1
  {
    seq(|fields|, i requires 0 <= i < |fields| => fields[i].1)
  }

  /** The keys of a record, in order. */
  function Keys(r: Record): (ks: seq<string>)
    ensures |ks| == |r| && forall i :: 0 <= i < |r| ==> ks[i] == r[i].0
  {
    seq(|r|, i requires 0 <= i < |r| => r[i].0)
  }

  predicate Distinct(names: seq<string>)
  {
    forall i, j :: 0 <= i < j < |names| ==> names[i] != names[j]
  }

  /** Every declared field of `fields` is present in `raw`. */
  predicate Complete(fields: Fields, raw: RawRecord)
  {
    forall i :: 0 <= i < |fields| ==> fields[i].0 in raw
  }

  /**
   * One raw record through a mapping: the declared values under their
   * human-readable names, or the first declared field that is missing.
   */
  function Normalize(fields: Fields, raw: RawRecord): (r: Outcome<Record>)
    ensures r.Ok? <==> Complete(fields, raw)
    ensures r.Ok? ==> |r.value| == |fields|
    ensures r.Ok? ==> forall i :: 0 <= i < |fields| ==> r.value[i] == (fields[i].1, raw[fields[i].0])
    ensures r.Fail? ==> exists i :: 0 <= i < |fields| && fields[i].0 !in raw
                                    && (forall j :: 0 <= j < i ==> fields[j].0 in raw)
                                    && r.failure == MissingField(fields[i].0)
    decreases |fields|
  {
    if fields == [] then Ok([])
    else if fields[0].0 !in raw then Fail(MissingField(fields[0].0))
    else
      match Normalize(fields[1..], raw)
      case Fail(f) =>
        assert forall i :: 1 <= i < |fields| ==> fields[i] == fields[1..][i - 1];
        Fail(f)
      case Ok(rest) => Ok([(fields[0].1, raw[fields[0].0])] + rest)
  }

  /** A normalized record has exactly the declared human-readable keys, in declared order. */
  lemma NormalizedKeys(fields: Fields, raw: RawRecord)
    requires Normalize(fields, raw).Ok?
    ensures Keys(Normalize(fields, raw).value) == HumanNames(fields)
  {
  }

  /**
   * The result depends only on the declared fields: two raw records that agree
   * on which declared fields they hold, and on their values, normalize alike.
   */
  lemma {:induction false} NormalizeReadsOnlyDeclared(fields: Fields, raw1: RawRecord, raw2: RawRecord)
    requires forall i :: 0 <= i < |fields| ==> (fields[i].0 in raw1 <==> fields[i].0 in raw2)
    requires forall i :: 0 <= i < |fields| && fields[i].0 in raw1 ==> raw1[fields[i].0] == raw2[fields[i].0]
    ensures Normalize(fields, raw1) == Normalize(fields, raw2)
    decreases |fields|
  {
    if fields != [] && fields[0].0 in raw1 {
      forall i | 0 <= i < |fields| - 1
        ensures fields[1..][i].0 in raw1 <==> fields[1..][i].0 in raw2
        ensures fields[1..][i].0 in raw1 ==> raw1[fields[1..][i].0] == raw2[fields[1..][i].0]
      {
        assert fields[1..][i] == fields[i + 1];
      }
      NormalizeReadsOnlyDeclared(fields[1..], raw1, raw2);
    }
  }

  /** Extra raw fields, under names the mapping does not declare, are ignored. */
  lemma ExtraFieldsIgnored(fields: Fields, raw: RawRecord, extra: RawRecord)
    requires forall i :: 0 <= i < |fields| ==> fields[i].0 !in extra
    ensures Normalize(fields, raw + extra) == Normalize(fields, raw)
  {
    NormalizeReadsOnlyDeclared(fields, raw + extra, raw);
  }

  /** The records of one page: an array's objects. Iterating an object yields its keys, which cannot be indexed by name. */
  function PageRecords(body: Body): (r: Outcome<seq<RawRecord>>)
    ensures body.Array? ==> r == Ok(body.items)
    ensures body.Object? ==> (r.Ok? <==> body.fields == map[])
    ensures r.Ok? ==> body.Array? || r.value == []
  {
    match body
    case Array(items) => Ok(items)
    case Object(fields) => if fields == map[] then Ok([]) else Fail(WrongShape)
  }

  /** A list of raw records through a mapping, stopping at the first record that fails. */
  function NormalizeAll(fields: Fields, raws: seq<RawRecord>): (r: Outcome<seq<Record>>)
    ensures r.Ok? <==> forall k :: 0 <= k < |raws| ==> Complete(fields, raws[k])
    ensures r.Ok? ==> |r.value| == |raws|
    ensures r.Ok? ==> forall k :: 0 <= k < |raws| ==> Normalize(fields, raws[k]) == Ok(r.value[k])
    ensures r.Fail? ==> exists k :: 0 <= k < |raws| && Normalize(fields, raws[k]) == Fail(r.failure)
                                    && forall j :: 0 <= j < k ==> Complete(fields, raws[j])
    decreases |raws|
  {
    if raws == [] then Ok([])
    else
      match Normalize(fields, raws[0])
      case Fail(f) => Fail(f)
      case Ok(first) =>
        match NormalizeAll(fields, raws[1..])
        case Fail(f) =>
          assert forall k :: 1 <= k < |raws| ==> raws[k] == raws[1..][k - 1];
          Fail(f)
        case Ok(rest) => Ok([first] + rest)
  }

  /** Every record of a normalized list has the same keys, in the same order. */
  lemma UniformKeys(fields: Fields, raws: seq<RawRecord>)
    requires NormalizeAll(fields, raws).Ok?
    ensures forall k :: 0 <= k < |raws| ==> Keys(NormalizeAll(fields, raws).value[k]) == HumanNames(fields)
  {
    forall k | 0 <= k < |raws|
      ensures Keys(NormalizeAll(fields, raws).value[k]) == HumanNames(fields)
    {
      NormalizedKeys(fields, raws[k]);
    }
  }

  /** Normalizing a concatenation: the first part's failure, else the second's, else the concatenated results. */
  lemma {:induction false} NormalizeAllAppend(fields: Fields, a: seq<RawRecord>, b: seq<RawRecord>)
    ensures NormalizeAll(fields, a + b) ==
      match NormalizeAll(fields, a)
      case Fail(f) => Fail(f)
      case Ok(ra) =>
        match NormalizeAll(fields, b)
        case Fail(f) => Fail(f)
        case Ok(rb) => Ok(ra + rb)
    decreases |a|
  {
    if a == [] {
      assert a + b == b;
      var rest := NormalizeAll(fields, b);
      if rest.Ok? {
        assert [] + rest.value == rest.value;
      }
    } else {
      assert (a + b)[0] == a[0];
      assert (a + b)[1..] == a[1..] + b;
      NormalizeAllAppend(fields, a[1..], b);
      var head := Normalize(fields, a[0]);
      var tail := NormalizeAll(fields, a[1..]);
      var rest := NormalizeAll(fields, b);
      if head.Ok? && tail.Ok? && rest.Ok? {
        assert [head.value] + (tail.value + rest.value) == ([head.value] + tail.value) + rest.value;
      }
    }
  }

  /** The pages of a paged result through a mapping: the records of each page, pages in order. */
  function NormalizePageList(fields: Fields, pages: seq<(Body, int)>): (r: Outcome<seq<Record>>)
    decreases |pages|
  {
    if pages == [] then Ok([])
    else
      match PageRecords(pages[0].0)
      case Fail(f) => Fail(f)
      case Ok(raws) =>
        match NormalizeAll(fields, raws)
        case Fail(f) => Fail(f)
        case Ok(first) =>
          match NormalizePageList(fields, pages[1..])
          case Fail(f) => Fail(f)
          case Ok(rest) => Ok(first + rest)
  }

  /** The raw records of all pages, in page order, or the first page that is not a list of records. */
  function AllRecords(pages: seq<(Body, int)>): Outcome<seq<RawRecord>>
    decreases |pages|
  {
    if pages == [] then Ok([])
    else
      match PageRecords(pages[0].0)
      case Fail(f) => Fail(f)
      case Ok(raws) =>
        match AllRecords(pages[1..])
        case Fail(f) => Fail(f)
        case Ok(rest) => Ok(raws + rest)
  }

  /**
   * Flattening commutes with normalizing: when every page is a list of
   * records, normalizing page by page is normalizing the concatenated records.
   * With NormalizeAll's contract: the output has one record per raw record, in
   * page order and in order within each page.
   */
  lemma {:induction false} PagesFlatten(fields: Fields, pages: seq<(Body, int)>)
    requires AllRecords(pages).Ok?
    ensures NormalizePageList(fields, pages) == NormalizeAll(fields, AllRecords(pages).value)
    decreases |pages|
  {
    if pages != [] {
      var raws := PageRecords(pages[0].0).value;
      PagesFlatten(fields, pages[1..]);
      NormalizeAllAppend(fields, raws, AllRecords(pages[1..]).value);
    }
  }

  /** Statuses are discarded: only the bodies of the pages matter. */
  lemma {:induction false} StatusesIgnored(fields: Fields, pages1: seq<(Body, int)>, pages2: seq<(Body, int)>)
    requires |pages1| == |pages2| && forall i :: 0 <= i < |pages1| ==> pages1[i].0 == pages2[i].0
    ensures NormalizePageList(fields, pages1) == NormalizePageList(fields, pages2)
    decreases |pages1|
  {
    if pages1 != [] {
      StatusesIgnored(fields, pages1[1..], pages2[1..]);
    }
  }

  /** A paged result through a mapping: the normalized pages, unless a page fails first or the generator ended in a failure. */
  function NormalizePages(fields: Fields, paged: Paged): (r: Outcome<seq<Record>>)
    ensures NormalizePageList(fields, paged.pages).Fail? ==> r == NormalizePageList(fields, paged.pages)
    ensures NormalizePageList(fields, paged.pages).Ok? && paged.end.Some? ==> r == Fail(paged.end.value)
    ensures r.Ok? <==> NormalizePageList(fields, paged.pages).Ok? && paged.end.None?
  {
    match NormalizePageList(fields, paged.pages)
    case Fail(f) => Fail(f)
    case Ok(records) => if paged.end.Some? then Fail(paged.end.value) else Ok(records)
  }

  /** `get_organization_information`: the organization's record, or the call's failure. */
  function OrganizationInformation(response: Outcome<(Body, int)>): (r: Outcome<Record>)
    ensures response.Fail? ==> r == Fail(response.failure)
    ensures response.Ok? && response.value.0.Array? ==> r == Fail(WrongShape)
    ensures response.Ok? && response.value.0.Object? ==> r == Normalize(OrganizationFields, response.value.0.fields)
    ensures r.Ok? ==> Keys(r.value) == HumanNames(OrganizationFields)
  {
    match response
    case Fail(f) => Fail(f)
    case Ok(answer) =>
      match answer.0
      case Array(_) => Fail(WrongShape)
      case Object(raw) => Normalize(OrganizationFields, raw)
  }

  /** `get_organization_repositories`. */
  function OrganizationRepositories(paged: Paged): (r: Outcome<seq<Record>>)
    ensures r.Ok? ==> forall k :: 0 <= k < |r.value| ==> Keys(r.value[k]) == HumanNames(RepositoryFields)
  {
    var r := NormalizePages(RepositoryFields, paged);
    PagedKeys(RepositoryFields, paged.pages);
    r
  }

  /** `get_organization_members`. */
  function OrganizationMembers(paged: Paged): (r: Outcome<seq<Record>>)
    ensures r.Ok? ==> forall k :: 0 <= k < |r.value| ==> Keys(r.value[k]) == HumanNames(MemberFields)
  {
    var r := NormalizePages(MemberFields, paged);
    PagedKeys(MemberFields, paged.pages);
    r
  }

  /** `get_repository_contributors`. */
  function RepositoryContributors(paged: Paged): (r: Outcome<seq<Record>>)
    ensures r.Ok? ==> forall k :: 0 <= k < |r.value| ==> Keys(r.value[k]) == HumanNames(ContributorFields)
  {
    var r := NormalizePages(ContributorFields, paged);
    PagedKeys(ContributorFields, paged.pages);
    r
  }

  /** Every record normalized from pages has the declared keys in order. */
  lemma {:induction false} PagedKeys(fields: Fields, pages: seq<(Body, int)>)
    ensures NormalizePageList(fields, pages).Ok? ==>
      forall k :: 0 <= k < |NormalizePageList(fields, pages).value| ==>
        Keys(NormalizePageList(fields, pages).value[k]) == HumanNames(fields)
    decreases |pages|
  {
    if pages != [] {
      PagedKeys(fields, pages[1..]);
      var raws := PageRecords(pages[0].0);
      if raws.Ok? && NormalizeAll(fields, raws.value).Ok? {
        UniformKeys(fields, raws.value);
      }
    }
  }

  /** The declared mappings: their sizes, their output names in order, and no name used twice. */
  lemma DeclaredMappings()
    ensures HumanNames(OrganizationFields) == ["Organization Name", "Description", "Website", "Github URL",
      "Created", "Last Updated", "Email Address", "Location", "Username", "# of Public Repositories"]
    ensures HumanNames(RepositoryFields) == ["Repository Name", "Description", "Github URL", "Watchers",
      "Stars", "Forks", "Created", "Last Updated", "Last Pushed"]
    ensures HumanNames(MemberFields) == ["Username", "Site Administrator", "Github URL"]
    ensures HumanNames(ContributorFields) == ["Username", "Contributions"]
    ensures Distinct(HumanNames(OrganizationFields)) && Distinct(HumanNames(RepositoryFields))
    ensures Distinct(HumanNames(MemberFields)) && Distinct(HumanNames(ContributorFields))
  {
  }
}
