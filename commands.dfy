/**
 * The three commands of lib/gitem/__main__.py and the exception handling
 * around them. A command is a function of what the API and the analytics
 * layer hand it: each fetched value is an `Outcome`, and the fetch that
 * raised is the `Fail` one. Running a command prints a sequence of documents
 * and may end with an exception, which is a `Run`.
 */
module Commands {
  import opened Values
  import opened ApiErrors
  import opened Api
  import opened Analytics
  import opened Documents
  import opened OutputStdout
  import opened Ranking
  import opened Repr

  /** How many entries a listing shows without the verbose flag. */
  const ConciseCount: nat := 5

  /** The documents printed, in order, and the exception that ended the command, if any. */
  datatype Run = Run(docs: seq<Mapping>, raised: Option<Failure>)

  /** `xs[:len(xs) if verbose else CONCISE_COUNT]`. */
  function Shown<T>(xs: seq<T>, verbose: bool): (r: seq<T>)
    ensures r <= xs
    ensures verbose ==> r == xs
    ensures !verbose && |xs| <= ConciseCount ==> r == xs
    ensures !verbose && |xs| > ConciseCount ==> |r| == ConciseCount
  {
    if verbose || |xs| <= ConciseCount then xs else xs[..ConciseCount]
  }

  /**
   * Steps carried out one after the other: every document up to the first
   * failing step is printed, and that step's failure is raised.
   */
  function Perform(steps: seq<Outcome<Mapping>>): (r: Run)
    ensures |r.docs| <= |steps|
    ensures forall i :: 0 <= i < |r.docs| ==> steps[i] == Ok(r.docs[i])
    ensures r.raised.None? <==> |r.docs| == |steps|
    ensures r.raised.Some? ==> steps[|r.docs|] == Fail(r.raised.value)
    decreases |steps|
  {
    if steps == [] then Run([], None)
    else
      match steps[0]
      case Fail(f) => Run([], Some(f))
      case Ok(m) =>
        var rest := Perform(steps[1..]);
        assert forall i :: 1 <= i < |steps| ==> steps[i] == steps[1..][i - 1];
        Run([m] + rest.docs, rest.raised)
  }

  /** When step `k` is the first to fail, exactly the `k` documents before it are printed. */
  lemma PerformStopsAt(steps: seq<Outcome<Mapping>>, k: nat)
    requires k < |steps| && steps[k].Fail? && forall i :: 0 <= i < k ==> steps[i].Ok?
    ensures |Perform(steps).docs| == k && Perform(steps).raised == Some(steps[k].failure)
  {
  }

  /** `outputter.output(info)` for a fetched record. */
  function RecordStep(info: Outcome<Record>): Outcome<Mapping>
  {
    match info
    case Fail(f) => Fail(f)
    case Ok(record) => Ok(RecordDoc(record))
  }

  /** A listing of the shown records, keyed by `keyName`, after fetching them. */
  function ListingStep(title: string, keyName: string, records: Outcome<seq<Record>>, verbose: bool): Outcome<Mapping>
  {
    match records
    case Fail(f) => Fail(f)
    case Ok(rs) => Listing(title, keyName, Shown(rs, verbose))
  }

  /** The same listing, after sorting the fetched records by `key`. */
  function SortedListingStep(title: string, keyName: string, records: Outcome<seq<Record>>,
                             key: Record -> Outcome<Scalar>, verbose: bool): Outcome<Mapping>
  {
    match records
    case Fail(f) => Fail(f)
    case Ok(rs) =>
      match SortedBy(rs, key)
      case Fail(f) => Fail(f)
      case Ok(sorted) => Listing(title, keyName, Shown(sorted, verbose))
  }

  function OrganizationSteps(info: Outcome<Record>, members: Outcome<seq<Record>>, repositories: Outcome<seq<Record>>,
                             verbose: bool): seq<Outcome<Mapping>>
  {
    [
      RecordStep(info),
      SortedListingStep("Public Members", "Username", members, AdministratorKey, verbose),
      SortedListingStep("Public Repositories", "Repository Name", repositories, Popularity, verbose)
    ]
  }

  /** The `organization` command, given what the analytics layer returns. */
  function OrganizationRun(info: Outcome<Record>, members: Outcome<seq<Record>>, repositories: Outcome<seq<Record>>, verbose: bool): (r: Run)
    ensures |r.docs| <= 3 && (r.raised.None? <==> |r.docs| == 3)
    ensures info.Fail? ==> r == Run([], Some(info.failure))
    ensures |r.docs| >= 1 ==> info.Ok? && r.docs[0] == RecordDoc(info.value)
    ensures info.Ok? && members.Fail? ==> |r.docs| == 1 && r.raised == Some(members.failure)
    ensures |r.docs| >= 2 ==> members.Ok? && SortedBy(members.value, AdministratorKey).Ok?
    ensures |r.docs| >= 2 && repositories.Fail? ==> |r.docs| == 2 && r.raised == Some(repositories.failure)
  {
    var steps := OrganizationSteps(info, members, repositories, verbose);
    if steps[0].Ok? && steps[1].Fail? then PerformStopsAt(steps, 1); Perform(steps)
    else if steps[0].Ok? && steps[1].Ok? && steps[2].Fail? then PerformStopsAt(steps, 2); Perform(steps)
    else Perform(steps)
  }

  /** The `organization` command. */
  function Organization(info: Outcome<(Body, int)>, members: Paged, repositories: Paged, verbose: bool): Run
  {
    OrganizationRun(OrganizationInformation(info), OrganizationMembers(members), OrganizationRepositories(repositories), verbose)
  }

  /** The `repository` command; the repository's own record is fetched by code outside this model. */
  function Repository(info: Outcome<Record>, contributors: Paged, verbose: bool): (r: Run)
    ensures |r.docs| <= 2 && (r.raised.None? <==> |r.docs| == 2)
    ensures info.Fail? ==> r == Run([], Some(info.failure))
    ensures |r.docs| >= 1 ==> info.Ok? && r.docs[0] == RecordDoc(info.value)
    ensures info.Ok? && RepositoryContributors(contributors).Fail? ==>
              |r.docs| == 1 && r.raised == Some(RepositoryContributors(contributors).failure)
  {
    var steps := [
      RecordStep(info),
      ListingStep("Contributors", "Username", RepositoryContributors(contributors), verbose)
    ];
    if steps[0].Ok? && steps[1].Fail? then PerformStopsAt(steps, 1); Perform(steps)
    else Perform(steps)
  }

  /** Every record has a `keyName` entry, and no two of those values are equal under Python's `==`. */
  predicate UniqueKeys(records: seq<Record>, keyName: string)
  {
    (forall i :: 0 <= i < |records| ==> Field(records[i], keyName).Ok?) &&
    forall i, j :: 0 <= i < j < |records| ==>
      !ScalarEquals(Field(records[i], keyName).value, Field(records[j], keyName).value)
  }

  lemma UniqueKeysPrefix(records: seq<Record>, keyName: string, n: nat)
    requires UniqueKeys(records, keyName) && n <= |records|
    ensures UniqueKeys(records[..n], keyName)
  {
    assert forall i :: 0 <= i < n ==> records[..n][i] == records[i];
  }

  /**
   * A listing of records with unique keys holds one entry per record, in
   * record order, each keyed by the record's key and holding its items.
   */
  lemma ListingOfUnique(title: string, keyName: string, records: seq<Record>)
    requires UniqueKeys(records, keyName)
    ensures Listing(title, keyName, records).Ok?
    ensures var m := Listing(title, keyName, records).value;
      |m.entries| == 1 && m.entries[0].0 == Str(title) && m.entries[0].1.Dict? &&
      var inner := m.entries[0].1.mapping.entries;
      |inner| == |records| &&
      forall i :: 0 <= i < |records| ==>
        inner[i] == (Field(records[i], keyName).value, Dict(RecordDoc(records[i])))
  {
    var keyed := KeyedEntries(records, keyName);
    assert keyed.Ok?;
    assert DistinctKeys(keyed.value) by {
      forall i, j | 0 <= i < j < |keyed.value|
        ensures !ScalarEquals(keyed.value[i].0, keyed.value[j].0)
      {
        assert Field(records[i], keyName) == Ok(keyed.value[i].0);
        assert Field(records[j], keyName) == Ok(keyed.value[j].0);
      }
    }
    ListingEntries(title, keyName, records);
    FromPairsIdentity(keyed.value);
  }

  /** `doc` is the listing `title` of exactly these records, in this order. */
  predicate Lists(doc: Mapping, title: string, records: seq<Record>)
  {
    |doc.entries| == 1 && doc.entries[0].0 == Str(title) && doc.entries[0].1.Dict? &&
    |doc.entries[0].1.mapping.entries| == |records| &&
    forall i :: 0 <= i < |records| ==> doc.entries[0].1.mapping.entries[i].1 == Dict(RecordDoc(records[i]))
  }

  /** A listing step over records with unique keys lists the shown records. */
  lemma ListingStepLists(title: string, keyName: string, records: seq<Record>, verbose: bool)
    requires UniqueKeys(records, keyName)
    ensures ListingStep(title, keyName, Ok(records), verbose).Ok?
    ensures Lists(ListingStep(title, keyName, Ok(records), verbose).value, title, Shown(records, verbose))
  {
    var shown := Shown(records, verbose);
    UniqueKeysPrefix(records, keyName, |shown|);
    assert records[..|shown|] == shown;
    ListingOfUnique(title, keyName, shown);
  }

  /** A sorted listing step lists the first shown records of the sorted order. */
  lemma SortedListingStepLists(title: string, keyName: string, records: seq<Record>,
                               key: Record -> Outcome<Scalar>, verbose: bool)
    requires SortedBy(records, key).Ok? && UniqueKeys(SortedBy(records, key).value, keyName)
    ensures SortedListingStep(title, keyName, Ok(records), key, verbose).Ok?
    ensures Lists(SortedListingStep(title, keyName, Ok(records), key, verbose).value, title,
                  Shown(SortedBy(records, key).value, verbose))
  {
    ListingStepLists(title, keyName, SortedBy(records, key).value, verbose);
  }

  /** When every step succeeds, every document is printed and nothing is raised. */
  lemma PerformAll(steps: seq<Outcome<Mapping>>)
    requires forall i :: 0 <= i < |steps| ==> steps[i].Ok?
    ensures Perform(steps).raised.None? && |Perform(steps).docs| == |steps|
    ensures forall i :: 0 <= i < |steps| ==> Perform(steps).docs[i] == steps[i].value
  {
  }

  /**
   * The contributors listing shows contributors in the order the API returned
   * them: all of them when verbose, otherwise the first five.
   */
  lemma ContributorsInApiOrder(info: Outcome<Record>, contributors: Paged, verbose: bool)
    requires info.Ok? && RepositoryContributors(contributors).Ok?
    requires UniqueKeys(RepositoryContributors(contributors).value, "Username")
    ensures Repository(info, contributors, verbose).raised.None?
    ensures Lists(Repository(info, contributors, verbose).docs[1], "Contributors",
                  Shown(RepositoryContributors(contributors).value, verbose))
  {
    var steps := [
      RecordStep(info),
      ListingStep("Contributors", "Username", RepositoryContributors(contributors), verbose)
    ];
    ListingStepLists("Contributors", "Username", RepositoryContributors(contributors).value, verbose);
    PerformAll(steps);
  }

  /**
   * `repository` with the contributors call as written: the default `anon`
   * raises `ValueError` before any request, so the repository's record is
   * the only document printed and the command ends with that error.
   */
  lemma RepositoryAsWritten(info: Outcome<Record>, verbose: bool)
    requires info.Ok?
    ensures RepositoryContributors(Paged([], Some(InvalidArgument("anon")))) == Fail(InvalidArgument("anon"))
    ensures Repository(info, Paged([], Some(InvalidArgument("anon"))), verbose) ==
              Run([RecordDoc(info.value)], Some(InvalidArgument("anon")))
  {
    var contributors := Paged([], Some(InvalidArgument("anon")));
    assert NormalizePageList(ContributorFields, contributors.pages) == Ok([]);
    var r := Repository(info, contributors, verbose);
    assert |r.docs| == 1 && r.docs[0] == RecordDoc(info.value);
    assert r.docs == [RecordDoc(info.value)];
  }

  /**
   * The organization listings show members and repositories in ranked order:
   * the first entries of the sorted lists, all of them when verbose.
   */
  lemma OrganizationListsRanked(info: Outcome<Record>, members: Outcome<seq<Record>>,
                                repositories: Outcome<seq<Record>>, verbose: bool)
    requires info.Ok? && members.Ok? && repositories.Ok?
    requires SortedBy(members.value, AdministratorKey).Ok? && SortedBy(repositories.value, Popularity).Ok?
    requires UniqueKeys(SortedBy(members.value, AdministratorKey).value, "Username")
    requires UniqueKeys(SortedBy(repositories.value, Popularity).value, "Repository Name")
    ensures OrganizationRun(info, members, repositories, verbose).raised.None?
    ensures Lists(OrganizationRun(info, members, repositories, verbose).docs[1], "Public Members",
                  Shown(SortedBy(members.value, AdministratorKey).value, verbose))
    ensures Lists(OrganizationRun(info, members, repositories, verbose).docs[2], "Public Repositories",
                  Shown(SortedBy(repositories.value, Popularity).value, verbose))
  {
    var steps := OrganizationSteps(info, members, repositories, verbose);
    assert OrganizationRun(info, members, repositories, verbose) == Perform(steps);
    SortedListingStepLists("Public Members", "Username", members.value, AdministratorKey, verbose);
    SortedListingStepLists("Public Repositories", "Repository Name", repositories.value, Popularity, verbose);
    PerformAll(steps);
  }

  /** `repository['Repository Name']`. */
  function RepositoryName(repository: Record): Outcome<Scalar>
  {
    Field(repository, "Repository Name")
  }

  /**
   * `functools.reduce(set.union, [emails(name) for name in names], set())`:
   * every fetch runs in order and the first that raises aborts.
   */
  function GatherEmails(names: seq<Scalar>, emailsOf: Scalar -> Outcome<set<(string, string)>>): (r: Outcome<set<(string, string)>>)
    ensures r.Ok? <==> forall i :: 0 <= i < |names| ==> emailsOf(names[i]).Ok?
    ensures r.Ok? ==> forall p :: p in r.value <==> exists i :: 0 <= i < |names| && p in emailsOf(names[i]).value
    ensures r.Fail? ==> exists i :: 0 <= i < |names| && emailsOf(names[i]) == Fail(r.failure) &&
                                    (forall j :: 0 <= j < i ==> emailsOf(names[j]).Ok?)
    decreases |names|
  {
    if names == [] then Ok({})
    else
      assert forall i :: 1 <= i < |names| ==> names[i] == names[1..][i - 1];
      match emailsOf(names[0])
      case Fail(f) => Fail(f)
      case Ok(first) =>
        match GatherEmails(names[1..], emailsOf)
        case Fail(f) =>
          var i :| 0 <= i < |names[1..]| && emailsOf(names[1..][i]) == Fail(f) &&
            forall j :: 0 <= j < i ==> emailsOf(names[1..][j]).Ok?;
          assert emailsOf(names[i + 1]) == Fail(f);
          Fail(f)
        case Ok(rest) =>
          assert forall p :: p in rest ==> exists i :: 0 <= i < |names| && p in emailsOf(names[i]).value by {
            forall p | p in rest
              ensures exists i :: 0 <= i < |names| && p in emailsOf(names[i]).value
            {
              var i :| 0 <= i < |names[1..]| && p in emailsOf(names[1..][i]).value;
              assert names[i + 1] == names[1..][i];
            }
          }
          Ok(first + rest)
  }

  /** No element occurs twice. */
  predicate NoRepeats<T(==)>(xs: seq<T>)
  {
    forall a, b :: 0 <= a < b < |xs| ==> xs[a] != xs[b]
  }

  lemma ConsNoRepeats<T>(x: T, xs: seq<T>)
    requires x !in xs && NoRepeats(xs)
    ensures NoRepeats([x] + xs)
  {
    var r := [x] + xs;
    forall a, b | 0 <= a < b < |r|
      ensures r[a] != r[b]
    {
      assert r[b] == xs[b - 1];
      if a > 0 {
        assert r[a] == xs[a - 1];
      }
    }
  }

  /**
   * The order in which Python happens to iterate a set: some sequence that
   * holds every element exactly once. Which one is not specified.
   */
  ghost function Enumerate(s: set<(string, string)>): (r: seq<(string, string)>)
    ensures |r| == |s|
    ensures forall p :: p in r <==> p in s
    ensures NoRepeats(r)
    decreases |s|
  {
    if s == {} then []
    else
      var p :| p in s;
      var rest := Enumerate(s - {p});
      ConsNoRepeats(p, rest);
      [p] + rest
  }

  /** `OrderedDict([("Emails", [str((name, email)) for name, email in pairs])])`. */
  function EmailsDoc(pairs: seq<(string, string)>): (m: Mapping)
    ensures |m.entries| == 1 && m.entries[0].0 == Str("Emails") && m.entries[0].1.List?
    ensures var lines := m.entries[0].1.items;
      |lines| == |pairs| && forall i :: 0 <= i < |pairs| ==> lines[i] == PairRepr(pairs[i])
  {
    Mapping([(Str("Emails"), List(seq(|pairs|, i requires 0 <= i < |pairs| => PairRepr(pairs[i]))))])
  }

  /** A pair is printed exactly when it is one of the listed pairs. */
  lemma PrintedPairs(pairs: seq<(string, string)>, p: (string, string))
    ensures PairRepr(p) in EmailsDoc(pairs).entries[0].1.items <==> p in pairs
  {
    var lines := EmailsDoc(pairs).entries[0].1.items;
    if PairRepr(p) in lines {
      var k :| 0 <= k < |lines| && lines[k] == PairRepr(p);
      PairReprInjective(pairs[k], p);
    }
    if p in pairs {
      var k :| 0 <= k < |pairs| && pairs[k] == p;
      assert lines[k] == PairRepr(p);
    }
  }

  /** Pairs listed once each print as lines that occur once each. */
  lemma PrintedOnce(pairs: seq<(string, string)>)
    requires NoRepeats(pairs)
    ensures NoRepeats(EmailsDoc(pairs).entries[0].1.items)
  {
    var lines := EmailsDoc(pairs).entries[0].1.items;
    forall a, b | 0 <= a < b < |lines|
      ensures lines[a] != lines[b]
    {
      if lines[a] == lines[b] {
        PairReprInjective(pairs[a], pairs[b]);
      }
    }
  }

  /** The listing of a set of pairs prints each pair of the set on exactly one line, and nothing else. */
  lemma EmailLines(emails: set<(string, string)>)
    ensures var lines := EmailsDoc(Enumerate(emails)).entries[0].1.items;
      (forall p :: PairRepr(p) in lines <==> p in emails) && NoRepeats(lines)
  {
    var order := Enumerate(emails);
    forall p
      ensures PairRepr(p) in EmailsDoc(order).entries[0].1.items <==> p in emails
    {
      PrintedPairs(order, p);
    }
    PrintedOnce(order);
  }

  /** The e-mail step of `user`: names from every repository, not only the shown ones. */
  ghost function EmailsStep(repositories: Outcome<seq<Record>>, emailsOf: Scalar -> Outcome<set<(string, string)>>): Outcome<Mapping>
  {
    match repositories
    case Fail(f) => Fail(f)
    case Ok(rs) =>
      match KeyValues(rs, RepositoryName)
      case Fail(f) => Fail(f)
      case Ok(names) =>
        match GatherEmails(names, emailsOf)
        case Fail(f) => Fail(f)
        case Ok(emails) => Ok(EmailsDoc(Enumerate(emails)))
  }

  ghost function UserSteps(info: Outcome<Record>, organizations: Outcome<seq<Record>>, repositories: Outcome<seq<Record>>,
                           emailsOf: Scalar -> Outcome<set<(string, string)>>, verbose: bool): seq<Outcome<Mapping>>
  {
    [
      RecordStep(info),
      ListingStep("Organizations", "Organization", organizations, verbose),
      ListingStep("Repositories", "Repository Name", repositories, verbose),
      EmailsStep(repositories, emailsOf)
    ]
  }

  /**
   * The `user` command without worker processes. The user's record, their
   * organizations, their repositories and each repository's commit e-mails
   * are fetched by code outside this model and arrive as arguments.
   */
  ghost function User(info: Outcome<Record>, organizations: Outcome<seq<Record>>, repositories: Outcome<seq<Record>>,
                      emailsOf: Scalar -> Outcome<set<(string, string)>>, verbose: bool): (r: Run)
    ensures |r.docs| <= 4 && (r.raised.None? <==> |r.docs| == 4)
    ensures info.Fail? ==> r == Run([], Some(info.failure))
    ensures |r.docs| >= 1 ==> info.Ok? && r.docs[0] == RecordDoc(info.value)
    ensures info.Ok? && organizations.Fail? ==> |r.docs| == 1 && r.raised == Some(organizations.failure)
    ensures |r.docs| >= 2 && repositories.Fail? ==> |r.docs| == 2 && r.raised == Some(repositories.failure)
  {
    var steps := UserSteps(info, organizations, repositories, emailsOf, verbose);
    if steps[0].Ok? && steps[1].Fail? then PerformStopsAt(steps, 1); Perform(steps)
    else if steps[0].Ok? && steps[1].Ok? && steps[2].Fail? then PerformStopsAt(steps, 2); Perform(steps)
    else Perform(steps)
  }

  /**
   * Once the user's record, organizations and repositories are fetched, the
   * second and third documents list the shown organizations and the shown
   * repositories, in the order the API returned them.
   */
  lemma UserListsShown(info: Outcome<Record>, organizations: Outcome<seq<Record>>, repositories: Outcome<seq<Record>>,
                       emailsOf: Scalar -> Outcome<set<(string, string)>>, verbose: bool)
    requires info.Ok? && organizations.Ok? && repositories.Ok?
    requires UniqueKeys(organizations.value, "Organization")
    requires UniqueKeys(repositories.value, "Repository Name")
    ensures |User(info, organizations, repositories, emailsOf, verbose).docs| >= 3
    ensures Lists(User(info, organizations, repositories, emailsOf, verbose).docs[1], "Organizations",
                  Shown(organizations.value, verbose))
    ensures Lists(User(info, organizations, repositories, emailsOf, verbose).docs[2], "Repositories",
                  Shown(repositories.value, verbose))
  {
    var steps := UserSteps(info, organizations, repositories, emailsOf, verbose);
    var r := User(info, organizations, repositories, emailsOf, verbose);
    assert r == Perform(steps);
    ListingStepLists("Organizations", "Organization", organizations.value, verbose);
    ListingStepLists("Repositories", "Repository Name", repositories.value, verbose);
    assert steps[0].Ok? && steps[1].Ok? && steps[2].Ok?;
    assert steps[1] == Ok(r.docs[1]) && steps[2] == Ok(r.docs[2]);
  }

  /** When `user` completes, its last document lists the e-mails gathered from every repository. */
  lemma UserEmailsDoc(info: Outcome<Record>, organizations: Outcome<seq<Record>>, repositories: Outcome<seq<Record>>,
                      emailsOf: Scalar -> Outcome<set<(string, string)>>, verbose: bool)
    requires User(info, organizations, repositories, emailsOf, verbose).raised.None?
    ensures repositories.Ok? && KeyValues(repositories.value, RepositoryName).Ok?
    ensures GatherEmails(KeyValues(repositories.value, RepositoryName).value, emailsOf).Ok?
    ensures User(info, organizations, repositories, emailsOf, verbose).docs[3] ==
              EmailsDoc(Enumerate(GatherEmails(KeyValues(repositories.value, RepositoryName).value, emailsOf).value))
  {
    var steps := UserSteps(info, organizations, repositories, emailsOf, verbose);
    assert steps[3] == Ok(User(info, organizations, repositories, emailsOf, verbose).docs[3]);
  }

  /**
   * The e-mails printed by `user` are those of every repository the user has,
   * however many of them the "Repositories" listing shows, each exactly once.
   */
  lemma EmailsFromAllRepositories(info: Outcome<Record>, organizations: Outcome<seq<Record>>, repositories: Outcome<seq<Record>>,
                                  emailsOf: Scalar -> Outcome<set<(string, string)>>, verbose: bool)
    requires User(info, organizations, repositories, emailsOf, verbose).raised.None?
    ensures repositories.Ok? && forall i :: 0 <= i < |repositories.value| ==> RepositoryName(repositories.value[i]).Ok?
    ensures var lines := User(info, organizations, repositories, emailsOf, verbose).docs[3].entries[0].1.items;
      (forall p :: PairRepr(p) in lines <==>
        exists i :: 0 <= i < |repositories.value| && p in emailsOf(RepositoryName(repositories.value[i]).value).value) &&
      NoRepeats(lines)
  {
    UserEmailsDoc(info, organizations, repositories, emailsOf, verbose);
    var names := KeyValues(repositories.value, RepositoryName).value;
    var emails := GatherEmails(names, emailsOf).value;
    EmailLines(emails);
    forall p | exists i :: 0 <= i < |repositories.value| && p in emailsOf(RepositoryName(repositories.value[i]).value).value
      ensures p in emails
    {
      var i :| 0 <= i < |repositories.value| && p in emailsOf(RepositoryName(repositories.value[i]).value).value;
      assert p in emailsOf(names[i]).value;
    }
  }

  /** The message main prints when the API refuses requests for their rate. */
  const RateLimitedMessage: string := "Your API requests are being rate-limited. Please include an OAuth2 token and read the following:"

  /** The message main prints for a missing or private resource. */
  const NotFoundMessage: string := "The requested resource was not found or private. Please confirm that it exists."

  function ErrorDoc(message: string): Mapping
  {
    Mapping([(Str("Error"), Leaf(Str(message)))])
  }

  function RateLimitingDoc(): Mapping
  {
    Mapping([(Str("Rate Limiting"), Leaf(Str(RateLimitingUrl)))])
  }

  /**
   * The `try`/`except ApiCallException` of `main` around a command: a rate
   * limit prints the error and the documentation link, a missing resource
   * prints the error, and anything else propagates unchanged.
   */
  function Guarded(run: Run): (r: Run)
    ensures run.docs <= r.docs
    ensures run.raised.None? ==> r == run
    ensures r.raised.Some? <==> run.raised.Some? &&
                                !(run.raised.value.ApiCall? &&
                                  (IsRateLimiting(run.raised.value.error) || IsNotFound(run.raised.value.error)))
    ensures r.raised.Some? ==> r == run
    ensures run.raised.Some? && run.raised.value.ApiCall? && IsRateLimiting(run.raised.value.error) ==>
              r.docs == run.docs + [ErrorDoc(RateLimitedMessage), RateLimitingDoc()]
    ensures run.raised.Some? && run.raised.value.ApiCall? && IsNotFound(run.raised.value.error) ==>
              r.docs == run.docs + [ErrorDoc(NotFoundMessage)]
  {
    match run.raised
    case None => run
    case Some(f) =>
      if f.ApiCall? && IsRateLimiting(f.error) then
        Run(run.docs + [ErrorDoc(RateLimitedMessage), RateLimitingDoc()], None)
      else if f.ApiCall? && IsNotFound(f.error) then
        Run(run.docs + [ErrorDoc(NotFoundMessage)], None)
      else run
  }
}
