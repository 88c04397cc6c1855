/**
 * The two orderings lib/gitem/__main__.py applies before it prints a listing:
 * members by their "Site Administrator" flag and repositories by the sum of
 * their watcher, star and fork counts, both through Python's
 * `sorted(records, key=..., reverse=True)`.
 *
 * Python computes every key first, in record order, and the first key that
 * raises aborts the sort. Booleans and integers compare with one another
 * (`False == 0`, `True == 1`); any other key (None, a string) makes a sort of
 * two or more records raise TypeError, which is `Unorderable` here. A sort of
 * fewer than two records compares nothing and cannot fail that way.
 */
module Ranking {
  import opened Values
  import opened ApiErrors
  import opened Analytics
  import opened Sorting
  import opened Documents

  /** The integer a key compares as, when it can be compared at all. */
  function Ordinal(v: Scalar): (r: Option<int>)
    ensures r.Some? <==> v.Bool? || v.Int?
    ensures v.Int? ==> r == Some(v.i)
    ensures v.Bool? ==> r == Some(if v.b then 1 else 0)
  {
    match v
    case Bool(b) => Some(if b then 1 else 0)
    case Int(i) => Some(i)
    case _ => None
  }

  /** A computed key that sorting can compare. */
  predicate Orderable(k: Outcome<Scalar>)
  {
    k.Ok? && Ordinal(k.value).Some?
  }

  /** The integer a computed key sorts by; 0 for keys that cannot be compared. */
  function Rank(k: Outcome<Scalar>): (r: int)
    ensures Orderable(k) ==> r == Ordinal(k.value).value
  {
    if Orderable(k) then Ordinal(k.value).value else 0
  }

  /** The keys of all records, computed in order; the first key that fails aborts. */
  function KeyValues(records: seq<Record>, key: Record -> Outcome<Scalar>): (r: Outcome<seq<Scalar>>)
    ensures r.Ok? <==> forall i :: 0 <= i < |records| ==> key(records[i]).Ok?
    ensures r.Ok? ==> |r.value| == |records| && forall i :: 0 <= i < |records| ==> key(records[i]) == Ok(r.value[i])
    ensures r.Fail? ==> exists i :: 0 <= i < |records| && key(records[i]) == Fail(r.failure) &&
                                (forall j :: 0 <= j < i ==> key(records[j]).Ok?)
    decreases |records|
  {
    if records == [] then Ok([])
    else
      match key(records[0])
      case Fail(f) => Fail(f)
      case Ok(k) =>
        var rest := KeyValues(records[1..], key);
        assert forall i :: 1 <= i < |records| ==> records[i] == records[1..][i - 1];
        match rest
        case Fail(f) =>
          var i :| 0 <= i < |records[1..]| && key(records[1..][i]) == Fail(f) &&
            forall j :: 0 <= j < i ==> key(records[1..][j]).Ok?;
          assert key(records[i + 1]) == Fail(f);
          Fail(f)
        case Ok(ks) => Ok([k] + ks)
  }

  /** Each record paired with the integer it sorts by. */
  function Ranked(records: seq<Record>, key: Record -> Outcome<Scalar>): (r: seq<(int, Record)>)
    ensures |r| == |records| && forall i :: 0 <= i < |records| ==> r[i] == (Rank(key(records[i])), records[i])
  {
    seq(|records|, i requires 0 <= i < |records| => (Rank(key(records[i])), records[i]))
  }

  /** `sorted(records, key=key, reverse=True)`. */
  function SortedBy(records: seq<Record>, key: Record -> Outcome<Scalar>): (r: Outcome<seq<Record>>)
    ensures r.Ok? ==> |r.value| == |records|
  {
    match KeyValues(records, key)
    case Fail(f) => Fail(f)
    case Ok(ks) =>
      if |records| >= 2 && exists i :: 0 <= i < |ks| && Ordinal(ks[i]).None? then Fail(Unorderable)
      else Ok(Items(SortDescending(Ranked(records, key))))
  }

  /**
   * The sort succeeds exactly when every key is computed and, for two or more
   * records, every key can be compared; the first key that fails is the
   * error, and otherwise a comparison fails.
   */
  lemma SortedByOutcome(records: seq<Record>, key: Record -> Outcome<Scalar>)
    ensures SortedBy(records, key).Ok? <==>
              (forall i :: 0 <= i < |records| ==> key(records[i]).Ok?) &&
              (|records| < 2 || forall i :: 0 <= i < |records| ==> Orderable(key(records[i])))
    ensures SortedBy(records, key).Fail? && (forall i :: 0 <= i < |records| ==> key(records[i]).Ok?) ==>
              SortedBy(records, key).failure == Unorderable
    ensures SortedBy(records, key).Fail? && (exists i :: 0 <= i < |records| && key(records[i]).Fail?) ==>
              exists i :: 0 <= i < |records| && key(records[i]) == Fail(SortedBy(records, key).failure) &&
                          forall j :: 0 <= j < i ==> key(records[j]).Ok?
  {
    var kv := KeyValues(records, key);
    if kv.Ok? && |records| >= 2 {
      assert forall i :: 0 <= i < |records| ==> key(records[i]) == Ok(kv.value[i]);
    }
  }

  lemma RankedItems(records: seq<Record>, key: Record -> Outcome<Scalar>)
    ensures Items(Ranked(records, key)) == records
  {
  }

  /** Every pair of `xs` carries its own item's rank. */
  predicate Consistent(xs: seq<(int, Record)>, key: Record -> Outcome<Scalar>)
  {
    forall i :: 0 <= i < |xs| ==> xs[i].0 == Rank(key(xs[i].1))
  }

  /** Sorting the ranked records keeps every pair next to its own rank. */
  lemma SortConsistent(records: seq<Record>, key: Record -> Outcome<Scalar>)
    ensures Consistent(SortDescending(Ranked(records, key)), key)
  {
    var p := Ranked(records, key);
    var s := SortDescending(p);
    SortPermutes(p);
    forall i | 0 <= i < |s|
      ensures s[i].0 == Rank(key(s[i].1))
    {
      assert s[i] in multiset(p);
      var k :| 0 <= k < |p| && p[k] == s[i];
    }
  }

  /** The sorted records are a permutation of the input. */
  lemma SortedByPermutes(records: seq<Record>, key: Record -> Outcome<Scalar>)
    requires SortedBy(records, key).Ok?
    ensures multiset(SortedBy(records, key).value) == multiset(records)
  {
    ItemsSort(Ranked(records, key));
    RankedItems(records, key);
  }

  /** The sorted records' keys never increase. */
  lemma SortedByOrders(records: seq<Record>, key: Record -> Outcome<Scalar>)
    requires SortedBy(records, key).Ok?
    ensures var r := SortedBy(records, key).value;
      forall i, j :: 0 <= i < j < |r| ==> Rank(key(r[i])) >= Rank(key(r[j]))
  {
    var s := SortDescending(Ranked(records, key));
    SortOrders(Ranked(records, key));
    SortConsistent(records, key);
    assert forall i :: 0 <= i < |s| ==> SortedBy(records, key).value[i] == s[i].1;
  }

  /** The records whose key sorts as `k`, in their order in `records`. */
  function SameRank(records: seq<Record>, key: Record -> Outcome<Scalar>, k: int): (r: seq<Record>)
    ensures forall i :: 0 <= i < |r| ==> Rank(key(r[i])) == k && r[i] in records
    decreases |records|
  {
    if records == [] then []
    else (if Rank(key(records[0])) == k then [records[0]] else []) + SameRank(records[1..], key, k)
  }

  lemma {:induction false} WithKeyItems(xs: seq<(int, Record)>, key: Record -> Outcome<Scalar>, k: int)
    requires Consistent(xs, key)
    ensures Items(WithKey(xs, k)) == SameRank(Items(xs), key, k)
    decreases |xs|
  {
    if xs != [] {
      var tail := xs[1..];
      assert Consistent(tail, key) by {
        forall i | 0 <= i < |tail|
          ensures tail[i].0 == Rank(key(tail[i].1))
        {
          assert tail[i] == xs[i + 1];
        }
      }
      WithKeyItems(tail, key, k);
      var head := if xs[0].0 == k then [xs[0]] else [];
      ItemsAppend(head, WithKey(tail, k));
      var items := Items(xs);
      assert items[0] == xs[0].1 && items[1..] == Items(tail);
      assert Items(head) == if Rank(key(items[0])) == k then [items[0]] else [];
    }
  }

  /** Stability: records whose keys sort alike keep their input order. */
  lemma SortedByStable(records: seq<Record>, key: Record -> Outcome<Scalar>, k: int)
    requires SortedBy(records, key).Ok?
    ensures SameRank(SortedBy(records, key).value, key, k) == SameRank(records, key, k)
  {
    var p := Ranked(records, key);
    SortStable(p, k);
    SortConsistent(records, key);
    WithKeyItems(SortDescending(p), key, k);
    WithKeyItems(p, key, k);
    RankedItems(records, key);
  }

  /** Records already in descending key order come back unchanged. */
  lemma SortedByOrderedIdentity(records: seq<Record>, key: Record -> Outcome<Scalar>)
    requires SortedBy(records, key).Ok?
    requires forall i, j :: 0 <= i < j < |records| ==> Rank(key(records[i])) >= Rank(key(records[j]))
    ensures SortedBy(records, key).value == records
  {
    var p := Ranked(records, key);
    assert NonIncreasing(p);
    SortOrderedIdentity(p);
    RankedItems(records, key);
  }

  /** `member['Site Administrator']`. */
  function AdministratorKey(member: Record): Outcome<Scalar>
  {
    Field(member, "Site Administrator")
  }

  /** Python's `int(x)` for the scalars the API returns; a string is not converted. */
  function IntValue(v: Outcome<Scalar>): (r: Outcome<int>)
    ensures v.Fail? ==> r == Fail(v.failure)
    ensures v.Ok? ==> (r.Ok? <==> Ordinal(v.value).Some?)
    ensures r.Ok? ==> r.value == Ordinal(v.value).value
    ensures v.Ok? && r.Fail? ==> r.failure == WrongShape
  {
    match v
    case Fail(f) => Fail(f)
    case Ok(s) => if Ordinal(s).Some? then Ok(Ordinal(s).value) else Fail(WrongShape)
  }

  /** `int(repository['Watchers']) + int(repository['Stars']) + int(repository['Forks'])`. */
  function Popularity(repository: Record): (k: Outcome<Scalar>)
    ensures k.Ok? <==> (IntValue(Field(repository, "Watchers")).Ok? &&
                        IntValue(Field(repository, "Stars")).Ok? && IntValue(Field(repository, "Forks")).Ok?)
    ensures k.Ok? ==> k.value.Int?
    ensures IntValue(Field(repository, "Watchers")).Fail? ==> k == Fail(IntValue(Field(repository, "Watchers")).failure)
    ensures IntValue(Field(repository, "Watchers")).Ok? && IntValue(Field(repository, "Stars")).Fail? ==>
              k == Fail(IntValue(Field(repository, "Stars")).failure)
    ensures IntValue(Field(repository, "Watchers")).Ok? && IntValue(Field(repository, "Stars")).Ok? &&
            IntValue(Field(repository, "Forks")).Fail? ==>
              k == Fail(IntValue(Field(repository, "Forks")).failure)
    ensures k.Ok? ==> k.value == Int(IntValue(Field(repository, "Watchers")).value +
                                     IntValue(Field(repository, "Stars")).value +
                                     IntValue(Field(repository, "Forks")).value)
  {
    match IntValue(Field(repository, "Watchers"))
    case Fail(f) => Fail(f)
    case Ok(watchers) =>
      match IntValue(Field(repository, "Stars"))
      case Fail(f) => Fail(f)
      case Ok(stars) =>
        match IntValue(Field(repository, "Forks"))
        case Fail(f) => Fail(f)
        case Ok(forks) => Ok(Int(watchers + stars + forks))
  }

  /** The watcher, star and fork counts of a repository whose popularity was computed. */
  function Counts(repository: Record): (n: int)
    requires Popularity(repository).Ok?
  {
    IntValue(Field(repository, "Watchers")).value + IntValue(Field(repository, "Stars")).value +
      IntValue(Field(repository, "Forks")).value
  }

  /** Popularity always sorts, and the most watched, starred and forked repository comes first. */
  lemma PopularityOrders(repositories: seq<Record>)
    requires forall i :: 0 <= i < |repositories| ==> Popularity(repositories[i]).Ok?
    ensures SortedBy(repositories, Popularity).Ok?
    ensures var r := SortedBy(repositories, Popularity).value;
      (forall i :: 0 <= i < |r| ==> Popularity(r[i]).Ok?) &&
      forall i, j :: 0 <= i < j < |r| ==> Counts(r[i]) >= Counts(r[j])
  {
    assert forall i :: 0 <= i < |repositories| ==> Orderable(Popularity(repositories[i]));
    SortedByOutcome(repositories, Popularity);
    SortedByOrders(repositories, Popularity);
    SortedByPermutes(repositories, Popularity);
    var r := SortedBy(repositories, Popularity).value;
    forall i | 0 <= i < |r|
      ensures Popularity(r[i]).Ok? && Rank(Popularity(r[i])) == Counts(r[i])
    {
      assert r[i] in multiset(repositories);
    }
  }

  /** When every member has a boolean flag, no site administrator follows a non-administrator. */
  lemma AdministratorsFirst(members: seq<Record>)
    requires forall i :: 0 <= i < |members| ==> AdministratorKey(members[i]).Ok? && AdministratorKey(members[i]).value.Bool?
    ensures SortedBy(members, AdministratorKey).Ok?
    ensures var r := SortedBy(members, AdministratorKey).value;
      forall i, j :: 0 <= i < j < |r| && AdministratorKey(r[j]) == Ok(Bool(true)) ==>
        AdministratorKey(r[i]) == Ok(Bool(true))
  {
    assert forall i :: 0 <= i < |members| ==> Orderable(AdministratorKey(members[i]));
    SortedByOutcome(members, AdministratorKey);
    SortedByOrders(members, AdministratorKey);
    SortedByPermutes(members, AdministratorKey);
    var r := SortedBy(members, AdministratorKey).value;
    forall i | 0 <= i < |r|
      ensures AdministratorKey(r[i]).Ok? && AdministratorKey(r[i]).value.Bool?
    {
      assert r[i] in multiset(members);
    }
  }
}
