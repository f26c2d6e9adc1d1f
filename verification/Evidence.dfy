/** Evidence items and the order in which they are presented (domain/evidence.py, the sort key of
    application/services/evidence_governance.py). */
module Evidence {
  import opened Common
  import opened Text
  import Documents

  datatype Authority =
    | SignedScope | ApprovedChange | RequirementBaseline | ApprovedMeetingMinutes | ApprovedDesign
    | ApprovedTestSpec | ReleaseRunbook | IssueRecord | InformalNote

  /** Position in the authority order; 0 is the strongest. */
  function Rank(a: Authority): nat {
    match a
    case SignedScope => 0
    case ApprovedChange => 1
    case RequirementBaseline => 2
    case ApprovedMeetingMinutes => 3
    case ApprovedDesign => 4
    case ApprovedTestSpec => 5
    case ReleaseRunbook => 6
    case IssueRecord => 7
    case InformalNote => 8
  }

  /** Strongest first. */
  const AUTHORITY_ORDER := [
    SignedScope, ApprovedChange, RequirementBaseline, ApprovedMeetingMinutes, ApprovedDesign,
    ApprovedTestSpec, ReleaseRunbook, IssueRecord, InformalNote]

  /** `a` stands before `b` in the authority order. */
  predicate Outranks(a: Authority, b: Authority) {
    exists i, j :: 0 <= i < j < |AUTHORITY_ORDER| && AUTHORITY_ORDER[i] == a && AUTHORITY_ORDER[j] == b
  }

  lemma RankIsPosition(a: Authority)
    ensures Rank(a) < |AUTHORITY_ORDER| && AUTHORITY_ORDER[Rank(a)] == a
    ensures forall i :: 0 <= i < |AUTHORITY_ORDER| && AUTHORITY_ORDER[i] == a ==> i == Rank(a)
  {
  }

  /** The rank is the order of the list. */
  lemma RankIsOrder(a: Authority, b: Authority)
    ensures Rank(a) < Rank(b) <==> Outranks(a, b)
    ensures Rank(a) == Rank(b) <==> a == b
  {
    RankIsPosition(a);
    RankIsPosition(b);
  }

  /** Days since an arbitrary origin. */
  type Date = int

  datatype Item = Item(
    tag: string,
    project: nat,
    projectCode: string,
    version: nat,
    versionNo: int,
    authority: Authority,
    status: Documents.Lifecycle,
    isCurrent: bool,
    effectiveFrom: Option<Date>,
    effectiveTo: Option<Date>,
    content: string,
    score: real,
    space: Option<string>,
    conflictKey: Option<string>,
    claimValue: Option<string>,
    unresolved: bool)

  /** What makes two chunks the same piece of evidence. */
  function Key(x: Item): (nat, string) {
    (x.version, Strip(x.content))
  }

  predicate DistinctKeys(s: seq<Item>) {
    forall i, j :: 0 <= i < j < |s| ==> Key(s[i]) != Key(s[j])
  }

  predicate Unseen(s: seq<Item>, key: (nat, string)) {
    forall i :: 0 <= i < |s| ==> Key(s[i]) != key
  }

  lemma DistinctConcat(a: seq<Item>, b: seq<Item>)
    requires DistinctKeys(a) && DistinctKeys(b)
    requires forall x <- b :: Unseen(a, Key(x))
    ensures DistinctKeys(a + b)
  {
    forall i, j | 0 <= i < j < |a + b| ensures Key((a + b)[i]) != Key((a + b)[j]) {
      if i < |a| <= j {
        assert b[j - |a|] in b;
      }
    }
  }

  lemma DistinctMembers(s: seq<Item>, x: Item, y: Item)
    requires DistinctKeys(s) && x in s && y in s && Key(x) == Key(y)
    ensures x == y
  {
    var i :| 0 <= i < |s| && s[i] == x;
    var j :| 0 <= j < |s| && s[j] == y;
    if i < j {
      assert Key(s[i]) != Key(s[j]);
    }
  }

  // ------------------------------------------------------------ the sort order

  /** Stronger authority first, then higher score, then higher version number, then version id. */
  predicate AtMost(a: Item, b: Item) {
    var ra, rb := Rank(a.authority), Rank(b.authority);
    || ra < rb
    || (ra == rb && a.score > b.score)
    || (ra == rb && a.score == b.score && a.versionNo > b.versionNo)
    || (ra == rb && a.score == b.score && a.versionNo == b.versionNo && a.version <= b.version)
  }

  /** The order said with the list of authorities. */
  predicate StandsBefore(a: Item, b: Item) {
    || Outranks(a.authority, b.authority)
    || (a.authority == b.authority && a.score > b.score)
    || (a.authority == b.authority && a.score == b.score && a.versionNo > b.versionNo)
    || (a.authority == b.authority && a.score == b.score && a.versionNo == b.versionNo && a.version <= b.version)
  }

  lemma AtMostIsStandsBefore(a: Item, b: Item)
    ensures AtMost(a, b) <==> StandsBefore(a, b)
  {
    RankIsOrder(a.authority, b.authority);
  }

  predicate Sorted(s: seq<Item>) {
    forall i, j :: 0 <= i < j < |s| ==> AtMost(s[i], s[j])
  }

  /** Behind everything that is not greater. */
  function Insert(x: Item, s: seq<Item>): seq<Item> {
    if s == [] || AtMost(Last(s), x) then s + [x] else Insert(x, Front(s)) + [Last(s)]
  }

  /** A stable sort. */
  function Sort(s: seq<Item>): seq<Item> {
    if s == [] then [] else Insert(Last(s), Sort(Front(s)))
  }

  lemma {:induction false} InsertMembers(x: Item, s: seq<Item>)
    ensures |Insert(x, s)| == |s| + 1
    ensures forall y :: y in Insert(x, s) <==> y == x || y in s
  {
    if s != [] && !AtMost(Last(s), x) {
      InsertMembers(x, Front(s));
      assert s == Front(s) + [Last(s)];
    }
  }

  lemma {:induction false} InsertSorted(x: Item, s: seq<Item>)
    requires Sorted(s)
    ensures Sorted(Insert(x, s))
  {
    if s != [] && !AtMost(Last(s), x) {
      InsertSorted(x, Front(s));
      InsertMembers(x, Front(s));
      var r := Insert(x, Front(s));
      forall i | 0 <= i < |r| ensures AtMost(r[i], Last(s)) {
        assert r[i] in r;
      }
    } else if s != [] {
      assert forall i :: 0 <= i < |s| ==> AtMost(s[i], x);
    }
  }

  lemma {:induction false} SortMembers(s: seq<Item>)
    ensures |Sort(s)| == |s|
    ensures forall y :: y in Sort(s) <==> y in s
  {
    if s != [] {
      SortMembers(Front(s));
      InsertMembers(Last(s), Sort(Front(s)));
      assert s == Front(s) + [Last(s)];
    }
  }

  lemma {:induction false} SortSorted(s: seq<Item>)
    ensures Sorted(Sort(s))
  {
    if s != [] {
      SortSorted(Front(s));
      InsertSorted(Last(s), Sort(Front(s)));
    }
  }

  lemma {:induction false} InsertMultiset(x: Item, s: seq<Item>)
    ensures multiset(Insert(x, s)) == multiset(s) + multiset{x}
  {
    if s != [] && !AtMost(Last(s), x) {
      InsertMultiset(x, Front(s));
      assert s == Front(s) + [Last(s)];
    }
  }

  lemma MultisetSnoc(s: seq<Item>)
    requires s != []
    ensures multiset(s) == multiset(Front(s)) + multiset{Last(s)}
  {
    assert s == Front(s) + [Last(s)];
  }

  lemma {:induction false} SortPermutes(s: seq<Item>)
    ensures multiset(Sort(s)) == multiset(s)
  {
    if s != [] {
      SortPermutes(Front(s));
      InsertMultiset(Last(s), Sort(Front(s)));
      MultisetSnoc(s);
    }
  }

  lemma InsertLast(x: Item, s: seq<Item>)
    requires s == [] || AtMost(s[|s| - 1], x)
    ensures Insert(x, s) == s + [x]
  {
  }

  lemma {:induction false} SortOfSorted(s: seq<Item>)
    requires Sorted(s)
    ensures Sort(s) == s
  {
    if s != [] {
      SortOfSorted(Front(s));
      InsertLast(Last(s), Front(s));
      assert s == Front(s) + [Last(s)];
    }
  }

  lemma {:induction false} InsertDistinct(x: Item, s: seq<Item>)
    requires DistinctKeys(s) && Unseen(s, Key(x))
    ensures DistinctKeys(Insert(x, s))
  {
    if s != [] && !AtMost(Last(s), x) {
      InsertDistinct(x, Front(s));
      InsertMembers(x, Front(s));
      var r := Insert(x, Front(s));
      forall i | 0 <= i < |r| ensures Key(r[i]) != Key(Last(s)) {
        assert r[i] in r;
      }
    }
  }

  lemma {:induction false} SortDistinct(s: seq<Item>)
    requires DistinctKeys(s)
    ensures DistinctKeys(Sort(s))
  {
    if s != [] {
      SortDistinct(Front(s));
      SortMembers(Front(s));
      var r := Sort(Front(s));
      forall i | 0 <= i < |r| ensures Key(r[i]) != Key(Last(s)) {
        assert r[i] in r;
      }
      InsertDistinct(Last(s), r);
    }
  }

  predicate Tie(x: Item, y: Item) {
    AtMost(x, y) && AtMost(y, x)
  }

  /** The items of `s` that tie with `y`, in order. */
  function Ties(s: seq<Item>, y: Item): seq<Item> {
    if s == [] then [] else Ties(Front(s), y) + if Tie(Last(s), y) then [Last(s)] else []
  }

  lemma TiesSnoc(s: seq<Item>, x: Item, y: Item)
    ensures Ties(s + [x], y) == Ties(s, y) + if Tie(x, y) then [x] else []
  {
    assert Front(s + [x]) == s;
  }

  lemma {:induction false} InsertTies(x: Item, s: seq<Item>, y: Item)
    ensures Ties(Insert(x, s), y) == Ties(s, y) + if Tie(x, y) then [x] else []
  {
    if s == [] || AtMost(Last(s), x) {
      TiesSnoc(s, x, y);
    } else {
      InsertTies(x, Front(s), y);
      TiesSnoc(Insert(x, Front(s)), Last(s), y);
    }
  }

  /** Items that tie keep the order they came in. */
  lemma {:induction false} SortIsStable(s: seq<Item>, y: Item)
    ensures Ties(Sort(s), y) == Ties(s, y)
  {
    if s != [] {
      SortIsStable(Front(s), y);
      InsertTies(Last(s), Sort(Front(s)), y);
    }
  }
}
