/** What evidence governance promises, said without its loops: which evidence survives, what is
    flagged as an unresolved conflict, and that no conflict is hidden by the cap. */
module ConflictPolicy {
  import opened Common
  import opened Evidence
  import opened Governance

  /** Two claims about the same thing. */
  predicate Rivals(x: Item, y: Item) {
    Grouped(x) && Grouped(y) && x.conflictKey == y.conflictKey
  }

  predicate Contradicts(x: Item, y: Item) {
    Rivals(x, y) && x.claimValue != y.claimValue
  }

  predicate Disputed(all: seq<Item>, x: Item) {
    exists y <- all :: Contradicts(x, y)
  }

  /** No rival has more authority. */
  predicate Best(all: seq<Item>, x: Item) {
    Grouped(x) && forall y <- all :: Rivals(x, y) ==> Rank(x.authority) <= Rank(y.authority)
  }

  predicate Dominated(all: seq<Item>, x: Item) {
    Disputed(all, x) && !Best(all, x)
  }

  /** Contradicted by a rival of equal, best authority. */
  predicate Contested(all: seq<Item>, x: Item) {
    Best(all, x) && exists y <- all :: Best(all, y) && Contradicts(x, y)
  }

  /** `x` with its mark of conflict taken off. */
  function Plain(x: Item): Item {
    x.(unresolved := false)
  }

  predicate Unmarked(s: seq<Item>) {
    forall x <- s :: !x.unresolved
  }

  /** The item is what governance makes of a candidate. */
  predicate Survives(all: seq<Item>, x: Item) {
    Plain(x) in all && !Dominated(all, Plain(x)) && x.unresolved == Contested(all, Plain(x))
  }

  // ------------------------------------------------------------ the filters

  lemma {:induction false} UngroupedMembers(s: seq<Item>)
    ensures forall x :: x in Ungrouped(s) <==> x in s && !Grouped(x)
  {
    if s != [] {
      UngroupedMembers(Front(s));
      assert s == Front(s) + [Last(s)];
    }
  }

  lemma {:induction false} GroupMembers(s: seq<Item>, k: string)
    ensures forall x :: x in GroupOf(s, k) <==> x in s && InGroup(x, k)
  {
    if s != [] {
      GroupMembers(Front(s), k);
      assert s == Front(s) + [Last(s)];
    }
  }

  lemma {:induction false} TopMembers(s: seq<Item>, best: nat)
    ensures forall x :: x in TopOf(s, best) <==> x in s && Rank(x.authority) == best
  {
    if s != [] {
      TopMembers(Front(s), best);
      assert s == Front(s) + [Last(s)];
    }
  }

  lemma {:induction false} FlagMembers(s: seq<Item>)
    requires Unmarked(s)
    ensures forall x :: x in Flag(s) <==> x.unresolved && Plain(x) in s
  {
    if s != [] {
      assert s == Front(s) + [Last(s)];
      FlagMembers(Front(s));
      assert forall x :: x == Last(s).(unresolved := true) <==> x.unresolved && Plain(x) == Last(s);
    }
  }

  lemma {:induction false} GroupKeysAre(s: seq<Item>)
    ensures Distinct(GroupKeys(s))
    ensures forall x <- s :: Grouped(x) ==> x.conflictKey.value in GroupKeys(s)
  {
    if s != [] {
      GroupKeysAre(Front(s));
      assert s == Front(s) + [Last(s)];
    }
  }

  lemma ValuesAgree(s: seq<Item>)
    ensures |Values(s)| <= 1 <==> forall x <- s, y <- s :: x.claimValue == y.claimValue
    ensures s != [] ==> |Values(s)| > 0
  {
    if s != [] {
      var v := s[0].claimValue;
      assert v in Values(s);
      if forall x <- s, y <- s :: x.claimValue == y.claimValue {
        assert Values(s) == {v};
      } else {
        var x, y :| x in s && y in s && x.claimValue != y.claimValue;
        assert {x.claimValue, y.claimValue} <= Values(s);
        TwoElements(Values(s), x.claimValue, y.claimValue);
      }
    }
  }

  lemma TwoElements<T>(s: set<T>, a: T, b: T)
    requires a in s && b in s && a != b
    ensures |s| > 1
  {
    assert |s - {a}| == |s| - 1 && b in s - {a};
  }

  // ------------------------------------------------------------- one group

  /** In a group that agrees, everything survives unmarked. */
  lemma AgreedGroup(all: seq<Item>, k: string, x: Item)
    requires Unmarked(all) && |Values(GroupOf(all, k))| <= 1
    requires Plain(x) in all && InGroup(Plain(x), k)
    ensures !Disputed(all, Plain(x)) && !Contested(all, Plain(x))
  {
    ValuesAgree(GroupOf(all, k));
    GroupMembers(all, k);
    assert Plain(x) in GroupOf(all, k);
  }

  /** In a group that disagrees, `Best` means best rank. */
  lemma DividedGroup(all: seq<Item>, k: string, x: Item)
    requires |Values(GroupOf(all, k))| > 1 && x in all && InGroup(x, k)
    ensures GroupOf(all, k) != [] && Disputed(all, x)
    ensures Best(all, x) <==> Rank(x.authority) == BestRank(GroupOf(all, k))
  {
    var g := GroupOf(all, k);
    ValuesAgree(g);
    GroupMembers(all, k);
    var y, z :| y in g && z in g && y.claimValue != z.claimValue;
    assert Contradicts(x, y) || Contradicts(x, z);
    var b :| b in g && BestRank(g) == Rank(b.authority);
    if Best(all, x) {
      assert Rivals(x, b);
    }
  }

  lemma TopIsBest(all: seq<Item>, k: string)
    requires |Values(GroupOf(all, k))| > 1
    ensures GroupOf(all, k) != []
    ensures forall x :: x in TopOf(GroupOf(all, k), BestRank(GroupOf(all, k)))
                        <==> x in all && InGroup(x, k) && Best(all, x)
    ensures TopOf(GroupOf(all, k), BestRank(GroupOf(all, k))) != []
  {
    var g := GroupOf(all, k);
    assert g != [] by { ValuesAgree(g); }
    GroupMembers(all, k);
    var best := BestRank(g);
    TopMembers(g, best);
    forall x | x in all && InGroup(x, k) ensures Best(all, x) <==> Rank(x.authority) == best {
      DividedGroup(all, k, x);
    }
    var b :| b in g && best == Rank(b.authority);
    assert b in TopOf(g, best);
  }

  ghost predicate IsTop(all: seq<Item>, k: string, top: seq<Item>) {
    forall y :: y in top <==> y in all && InGroup(y, k) && Best(all, y)
  }

  lemma DividedTopContests(all: seq<Item>, k: string, top: seq<Item>, x: Item)
    requires IsTop(all, k, top) && x in top && |Values(top)| > 1
    ensures Contested(all, x)
  {
    ValuesAgree(top);
    var y, z :| y in top && z in top && y.claimValue != z.claimValue;
    var other := if x.claimValue != y.claimValue then y else z;
    assert other in all && Best(all, other) && Contradicts(x, other);
  }

  lemma ContestedTopDivides(all: seq<Item>, k: string, top: seq<Item>, x: Item)
    requires IsTop(all, k, top) && x in top && Contested(all, x)
    ensures |Values(top)| > 1
  {
    var y :| y in all && Best(all, y) && Contradicts(x, y);
    assert y in top;
    TwoElements(Values(top), x.claimValue, y.claimValue);
  }

  lemma TopContested(all: seq<Item>, k: string, top: seq<Item>, x: Item)
    requires IsTop(all, k, top) && x in top
    ensures Contested(all, x) <==> |Values(top)| != 1
  {
    assert x.claimValue in Values(top);
    if |Values(top)| > 1 {
      DividedTopContests(all, k, top, x);
    } else if Contested(all, x) {
      ContestedTopDivides(all, k, top, x);
    }
  }

  lemma GroupResolved(all: seq<Item>, k: string, x: Item)
    requires Unmarked(all)
    ensures x in ResolveGroup(GroupOf(all, k)) <==> InGroup(x, k) && Survives(all, x)
  {
    var g := GroupOf(all, k);
    GroupMembers(all, k);
    if |Values(g)| <= 1 {
      if Plain(x) in all && InGroup(Plain(x), k) {
        AgreedGroup(all, k, x);
      }
      assert x in g ==> Plain(x) == x;
      assert !x.unresolved ==> Plain(x) == x;
    } else {
      TopIsBest(all, k);
      var top := TopOf(g, BestRank(g));
      assert Unmarked(top);
      FlagMembers(top);
      if Plain(x) in all && InGroup(Plain(x), k) {
        DividedGroup(all, k, Plain(x));
        if Best(all, Plain(x)) {
          TopContested(all, k, top, Plain(x));
        }
      }
      if x in top && |Values(top)| == 1 {
        assert Plain(x) == x;
      }
      assert !x.unresolved ==> Plain(x) == x;
    }
  }

  // ------------------------------------------------------------- all groups

  lemma KeyIn(keys: seq<string>, k: string)
    requires keys != []
    ensures k in keys <==> k in Front(keys) || k == Last(keys)
  {
    assert keys == Front(keys) + [Last(keys)];
  }

  lemma {:induction false} GroupsResolved(all: seq<Item>, keys: seq<string>, x: Item)
    requires Unmarked(all)
    ensures x in ResolveGroups(all, keys) <==> Grouped(x) && x.conflictKey.value in keys && Survives(all, x)
  {
    if keys != [] {
      var a, b := ResolveGroups(all, Front(keys)), ResolveGroup(GroupOf(all, Last(keys)));
      GroupsResolved(all, Front(keys), x);
      GroupResolved(all, Last(keys), x);
      assert x in a + b <==> x in a || x in b;
      KeyIn(keys, if Grouped(x) then x.conflictKey.value else "");
    }
  }

  /** Authority dominance: an item is in the result exactly when it comes from a candidate that no
      rival of higher authority overrules, and it is marked exactly when a rival of the same, best
      authority contradicts it. */
  lemma ResolveExactly(all: seq<Item>, x: Item)
    requires Unmarked(all)
    ensures x in Resolve(all) <==> Survives(all, x)
  {
    UngroupedMembers(all);
    GroupKeysAre(all);
    GroupsResolved(all, GroupKeys(all), x);
    if !Grouped(x) {
      assert !Disputed(all, Plain(x)) && !Contested(all, Plain(x));
      assert Survives(all, x) <==> Plain(x) in all && !x.unresolved;
      assert !x.unresolved ==> Plain(x) == x;
    }
  }

  // -------------------------------------------------------- no duplicates

  lemma {:induction false} UngroupedDistinct(s: seq<Item>)
    requires DistinctKeys(s)
    ensures DistinctKeys(Ungrouped(s))
  {
    if s != [] {
      UngroupedDistinct(Front(s));
      UngroupedMembers(Front(s));
      SnocDistinct(Ungrouped(Front(s)), s);
    }
  }

  /** A part of the front of `s` stays distinct with the last of `s` added. */
  lemma SnocDistinct(part: seq<Item>, s: seq<Item>)
    requires s != [] && DistinctKeys(s) && DistinctKeys(part) && forall x <- part :: x in Front(s)
    ensures DistinctKeys(part + [Last(s)])
  {
    forall i | 0 <= i < |part| ensures Key(part[i]) != Key(Last(s)) {
      assert part[i] in part;
      var j :| 0 <= j < |Front(s)| && Front(s)[j] == part[i];
      assert Key(s[j]) != Key(s[|s| - 1]);
    }
  }

  lemma {:induction false} GroupDistinct(s: seq<Item>, k: string)
    requires DistinctKeys(s)
    ensures DistinctKeys(GroupOf(s, k))
  {
    if s != [] {
      GroupDistinct(Front(s), k);
      GroupMembers(Front(s), k);
      SnocDistinct(GroupOf(Front(s), k), s);
    }
  }

  lemma {:induction false} TopDistinct(s: seq<Item>, best: nat)
    requires DistinctKeys(s)
    ensures DistinctKeys(TopOf(s, best))
  {
    if s != [] {
      TopDistinct(Front(s), best);
      TopMembers(Front(s), best);
      SnocDistinct(TopOf(Front(s), best), s);
    }
  }

  lemma {:induction false} FlagKeys(s: seq<Item>)
    ensures |Flag(s)| == |s| && forall i :: 0 <= i < |s| ==> Flag(s)[i] == s[i].(unresolved := true)
  {
    if s != [] {
      FlagKeys(Front(s));
    }
  }

  lemma ResolvedGroupDistinct(g: seq<Item>)
    requires DistinctKeys(g)
    ensures DistinctKeys(ResolveGroup(g))
  {
    if |Values(g)| > 1 {
      TopDistinct(g, BestRank(g));
      FlagKeys(TopOf(g, BestRank(g)));
    }
  }

  /** Items of different groups come from different candidates. */
  lemma KeysDiffer(all: seq<Item>, x: Item, y: Item)
    requires DistinctKeys(all) && Plain(x) in all && Plain(y) in all
    requires Grouped(y) && (Grouped(x) ==> x.conflictKey != y.conflictKey)
    ensures Key(x) != Key(y)
  {
    if Key(x) == Key(y) {
      DistinctMembers(all, Plain(x), Plain(y));
    }
  }

  lemma {:induction false} ResolvedGroupsDistinct(all: seq<Item>, keys: seq<string>)
    requires Unmarked(all) && DistinctKeys(all) && Distinct(keys)
    ensures DistinctKeys(ResolveGroups(all, keys))
  {
    if keys != [] {
      var a, b := ResolveGroups(all, Front(keys)), ResolveGroup(GroupOf(all, Last(keys)));
      ResolvedGroupsDistinct(all, Front(keys));
      GroupDistinct(all, Last(keys));
      ResolvedGroupDistinct(GroupOf(all, Last(keys)));
      forall y <- b ensures Unseen(a, Key(y)) {
        GroupResolved(all, Last(keys), y);
        forall i | 0 <= i < |a| ensures Key(a[i]) != Key(y) {
          GroupsResolved(all, Front(keys), a[i]);
          KeysDiffer(all, a[i], y);
        }
      }
      DistinctConcat(a, b);
    }
  }

  lemma ResolveDistinct(all: seq<Item>)
    requires Unmarked(all) && DistinctKeys(all)
    ensures DistinctKeys(Resolve(all))
  {
    var a, b := Ungrouped(all), ResolveGroups(all, GroupKeys(all));
    GroupKeysAre(all);
    UngroupedDistinct(all);
    ResolvedGroupsDistinct(all, GroupKeys(all));
    forall y <- b ensures Unseen(a, Key(y)) {
      GroupsResolved(all, GroupKeys(all), y);
      UngroupedUnseen(all, y);
    }
    DistinctConcat(a, b);
  }

  lemma UngroupedUnseen(all: seq<Item>, y: Item)
    requires Unmarked(all) && DistinctKeys(all) && Plain(y) in all && Grouped(y)
    ensures Unseen(Ungrouped(all), Key(y))
  {
    var a := Ungrouped(all);
    UngroupedMembers(all);
    forall i | 0 <= i < |a| ensures Key(a[i]) != Key(y) {
      assert a[i] in a && Plain(a[i]) == a[i];
      KeysDiffer(all, a[i], y);
    }
  }

  // ------------------------------------------------------- the evidence pack

  /** An item as it was before it got its label. */
  function Bare(x: Item): Item {
    x.(tag := "")
  }

  lemma {:induction false} CandidatesPlain(desk: Desk, chunks: seq<Chunk>)
    ensures Unmarked(Candidates(desk, chunks)) && forall x <- Candidates(desk, chunks) :: x.tag == ""
  {
    if chunks != [] {
      CandidatesPlain(desk, Front(chunks));
    }
  }

  lemma {:induction false} UnresolvedDistinct(s: seq<Item>)
    requires DistinctKeys(s)
    ensures DistinctKeys(UnresolvedOf(s))
  {
    if s != [] {
      UnresolvedDistinct(Front(s));
      UnresolvedMembers(Front(s));
      SnocDistinct(UnresolvedOf(Front(s)), s);
    }
  }

  lemma SelectedDistinct(s: seq<Item>, cap: nat)
    requires DistinctKeys(s)
    ensures DistinctKeys(Selected(s, cap))
  {
    var c := Cut(s, cap);
    UnresolvedDistinct(s[c..]);
    UnresolvedMembers(s[c..]);
    forall y <- UnresolvedOf(s[c..]) ensures Unseen(s[..c], Key(y)) {
      var j :| 0 <= j < |s[c..]| && s[c..][j] == y;
      assert s[c + j] == y;
    }
    DistinctConcat(s[..c], UnresolvedOf(s[c..]));
  }

  lemma SelectedMembers(s: seq<Item>, cap: nat)
    ensures forall x <- Selected(s, cap) :: x in s
    ensures forall x <- s :: x.unresolved ==> x in Selected(s, cap)
    ensures forall i :: cap <= i < |Selected(s, cap)| ==> Selected(s, cap)[i].unresolved
    ensures |Selected(s, cap)| >= Cut(s, cap) && Selected(s, cap)[..Cut(s, cap)] == s[..Cut(s, cap)]
  {
    var c := Cut(s, cap);
    UnresolvedMembers(s[c..]);
    assert s == s[..c] + s[c..];
    forall i | cap <= i < |Selected(s, cap)| ensures Selected(s, cap)[i].unresolved {
      assert UnresolvedOf(s[c..])[i - c] in UnresolvedOf(s[c..]);
    }
  }

  /** What `pack` puts out, before labels. */
  function Chosen(desk: Desk, cap: nat, chunks: seq<Chunk>): seq<Item> {
    Selected(Sort(Resolve(Candidates(desk, chunks))), cap)
  }

  lemma ChosenIs(desk: Desk, cap: nat, chunks: seq<Chunk>)
    ensures DistinctKeys(Chosen(desk, cap, chunks)) && Sorted(Chosen(desk, cap, chunks))
    ensures forall x <- Chosen(desk, cap, chunks) :: Survives(Candidates(desk, chunks), x)
    ensures forall x :: Survives(Candidates(desk, chunks), x) && x.unresolved ==> x in Chosen(desk, cap, chunks)
    ensures forall i :: cap <= i < |Chosen(desk, cap, chunks)| ==> Chosen(desk, cap, chunks)[i].unresolved
  {
    var all := Candidates(desk, chunks);
    var r := Resolve(all);
    CandidatesAre(desk, chunks);
    CandidatesPlain(desk, chunks);
    ResolveDistinct(all);
    SortDistinct(r);
    SortSorted(r);
    SortMembers(r);
    SelectedDistinct(Sort(r), cap);
    SelectedSorted(Sort(r), cap);
    SelectedMembers(Sort(r), cap);
    forall x ensures x in r <==> Survives(all, x) {
      ResolveExactly(all, x);
    }
  }

  lemma LabelledKeeps(all: seq<Item>, s: seq<Item>)
    requires DistinctKeys(s) && Sorted(s)
    requires (forall x <- all :: x.tag == "") && forall x <- s :: Survives(all, x)
    ensures DistinctKeys(Labelled(s)) && Sorted(Labelled(s))
    ensures forall i :: 0 <= i < |s| ==> Survives(all, Bare(Labelled(s)[i]))
  {
    forall i | 0 <= i < |s| ensures Survives(all, Bare(Labelled(s)[i])) {
      assert s[i] in s;
      assert Plain(s[i]).tag == "" && Bare(Labelled(s)[i]) == s[i];
    }
  }

  /** The pack is sorted, labelled E1 to En, free of duplicates, made of surviving candidates
      only, and goes beyond the cap with unresolved conflicts only. */
  lemma PackIsSound(desk: Desk, cap: nat, chunks: seq<Chunk>)
    ensures var e := PackOf(desk, cap, chunks).evidence;
            && DistinctKeys(e) && Sorted(e)
            && (forall i :: 0 <= i < |e| ==> e[i].tag == Label(i + 1) && Survives(Candidates(desk, chunks), Bare(e[i])))
            && (forall i :: cap <= i < |e| ==> e[i].unresolved)
  {
    ChosenIs(desk, cap, chunks);
    CandidatesPlain(desk, chunks);
    LabelledKeeps(Candidates(desk, chunks), Chosen(desk, cap, chunks));
  }

  /** No hidden conflict: whatever the cap, every contested candidate is in the evidence pack. */
  lemma NoHiddenConflict(desk: Desk, cap: nat, chunks: seq<Chunk>, x: Item) returns (i: nat)
    requires x in Candidates(desk, chunks) && Contested(Candidates(desk, chunks), x)
    ensures i < |PackOf(desk, cap, chunks).evidence|
    ensures PackOf(desk, cap, chunks).evidence[i] == x.(unresolved := true, tag := Label(i + 1))
  {
    CandidatesPlain(desk, chunks);
    var marked := x.(unresolved := true);
    assert Plain(marked) == x && Survives(Candidates(desk, chunks), marked);
    i := ChosenAt(desk, cap, chunks, marked);
  }

  lemma ChosenAt(desk: Desk, cap: nat, chunks: seq<Chunk>, x: Item) returns (i: nat)
    requires Survives(Candidates(desk, chunks), x) && x.unresolved
    ensures i < |PackOf(desk, cap, chunks).evidence| && PackOf(desk, cap, chunks).evidence[i] == x.(tag := Label(i + 1))
  {
    ChosenIs(desk, cap, chunks);
    i :| 0 <= i < |Chosen(desk, cap, chunks)| && Chosen(desk, cap, chunks)[i] == x;
  }

  /** What the cap leaves out is no better than anything it let in. */
  lemma CapKeepsTheBest(desk: Desk, cap: nat, chunks: seq<Chunk>, x: Item)
    requires Survives(Candidates(desk, chunks), x)
    ensures var e := PackOf(desk, cap, chunks).evidence;
            || (exists i :: 0 <= i < |e| && Bare(e[i]) == x)
            || (|e| >= cap && forall i :: 0 <= i < cap ==> AtMost(e[i], x))
  {
    var all := Candidates(desk, chunks);
    CandidatesPlain(desk, chunks);
    ResolveExactly(all, x);
    var s := Sort(Resolve(all));
    SortMembers(Resolve(all));
    SortSorted(Resolve(all));
    SelectedMembers(s, cap);
    var chosen, e := Selected(s, cap), PackOf(desk, cap, chunks).evidence;
    var j :| 0 <= j < |s| && s[j] == x;
    if j < Cut(s, cap) {
      assert chosen[j] == chosen[..Cut(s, cap)][j] == x;
      assert Plain(x).tag == "";
      assert Bare(e[j]) == x;
    } else {
      forall i | 0 <= i < cap ensures AtMost(e[i], x) {
        assert chosen[i] == chosen[..Cut(s, cap)][i] == s[i];
      }
    }
  }

  /** Everything in the evidence pack is a chunk that was admitted (right project, PUBLISHED, current, in
      effect today), with the authority, number and dates of its version and the chunk's own claim. */
  lemma PackIsAdmitted(desk: Desk, cap: nat, chunks: seq<Chunk>, i: nat) returns (c: Chunk)
    requires i < |PackOf(desk, cap, chunks).evidence|
    ensures var x := PackOf(desk, cap, chunks).evidence[i];
            && c in chunks && Admissible(desk, c) && Describes(desk, c, x)
            && c.projectCode == desk.projectCode && ParseVersion(c.version) == Some(x.version)
            && x.content == c.content && x.space == c.space
            && x.project == desk.project && x.projectCode == desk.projectCode
            && x.version in desk.metadata && desk.metadata[x.version].project == desk.project
            && InForce(desk.metadata[x.version], desk.today)
            && x.status.Published? && x.isCurrent
  {
    PackIsSound(desk, cap, chunks);
    CandidatesAre(desk, chunks);
    var plain := Plain(Bare(PackOf(desk, cap, chunks).evidence[i]));
    assert plain in Candidates(desk, chunks);
    c :| c in chunks && Admit(desk, c) == Some(plain);
    AdmitExactly(desk, c);
  }

  // ------------------------------------------------- the unresolved conflicts

  predicate Marked(x: Item, k: string) {
    x.unresolved && x.conflictKey == Some(k) && k != ""
  }

  function MarkedOf(s: seq<Item>, k: string): seq<Item> {
    if s == [] then [] else MarkedOf(Front(s), k) + if Marked(Last(s), k) then [Last(s)] else []
  }

  lemma {:induction false} MarkedMembers(s: seq<Item>, k: string)
    ensures forall x :: x in MarkedOf(s, k) <==> x in s && Marked(x, k)
  {
    if s != [] {
      MarkedMembers(Front(s), k);
      assert s == Front(s) + [Last(s)];
    }
  }

  lemma {:induction false} ConflictMapIs(s: seq<Item>, k: string)
    ensures k in ConflictMap(s) <==> MarkedOf(s, k) != []
    ensures k in ConflictMap(s) ==> ConflictMap(s)[k] == MarkedOf(s, k)
  {
    if s != [] {
      ConflictMapIs(Front(s), k);
    }
  }

  lemma {:induction false} TagMembers(s: seq<Item>)
    ensures forall t :: t in Tags(s) <==> exists x <- s :: x.tag == t
  {
    if s != [] {
      TagMembers(Front(s));
      assert s == Front(s) + [Last(s)];
    }
  }

  /** A marked item in the evidence pack has a marked rival in the evidence pack that contradicts it. */
  lemma MarkedHasRival(desk: Desk, cap: nat, chunks: seq<Chunk>, i: nat) returns (j: nat)
    requires i < |PackOf(desk, cap, chunks).evidence| && PackOf(desk, cap, chunks).evidence[i].unresolved
    ensures var e := PackOf(desk, cap, chunks).evidence;
            && Contested(Candidates(desk, chunks), Plain(Bare(e[i])))
            && j < |e| && e[j].unresolved && e[j].conflictKey == e[i].conflictKey && e[j].claimValue != e[i].claimValue
            && Grouped(e[i])
  {
    PackIsSound(desk, cap, chunks);
    var all := Candidates(desk, chunks);
    var x := Plain(Bare(PackOf(desk, cap, chunks).evidence[i]));
    assert Contested(all, x);
    var y :| y in all && Best(all, y) && Contradicts(x, y);
    assert Contradicts(y, x);
    j := NoHiddenConflict(desk, cap, chunks, y);
  }

  /** The test for more than one claim value never rejects a key. */
  lemma EveryConflictIsReal(desk: Desk, cap: nat, chunks: seq<Chunk>, k: string)
    requires k in ConflictMap(PackOf(desk, cap, chunks).evidence)
    ensures |Values(ConflictMap(PackOf(desk, cap, chunks).evidence)[k])| > 1
  {
    var e := PackOf(desk, cap, chunks).evidence;
    ConflictMapIs(e, k);
    MarkedMembers(e, k);
    var g := MarkedOf(e, k);
    assert g[0] in g;
    var i :| 0 <= i < |e| && e[i] == g[0];
    var j := MarkedHasRival(desk, cap, chunks, i);
    assert e[j] in g && g[0] in g;
    TwoElements(Values(g), e[i].claimValue, e[j].claimValue);
  }

  lemma ListedIsContested(desk: Desk, cap: nat, chunks: seq<Chunk>, k: string) returns (c: Item)
    requires k in ConflictMap(PackOf(desk, cap, chunks).evidence)
    ensures c in Candidates(desk, chunks) && Contested(Candidates(desk, chunks), c) && InGroup(c, k)
  {
    var e := PackOf(desk, cap, chunks).evidence;
    ConflictMapIs(e, k);
    MarkedMembers(e, k);
    assert MarkedOf(e, k)[0] in MarkedOf(e, k);
    var i :| 0 <= i < |e| && e[i] == MarkedOf(e, k)[0];
    var j := MarkedHasRival(desk, cap, chunks, i);
    PackIsSound(desk, cap, chunks);
    c := Plain(Bare(e[i]));
  }

  lemma ContestedIsListed(desk: Desk, cap: nat, chunks: seq<Chunk>, k: string, c: Item)
    requires c in Candidates(desk, chunks) && Contested(Candidates(desk, chunks), c) && InGroup(c, k)
    ensures k in ConflictMap(PackOf(desk, cap, chunks).evidence)
  {
    var e := PackOf(desk, cap, chunks).evidence;
    ConflictMapIs(e, k);
    MarkedMembers(e, k);
    var i := NoHiddenConflict(desk, cap, chunks, c);
    assert e[i] in MarkedOf(e, k);
  }

  /** `unresolved_conflicts` has exactly the keys under which candidates are contested. */
  lemma UnresolvedExactly(desk: Desk, cap: nat, chunks: seq<Chunk>, k: string)
    ensures k in PackOf(desk, cap, chunks).unresolved
       <==> exists c <- Candidates(desk, chunks) :: Contested(Candidates(desk, chunks), c) && InGroup(c, k)
  {
    if k in ConflictMap(PackOf(desk, cap, chunks).evidence) {
      EveryConflictIsReal(desk, cap, chunks, k);
      var c := ListedIsContested(desk, cap, chunks, k);
    }
    if c :| c in Candidates(desk, chunks) && Contested(Candidates(desk, chunks), c) && InGroup(c, k) {
      ContestedIsListed(desk, cap, chunks, k, c);
    }
  }

  /** ... and maps each to exactly the labels of its marked items. */
  lemma UnresolvedLabels(desk: Desk, cap: nat, chunks: seq<Chunk>, k: string)
    requires k in PackOf(desk, cap, chunks).unresolved
    ensures var p := PackOf(desk, cap, chunks);
            forall t :: t in p.unresolved[k] <==> exists x <- p.evidence :: x.tag == t && Marked(x, k)
  {
    var e := PackOf(desk, cap, chunks).evidence;
    ConflictMapIs(e, k);
    MarkedMembers(e, k);
    TagMembers(MarkedOf(e, k));
  }

  // ------------------------------------------------------- saving and loading

  /** The conflicts a stored bundle is loaded with, rebuilt from the marks of its rows. */
  function Reloaded(s: seq<Item>): map<string, seq<string>> {
    if s == [] then map[]
    else if !(Last(s).unresolved && Last(s).conflictKey.Some?) then Reloaded(Front(s))
    else
      var k, m := Last(s).conflictKey.value, Reloaded(Front(s));
      m[k := (if k in m then m[k] else []) + [Last(s).tag]]
  }

  method LoadConflicts(rows: seq<Item>) returns (conflicts: map<string, seq<string>>)
    ensures conflicts == Reloaded(rows)
  {
    conflicts := map[];
    for i := 0 to |rows|
      invariant conflicts == Reloaded(rows[..i])
    {
      assert Front(rows[..i + 1]) == rows[..i];
      if rows[i].unresolved && rows[i].conflictKey.Some? {
        var k := rows[i].conflictKey.value;
        conflicts := conflicts[k := (if k in conflicts then conflicts[k] else []) + [rows[i].tag]];
      }
    }
    assert rows[..|rows|] == rows;
  }

  lemma {:induction false} ReloadedIs(s: seq<Item>, k: string)
    requires forall x <- s :: x.conflictKey != Some("")
    ensures k in Reloaded(s) <==> k in ConflictMap(s)
    ensures k in ConflictMap(s) ==> Reloaded(s)[k] == Tags(ConflictMap(s)[k])
  {
    if s != [] {
      ReloadedIs(Front(s), k);
      assert Last(s) in s;
      if Last(s).unresolved && Last(s).conflictKey == Some(k) {
        TagsSnoc(if k in ConflictMap(Front(s)) then ConflictMap(Front(s))[k] else [], Last(s));
      }
    }
  }

  lemma TagsSnoc(s: seq<Item>, x: Item)
    ensures Tags(s + [x]) == Tags(s) + [x.tag]
  {
    assert Front(s + [x]) == s;
  }

  /** A pack that is saved and loaded again comes back with the same unresolved conflicts. */
  lemma ConflictsSurviveStorage(desk: Desk, cap: nat, chunks: seq<Chunk>)
    ensures Reloaded(PackOf(desk, cap, chunks).evidence) == PackOf(desk, cap, chunks).unresolved
  {
    var p := PackOf(desk, cap, chunks);
    forall x <- p.evidence ensures x.conflictKey != Some("") {
      var i :| 0 <= i < |p.evidence| && p.evidence[i] == x;
      NoEmptyKey(desk, cap, chunks, i);
    }
    forall k ensures k in Reloaded(p.evidence) <==> k in p.unresolved {
      ReloadedIs(p.evidence, k);
      if k in ConflictMap(p.evidence) {
        EveryConflictIsReal(desk, cap, chunks, k);
      }
    }
    forall k | k in p.unresolved ensures Reloaded(p.evidence)[k] == p.unresolved[k] {
      ReloadedIs(p.evidence, k);
    }
  }

  lemma NoEmptyKey(desk: Desk, cap: nat, chunks: seq<Chunk>, i: nat)
    requires i < |PackOf(desk, cap, chunks).evidence|
    ensures PackOf(desk, cap, chunks).evidence[i].conflictKey != Some("")
  {
    PackIsSound(desk, cap, chunks);
    CandidatesAre(desk, chunks);
    var plain := Plain(Bare(PackOf(desk, cap, chunks).evidence[i]));
    assert plain in Candidates(desk, chunks);
    var c :| c in chunks && Admit(desk, c) == Some(plain);
  }

  // ---------------------------------------------------------- the whole service

  lemma ResolvedHaveKeys(desk: Desk, chunks: seq<Chunk>)
    ensures forall x <- Resolve(Candidates(desk, chunks)) :: x.unresolved ==> x.conflictKey.Some?
  {
    CandidatesPlain(desk, chunks);
    forall x <- Resolve(Candidates(desk, chunks)) ensures x.unresolved ==> x.conflictKey.Some? {
      ResolveExactly(Candidates(desk, chunks), x);
    }
  }

  method NumberItems(selected: seq<Item>) returns (evidence: seq<Item>)
    ensures evidence == Labelled(selected)
  {
    evidence := [];
    for i := 0 to |selected|
      invariant |evidence| == i
      invariant forall j :: 0 <= j < i ==> evidence[j] == selected[j].(tag := Label(j + 1))
    {
      evidence := evidence + [selected[i].(tag := Label(i + 1))];
    }
  }

  method CollectConflicts(evidence: seq<Item>) returns (unresolved: map<string, seq<string>>)
    ensures unresolved == Unresolved(evidence)
  {
    var byConflict: map<string, seq<Item>> := map[];
    for i := 0 to |evidence|
      invariant byConflict == ConflictMap(evidence[..i])
    {
      assert Front(evidence[..i + 1]) == evidence[..i];
      if evidence[i].unresolved && NonEmpty(evidence[i].conflictKey).Some? {
        var k := evidence[i].conflictKey.value;
        byConflict := byConflict[k := (if k in byConflict then byConflict[k] else []) + [evidence[i]]];
      }
    }
    assert evidence[..|evidence|] == evidence;
    unresolved := map k | k in byConflict && |Values(byConflict[k])| > 1 :: Tags(byConflict[k]);
  }

  /** `EvidenceGovernanceService.pack`. */
  method PackEvidence(desk: Desk, cap: nat, chunks: seq<Chunk>) returns (p: Pack)
    ensures p == PackOf(desk, cap, chunks)
  {
    var candidates := Collect(desk, chunks);
    var resolved := ResolveConflicts(candidates);
    ResolvedHaveKeys(desk, chunks);
    var selected := Select(resolved, cap);
    var evidence := NumberItems(selected);
    var unresolved := CollectConflicts(evidence);
    p := Pack(evidence, unresolved);
  }
}
