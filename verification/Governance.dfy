/** Evidence governance: admission, removal of duplicates, resolution of conflicts by authority,
    capped selection and labelling (application/services/evidence_governance.py). */
module Governance {
  import opened Common
  import opened Text
  import opened Evidence
  import Documents

  // ---------------------------------------------------------------- admission

  /** The text a chunk carries as its version id: the canonical form of an id, another spelling
      that still parses to it, or something that does not parse. */
  datatype VersionText = Canonical(id: nat) | Alias(id: nat, text: string) | Malformed(text: string)

  function ParseVersion(t: VersionText): Option<nat> {
    match t
    case Canonical(id) => Some(id)
    case Alias(id, _) => Some(id)
    case Malformed(_) => None
  }

  datatype Chunk = Chunk(
    projectCode: string,
    version: VersionText,
    content: string,
    score: real,
    space: Option<string>,
    conflictKey: Option<string>,
    claimValue: Option<string>)

  datatype Metadata = Metadata(
    project: nat,
    authority: Authority,
    status: Documents.Lifecycle,
    isCurrent: bool,
    versionNo: int,
    effectiveFrom: Option<Date>,
    effectiveTo: Option<Date>)

  /** What one call of `pack` works with: the project, the catalogue and the day. */
  datatype Desk = Desk(project: nat, projectCode: string, metadata: map<nat, Metadata>, today: Date)

  function NonEmpty(o: Option<string>): Option<string> {
    if o == Some("") then None else o
  }

  predicate InForce(m: Metadata, today: Date) {
    && m.status.Published? && m.isCurrent
    && (m.effectiveFrom.None? || m.effectiveFrom.value <= today)
    && (m.effectiveTo.None? || m.effectiveTo.value >= today)
  }

  function Admit(desk: Desk, c: Chunk): Option<Item> {
    if c.projectCode != desk.projectCode || ParseVersion(c.version).None? then None
    else
      var v := ParseVersion(c.version).value;
      if v !in desk.metadata then None
      else
        var m := desk.metadata[v];
        if m.project != desk.project || !InForce(m, desk.today) then None
        else
        Some(Item("", desk.project, desk.projectCode, v, m.versionNo, m.authority, m.status, m.isCurrent,
                  m.effectiveFrom, m.effectiveTo, c.content, c.score, c.space,
                  NonEmpty(c.conflictKey), NonEmpty(c.claimValue), false))
  }

  /** The chunk is evidence: of the project, and of a version of the project that is PUBLISHED, current
      and in effect today, its first and last day included. */
  predicate Admissible(desk: Desk, c: Chunk) {
    && c.projectCode == desk.projectCode && !c.version.Malformed? && c.version.id in desk.metadata
    && var m := desk.metadata[c.version.id];
       && m.project == desk.project && m.status == Documents.Published && m.isCurrent
       && (m.effectiveFrom.Some? ==> m.effectiveFrom.value <= desk.today)
       && (m.effectiveTo.Some? ==> desk.today <= m.effectiveTo.value)
  }

  /** What an item says of itself is what the catalogue says of its version; what it claims is the chunk's. */
  predicate Describes(desk: Desk, c: Chunk, x: Item)
    requires Admissible(desk, c)
  {
    var m := desk.metadata[c.version.id];
    && x.project == desk.project && x.projectCode == desk.projectCode && x.version == c.version.id
    && x.authority == m.authority && x.versionNo == m.versionNo && x.status == m.status && x.isCurrent
    && x.effectiveFrom == m.effectiveFrom && x.effectiveTo == m.effectiveTo
    && x.content == c.content && x.score == c.score && x.space == c.space
    && x.conflictKey == (if c.conflictKey == Some("") then None else c.conflictKey)
    && x.claimValue == (if c.claimValue == Some("") then None else c.claimValue)
  }

  lemma AdmitExactly(desk: Desk, c: Chunk)
    ensures Admit(desk, c).Some? <==> Admissible(desk, c)
    ensures Admissible(desk, c) ==>
              var x := Admit(desk, c).value;
              Describes(desk, c, x) && x.tag == "" && !x.unresolved
  {
  }

  /** Admitted chunks, the first of each (version, stripped content). */
  function Candidates(desk: Desk, chunks: seq<Chunk>): seq<Item> {
    if chunks == [] then []
    else
      var prior := Candidates(desk, Front(chunks));
      var item := Admit(desk, Last(chunks));
      if item.Some? && Unseen(prior, Key(item.value)) then prior + [item.value] else prior
  }

  /** The collecting loop of `pack`. */
  method Collect(desk: Desk, chunks: seq<Chunk>) returns (candidates: seq<Item>)
    ensures candidates == Candidates(desk, chunks)
  {
    candidates := [];
    var seen: set<(nat, string)> := {};
    for i := 0 to |chunks|
      invariant candidates == Candidates(desk, chunks[..i])
      invariant forall k :: k in seen <==> !Unseen(candidates, k)
    {
      assert Front(chunks[..i + 1]) == chunks[..i];
      var item := Admit(desk, chunks[i]);
      if item.Some? && Key(item.value) !in seen {
        GrowSeen(candidates, item.value);
        seen := seen + {Key(item.value)};
        candidates := candidates + [item.value];
      }
    }
    assert chunks[..|chunks|] == chunks;
  }

  lemma GrowSeen(s: seq<Item>, x: Item)
    ensures forall k :: Unseen(s + [x], k) <==> Unseen(s, k) && Key(x) != k
  {
    forall k ensures Unseen(s + [x], k) <==> Unseen(s, k) && Key(x) != k {
      var r := s + [x];
      if Unseen(r, k) {
        assert r[|s|] == x;
        forall i | 0 <= i < |s| ensures Key(s[i]) != k { assert r[i] == s[i]; }
      }
    }
  }

  /** Exactly one candidate per piece of admissible evidence. */
  lemma {:induction false} CandidatesAre(desk: Desk, chunks: seq<Chunk>)
    ensures DistinctKeys(Candidates(desk, chunks))
    ensures forall x <- Candidates(desk, chunks) :: exists c <- chunks :: Admit(desk, c) == Some(x)
    ensures forall c <- chunks :: Admit(desk, c).Some? ==> !Unseen(Candidates(desk, chunks), Key(Admit(desk, c).value))
  {
    if chunks != [] {
      CandidatesAre(desk, Front(chunks));
      var prior, item := Candidates(desk, Front(chunks)), Admit(desk, Last(chunks));
      assert chunks == Front(chunks) + [Last(chunks)];
      if item.Some? {
        GrowSeen(prior, item.value);
      }
    }
  }

  // -------------------------------------------------------- conflict resolution

  /** Takes part in a conflict group. */
  predicate Grouped(x: Item) {
    x.conflictKey.Some? && x.conflictKey.value != "" && x.claimValue.Some?
  }

  predicate InGroup(x: Item, k: string) {
    Grouped(x) && x.conflictKey.value == k
  }

  function Ungrouped(s: seq<Item>): seq<Item> {
    if s == [] then [] else Ungrouped(Front(s)) + if Grouped(Last(s)) then [] else [Last(s)]
  }

  function GroupOf(s: seq<Item>, k: string): seq<Item> {
    if s == [] then [] else GroupOf(Front(s), k) + if InGroup(Last(s), k) then [Last(s)] else []
  }

  /** Group keys in the order of their first appearance. */
  function GroupKeys(s: seq<Item>): seq<string> {
    if s == [] then []
    else
      var keys := GroupKeys(Front(s));
      if Grouped(Last(s)) && Last(s).conflictKey.value !in keys then keys + [Last(s).conflictKey.value] else keys
  }

  function Values(s: seq<Item>): set<Option<string>> {
    set x | x in s :: x.claimValue
  }

  function BestRank(s: seq<Item>): (best: nat)
    requires s != []
    ensures forall x <- s :: best <= Rank(x.authority)
    ensures exists x <- s :: best == Rank(x.authority)
  {
    var last := Rank(Last(s).authority);
    assert s == Front(s) + [Last(s)];
    if |s| == 1 then last
    else
      var best := BestRank(Front(s));
      if last < best then last else best
  }

  function TopOf(s: seq<Item>, best: nat): seq<Item> {
    if s == [] then [] else TopOf(Front(s), best) + if Rank(Last(s).authority) == best then [Last(s)] else []
  }

  function Flag(s: seq<Item>): seq<Item> {
    if s == [] then [] else Flag(Front(s)) + [Last(s).(unresolved := true)]
  }

  function ResolveGroup(g: seq<Item>): seq<Item> {
    if |Values(g)| <= 1 then g
    else
      var top := TopOf(g, BestRank(g));
      if |Values(top)| == 1 then top else Flag(top)
  }

  function ResolveGroups(s: seq<Item>, keys: seq<string>): seq<Item> {
    if keys == [] then [] else ResolveGroups(s, Front(keys)) + ResolveGroup(GroupOf(s, Last(keys)))
  }

  function Resolve(s: seq<Item>): seq<Item> {
    Ungrouped(s) + ResolveGroups(s, GroupKeys(s))
  }

  function GroupMap(s: seq<Item>): map<string, seq<Item>> {
    if s == [] then map[]
    else if !Grouped(Last(s)) then GroupMap(Front(s))
    else
      var k, m := Last(s).conflictKey.value, GroupMap(Front(s));
      m[k := (if k in m then m[k] else []) + [Last(s)]]
  }

  lemma {:induction false} GroupMapIs(s: seq<Item>, k: string)
    ensures k in GroupMap(s) <==> k in GroupKeys(s)
    ensures if k in GroupMap(s) then GroupMap(s)[k] == GroupOf(s, k) && GroupOf(s, k) != [] else GroupOf(s, k) == []
  {
    if s != [] {
      GroupMapIs(Front(s), k);
      if Grouped(Last(s)) {
        GroupMapIs(Front(s), Last(s).conflictKey.value);
      }
    }
  }

  lemma GroupMapSnoc(s: seq<Item>, x: Item)
    ensures GroupMap(s + [x]) ==
            if !Grouped(x) then GroupMap(s)
            else GroupMap(s)[x.conflictKey.value :=
                   (if x.conflictKey.value in GroupMap(s) then GroupMap(s)[x.conflictKey.value] else []) + [x]]
    ensures GroupKeys(s + [x])
         == GroupKeys(s) + if Grouped(x) && x.conflictKey.value !in GroupMap(s) then [x.conflictKey.value] else []
    ensures Ungrouped(s + [x]) == Ungrouped(s) + if Grouped(x) then [] else [x]
  {
    assert Front(s + [x]) == s;
    if Grouped(x) {
      GroupMapIs(s, x.conflictKey.value);
    }
  }

  /** The first loop of `_resolve_explicit_conflicts`. */
  method GroupUp(candidates: seq<Item>)
    returns (groups: map<string, seq<Item>>, order: seq<string>, ungrouped: seq<Item>)
    ensures groups == GroupMap(candidates) && order == GroupKeys(candidates) && ungrouped == Ungrouped(candidates)
  {
    groups, order, ungrouped := map[], [], [];
    for i := 0 to |candidates|
      invariant groups == GroupMap(candidates[..i]) && order == GroupKeys(candidates[..i])
      invariant ungrouped == Ungrouped(candidates[..i])
    {
      var item := candidates[i];
      assert candidates[..i + 1] == candidates[..i] + [item];
      GroupMapSnoc(candidates[..i], item);
      if Grouped(item) {
        var k := item.conflictKey.value;
        var values := [];
        if k in groups {
          values := groups[k];
        } else {
          order := order + [k];
        }
        groups := groups[k := values + [item]];
      } else {
        ungrouped := ungrouped + [item];
      }
    }
    assert candidates[..|candidates|] == candidates;
  }

  lemma Associative(a: seq<Item>, b: seq<Item>, c: seq<Item>)
    ensures a + (b + c) == a + b + c
  {
  }

  lemma ResolveGroupsSnoc(s: seq<Item>, keys: seq<string>, i: nat)
    requires i < |keys|
    ensures ResolveGroups(s, keys[..i + 1]) == ResolveGroups(s, keys[..i]) + ResolveGroup(GroupOf(s, keys[i]))
  {
    var longer := keys[..i + 1];
    assert Front(longer) == keys[..i] && Last(longer) == keys[i];
  }

  /** `_resolve_explicit_conflicts`. */
  method ResolveConflicts(candidates: seq<Item>) returns (result: seq<Item>)
    ensures result == Resolve(candidates)
  {
    var groups, order, ungrouped := GroupUp(candidates);
    result := ungrouped;
    for i := 0 to |order|
      invariant result == ungrouped + ResolveGroups(candidates, order[..i])
    {
      ResolveGroupsSnoc(candidates, order, i);
      GroupMapIs(candidates, order[i]);
      var settled := SettleGroup(groups[order[i]]);
      Associative(ungrouped, ResolveGroups(candidates, order[..i]), settled);
      result := result + settled;
    }
    assert order[..|order|] == order;
  }

  method SettleGroup(values: seq<Item>) returns (kept: seq<Item>)
    ensures kept == ResolveGroup(values)
  {
    if |Values(values)| <= 1 {
      return values;
    }
    var best := BestRank(values);
    var top: seq<Item> := [];
    for i := 0 to |values|
      invariant top == TopOf(values[..i], best)
    {
      assert Front(values[..i + 1]) == values[..i];
      if Rank(values[i].authority) == best {
        top := top + [values[i]];
      }
    }
    assert values[..|values|] == values;
    if |Values(top)| == 1 {
      return top;
    }
    kept := [];
    for i := 0 to |top|
      invariant kept == Flag(top[..i])
    {
      assert Front(top[..i + 1]) == top[..i];
      kept := kept + [top[i].(unresolved := true)];
    }
    assert top[..|top|] == top;
  }

  // ------------------------------------------------------ selection and labels

  function UnresolvedOf(s: seq<Item>): seq<Item> {
    if s == [] then [] else UnresolvedOf(Front(s)) + if Last(s).unresolved then [Last(s)] else []
  }

  function Cut(s: seq<Item>, cap: nat): nat {
    if cap <= |s| then cap else |s|
  }

  /** The best `cap` items and, beyond them, whatever is an unresolved conflict. */
  function Selected(s: seq<Item>, cap: nat): seq<Item> {
    s[..Cut(s, cap)] + UnresolvedOf(s[Cut(s, cap)..])
  }

  function Label(n: nat): string {
    "E" + Decimal(n)
  }

  function Labelled(s: seq<Item>): seq<Item> {
    seq(|s|, i requires 0 <= i < |s| => s[i].(tag := Label(i + 1)))
  }

  /** Unresolved items with a key, by key. */
  function ConflictMap(s: seq<Item>): map<string, seq<Item>> {
    if s == [] then map[]
    else if !(Last(s).unresolved && NonEmpty(Last(s).conflictKey).Some?) then ConflictMap(Front(s))
    else
      var k, m := Last(s).conflictKey.value, ConflictMap(Front(s));
      m[k := (if k in m then m[k] else []) + [Last(s)]]
  }

  function Tags(s: seq<Item>): seq<string> {
    if s == [] then [] else Tags(Front(s)) + [Last(s).tag]
  }

  function Unresolved(s: seq<Item>): map<string, seq<string>> {
    var m := ConflictMap(s);
    map k | k in m && |Values(m[k])| > 1 :: Tags(m[k])
  }

  datatype Pack = Pack(evidence: seq<Item>, unresolved: map<string, seq<string>>)

  function PackOf(desk: Desk, cap: nat, chunks: seq<Chunk>): Pack {
    var evidence := Labelled(Selected(Sort(Resolve(Candidates(desk, chunks))), cap));
    Pack(evidence, Unresolved(evidence))
  }

  lemma UnresolvedSnoc(s: seq<Item>, lo: nat, i: nat)
    requires lo <= i < |s|
    ensures UnresolvedOf(s[lo..i + 1]) == UnresolvedOf(s[lo..i]) + if s[i].unresolved then [s[i]] else []
  {
    assert Front(s[lo..i + 1]) == s[lo..i];
  }

  lemma {:induction false} UnresolvedMembers(s: seq<Item>)
    ensures forall x :: x in UnresolvedOf(s) <==> x in s && x.unresolved
  {
    if s != [] {
      UnresolvedMembers(Front(s));
      assert s == Front(s) + [Last(s)];
    }
  }

  lemma {:induction false} UnresolvedSorted(s: seq<Item>)
    requires Sorted(s)
    ensures Sorted(UnresolvedOf(s))
  {
    if s != [] {
      UnresolvedSorted(Front(s));
      UnresolvedMembers(Front(s));
      var r := UnresolvedOf(Front(s));
      forall i | 0 <= i < |r| ensures AtMost(r[i], Last(s)) {
        assert r[i] in Front(s);
      }
    }
  }

  /** Items taken past the cap come in behind the others: the second sort finds nothing to do. */
  lemma SelectedSorted(s: seq<Item>, cap: nat)
    requires Sorted(s)
    ensures Sorted(Selected(s, cap))
  {
    var c := Cut(s, cap);
    var rest := UnresolvedOf(s[c..]);
    UnresolvedSorted(s[c..]);
    UnresolvedMembers(s[c..]);
    forall i, j | 0 <= i < c && 0 <= j < |rest| ensures AtMost(s[i], rest[j]) {
      assert rest[j] in s[c..];
    }
  }

  lemma NothingUnresolved(s: seq<Item>)
    requires forall x <- s :: !x.unresolved
    ensures UnresolvedOf(s) == []
  {
    UnresolvedMembers(s);
    if UnresolvedOf(s) != [] {
      assert UnresolvedOf(s)[0] in UnresolvedOf(s);
    }
  }

  /** What the protected keys bring back in, behind the cut. */
  method AppendProtected(candidates: seq<Item>, c: nat, protected: set<Option<string>>) returns (selected: seq<Item>)
    requires c <= |candidates|
    requires forall x <- candidates :: x.unresolved ==> x.conflictKey in protected
    ensures selected == candidates[..c] + UnresolvedOf(candidates[c..])
  {
    selected := candidates[..c];
    var chosen: set<nat> := {};
    for i := 0 to c
      invariant forall j :: j in chosen <==> 0 <= j < i
    {
      chosen := chosen + {i};
    }
    assert candidates[c..c] == [];
    for i := 0 to |candidates|
      invariant forall j :: j in chosen ==> j < c || j < i
      invariant forall j :: 0 <= j < c ==> j in chosen
      invariant selected == candidates[..c] + UnresolvedOf(if i <= c then [] else candidates[c..i])
    {
      assert candidates[i] in candidates;
      if i >= c {
        UnresolvedSnoc(candidates, c, i);
      }
      if candidates[i].unresolved && candidates[i].conflictKey in protected && i !in chosen {
        selected := selected + [candidates[i]];
        chosen := chosen + {i};
      }
    }
    assert candidates[c..|candidates|] == candidates[c..];
  }

  /** The selecting part of `pack`: a cut, the protected keys, the items they bring back in, and
      the second sort. */
  method Select(resolved: seq<Item>, cap: nat) returns (selected: seq<Item>)
    requires forall x <- resolved :: x.unresolved ==> x.conflictKey.Some?
    ensures selected == Selected(Sort(resolved), cap)
  {
    var candidates := Sort(resolved);
    SortSorted(resolved);
    SortMembers(resolved);
    var c := Cut(candidates, cap);
    var protected := set x | x in candidates && x.unresolved && x.conflictKey.Some? :: x.conflictKey;
    if protected != {} {
      selected := AppendProtected(candidates, c, protected);
      SelectedSorted(candidates, cap);
      SortOfSorted(selected);
      selected := Sort(selected);
    } else {
      selected := candidates[..c];
      assert forall x <- candidates :: x.unresolved ==> x.conflictKey in protected;
      NothingUnresolved(candidates[c..]);
    }
  }
}
