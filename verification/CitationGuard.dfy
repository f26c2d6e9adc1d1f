/** The citation guard (application/services/citation_guard.py) and the stored bundle it reads
    (infrastructure/db/repositories/qa_graph.py). */
module CitationGuard {
  import opened Common
  import opened Text
  import opened Evidence
  import opened Governance
  import opened ConflictPolicy

  /** An evidence item as stored under a snapshot id. */
  datatype Frozen = Frozen(snapshot: nat, item: Item)

  datatype Bundle = Bundle(evidence: seq<Frozen>, unresolved: map<string, seq<string>>)

  datatype Claim = Claim(text: string, tags: seq<string>)

  datatype Draft = Draft(claims: seq<Claim>, disclosure: Option<Claim>)

  datatype Fault =
    | DuplicateLabel(tag: string)
    | UncitedClaim(number: nat)
    | UnknownEvidence(tag: string)
    | CrossProject(tag: string)
    | NonCurrent(tag: string)
    | MissingDisclosure(key: string)
    | NoClaims

  datatype Verdict = Verdict(valid: bool, covered: nat, faults: seq<Fault>, used: seq<string>)

  /** The dictionary by label: the last item of a label wins. */
  function ByLabel(evidence: seq<Frozen>): map<string, Frozen> {
    if evidence == [] then map[] else ByLabel(Front(evidence))[Last(evidence).item.tag := Last(evidence)]
  }

  // -------------------------------------------------- the declarative meaning

  predicate DistinctLabels(evidence: seq<Frozen>) {
    forall i, j :: 0 <= i < j < |evidence| ==> evidence[i].item.tag != evidence[j].item.tag
  }

  predicate InProject(b: Bundle, t: string, project: nat) {
    t in ByLabel(b.evidence) && ByLabel(b.evidence)[t].item.project == project
  }

  predicate Current(b: Bundle, t: string) {
    t in ByLabel(b.evidence) && ByLabel(b.evidence)[t].item.status.Published? && ByLabel(b.evidence)[t].item.isCurrent
  }

  predicate ClaimOk(b: Bundle, c: Claim, project: nat) {
    c.tags != [] && forall t <- c.tags :: InProject(b, t, project) && Current(b, t)
  }

  function DisclosureTags(d: Draft): seq<string> {
    if d.disclosure.Some? then d.disclosure.value.tags else []
  }

  /** The draft may be shown: labels are unambiguous, there is a claim, every claim is cited by
      known, current evidence of the project, the disclosure by known evidence of the project,
      and it discloses every unresolved conflict in full. */
  predicate Passes(d: Draft, b: Bundle, project: nat) {
    && DistinctLabels(b.evidence)
    && d.claims != []
    && (forall c <- d.claims :: ClaimOk(b, c, project))
    && (forall t <- DisclosureTags(d) :: InProject(b, t, project))
    && (forall k <- b.unresolved :: d.disclosure.Some? && forall t <- b.unresolved[k] :: t in DisclosureTags(d))
  }

  /** The fault is really there. */
  predicate Justified(f: Fault, d: Draft, b: Bundle, project: nat) {
    match f
    case DuplicateLabel(t) =>
      exists i, j :: 0 <= i < j < |b.evidence| && b.evidence[i].item.tag == t && b.evidence[j].item.tag == t
    case UncitedClaim(n) => 1 <= n <= |d.claims| && d.claims[n - 1].tags == []
    case UnknownEvidence(t) => Cited(d, t) && t !in ByLabel(b.evidence)
    case CrossProject(t) => Cited(d, t) && t in ByLabel(b.evidence) && !InProject(b, t, project)
    case NonCurrent(t) => CitedByClaim(d.claims, t) && t in ByLabel(b.evidence) && !Current(b, t)
    case MissingDisclosure(k) =>
      k in b.unresolved && !(d.disclosure.Some? && forall t <- b.unresolved[k] :: t in DisclosureTags(d))
    case NoClaims => d.claims == []
  }

  predicate CitedByClaim(claims: seq<Claim>, t: string) {
    exists c <- claims :: t in c.tags
  }

  predicate Cited(d: Draft, t: string) {
    CitedByClaim(d.claims, t) || t in DisclosureTags(d)
  }

  // ------------------------------------------------------ what the loops build

  /** What one cited label adds; a claim's evidence must also be current. */
  function TagFaults(b: Bundle, t: string, project: nat, claim: bool): seq<Fault> {
    if t !in ByLabel(b.evidence) then [UnknownEvidence(t)]
    else (if InProject(b, t, project) then [] else [CrossProject(t)])
         + (if claim && !Current(b, t) then [NonCurrent(t)] else [])
  }

  function TagsFaults(b: Bundle, tags: seq<string>, project: nat, claim: bool): seq<Fault> {
    if tags == [] then [] else TagsFaults(b, Front(tags), project, claim) + TagFaults(b, Last(tags), project, claim)
  }

  function ClaimFaults(b: Bundle, claims: seq<Claim>, project: nat): seq<Fault> {
    if claims == [] then []
    else ClaimFaults(b, Front(claims), project)
         + if Last(claims).tags == [] then [UncitedClaim(|claims|)] else TagsFaults(b, Last(claims).tags, project, true)
  }

  /** Known labels, each at its first citation. */
  function Use(b: Bundle, used: seq<string>, tags: seq<string>): seq<string> {
    if tags == [] then used
    else
      var prior := Use(b, used, Front(tags));
      if Last(tags) in ByLabel(b.evidence) && Last(tags) !in prior then prior + [Last(tags)] else prior
  }

  function UseClaims(b: Bundle, claims: seq<Claim>): seq<string> {
    if claims == [] then [] else Use(b, UseClaims(b, Front(claims)), Last(claims).tags)
  }

  function Used(d: Draft, b: Bundle): seq<string> {
    Use(b, UseClaims(b, d.claims), DisclosureTags(d))
  }

  function Covered(b: Bundle, claims: seq<Claim>, project: nat): nat {
    if claims == [] then 0 else Covered(b, Front(claims), project) + if ClaimOk(b, Last(claims), project) then 1 else 0
  }

  function DuplicateFaults(evidence: seq<Frozen>, upTo: nat): seq<Fault>
    requires upTo <= |evidence|
  {
    if upTo == 0 then []
    else DuplicateFaults(evidence, upTo - 1)
         + if Repeated(evidence, upTo - 1) then [DuplicateLabel(evidence[upTo - 1].item.tag)] else []
  }

  predicate Repeated(evidence: seq<Frozen>, i: nat)
    requires i < |evidence|
  {
    exists j :: 0 <= j < |evidence| && j != i && evidence[j].item.tag == evidence[i].item.tag
  }

  /** `dict.fromkeys`. */
  function Unique(s: seq<Fault>): seq<Fault> {
    if s == [] then []
    else if Last(s) in Unique(Front(s)) then Unique(Front(s))
    else Unique(Front(s)) + [Last(s)]
  }

  // ---------------------------------------------------------------- the loops

  method CheckTag(b: Bundle, known: map<string, Frozen>, t: string, project: nat, claim: bool)
    returns (faults: seq<Fault>)
    requires known == ByLabel(b.evidence)
    ensures faults == TagFaults(b, t, project, claim)
  {
    if t !in known {
      return [UnknownEvidence(t)];
    }
    faults := [];
    if known[t].item.project != project {
      faults := faults + [CrossProject(t)];
    }
    if claim && !(known[t].item.status.Published? && known[t].item.isCurrent) {
      faults := faults + [NonCurrent(t)];
    }
  }

  lemma TagsSnoc(b: Bundle, tags: seq<string>, i: nat, project: nat, claim: bool, used: seq<string>)
    requires i < |tags|
    ensures TagsFaults(b, tags[..i + 1], project, claim)
         == TagsFaults(b, tags[..i], project, claim) + TagFaults(b, tags[i], project, claim)
    ensures Use(b, used, tags[..i + 1]) ==
            var prior := Use(b, used, tags[..i]);
            prior + if tags[i] in ByLabel(b.evidence) && tags[i] !in prior then [tags[i]] else []
  {
    assert Front(tags[..i + 1]) == tags[..i];
  }

  method CheckTags(b: Bundle, known: map<string, Frozen>, tags: seq<string>, project: nat, claim: bool,
                   used0: seq<string>)
    returns (faults: seq<Fault>, used: seq<string>)
    requires known == ByLabel(b.evidence)
    ensures faults == TagsFaults(b, tags, project, claim)
    ensures used == Use(b, used0, tags)
  {
    faults, used := [], used0;
    for i := 0 to |tags|
      invariant faults == TagsFaults(b, tags[..i], project, claim)
      invariant used == Use(b, used0, tags[..i])
    {
      TagsSnoc(b, tags, i, project, claim, used0);
      var found := CheckTag(b, known, tags[i], project, claim);
      faults := faults + found;
      if tags[i] in known && tags[i] !in used {
        used := used + [tags[i]];
      }
    }
    assert tags[..|tags|] == tags;
  }

  lemma {:induction false} TagsClean(b: Bundle, tags: seq<string>, project: nat)
    ensures TagsFaults(b, tags, project, true) == [] <==> forall t <- tags :: InProject(b, t, project) && Current(b, t)
  {
    if tags != [] {
      TagsClean(b, Front(tags), project);
      assert tags == Front(tags) + [Last(tags)];
      var front, last := TagsFaults(b, Front(tags), project, true), TagFaults(b, Last(tags), project, true);
      assert |front + last| == |front| + |last|;
      assert Last(tags) in tags;
      assert |last| == 0 <==> InProject(b, Last(tags), project) && Current(b, Last(tags));
    }
  }

  method CheckClaims(b: Bundle, known: map<string, Frozen>, claims: seq<Claim>, project: nat)
    returns (faults: seq<Fault>, used: seq<string>, covered: nat)
    requires known == ByLabel(b.evidence)
    ensures faults == ClaimFaults(b, claims, project)
    ensures used == UseClaims(b, claims) && covered == Covered(b, claims, project)
  {
    faults, used, covered := [], [], 0;
    for i := 0 to |claims|
      invariant faults == ClaimFaults(b, claims[..i], project)
      invariant used == UseClaims(b, claims[..i]) && covered == Covered(b, claims[..i], project)
    {
      assert Front(claims[..i + 1]) == claims[..i];
      if claims[i].tags == [] {
        faults := faults + [UncitedClaim(i + 1)];
      } else {
        TagsClean(b, claims[i].tags, project);
        var found;
        found, used := CheckTags(b, known, claims[i].tags, project, true, used);
        faults := faults + found;
        if found == [] {
          covered := covered + 1;
        }
      }
    }
    assert claims[..|claims|] == claims;
  }

  method CheckConflicts(d: Draft, b: Bundle, project: nat) returns (faults: seq<Fault>)
    ensures forall f :: f in faults <==> f.MissingDisclosure? && Justified(f, d, b, project)
  {
    faults := [];
    var rest := b.unresolved.Keys;
    while rest != {}
      invariant rest <= b.unresolved.Keys
      invariant forall f :: f in faults <==> f.MissingDisclosure? && Justified(f, d, b, project) && f.key !in rest
      decreases |rest|
    {
      var k :| k in rest;
      if !(d.disclosure.Some? && forall t <- b.unresolved[k] :: t in DisclosureTags(d)) {
        faults := faults + [MissingDisclosure(k)];
      }
      rest := rest - {k};
    }
  }

  method CheckLabels(evidence: seq<Frozen>) returns (faults: seq<Fault>, known: map<string, Frozen>)
    ensures faults == DuplicateFaults(evidence, |evidence|) && known == ByLabel(evidence)
  {
    faults, known := [], map[];
    for i := 0 to |evidence|
      invariant faults == DuplicateFaults(evidence, i) && known == ByLabel(evidence[..i])
    {
      assert Front(evidence[..i + 1]) == evidence[..i];
      known := known[evidence[i].item.tag := evidence[i]];
      if Repeated(evidence, i) {
        faults := faults + [DuplicateLabel(evidence[i].item.tag)];
      }
    }
    assert evidence[..|evidence|] == evidence;
  }

  // --------------------------------------------------------------- their sense

  lemma {:induction false} UniqueMembers(s: seq<Fault>)
    ensures Distinct(Unique(s)) && forall f :: f in Unique(s) <==> f in s
  {
    if s != [] {
      UniqueMembers(Front(s));
      assert s == Front(s) + [Last(s)];
    }
  }

  lemma {:induction false} DuplicatesAre(evidence: seq<Frozen>, upTo: nat, f: Fault)
    requires upTo <= |evidence|
    ensures f in DuplicateFaults(evidence, upTo) <==>
            f.DuplicateLabel? && exists i :: 0 <= i < upTo && evidence[i].item.tag == f.tag && Repeated(evidence, i)
  {
    if upTo > 0 {
      DuplicatesAre(evidence, upTo - 1, f);
    }
  }

  lemma DuplicatesJustified(d: Draft, b: Bundle, project: nat, f: Fault)
    ensures f in DuplicateFaults(b.evidence, |b.evidence|) <==> f.DuplicateLabel? && Justified(f, d, b, project)
  {
    DuplicatesAre(b.evidence, |b.evidence|, f);
    if f.DuplicateLabel? && Justified(f, d, b, project) {
      var i, j :| 0 <= i < j < |b.evidence| && b.evidence[i].item.tag == f.tag && b.evidence[j].item.tag == f.tag;
      assert Repeated(b.evidence, i);
    }
    if f in DuplicateFaults(b.evidence, |b.evidence|) {
      var i :| 0 <= i < |b.evidence| && b.evidence[i].item.tag == f.tag && Repeated(b.evidence, i);
      var j :| 0 <= j < |b.evidence| && j != i && b.evidence[j].item.tag == b.evidence[i].item.tag;
      var lo, hi := if i < j then i else j, if i < j then j else i;
      assert b.evidence[lo].item.tag == f.tag && b.evidence[hi].item.tag == f.tag;
    }
  }

  predicate TagFault(b: Bundle, project: nat, claim: bool, f: Fault) {
    match f
    case UnknownEvidence(t) => t !in ByLabel(b.evidence)
    case CrossProject(t) => t in ByLabel(b.evidence) && !InProject(b, t, project)
    case NonCurrent(t) => claim && t in ByLabel(b.evidence) && !Current(b, t)
    case DuplicateLabel(_) => false
    case UncitedClaim(_) => false
    case MissingDisclosure(_) => false
    case NoClaims => false
  }

  lemma {:induction false} TagsFaultsAre(b: Bundle, tags: seq<string>, project: nat, claim: bool, f: Fault)
    ensures f in TagsFaults(b, tags, project, claim) <==> TagFault(b, project, claim, f) && f.tag in tags
  {
    if tags != [] {
      TagsFaultsAre(b, Front(tags), project, claim, f);
      assert tags == Front(tags) + [Last(tags)];
    }
  }

  lemma {:induction false} ClaimFaultsAre(b: Bundle, claims: seq<Claim>, project: nat, f: Fault)
    ensures f in ClaimFaults(b, claims, project) <==>
            || (f.UncitedClaim? && 1 <= f.number <= |claims| && claims[f.number - 1].tags == [])
            || (TagFault(b, project, true, f) && CitedByClaim(claims, f.tag))
  {
    if claims != [] {
      ClaimFaultsAre(b, Front(claims), project, f);
      TagsFaultsAre(b, Last(claims).tags, project, true, f);
      if TagFault(b, project, true, f) {
        CitedSnoc(claims, f.tag);
      }
    }
  }

  lemma CitedSnoc(claims: seq<Claim>, t: string)
    requires claims != []
    ensures CitedByClaim(claims, t) <==> CitedByClaim(Front(claims), t) || t in Last(claims).tags
  {
    assert claims == Front(claims) + [Last(claims)];
  }

  lemma {:induction false} CoveredAll(b: Bundle, claims: seq<Claim>, project: nat)
    ensures Covered(b, claims, project) <= |claims|
    ensures Covered(b, claims, project) == |claims| <==> forall c <- claims :: ClaimOk(b, c, project)
  {
    if claims != [] {
      CoveredAll(b, Front(claims), project);
      assert claims == Front(claims) + [Last(claims)];
    }
  }

  lemma {:induction false} UseIs(b: Bundle, used: seq<string>, tags: seq<string>)
    requires Distinct(used)
    ensures Distinct(Use(b, used, tags))
    ensures forall t :: t in Use(b, used, tags) <==> t in used || (t in tags && t in ByLabel(b.evidence))
  {
    if tags != [] {
      UseIs(b, used, Front(tags));
      assert tags == Front(tags) + [Last(tags)];
    }
  }

  lemma {:induction false} UseClaimsIs(b: Bundle, claims: seq<Claim>)
    ensures Distinct(UseClaims(b, claims))
    ensures forall t :: t in UseClaims(b, claims) <==> CitedByClaim(claims, t) && t in ByLabel(b.evidence)
  {
    if claims != [] {
      UseClaimsIs(b, Front(claims));
      UseIs(b, UseClaims(b, Front(claims)), Last(claims).tags);
      assert claims == Front(claims) + [Last(claims)];
    }
  }

  /** The used labels are the cited labels that exist, each once. */
  lemma UsedIs(d: Draft, b: Bundle)
    ensures Distinct(Used(d, b))
    ensures forall t :: t in Used(d, b) <==> Cited(d, t) && t in ByLabel(b.evidence)
  {
    UseClaimsIs(b, d.claims);
    UseIs(b, UseClaims(b, d.claims), DisclosureTags(d));
  }

  /** No fault at all, exactly when the draft passes. */
  lemma FaultlessPasses(d: Draft, b: Bundle, project: nat)
    requires forall f :: !Justified(f, d, b, project)
    ensures Passes(d, b, project)
  {
    forall i, j | 0 <= i < j < |b.evidence| ensures b.evidence[i].item.tag != b.evidence[j].item.tag {
      assert !Justified(DuplicateLabel(b.evidence[i].item.tag), d, b, project);
    }
    assert !Justified(NoClaims, d, b, project);
    forall c <- d.claims ensures ClaimOk(b, c, project) {
      var i :| 0 <= i < |d.claims| && d.claims[i] == c;
      assert !Justified(UncitedClaim(i + 1), d, b, project);
      forall t <- c.tags ensures InProject(b, t, project) && Current(b, t) {
        assert !Justified(UnknownEvidence(t), d, b, project);
        assert !Justified(CrossProject(t), d, b, project);
        assert !Justified(NonCurrent(t), d, b, project);
      }
    }
    forall t <- DisclosureTags(d) ensures InProject(b, t, project) {
      assert !Justified(UnknownEvidence(t), d, b, project);
      assert !Justified(CrossProject(t), d, b, project);
    }
    forall k <- b.unresolved ensures d.disclosure.Some? && forall t <- b.unresolved[k] :: t in DisclosureTags(d) {
      assert !Justified(MissingDisclosure(k), d, b, project);
    }
  }

  lemma PassesFaultless(d: Draft, b: Bundle, project: nat, f: Fault)
    requires Passes(d, b, project)
    ensures !Justified(f, d, b, project)
  {
    if f.UncitedClaim? && 1 <= f.number <= |d.claims| {
      assert ClaimOk(b, d.claims[f.number - 1], project);
    }
  }

  /** `validate`: the guard finds exactly the faults there are, and accepts exactly the drafts
      that pass. */
  method Validate(d: Draft, b: Bundle, project: nat) returns (v: Verdict)
    ensures v.valid <==> Passes(d, b, project)
    ensures Distinct(v.faults) && forall f :: f in v.faults <==> Justified(f, d, b, project)
    ensures v.covered == Covered(b, d.claims, project) && v.used == Used(d, b)
  {
    var labelFaults, known := CheckLabels(b.evidence);
    var claimFaults, claimUsed, covered := CheckClaims(b, known, d.claims, project);
    var disclosureFaults, used := CheckTags(b, known, DisclosureTags(d), project, false, claimUsed);
    var conflictFaults := CheckConflicts(d, b, project);
    var countFaults := if |d.claims| == 0 then [NoClaims] else [];
    var errors := labelFaults + claimFaults + disclosureFaults + conflictFaults + countFaults;
    forall f ensures f in errors <==> Justified(f, d, b, project) {
      DuplicatesJustified(d, b, project, f);
      ClaimFaultsAre(b, d.claims, project, f);
      TagsFaultsAre(b, DisclosureTags(d), project, false, f);
    }
    UniqueMembers(errors);
    CoveredAll(b, d.claims, project);
    v := Verdict(errors == [] && |d.claims| > 0 && covered == |d.claims|, covered, Unique(errors), used);
    if errors == [] {
      FaultlessPasses(d, b, project);
    } else {
      assert errors[0] in errors;
      if Passes(d, b, project) {
        PassesFaultless(d, b, project, errors[0]);
      }
    }
  }

  // -------------------------------------------------------- the guard is not vacuous

  /** Save and load: the rows of a pack come back in order under new snapshot ids, and the
      conflicts are rebuilt from the rows. */
  function Freeze(p: Pack, first: nat): Bundle {
    var rows := seq(|p.evidence|, i requires 0 <= i < |p.evidence| => Frozen(first + i, p.evidence[i]));
    Bundle(rows, Reloaded(p.evidence))
  }

  lemma {:induction false} ByLabelIs(evidence: seq<Frozen>)
    requires DistinctLabels(evidence)
    ensures forall t <- ByLabel(evidence) :: ByLabel(evidence)[t] in evidence && ByLabel(evidence)[t].item.tag == t
    ensures forall x <- evidence :: x.item.tag in ByLabel(evidence) && ByLabel(evidence)[x.item.tag] == x
  {
    if evidence != [] {
      ByLabelIs(Front(evidence));
      assert evidence == Front(evidence) + [Last(evidence)];
    }
  }

  lemma LabelInjective(a: nat, b: nat)
    requires Label(a) == Label(b)
    ensures a == b
  {
    assert Label(a)[1..] == Decimal(a) && Label(b)[1..] == Decimal(b);
    DecimalInjective(a, b);
  }

  lemma FrozenLabels(desk: Desk, cap: nat, chunks: seq<Chunk>, first: nat)
    ensures DistinctLabels(Freeze(PackOf(desk, cap, chunks), first).evidence)
  {
    var b := Freeze(PackOf(desk, cap, chunks), first);
    PackIsSound(desk, cap, chunks);
    forall i, j | 0 <= i < j < |b.evidence| ensures b.evidence[i].item.tag != b.evidence[j].item.tag {
      if b.evidence[i].item.tag == b.evidence[j].item.tag {
        LabelInjective(i + 1, j + 1);
        assert false;
      }
    }
  }

  /** Every label of a stored pack is usable in the project it was packed for. */
  lemma PackLabelsUsable(desk: Desk, cap: nat, chunks: seq<Chunk>, first: nat, i: nat)
    requires i < |PackOf(desk, cap, chunks).evidence|
    ensures var b := Freeze(PackOf(desk, cap, chunks), first);
            var t := b.evidence[i].item.tag;
            InProject(b, t, desk.project) && Current(b, t)
  {
    var b := Freeze(PackOf(desk, cap, chunks), first);
    FrozenLabels(desk, cap, chunks, first);
    ByLabelIs(b.evidence);
    assert b.evidence[i] in b.evidence;
    var c := PackIsAdmitted(desk, cap, chunks, i);
  }

  function AllTags(evidence: seq<Frozen>): seq<string> {
    seq(|evidence|, i requires 0 <= i < |evidence| => evidence[i].item.tag)
  }

  /** Cites the first item and discloses everything. */
  function WitnessDraft(b: Bundle): Draft {
    Draft([Claim("claim", if b.evidence == [] then [] else [b.evidence[0].item.tag])],
          Some(Claim("disclosure", AllTags(b.evidence))))
  }

  /** For every non-empty pack some draft passes the guard. */
  lemma SomeDraftPasses(desk: Desk, cap: nat, chunks: seq<Chunk>, first: nat)
    requires PackOf(desk, cap, chunks).evidence != []
    ensures var b := Freeze(PackOf(desk, cap, chunks), first);
            Passes(WitnessDraft(b), b, desk.project)
  {
    var p := PackOf(desk, cap, chunks);
    var b := Freeze(p, first);
    var d := WitnessDraft(b);
    FrozenLabels(desk, cap, chunks, first);
    PackLabelsUsable(desk, cap, chunks, first, 0);
    forall c <- d.claims ensures ClaimOk(b, c, desk.project) {
      assert c == d.claims[0];
    }
    forall t <- DisclosureTags(d) ensures InProject(b, t, desk.project) {
      var i :| 0 <= i < |AllTags(b.evidence)| && AllTags(b.evidence)[i] == t;
      PackLabelsUsable(desk, cap, chunks, first, i);
    }
    forall k <- b.unresolved, t <- b.unresolved[k] ensures t in DisclosureTags(d) {
      ConflictIsDisclosed(desk, cap, chunks, first, k, t);
    }
  }

  lemma ConflictIsDisclosed(desk: Desk, cap: nat, chunks: seq<Chunk>, first: nat, k: string, t: string)
    requires var b := Freeze(PackOf(desk, cap, chunks), first);
             k in b.unresolved && t in b.unresolved[k]
    ensures t in AllTags(Freeze(PackOf(desk, cap, chunks), first).evidence)
  {
    var p := PackOf(desk, cap, chunks);
    ConflictsSurviveStorage(desk, cap, chunks);
    UnresolvedLabels(desk, cap, chunks, k);
    var x :| x in p.evidence && x.tag == t;
    var i :| 0 <= i < |p.evidence| && p.evidence[i] == x;
    assert AllTags(Freeze(p, first).evidence)[i] == t;
  }
}
