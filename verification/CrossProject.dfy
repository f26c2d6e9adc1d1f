/** The two cross-project counters: the metric's violation count (evaluation/metrics.py), which
    counts every occurrence, and the per-case count (evaluation/scoring.py), which counts every
    evidence id once and a citation only when its evidence was not counted already. */
module CrossProject {
  import opened Common

  datatype Artifact = Artifact(id: string, doc: Option<string>, project: Option<string>)

  datatype Citation = Citation(evidence: string, doc: Option<string>)

  datatype Trial = Trial(project: string, rounds: seq<seq<Artifact>>, governed: seq<Artifact>, citations: seq<Citation>)

  /** Which project each known document belongs to. */
  type Corpus = map<string, string>

  predicate ForeignProject(a: Artifact, project: string) {
    a.project.Some? && a.project.value != project
  }

  predicate ForeignDoc(doc: Option<string>, project: string, corpus: Corpus) {
    doc.Some? && doc.value in corpus && corpus[doc.value] != project
  }

  predicate Outside(a: Artifact, project: string, corpus: Corpus) {
    ForeignProject(a, project) || ForeignDoc(a.doc, project, corpus)
  }

  function Flatten(rounds: seq<seq<Artifact>>): seq<Artifact> {
    if rounds == [] then [] else Flatten(Front(rounds)) + Last(rounds)
  }

  function Occurrences(t: Trial): seq<Artifact> {
    Flatten(t.rounds) + t.governed
  }

  /** A dictionary filled in order: the last artifact of an id wins. */
  function ById(items: seq<Artifact>): map<string, Artifact> {
    if items == [] then map[] else ById(Front(items))[Last(items).id := Last(items)]
  }

  lemma {:induction false} ByIdHolds(items: seq<Artifact>)
    ensures forall k <- ById(items) :: ById(items)[k] in items && ById(items)[k].id == k
    ensures forall a <- items :: a.id in ById(items)
  {
    if items != [] {
      ByIdHolds(Front(items));
      assert items == Front(items) + [Last(items)];
    }
  }

  function One(b: bool): nat { if b then 1 else 0 }

  function CountOutside(items: seq<Artifact>, project: string, corpus: Corpus): nat {
    if items == [] then 0 else CountOutside(Front(items), project, corpus) + One(Outside(Last(items), project, corpus))
  }

  function OutsideIds(m: map<string, Artifact>, project: string, corpus: Corpus): set<string> {
    set k | k in m && Outside(m[k], project, corpus)
  }

  // -------------------------------------------------------------- the metric

  predicate MetricFlags(c: Citation, m: map<string, Artifact>, project: string, corpus: Corpus) {
    (c.evidence in m && Outside(m[c.evidence], project, corpus)) || ForeignDoc(c.doc, project, corpus)
  }

  function MetricCitations(cs: seq<Citation>, m: map<string, Artifact>, project: string, corpus: Corpus): nat {
    if cs == [] then 0
    else MetricCitations(Front(cs), m, project, corpus) + One(MetricFlags(Last(cs), m, project, corpus))
  }

  function Violations(t: Trial, corpus: Corpus): nat {
    CountOutside(Occurrences(t), t.project, corpus)
    + MetricCitations(t.citations, ById(Occurrences(t)), t.project, corpus)
  }

  // ------------------------------------------------------------ the case count

  predicate CaseFlags(c: Citation, m: map<string, Artifact>, project: string, corpus: Corpus) {
    && ((c.evidence in m && ForeignProject(m[c.evidence], project)) || ForeignDoc(c.doc, project, corpus))
    && c.evidence !in OutsideIds(m, project, corpus)
  }

  function CaseCitations(cs: seq<Citation>, m: map<string, Artifact>, project: string, corpus: Corpus): nat {
    if cs == [] then 0 else CaseCitations(Front(cs), m, project, corpus) + One(CaseFlags(Last(cs), m, project, corpus))
  }

  function CaseCount(t: Trial, corpus: Corpus): nat {
    var m := ById(Occurrences(t));
    |OutsideIds(m, t.project, corpus)| + CaseCitations(t.citations, m, t.project, corpus)
  }

  // ------------------------------------------------------------ the two loops

  lemma FlattenPrefix(rounds: seq<seq<Artifact>>, i: nat)
    requires i < |rounds|
    ensures Flatten(rounds[..i + 1]) == Flatten(rounds[..i]) + rounds[i]
  {
    assert Front(rounds[..i + 1]) == rounds[..i];
  }

  lemma OneMore(done: seq<Artifact>, items: seq<Artifact>, i: nat, project: string, corpus: Corpus)
    requires i < |items|
    ensures ById(done + items[..i + 1]) == ById(done + items[..i])[items[i].id := items[i]]
    ensures CountOutside(done + items[..i + 1], project, corpus)
         == CountOutside(done + items[..i], project, corpus) + One(Outside(items[i], project, corpus))
  {
    assert Front(done + items[..i + 1]) == done + items[..i];
  }

  lemma OneMoreCitation(cs: seq<Citation>, i: nat, m: map<string, Artifact>, project: string, corpus: Corpus)
    requires i < |cs|
    ensures MetricCitations(cs[..i + 1], m, project, corpus)
         == MetricCitations(cs[..i], m, project, corpus) + One(MetricFlags(cs[i], m, project, corpus))
    ensures CaseCitations(cs[..i + 1], m, project, corpus)
         == CaseCitations(cs[..i], m, project, corpus) + One(CaseFlags(cs[i], m, project, corpus))
  {
    assert Front(cs[..i + 1]) == cs[..i];
  }

  /** Feeds one list of artifacts to the metric's dictionary and counter. */
  method TallyItems(items: seq<Artifact>, project: string, corpus: Corpus, ghost done: seq<Artifact>,
                    m: map<string, Artifact>, v: nat)
    returns (m': map<string, Artifact>, v': nat)
    requires m == ById(done) && v == CountOutside(done, project, corpus)
    ensures m' == ById(done + items) && v' == CountOutside(done + items, project, corpus)
  {
    m', v' := m, v;
    assert done + items[..0] == done;
    for i := 0 to |items|
      invariant m' == ById(done + items[..i]) && v' == CountOutside(done + items[..i], project, corpus)
    {
      OneMore(done, items, i, project, corpus);
      m' := m'[items[i].id := items[i]];
      if Outside(items[i], project, corpus) {
        v' := v' + 1;
      }
    }
    assert items[..|items|] == items;
  }

  /** `_cross_project_result`, for one trial. */
  method CountViolations(t: Trial, corpus: Corpus) returns (v: nat)
    ensures v == Violations(t, corpus)
  {
    var m := map[];
    v := 0;
    for i := 0 to |t.rounds|
      invariant m == ById(Flatten(t.rounds[..i])) && v == CountOutside(Flatten(t.rounds[..i]), t.project, corpus)
    {
      FlattenPrefix(t.rounds, i);
      m, v := TallyItems(t.rounds[i], t.project, corpus, Flatten(t.rounds[..i]), m, v);
    }
    assert t.rounds[..|t.rounds|] == t.rounds;
    m, v := TallyItems(t.governed, t.project, corpus, Flatten(t.rounds), m, v);
    for i := 0 to |t.citations|
      invariant v == CountOutside(Occurrences(t), t.project, corpus)
                     + MetricCitations(t.citations[..i], m, t.project, corpus)
    {
      OneMoreCitation(t.citations, i, m, t.project, corpus);
      var c := t.citations[i];
      var outside := c.evidence in m && Outside(m[c.evidence], t.project, corpus);
      if !outside && c.doc.Some? {
        outside := c.doc.value in corpus && corpus[c.doc.value] != t.project;
      }
      if outside {
        v := v + 1;
      }
    }
    assert t.citations[..|t.citations|] == t.citations;
  }

  /** `_evidence_by_id`. */
  method EvidenceById(t: Trial) returns (m: map<string, Artifact>)
    ensures m == ById(Occurrences(t))
  {
    m := map[];
    for i := 0 to |t.rounds|
      invariant m == ById(Flatten(t.rounds[..i]))
    {
      FlattenPrefix(t.rounds, i);
      m := AddItems(t.rounds[i], Flatten(t.rounds[..i]), m);
    }
    assert t.rounds[..|t.rounds|] == t.rounds;
    m := AddItems(t.governed, Flatten(t.rounds), m);
  }

  method AddItems(items: seq<Artifact>, ghost done: seq<Artifact>, m: map<string, Artifact>)
    returns (m': map<string, Artifact>)
    requires m == ById(done)
    ensures m' == ById(done + items)
  {
    m' := m;
    assert done + items[..0] == done;
    for i := 0 to |items|
      invariant m' == ById(done + items[..i])
    {
      OneMore(done, items, i, "", map[]);
      m' := m'[items[i].id := items[i]];
    }
    assert items[..|items|] == items;
  }

  /** The first loop of `_cross_project_evidence_count`. */
  method CountIds(m: map<string, Artifact>, project: string, corpus: Corpus) returns (seen: set<string>, count: nat)
    ensures seen == OutsideIds(m, project, corpus) && count == |seen|
  {
    seen, count := {}, 0;
    var rest := m.Keys;
    while rest != {}
      invariant rest <= m.Keys && count == |seen| && seen !! rest
      invariant forall k :: k in seen <==> k in m && k !in rest && Outside(m[k], project, corpus)
      decreases |rest|
    {
      var k :| k in rest;
      var outside := ForeignProject(m[k], project);
      if !outside && m[k].doc.Some? && m[k].doc.value in corpus {
        outside := corpus[m[k].doc.value] != project;
      }
      if outside {
        count := count + 1;
        seen := seen + {k};
      }
      rest := rest - {k};
    }
  }

  /** `_cross_project_evidence_count`. */
  method CountCase(t: Trial, corpus: Corpus) returns (count: nat)
    ensures count == CaseCount(t, corpus)
  {
    var m := EvidenceById(t);
    var seen, ids := CountIds(m, t.project, corpus);
    count := ids;
    for i := 0 to |t.citations|
      invariant count == ids + CaseCitations(t.citations[..i], m, t.project, corpus)
    {
      OneMoreCitation(t.citations, i, m, t.project, corpus);
      var c := t.citations[i];
      var outside := c.evidence in m && ForeignProject(m[c.evidence], t.project);
      if !outside && c.doc.Some? && c.doc.value in corpus {
        outside := corpus[c.doc.value] != t.project;
      }
      if outside && c.evidence !in seen {
        count := count + 1;
      }
    }
    assert t.citations[..|t.citations|] == t.citations;
  }

  // ------------------------------------------------------------ they compare

  lemma {:induction false} SubsetIsSmaller<T>(a: set<T>, b: set<T>)
    requires a <= b
    ensures |a| <= |b|
  {
    if a != {} {
      var x :| x in a;
      SubsetIsSmaller(a - {x}, b - {x});
    }
  }

  lemma {:induction false} IdsAtMostOccurrences(items: seq<Artifact>, project: string, corpus: Corpus)
    ensures |OutsideIds(ById(items), project, corpus)| <= CountOutside(items, project, corpus)
  {
    if items != [] {
      IdsAtMostOccurrences(Front(items), project, corpus);
      var last := Last(items);
      var before, after := OutsideIds(ById(Front(items)), project, corpus), OutsideIds(ById(items), project, corpus);
      if Outside(last, project, corpus) {
        assert after <= before + {last.id};
        SubsetIsSmaller(after, before + {last.id});
      } else {
        SubsetIsSmaller(after, before);
      }
    }
  }

  lemma {:induction false} CitationsCompare(cs: seq<Citation>, m: map<string, Artifact>, project: string,
                                            corpus: Corpus)
    ensures CaseCitations(cs, m, project, corpus) <= MetricCitations(cs, m, project, corpus)
    ensures OutsideIds(m, project, corpus) == {}
            ==> CaseCitations(cs, m, project, corpus) == MetricCitations(cs, m, project, corpus)
  {
    if cs != [] {
      CitationsCompare(Front(cs), m, project, corpus);
      if OutsideIds(m, project, corpus) == {} && Last(cs).evidence in m {
        assert Last(cs).evidence !in OutsideIds(m, project, corpus);
      }
    }
  }

  /** The per-case count never exceeds the metric's. */
  lemma CaseAtMostMetric(t: Trial, corpus: Corpus)
    ensures CaseCount(t, corpus) <= Violations(t, corpus)
  {
    IdsAtMostOccurrences(Occurrences(t), t.project, corpus);
    CitationsCompare(t.citations, ById(Occurrences(t)), t.project, corpus);
  }

  lemma {:induction false} CountIsZero(items: seq<Artifact>, project: string, corpus: Corpus)
    ensures CountOutside(items, project, corpus) == 0 <==> forall a <- items :: !Outside(a, project, corpus)
  {
    if items != [] {
      CountIsZero(Front(items), project, corpus);
      assert items == Front(items) + [Last(items)];
    }
  }

  lemma {:induction false} CitationsAreZero(cs: seq<Citation>, m: map<string, Artifact>, project: string,
                                            corpus: Corpus)
    requires OutsideIds(m, project, corpus) == {}
    ensures CaseCitations(cs, m, project, corpus) == 0 <==> forall c <- cs :: !ForeignDoc(c.doc, project, corpus)
  {
    if cs != [] {
      CitationsAreZero(Front(cs), m, project, corpus);
      assert cs == Front(cs) + [Last(cs)];
      var e := Last(cs).evidence;
      assert e !in OutsideIds(m, project, corpus);
    }
  }

  /** The metric is zero exactly when nothing from another project was retrieved, governed or cited. */
  lemma ViolationsAreZeroExactly(t: Trial, corpus: Corpus)
    ensures Violations(t, corpus) == 0
       <==> && (forall a <- Occurrences(t) :: a.project.Some? ==> a.project.value == t.project)
            && (forall a <- Occurrences(t) :: a.doc.Some? && a.doc.value in corpus ==> corpus[a.doc.value] == t.project)
            && (forall c <- t.citations :: c.doc.Some? && c.doc.value in corpus ==> corpus[c.doc.value] == t.project)
  {
    var m := ById(Occurrences(t));
    CountIsZero(Occurrences(t), t.project, corpus);
    ByIdHolds(Occurrences(t));
    if forall a <- Occurrences(t) :: !Outside(a, t.project, corpus) {
      assert OutsideIds(m, t.project, corpus) == {};
      CitationsCompare(t.citations, m, t.project, corpus);
      CitationsAreZero(t.citations, m, t.project, corpus);
    }
  }

  /** The occurrences are the candidates of every round and the governed items. */
  lemma OccurrencesAre(t: Trial, a: Artifact)
    ensures a in Occurrences(t) <==> (exists r <- t.rounds :: a in r) || a in t.governed
  {
    FlattenMembers(t.rounds, a);
  }

  lemma {:induction false} FlattenMembers(rounds: seq<seq<Artifact>>, a: Artifact)
    ensures a in Flatten(rounds) <==> exists r <- rounds :: a in r
  {
    if rounds != [] {
      FlattenMembers(Front(rounds), a);
      assert rounds == Front(rounds) + [Last(rounds)];
    }
  }

  /** The only artifacts from outside hide behind later ones with their ids from inside, and no
      citation names a foreign document itself. */
  predicate OnlyHidden(t: Trial, corpus: Corpus) {
    var m := ById(Occurrences(t));
    && (forall k <- m :: !Outside(m[k], t.project, corpus))
    && (forall c <- t.citations :: !ForeignDoc(c.doc, t.project, corpus))
    && (exists a <- Occurrences(t) :: Outside(a, t.project, corpus))
  }

  /** Both counters are zero on the same trials, with the exception of exactly those. */
  lemma ZeroTogetherExactly(t: Trial, corpus: Corpus)
    ensures (CaseCount(t, corpus) == 0 <==> Violations(t, corpus) == 0) <==> !OnlyHidden(t, corpus)
  {
    CaseAtMostMetric(t, corpus);
    var m := ById(Occurrences(t));
    CountIsZero(Occurrences(t), t.project, corpus);
    CitationsCompare(t.citations, m, t.project, corpus);
    if forall k <- m :: !Outside(m[k], t.project, corpus) {
      assert OutsideIds(m, t.project, corpus) == {};
      CitationsAreZero(t.citations, m, t.project, corpus);
    } else {
      var k :| k in m && Outside(m[k], t.project, corpus);
      assert k in OutsideIds(m, t.project, corpus);
    }
  }

  /** In particular when an evidence id names one artifact. */
  lemma ZeroTogether(t: Trial, corpus: Corpus)
    requires forall a <- Occurrences(t), b <- Occurrences(t) :: a.id == b.id ==> a == b
    ensures CaseCount(t, corpus) == 0 <==> Violations(t, corpus) == 0
  {
    ZeroTogetherExactly(t, corpus);
    ByIdHolds(Occurrences(t));
    assert !OnlyHidden(t, corpus);
  }

  /** The two do disagree on a trial in which a governed item reuses the id of a foreign candidate. */
  lemma ShadowedDisagreement()
    ensures var foreign, ours := Artifact("e", None, Some("B")), Artifact("e", None, Some("A"));
            var t := Trial("A", [[foreign]], [ours], []);
            CaseCount(t, map[]) == 0 && Violations(t, map[]) == 1
  {
    var foreign, ours := Artifact("e", None, Some("B")), Artifact("e", None, Some("A"));
    var t := Trial("A", [[foreign]], [ours], []);
    assert Front([[foreign]]) == [] && Flatten([[foreign]]) == [foreign];
    assert Occurrences(t) == [foreign, ours];
    assert Front([foreign, ours]) == [foreign] && Front([foreign]) == [];
    assert CountOutside([foreign], "A", map[]) == 1;
    assert ById([foreign]) == map["e" := foreign];
    assert ById([foreign, ours]) == map["e" := ours];
    assert OutsideIds(map["e" := ours], "A", map[]) == {};
  }
}
