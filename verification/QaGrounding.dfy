/** What an answer of the question-answering graph rests on: for every retrieval result and every
    model output, only evidence that is allowed, current and cited (agent/nodes). */
module QaGrounding {
  import opened Common
  import opened Text
  import opened Evidence
  import opened Governance
  import opened ConflictPolicy
  import opened CitationGuard
  import opened Access
  import opened Catalogue
  import Documents
  import opened QaGraph

  predicate AllAllowed(chunks: seq<Chunk>, c: Context) {
    forall k <- chunks :: Allowed(k, c)
  }

  predicate Scoped(n: Node) {
    n.ResolveIdentifiers? || n.Retrieve? || n.GradeRetrieval? || n.GovernEvidence?
  }

  /** A run that ended with an answer. */
  predicate EndsAnswered(s: State) {
    s.node.End? && s.route.Answered?
  }

  predicate HasBundle(s: State) {
    s.node.GenerateAnswer? || s.node.GuardCitations? || s.node.ReviseAnswer? || EndsAnswered(s)
  }

  predicate Holds(snapshots: seq<Item>, first: nat, rows: seq<Item>) {
    first + |rows| <= |snapshots| && snapshots[first..first + |rows|] == rows
  }

  /** The bundle was packed for this project from allowed chunks, and its rows are stored. */
  predicate Packed(s: State) {
    && s.project == Some(s.context.project) && s.bundle.Governed?
    && s.bundle.desk.project == s.context.project && s.bundle.desk.projectCode == s.context.projectCode
    && AllAllowed(s.bundle.chunks, s.context)
    && s.bundle.pack.evidence != [] && Holds(s.snapshots, s.bundle.first, s.bundle.pack.evidence)
  }

  predicate Confined(s: State) {
    && (Scoped(s.node) ==> s.project == Some(s.context.project))
    && (s.node.GradeRetrieval? || s.node.GovernEvidence? ==> s.bundle.Raw? && AllAllowed(s.bundle.chunks, s.context))
    && (HasBundle(s) ==> Packed(s))
  }

  lemma RetrieveConfined(cfg: Config, s: State, input: Input, f: Findings)
    requires Confined(s) && s.node.Retrieve?
    ensures Confined(Move(cfg, s, input, f))
  {
    PostfilterExactly(input.retrieved, s.context);
  }

  lemma MoveConfined(cfg: Config, s: State, input: Input)
    requires Confined(s)
    ensures forall f :: Confined(Move(cfg, s, input, f))
  {
    forall f ensures Confined(Move(cfg, s, input, f)) {
      if s.node.Retrieve? {
        RetrieveConfined(cfg, s, input, f);
      }
    }
  }

  /** At every node, for every retrieval result: only allowed chunks, only for the run's project. */
  lemma {:induction false} RunConfined(cfg: Config, s: State, inputs: seq<Input>)
    requires Starts(s)
    ensures Confined(Run(cfg, s, inputs))
  {
    if inputs != [] {
      RunConfined(cfg, s, Front(inputs));
      MoveConfined(cfg, Run(cfg, s, Front(inputs)), Last(inputs));
    }
  }

  predicate HasScope(s: State) {
    Scoped(s.node) || HasBundle(s)
  }

  /** The scope held only the highest published versions of its project when it was resolved. */
  ghost predicate ScopeOk(s: State) {
    forall v <- s.context.versions :: HighestPublished(s.scopedAt, s.context.project, v)
  }

  lemma ScopeOrigin(cfg: Config, s: State, input: Input, f: Findings)
    requires HasScope(Move(cfg, s, input, f))
    ensures var t := Move(cfg, s, input, f);
            || (HasScope(s) && t.context == s.context && t.scopedAt == s.scopedAt)
            || (s.project.Some? && t.context == ScopeOf(input.shelf.Library(), s.project.value, input.grant)
                && t.scopedAt == input.shelf.Library())
  {
  }

  /** From the moment it is resolved to the end of the run. */
  lemma {:induction false} RunScoped(cfg: Config, s: State, inputs: seq<Input>)
    requires Starts(s)
    ensures HasScope(Run(cfg, s, inputs)) ==> ScopeOk(Run(cfg, s, inputs))
  {
    if inputs != [] && HasScope(Run(cfg, s, inputs)) {
      RunScoped(cfg, s, Front(inputs));
      var prior, input := Run(cfg, s, Front(inputs)), Last(inputs);
      ScopeOrigin(cfg, prior, input, Consult(cfg, s, inputs));
      var t := Run(cfg, s, inputs);
      forall v <- t.context.versions ensures HighestPublished(t.scopedAt, t.context.project, v) {
        if prior.project.Some? {
          ScopeIsCurrent(input.shelf, prior.project.value, input.grant, v);
        }
      }
    }
  }

  /** The bundle holds what governance packs. */
  predicate Genuine(cfg: Config, b: Stored) {
    b.Governed? && b.pack == PackOf(b.desk, cfg.maxEvidence, b.chunks) && b.desk.metadata == MetadataOf(b.shelf)
  }

  lemma BundleOrigin(cfg: Config, s: State, input: Input, f: Findings)
    requires HasBundle(Move(cfg, s, input, f))
    ensures var b := Move(cfg, s, input, f).bundle;
            || (HasBundle(s) && b == s.bundle)
            || (s.node.GovernEvidence?
                && b == Governed(DeskOf(s, input), input.shelf, RawChunks(s.bundle), |s.snapshots|, f.pack))
  {
  }

  lemma ConsultPacks(cfg: Config, s: State, inputs: seq<Input>)
    requires inputs != []
    ensures var t, input, pack := Run(cfg, s, Front(inputs)), Last(inputs), Consult(cfg, s, inputs).pack;
            Genuine(cfg, Governed(DeskOf(t, input), input.shelf, RawChunks(t.bundle), |t.snapshots|, pack))
  {
  }

  lemma {:induction false} RunGenuine(cfg: Config, s: State, inputs: seq<Input>)
    requires Starts(s)
    ensures HasBundle(Run(cfg, s, inputs)) ==> Genuine(cfg, Run(cfg, s, inputs).bundle)
  {
    if inputs != [] && HasBundle(Run(cfg, s, inputs)) {
      RunGenuine(cfg, s, Front(inputs));
      ConsultPacks(cfg, s, inputs);
      BundleOrigin(cfg, Run(cfg, s, Front(inputs)), Last(inputs), Consult(cfg, s, inputs));
    }
  }

  /** At every node, for every retrieval result, the bundle holds only allowed evidence of the
      run's project; and the one drafts are written from is the governed pack. */
  lemma BundleIsSafe(cfg: Config, s: State, t: State)
    requires Reaches(cfg, s, t)
    ensures Confined(t) && (HasBundle(t) ==> Genuine(cfg, t.bundle))
  {
    var inputs :| Run(cfg, s, inputs) == t;
    RunConfined(cfg, s, inputs);
    RunGenuine(cfg, s, inputs);
  }

  /** The saved answer is what the guard accepted. */
  predicate Accepted(project: Option<nat>, bundle: Stored, draft: Draft, answer: Answer) {
    && project.Some? && Passes(draft, Load(bundle), project.value)
    && answer.Grounded?
    && Citations(Used(draft, Load(bundle)), ByLabel(Load(bundle).evidence)) == Some(answer.citations)
  }

  lemma AnswerOrigin(cfg: Config, s: State, input: Input, f: Findings)
    requires EndsAnswered(Move(cfg, s, input, f))
    ensures var t := Move(cfg, s, input, f);
            || (EndsAnswered(s) && t == s)
            || (f.passes && f.citations.Some?
                && t == s.(answer := Grounded(f.citations.value), route := Answered, node := End))
  {
  }

  lemma {:induction false} RunAccepted(cfg: Config, s: State, inputs: seq<Input>)
    requires Starts(s)
    ensures var t := Run(cfg, s, inputs);
            EndsAnswered(t) ==> Accepted(t.project, t.bundle, t.draft, t.answer)
  {
    if inputs != [] && EndsAnswered(Run(cfg, s, inputs)) {
      RunAccepted(cfg, s, Front(inputs));
      AnswerOrigin(cfg, Run(cfg, s, Front(inputs)), Last(inputs), Consult(cfg, s, inputs));
    }
  }

  // ---------------------------------------------------- numbers recover labels

  lemma NumberRoundTrip(n: nat)
    ensures NumberOf(Label(n)) == Some(n)
  {
    assert Label(n)[1..] == Decimal(n);
    DecimalRoundTrip(n);
  }

  /** The label is that of item `n`, stored under its snapshot id. */
  predicate Points(known: map<string, Frozen>, first: nat, size: nat, t: string, n: nat) {
    1 <= n <= size && t == Label(n) && t in known && known[t].snapshot == first + n - 1
  }

  /** Every label of the bundle carries the number of its item. */
  predicate Numbered(b: Bundle, first: nat) {
    forall t <- ByLabel(b.evidence) ::
      NumberOf(t).Some? && Points(ByLabel(b.evidence), first, |b.evidence|, t, NumberOf(t).value)
  }

  lemma LabelPoints(b: Bundle, first: nat, t: string)
    requires DistinctLabels(b.evidence) && t in ByLabel(b.evidence)
    requires forall i :: 0 <= i < |b.evidence| ==> b.evidence[i].item.tag == Label(i + 1)
    requires forall i :: 0 <= i < |b.evidence| ==> b.evidence[i].snapshot == first + i
    ensures NumberOf(t).Some? && Points(ByLabel(b.evidence), first, |b.evidence|, t, NumberOf(t).value)
  {
    ByLabelIs(b.evidence);
    var i :| 0 <= i < |b.evidence| && b.evidence[i] == ByLabel(b.evidence)[t];
    NumberRoundTrip(i + 1);
  }

  lemma FrozenIsNumbered(desk: Desk, cap: nat, chunks: seq<Chunk>, first: nat)
    ensures Numbered(Freeze(PackOf(desk, cap, chunks), first), first)
  {
    var b := Freeze(PackOf(desk, cap, chunks), first);
    FrozenLabels(desk, cap, chunks, first);
    PackIsSound(desk, cap, chunks);
    forall t <- ByLabel(b.evidence)
      ensures NumberOf(t).Some? && Points(ByLabel(b.evidence), first, |b.evidence|, t, NumberOf(t).value)
    {
      LabelPoints(b, first, t);
    }
  }

  lemma BundleIsNumbered(cfg: Config, b: Stored)
    requires Genuine(cfg, b)
    ensures Numbered(Load(b), b.first)
  {
    FrozenIsNumbered(b.desk, cfg.maxEvidence, b.chunks, b.first);
  }

  /** The citation comes from a used label with that number. */
  predicate Sourced(known: map<string, Frozen>, used: seq<string>, n: nat, id: nat) {
    exists t <- used :: NumberOf(t) == Some(n) && t in known && known[t].snapshot == id
  }

  ghost predicate Recovers(known: map<string, Frozen>, used: seq<string>, m: map<nat, nat>) {
    && (forall t <- used :: NumberOf(t).Some? && NumberOf(t).value in m)
    && (forall n <- m :: Sourced(known, used, n, m[n]))
  }

  lemma RecoversMore(known: map<string, Frozen>, used: seq<string>, m: map<nat, nat>, n: nat)
    requires used != [] && Recovers(known, Front(used), m)
    requires Last(used) in known && NumberOf(Last(used)) == Some(n)
    ensures Recovers(known, used, if n in m then m else m[n := known[Last(used)].snapshot])
  {
    assert used == Front(used) + [Last(used)];
    assert forall k <- m :: Sourced(known, used, k, m[k]);
    assert Sourced(known, used, n, known[Last(used)].snapshot) by {
      assert Last(used) in used;
    }
  }

  lemma {:induction false} CitationsAre(known: map<string, Frozen>, used: seq<string>)
    requires forall t <- used :: t in known && NumberOf(t).Some?
    ensures Citations(used, known).Some? && Recovers(known, used, Citations(used, known).value)
  {
    if used != [] {
      CitationsAre(known, Front(used));
      assert Last(used) in used;
      RecoversMore(known, used, Citations(Front(used), known).value, NumberOf(Last(used)).value);
    }
  }

  /** What the guard stores for a draft: the cited labels that exist, each under its own number. */
  lemma UsedAreCited(d: Draft, b: Bundle, first: nat)
    requires Numbered(b, first)
    ensures var c := Citations(Used(d, b), ByLabel(b.evidence));
            && c.Some?
            && (forall t :: Cited(d, t) && t in ByLabel(b.evidence)
                            ==> NumberOf(t).Some? && NumberOf(t).value in c.value)
            && (forall n <- c.value :: Cited(d, Label(n)) && 1 <= n <= |b.evidence| && c.value[n] == first + n - 1)
  {
    var known := ByLabel(b.evidence);
    UsedIs(d, b);
    CitationsAre(known, Used(d, b));
    var m := Citations(Used(d, b), known).value;
    forall n <- m ensures Cited(d, Label(n)) && 1 <= n <= |b.evidence| && m[n] == first + n - 1 {
      assert Sourced(known, Used(d, b), n, m[n]);
      var t :| t in Used(d, b) && NumberOf(t) == Some(n) && t in known && known[t].snapshot == m[n];
      assert Points(known, first, |b.evidence|, t, n);
    }
  }

  lemma GuardHasCitations(cfg: Config, t: State)
    requires Genuine(cfg, t.bundle)
    ensures Citations(Used(t.draft, Load(t.bundle)), ByLabel(Load(t.bundle).evidence)).Some?
  {
    BundleIsNumbered(cfg, t.bundle);
    UsedAreCited(t.draft, Load(t.bundle), t.bundle.first);
  }

  /** The guard node never meets a label without a number or without a row. */
  lemma GuardNeverFails(cfg: Config, s: State, t: State)
    requires Reaches(cfg, s, t) && t.node.GuardCitations?
    ensures Citations(Used(t.draft, Load(t.bundle)), ByLabel(Load(t.bundle).evidence)).Some?
  {
    BundleIsSafe(cfg, s, t);
    GuardHasCitations(cfg, t);
  }

  lemma DraftIsWritten(cfg: Config, t: State, input: Input, f: Findings)
    requires t.node.GenerateAnswer? && !input.fails && f.hasEvidence
    ensures var u := Move(cfg, t, input, f);
            && u.node.GuardCitations?
            && u == t.(node := u.node, draft := input.draft, route := u.route, drafts := u.drafts)
  {
  }

  lemma DraftIsAccepted(cfg: Config, u: State, input: Input, f: Findings)
    requires u.node.GuardCitations? && !input.fails && u.project.Some? && f.passes && f.citations.Some?
    ensures EndsAnswered(Move(cfg, u, input, f))
  {
  }

  lemma WitnessPasses(cfg: Config, b: Stored, project: nat)
    requires Genuine(cfg, b) && b.pack.evidence != [] && b.desk.project == project
    ensures Passes(WitnessDraft(Load(b)), Load(b), project) && Load(b).evidence != []
  {
    SomeDraftPasses(b.desk, cfg.maxEvidence, b.chunks, b.first);
  }

  lemma WitnessIsAnswered(cfg: Config, s: State, inputs: seq<Input>, write: Input, check: Input)
    requires Starts(s) && Run(cfg, s, inputs).node.GenerateAnswer? && !write.fails && !check.fails
    requires write.draft == WitnessDraft(Load(Run(cfg, s, inputs).bundle))
    ensures EndsAnswered(Run(cfg, s, inputs + [write] + [check]))
  {
    var t := Run(cfg, s, inputs);
    RunConfined(cfg, s, inputs);
    RunGenuine(cfg, s, inputs);
    WitnessPasses(cfg, t.bundle, t.project.value);
    var one := inputs + [write];
    assert Front(one) == inputs;
    DraftIsWritten(cfg, t, write, Consult(cfg, s, one));
    var two := one + [check];
    assert Front(two) == one;
    GuardHasCitations(cfg, Run(cfg, s, one));
    DraftIsAccepted(cfg, Run(cfg, s, one), check, Consult(cfg, s, two));
  }

  function Answering(t: State): Input {
    Input(false, Deny, Grant("", {}, {}), t.plan, [], Grade(true, false, None),
          Shelf([], _ => Detail(InformalNote, None, None)), 0, WitnessDraft(Load(t.bundle)))
  }

  /** From every state in which a draft is about to be written, some draft makes the execution end answered. */
  lemma DraftCanBeAnswered(cfg: Config, s: State, t: State) returns (end: State)
    requires Reaches(cfg, s, t) && t.node.GenerateAnswer?
    ensures Reaches(cfg, s, end) && EndsAnswered(end)
  {
    var inputs :| Run(cfg, s, inputs) == t;
    var input := Answering(t);
    WitnessIsAnswered(cfg, s, inputs, input, input);
    RunReaches(cfg, s, inputs + [input] + [input]);
    end := Run(cfg, s, inputs + [input] + [input]);
  }

  lemma RunReaches(cfg: Config, s: State, inputs: seq<Input>)
    requires Starts(s)
    ensures Reaches(cfg, s, Run(cfg, s, inputs))
  {
  }

  // ------------------------------------------------------ end-to-end grounding

  /** The evidence row may back a statement in the run's project: it is the item labelled `n`, of
      that project, of a version inside the authorized scope that was in effect on the day it was
      packed and, in the library as it was then, the highest PUBLISHED version of its document. */
  predicate RowIsSound(context: Context, desk: Desk, shelf: Shelf, n: nat, row: Item) {
    && row.tag == Label(n) && NumberOf(row.tag) == Some(n)
    && row.project == context.project && row.projectCode == context.projectCode
    && row.version in context.versions
    && row.space.Some? && row.space.value in context.spaces
    && row.status.Published? && row.isCurrent
    && row.version in desk.metadata
    && desk.metadata[row.version].project == context.project
    && InForce(desk.metadata[row.version], desk.today)
    && HighestPublished(shelf.Library(), context.project, row.version)
  }

  lemma PackedRowIsSound(context: Context, desk: Desk, shelf: Shelf, cap: nat, chunks: seq<Chunk>, i: nat)
    requires desk.project == context.project && desk.projectCode == context.projectCode && AllAllowed(chunks, context)
    requires desk.metadata == MetadataOf(shelf)
    requires i < |PackOf(desk, cap, chunks).evidence|
    ensures RowIsSound(context, desk, shelf, i + 1, PackOf(desk, cap, chunks).evidence[i])
  {
    PackIsSound(desk, cap, chunks);
    var c := PackIsAdmitted(desk, cap, chunks, i);
    assert Allowed(c, context);
    InForceIsHighest(shelf, PackOf(desk, cap, chunks).evidence[i].version, desk.today);
    NumberRoundTrip(i + 1);
  }

  lemma StoredRowIsSound(cfg: Config, t: State, n: nat)
    requires Packed(t) && Genuine(cfg, t.bundle) && 1 <= n <= |t.bundle.pack.evidence|
    ensures t.bundle.first + n - 1 < |t.snapshots|
    ensures RowIsSound(t.context, t.bundle.desk, t.bundle.shelf, n, t.snapshots[t.bundle.first + n - 1])
  {
    var e := t.bundle.pack.evidence;
    assert t.snapshots[t.bundle.first + n - 1] == t.snapshots[t.bundle.first..t.bundle.first + |e|][n - 1];
    PackedRowIsSound(t.context, t.bundle.desk, t.bundle.shelf, cfg.maxEvidence, t.bundle.chunks, n - 1);
  }

  /** Citation `n` of the saved answer points to a sound row of the run's project, whose version was
      the highest PUBLISHED one already in the library from which the scope was resolved. */
  predicate CitationIsSound(t: State, n: nat) {
    && t.answer.Grounded? && t.bundle.Governed? && t.project == Some(t.context.project)
    && n in t.answer.citations && t.answer.citations[n] < |t.snapshots|
    && RowIsSound(t.context, t.bundle.desk, t.bundle.shelf, n, t.snapshots[t.answer.citations[n]])
    && HighestPublished(t.scopedAt, t.context.project, t.snapshots[t.answer.citations[n]].version)
  }

  lemma AcceptedNumbers(cfg: Config, project: Option<nat>, bundle: Stored, draft: Draft, answer: Answer)
    requires Genuine(cfg, bundle) && Accepted(project, bundle, draft, answer)
    ensures forall n <- answer.citations ::
              1 <= n <= |bundle.pack.evidence| && answer.citations[n] == bundle.first + n - 1
  {
    BundleIsNumbered(cfg, bundle);
    UsedAreCited(draft, Load(bundle), bundle.first);
  }

  lemma NumberedIsSound(cfg: Config, t: State, n: nat)
    requires Packed(t) && Genuine(cfg, t.bundle) && ScopeOk(t)
    requires t.answer.Grounded? && n in t.answer.citations
    requires 1 <= n <= |t.bundle.pack.evidence| && t.answer.citations[n] == t.bundle.first + n - 1
    ensures CitationIsSound(t, n)
  {
    StoredRowIsSound(cfg, t, n);
  }

  lemma AcceptedIsSound(cfg: Config, t: State)
    requires Packed(t) && Genuine(cfg, t.bundle) && ScopeOk(t) && t.answer.Grounded?
    requires forall n <- t.answer.citations ::
               1 <= n <= |t.bundle.pack.evidence| && t.answer.citations[n] == t.bundle.first + n - 1
    ensures forall n <- t.answer.citations :: CitationIsSound(t, n)
  {
    forall n <- t.answer.citations ensures CitationIsSound(t, n) {
      NumberedIsSound(cfg, t, n);
    }
  }

  lemma AnsweredIsAccepted(cfg: Config, s: State, t: State)
    requires Reaches(cfg, s, t) && EndsAnswered(t)
    ensures Packed(t) && Genuine(cfg, t.bundle) && ScopeOk(t)
    ensures Accepted(t.project, t.bundle, t.draft, t.answer)
  {
    var inputs :| Run(cfg, s, inputs) == t;
    RunConfined(cfg, s, inputs);
    RunGenuine(cfg, s, inputs);
    RunScoped(cfg, s, inputs);
    RunAccepted(cfg, s, inputs);
  }

  /** End-to-end grounding: for every retrieval result and every model output, if a run ends
      answered, each saved citation points to a sound evidence row of the run's project under its
      own number. */
  lemma AnswersAreGrounded(cfg: Config, s: State, t: State)
    requires Reaches(cfg, s, t) && EndsAnswered(t)
    ensures t.answer.Grounded? && forall n <- t.answer.citations :: CitationIsSound(t, n)
  {
    AnsweredIsAccepted(cfg, s, t);
    AcceptedNumbers(cfg, t.project, t.bundle, t.draft, t.answer);
    AcceptedIsSound(cfg, t);
  }

  /** Every claim is cited, and the saved citations are exactly those of the claims and of the
      disclosure, each under the number in its label. */
  predicate ClaimsCited(t: State) {
    && t.answer.Grounded?
    && t.draft.claims != [] && (forall c <- t.draft.claims :: c.tags != [])
    && (forall n <- t.answer.citations :: Cited(t.draft, Label(n)))
    && (forall c <- t.draft.claims, l <- c.tags :: NumberOf(l).Some? && NumberOf(l).value in t.answer.citations)
    && (forall l <- DisclosureTags(t.draft) :: NumberOf(l).Some? && NumberOf(l).value in t.answer.citations)
  }

  lemma AnsweredIsCited(cfg: Config, t: State)
    requires Genuine(cfg, t.bundle) && Accepted(t.project, t.bundle, t.draft, t.answer)
    ensures ClaimsCited(t)
  {
    BundleIsNumbered(cfg, t.bundle);
    UsedAreCited(t.draft, Load(t.bundle), t.bundle.first);
    forall c <- t.draft.claims, l <- c.tags ensures NumberOf(l).Some? && NumberOf(l).value in t.answer.citations {
      assert Cited(t.draft, l);
    }
  }

  lemma ClaimsAreCited(cfg: Config, s: State, t: State)
    requires Reaches(cfg, s, t) && EndsAnswered(t)
    ensures ClaimsCited(t)
  {
    AnsweredIsAccepted(cfg, s, t);
    AnsweredIsCited(cfg, t);
  }
}
