/** Which way the question-answering graph goes: every node's way out, what the last grade of an answered
    run was, and that evidence which is allowed and in force can be answered from (agent/graph.py and
    agent/nodes). */
module QaRouting {
  import opened Common
  import opened Evidence
  import opened Governance
  import opened ConflictPolicy
  import opened AuthorityPolicy
  import opened CitationGuard
  import opened Access
  import opened Catalogue
  import opened QaGraph
  import opened QaGrounding
  import opened QaTermination
  import Text

  // ------------------------------------------------------------ node by node

  /** The user is asked which project, refused, or taken to the project of the run. */
  lemma SelectRoutes(cfg: Config, s: State, input: Input, f: Findings)
    requires s.node.SelectProject? && !input.fails
    ensures var t := Move(cfg, s, input, f);
            && (t.node.ClarifyProject? <==> input.selection.Clarify?)
            && (t.node.Refuse? <==> input.selection.Deny?)
            && (t.node.ResolveScope? <==> input.selection.Pick?)
            && (input.selection.Pick? ==>
                  t.project == if s.project.Some? then s.project else Some(input.selection.project))
            && (!input.selection.Pick? ==> t.project == None)
  {
  }

  /** The scope is read off the library for the project of the run, and the plan is the one the
      identifiers led to, with a second round only if the configuration allows one. */
  lemma ScopeAndPlan(cfg: Config, s: State, input: Input, f: Findings)
    requires !input.fails
    ensures s.node.ResolveScope? && s.project.Some? ==>
              var t := Move(cfg, s, input, f);
              && t.node.ResolveIdentifiers? && t.scopedAt == input.shelf.Library() && t.project == s.project
              && t.context == ScopeOf(input.shelf.Library(), s.project.value, input.grant)
    ensures s.node.ResolveIdentifiers? ==>
              var t := Move(cfg, s, input, f);
              && t.node.Retrieve? && t.plan.query == input.plan.query && t.plan.versions == input.plan.versions
              && t.plan.allowSecondRound == cfg.allowSecondRound && t.context == s.context
  {
  }

  /** There is something that is both granted and asked for. */
  predicate Askable(s: State) {
    s.context.spaces != {} && exists v :: v in s.context.versions && (s.plan.versions == {} || v in s.plan.versions)
  }

  /** At most two rounds, each only if something may be asked for at all; what comes back is graded,
      and holds exactly the allowed chunks. */
  lemma RetrieveRoutes(cfg: Config, s: State, input: Input, f: Findings)
    requires s.node.Retrieve? && !input.fails
    ensures var t := Move(cfg, s, input, f);
            && (t.node.GradeRetrieval? <==> s.retrievalRound < 2 && Askable(s))
            && (t.node.Refuse? <==> !(s.retrievalRound < 2 && Askable(s)))
            && (t.node.GradeRetrieval? ==>
                  && t.bundle.Raw?
                  && (forall k :: k in t.bundle.chunks <==> k in input.retrieved && Allowed(k, s.context))
                  && t == s.(node := t.node, route := t.route, bundle := t.bundle,
                             retrievalRound := s.retrievalRound + 1, retrievals := s.retrievals + 1))
  {
    var r := Request(s.context.projectCode, s.plan.query, s.plan.versions, {});
    ConstrainExactly(r, s.context);
    PostfilterExactly(input.retrieved, s.context);
    assert s.context.spaces != {} <==> exists p :: p in s.context.spaces;
  }

  /** The grade asks for a second round, and there may be one. */
  predicate GoesBack(s: State, grade: Grade) {
    && !grade.adequate && grade.secondRoundJustified && grade.refinedQuery.Some?
    && s.retrievalRound < 2 && s.plan.allowSecondRound
  }

  /** Adequate evidence, and no other, goes on to governance; a justified second round goes back with
      the refined query; anything else is refused. */
  lemma GradeRoutes(cfg: Config, s: State, input: Input, f: Findings)
    requires s.node.GradeRetrieval? && !input.fails
    ensures var t := Move(cfg, s, input, f);
            && (t.node.GovernEvidence? <==> input.grade.adequate)
            && (t.node.Retrieve? <==> GoesBack(s, input.grade))
            && (t.node.Refuse? <==> !input.grade.adequate && !GoesBack(s, input.grade))
            && t == s.(node := t.node, route := t.route, plan := t.plan, gradings := s.gradings + 1)
            && t.plan == if GoesBack(s, input.grade)
                         then s.plan.(query := Text.Strip(input.grade.refinedQuery.value)) else s.plan
  {
  }

  /** What the services find in state `t`: the evidence pack of its chunks, whether there is governed
      evidence, and what the guard makes of the draft. */
  predicate Found(cfg: Config, t: State, input: Input, f: Findings) {
    var b := Load(t.bundle);
    && f.pack == PackOf(DeskOf(t, input), cfg.maxEvidence, RawChunks(t.bundle))
    && f.hasEvidence == (b.evidence != [])
    && f.passes == (t.project.Some? && Passes(t.draft, b, t.project.value))
    && f.citations == Citations(Used(t.draft, b), ByLabel(b.evidence))
  }

  /** Some chunk of the bundle is of a current, published version of the project that is in effect. */
  predicate HasEvidence(t: State, input: Input) {
    t.bundle.Raw? && exists c <- t.bundle.chunks :: Admissible(DeskOf(t, input), c)
  }

  lemma PackIsEmptyExactly(desk: Desk, cap: nat, chunks: seq<Chunk>)
    requires cap >= 1
    ensures PackOf(desk, cap, chunks).evidence != [] <==> exists c <- chunks :: Admissible(desk, c)
  {
    if PackOf(desk, cap, chunks).evidence != [] {
      var c := PackIsAdmitted(desk, cap, chunks, 0);
    }
    if c :| c in chunks && Admissible(desk, c) {
      var n :| 0 <= n < |chunks| && chunks[n] == c;
      SomethingIsShown(desk, cap, chunks, n);
    }
  }

  /** An answer is drafted exactly when there is evidence in force, and otherwise refused. */
  lemma GovernRoutes(cfg: Config, s: State, t: State, input: Input, f: Findings)
    requires Reaches(cfg, s, t) && Found(cfg, t, input, f)
    requires t.node.GovernEvidence? && !input.fails && cfg.maxEvidence >= 1
    ensures var u := Move(cfg, t, input, f);
            && (u.node.GenerateAnswer? <==> HasEvidence(t, input))
            && (u.node.Refuse? <==> !HasEvidence(t, input))
            && (u.node.GenerateAnswer? ==> u.bundle.Governed? && u.bundle.pack == f.pack && u.project == t.project)
  {
    BundleIsSafe(cfg, s, t);
    PackIsEmptyExactly(DeskOf(t, input), cfg.maxEvidence, RawChunks(t.bundle));
    GovernMoves(cfg, t, input, f);
  }

  lemma GovernMoves(cfg: Config, t: State, input: Input, f: Findings)
    requires t.node.GovernEvidence? && !input.fails && t.project.Some?
    ensures var u := Move(cfg, t, input, f);
            && (u.node.GenerateAnswer? <==> f.pack.evidence != [])
            && (u.node.Refuse? <==> f.pack.evidence == [])
            && (u.node.GenerateAnswer? ==> u.bundle.Governed? && u.bundle.pack == f.pack && u.project == t.project)
  {
  }

  /** What the model writes, the first time or in its one revision, goes to the guard. */
  lemma DraftRoutes(cfg: Config, s: State, t: State, input: Input, f: Findings)
    requires Reaches(cfg, s, t) && Found(cfg, t, input, f)
    requires (t.node.GenerateAnswer? || t.node.ReviseAnswer?) && !input.fails
    ensures var u := Move(cfg, t, input, f);
            u.node.GuardCitations? && u.draft == input.draft && u.bundle == t.bundle
            && u.revisionCount == t.revisionCount + if t.node.ReviseAnswer? then 1 else 0
  {
    BundleIsSafe(cfg, s, t);
    BoundedWork(cfg, s, t);
    DraftMoves(cfg, t, input, f);
  }

  lemma DraftMoves(cfg: Config, t: State, input: Input, f: Findings)
    requires (t.node.GenerateAnswer? || (t.node.ReviseAnswer? && t.revisionCount == 0)) && !input.fails && f.hasEvidence
    ensures var u := Move(cfg, t, input, f);
            u.node.GuardCitations? && u.draft == input.draft && u.bundle == t.bundle
            && u.revisionCount == t.revisionCount + if t.node.ReviseAnswer? then 1 else 0
  {
  }

  /** The guard lets exactly the drafts through that pass, sends the first that fails back, and refuses
      the second. */
  lemma GuardRoutes(cfg: Config, s: State, t: State, input: Input, f: Findings)
    requires Reaches(cfg, s, t) && Found(cfg, t, input, f) && t.node.GuardCitations? && !input.fails
    ensures t.project.Some?
    ensures var u, passes := Move(cfg, t, input, f), Passes(t.draft, Load(t.bundle), t.project.value);
            && (EndsAnswered(u) <==> passes)
            && (u.node.ReviseAnswer? <==> !passes && t.revisionCount == 0)
            && (u.node.Refuse? <==> !passes && t.revisionCount >= 1)
            && u.draft == t.draft && u.bundle == t.bundle
  {
    BundleIsSafe(cfg, s, t);
    GuardHasCitations(cfg, t);
    GuardMoves(cfg, t, input, f);
  }

  lemma GuardMoves(cfg: Config, t: State, input: Input, f: Findings)
    requires t.node.GuardCitations? && !input.fails && t.project.Some? && f.citations.Some?
    ensures var u := Move(cfg, t, input, f);
            && (EndsAnswered(u) <==> f.passes)
            && (u.node.ReviseAnswer? <==> !f.passes && t.revisionCount == 0)
            && (u.node.Refuse? <==> !f.passes && t.revisionCount >= 1)
            && u.draft == t.draft && u.bundle == t.bundle
  {
  }

  /** In an execution, a node is given what the services find in its state. */
  lemma NextRun(cfg: Config, s: State, inputs: seq<Input>, input: Input) returns (f: Findings)
    requires Starts(s)
    ensures Found(cfg, Run(cfg, s, inputs), input, f)
    ensures Run(cfg, s, inputs + [input]) == Move(cfg, Run(cfg, s, inputs), input, f)
    ensures Reaches(cfg, s, Run(cfg, s, inputs))
  {
    assert Front(inputs + [input]) == inputs;
    RunReaches(cfg, s, inputs);
    f := Consult(cfg, s, inputs + [input]);
  }

  // ----------------------------------------------------------- over histories

  /** The grade given last. */
  function LastGrade(cfg: Config, s: State, inputs: seq<Input>): Option<Grade> {
    if inputs == [] then None
    else GradeAfter(Run(cfg, s, Front(inputs)), Last(inputs), LastGrade(cfg, s, Front(inputs)))
  }

  function GradeAfter(t: State, input: Input, prior: Option<Grade>): Option<Grade> {
    if t.node.GradeRetrieval? && !input.fails then Some(input.grade) else prior
  }

  predicate Adequate(grade: Option<Grade>) {
    grade.Some? && grade.value.adequate
  }

  /** Behind the grading. */
  predicate PastGrading(s: State) {
    s.node.GovernEvidence? || HasBundle(s)
  }

  lemma MoveIsGraded(cfg: Config, t: State, input: Input, f: Findings, prior: Option<Grade>)
    requires PastGrading(t) ==> Adequate(prior)
    ensures PastGrading(Move(cfg, t, input, f)) ==> Adequate(GradeAfter(t, input, prior))
  {
  }

  lemma {:induction false} RunIsGraded(cfg: Config, s: State, inputs: seq<Input>)
    requires Starts(s)
    ensures PastGrading(Run(cfg, s, inputs)) ==> Adequate(LastGrade(cfg, s, inputs))
  {
    if inputs != [] {
      RunIsGraded(cfg, s, Front(inputs));
      MoveIsGraded(cfg, Run(cfg, s, Front(inputs)), Last(inputs), Consult(cfg, s, inputs),
                   LastGrade(cfg, s, Front(inputs)));
    }
  }

  /** No answer without adequate evidence: the last grade of a run that ends answered was adequate. */
  lemma AnsweredWasAdequate(cfg: Config, s: State, inputs: seq<Input>)
    requires Starts(s) && EndsAnswered(Run(cfg, s, inputs))
    ensures LastGrade(cfg, s, inputs).Some? && LastGrade(cfg, s, inputs).value.adequate
  {
    RunIsGraded(cfg, s, inputs);
  }

  predicate BeforeRetrieval(n: Node) {
    n.LoadPrompt? || n.AnalyzeQuery? || n.SelectProject? || n.ResolveScope? || n.ResolveIdentifiers?
  }

  predicate OneRound(s: State) {
    && s.retrievals <= 1
    && (BeforeRetrieval(s.node) || s.node.Retrieve? ==> s.retrievals == 0)
    && (s.node.Retrieve? || s.node.GradeRetrieval? ==> !s.plan.allowSecondRound)
  }

  lemma MoveKeepsOneRound(cfg: Config, s: State, input: Input, f: Findings)
    requires OneRound(s) && !cfg.allowSecondRound
    ensures OneRound(Move(cfg, s, input, f))
  {
  }

  lemma {:induction false} RunHasOneRound(cfg: Config, s: State, inputs: seq<Input>)
    requires Starts(s) && !cfg.allowSecondRound
    ensures OneRound(Run(cfg, s, inputs))
  {
    if inputs != [] {
      RunHasOneRound(cfg, s, Front(inputs));
      MoveKeepsOneRound(cfg, Run(cfg, s, Front(inputs)), Last(inputs), Consult(cfg, s, inputs));
    }
  }

  /** Where the configuration allows no second round there is none, whatever the grades ask for. */
  lemma SecondRoundNeedsLeave(cfg: Config, s: State, t: State)
    requires Reaches(cfg, s, t) && !cfg.allowSecondRound
    ensures t.retrievals <= 1
  {
    var inputs :| Run(cfg, s, inputs) == t;
    RunHasOneRound(cfg, s, inputs);
  }

  predicate EndsSomehow(t: State) {
    t.node.End? ==> (t.route.Answered? && t.answer.Grounded?)
                    || ((t.route.Refusal? || t.route.Clarification?) && t.answer.Refused?)
  }

  lemma MoveEndsSomehow(cfg: Config, s: State, input: Input, f: Findings)
    requires EndsSomehow(s)
    ensures EndsSomehow(Move(cfg, s, input, f))
  {
  }

  /** A run that ends has an answer: a grounded one, or a refusal. */
  lemma {:induction false} EndIsAnswer(cfg: Config, s: State, inputs: seq<Input>)
    requires Starts(s)
    ensures EndsSomehow(Run(cfg, s, inputs))
  {
    if inputs != [] {
      EndIsAnswer(cfg, s, Front(inputs));
      MoveEndsSomehow(cfg, Run(cfg, s, Front(inputs)), Last(inputs), Consult(cfg, s, inputs));
    }
  }

  // ----------------------------------------------------- answers are possible

  function Finding(t: State, c: Chunk, shelf: Shelf, today: Date): Input {
    Input(false, Deny, Grant("", {}, {}), t.plan, [c], Grade(true, false, None), shelf, today, Draft([], None))
  }

  lemma FoundIsGraded(cfg: Config, t: State, input: Input, f: Findings, c: Chunk)
    requires t.node.Retrieve? && t.retrievalRound < 2 && Allowed(c, t.context) && input.retrieved == [c] && !input.fails
    requires t.plan.versions == {} || c.version.id in t.plan.versions
    ensures var u := Move(cfg, t, input, f);
            && u.node.GradeRetrieval? && u.bundle.Raw? && c in u.bundle.chunks
            && u.context == t.context && u.project == t.project
  {
    assert c.version.id in t.context.versions;
    assert Askable(t);
    RetrieveRoutes(cfg, t, input, f);
  }

  /** Three nodes on, a draft is about to be written. */
  lemma FoundIsGoverned(cfg: Config, s: State, inputs: seq<Input>, c: Chunk, shelf: Shelf, today: Date)
    requires Starts(s) && cfg.maxEvidence >= 1
    requires var t := Run(cfg, s, inputs);
             && t.node.Retrieve? && t.retrievalRound < 2 && Allowed(c, t.context)
             && (t.plan.versions == {} || c.version.id in t.plan.versions)
             && Admissible(Desk(t.context.project, t.context.projectCode, MetadataOf(shelf), today), c)
    ensures var input := Finding(Run(cfg, s, inputs), c, shelf, today);
            Run(cfg, s, inputs + [input] + [input] + [input]).node.GenerateAnswer?
  {
    var t, input := Run(cfg, s, inputs), Finding(Run(cfg, s, inputs), c, shelf, today);
    var one, two := inputs + [input], inputs + [input] + [input];
    var f0 := NextRun(cfg, s, inputs, input);
    BundleIsSafe(cfg, s, t);
    FoundIsGraded(cfg, t, input, f0, c);
    var f1 := NextRun(cfg, s, one, input);
    GradeRoutes(cfg, Run(cfg, s, one), input, f1);
    var f2 := NextRun(cfg, s, two, input);
    HasFound(Run(cfg, s, two), input, c, Desk(t.context.project, t.context.projectCode, MetadataOf(shelf), today));
    GovernRoutes(cfg, s, Run(cfg, s, two), input, f2);
  }

  lemma HasFound(t: State, input: Input, c: Chunk, desk: Desk)
    requires t.bundle.Raw? && c in t.bundle.chunks && DeskOf(t, input) == desk && Admissible(desk, c)
    ensures HasEvidence(t, input)
  {
  }

  /** The graph is not grounded for want of answers.  From every state in which a round of retrieval
      begins, and every chunk that is allowed, asked for and evidence on some day, there is a
      continuation that ends answered: the chunk is found, graded adequate, packed, and a draft is
      written that the guard accepts. */
  lemma SomeDraftIsAnswered(cfg: Config, s: State, t: State, c: Chunk, shelf: Shelf, today: Date) returns (end: State)
    requires Reaches(cfg, s, t) && t.node.Retrieve? && t.retrievalRound < 2 && cfg.maxEvidence >= 1
    requires Allowed(c, t.context) && (t.plan.versions == {} || c.version.id in t.plan.versions)
    requires Admissible(Desk(t.context.project, t.context.projectCode, MetadataOf(shelf), today), c)
    ensures Reaches(cfg, s, end) && EndsAnswered(end)
  {
    var inputs :| Run(cfg, s, inputs) == t;
    var input := Finding(t, c, shelf, today);
    FoundIsGoverned(cfg, s, inputs, c, shelf, today);
    var more := inputs + [input] + [input] + [input];
    RunReaches(cfg, s, more);
    end := DraftCanBeAnswered(cfg, s, Run(cfg, s, more));
  }
}
