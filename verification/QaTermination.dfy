/** The question-answering graph always ends, and how much work it does at most (agent/graph.py). */
module QaTermination {
  import opened Common
  import opened QaGraph

  function RoundsLeft(s: State): nat {
    if s.retrievalRound >= 2 then 0 else 2 - s.retrievalRound
  }

  function RevisionsLeft(s: State): nat {
    if s.revisionCount >= 1 then 0 else 1
  }

  function Measure(s: State): nat {
    match s.node
    case LoadPrompt => 15
    case AnalyzeQuery => 14
    case SelectProject => 13
    case ResolveScope => 12
    case ResolveIdentifiers => 11
    case Retrieve => 6 + 2 * RoundsLeft(s)
    case GradeRetrieval => 7 + 2 * RoundsLeft(s)
    case GovernEvidence => 6
    case GenerateAnswer => 5
    case GuardCitations => 2 + 2 * RevisionsLeft(s)
    case ReviseAnswer => 3
    case Refuse => 1
    case ClarifyProject => 1
    case End => 0
    case Failed => 0
  }

  /** Whatever the services find, a node brings the run nearer to its end. */
  lemma MoveDescends(cfg: Config, s: State, input: Input)
    requires !Ended(s)
    ensures forall f :: Measure(Move(cfg, s, input, f)) < Measure(s)
  {
  }

  lemma {:induction false} RunDescends(cfg: Config, s: State, inputs: seq<Input>)
    ensures Ended(Run(cfg, s, inputs)) || Measure(Run(cfg, s, inputs)) + |inputs| <= Measure(s)
  {
    if inputs != [] {
      RunDescends(cfg, s, Front(inputs));
      if !Ended(Run(cfg, s, Front(inputs))) {
        MoveDescends(cfg, Run(cfg, s, Front(inputs)), Last(inputs));
      }
    }
  }

  /** Every execution ends within fifteen nodes, whatever rounds and revisions it starts with. */
  lemma EveryRunEnds(cfg: Config, s: State, n: nat, t: State)
    requires ReachesIn(cfg, s, n, t) && n >= 15
    ensures Ended(t)
  {
    var inputs :| |inputs| == n && Run(cfg, s, inputs) == t;
    RunDescends(cfg, s, inputs);
    MeasureBound(s);
    MeasureBound(t);
  }

  lemma MeasureBound(s: State)
    ensures Measure(s) <= 15 && (Measure(s) == 0 <==> Ended(s))
  {
  }

  predicate BeforeDraft(n: Node) {
    n.LoadPrompt? || n.AnalyzeQuery? || n.SelectProject? || n.ResolveScope? || n.ResolveIdentifiers?
    || n.Retrieve? || n.GradeRetrieval? || n.GovernEvidence? || n.GenerateAnswer?
  }

  predicate BoundedRounds(s: State) {
    && s.retrievals + RoundsLeft(s) <= 2
    && s.gradings + (if s.node.GradeRetrieval? then 1 else 0) <= s.retrievals
  }

  predicate BoundedDrafts(s: State) {
    && (BeforeDraft(s.node) ==> s.drafts == 0)
    && s.drafts + RevisionsLeft(s) <= 2
    && (s.node.ReviseAnswer? ==> s.revisionCount == 0)
  }

  lemma RoundsBounded(cfg: Config, s: State, input: Input)
    requires BoundedRounds(s)
    ensures forall f :: BoundedRounds(Move(cfg, s, input, f))
  {
  }

  lemma DraftsBounded(cfg: Config, s: State, input: Input)
    requires BoundedDrafts(s)
    ensures forall f :: BoundedDrafts(Move(cfg, s, input, f))
  {
  }

  lemma {:induction false} RunBounded(cfg: Config, s: State, inputs: seq<Input>)
    requires Starts(s)
    ensures BoundedRounds(Run(cfg, s, inputs)) && BoundedDrafts(Run(cfg, s, inputs))
  {
    if inputs != [] {
      RunBounded(cfg, s, Front(inputs));
      RoundsBounded(cfg, Run(cfg, s, Front(inputs)), Last(inputs));
      DraftsBounded(cfg, Run(cfg, s, Front(inputs)), Last(inputs));
    }
  }

  /** At most two retrievals, two gradings and two drafts, and the revision node never gets to
      its own refusal. */
  lemma BoundedWork(cfg: Config, s: State, t: State)
    requires Reaches(cfg, s, t)
    ensures t.retrievals <= 2 && t.gradings <= 2 && t.drafts <= 2 && (t.node.ReviseAnswer? ==> t.revisionCount < 1)
  {
    var inputs :| Run(cfg, s, inputs) == t;
    RunBounded(cfg, s, inputs);
  }
}
