/** The question-answering graph (agent/graph.py and agent/nodes): retrieval, grading, governance,
    drafting, the citation guard, one revision or a refusal.  Whatever the outside world answers
    (project selection, authorization, retrieval, metadata, the calendar, the language model, and
    failures) comes in through `Input`; every claim holds for all of it. */
module QaGraph {
  import opened Common
  import opened Text
  import opened Evidence
  import opened Governance
  import opened CitationGuard
  import opened Access
  import opened Catalogue
  import Documents

  datatype Node =
    | LoadPrompt | AnalyzeQuery | SelectProject | ResolveScope | ResolveIdentifiers | Retrieve
    | GradeRetrieval | GovernEvidence | GenerateAnswer | GuardCitations | ReviseAnswer | Refuse
    | ClarifyProject | End | Failed

  datatype Route =
    | NoRoute | Clarification | Refusal | ProjectQa | ToGrade | ToGovern | RetrieveAgain
    | ToGenerate | ToGuard | Answered | ToRevise

  datatype Plan = Plan(query: string, versions: set<nat>, allowSecondRound: bool)

  /** What `evidence_bundle_id` points to.  A governed bundle holds a pack and the id of its first
      snapshot, and remembers what it was packed from. */
  datatype Stored =
    | NoBundle
    | Raw(chunks: seq<Chunk>)
    | Governed(desk: Desk, shelf: Shelf, chunks: seq<Chunk>, first: nat, pack: Pack)

  datatype Answer = NoAnswer | Refused | Grounded(citations: map<nat, nat>)

  /** The agent state together with what the store holds for the run.  `scopedAt` is history: the
      library from which the scope was resolved.  `snapshots` are the governed evidence rows, named by
      position; the last three fields count node executions. */
  datatype State = State(
    node: Node,
    route: Route,
    project: Option<nat>,
    context: Context,
    scopedAt: Documents.Library,
    plan: Plan,
    retrievalRound: nat,
    revisionCount: nat,
    bundle: Stored,
    draft: Draft,
    snapshots: seq<Item>,
    answer: Answer,
    retrievals: nat,
    gradings: nat,
    drafts: nat)

  datatype Selection = Clarify | Deny | Pick(project: nat)

  datatype Grade = Grade(adequate: bool, secondRoundJustified: bool, refinedQuery: Option<string>)

  /** `shelf` is the document library at the moment a node reads it. */
  datatype Input = Input(
    fails: bool,
    selection: Selection,
    grant: Grant,
    plan: Plan,
    retrieved: seq<Chunk>,
    grade: Grade,
    shelf: Shelf,
    today: Date,
    draft: Draft)

  datatype Config = Config(maxEvidence: nat, allowSecondRound: bool)

  // -------------------------------------------------------------------- nodes

  function Select(s: State, input: Input): State {
    match input.selection
    case Clarify => s.(project := None, route := Clarification)
    case Deny => s.(project := None, route := Refusal)
    case Pick(p) => s.(project := Some(if s.project.Some? then s.project.value else p), route := ProjectQa)
  }

  function DoRetrieve(s: State, input: Input): State {
    if s.retrievalRound >= 2 then s.(route := Refusal)
    else
      match Constrain(Request(s.context.projectCode, s.plan.query, s.plan.versions, {}), s.context)
      case Err(_) => s.(node := Failed)
      case Ok(None) => s.(bundle := Raw([]), route := Refusal)
      case Ok(Some(_)) =>
        s.(bundle := Raw(Postfilter(input.retrieved, s.context)), retrievalRound := s.retrievalRound + 1,
           route := ToGrade, retrievals := s.retrievals + 1)
  }

  function DoGrade(s: State, input: Input): State {
    var t, grade := s.(gradings := s.gradings + 1), input.grade;
    if grade.adequate then t.(route := ToGovern)
    else if grade.secondRoundJustified && s.retrievalRound < 2 && s.plan.allowSecondRound && grade.refinedQuery.Some?
    then t.(plan := s.plan.(query := Strip(grade.refinedQuery.value)), route := RetrieveAgain)
    else t.(route := Refusal)
  }

  /** The chunks `load_evidence_bundle` finds; a governed bundle holds none. */
  function RawChunks(b: Stored): seq<Chunk> {
    if b.Raw? then b.chunks else []
  }

  function DeskOf(s: State, input: Input): Desk {
    Desk(if s.project.Some? then s.project.value else 0, s.context.projectCode, MetadataOf(input.shelf), input.today)
  }

  function DoGovern(s: State, input: Input, pack: Pack): State {
    if s.project.None? then s.(node := Failed)
    else if pack.evidence == [] then s.(route := Refusal)
    else s.(bundle := Governed(DeskOf(s, input), input.shelf, RawChunks(s.bundle), |s.snapshots|, pack),
            snapshots := s.snapshots + pack.evidence, route := ToGenerate)
  }

  /** What `load_governed_evidence_bundle` finds. */
  function Load(b: Stored): Bundle {
    if b.Governed? then Freeze(b.pack, b.first) else Bundle([], map[])
  }

  function WriteDraft(s: State, input: Input, hasEvidence: bool): State {
    if !hasEvidence then s.(node := Failed) else s.(draft := input.draft, route := ToGuard, drafts := s.drafts + 1)
  }

  /** `int(label[1:])`. */
  function NumberOf(t: string): Option<nat> {
    if t == "" then None else ParseDecimal(t[1..])
  }

  /** The stored citations: the first of each number wins; no result if a label has no number. */
  function Citations(used: seq<string>, known: map<string, Frozen>): Option<map<nat, nat>> {
    if used == [] then Some(map[])
    else
      var prior := Citations(Front(used), known);
      var t := Last(used);
      if prior.None? || NumberOf(t).None? || t !in known then None
      else
        var n := NumberOf(t).value;
        Some(if n in prior.value then prior.value else prior.value[n := known[t].snapshot])
  }

  function DoGuard(s: State, passes: bool, citations: Option<map<nat, nat>>): State {
    if s.project.None? then s.(node := Failed)
    else if passes && citations.None? then s.(node := Failed)
    else if passes then s.(answer := Grounded(citations.value), route := Answered)
    else if s.revisionCount < 1 then s.(route := ToRevise)
    else s.(route := Refusal)
  }

  function DoRevise(s: State, input: Input, hasEvidence: bool): State {
    if s.revisionCount >= 1 then s.(route := Refusal)
    else
      var t := WriteDraft(s, input, hasEvidence);
      t.(revisionCount := s.revisionCount + 1)
  }

  /** What the services a node calls make of the state: the evidence pack, whether there is governed
      evidence, the guard's verdict and the citations it leads to. */
  datatype Findings = Findings(pack: Pack, hasEvidence: bool, passes: bool, citations: Option<map<nat, nat>>)

  // -------------------------------------------------------------------- edges

  /** The routers and the fixed edges, applied to the state a node returned. */
  function Next(node: Node, route: Route): Node {
    match node
    case LoadPrompt => AnalyzeQuery
    case AnalyzeQuery => SelectProject
    case SelectProject =>
      if route.Clarification? then ClarifyProject else if route.Refusal? then Refuse else ResolveScope
    case ResolveScope => ResolveIdentifiers
    case ResolveIdentifiers => Retrieve
    case Retrieve => if route.ToGrade? then GradeRetrieval else Refuse
    case GradeRetrieval =>
      if route.ToGovern? then GovernEvidence else if route.RetrieveAgain? then Retrieve else Refuse
    case GovernEvidence => if route.ToGenerate? then GenerateAnswer else Refuse
    case GenerateAnswer => GuardCitations
    case GuardCitations => if route.Answered? then End else if route.ToRevise? then ReviseAnswer else Refuse
    case ReviseAnswer => GuardCitations
    case Refuse => End
    case ClarifyProject => End
    case End => End
    case Failed => Failed
  }

  function Execute(cfg: Config, s: State, input: Input, f: Findings): State {
    match s.node
    case LoadPrompt => s
    case AnalyzeQuery => s
    case SelectProject => Select(s, input)
    case ResolveScope =>
      if s.project.None? then s.(node := Failed)
      else
        var library := input.shelf.Library();
        s.(context := ScopeOf(library, s.project.value, input.grant), scopedAt := library)
    case ResolveIdentifiers => s.(plan := input.plan.(allowSecondRound := cfg.allowSecondRound))
    case Retrieve => DoRetrieve(s, input)
    case GradeRetrieval => DoGrade(s, input)
    case GovernEvidence => DoGovern(s, input, f.pack)
    case GenerateAnswer => WriteDraft(s, input, f.hasEvidence)
    case GuardCitations => DoGuard(s, f.passes, f.citations)
    case ReviseAnswer => DoRevise(s, input, f.hasEvidence)
    case Refuse => s.(answer := Refused, route := Refusal)
    case ClarifyProject => s.(answer := Refused, route := Clarification)
    case End => s
    case Failed => s
  }

  predicate Ended(s: State) {
    s.node.End? || s.node.Failed?
  }

  function Move(cfg: Config, s: State, input: Input, f: Findings): State {
    if Ended(s) then s
    else if input.fails then s.(node := Failed)
    else
      var t := Execute(cfg, s, input, f);
      if t.node.Failed? then t else t.(node := Next(s.node, t.route))
  }

  /** The state after a run of nodes. */
  function Run(cfg: Config, s: State, inputs: seq<Input>): State
    decreases |inputs|, 1
  {
    if inputs == [] then s else Move(cfg, Run(cfg, s, Front(inputs)), Last(inputs), Consult(cfg, s, inputs))
  }

  /** What the services found for the last node of a run. */
  function Consult(cfg: Config, s: State, inputs: seq<Input>): Findings
    requires inputs != []
    decreases |inputs|, 0
  {
    var t := Run(cfg, s, Front(inputs));
    var b := Load(t.bundle);
    Findings(
      PackOf(DeskOf(t, Last(inputs)), cfg.maxEvidence, RawChunks(t.bundle)),
      b.evidence != [],
      t.project.Some? && Passes(t.draft, b, t.project.value),
      Citations(Used(t.draft, b), ByLabel(b.evidence)))
  }

  /** An execution starts at the first node; everything else may be left over from an earlier one. */
  predicate Starts(s: State) {
    s.node.LoadPrompt? && s.retrievals == 0 && s.gradings == 0 && s.drafts == 0
  }

  ghost predicate ReachesIn(cfg: Config, s: State, n: nat, t: State) {
    exists inputs :: |inputs| == n && Run(cfg, s, inputs) == t
  }

  /** `t` is a state of an execution that started in `s`. */
  ghost predicate Reaches(cfg: Config, s: State, t: State) {
    Starts(s) && exists inputs :: Run(cfg, s, inputs) == t
  }
}
