/** Document publication and the scope of current versions (domain/documents.py,
    infrastructure/db/repositories/documents.py, application/use_cases/publish_document.py,
    infrastructure/db/repositories/authorization.py and evidence_governance.py). */
module Documents {
  import opened Common

  datatype Lifecycle =
    | Draft | UnderReview | Approved | Published | Superseded | Archived | DeletePending | Deleted

  function Targets(status: Lifecycle): set<Lifecycle> {
    match status
    case Draft => {UnderReview, DeletePending}
    case UnderReview => {Draft, Approved, DeletePending}
    case Approved => {Draft, Published, DeletePending}
    case Published => {Superseded, Archived, DeletePending}
    case Superseded => {Archived, DeletePending}
    case Archived => {DeletePending}
    case DeletePending => {Deleted}
    case Deleted => {}
  }

  datatype Document = Document(project: nat, category: nat)

  datatype Version = Version(
    document: nat,
    versionNo: nat,
    status: Lifecycle,
    supersedes: Option<nat>,
    publishedAt: Option<Time>)

  /** Rows are named by their position. */
  datatype Library = Library(documents: seq<Document>, versions: seq<Version>)

  datatype Refusal =
    | UnknownDocument | MovesProject | ChangesCategory | UnknownVersion | UnexpectedStatus
    | InvalidTransition | NotApproved | OtherDocument | NotPublished | IngestionFailed | IngestionPending

  datatype Ingestion = Pending | Running | Succeeded | Failed

  /** `max(version_no)` of a document, 0 when it has no version. */
  function MaxVersion(versions: seq<Version>, document: nat): (m: nat)
    ensures forall i :: 0 <= i < |versions| && versions[i].document == document ==> versions[i].versionNo <= m
    ensures m > 0 ==> exists i :: 0 <= i < |versions| && versions[i].document == document && versions[i].versionNo == m
  {
    if versions == [] then 0
    else
      var m := MaxVersion(Front(versions), document);
      if Last(versions).document == document && Last(versions).versionNo > m then Last(versions).versionNo else m
  }

  function AddDraft(lib: Library, document: Option<nat>, project: nat, category: nat, supersedes: Option<nat>):
    Result<Library, Refusal>
  {
    if document.Some? && document.value >= |lib.documents| then Err(UnknownDocument)
    else if document.Some? && lib.documents[document.value].project != project then Err(MovesProject)
    else if document.Some? && lib.documents[document.value].category != category then Err(ChangesCategory)
    else if supersedes.Some? && supersedes.value >= |lib.versions| then Err(UnknownVersion)
    else
      var id := if document.Some? then document.value else |lib.documents|;
      Ok(Library(
           if document.Some? then lib.documents else lib.documents + [Document(project, category)],
           lib.versions + [Version(id, MaxVersion(lib.versions, id) + 1, Draft, supersedes, None)]))
  }

  /** The draft is accepted: its document, if it names one, is there, in that project and category, and
      so is the version it is to supersede. */
  predicate DraftFits(lib: Library, document: Option<nat>, project: nat, category: nat, supersedes: Option<nat>) {
    && (document.Some? ==> document.value < |lib.documents|
                           && lib.documents[document.value] == Document(project, category))
    && (supersedes.Some? ==> supersedes.value < |lib.versions|)
  }

  /** One new version, a DRAFT with the next number of its document; a new document only if none was named. */
  predicate IsDrafted(lib: Library, next: Library, document: Option<nat>, project: nat, category: nat,
                      supersedes: Option<nat>)
  {
    && |next.versions| == |lib.versions| + 1 && lib.versions <= next.versions
    && next.documents == (if document.Some? then lib.documents else lib.documents + [Document(project, category)])
    && var v := Last(next.versions);
       && v.document == (if document.Some? then document.value else |lib.documents|)
       && v.status.Draft? && v.supersedes == supersedes && v.publishedAt.None?
       && IsNextNumber(lib.versions, v.document, v.versionNo)
  }

  /** One more than the highest number there is, and 1 if there is none. */
  predicate IsNextNumber(versions: seq<Version>, document: nat, n: nat) {
    && n >= 1
    && (forall i :: 0 <= i < |versions| && versions[i].document == document ==> versions[i].versionNo < n)
    && (n > 1 ==> exists i :: 0 <= i < |versions| && versions[i].document == document && versions[i].versionNo == n - 1)
  }

  lemma AddDraftExactly(lib: Library, document: Option<nat>, project: nat, category: nat, supersedes: Option<nat>)
    ensures var r := AddDraft(lib, document, project, category, supersedes);
            && (r.Ok? <==> DraftFits(lib, document, project, category, supersedes))
            && (r.Ok? ==> IsDrafted(lib, r.value, document, project, category, supersedes))
  {
    if AddDraft(lib, document, project, category, supersedes).Ok? {
      var next := AddDraft(lib, document, project, category, supersedes).value;
      assert Last(next.versions).versionNo - 1 == MaxVersion(lib.versions, Last(next.versions).document);
    }
  }

  /** The ways into each status. */
  lemma WaysInto(from: Lifecycle, to: Lifecycle)
    ensures to in Targets(from) <==>
            match to
            case Draft => from.UnderReview? || from.Approved?
            case UnderReview => from.Draft?
            case Approved => from.UnderReview?
            case Published => from.Approved?
            case Superseded => from.Published?
            case Archived => from.Published? || from.Superseded?
            case DeletePending => !from.DeletePending? && !from.Deleted?
            case Deleted => from.DeletePending?
  {
  }

  function Transition(lib: Library, v: nat, expected: Lifecycle, target: Lifecycle): Result<Library, Refusal> {
    if v >= |lib.versions| then Err(UnknownVersion)
    else if lib.versions[v].status != expected then Err(UnexpectedStatus)
    else if target !in Targets(lib.versions[v].status) then Err(InvalidTransition)
    else Ok(lib.(versions := lib.versions[v := lib.versions[v].(status := target)]))
  }

  function CompletePublication(lib: Library, v: nat, supersedes: Option<nat>, now: Time): Result<Library, Refusal> {
    if v >= |lib.versions| then Err(UnknownVersion)
    else if !lib.versions[v].status.Approved? then Err(NotApproved)
    else
      var published := lib.versions[v := lib.versions[v].(status := Published, publishedAt := Some(now))];
      match supersedes
      case None => Ok(lib.(versions := published))
      case Some(prior) =>
        if prior >= |lib.versions| then Err(UnknownVersion)
        else if lib.versions[prior].document != lib.versions[v].document then Err(OtherDocument)
        else if !lib.versions[prior].status.Published? then Err(NotPublished)
        else Ok(lib.(versions := published[prior := published[prior].(status := Superseded)]))
  }

  /** `_finalize`: only a finished ingestion touches the library. */
  function Finalize(lib: Library, v: nat, ingestion: Ingestion, now: Time): Result<Library, Refusal> {
    if v >= |lib.versions| then Err(UnknownVersion)
    else if ingestion.Failed? then Err(IngestionFailed)
    else if !ingestion.Succeeded? then Err(IngestionPending)
    else CompletePublication(lib, v, lib.versions[v].supersedes, now)
  }

  class DocumentRepository {
    var documents: seq<Document>
    var versions: seq<Version>

    function Value(): Library reads this {
      Library(documents, versions)
    }

    constructor ()
      ensures Value() == Library([], [])
    {
      documents, versions := [], [];
    }

    method CreateDraft(document: Option<nat>, project: nat, category: nat, supersedes: Option<nat>)
      returns (r: Result<nat, Refusal>)
      modifies this
      ensures var spec := AddDraft(old(Value()), document, project, category, supersedes);
              if spec.Ok? then Value() == spec.value && r == Ok(old(|versions|))
              else Value() == old(Value()) && r == Err(spec.error)
      ensures if old(DraftFits(Value(), document, project, category, supersedes))
              then IsDrafted(old(Value()), Value(), document, project, category, supersedes) && r == Ok(|versions| - 1)
              else r.Err? && Value() == old(Value())
    {
      AddDraftExactly(Value(), document, project, category, supersedes);
      var id := |documents|;
      match document {
        case Some(known) =>
          if known >= |documents| {
            return Err(UnknownDocument);
          }
          if documents[known].project != project {
            return Err(MovesProject);
          }
          if documents[known].category != category {
            return Err(ChangesCategory);
          }
          id := known;
        case None =>
      }
      if supersedes.Some? && supersedes.value >= |versions| {
        return Err(UnknownVersion);
      }
      if document.None? {
        documents := documents + [Document(project, category)];
      }
      var highest := FindMaxVersion(versions, id);
      r := Ok(|versions|);
      versions := versions + [Version(id, highest + 1, Draft, supersedes, None)];
    }

    method SetStatus(v: nat, expected: Lifecycle, target: Lifecycle) returns (r: Option<Refusal>)
      modifies this`versions
      ensures var spec := Transition(old(Value()), v, expected, target);
              if spec.Ok? then Value() == spec.value && r.None? else Value() == old(Value()) && r == Some(spec.error)
      ensures r.None? <==> v < |old(versions)| && old(versions)[v].status == expected && target in Targets(expected)
      ensures versions == if r.None? then old(versions)[v := old(versions)[v].(status := target)] else old(versions)
    {
      if v >= |versions| {
        return Some(UnknownVersion);
      }
      if versions[v].status != expected {
        return Some(UnexpectedStatus);
      }
      if target !in Targets(versions[v].status) {
        return Some(InvalidTransition);
      }
      versions := versions[v := versions[v].(status := target)];
      return None;
    }

    /** Both rows are checked before either changes. */
    method Publish(v: nat, ingestion: Ingestion, now: Time) returns (r: Option<Refusal>)
      modifies this`versions
      ensures var spec := Finalize(old(Value()), v, ingestion, now);
              if spec.Ok? then Value() == spec.value && r.None? else Value() == old(Value()) && r == Some(spec.error)
    {
      if v >= |versions| {
        return Some(UnknownVersion);
      }
      if ingestion.Failed? {
        return Some(IngestionFailed);
      }
      if !ingestion.Succeeded? {
        return Some(IngestionPending);
      }
      if !versions[v].status.Approved? {
        return Some(NotApproved);
      }
      var supersedes := versions[v].supersedes;
      if supersedes.Some? {
        if supersedes.value >= |versions| {
          return Some(UnknownVersion);
        }
        if versions[supersedes.value].document != versions[v].document {
          return Some(OtherDocument);
        }
        if !versions[supersedes.value].status.Published? {
          return Some(NotPublished);
        }
      }
      versions := versions[v := versions[v].(status := Published, publishedAt := Some(now))];
      if supersedes.Some? {
        versions := versions[supersedes.value := versions[supersedes.value].(status := Superseded)];
      }
      return None;
    }
  }

  method FindMaxVersion(versions: seq<Version>, document: nat) returns (m: nat)
    ensures m == MaxVersion(versions, document)
  {
    m := 0;
    for i := 0 to |versions|
      invariant m == MaxVersion(versions[..i], document)
    {
      assert Front(versions[..i + 1]) == versions[..i];
      if versions[i].document == document && versions[i].versionNo > m {
        m := versions[i].versionNo;
      }
    }
    assert versions[..|versions|] == versions;
  }

  // ---------------------------------------------------------------- histories

  datatype Op =
    | OpDraft(document: Option<nat>, project: nat, category: nat, supersedes: Option<nat>)
    | OpTransition(version: nat, expected: Lifecycle, target: Lifecycle)
    | OpPublish(version: nat, ingestion: Ingestion, now: Time)

  function Attempt(lib: Library, op: Op): Result<Library, Refusal> {
    match op
    case OpDraft(d, p, c, s) => AddDraft(lib, d, p, c, s)
    case OpTransition(v, e, t) => Transition(lib, v, e, t)
    case OpPublish(v, i, now) => Finalize(lib, v, i, now)
  }

  /** A refused operation leaves the library alone. */
  function Step(lib: Library, op: Op): Library {
    match Attempt(lib, op)
    case Ok(next) => next
    case Err(_) => lib
  }

  function After(lib: Library, ops: seq<Op>): Library {
    if ops == [] then lib else Step(After(lib, Front(ops)), Last(ops))
  }

  function History(ops: seq<Op>): Library {
    After(Library([], []), ops)
  }

  predicate VersionOk(lib: Library, i: nat)
    requires i < |lib.versions|
  {
    && lib.versions[i].document < |lib.documents|
    && lib.versions[i].versionNo > 0
    && (lib.versions[i].supersedes.Some? ==> lib.versions[i].supersedes.value < i)
  }

  /** Versions of a document are numbered upwards, and only an earlier row can be superseded. */
  predicate Inv(lib: Library) {
    && (forall i :: 0 <= i < |lib.versions| ==> VersionOk(lib, i))
    && (forall i, j :: 0 <= i < j < |lib.versions| && lib.versions[i].document == lib.versions[j].document
          ==> lib.versions[i].versionNo < lib.versions[j].versionNo)
  }

  /** The same version, whatever its status. */
  predicate SameVersion(a: Version, b: Version) {
    b == a.(status := b.status, publishedAt := b.publishedAt)
  }

  /** What every operation keeps of the rows there are. */
  predicate Evolves(a: Library, b: Library) {
    && a.documents <= b.documents
    && |a.versions| <= |b.versions|
    && (forall i :: 0 <= i < |a.versions| ==> SameVersion(a.versions[i], b.versions[i]))
    && (forall i :: 0 <= i < |a.versions| && b.versions[i].status != a.versions[i].status
          ==> b.versions[i].status in Targets(a.versions[i].status))
  }

  lemma SameRowsKeepInv(a: Library, b: Library)
    requires Inv(a) && Evolves(a, b) && |b.versions| == |a.versions|
    ensures Inv(b)
  {
    forall i | 0 <= i < |b.versions| ensures VersionOk(b, i) {
      assert VersionOk(a, i);
    }
  }

  lemma DraftEvolves(lib: Library, document: Option<nat>, project: nat, category: nat, supersedes: Option<nat>)
    requires Inv(lib) && AddDraft(lib, document, project, category, supersedes).Ok?
    ensures var next := AddDraft(lib, document, project, category, supersedes).value;
            Inv(next) && Evolves(lib, next)
  {
    var next := AddDraft(lib, document, project, category, supersedes).value;
    forall i | 0 <= i < |next.versions| ensures VersionOk(next, i) {
      if i < |lib.versions| {
        assert VersionOk(lib, i);
      }
    }
  }

  lemma StepEvolves(lib: Library, op: Op)
    requires Inv(lib)
    ensures Inv(Step(lib, op)) && Evolves(lib, Step(lib, op))
  {
    if Attempt(lib, op).Ok? {
      match op
      case OpDraft(d, p, c, s) => DraftEvolves(lib, d, p, c, s);
      case OpTransition(_, _, _) => SameRowsKeepInv(lib, Step(lib, op));
      case OpPublish(v, _, now) =>
        SameRowsKeepInv(lib, Step(lib, op));
    }
  }

  lemma {:induction false} HistoryOk(ops: seq<Op>)
    ensures Inv(History(ops))
  {
    if ops != [] {
      HistoryOk(Front(ops));
      StepEvolves(History(Front(ops)), Last(ops));
    }
  }

  predicate Retired(status: Lifecycle) {
    status in {Superseded, Archived, DeletePending, Deleted}
  }

  lemma {:induction false} RetiredIsAbsorbing(lib: Library, ops: seq<Op>, v: nat)
    requires Inv(lib) && v < |lib.versions|
    ensures Inv(After(lib, ops)) && v < |After(lib, ops).versions|
    ensures Retired(lib.versions[v].status) ==> Retired(After(lib, ops).versions[v].status)
    ensures lib.versions[v].status.Published?
            ==> After(lib, ops).versions[v].status.Published? || Retired(After(lib, ops).versions[v].status)
  {
    if ops != [] {
      RetiredIsAbsorbing(lib, Front(ops), v);
      StepEvolves(After(lib, Front(ops)), Last(ops));
    }
  }

  lemma {:induction false} AfterConcat(lib: Library, a: seq<Op>, b: seq<Op>)
    ensures After(lib, a + b) == After(After(lib, a), b)
  {
    if b == [] {
      assert a + b == a;
    } else {
      assert Front(a + b) == a + Front(b);
      AfterConcat(lib, a, Front(b));
    }
  }

  /** A version that has left PUBLISHED is never published again. */
  lemma NeverRepublished(ops: seq<Op>, more: seq<Op>, later: seq<Op>, v: nat)
    requires v < |History(ops).versions| && History(ops).versions[v].status.Published?
    requires v < |History(ops + more).versions| && !History(ops + more).versions[v].status.Published?
    ensures v < |History(ops + more + later).versions| && !History(ops + more + later).versions[v].status.Published?
  {
    HistoryOk(ops);
    AfterConcat(Library([], []), ops, more);
    RetiredIsAbsorbing(History(ops), more, v);
    AfterConcat(Library([], []), ops + more, later);
    RetiredIsAbsorbing(History(ops + more), later, v);
  }

  function PublishedOf(versions: seq<Version>, document: nat): nat {
    if versions == [] then 0
    else PublishedOf(Front(versions), document)
         + if Last(versions).document == document && Last(versions).status.Published? then 1 else 0
  }

  function One(b: bool): nat { if b then 1 else 0 }

  predicate IsPublished(v: Version, document: nat) {
    v.document == document && v.status.Published?
  }

  lemma {:induction false} PublishedUpdate(versions: seq<Version>, v: nat, row: Version, document: nat)
    requires v < |versions| && row.document == versions[v].document
    ensures PublishedOf(versions[v := row], document) + One(IsPublished(versions[v], document))
         == PublishedOf(versions, document) + One(IsPublished(row, document))
  {
    var next := versions[v := row];
    if v == |versions| - 1 {
      assert Front(next) == Front(versions);
    } else {
      PublishedUpdate(Front(versions), v, row, document);
      assert Front(next) == Front(versions)[v := row];
    }
  }

  /** A superseding publication swaps exactly one version of the same document for another of a
      higher number: no document gains, loses or lacks a published version because of it. */
  lemma SupersedingSwapsOne(ops: seq<Op>, v: nat, now: Time, document: nat)
    requires Attempt(History(ops), OpPublish(v, Succeeded, now)).Ok?
    requires v < |History(ops).versions| && History(ops).versions[v].supersedes.Some?
    ensures var lib, next := History(ops), Step(History(ops), OpPublish(v, Succeeded, now));
            var prior := lib.versions[v].supersedes.value;
            && prior < v && lib.versions[prior].document == lib.versions[v].document
            && lib.versions[prior].versionNo < lib.versions[v].versionNo
            && lib.versions[prior].status.Published? && lib.versions[v].status.Approved?
            && next.versions == lib.versions[v := lib.versions[v].(status := Published, publishedAt := Some(now))]
                                            [prior := lib.versions[prior].(status := Superseded)]
            && PublishedOf(next.versions, document) == PublishedOf(lib.versions, document)
  {
    HistoryOk(ops);
    var lib := History(ops);
    assert VersionOk(lib, v);
    var prior := lib.versions[v].supersedes.value;
    var published := lib.versions[v := lib.versions[v].(status := Published, publishedAt := Some(now))];
    PublishedUpdate(lib.versions, v, published[v], document);
    PublishedUpdate(published, prior, published[prior].(status := Superseded), document);
  }

  /** The version a version is to supersede is PUBLISHED and of the same document. */
  predicate MaySupersede(lib: Library, v: nat)
    requires v < |lib.versions|
  {
    var prior := lib.versions[v].supersedes;
    prior.Some? ==> prior.value < |lib.versions| && lib.versions[prior.value].status.Published?
                    && lib.versions[prior.value].document == lib.versions[v].document
  }

  /** A publication takes effect exactly for an APPROVED version whose ingestion has succeeded and
      whose predecessor, if it names one, is PUBLISHED and of the same document; every other attempt
      leaves the whole library as it was. */
  lemma PublicationTakesEffectExactly(ops: seq<Op>, v: nat, ingestion: Ingestion, now: Time)
    ensures var lib, next := History(ops), History(ops + [OpPublish(v, ingestion, now)]);
            if v < |lib.versions| && lib.versions[v].status.Approved? && ingestion.Succeeded? && MaySupersede(lib, v)
            then && v < |next.versions| && next.versions[v].status.Published?
                 && next.versions[v].publishedAt == Some(now)
                 && next.documents == lib.documents && |next.versions| == |lib.versions|
                 && SameVersion(lib.versions[v], next.versions[v])
                 && forall w :: 0 <= w < |lib.versions| && w != v ==>
                      next.versions[w] == if lib.versions[v].supersedes == Some(w)
                                          then lib.versions[w].(status := Superseded) else lib.versions[w]
            else next == lib
  {
    var lib := History(ops);
    assert Front(ops + [OpPublish(v, ingestion, now)]) == ops;
    HistoryOk(ops);
    if v < |lib.versions| {
      assert VersionOk(lib, v);
    }
  }

  // ------------------------------------------------ how many versions are published

  /** If accepted, the operation makes a version of the document PUBLISHED. */
  predicate Publishes(lib: Library, op: Op, document: nat) {
    && (op.OpPublish? || (op.OpTransition? && op.target.Published?))
    && op.version < |lib.versions| && lib.versions[op.version].document == document
  }

  /** ... in exchange for one that is PUBLISHED now. */
  predicate SupersedesPublished(lib: Library, op: Op) {
    && op.OpPublish? && op.version < |lib.versions| && lib.versions[op.version].supersedes.Some?
    && var prior := lib.versions[op.version].supersedes.value;
       prior < |lib.versions| && lib.versions[prior].status.Published?
       && lib.versions[prior].document == lib.versions[op.version].document
  }

  lemma DraftCount(lib: Library, op: Op, document: nat)
    requires op.OpDraft? && Attempt(lib, op).Ok?
    ensures PublishedOf(Step(lib, op).versions, document) == PublishedOf(lib.versions, document)
  {
    assert Front(Step(lib, op).versions) == lib.versions;
  }

  lemma TransitionCount(lib: Library, op: Op, document: nat)
    requires op.OpTransition? && Attempt(lib, op).Ok?
    ensures var before, after := PublishedOf(lib.versions, document), PublishedOf(Step(lib, op).versions, document);
            if Publishes(lib, op, document) then after == before + 1 else after <= before
  {
    PublishedUpdate(lib.versions, op.version, lib.versions[op.version].(status := op.target), document);
  }

  lemma PublicationCount(lib: Library, op: Op, document: nat)
    requires op.OpPublish? && Attempt(lib, op).Ok?
    ensures var before, after := PublishedOf(lib.versions, document), PublishedOf(Step(lib, op).versions, document);
            after == before + One(Publishes(lib, op, document) && !SupersedesPublished(lib, op))
  {
    var v := op.version;
    var published := lib.versions[v := lib.versions[v].(status := Published, publishedAt := Some(op.now))];
    PublishedUpdate(lib.versions, v, published[v], document);
    if lib.versions[v].supersedes.Some? {
      var prior := lib.versions[v].supersedes.value;
      PublishedUpdate(published, prior, published[prior].(status := Superseded), document);
    }
  }

  /** A document with at most one published version still has at most one after an accepted operation,
      exactly if the operation publishes nothing of it, or nothing was published before, or what was
      published is superseded. */
  lemma AtMostOneExactly(lib: Library, op: Op, document: nat)
    requires Attempt(lib, op).Ok? && PublishedOf(lib.versions, document) <= 1
    ensures PublishedOf(Step(lib, op).versions, document) <= 1
       <==> (Publishes(lib, op, document) ==> PublishedOf(lib.versions, document) == 0 || SupersedesPublished(lib, op))
  {
    match op
    case OpDraft(_, _, _, _) => DraftCount(lib, op, document);
    case OpTransition(_, _, _) => TransitionCount(lib, op, document);
    case OpPublish(_, _, _) => PublicationCount(lib, op, document);
  }

  /** Every accepted publication finds nothing published, or supersedes it. */
  predicate Disciplined(ops: seq<Op>) {
    ops == []
    || (Disciplined(Front(ops)) && var lib, op := History(Front(ops)), Last(ops);
        Attempt(lib, op).Ok? && (op.OpPublish? || (op.OpTransition? && op.target.Published?))
        ==> PublishedOf(lib.versions, lib.versions[op.version].document) == 0 || SupersedesPublished(lib, op))
  }

  /** Histories that keep to this never have two published versions of a document. */
  lemma {:induction false} DisciplineKeepsOne(ops: seq<Op>, document: nat)
    requires Disciplined(ops)
    ensures PublishedOf(History(ops).versions, document) <= 1
  {
    if ops != [] {
      DisciplineKeepsOne(Front(ops), document);
      if Attempt(History(Front(ops)), Last(ops)).Ok? {
        AtMostOneExactly(History(Front(ops)), Last(ops), document);
      }
    }
  }

  /** A new version of a document that supersedes nothing, taken all the way to publication. */
  function Unbound(lib: Library, document: nat): seq<Op>
    requires document < |lib.documents|
  {
    var v, d := |lib.versions|, lib.documents[document];
    [OpDraft(Some(document), d.project, d.category, None), OpTransition(v, Draft, UnderReview),
     OpTransition(v, UnderReview, Approved), OpPublish(v, Succeeded, 0.0)]
  }

  lemma UnboundPublishes(lib: Library, document: nat)
    requires document < |lib.documents|
    ensures var row := Version(document, MaxVersion(lib.versions, document) + 1, Published, None, Some(0.0));
            After(lib, Unbound(lib, document)) == lib.(versions := lib.versions + [row])
  {
    var all := Unbound(lib, document);
    var row := Version(document, MaxVersion(lib.versions, document) + 1, Draft, None, None);
    var a := Step(lib, all[0]);
    assert a == lib.(versions := lib.versions + [row]);
    var b := Step(a, all[1]);
    assert b == lib.(versions := lib.versions + [row.(status := UnderReview)]);
    var c := Step(b, all[2]);
    assert c == lib.(versions := lib.versions + [row.(status := Approved)]);
    assert Step(c, all[3]) == lib.(versions := lib.versions + [row.(status := Published, publishedAt := Some(0.0))]);
    FourSteps(lib, all);
  }

  lemma FourSteps(lib: Library, ops: seq<Op>)
    requires |ops| == 4
    ensures After(lib, ops) == Step(Step(Step(Step(lib, ops[0]), ops[1]), ops[2]), ops[3])
  {
    var three, two, one := ops[..3], ops[..2], ops[..1];
    assert Front(ops) == three && Front(three) == two && Front(two) == one && Front(one) == [];
    assert After(lib, one) == Step(lib, ops[0]);
    assert After(lib, two) == Step(After(lib, one), ops[1]);
    assert After(lib, three) == Step(After(lib, two), ops[2]);
  }

  /** Nothing else limits them: any number of versions of a document can be PUBLISHED at once. */
  lemma {:induction false} AnyNumberPublished(n: nat) returns (ops: seq<Op>)
    ensures |History(ops).documents| == 1 && PublishedOf(History(ops).versions, 0) == n
  {
    var empty := Library([], []);
    if n == 0 {
      ops := [OpDraft(None, 0, 0, None)];
      assert Front(ops) == [] && After(empty, []) == empty;
      DraftCount(empty, ops[0], 0);
    } else {
      var before := AnyNumberPublished(n - 1);
      var more := Unbound(History(before), 0);
      ops := before + more;
      AfterConcat(empty, before, more);
      UnboundPublishes(History(before), 0);
      assert Front(History(ops).versions) == History(before).versions;
    }
  }

  // ---------------------------------------------------------- current versions

  function Highest(versions: seq<Version>, document: nat): (m: nat)
    ensures forall i :: 0 <= i < |versions| && versions[i].document == document && versions[i].status.Published?
              ==> versions[i].versionNo <= m
    ensures m > 0 ==> exists i :: 0 <= i < |versions| && versions[i].document == document
                                  && versions[i].status.Published? && versions[i].versionNo == m
  {
    if versions == [] then 0
    else
      var m := Highest(Front(versions), document);
      if Last(versions).document == document && Last(versions).status.Published? && Last(versions).versionNo > m
      then Last(versions).versionNo else m
  }

  /** `is_current` of the evidence metadata. */
  predicate IsCurrent(lib: Library, v: nat)
    requires v < |lib.versions|
  {
    lib.versions[v].status.Published? && Highest(lib.versions, lib.versions[v].document) == lib.versions[v].versionNo
  }

  predicate InProject(lib: Library, v: nat, project: nat)
    requires v < |lib.versions|
  {
    lib.versions[v].document < |lib.documents| && lib.documents[lib.versions[v].document].project == project
  }

  predicate Ordered(lib: Library, v: nat, w: nat)
    requires v < |lib.versions| && w < |lib.versions|
  {
    var a, b := lib.versions[v], lib.versions[w];
    a.document < b.document || (a.document == b.document && a.versionNo >= b.versionNo)
  }

  predicate Listed(lib: Library, project: nat, v: nat)
    requires v < |lib.versions|
  {
    lib.versions[v].status.Published? && InProject(lib, v, project)
  }

  /** The rows the database returns: the PUBLISHED versions of the project, by document and
      then by descending version number. */
  predicate QueryResult(lib: Library, project: nat, rows: seq<nat>) {
    && (forall k :: 0 <= k < |rows| ==> rows[k] < |lib.versions| && Listed(lib, project, rows[k]))
    && (forall v :: 0 <= v < |lib.versions| && Listed(lib, project, v) ==> v in rows)
    && (forall j, k :: 0 <= j < k < |rows| ==> Ordered(lib, rows[j], rows[k]))
  }

  /** Behind every row that may precede it. */
  function InsertRow(lib: Library, v: nat, rows: seq<nat>): (r: seq<nat>)
    requires v < |lib.versions| && RowsExist(lib, rows)
    ensures RowsExist(lib, r)
  {
    if rows == [] || Ordered(lib, Last(rows), v) then rows + [v] else InsertRow(lib, v, Front(rows)) + [Last(rows)]
  }

  function QueryUpTo(lib: Library, project: nat, n: nat): (r: seq<nat>)
    requires n <= |lib.versions|
    ensures RowsExist(lib, r)
  {
    if n == 0 then []
    else
      var prior := QueryUpTo(lib, project, n - 1);
      if Listed(lib, project, n - 1) then InsertRow(lib, n - 1, prior) else prior
  }

  /** The query of `list_published_document_access`, with its WHERE and its ORDER BY. */
  function Query(lib: Library, project: nat): (r: seq<nat>)
    ensures RowsExist(lib, r)
  {
    QueryUpTo(lib, project, |lib.versions|)
  }

  predicate InOrder(lib: Library, rows: seq<nat>)
    requires RowsExist(lib, rows)
  {
    forall j, k :: 0 <= j < k < |rows| ==> Ordered(lib, rows[j], rows[k])
  }

  lemma {:induction false} InsertRowMembers(lib: Library, v: nat, rows: seq<nat>)
    requires v < |lib.versions| && RowsExist(lib, rows)
    ensures forall w :: w in InsertRow(lib, v, rows) <==> w == v || w in rows
  {
    if rows != [] && !Ordered(lib, Last(rows), v) {
      InsertRowMembers(lib, v, Front(rows));
      assert rows == Front(rows) + [Last(rows)];
    }
  }

  lemma {:induction false} InsertRowOrdered(lib: Library, v: nat, rows: seq<nat>)
    requires v < |lib.versions| && RowsExist(lib, rows) && InOrder(lib, rows)
    ensures InOrder(lib, InsertRow(lib, v, rows))
  {
    if rows != [] && !Ordered(lib, Last(rows), v) {
      InsertRowOrdered(lib, v, Front(rows));
      InsertRowMembers(lib, v, Front(rows));
      var r := InsertRow(lib, v, Front(rows));
      forall i | 0 <= i < |r| ensures Ordered(lib, r[i], Last(rows)) {
        assert r[i] in r;
      }
    }
  }

  lemma {:induction false} QueryUpToIs(lib: Library, project: nat, n: nat)
    requires n <= |lib.versions|
    ensures InOrder(lib, QueryUpTo(lib, project, n))
    ensures forall v: nat :: v in QueryUpTo(lib, project, n) <==> v < n && Listed(lib, project, v)
  {
    if n > 0 {
      QueryUpToIs(lib, project, n - 1);
      if Listed(lib, project, n - 1) {
        InsertRowMembers(lib, n - 1, QueryUpTo(lib, project, n - 1));
        InsertRowOrdered(lib, n - 1, QueryUpTo(lib, project, n - 1));
      }
    }
  }

  lemma QueryIsResult(lib: Library, project: nat)
    ensures QueryResult(lib, project, Query(lib, project))
  {
    QueryUpToIs(lib, project, |lib.versions|);
    var rows := Query(lib, project);
    forall k | 0 <= k < |rows| ensures Listed(lib, project, rows[k]) {
      assert rows[k] in rows;
    }
  }

  /** The row is the first of its document. */
  predicate Leads(lib: Library, rows: seq<nat>, k: nat)
    requires k < |rows| && RowsExist(lib, rows)
  {
    forall j :: 0 <= j < k ==> lib.versions[rows[j]].document != lib.versions[rows[k]].document
  }

  predicate RowsExist(lib: Library, rows: seq<nat>) {
    forall i :: 0 <= i < |rows| ==> rows[i] < |lib.versions|
  }

  function Leaders(lib: Library, rows: seq<nat>, n: nat): seq<nat>
    requires RowsExist(lib, rows) && n <= |rows|
  {
    if n == 0 then []
    else Leaders(lib, rows, n - 1) + if Leads(lib, rows, n - 1) then [rows[n - 1]] else []
  }

  lemma {:induction false} LeadersAre(lib: Library, rows: seq<nat>, n: nat, v: nat)
    requires RowsExist(lib, rows) && n <= |rows|
    ensures v in Leaders(lib, rows, n) <==> exists k :: 0 <= k < n && rows[k] == v && Leads(lib, rows, k)
  {
    if n > 0 {
      LeadersAre(lib, rows, n - 1, v);
    }
  }

  predicate OnePerDocument(lib: Library, s: seq<nat>) {
    RowsExist(lib, s)
    && forall i, j :: 0 <= i < j < |s| ==> lib.versions[s[i]].document != lib.versions[s[j]].document
  }

  lemma OneMoreDocument(lib: Library, s: seq<nat>, v: nat)
    requires OnePerDocument(lib, s) && v < |lib.versions|
    requires forall w <- s :: lib.versions[w].document != lib.versions[v].document
    ensures OnePerDocument(lib, s + [v])
  {
    forall i | 0 <= i < |s| ensures lib.versions[s[i]].document != lib.versions[v].document {
      assert s[i] in s;
    }
  }

  lemma {:induction false} LeadersDiffer(lib: Library, rows: seq<nat>, n: nat)
    requires RowsExist(lib, rows) && n <= |rows|
    ensures OnePerDocument(lib, Leaders(lib, rows, n))
  {
    if n > 0 {
      LeadersDiffer(lib, rows, n - 1);
      if Leads(lib, rows, n - 1) {
        forall w <- Leaders(lib, rows, n - 1) ensures lib.versions[w].document != lib.versions[rows[n - 1]].document {
          LeadersAre(lib, rows, n - 1, w);
        }
        OneMoreDocument(lib, Leaders(lib, rows, n - 1), rows[n - 1]);
      }
    }
  }

  /** The loop of `list_published_document_access`. */
  method ScanRows(lib: Library, rows: seq<nat>) returns (result: seq<nat>)
    requires RowsExist(lib, rows)
    ensures result == Leaders(lib, rows, |rows|)
  {
    var seen: set<nat> := {};
    result := [];
    for i := 0 to |rows|
      invariant forall k :: 0 <= k < i ==> lib.versions[rows[k]].document in seen
      invariant forall d <- seen :: exists k :: 0 <= k < i && lib.versions[rows[k]].document == d
      invariant result == Leaders(lib, rows, i)
    {
      var document := lib.versions[rows[i]].document;
      if document !in seen {
        seen := seen + {document};
        result := result + [rows[i]];
      }
    }
  }

  /** `list_published_document_access`: in one pass, exactly the current versions. */
  method ListPublishedAccess(lib: Library, project: nat, rows: seq<nat>) returns (result: seq<nat>)
    requires Inv(lib) && QueryResult(lib, project, rows)
    ensures forall v: nat :: v in result <==> v < |lib.versions| && InProject(lib, v, project) && IsCurrent(lib, v)
    ensures OnePerDocument(lib, result)
  {
    result := ScanRows(lib, rows);
    LeadersDiffer(lib, rows, |rows|);
    LeadersAreCurrent(lib, project, rows);
  }

  lemma LeadersAreCurrent(lib: Library, project: nat, rows: seq<nat>)
    requires Inv(lib) && QueryResult(lib, project, rows)
    ensures forall v: nat :: v in Leaders(lib, rows, |rows|)
                             <==> v < |lib.versions| && InProject(lib, v, project) && IsCurrent(lib, v)
  {
    var result := Leaders(lib, rows, |rows|);
    forall v: nat | v in result ensures v < |lib.versions| && InProject(lib, v, project) && IsCurrent(lib, v) {
      LeadersAre(lib, rows, |rows|, v);
      var k :| 0 <= k < |rows| && rows[k] == v && Leads(lib, rows, k);
      LeaderIsCurrent(lib, project, rows, k);
    }
    forall v: nat | v < |lib.versions| && InProject(lib, v, project) && IsCurrent(lib, v) ensures v in result {
      var k := CurrentLeads(lib, project, rows, v);
      LeadersAre(lib, rows, |rows|, v);
    }
  }

  lemma LeaderIsCurrent(lib: Library, project: nat, rows: seq<nat>, k: nat)
    requires Inv(lib) && QueryResult(lib, project, rows) && k < |rows| && Leads(lib, rows, k)
    ensures IsCurrent(lib, rows[k])
  {
    var v := rows[k];
    var document := lib.versions[v].document;
    assert VersionOk(lib, v);
    var m := Highest(lib.versions, document);
    var w :| 0 <= w < |lib.versions| && lib.versions[w].document == document
             && lib.versions[w].status.Published? && lib.versions[w].versionNo == m;
    assert Listed(lib, project, w);
    var j :| 0 <= j < |rows| && rows[j] == w;
    assert j >= k;
  }

  lemma CurrentLeads(lib: Library, project: nat, rows: seq<nat>, v: nat) returns (k: nat)
    requires Inv(lib) && QueryResult(lib, project, rows)
    requires v < |lib.versions| && InProject(lib, v, project) && IsCurrent(lib, v)
    ensures k < |rows| && rows[k] == v && Leads(lib, rows, k)
  {
    assert Listed(lib, project, v);
    var j :| 0 <= j < |rows| && rows[j] == v;
    k := FirstOf(lib, rows, j);
    if k < j {
      assert Ordered(lib, rows[k], rows[j]);
      SameNumberSameVersion(lib, rows[k], v);
    }
  }

  lemma SameNumberSameVersion(lib: Library, v: nat, w: nat)
    requires Inv(lib) && v < |lib.versions| && w < |lib.versions|
    requires lib.versions[v].document == lib.versions[w].document
    requires lib.versions[v].versionNo == lib.versions[w].versionNo
    ensures v == w
  {
  }

  lemma FirstOf(lib: Library, rows: seq<nat>, j: nat) returns (k: nat)
    requires j < |rows| && RowsExist(lib, rows)
    ensures k <= j && lib.versions[rows[k]].document == lib.versions[rows[j]].document && Leads(lib, rows, k)
    decreases j
  {
    if Leads(lib, rows, j) {
      k := j;
    } else {
      var i :| 0 <= i < j && lib.versions[rows[i]].document == lib.versions[rows[j]].document;
      k := FirstOf(lib, rows, i);
    }
  }

  /** The version a superseding publication brings in becomes current unless a version with a
      still higher number is published beside it. */
  lemma SwapMovesTheScope(ops: seq<Op>, v: nat, now: Time)
    requires Attempt(History(ops), OpPublish(v, Succeeded, now)).Ok? && v < |History(ops).versions|
    ensures var lib, next := History(ops), Step(History(ops), OpPublish(v, Succeeded, now));
            IsCurrent(next, v)
            <==> forall w :: v < w < |lib.versions| ==> !IsPublished(lib.versions[w], lib.versions[v].document)
  {
    HistoryOk(ops);
    var lib, next := History(ops), Step(History(ops), OpPublish(v, Succeeded, now));
    StepEvolves(lib, OpPublish(v, Succeeded, now));
    assert VersionOk(lib, v);
    var m := Highest(next.versions, next.versions[v].document);
    assert next.versions[v].status.Published?;
    var w :| 0 <= w < |next.versions| && next.versions[w].document == next.versions[v].document
             && next.versions[w].status.Published? && next.versions[w].versionNo == m;
    forall u | v < u < |lib.versions| && IsPublished(lib.versions[u], lib.versions[v].document)
      ensures m > lib.versions[v].versionNo
    {
      assert next.versions[u] == lib.versions[u];
    }
    if m != next.versions[v].versionNo {
      assert w > v;
      assert lib.versions[w].status.Published?;
    }
  }
}
