/** Where the evidence metadata and the access scope come from: both are read off the document library,
    at different moments (infrastructure/db/repositories/evidence_governance.py and authorization.py). */
module Catalogue {
  import opened Common
  import opened Evidence
  import opened Governance
  import opened Access
  import D = Documents

  /** The columns of a version that the library leaves out. */
  datatype Detail = Detail(authority: Authority, effectiveFrom: Option<Date>, effectiveTo: Option<Date>)

  /** The library after some history, and those columns. */
  datatype Shelf = Shelf(history: seq<D.Op>, details: nat -> Detail) {
    function Library(): D.Library { D.History(history) }
  }

  /** `get_document_evidence_metadata`, for every version of a known document. */
  function MetadataOf(s: Shelf): map<nat, Metadata> {
    var lib := s.Library();
    map v | 0 <= v < |lib.versions| && lib.versions[v].document < |lib.documents| ::
      Metadata(lib.documents[lib.versions[v].document].project, s.details(v).authority, lib.versions[v].status,
               D.IsCurrent(lib, v), lib.versions[v].versionNo, s.details(v).effectiveFrom, s.details(v).effectiveTo)
  }

  /** Every version of a known document has metadata, and it says what the library and the columns say. */
  lemma MetadataIs(s: Shelf, v: nat)
    ensures var lib := s.Library();
            && (v in MetadataOf(s) <==> v < |lib.versions| && lib.versions[v].document < |lib.documents|)
            && (v in MetadataOf(s) ==>
                  var m := MetadataOf(s)[v];
                  && m.project == lib.documents[lib.versions[v].document].project
                  && m.status == lib.versions[v].status && m.versionNo == lib.versions[v].versionNo
                  && m.authority == s.details(v).authority
                  && m.effectiveFrom == s.details(v).effectiveFrom && m.effectiveTo == s.details(v).effectiveTo
                  && (m.status.Published? && m.isCurrent <==> HighestPublished(lib, m.project, v)))
  {
    if v in MetadataOf(s) && HighestPublished(s.Library(), MetadataOf(s)[v].project, v) {
      HighestIsCurrent(s, MetadataOf(s)[v].project, v);
    }
  }

  /** What the role and category rules of the authorization service let through. */
  datatype Grant = Grant(projectCode: string, versions: set<nat>, spaces: set<string>)

  /** The scope: what the scan over the ordered query keeps, as far as it is granted. */
  function ScopeOf(lib: D.Library, project: nat, g: Grant): Context {
    var rows := D.Query(lib, project);
    Context(project, g.projectCode, (set v | v in D.Leaders(lib, rows, |rows|)) * g.versions, g.spaces)
  }

  /** The version is PUBLISHED, belongs to the project, and no published version of its document has
      a higher number. */
  predicate HighestPublished(lib: D.Library, project: nat, v: nat) {
    && v < |lib.versions| && D.InProject(lib, v, project) && lib.versions[v].status.Published?
    && (forall w :: 0 <= w < |lib.versions| && lib.versions[w].document == lib.versions[v].document ==>
                      lib.versions[w].status.Published? ==> lib.versions[w].versionNo <= lib.versions[v].versionNo)
  }

  /** Metadata that is in force describes the highest published version of its document. */
  lemma InForceIsHighest(s: Shelf, v: nat, today: Date)
    requires v in MetadataOf(s) && InForce(MetadataOf(s)[v], today)
    ensures HighestPublished(s.Library(), MetadataOf(s)[v].project, v)
    ensures MetadataOf(s)[v].versionNo == s.Library().versions[v].versionNo
  {
  }

  /** In any history of the library there is only one such version of a document. */
  lemma HighestIsUnique(ops: seq<D.Op>, project: nat, v: nat, w: nat)
    requires var lib := D.History(ops);
             && HighestPublished(lib, project, v) && HighestPublished(lib, project, w)
             && lib.versions[v].document == lib.versions[w].document
    ensures v == w
  {
    D.HistoryOk(ops);
    D.SameNumberSameVersion(D.History(ops), v, w);
  }

  /** The scope holds exactly the granted versions that are, in the project, the highest published of
      their document: the scan that builds it and the metadata's `is_current` agree. */
  lemma ScopeIsCurrent(s: Shelf, project: nat, g: Grant, v: nat)
    ensures var scope := ScopeOf(s.Library(), project, g);
            && scope.project == project && scope.projectCode == g.projectCode && scope.spaces == g.spaces
            && (v in scope.versions <==> v in g.versions && HighestPublished(s.Library(), project, v))
  {
    D.HistoryOk(s.history);
    D.QueryIsResult(s.Library(), project);
    D.LeadersAreCurrent(s.Library(), project, D.Query(s.Library(), project));
    if HighestPublished(s.Library(), project, v) {
      HighestIsCurrent(s, project, v);
    }
  }

  lemma HighestIsCurrent(s: Shelf, project: nat, v: nat)
    requires HighestPublished(s.Library(), project, v)
    ensures D.IsCurrent(s.Library(), v)
  {
    D.HistoryOk(s.history);
    assert D.VersionOk(s.Library(), v);
  }
}
