/** Least privilege around retrieval (agent/policies/access.py). */
module Access {
  import opened Common
  import opened Governance

  /** What the authorization service granted for one project. */
  datatype Context = Context(project: nat, projectCode: string, versions: set<nat>, spaces: set<string>)

  /** An empty set of versions or spaces asks for everything. */
  datatype Request = Request(projectCode: string, query: string, versions: set<nat>, spaces: set<string>)

  datatype Denial = ProjectMismatch

  function Constrain(r: Request, c: Context): Result<Option<Request>, Denial> {
    if r.projectCode != c.projectCode then Err(ProjectMismatch)
    else if c.versions == {} || c.spaces == {} then Ok(None)
    else
      var versions := if r.versions != {} then c.versions * r.versions else c.versions;
      var spaces := if r.spaces != {} then c.spaces * r.spaces else c.spaces;
      if versions == {} || spaces == {} then Ok(None)
      else Ok(Some(Request(c.projectCode, r.query, versions, spaces)))
  }

  /** The chunk is one the context gives access to. */
  predicate Allowed(k: Chunk, c: Context) {
    && k.projectCode == c.projectCode
    && k.version.Canonical? && k.version.id in c.versions
    && k.space.Some? && k.space.value in c.spaces
  }

  function Postfilter(chunks: seq<Chunk>, c: Context): seq<Chunk> {
    if c.versions == {} || c.spaces == {} then []
    else if chunks == [] then []
    else Postfilter(Front(chunks), c) + if Allowed(Last(chunks), c) then [Last(chunks)] else []
  }

  /** Exactly the allowed chunks get through. */
  lemma {:induction false} PostfilterExactly(chunks: seq<Chunk>, c: Context)
    ensures forall k :: k in Postfilter(chunks, c) <==> k in chunks && Allowed(k, c)
  {
    if chunks != [] && c.versions != {} && c.spaces != {} {
      PostfilterExactly(Front(chunks), c);
      assert chunks == Front(chunks) + [Last(chunks)];
    }
  }

  /** ... as often as they came and in the order they came: `at` are the positions of the allowed
      chunks, in ascending order. */
  lemma {:induction false} PostfilterKeepsOrder(chunks: seq<Chunk>, c: Context) returns (at: seq<nat>)
    ensures |at| == |Postfilter(chunks, c)|
    ensures forall i :: 0 <= i < |at| ==> at[i] < |chunks| && Postfilter(chunks, c)[i] == chunks[at[i]]
    ensures forall i, j :: 0 <= i < j < |at| ==> at[i] < at[j]
    ensures forall n :: 0 <= n < |chunks| ==>
              (n in at <==> && chunks[n].projectCode == c.projectCode
                            && chunks[n].version.Canonical? && chunks[n].version.id in c.versions
                            && chunks[n].space.Some? && chunks[n].space.value in c.spaces)
  {
    at := [];
    if chunks != [] && c.versions != {} && c.spaces != {} {
      at := PostfilterKeepsOrder(Front(chunks), c);
      if Allowed(Last(chunks), c) {
        at := at + [|chunks| - 1];
      }
    }
  }

  /** A constrained request asks for exactly what was both granted and asked for, where asking for
      nothing in particular asks for everything, and there is none exactly when that is empty. */
  lemma ConstrainExactly(r: Request, c: Context)
    requires r.projectCode == c.projectCode
    ensures Constrain(r, c).Ok?
    ensures var granted := Constrain(r, c).value;
            && (granted.Some? <==>
                  && (exists v :: v in c.versions && (r.versions == {} || v in r.versions))
                  && (exists p :: p in c.spaces && (r.spaces == {} || p in r.spaces)))
            && (granted.Some? ==>
                  && granted.value.projectCode == c.projectCode && granted.value.query == r.query
                  && (forall v :: v in granted.value.versions
                        <==> v in c.versions && (r.versions == {} || v in r.versions))
                  && (forall p :: p in granted.value.spaces <==> p in c.spaces && (r.spaces == {} || p in r.spaces)))
  {
    var versions := if r.versions != {} then c.versions * r.versions else c.versions;
    var spaces := if r.spaces != {} then c.spaces * r.spaces else c.spaces;
    assert forall v :: v in versions <==> v in c.versions && (r.versions == {} || v in r.versions);
    assert forall p :: p in spaces <==> p in c.spaces && (r.spaces == {} || p in r.spaces);
  }
}
