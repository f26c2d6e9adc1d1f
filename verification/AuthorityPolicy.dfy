/** Which chunks reach the evidence pack, said of the chunks and the catalogue alone: the first of each
    piece of admissible evidence, unless a stronger document overrules it
    (application/services/evidence_governance.py). */
module AuthorityPolicy {
  import opened Common
  import opened Evidence
  import opened Governance
  import opened ConflictPolicy
  import Text

  // ------------------------------------------------------------- the chunks

  predicate SamePiece(c: Chunk, d: Chunk)
    requires !c.version.Malformed? && !d.version.Malformed?
  {
    c.version.id == d.version.id && Text.Strip(c.content) == Text.Strip(d.content)
  }

  /** Chunk `n` is admissible, and the first admissible one of its version and stripped content. */
  predicate First(desk: Desk, chunks: seq<Chunk>, n: nat) {
    && n < |chunks| && Admissible(desk, chunks[n])
    && forall m :: 0 <= m < n && Admissible(desk, chunks[m]) ==> !SamePiece(chunks[m], chunks[n])
  }

  /** The chunk makes a claim about something. */
  predicate Claims(c: Chunk) {
    c.conflictKey.Some? && c.conflictKey.value != "" && c.claimValue.Some? && c.claimValue.value != ""
  }

  predicate SameSubject(c: Chunk, d: Chunk) {
    Claims(c) && Claims(d) && c.conflictKey == d.conflictKey
  }

  predicate Disagree(c: Chunk, d: Chunk) {
    SameSubject(c, d) && c.claimValue != d.claimValue
  }

  function AuthorityOf(desk: Desk, c: Chunk): Authority
    requires Admissible(desk, c)
  {
    desk.metadata[c.version.id].authority
  }

  /** Another document, of more authority, speaks about the same thing. */
  predicate Outranked(desk: Desk, chunks: seq<Chunk>, n: nat)
    requires First(desk, chunks, n)
  {
    exists m :: 0 <= m < |chunks| && First(desk, chunks, m) && SameSubject(chunks[n], chunks[m])
                && Outranks(AuthorityOf(desk, chunks[m]), AuthorityOf(desk, chunks[n]))
  }

  predicate Contradicted(desk: Desk, chunks: seq<Chunk>, n: nat) {
    n < |chunks| && exists m :: 0 <= m < |chunks| && First(desk, chunks, m) && Disagree(chunks[n], chunks[m])
  }

  /** There is disagreement, and a document of more authority settles it. */
  predicate Overruled(desk: Desk, chunks: seq<Chunk>, n: nat)
    requires First(desk, chunks, n)
  {
    Contradicted(desk, chunks, n) && Outranked(desk, chunks, n)
  }

  /** A document that nothing outranks either says something else. */
  predicate Unsettled(desk: Desk, chunks: seq<Chunk>, n: nat)
    requires First(desk, chunks, n)
  {
    && !Outranked(desk, chunks, n)
    && exists m :: 0 <= m < |chunks| && First(desk, chunks, m) && Disagree(chunks[n], chunks[m])
                   && !Outranked(desk, chunks, m)
  }

  // --------------------------------------------------- chunks and candidates

  function ItemOf(desk: Desk, c: Chunk): (x: Item)
    requires Admissible(desk, c)
    ensures Describes(desk, c, x) && x.tag == "" && !x.unresolved
  {
    AdmitExactly(desk, c);
    Admit(desk, c).value
  }

  lemma SamePieceSameKey(desk: Desk, c: Chunk, d: Chunk)
    requires Admissible(desk, c) && Admissible(desk, d)
    ensures SamePiece(c, d) <==> Key(ItemOf(desk, c)) == Key(ItemOf(desk, d))
  {
  }

  lemma FirstIsUnseen(desk: Desk, chunks: seq<Chunk>)
    requires chunks != [] && Admissible(desk, Last(chunks))
    ensures First(desk, chunks, |chunks| - 1)
       <==> Unseen(Candidates(desk, Front(chunks)), Key(ItemOf(desk, Last(chunks))))
  {
    var prior, key := Candidates(desk, Front(chunks)), Key(ItemOf(desk, Last(chunks)));
    CandidatesAre(desk, Front(chunks));
    forall m | 0 <= m < |chunks| - 1 && Admissible(desk, chunks[m])
      ensures SamePiece(chunks[m], Last(chunks)) ==> !Unseen(prior, key)
    {
      assert chunks[m] == Front(chunks)[m];
      AdmitExactly(desk, chunks[m]);
      SamePieceSameKey(desk, chunks[m], Last(chunks));
    }
    if !Unseen(prior, key) {
      var i :| 0 <= i < |prior| && Key(prior[i]) == key;
      var c :| c in Front(chunks) && Admit(desk, c) == Some(prior[i]);
      AdmitExactly(desk, c);
      SamePieceSameKey(desk, c, Last(chunks));
      var m :| 0 <= m < |chunks| - 1 && Front(chunks)[m] == c;
      assert SamePiece(chunks[m], Last(chunks));
    }
  }

  predicate Ascending(at: seq<nat>) {
    forall i, j :: 0 <= i < j < |at| ==> at[i] < at[j]
  }

  lemma FirstOfFront(desk: Desk, chunks: seq<Chunk>, n: nat)
    requires chunks != [] && n < |chunks| - 1
    ensures First(desk, chunks, n) <==> First(desk, Front(chunks), n)
  {
  }

  /** The candidates are the first chunks of each piece of admissible evidence, in the order they came. */
  lemma {:induction false} CandidatesAreFirst(desk: Desk, chunks: seq<Chunk>) returns (at: seq<nat>)
    ensures |at| == |Candidates(desk, chunks)| && Ascending(at)
    ensures forall n :: n in at <==> First(desk, chunks, n)
    ensures forall i :: 0 <= i < |at| ==> at[i] < |chunks| && Admissible(desk, chunks[at[i]])
    ensures forall i :: 0 <= i < |at| ==> Candidates(desk, chunks)[i] == ItemOf(desk, chunks[at[i]])
  {
    at := [];
    if chunks != [] {
      at := CandidatesAreFirst(desk, Front(chunks));
      forall n | 0 <= n < |chunks| - 1 ensures First(desk, chunks, n) <==> First(desk, Front(chunks), n) {
        FirstOfFront(desk, chunks, n);
      }
      AdmitExactly(desk, Last(chunks));
      if Admissible(desk, Last(chunks)) {
        FirstIsUnseen(desk, chunks);
        if First(desk, chunks, |chunks| - 1) {
          at := at + [|chunks| - 1];
        }
      }
    }
  }

  /** The candidate that chunk `n` becomes. */
  predicate Becomes(desk: Desk, chunks: seq<Chunk>, n: nat, x: Item) {
    First(desk, chunks, n) && x == ItemOf(desk, chunks[n])
  }

  lemma FirstIsCandidate(desk: Desk, chunks: seq<Chunk>, n: nat)
    requires First(desk, chunks, n)
    ensures ItemOf(desk, chunks[n]) in Candidates(desk, chunks)
  {
    var at := CandidatesAreFirst(desk, chunks);
    var i :| 0 <= i < |at| && at[i] == n;
    assert Candidates(desk, chunks)[i] == ItemOf(desk, chunks[n]);
  }

  lemma CandidateIsFirst(desk: Desk, chunks: seq<Chunk>, x: Item) returns (n: nat)
    requires x in Candidates(desk, chunks)
    ensures Becomes(desk, chunks, n, x)
  {
    var at := CandidatesAreFirst(desk, chunks);
    var i :| 0 <= i < |at| && Candidates(desk, chunks)[i] == x;
    n := at[i];
    assert n in at;
  }

  lemma ClaimsAre(desk: Desk, c: Chunk, d: Chunk)
    requires Admissible(desk, c) && Admissible(desk, d)
    ensures Grouped(ItemOf(desk, c)) <==> Claims(c)
    ensures Rivals(ItemOf(desk, c), ItemOf(desk, d)) <==> SameSubject(c, d)
    ensures Contradicts(ItemOf(desk, c), ItemOf(desk, d)) <==> Disagree(c, d)
  {
  }

  lemma BestIs(desk: Desk, chunks: seq<Chunk>, n: nat)
    requires First(desk, chunks, n)
    ensures Best(Candidates(desk, chunks), ItemOf(desk, chunks[n]))
       <==> Claims(chunks[n]) && !Outranked(desk, chunks, n)
  {
    var all, x := Candidates(desk, chunks), ItemOf(desk, chunks[n]);
    ClaimsAre(desk, chunks[n], chunks[n]);
    if Outranked(desk, chunks, n) {
      var m :| 0 <= m < |chunks| && First(desk, chunks, m) && SameSubject(chunks[n], chunks[m])
               && Outranks(AuthorityOf(desk, chunks[m]), AuthorityOf(desk, chunks[n]));
      ClaimsAre(desk, chunks[n], chunks[m]);
      RankIsOrder(AuthorityOf(desk, chunks[m]), AuthorityOf(desk, chunks[n]));
      FirstIsCandidate(desk, chunks, m);
      assert Rivals(x, ItemOf(desk, chunks[m]));
    } else {
      forall y | y in all && Rivals(x, y) ensures Rank(x.authority) <= Rank(y.authority) {
        var m := CandidateIsFirst(desk, chunks, y);
        ClaimsAre(desk, chunks[n], chunks[m]);
        RankIsOrder(y.authority, x.authority);
      }
    }
  }

  lemma DisputedIs(desk: Desk, chunks: seq<Chunk>, n: nat)
    requires First(desk, chunks, n)
    ensures Disputed(Candidates(desk, chunks), ItemOf(desk, chunks[n])) <==> Contradicted(desk, chunks, n)
  {
    var all, x := Candidates(desk, chunks), ItemOf(desk, chunks[n]);
    if Disputed(all, x) {
      var y :| y in all && Contradicts(x, y);
      var m := CandidateIsFirst(desk, chunks, y);
      ClaimsAre(desk, chunks[n], chunks[m]);
      assert First(desk, chunks, m) && Disagree(chunks[n], chunks[m]);
    }
    if m :| 0 <= m < |chunks| && First(desk, chunks, m) && Disagree(chunks[n], chunks[m]) {
      ClaimsAre(desk, chunks[n], chunks[m]);
      FirstIsCandidate(desk, chunks, m);
      assert Contradicts(x, ItemOf(desk, chunks[m]));
    }
  }

  lemma ContestedIs(desk: Desk, chunks: seq<Chunk>, n: nat)
    requires First(desk, chunks, n)
    ensures Contested(Candidates(desk, chunks), ItemOf(desk, chunks[n])) <==> Unsettled(desk, chunks, n)
  {
    var all, x := Candidates(desk, chunks), ItemOf(desk, chunks[n]);
    BestIs(desk, chunks, n);
    if Contested(all, x) {
      var y :| y in all && Best(all, y) && Contradicts(x, y);
      var m := CandidateIsFirst(desk, chunks, y);
      ClaimsAre(desk, chunks[n], chunks[m]);
      BestIs(desk, chunks, m);
      assert First(desk, chunks, m) && Disagree(chunks[n], chunks[m]) && !Outranked(desk, chunks, m);
    }
    if Unsettled(desk, chunks, n) {
      var m :| 0 <= m < |chunks| && First(desk, chunks, m) && Disagree(chunks[n], chunks[m])
               && !Outranked(desk, chunks, m);
      ClaimsAre(desk, chunks[n], chunks[m]);
      BestIs(desk, chunks, m);
      FirstIsCandidate(desk, chunks, m);
      assert Best(all, ItemOf(desk, chunks[m])) && Contradicts(x, ItemOf(desk, chunks[m]));
    }
  }

  lemma DominatedIs(desk: Desk, chunks: seq<Chunk>, n: nat)
    requires First(desk, chunks, n)
    ensures Dominated(Candidates(desk, chunks), ItemOf(desk, chunks[n])) <==> Overruled(desk, chunks, n)
  {
    DisputedIs(desk, chunks, n);
    BestIs(desk, chunks, n);
  }

  // -------------------------------------------------------------- the pack

  /** Item `x` of the pack is chunk `n`. */
  predicate Shows(desk: Desk, chunks: seq<Chunk>, n: nat, x: Item) {
    n < |chunks| && Admissible(desk, chunks[n]) && Describes(desk, chunks[n], x)
  }

  lemma ShownIsCandidate(desk: Desk, chunks: seq<Chunk>, x: Item) returns (n: nat)
    requires Survives(Candidates(desk, chunks), Bare(x))
    ensures First(desk, chunks, n) && Plain(Bare(x)) == ItemOf(desk, chunks[n]) && Shows(desk, chunks, n, x)
    ensures !Overruled(desk, chunks, n) && (x.unresolved <==> Unsettled(desk, chunks, n))
  {
    n := CandidateIsFirst(desk, chunks, Plain(Bare(x)));
    DominatedIs(desk, chunks, n);
    ContestedIs(desk, chunks, n);
  }

  /** Nothing else gets in: an item of the pack is the first chunk of its piece, no document of more
      authority overrules it, and it is marked exactly when its conflict is unsettled.  The items are
      numbered in the order of the authorities, then of scores, version numbers and versions. */
  lemma PackIsFirstChunks(desk: Desk, cap: nat, chunks: seq<Chunk>, i: nat) returns (n: nat)
    requires i < |PackOf(desk, cap, chunks).evidence|
    ensures var e := PackOf(desk, cap, chunks).evidence;
            && First(desk, chunks, n) && Shows(desk, chunks, n, e[i]) && !Overruled(desk, chunks, n)
            && (e[i].unresolved <==> Unsettled(desk, chunks, n))
            && e[i].tag == "E" + Text.Decimal(i + 1)
            && (forall j :: 0 <= j < i ==> StandsBefore(e[j], e[i]))
  {
    PackIsSound(desk, cap, chunks);
    var e := PackOf(desk, cap, chunks).evidence;
    n := ShownIsCandidate(desk, chunks, e[i]);
    forall j | 0 <= j < i ensures StandsBefore(e[j], e[i]) {
      AtMostIsStandsBefore(e[j], e[i]);
    }
  }

  lemma OverruledIsAbsent(desk: Desk, cap: nat, chunks: seq<Chunk>, n: nat, i: nat)
    requires First(desk, chunks, n) && Overruled(desk, chunks, n) && i < |PackOf(desk, cap, chunks).evidence|
    ensures var x := PackOf(desk, cap, chunks).evidence[i];
            x.version != chunks[n].version.id || Text.Strip(x.content) != Text.Strip(chunks[n].content)
  {
    PackIsSound(desk, cap, chunks);
    var x := PackOf(desk, cap, chunks).evidence[i];
    var m := ShownIsCandidate(desk, chunks, x);
    assert m != n;
    assert !SamePiece(chunks[m], chunks[n]);
  }

  lemma UnsettledIsShown(desk: Desk, cap: nat, chunks: seq<Chunk>, n: nat) returns (i: nat)
    requires First(desk, chunks, n) && Unsettled(desk, chunks, n)
    ensures var e := PackOf(desk, cap, chunks).evidence;
            i < |e| && Shows(desk, chunks, n, e[i]) && e[i].unresolved
  {
    ContestedIs(desk, chunks, n);
    FirstIsCandidate(desk, chunks, n);
    i := NoHiddenConflict(desk, cap, chunks, ItemOf(desk, chunks[n]));
  }

  lemma SettledIsShown(desk: Desk, cap: nat, chunks: seq<Chunk>, n: nat)
    requires First(desk, chunks, n) && !Overruled(desk, chunks, n) && !Unsettled(desk, chunks, n)
    ensures var e := PackOf(desk, cap, chunks).evidence;
            || (exists i :: 0 <= i < |e| && Shows(desk, chunks, n, e[i]) && !e[i].unresolved)
            || (|e| >= cap && forall i :: 0 <= i < cap ==> StandsBefore(e[i], ItemOf(desk, chunks[n])))
  {
    var x, e := ItemOf(desk, chunks[n]), PackOf(desk, cap, chunks).evidence;
    DominatedIs(desk, chunks, n);
    ContestedIs(desk, chunks, n);
    FirstIsCandidate(desk, chunks, n);
    assert Plain(x) == x;
    CapKeepsTheBest(desk, cap, chunks, x);
    if i :| 0 <= i < |e| && Bare(e[i]) == x {
      assert Shows(desk, chunks, n, e[i]) && !e[i].unresolved;
    } else {
      forall i | 0 <= i < cap ensures StandsBefore(e[i], x) {
        AtMostIsStandsBefore(e[i], x);
      }
    }
  }

  /** Authority dominance, over the chunks and the authorities the catalogue gives their documents.  A
      chunk that is contradicted while a document of more authority speaks about the same thing is
      not in the pack, nor is another chunk of the same piece; one contradicted by its equals is in
      the pack, and marked; any other is in the pack unmarked, unless the pack is full of items
      that stand before it. */
  lemma AuthorityDecides(desk: Desk, cap: nat, chunks: seq<Chunk>, n: nat)
    requires First(desk, chunks, n)
    ensures var e := PackOf(desk, cap, chunks).evidence;
            if Overruled(desk, chunks, n) then
              forall i :: 0 <= i < |e| ==>
                e[i].version != chunks[n].version.id || Text.Strip(e[i].content) != Text.Strip(chunks[n].content)
            else if Unsettled(desk, chunks, n) then
              exists i :: 0 <= i < |e| && Shows(desk, chunks, n, e[i]) && e[i].unresolved
            else
              || (exists i :: 0 <= i < |e| && Shows(desk, chunks, n, e[i]) && !e[i].unresolved)
              || (|e| >= cap && forall i :: 0 <= i < cap ==> StandsBefore(e[i], ItemOf(desk, chunks[n])))
  {
    var e := PackOf(desk, cap, chunks).evidence;
    if Overruled(desk, chunks, n) {
      forall i | 0 <= i < |e|
        ensures e[i].version != chunks[n].version.id || Text.Strip(e[i].content) != Text.Strip(chunks[n].content)
      {
        OverruledIsAbsent(desk, cap, chunks, n, i);
      }
    } else if Unsettled(desk, chunks, n) {
      var i := UnsettledIsShown(desk, cap, chunks, n);
    } else {
      SettledIsShown(desk, cap, chunks, n);
    }
  }

  /** Whatever is admissible leaves something in the pack: a chunk that no other outranks does. */
  lemma SomethingIsShown(desk: Desk, cap: nat, chunks: seq<Chunk>, n: nat)
    requires cap >= 1 && n < |chunks| && Admissible(desk, chunks[n])
    ensures PackOf(desk, cap, chunks).evidence != []
  {
    var first := FirstOfPiece(desk, chunks, n);
    var best := Strongest(desk, chunks, first);
    AuthorityDecides(desk, cap, chunks, best);
  }

  lemma FirstOfPiece(desk: Desk, chunks: seq<Chunk>, n: nat) returns (m: nat)
    requires n < |chunks| && Admissible(desk, chunks[n])
    ensures First(desk, chunks, m)
    decreases n
  {
    m := n;
    if k :| 0 <= k < n && Admissible(desk, chunks[k]) && SamePiece(chunks[k], chunks[n]) {
      m := FirstOfPiece(desk, chunks, k);
    }
  }

  lemma Strongest(desk: Desk, chunks: seq<Chunk>, n: nat) returns (m: nat)
    requires First(desk, chunks, n)
    ensures First(desk, chunks, m) && !Outranked(desk, chunks, m)
    decreases Rank(AuthorityOf(desk, chunks[n]))
  {
    m := n;
    if k :| 0 <= k < |chunks| && First(desk, chunks, k) && SameSubject(chunks[n], chunks[k])
            && Outranks(AuthorityOf(desk, chunks[k]), AuthorityOf(desk, chunks[n])) {
      RankIsOrder(AuthorityOf(desk, chunks[k]), AuthorityOf(desk, chunks[n]));
      m := Strongest(desk, chunks, k);
    }
  }
}
