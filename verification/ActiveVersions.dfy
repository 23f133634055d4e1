/**
  Preferring the active version of each policy among the evidence of an answer
  (_prefer_active_policy_versions in rag/self_correcting.py).
 */
module ActiveVersions {
  import opened Evidence

  function Filter(chunks: seq<Chunk>, keep: Chunk -> bool): (r: seq<Chunk>)
    ensures forall c :: c in r <==> c in chunks && keep(c)
    decreases |chunks|
  {
    if chunks == [] then []
    else if keep(chunks[0]) then [chunks[0]] + Filter(chunks[1..], keep)
    else Filter(chunks[1..], keep)
  }

  function DateOf(c: Chunk): Date {
    if c.effective.Some? then c.effective.value else MIN_DATE
  }

  function VersionOf(c: Chunk): int {
    if c.version.Some? then c.version.value else 0
  }

  /** The later effective date decides, then the higher version. */
  predicate Newer(a: Chunk, b: Chunk) {
    DateOf(a) > DateOf(b) || (DateOf(a) == DateOf(b) && VersionOf(a) > VersionOf(b))
  }

  /** The first of the newest chunks: the head of a stable sort by falling date and version. */
  function Newest(chunks: seq<Chunk>): (r: Chunk)
    requires chunks != []
    ensures r in chunks && forall c :: c in chunks ==> !Newer(c, r)
    decreases |chunks|
  {
    if |chunks| == 1 then chunks[0]
    else
      var rest := Newest(chunks[1..]);
      assert forall c :: c in chunks ==> c == chunks[0] || c in chunks[1..];
      if Newer(rest, chunks[0]) then rest else chunks[0]
  }

  function Family(chunks: seq<Chunk>, family: Key): seq<Chunk> {
    Filter(chunks, (c: Chunk) => c.family == family)
  }

  function ActiveOf(family: seq<Chunk>): seq<Chunk> {
    Filter(family, (c: Chunk) => c.status.Active?)
  }

  /** The members of one family that may support a current answer. */
  function Current(family: seq<Chunk>): seq<Chunk> {
    var active := ActiveOf(family);
    if active == [] then family
    else
      var candidates := Filter(family, (c: Chunk) => !c.status.Superseded?);
      if |active| <= 1 then candidates
      else Filter(candidates, (c: Chunk) => !c.status.Active? || c.document == Newest(active).document)
  }

  /** Whether the chunk may support a current answer, given all the evidence. */
  predicate Keep(chunks: seq<Chunk>, c: Chunk) {
    var active := ActiveOf(Family(chunks, c.family));
    active == [] || (!c.status.Superseded? && (c.status.Active? && |active| > 1 ==> c.document == Newest(active).document))
  }

  function KeptIds(chunks: seq<Chunk>): set<Key> {
    set c | c in chunks && Keep(chunks, c) :: c.id
  }

  /** The evidence for an answer; a question about the past keeps all of it. */
  function Preferred(chunks: seq<Chunk>, historical: bool): seq<Chunk> {
    if historical then chunks else Filter(chunks, (c: Chunk) => c.id in KeptIds(chunks))
  }

  lemma {:induction false} FilterSame(chunks: seq<Chunk>, p: Chunk -> bool, q: Chunk -> bool)
    requires forall c :: c in chunks ==> p(c) == q(c)
    ensures Filter(chunks, p) == Filter(chunks, q)
    decreases |chunks|
  {
    if chunks != [] {
      FilterSame(chunks[1..], p, q);
    }
  }

  lemma FilterCons(c: Chunk, rest: seq<Chunk>, p: Chunk -> bool)
    ensures Filter([c] + rest, p) == if p(c) then [c] + Filter(rest, p) else Filter(rest, p)
  {
    assert ([c] + rest)[1..] == rest;
  }

  lemma {:induction false} FilterTwice(chunks: seq<Chunk>, p: Chunk -> bool, q: Chunk -> bool, both: Chunk -> bool)
    requires forall c :: both(c) <==> p(c) && q(c)
    ensures Filter(Filter(chunks, p), q) == Filter(chunks, both)
    decreases |chunks|
  {
    if chunks != [] {
      var c, rest := chunks[0], chunks[1..];
      FilterTwice(rest, p, q, both);
      if p(c) {
        FilterCons(c, Filter(rest, p), q);
        assert Filter(chunks, p) == [c] + Filter(rest, p);
      } else {
        assert !both(c);
      }
    }
  }

  lemma {:induction false} FilterCount(chunks: seq<Chunk>, p: Chunk -> bool, q: Chunk -> bool)
    requires forall c :: c in chunks && p(c) ==> q(c)
    ensures |Filter(chunks, p)| <= |Filter(chunks, q)|
    decreases |chunks|
  {
    if chunks != [] {
      FilterCount(chunks[1..], p, q);
    }
  }

  lemma {:induction false} FilterAll(chunks: seq<Chunk>, p: Chunk -> bool)
    requires forall c :: c in chunks ==> p(c)
    ensures Filter(chunks, p) == chunks
    decreases |chunks|
  {
    if chunks != [] {
      FilterAll(chunks[1..], p);
    }
  }

  lemma SameById(chunks: seq<Chunk>, c: Chunk, d: Chunk)
    requires DistinctIds(chunks) && c in chunks && d in chunks && c.id == d.id
    ensures c == d
  {
    var i :| 0 <= i < |chunks| && chunks[i] == c;
    var j :| 0 <= j < |chunks| && chunks[j] == d;
  }

  /** With distinct ids, exactly the chunks that may support a current answer stay, in their order. */
  lemma PreferredKeeps(chunks: seq<Chunk>)
    requires DistinctIds(chunks)
    ensures Preferred(chunks, false) == Filter(chunks, (c: Chunk) => Keep(chunks, c))
  {
    forall c | c in chunks
      ensures c.id in KeptIds(chunks) <==> Keep(chunks, c)
    {
      if c.id in KeptIds(chunks) {
        var d :| d in chunks && Keep(chunks, d) && d.id == c.id;
        SameById(chunks, c, d);
      }
    }
    FilterSame(chunks, (c: Chunk) => c.id in KeptIds(chunks), (c: Chunk) => Keep(chunks, c));
  }

  /** Every family keeps a member, and an active one if it has any: the newest. */
  lemma FamilySurvives(chunks: seq<Chunk>, c: Chunk)
    requires c in chunks
    ensures exists d :: d in Preferred(chunks, false) && d.family == c.family
    ensures c.status.Active? ==>
      exists d :: d in Preferred(chunks, false) && d.family == c.family && d.status.Active? && !Newer(c, d)
  {
    var active := ActiveOf(Family(chunks, c.family));
    var d := if active == [] then c else Newest(active);
    assert Keep(chunks, d) && d.id in KeptIds(chunks);
    assert c.status.Active? ==> c in active;
  }

  /**
    Which active members a family keeps, by their dates and versions: those of
    one document, whose member `kept` no active member of the family has a later
    effective date than, nor the same date and a higher version. A missing date
    counts as the earliest one, and a missing version as zero.
   */
  lemma LatestDocumentIsKept(chunks: seq<Chunk>, c: Chunk) returns (kept: Chunk)
    requires DistinctIds(chunks) && c in chunks && c.status.Active?
    ensures kept in Preferred(chunks, false) && kept.family == c.family && kept.status.Active?
    ensures forall d :: d in chunks && d.family == c.family && d.status.Active? ==>
      && (d in Preferred(chunks, false) <==> d.document == kept.document)
      && (d.effective.Some? && d.effective.value != MIN_DATE ==>
            kept.effective.Some? && kept.effective.value >= d.effective.value)
      && (d.effective == kept.effective && d.version.Some? && kept.version.Some? ==> kept.version.value >= d.version.value)
      && (d.effective == kept.effective && d.version.Some? && kept.version.None? ==> 0 >= d.version.value)
      && (d.effective == kept.effective && d.version.None? && kept.version.Some? ==> kept.version.value >= 0)
  {
    PreferredKeeps(chunks);
    var active := ActiveOf(Family(chunks, c.family));
    assert c in active;
    kept := Newest(active);
    assert Keep(chunks, kept);
    forall d | d in chunks && d.family == c.family && d.status.Active?
      ensures d in active && !Newer(d, kept)
      ensures d in Preferred(chunks, false) <==> d.document == kept.document
    {
      assert d in active;
      if |active| == 1 {
        assert active == [c];
      }
    }
  }

  lemma NeverEmpty(chunks: seq<Chunk>, historical: bool)
    ensures Preferred(chunks, historical) == [] <==> chunks == []
  {
    if chunks != [] {
      FamilySurvives(chunks, chunks[0]);
    }
  }

  /**
    No superseded member of a family that has an active one; the active members
    of a family from one document; and every member of the other families.
   */
  lemma CurrentOnly(chunks: seq<Chunk>, c: Chunk, d: Chunk)
    requires DistinctIds(chunks) && c in chunks && d in chunks && c.family == d.family
    ensures var r := Preferred(chunks, false);
      && (d.status.Active? && c in r ==> !c.status.Superseded?)
      && (d.status.Active? && c.status.Active? && c in r && d in r ==> c.document == d.document)
      && ((forall e :: e in chunks && e.family == c.family ==> !e.status.Active?) ==> c in r)
      && (!c.status.Active? && !c.status.Superseded? ==> c in r)
  {
    PreferredKeeps(chunks);
    var active := ActiveOf(Family(chunks, c.family));
    if d.status.Active? && c.status.Active? && |active| <= 1 {
      assert c in active && d in active;
      assert active == [c];
    }
    assert d.status.Active? ==> d in active;
    if forall e :: e in chunks && e.family == c.family ==> !e.status.Active? {
      assert forall e :: e in active ==> e in chunks && e.family == c.family && e.status.Active?;
      assert active != [] ==> active[0] in active;
    }
  }

  lemma FilterDistinct(chunks: seq<Chunk>, p: Chunk -> bool)
    requires DistinctIds(chunks)
    ensures DistinctIds(Filter(chunks, p))
    decreases |chunks|
  {
    if chunks != [] {
      FilterDistinct(chunks[1..], p);
      forall i | 0 <= i < |Filter(chunks[1..], p)|
        ensures Filter(chunks[1..], p)[i].id != chunks[0].id
      {
        assert Filter(chunks[1..], p)[i] in chunks[1..];
      }
    }
  }

  /** Preferring twice prefers nothing further. */
  lemma Idempotent(chunks: seq<Chunk>)
    requires DistinctIds(chunks)
    ensures Preferred(Preferred(chunks, false), false) == Preferred(chunks, false)
  {
    PreferredKeeps(chunks);
    var keep := (c: Chunk) => Keep(chunks, c);
    var r := Filter(chunks, keep);
    FilterDistinct(chunks, keep);
    PreferredKeeps(r);
    forall c | c in r
      ensures Keep(r, c)
    {
      StillKept(chunks, c);
    }
    FilterAll(r, (c: Chunk) => Keep(r, c));
  }

  lemma ActiveInOne(chunks: seq<Chunk>, family: Key)
    ensures ActiveOf(Family(chunks, family)) == Filter(chunks, (c: Chunk) => c.family == family && c.status.Active?)
  {
    FilterTwice(chunks, (c: Chunk) => c.family == family, (c: Chunk) => c.status.Active?,
      (c: Chunk) => c.family == family && c.status.Active?);
  }

  lemma FewerActive(chunks: seq<Chunk>, keep: Chunk -> bool, family: Key)
    ensures |ActiveOf(Family(Filter(chunks, keep), family))| <= |ActiveOf(Family(chunks, family))|
  {
    var active := (c: Chunk) => c.family == family && c.status.Active?;
    var both := (c: Chunk) => keep(c) && active(c);
    ActiveInOne(chunks, family);
    ActiveInOne(Filter(chunks, keep), family);
    FilterTwice(chunks, keep, active, both);
    FilterCount(chunks, both, active);
  }

  lemma StillKept(chunks: seq<Chunk>, c: Chunk)
    requires c in chunks && Keep(chunks, c)
    ensures Keep(Filter(chunks, (d: Chunk) => Keep(chunks, d)), c)
  {
    var keep := (d: Chunk) => Keep(chunks, d);
    FewerActive(chunks, keep, c.family);
    var before, after := ActiveOf(Family(chunks, c.family)), ActiveOf(Family(Filter(chunks, keep), c.family));
    if after != [] {
      var newest := Newest(after);
      assert Keep(chunks, newest) && newest in before;
    }
  }

  // ----- The filter as the code computes it -----

  lemma {:induction false} FilterSnoc(chunks: seq<Chunk>, c: Chunk, p: Chunk -> bool)
    ensures Filter(chunks + [c], p) == Filter(chunks, p) + (if p(c) then [c] else [])
    decreases |chunks|
  {
    if chunks == [] {
      assert chunks + [c] == [c] && [c][1..] == [];
    } else {
      assert (chunks + [c])[1..] == chunks[1..] + [c];
      FilterSnoc(chunks[1..], c, p);
    }
  }

  lemma FamilySnoc(chunks: seq<Chunk>, k: nat, family: Key)
    requires k < |chunks|
    ensures Family(chunks[..k + 1], family) == Family(chunks[..k], family) + (if chunks[k].family == family then [chunks[k]] else [])
  {
    assert chunks[..k + 1] == chunks[..k] + [chunks[k]];
    FilterSnoc(chunks[..k], chunks[k], (c: Chunk) => c.family == family);
  }

  lemma CurrentIsKeep(chunks: seq<Chunk>, family: Key, c: Chunk)
    ensures c in Current(Family(chunks, family)) <==> c in chunks && c.family == family && Keep(chunks, c)
  {
  }

  method Families(chunks: seq<Chunk>) returns (order: seq<Key>, members: map<Key, seq<Chunk>>)
    ensures forall f :: f in order <==> f in members
    ensures forall f :: f in members <==> exists c :: c in chunks && c.family == f
    ensures forall f :: f in members ==> members[f] == Family(chunks, f)
  {
    order, members := [], map[];
    var k := 0;
    while k < |chunks|
      invariant 0 <= k <= |chunks|
      invariant forall f :: f in order <==> f in members
      invariant forall f :: f !in members ==> Family(chunks[..k], f) == []
      invariant forall f :: f in members ==> Family(chunks[..k], f) != [] && members[f] == Family(chunks[..k], f)
    {
      var c := chunks[k];
      forall f
        ensures Family(chunks[..k + 1], f) == Family(chunks[..k], f) + (if c.family == f then [c] else [])
      {
        FamilySnoc(chunks, k, f);
      }
      if c.family !in members {
        order := order + [c.family];
        members := members[c.family := []];
      }
      members := members[c.family := members[c.family] + [c]];
      k := k + 1;
    }
    assert chunks[..k] == chunks;
    assert forall c :: c in chunks ==> c in Family(chunks, c.family);
    forall f | f in members
      ensures exists c :: c in chunks && c.family == f
    {
      assert Family(chunks, f)[0] in Family(chunks, f);
    }
  }

  lemma KeepFamily(chunks: seq<Chunk>, families: seq<Key>, kept: seq<Chunk>, k: nat)
    requires k < |families|
    requires forall c :: c in kept <==> c in chunks && c.family in families[..k] && Keep(chunks, c)
    ensures forall c :: c in kept + Current(Family(chunks, families[k])) <==>
      c in chunks && c.family in families[..k + 1] && Keep(chunks, c)
  {
    var more := Current(Family(chunks, families[k]));
    assert families[..k + 1] == families[..k] + [families[k]];
    forall c: Chunk
      ensures c in kept + more <==> c in chunks && c.family in families[..k + 1] && Keep(chunks, c)
    {
      CurrentIsKeep(chunks, families[k], c);
      assert c in kept + more <==> c in kept || c in more;
    }
  }

  method KeptChunks(chunks: seq<Chunk>) returns (kept: seq<Chunk>)
    ensures forall c :: c in kept <==> c in chunks && Keep(chunks, c)
  {
    var order, members := Families(chunks);
    kept := [];
    var k := 0;
    while k < |order|
      invariant 0 <= k <= |order|
      invariant forall c :: c in kept <==> c in chunks && c.family in order[..k] && Keep(chunks, c)
    {
      KeepFamily(chunks, order, kept, k);
      assert order[k] in order;
      kept := kept + Current(members[order[k]]);
      k := k + 1;
    }
    assert order[..k] == order;
  }

  method PreferActiveVersions(chunks: seq<Chunk>, historical: bool) returns (r: seq<Chunk>)
    ensures r == Preferred(chunks, historical)
    ensures historical ==> r == chunks
    ensures chunks != [] ==> r != []
  {
    NeverEmpty(chunks, historical);
    if chunks == [] || historical {
      return chunks;
    }
    var kept := KeptChunks(chunks);
    var ids := set c | c in kept :: c.id;
    assert ids == KeptIds(chunks);
    r := Filter(chunks, (c: Chunk) => c.id in ids);
    FilterSame(chunks, (c: Chunk) => c.id in ids, (c: Chunk) => c.id in KeptIds(chunks));
    if r == [] {
      r := chunks;
    }
  }

  // ----- The evidence of an answer -----

  /** The evidence of the documents that support the verdict, or all of it if there is none of theirs. */
  function Relevant(chunks: seq<Chunk>, supported: set<Key>): seq<Chunk> {
    var narrowed := Filter(chunks, (c: Chunk) => c.document in supported);
    if supported == {} || narrowed == [] then chunks else narrowed
  }

  /** The chunks of supporting documents and no others, in their order; or all chunks, if no document of theirs supports. */
  lemma RelevantIsSupported(chunks: seq<Chunk>, supported: set<Key>)
    ensures var r := Relevant(chunks, supported);
      if exists c :: c in chunks && c.document in supported
      then forall c :: c in r <==> c in chunks && c.document in supported
      else r == chunks
  {
    var narrowed := Filter(chunks, (c: Chunk) => c.document in supported);
    if narrowed != [] {
      assert narrowed[0] in chunks && narrowed[0].document in supported;
    }
  }

  function AnswerEvidence(rounds: seq<seq<Chunk>>, supported: set<Key>, historical: bool): seq<Chunk> {
    Preferred(Relevant(AfterRounds(rounds), supported), historical)
  }

  /**
    What an answer is generated from, after any retrieval rounds: at most ten
    chunks of different ids, each with the best score its id ever had; something
    if anything was retrieved; and, unless the question is about the past, no
    superseded chunk beside an active one of its family and no two active
    documents of a family.
   */
  lemma AnswerEvidenceIsSound(rounds: seq<seq<Chunk>>, supported: set<Key>, historical: bool)
    ensures var r := AnswerEvidence(rounds, supported, historical);
      && DistinctIds(r)
      && |r| <= LIMIT
      && (r == [] <==> Retrieved(rounds) == [])
      && (forall c :: c in r ==> IsBest(c, Retrieved(rounds)))
      && (historical ==> r == Relevant(AfterRounds(rounds), supported))
      && (!historical ==> forall c, d :: c in r && d in r && c.family == d.family && d.status.Active? ==>
           !c.status.Superseded? && (c.status.Active? ==> c.document == d.document))
  {
    RoundsKeepTop(rounds);
    var all, top := Retrieved(rounds), AfterRounds(rounds);
    var relevant := Relevant(top, supported);
    var r := AnswerEvidence(rounds, supported, historical);
    FilterDistinct(top, (c: Chunk) => c.document in supported);
    FilterCount(top, (c: Chunk) => c.document in supported, c => true);
    FilterAll(top, c => true);
    FilterDistinct(relevant, (c: Chunk) => c.id in KeptIds(relevant));
    FilterCount(relevant, (c: Chunk) => c.id in KeptIds(relevant), c => true);
    FilterAll(relevant, c => true);
    NeverEmpty(relevant, historical);
    TopNonempty(top, all);
    forall c | c in r
      ensures IsBest(c, all)
    {
      var i :| 0 <= i < |top| && top[i] == c;
      assert IsBest(top[i], all);
    }
    if !historical {
      forall c, d | c in r && d in r && c.family == d.family && d.status.Active?
        ensures !c.status.Superseded? && (c.status.Active? ==> c.document == d.document)
      {
        CurrentOnly(relevant, c, d);
      }
    }
  }

  lemma TopNonempty(top: seq<Chunk>, all: seq<Chunk>)
    requires IsTop(top, all)
    ensures top == [] <==> all == []
  {
    if all != [] {
      assert HasId(top, all[0].id) || |top| == LIMIT;
    }
    if top != [] {
      assert IsBest(top[0], all);
    }
  }
}
