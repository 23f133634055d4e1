/**
  The evidence of a policy answer (rag/self_correcting.py): merging what the
  retrieval rounds bring, and preferring the active version of each policy.
 */
module Evidence {
  import opened Common

  datatype Status = Active | Superseded | Draft | Archived | Unknown

  /** Chunk ids, document ids and family keys: strings of which the code asks only whether they are equal. */
  type Key = nat

  /** A retrieved chunk; `family` is the normalised key of the policy family it belongs to. */
  datatype Chunk = Chunk(id: Key, document: Key, family: Key, status: Status,
                         effective: Option<Date>, version: Option<int>, score: real)

  /** A day, counted from the first one the calendar has. */
  newtype Date = d: int | d >= 1 witness 1

  const MIN_DATE: Date := 1
  const LIMIT: nat := 10

  predicate DistinctIds(chunks: seq<Chunk>) {
    forall i, j :: 0 <= i < j < |chunks| ==> chunks[i].id != chunks[j].id
  }

  // ----- Merging -----

  /** The chunk takes the place of a worse one of the same id, or comes last. */
  function Put(kept: seq<Chunk>, c: Chunk): seq<Chunk>
    decreases |kept|
  {
    if kept == [] then [c]
    else if kept[0].id != c.id then [kept[0]] + Put(kept[1..], c)
    else if c.score > kept[0].score then [c] + kept[1..]
    else kept
  }

  function Absorb(chunks: seq<Chunk>): seq<Chunk>
    decreases |chunks|
  {
    if chunks == [] then [] else Put(Absorb(chunks[..|chunks| - 1]), chunks[|chunks| - 1])
  }

  /** How many chunks of the list rank before one that comes after them. */
  function Slot(ranked: seq<Chunk>, c: Chunk): (n: nat)
    ensures n <= |ranked|
    decreases |ranked|
  {
    if ranked == [] || ranked[0].score < c.score then 0 else 1 + Slot(ranked[1..], c)
  }

  function Inserted(ranked: seq<Chunk>, c: Chunk): seq<Chunk> {
    ranked[..Slot(ranked, c)] + [c] + ranked[Slot(ranked, c)..]
  }

  /** The stable sort by falling score. */
  function Ranked(chunks: seq<Chunk>): seq<Chunk>
    decreases |chunks|
  {
    if chunks == [] then []
    else
      var n := |chunks| - 1;
      Inserted(Ranked(chunks[..n]), chunks[n])
  }

  function Top(chunks: seq<Chunk>): seq<Chunk> {
    if |chunks| <= LIMIT then chunks else chunks[..LIMIT]
  }

  function Merged(chunks: seq<Chunk>): seq<Chunk> {
    Top(Ranked(Absorb(chunks)))
  }

  /** The chunk is among `all` with the best score its id has there. */
  ghost predicate IsBest(c: Chunk, all: seq<Chunk>) {
    c in all && forall d :: d in all && d.id == c.id ==> d.score <= c.score
  }

  ghost predicate Falling(chunks: seq<Chunk>) {
    forall i, j :: 0 <= i < j < |chunks| ==> chunks[i].score >= chunks[j].score
  }

  predicate HasId(chunks: seq<Chunk>, id: Key) {
    exists i :: 0 <= i < |chunks| && chunks[i].id == id
  }

  /** The best ten of everything retrieved, by the best score of each id. */
  ghost predicate IsTop(r: seq<Chunk>, all: seq<Chunk>) {
    && |r| <= LIMIT
    && DistinctIds(r)
    && Falling(r)
    && (forall i {:trigger IsBest(r[i], all)} :: 0 <= i < |r| ==> IsBest(r[i], all))
    && (forall c {:trigger HasId(r, c.id)} :: c in all && !HasId(r, c.id) ==> |r| == LIMIT && forall i :: 0 <= i < |r| ==> r[i].score >= c.score)
  }

  ghost predicate Absorbed(kept: seq<Chunk>, all: seq<Chunk>) {
    && DistinctIds(kept)
    && (forall i {:trigger IsBest(kept[i], all)} :: 0 <= i < |kept| ==> IsBest(kept[i], all))
    && (forall c {:trigger HasId(kept, c.id)} :: c in all ==> HasId(kept, c.id))
  }

  lemma {:induction false} PutAppends(kept: seq<Chunk>, c: Chunk)
    requires !HasId(kept, c.id)
    ensures Put(kept, c) == kept + [c]
    decreases |kept|
  {
    if kept != [] {
      assert forall i :: 0 <= i < |kept[1..]| ==> kept[1..][i] == kept[i + 1];
      PutAppends(kept[1..], c);
      assert kept + [c] == [kept[0]] + (kept[1..] + [c]);
    }
  }

  lemma {:induction false} PutReplaces(kept: seq<Chunk>, c: Chunk, i: nat)
    requires DistinctIds(kept) && i < |kept| && kept[i].id == c.id
    ensures Put(kept, c) == if c.score > kept[i].score then kept[i := c] else kept
    decreases i
  {
    if i > 0 {
      assert kept[0].id != c.id && kept[1..][i - 1] == kept[i];
      PutReplaces(kept[1..], c, i - 1);
      assert kept == [kept[0]] + kept[1..];
      assert kept[i := c] == [kept[0]] + kept[1..][i - 1 := c];
    } else {
      assert kept[0 := c] == [c] + kept[1..];
    }
  }

  lemma AppendAbsorbs(kept: seq<Chunk>, all: seq<Chunk>, c: Chunk)
    requires Absorbed(kept, all) && !HasId(kept, c.id)
    ensures Absorbed(kept + [c], all + [c])
  {
    var r := kept + [c];
    forall i | 0 <= i < |r|
      ensures IsBest(r[i], all + [c])
    {
      assert i < |kept| ==> IsBest(kept[i], all);
      assert forall d :: d in all ==> HasId(kept, d.id);
    }
    forall d | d in all + [c]
      ensures HasId(r, d.id)
    {
      if d in all {
        assert HasId(kept, d.id);
        var j :| 0 <= j < |kept| && kept[j].id == d.id;
        assert r[j].id == d.id;
      } else {
        assert r[|kept|].id == d.id;
      }
    }
  }

  lemma ReplaceAbsorbs(kept: seq<Chunk>, all: seq<Chunk>, c: Chunk, k: nat)
    requires Absorbed(kept, all) && k < |kept| && kept[k].id == c.id
    ensures Absorbed(if c.score > kept[k].score then kept[k := c] else kept, all + [c])
  {
    var r := if c.score > kept[k].score then kept[k := c] else kept;
    assert forall i :: 0 <= i < |r| ==> r[i].id == kept[i].id;
    forall i | 0 <= i < |r|
      ensures IsBest(r[i], all + [c])
    {
      assert IsBest(kept[i], all);
    }
    forall d | d in all + [c]
      ensures HasId(r, d.id)
    {
      assert d in all ==> HasId(kept, d.id);
      var j :| 0 <= j < |kept| && kept[j].id == d.id;
      assert r[j].id == d.id;
    }
  }

  lemma {:induction false} AbsorbIsAbsorbed(chunks: seq<Chunk>)
    ensures Absorbed(Absorb(chunks), chunks)
    decreases |chunks|
  {
    if chunks != [] {
      var n := |chunks| - 1;
      AbsorbIsAbsorbed(chunks[..n]);
      var kept, c := Absorb(chunks[..n]), chunks[n];
      assert chunks == chunks[..n] + [c];
      if k :| 0 <= k < |kept| && kept[k].id == c.id {
        PutReplaces(kept, c, k);
        ReplaceAbsorbs(kept, chunks[..n], c, k);
      } else {
        PutAppends(kept, c);
        AppendAbsorbs(kept, chunks[..n], c);
      }
    }
  }

  lemma {:induction false} SlotParts(ranked: seq<Chunk>, c: Chunk)
    ensures var n := Slot(ranked, c);
      && (forall i :: 0 <= i < n ==> ranked[i].score >= c.score)
      && (n < |ranked| ==> ranked[n].score < c.score)
    decreases |ranked|
  {
    if ranked != [] && ranked[0].score >= c.score {
      SlotParts(ranked[1..], c);
    }
  }

  lemma InsertedPermutes(ranked: seq<Chunk>, c: Chunk)
    ensures multiset(Inserted(ranked, c)) == multiset(ranked) + multiset{c}
  {
    assert ranked == ranked[..Slot(ranked, c)] + ranked[Slot(ranked, c)..];
  }

  lemma InsertedFalls(ranked: seq<Chunk>, c: Chunk)
    requires Falling(ranked)
    ensures Falling(Inserted(ranked, c))
  {
    SlotParts(ranked, c);
    var n, r := Slot(ranked, c), Inserted(ranked, c);
    assert forall i :: 0 <= i < |r| ==> r[i] == if i < n then ranked[i] else if i == n then c else ranked[i - 1];
  }

  lemma InsertedDistinct(ranked: seq<Chunk>, c: Chunk)
    requires DistinctIds(ranked) && !HasId(ranked, c.id)
    ensures DistinctIds(Inserted(ranked, c))
  {
  }

  lemma {:induction false} RankedSorts(chunks: seq<Chunk>)
    ensures Falling(Ranked(chunks)) && multiset(Ranked(chunks)) == multiset(chunks)
    decreases |chunks|
  {
    if chunks != [] {
      var n := |chunks| - 1;
      RankedSorts(chunks[..n]);
      InsertedFalls(Ranked(chunks[..n]), chunks[n]);
      InsertedPermutes(Ranked(chunks[..n]), chunks[n]);
      assert chunks == chunks[..n] + [chunks[n]];
    }
  }

  lemma SameIds(chunks: seq<Chunk>, ranked: seq<Chunk>, id: Key)
    requires multiset(chunks) == multiset(ranked)
    ensures HasId(ranked, id) ==> HasId(chunks, id)
  {
    if i :| 0 <= i < |ranked| && ranked[i].id == id {
      assert ranked[i] in multiset(chunks);
    }
  }

  lemma {:induction false} RankedDistinct(chunks: seq<Chunk>)
    requires DistinctIds(chunks)
    ensures DistinctIds(Ranked(chunks))
    decreases |chunks|
  {
    if chunks != [] {
      var n := |chunks| - 1;
      RankedDistinct(chunks[..n]);
      RankedSorts(chunks[..n]);
      SameIds(chunks[..n], Ranked(chunks[..n]), chunks[n].id);
      InsertedDistinct(Ranked(chunks[..n]), chunks[n]);
    }
  }

  lemma PermutedAbsorbs(kept: seq<Chunk>, ranked: seq<Chunk>, all: seq<Chunk>)
    requires Absorbed(kept, all) && DistinctIds(ranked) && multiset(ranked) == multiset(kept)
    ensures Absorbed(ranked, all)
  {
    forall i | 0 <= i < |ranked|
      ensures IsBest(ranked[i], all)
    {
      assert ranked[i] in multiset(kept);
      var j :| 0 <= j < |kept| && kept[j] == ranked[i];
      assert IsBest(kept[j], all);
    }
    forall c | c in all
      ensures HasId(ranked, c.id)
    {
      assert HasId(kept, c.id);
      var k :| 0 <= k < |kept| && kept[k].id == c.id;
      assert kept[k] in multiset(ranked);
      var j :| 0 <= j < |ranked| && ranked[j] == kept[k];
    }
  }

  lemma TopIsTop(ranked: seq<Chunk>, all: seq<Chunk>)
    requires Absorbed(ranked, all) && Falling(ranked)
    ensures IsTop(Top(ranked), all)
  {
    var r := Top(ranked);
    assert forall j :: 0 <= j < |r| ==> r[j] == ranked[j];
    forall i | 0 <= i < |r|
      ensures IsBest(r[i], all)
    {
      assert IsBest(ranked[i], all);
    }
    forall c | c in all && !HasId(r, c.id)
      ensures |r| == LIMIT && forall i :: 0 <= i < |r| ==> r[i].score >= c.score
    {
      assert HasId(ranked, c.id);
      var k :| 0 <= k < |ranked| && ranked[k].id == c.id;
      assert IsBest(ranked[k], all);
    }
  }

  /** The merge is the best ten of what it merges. */
  lemma MergedIsTop(all: seq<Chunk>)
    ensures IsTop(Merged(all), all)
  {
    AbsorbIsAbsorbed(all);
    RankedSorts(Absorb(all));
    RankedDistinct(Absorb(all));
    PermutedAbsorbs(Absorb(all), Ranked(Absorb(all)), all);
    TopIsTop(Ranked(Absorb(all)), all);
  }

  // ----- Ties -----

  /** The ids in the order in which they first came. */
  function Seen(chunks: seq<Chunk>): seq<Key>
    decreases |chunks|
  {
    if chunks == [] then []
    else
      var n := |chunks| - 1;
      var before := Seen(chunks[..n]);
      if chunks[n].id in before then before else before + [chunks[n].id]
  }

  /** The first of the best chunks of its id. */
  ghost predicate FirstBest(all: seq<Chunk>, i: nat) {
    && i < |all|
    && (forall j :: 0 <= j < i && all[j].id == all[i].id ==> all[j].score < all[i].score)
    && (forall j :: i < j < |all| && all[j].id == all[i].id ==> all[j].score <= all[i].score)
  }

  lemma PutInOrder(kept: seq<Chunk>, seen: seq<Key>, c: Chunk)
    requires DistinctIds(kept) && |kept| == |seen| && forall k :: 0 <= k < |seen| ==> kept[k].id == seen[k]
    ensures var seen' := if c.id in seen then seen else seen + [c.id];
      |Put(kept, c)| == |seen'| && forall k :: 0 <= k < |seen'| ==> Put(kept, c)[k].id == seen'[k]
  {
    if k :| 0 <= k < |kept| && kept[k].id == c.id {
      PutReplaces(kept, c, k);
      assert seen[k] == c.id;
    } else {
      PutAppends(kept, c);
    }
  }

  /** An id keeps the place at which it first came, whichever of its chunks is kept. */
  lemma {:induction false} KeptInOrder(chunks: seq<Chunk>)
    ensures |Absorb(chunks)| == |Seen(chunks)|
    ensures forall k :: 0 <= k < |Seen(chunks)| ==> Absorb(chunks)[k].id == Seen(chunks)[k]
    decreases |chunks|
  {
    if chunks != [] {
      var n := |chunks| - 1;
      KeptInOrder(chunks[..n]);
      AbsorbIsAbsorbed(chunks[..n]);
      PutInOrder(Absorb(chunks[..n]), Seen(chunks[..n]), chunks[n]);
    }
  }

  /** Of equally good chunks of one id the first is kept. */
  lemma {:induction false} KeptIsFirstBest(chunks: seq<Chunk>, k: nat) returns (i: nat)
    requires k < |Absorb(chunks)|
    ensures FirstBest(chunks, i) && chunks[i] == Absorb(chunks)[k]
    decreases |chunks|
  {
    var n := |chunks| - 1;
    var front, c := chunks[..n], chunks[n];
    var kept := Absorb(front);
    AbsorbIsAbsorbed(front);
    if m :| 0 <= m < |kept| && kept[m].id == c.id {
      PutReplaces(kept, c, m);
      if k == m && c.score > kept[m].score {
        assert IsBest(kept[m], front);
        assert forall j :: 0 <= j < n ==> chunks[j] == front[j] && front[j] in front;
        return n;
      }
    } else {
      PutAppends(kept, c);
      if k == |kept| {
        assert forall j :: 0 <= j < n ==> chunks[j] == front[j] && front[j] in front && HasId(kept, front[j].id);
        return n;
      }
    }
    i := KeptIsFirstBest(front, k);
    assert kept[k].id == c.id ==> c.score <= kept[k].score;
  }

  /** The first chunk of an equally good pair came first. */
  ghost predicate InThisOrder(chunks: seq<Chunk>, a: Chunk, b: Chunk) {
    exists p, q :: 0 <= p < q < |chunks| && chunks[p] == a && chunks[q] == b
  }

  lemma StillInOrder(front: seq<Chunk>, c: Chunk, a: Chunk, b: Chunk)
    requires InThisOrder(front, a, b) || (a in front && b == c)
    ensures InThisOrder(front + [c], a, b)
  {
    var chunks := front + [c];
    if p, q :| 0 <= p < q < |front| && front[p] == a && front[q] == b {
      assert chunks[p] == a && chunks[q] == b;
    } else {
      var p :| 0 <= p < |front| && front[p] == a;
      assert chunks[p] == a && chunks[|front|] == b;
    }
  }

  lemma InsertedAt(ranked: seq<Chunk>, c: Chunk, i: nat)
    requires Falling(ranked) && i <= |ranked|
    ensures var slot := Slot(ranked, c);
      && (i < slot ==> Inserted(ranked, c)[i] == ranked[i] && ranked[i].score >= c.score)
      && (i == slot ==> Inserted(ranked, c)[i] == c)
      && (i > slot ==> Inserted(ranked, c)[i] == ranked[i - 1] && ranked[i - 1].score < c.score)
  {
    SlotParts(ranked, c);
  }

  /** The sort by score is stable. */
  lemma {:induction false} RankedIsStable(chunks: seq<Chunk>, i: nat, j: nat)
    requires i < j < |Ranked(chunks)| && Ranked(chunks)[i].score == Ranked(chunks)[j].score
    ensures InThisOrder(chunks, Ranked(chunks)[i], Ranked(chunks)[j])
    decreases |chunks|
  {
    var n := |chunks| - 1;
    var front, c := chunks[..n], chunks[n];
    var ranked, slot := Ranked(front), Slot(Ranked(front), c);
    RankedSorts(front);
    InsertedAt(ranked, c, i);
    InsertedAt(ranked, c, j);
    if i != slot && j != slot {
      RankedIsStable(front, if i < slot then i else i - 1, if j < slot then j else j - 1);
    } else {
      assert j == slot && ranked[i] in multiset(front);
    }
    assert chunks == front + [c];
    StillInOrder(front, c, Ranked(chunks)[i], Ranked(chunks)[j]);
  }

  lemma MergedFirstBest(all: seq<Chunk>, i: nat) returns (k: nat)
    requires i < |Merged(all)|
    ensures FirstBest(all, k) && all[k] == Merged(all)[i]
  {
    var kept := Absorb(all);
    RankedSorts(kept);
    assert Ranked(kept)[i] in multiset(kept);
    var p :| 0 <= p < |kept| && kept[p] == Ranked(kept)[i];
    k := KeptIsFirstBest(all, p);
  }

  /**
    What decides between equals in a merge: of the chunks of one id the first of
    the best, and of equally good ids the one that came first. With `MergedIsTop`
    this determines the merge.
   */
  lemma TiesKeepOrder(all: seq<Chunk>, i: nat, j: nat) returns (k: nat, p: nat, q: nat)
    requires i < j < |Merged(all)|
    ensures FirstBest(all, k) && all[k] == Merged(all)[i]
    ensures p < |Seen(all)| && q < |Seen(all)| && Seen(all)[p] == Merged(all)[i].id && Seen(all)[q] == Merged(all)[j].id
    ensures Merged(all)[i].score > Merged(all)[j].score || p < q
  {
    var kept := Absorb(all);
    var ranked := Ranked(kept);
    RankedSorts(kept);
    KeptInOrder(all);
    assert ranked[i] in multiset(kept) && ranked[j] in multiset(kept);
    if ranked[i].score == ranked[j].score {
      RankedIsStable(kept, i, j);
      p, q :| 0 <= p < q < |kept| && kept[p] == ranked[i] && kept[q] == ranked[j];
    } else {
      p :| 0 <= p < |kept| && kept[p] == ranked[i];
      q :| 0 <= q < |kept| && kept[q] == ranked[j];
    }
    k := MergedFirstBest(all, i);
  }

  ghost function Ids(chunks: seq<Chunk>): set<Key> {
    set i | 0 <= i < |chunks| :: chunks[i].id
  }

  lemma {:induction false} IdsCount(chunks: seq<Chunk>)
    requires DistinctIds(chunks)
    ensures |Ids(chunks)| == |chunks|
    decreases |chunks|
  {
    if chunks != [] {
      var n := |chunks| - 1;
      IdsCount(chunks[..n]);
      assert Ids(chunks) == Ids(chunks[..n]) + {chunks[n].id} by {
        assert forall i :: 0 <= i < n ==> chunks[i] == chunks[..n][i];
      }
      assert chunks[n].id !in Ids(chunks[..n]);
    } else {
      assert Ids(chunks) == {};
    }
  }

  lemma CountIds(one: seq<Chunk>, two: seq<Chunk>)
    requires DistinctIds(one) && DistinctIds(two)
    requires forall i :: 0 <= i < |one| ==> HasId(two, one[i].id)
    ensures |one| <= |two|
    ensures |one| == |two| ==> Ids(one) == Ids(two)
  {
    IdsCount(one);
    IdsCount(two);
    forall x | x in Ids(one)
      ensures x in Ids(two)
    {
      var i :| 0 <= i < |one| && one[i].id == x;
      assert HasId(two, one[i].id);
    }
    assert |Ids(two)| == |Ids(one)| + |Ids(two) - Ids(one)|;
  }

  /** A list of ids, all found in another list of at most its length, is that list of ids. */
  lemma FullIds(one: seq<Chunk>, two: seq<Chunk>, id: Key)
    requires DistinctIds(one) && DistinctIds(two) && |two| <= |one|
    requires forall i :: 0 <= i < |one| ==> HasId(two, one[i].id)
    requires HasId(two, id)
    ensures HasId(one, id)
  {
    CountIds(one, two);
    var j :| 0 <= j < |two| && two[j].id == id;
    assert two[j].id in Ids(one);
  }

  /** What was forgotten cannot come back: a chunk of the new ten has the best score of its id ever. */
  lemma NewTopIsBest(before: seq<Chunk>, all: seq<Chunk>, more: seq<Chunk>, r: seq<Chunk>, i: nat, d: Chunk)
    requires IsTop(before, all) && IsTop(r, before + more) && i < |r|
    requires d in all && d.id == r[i].id
    ensures d.score <= r[i].score
  {
    assert IsBest(r[i], before + more);
    if HasId(before, d.id) {
      var j :| 0 <= j < |before| && before[j].id == d.id;
      assert IsBest(before[j], all);
      assert before[j] in before + more;
    } else if d.score > r[i].score {
      forall j | 0 <= j < |before|
        ensures HasId(r, before[j].id)
      {
        assert before[j] in before + more && before[j].score > r[i].score;
      }
      FullIds(before, r, d.id);
      assert false;
    }
  }

  lemma NewTopIsComplete(before: seq<Chunk>, all: seq<Chunk>, more: seq<Chunk>, r: seq<Chunk>, c: Chunk)
    requires IsTop(before, all) && IsTop(r, before + more)
    requires c in all + more && !HasId(r, c.id)
    ensures |r| == LIMIT && forall i :: 0 <= i < |r| ==> r[i].score >= c.score
  {
    if c in more {
      assert c in before + more;
    } else if HasId(before, c.id) {
      var j :| 0 <= j < |before| && before[j].id == c.id;
      assert IsBest(before[j], all);
      assert before[j] in before + more;
    } else if j :| 0 <= j < |before| && !HasId(r, before[j].id) {
      assert before[j] in before + more;
    } else {
      CountIds(before, r);
      forall i | 0 <= i < |r|
        ensures r[i].score >= c.score
      {
        assert HasId(r, r[i].id);
        FullIds(before, r, r[i].id);
        var j :| 0 <= j < |before| && before[j].id == r[i].id;
        assert before[j] in before + more;
        assert IsBest(r[i], before + more);
      }
    }
  }

  /** The best ten of the old ten and more are the best ten of everything. */
  lemma TopOfTop(before: seq<Chunk>, all: seq<Chunk>, more: seq<Chunk>, r: seq<Chunk>)
    requires IsTop(before, all) && IsTop(r, before + more)
    ensures IsTop(r, all + more)
  {
    forall i | 0 <= i < |r|
      ensures IsBest(r[i], all + more)
    {
      assert IsBest(r[i], before + more);
      if r[i] in before {
        var j :| 0 <= j < |before| && before[j] == r[i];
        assert IsBest(before[j], all);
      }
      forall d | d in all + more && d.id == r[i].id
        ensures d.score <= r[i].score
      {
        if d in all {
          NewTopIsBest(before, all, more, r, i, d);
        } else {
          assert d in before + more;
        }
      }
    }
    forall c | c in all + more && !HasId(r, c.id)
      ensures |r| == LIMIT && forall i :: 0 <= i < |r| ==> r[i].score >= c.score
    {
      NewTopIsComplete(before, all, more, r, c);
    }
  }

  /** The evidence after the retrieval rounds, merged and cut after each of them. */
  function AfterRounds(rounds: seq<seq<Chunk>>): seq<Chunk>
    decreases |rounds|
  {
    if rounds == [] then []
    else Merged(AfterRounds(rounds[..|rounds| - 1]) + rounds[|rounds| - 1])
  }

  function Retrieved(rounds: seq<seq<Chunk>>): seq<Chunk>
    decreases |rounds|
  {
    if rounds == [] then [] else Retrieved(rounds[..|rounds| - 1]) + rounds[|rounds| - 1]
  }

  /**
    However many rounds, and although what was cut is forgotten with its scores:
    the evidence is the best ten of everything ever retrieved.
   */
  lemma {:induction false} RoundsKeepTop(rounds: seq<seq<Chunk>>)
    ensures IsTop(AfterRounds(rounds), Retrieved(rounds))
    decreases |rounds|
  {
    if rounds != [] {
      var n := |rounds| - 1;
      RoundsKeepTop(rounds[..n]);
      var before := AfterRounds(rounds[..n]);
      MergedIsTop(before + rounds[n]);
      TopOfTop(before, Retrieved(rounds[..n]), rounds[n], AfterRounds(rounds));
    }
  }

  /** A chunk kept from earlier rounds gives way only to a better one of its id. */
  lemma KnownChunkStays(rounds: seq<seq<Chunk>>, more: seq<Chunk>, i: nat, j: nat)
    requires i < |AfterRounds(rounds + [more])| && j < |AfterRounds(rounds)|
    requires AfterRounds(rounds + [more])[i].id == AfterRounds(rounds)[j].id
    requires forall d :: d in more && d.id == AfterRounds(rounds)[j].id ==> d.score <= AfterRounds(rounds)[j].score
    ensures AfterRounds(rounds + [more])[i] == AfterRounds(rounds)[j]
  {
    var before := AfterRounds(rounds);
    assert (rounds + [more])[..|rounds|] == rounds;
    RoundsKeepTop(rounds);
    var all := before + more;
    assert all[j] == before[j] && forall m :: |before| <= m < |all| ==> all[m] in more;
    var k := MergedFirstBest(all, i);
  }

  /** Different chunks never tie. */
  ghost predicate NoTies(all: seq<Chunk>) {
    forall c, d :: c in all && d in all && c.score == d.score ==> c == d
  }

  lemma NotAbove(one: seq<Chunk>, two: seq<Chunk>, all: seq<Chunk>, i: nat)
    requires IsTop(one, all) && IsTop(two, all) && NoTies(all)
    requires i < |one| && i <= |two| && one[..i] == two[..i]
    ensures i < |two| && one[i].score <= two[i].score
  {
    forall j | 0 <= j < i
      ensures one[j] == two[j]
    {
      assert one[..i][j] == two[..i][j];
    }
    var c := one[i];
    assert IsBest(c, all);
    if k :| 0 <= k < |two| && two[k].id == c.id {
      assert IsBest(two[k], all);
      assert two[k] == c;
    } else {
      assert !HasId(two, c.id);
    }
  }

  /** Without ties there is only one best ten. */
  lemma {:induction false} TopIsUnique(one: seq<Chunk>, two: seq<Chunk>, all: seq<Chunk>, i: nat)
    requires IsTop(one, all) && IsTop(two, all) && NoTies(all)
    requires i <= |one| && i <= |two| && one[..i] == two[..i]
    ensures one == two
    decreases |one| - i
  {
    if i < |one| {
      NotAbove(one, two, all, i);
      NotAbove(two, one, all, i);
      assert IsBest(one[i], all) && IsBest(two[i], all);
      assert one[..i + 1] == two[..i + 1] by {
        assert one[..i + 1] == one[..i] + [one[i]] && two[..i + 1] == two[..i] + [two[i]];
      }
      TopIsUnique(one, two, all, i + 1);
    } else if i < |two| {
      NotAbove(two, one, all, i);
    }
  }

  /** Without ties, merging round by round gives the same list as merging everything at once. */
  lemma RoundsAreOneShot(rounds: seq<seq<Chunk>>)
    requires NoTies(Retrieved(rounds))
    ensures AfterRounds(rounds) == Merged(Retrieved(rounds))
  {
    RoundsKeepTop(rounds);
    MergedIsTop(Retrieved(rounds));
    TopIsUnique(AfterRounds(rounds), Merged(Retrieved(rounds)), Retrieved(rounds), 0);
  }

  // ----- The merge as a loop over a dictionary -----

  /** The values of a dictionary, in the order in which its keys came. */
  function Values(order: seq<Key>, best: map<Key, Chunk>): seq<Chunk>
    requires forall i :: 0 <= i < |order| ==> order[i] in best
  {
    seq(|order|, i requires 0 <= i < |order| => best[order[i]])
  }

  ghost predicate Dictionary(order: seq<Key>, best: map<Key, Chunk>) {
    && (forall i :: 0 <= i < |order| ==> order[i] in best && best[order[i]].id == order[i])
    && (forall id :: id in best ==> id in order)
    && (forall i, j :: 0 <= i < j < |order| ==> order[i] != order[j])
  }

  lemma DictionaryAdds(order: seq<Key>, best: map<Key, Chunk>, c: Chunk)
    requires Dictionary(order, best) && c.id !in best
    ensures Dictionary(order + [c.id], best[c.id := c])
    ensures Values(order + [c.id], best[c.id := c]) == Put(Values(order, best), c)
  {
    assert !HasId(Values(order, best), c.id);
    PutAppends(Values(order, best), c);
    assert Values(order + [c.id], best[c.id := c]) == Values(order, best) + [c];
  }

  lemma ValuesUpdate(order: seq<Key>, best: map<Key, Chunk>, c: Chunk, k: nat)
    requires Dictionary(order, best) && k < |order| && order[k] == c.id
    ensures Values(order, best[c.id := c]) == Values(order, best)[k := c]
  {
  }

  lemma DictionaryUpdates(order: seq<Key>, best: map<Key, Chunk>, c: Chunk)
    requires Dictionary(order, best) && c.id in best
    ensures Dictionary(order, best[c.id := c])
    ensures Put(Values(order, best), c) == Values(order, if c.score > best[c.id].score then best[c.id := c] else best)
  {
    var k :| 0 <= k < |order| && order[k] == c.id;
    ValuesUpdate(order, best, c, k);
    var values := Values(order, best);
    assert values[k] == best[c.id];
    assert DistinctIds(values);
    PutReplaces(values, c, k);
  }

  lemma AbsorbSnoc(chunks: seq<Chunk>, k: nat)
    requires k < |chunks|
    ensures Absorb(chunks[..k + 1]) == Put(Absorb(chunks[..k]), chunks[k])
  {
    assert chunks[..k + 1][..k] == chunks[..k];
  }

  method MergeChunks(existing: seq<Chunk>, more: seq<Chunk>) returns (r: seq<Chunk>)
    ensures r == Merged(existing + more)
  {
    var chunks := existing + more;
    var order: seq<Key> := [];
    var best: map<Key, Chunk> := map[];
    var k := 0;
    while k < |chunks|
      invariant 0 <= k <= |chunks|
      invariant Dictionary(order, best)
      invariant Values(order, best) == Absorb(chunks[..k])
    {
      var c := chunks[k];
      AbsorbSnoc(chunks, k);
      if c.id !in best {
        DictionaryAdds(order, best, c);
        order := order + [c.id];
        best := best[c.id := c];
      } else {
        DictionaryUpdates(order, best, c);
        if c.score > best[c.id].score {
          best := best[c.id := c];
        }
      }
      k := k + 1;
    }
    assert chunks[..k] == chunks;
    r := Top(Ranked(Values(order, best)));
  }
}
