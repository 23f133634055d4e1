/**
  The self-correcting answer loop (`answer` in rag/self_correcting.py) and the
  state graph its recorded path must follow (rag/state_machine.py).

  What a retrieval brings, how its evidence is judged and whether a conflict in
  it can be resolved are inputs, one per iteration.
 */
module RagControl {
  import opened Common
  import opened Evidence
  import opened ActiveVersions

  datatype Verdict = Sufficient | LowRelevance | Insufficient | Conflict | Ambiguous | OutOfScope

  datatype State =
    | Start | AnalyzeQuery | Retrieve | EvaluateEvidence | RewriteQuery | DecomposeQuery
    | ResolveConflict | GenerateAnswer | AskClarification | Abstain | Complete

  function Transitions(s: State): set<State> {
    match s
    case Start => {AnalyzeQuery}
    case AnalyzeQuery => {Retrieve, AskClarification, Abstain}
    case Retrieve => {EvaluateEvidence}
    case EvaluateEvidence => {GenerateAnswer, RewriteQuery, DecomposeQuery, ResolveConflict, AskClarification, Abstain}
    case RewriteQuery => {Retrieve}
    case DecomposeQuery => {Retrieve}
    case ResolveConflict => {GenerateAnswer, AskClarification, Abstain}
    case GenerateAnswer => {Complete}
    case AskClarification => {Complete}
    case Abstain => {Complete}
    case Complete => {}
  }

  datatype Transition = Transition(from: State, to: State)

  datatype Action =
    | NoAction | QueryRewrite | QueryDecomposition | BroadenRetrieval | ConflictResolution | Clarification | Abstention

  /** What the conflict detector finds in the relevant evidence. */
  datatype Resolution = NotApplicable | Resolved | Unresolved

  /** What one iteration brings: the chunks, the verdict on the evidence, the documents that support it. */
  datatype Round = Round(chunks: seq<Chunk>, verdict: Verdict, resolution: Resolution, supported: set<Key>)

  datatype Analysis = NeedsClarification | Unsupported | Supported(decomposed: bool)

  /** The question, or the rewrite of it after an iteration. */
  datatype Query = Question | Rewrite(iteration: nat)

  datatype Entry = Entry(iteration: nat, query: Query, verdict: Verdict, action: Action)

  datatype Result = Result(
    answerable: bool,
    verdict: Verdict,
    iterations: nat,
    queries: seq<Query>,
    retrieved: seq<Chunk>,
    generatedFrom: seq<Chunk>,
    actions: seq<Action>,
    trace: seq<Entry>,
    transitions: seq<Transition>)

  /** The verdict after a question that can contain a policy conflict was checked for one. */
  function Checked(round: Round, canConflict: bool): Verdict {
    if round.verdict.Sufficient? && canConflict && round.resolution.Unresolved? then Conflict else round.verdict
  }

  /** The verdict when the iteration is over. */
  function Outcome(round: Round, canConflict: bool): Verdict {
    if Checked(round, canConflict).Conflict? && round.resolution.Resolved? then Sufficient
    else Checked(round, canConflict)
  }

  /** Whether no further retrieval follows, whatever the limit. */
  predicate Settles(round: Round, canConflict: bool) {
    Outcome(round, canConflict).Sufficient? || Outcome(round, canConflict).Conflict?
  }

  function Correction(round: Round): Action {
    if round.verdict.LowRelevance? then QueryRewrite else BroadenRetrieval
  }

  /** The verdict that the customer is told. */
  function Told(verdict: Verdict): Verdict {
    if verdict.LowRelevance? then Insufficient else verdict
  }

  function Queries(n: nat): seq<Query> {
    seq(n, i requires 0 <= i < n => if i == 0 then Question else Rewrite(i))
  }

  // ----- Recorded paths -----

  predicate Consecutive(path: seq<Transition>) {
    forall i :: 0 < i < |path| ==> path[i].from == path[i - 1].to
  }

  predicate OnGraph(path: seq<Transition>) {
    forall i :: 0 <= i < |path| ==> path[i].to in Transitions(path[i].from)
  }

  /** An unbroken path through the graph, from the first state to the last. */
  predicate FullPath(path: seq<Transition>) {
    && path != [] && path[0].from == Start && path[|path| - 1].to == Complete
    && Consecutive(path) && OnGraph(path)
  }

  /** The path up to the evaluation in iteration `n`. */
  function LoopPath(n: nat): seq<Transition> {
    if n == 0 then [Transition(Start, AnalyzeQuery)]
    else if n == 1 then LoopPath(0) + Retrieval(AnalyzeQuery)
    else LoopPath(n - 1) + [Transition(EvaluateEvidence, RewriteQuery)] + Retrieval(RewriteQuery)
  }

  function Retrieval(from: State): seq<Transition> {
    [Transition(from, Retrieve), Transition(Retrieve, EvaluateEvidence)]
  }

  /** The path up to the retrieval of the iteration after `n`. */
  function BeforeRetrieval(n: nat): seq<Transition> {
    if n == 0 then LoopPath(0) else LoopPath(n) + [Transition(EvaluateEvidence, RewriteQuery)]
  }

  function Ending(answered: bool): seq<Transition> {
    var last := if answered then GenerateAnswer else Abstain;
    [Transition(EvaluateEvidence, last), Transition(last, Complete)]
  }

  lemma {:induction false} LoopPathOk(n: nat)
    ensures LoopPath(n) != [] && LoopPath(n)[0].from == Start
    ensures LoopPath(n)[|LoopPath(n)| - 1].to == if n == 0 then AnalyzeQuery else EvaluateEvidence
    ensures Consecutive(LoopPath(n)) && OnGraph(LoopPath(n))
    ensures |LoopPath(n)| == if n == 0 then 1 else 3 * n
  {
    if n > 0 {
      LoopPathOk(n - 1);
    }
  }

  /** A run that retrieves at all records a full path; a limit of zero iterations would break it. */
  lemma FullPathIff(n: nat, answered: bool)
    ensures FullPath(LoopPath(n) + Ending(answered)) <==> n > 0
  {
    LoopPathOk(n);
    var path := LoopPath(n) + Ending(answered);
    if n == 0 {
      assert path[1].from != path[0].to;
    }
  }

  // ----- The loop -----

  function ChunksOf(round: nat -> Round, n: nat): seq<seq<Chunk>> {
    seq(n, i requires 0 <= i < n => round(i).chunks)
  }

  /** The evidence after one more iteration. */
  method Accumulate(evidence: seq<Chunk>, round: nat -> Round, n: nat) returns (r: seq<Chunk>)
    requires evidence == AfterRounds(ChunksOf(round, n))
    ensures r == AfterRounds(ChunksOf(round, n + 1))
  {
    assert ChunksOf(round, n + 1)[..n] == ChunksOf(round, n);
    r := MergeChunks(evidence, round(n).chunks);
  }

  /** The trace entry of an iteration, and the entry at which the loop gives up. */
  function EntryOf(round: nat -> Round, canConflict: bool, limit: nat, i: nat): Entry {
    var verdict := Checked(round(i), canConflict);
    Entry(i + 1, if i == 0 then Question else Rewrite(i), verdict,
      if verdict.Sufficient? then NoAction
      else if verdict.Conflict? then ConflictResolution
      else if i + 1 >= limit then Abstention
      else Correction(round(i)))
  }

  function Entries(round: nat -> Round, canConflict: bool, limit: nat, n: nat): seq<Entry> {
    seq(n, i requires 0 <= i < n => EntryOf(round, canConflict, limit, i))
  }

  lemma OneMoreEntry(decomposed: bool, round: nat -> Round, canConflict: bool, limit: nat, n: nat)
    ensures Entries(round, canConflict, limit, n + 1) == Entries(round, canConflict, limit, n) + [EntryOf(round, canConflict, limit, n)]
    ensures Corrections(decomposed, round, n + 1) == Corrections(decomposed, round, n) + [Correction(round(n))]
    ensures Queries(n + 2) == Queries(n + 1) + [Rewrite(n + 1)]
    ensures LoopPath(n + 1) == BeforeRetrieval(n) + Retrieval(if n == 0 then AnalyzeQuery else RewriteQuery)
  {
  }

  /** The actions of the first `n` iterations when none of them settles the matter. */
  function Corrections(decomposed: bool, round: nat -> Round, n: nat): seq<Action> {
    (if decomposed then [QueryDecomposition] else []) + Steps(round, n)
  }

  function Steps(round: nat -> Round, n: nat): seq<Action> {
    seq(n, i requires 0 <= i < n => Correction(round(i)))
  }

  /** The actions of the iteration after which the loop ends. */
  function LastActions(round: Round, canConflict: bool): seq<Action> {
    (if round.verdict.Sufficient? && canConflict && !round.resolution.NotApplicable? then [ConflictResolution] else [])
    + (if Checked(round, canConflict).Sufficient? then []
       else if Outcome(round, canConflict).Sufficient? then [ConflictResolution]
       else if Checked(round, canConflict).Conflict? then [ConflictResolution, Abstention]
       else [Abstention])
  }

  /** None of the first `n` iterations settles the matter. */
  predicate NoneSettles(round: nat -> Round, canConflict: bool, n: nat) {
    n == 0 || (NoneSettles(round, canConflict, n - 1) && !Settles(round(n - 1), canConflict))
  }

  lemma {:induction false} NoneSettlesAt(round: nat -> Round, canConflict: bool, n: nat, i: nat)
    requires NoneSettles(round, canConflict, n) && i < n
    ensures !Settles(round(i), canConflict)
  {
    if i < n - 1 {
      NoneSettlesAt(round, canConflict, n - 1, i);
    }
  }

  /** The number of iterations that the loop runs: up to the first that settles the matter, or the limit. */
  predicate StopsAt(round: nat -> Round, canConflict: bool, limit: nat, n: nat) {
    && n <= limit
    && (n > 0 ==> NoneSettles(round, canConflict, n - 1))
    && (n < limit ==> n > 0 && Settles(round(n - 1), canConflict))
  }

  lemma StopsOnce(round: nat -> Round, canConflict: bool, limit: nat, m: nat, n: nat)
    requires StopsAt(round, canConflict, limit, m) && StopsAt(round, canConflict, limit, n)
    ensures m == n
  {
    if m < n {
      NoneSettlesAt(round, canConflict, n - 1, m - 1);
    } else if n < m {
      NoneSettlesAt(round, canConflict, m - 1, n - 1);
    }
  }

  /** How many iterations ran, and what came of them. */
  ghost predicate ReportsVerdict(r: Result, canConflict: bool, limit: nat, round: nat -> Round, n: nat) {
    && StopsAt(round, canConflict, limit, n)
    && r.answerable == (n > 0 && Outcome(round(n - 1), canConflict).Sufficient?)
    && r.verdict == (if n == 0 then Insufficient else Told(Outcome(round(n - 1), canConflict)))
  }

  ghost predicate ReportsTrace(r: Result, canConflict: bool, limit: nat, round: nat -> Round, n: nat) {
    && r.iterations == n
    && r.queries == Queries(if n == 0 then 1 else n)
    && r.trace == Entries(round, canConflict, limit, n)
    && r.transitions == LoopPath(n) + Ending(r.answerable)
  }

  ghost predicate ReportsActions(r: Result, decomposed: bool, canConflict: bool, round: nat -> Round, n: nat) {
    r.actions ==
      if n == 0 then [Abstention]
      else Corrections(decomposed, round, n - 1) + LastActions(round(n - 1), canConflict)
  }

  /** What an answer run reports, when it ran `n` iterations of retrieval. */
  ghost predicate Reports(r: Result, decomposed: bool, canConflict: bool, limit: nat, round: nat -> Round, n: nat) {
    && ReportsVerdict(r, canConflict, limit, round, n)
    && ReportsTrace(r, canConflict, limit, round, n)
    && ReportsActions(r, decomposed, canConflict, round, n)
  }

  /** The evidence that such a run reports, and what it generated its answer from. */
  ghost predicate ReportsEvidence(r: Result, historical: bool, round: nat -> Round, n: nat) {
    && r.retrieved == AfterRounds(ChunksOf(round, n))
    && r.generatedFrom ==
         if r.answerable && n > 0 then AnswerEvidence(ChunksOf(round, n), round(n - 1).supported, historical) else []
  }

  /** The runs that end before any retrieval. */
  function EarlyExit(clarify: bool): Result {
    var last := if clarify then AskClarification else Abstain;
    Result(false, if clarify then Ambiguous else OutOfScope, 0, [Question], [], [],
      [if clarify then Clarification else Abstention], [],
      [Transition(Start, AnalyzeQuery), Transition(AnalyzeQuery, last), Transition(last, Complete)])
  }

  /** What the correction loop records besides the evidence. */
  datatype Loop = Loop(n: nat, final: Verdict, queries: seq<Query>, actions: seq<Action>, trace: seq<Entry>, path: seq<Transition>)

  /** After `n` iterations that settled nothing; another one follows. */
  ghost predicate GoesOn(l: Loop, decomposed: bool, canConflict: bool, limit: nat, round: nat -> Round) {
    && l.n < limit && NoneSettles(round, canConflict, l.n)
    && l.queries == Queries(l.n + 1)
    && l.trace == Entries(round, canConflict, limit, l.n)
    && l.path == BeforeRetrieval(l.n)
    && l.actions == Corrections(decomposed, round, l.n)
  }

  /** After the last iteration. */
  ghost predicate Ended(l: Loop, decomposed: bool, canConflict: bool, limit: nat, round: nat -> Round) {
    && StopsAt(round, canConflict, limit, l.n) && l.n > 0
    && l.final == Outcome(round(l.n - 1), canConflict)
    && l.queries == Queries(l.n)
    && l.trace == Entries(round, canConflict, limit, l.n)
    && l.path == LoopPath(l.n)
    && l.actions == Corrections(decomposed, round, l.n - 1) + LastActions(round(l.n - 1), canConflict)
  }

  /**
    Every run records a full path, exactly if it ends early or the limit lets it
    retrieve (the configuration demands at least one iteration). Trace and query
    history have one member per iteration, at most as many as the limit.
   */
  lemma RecordedPath(r: Result, decomposed: bool, canConflict: bool, limit: nat, round: nat -> Round, n: nat)
    requires Reports(r, decomposed, canConflict, limit, round, n)
    ensures FullPath(r.transitions) <==> limit > 0
    ensures limit > 0 ==> |r.trace| == |r.queries| == r.iterations == n && 1 <= n <= limit
    ensures r.answerable <==> r.verdict.Sufficient?
    ensures forall i :: 0 <= i < |r.trace| ==> r.trace[i].query == r.queries[i] && r.trace[i].iteration == i + 1
  {
    FullPathIff(n, r.answerable);
  }

  /**
    The report in terms of the inputs alone. The loop ends with the first verdict
    Sufficient or Conflict, or at the limit. The question is answered if and only
    if the last verdict is Sufficient and, where the question can contain a
    conflict, none is left unresolved, or it is Conflict and the conflict is
    resolved.
   */
  lemma ReportMeans(r: Result, canConflict: bool, limit: nat, round: nat -> Round, n: nat)
    requires ReportsVerdict(r, canConflict, limit, round, n)
    ensures n <= limit && (limit > 0 ==> n > 0)
    ensures forall i :: 0 <= i < n - 1 ==> round(i).verdict !in {Sufficient, Conflict}
    ensures 0 < n < limit ==> round(n - 1).verdict in {Sufficient, Conflict}
    ensures n > 0 ==> (r.answerable <==>
      var last := round(n - 1);
      || (last.verdict == Sufficient && !(canConflict && last.resolution == Unresolved))
      || (last.verdict == Conflict && last.resolution == Resolved))
    ensures n > 0 ==>
      var last := round(n - 1).verdict;
      && (r.answerable ==> r.verdict == Sufficient)
      && (!r.answerable && last == Sufficient ==> r.verdict == Conflict)
      && (!r.answerable && last == LowRelevance ==> r.verdict == Insufficient)
      && (!r.answerable && last !in {Sufficient, LowRelevance} ==> r.verdict == last)
    ensures n == 0 ==> !r.answerable && r.verdict == Insufficient
  {
    forall i | 0 <= i < n - 1
      ensures round(i).verdict !in {Sufficient, Conflict}
    {
      NoneSettlesAt(round, canConflict, n - 1, i);
    }
  }

  /** The trace in terms of the inputs alone: its entries before the last, and the last one. */
  lemma TraceMeans(r: Result, canConflict: bool, limit: nat, round: nat -> Round, n: nat)
    requires StopsAt(round, canConflict, limit, n) && ReportsTrace(r, canConflict, limit, round, n)
    ensures |r.trace| == n
    ensures forall i :: 0 <= i < n ==> r.trace[i].iteration == i + 1 && r.trace[i].query == if i == 0 then Question else Rewrite(i)
    ensures forall i :: 0 <= i < n - 1 ==>
      && r.trace[i].verdict == round(i).verdict
      && r.trace[i].action == if round(i).verdict == LowRelevance then QueryRewrite else BroadenRetrieval
    ensures n > 0 ==>
      var last, entry := round(n - 1), r.trace[n - 1];
      && (last.verdict == Sufficient && !(canConflict && last.resolution == Unresolved) ==>
            entry.verdict == Sufficient && entry.action == NoAction)
      && (last.verdict == Sufficient && canConflict && last.resolution == Unresolved ==>
            entry.verdict == Conflict && entry.action == ConflictResolution)
      && (last.verdict == Conflict ==> entry.verdict == Conflict && entry.action == ConflictResolution)
      && (last.verdict !in {Sufficient, Conflict} ==> entry.verdict == last.verdict && entry.action == Abstention)
  {
    forall i | 0 <= i < n - 1
      ensures round(i).verdict !in {Sufficient, Conflict}
    {
      NoneSettlesAt(round, canConflict, n - 1, i);
    }
  }

  lemma JoinedActions(first: seq<Action>, last: seq<Action>, a: Action)
    ensures a in first + last <==> a in first || a in last
    ensures last != [] ==> (first + last)[|first + last| - 1] == last[|last| - 1]
  {
  }

  lemma StepsMean(round: nat -> Round, n: nat)
    ensures |Steps(round, n)| == n
    ensures forall i :: 0 <= i < n ==>
      Steps(round, n)[i] == if round(i).verdict == LowRelevance then QueryRewrite else BroadenRetrieval
    ensures forall a :: a in Steps(round, n) ==> a == QueryRewrite || a == BroadenRetrieval
  {
  }

  lemma CorrectionsMean(decomposed: bool, round: nat -> Round, n: nat)
    ensures var actions := Corrections(decomposed, round, n);
      && actions == (if decomposed then [QueryDecomposition] + Steps(round, n) else Steps(round, n))
      && Abstention !in actions && ConflictResolution !in actions && (QueryDecomposition in actions <==> decomposed)
  {
    var steps := Steps(round, n);
    StepsMean(round, n);
    assert [] + steps == steps;
    JoinedActions([QueryDecomposition], steps, Abstention);
    JoinedActions([QueryDecomposition], steps, ConflictResolution);
    JoinedActions([QueryDecomposition], steps, QueryDecomposition);
  }

  lemma LastActionsMean(last: Round, canConflict: bool)
    ensures var actions := LastActions(last, canConflict);
      && var answered := (last.verdict == Sufficient && !(canConflict && last.resolution == Unresolved))
                      || (last.verdict == Conflict && last.resolution == Resolved);
      && (answered ==> Abstention !in actions)
      && (!answered ==> actions != [] && actions[|actions| - 1] == Abstention)
      && QueryDecomposition !in actions
      && (ConflictResolution in actions <==>
            last.verdict == Conflict || (last.verdict == Sufficient && canConflict && last.resolution != NotApplicable))
  {
    var unanswered: seq<Action> := [ConflictResolution] + [ConflictResolution, Abstention];
    assert unanswered == [ConflictResolution, ConflictResolution, Abstention] && unanswered[0] == ConflictResolution;
    assert [ConflictResolution, Abstention][0] == ConflictResolution;
  }

  /**
    The actions in terms of the inputs alone: an abstention, which comes last, if and only if nothing is
    answered; a conflict resolution if and only if there was a conflict; and a
    decomposition if and only if the question was decomposed.
   */
  lemma ActionsMean(r: Result, decomposed: bool, canConflict: bool, limit: nat, round: nat -> Round, n: nat)
    requires ReportsVerdict(r, canConflict, limit, round, n) && ReportsActions(r, decomposed, canConflict, round, n) && n > 0
    ensures !r.answerable ==> r.actions != [] && r.actions[|r.actions| - 1] == Abstention
    ensures r.answerable ==> Abstention !in r.actions
    ensures ConflictResolution in r.actions <==>
      var last := round(n - 1);
      last.verdict == Conflict || (last.verdict == Sufficient && canConflict && last.resolution != NotApplicable)
    ensures QueryDecomposition in r.actions <==> decomposed
  {
    ReportMeans(r, canConflict, limit, round, n);
    CorrectionsMean(decomposed, round, n - 1);
    LastActionsMean(round(n - 1), canConflict);
    Combined(Corrections(decomposed, round, n - 1), LastActions(round(n - 1), canConflict), r.actions);
  }

  /** One correction for each iteration before the last, after the decomposition if there is one. */
  lemma CorrectionsComeFirst(r: Result, decomposed: bool, canConflict: bool, round: nat -> Round, n: nat)
    requires ReportsActions(r, decomposed, canConflict, round, n) && n > 0
    ensures (if decomposed then [QueryDecomposition] else []) + Steps(round, n - 1) <= r.actions
  {
  }

  lemma Combined(first: seq<Action>, last: seq<Action>, all: seq<Action>)
    requires all == first + last
    ensures Abstention in all <==> Abstention in first || Abstention in last
    ensures ConflictResolution in all <==> ConflictResolution in first || ConflictResolution in last
    ensures QueryDecomposition in all <==> QueryDecomposition in first || QueryDecomposition in last
    ensures last != [] ==> all != [] && all[|all| - 1] == last[|last| - 1]
  {
    JoinedActions(first, last, Abstention);
    JoinedActions(first, last, ConflictResolution);
    JoinedActions(first, last, QueryDecomposition);
  }

  lemma EarlyPath(clarify: bool)
    ensures var r := EarlyExit(clarify); FullPath(r.transitions) && !r.answerable && !r.verdict.Sufficient? && r.trace == []
  {
    var path := EarlyExit(clarify).transitions;
    assert path[1].to in Transitions(path[1].from);
  }

  method Iterate(l: Loop, ghost decomposed: bool, canConflict: bool, limit: nat, round: nat -> Round)
    returns (next: Loop, done: bool)
    requires GoesOn(l, decomposed, canConflict, limit, round)
    ensures next.n == l.n + 1
    ensures if done then Ended(next, decomposed, canConflict, limit, round) else GoesOn(next, decomposed, canConflict, limit, round)
  {
    OneMoreEntry(decomposed, round, canConflict, limit, l.n);
    var path := l.path + Retrieval(if l.n == 0 then AnalyzeQuery else RewriteQuery);
    var query, n := l.queries[l.n], l.n + 1;
    var checked, final, taken := ResolveConflicts(round(l.n), canConflict);
    if checked.Sufficient? || checked.Conflict? {
      var trace := l.trace + [Entry(n, query, checked, if checked.Sufficient? then NoAction else ConflictResolution)];
      return Loop(n, final, l.queries, l.actions + taken, trace, path), true;
    }
    if n >= limit {
      return Loop(n, final, l.queries, l.actions + [Abstention], l.trace + [Entry(n, query, checked, Abstention)], path), true;
    }
    var action := if checked.LowRelevance? then QueryRewrite else BroadenRetrieval;
    path := path + [Transition(EvaluateEvidence, RewriteQuery)];
    return Loop(n, final, l.queries + [Rewrite(n)], l.actions + [action], l.trace + [Entry(n, query, checked, action)], path), false;
  }

  method CorrectionLoop(decomposed: bool, canConflict: bool, limit: nat, round: nat -> Round) returns (l: Loop, evidence: seq<Chunk>)
    requires limit > 0
    ensures Ended(l, decomposed, canConflict, limit, round)
    ensures evidence == AfterRounds(ChunksOf(round, l.n))
  {
    l := Loop(0, Insufficient, [Question], if decomposed then [QueryDecomposition] else [], [], LoopPath(0));
    evidence := [];
    var done := false;
    while !done
      invariant if done then Ended(l, decomposed, canConflict, limit, round) else GoesOn(l, decomposed, canConflict, limit, round)
      invariant evidence == AfterRounds(ChunksOf(round, l.n))
      decreases if done then 0 else 1, limit - l.n
    {
      evidence := Accumulate(evidence, round, l.n);
      l, done := Iterate(l, decomposed, canConflict, limit, round);
    }
  }

  method Answer(analysis: Analysis, canConflict: bool, historical: bool, limit: nat, round: nat -> Round) returns (r: Result)
    ensures !analysis.Supported? ==> r == EarlyExit(analysis.NeedsClarification?)
    ensures !analysis.Supported? ==>
      && !r.answerable && r.generatedFrom == [] && r.retrieved == [] && r.iterations == 0
      && r.verdict == (if analysis == NeedsClarification then Ambiguous else OutOfScope)
      && r.actions == [if analysis == NeedsClarification then Clarification else Abstention]
    ensures analysis.Supported? ==> Reports(r, analysis.decomposed, canConflict, limit, round, |r.trace|)
    ensures analysis.Supported? ==> ReportsEvidence(r, historical, round, |r.trace|)
    // A policy conflict that is not resolved is never answered.
    ensures analysis.Supported? && r.trace != [] ==>
      var last := round(|r.trace| - 1);
      && (r.answerable <==>
            || (last.verdict == Sufficient && !(canConflict && last.resolution == Unresolved))
            || (last.verdict == Conflict && last.resolution == Resolved))
      && (last.verdict == Sufficient && canConflict && last.resolution == Unresolved ==>
            && r.verdict == Conflict && r.generatedFrom == []
            && r.trace[|r.trace| - 1].verdict == Conflict && r.trace[|r.trace| - 1].action == ConflictResolution)
      && (last.verdict == LowRelevance ==> r.verdict == Insufficient)
  {
    if !analysis.Supported? {
      return EarlyExit(analysis.NeedsClarification?);
    }
    var l, evidence := Loop(0, Insufficient, [Question], [], [], LoopPath(0)), [];
    if limit > 0 {
      l, evidence := CorrectionLoop(analysis.decomposed, canConflict, limit, round);
    }
    if l.final.Sufficient? {
      r := Generate(historical, l.queries, evidence, round(l.n - 1).supported, l.actions, l.trace, l.path);
    } else {
      r := Result(false, Told(l.final), |l.trace|, l.queries, evidence, [],
        if l.actions == [] then [Abstention] else l.actions, l.trace, l.path + Ending(false));
    }
    if r.trace != [] {
      AnswerMeans(r, canConflict, historical, limit, round, |r.trace|);
    }
  }

  lemma AnswerMeans(r: Result, canConflict: bool, historical: bool, limit: nat, round: nat -> Round, n: nat)
    requires ReportsVerdict(r, canConflict, limit, round, n) && ReportsTrace(r, canConflict, limit, round, n)
    requires !r.answerable ==> r.generatedFrom == []
    requires n > 0
    ensures |r.trace| == n
    ensures
      var last := round(n - 1);
      && (r.answerable <==>
            || (last.verdict == Sufficient && !(canConflict && last.resolution == Unresolved))
            || (last.verdict == Conflict && last.resolution == Resolved))
      && (last.verdict == Sufficient && canConflict && last.resolution == Unresolved ==>
            && r.verdict == Conflict && r.generatedFrom == []
            && r.trace[n - 1].verdict == Conflict && r.trace[n - 1].action == ConflictResolution)
      && (last.verdict == LowRelevance ==> r.verdict == Insufficient)
  {
    ReportMeans(r, canConflict, limit, round, n);
    TraceMeans(r, canConflict, limit, round, n);
  }

  /** The part of an iteration that looks for conflicts, and the actions it takes. */
  method ResolveConflicts(current: Round, canConflict: bool) returns (checked: Verdict, settled: Verdict, actions: seq<Action>)
    ensures checked == Checked(current, canConflict) && settled == Outcome(current, canConflict)
    ensures actions == if Settles(current, canConflict) then LastActions(current, canConflict) else []
  {
    checked := current.verdict;
    actions := [];
    if checked.Sufficient? && canConflict && !current.resolution.NotApplicable? {
      actions := [ConflictResolution];
      if !current.resolution.Resolved? {
        checked := Conflict;
      }
    }
    settled := checked;
    if checked.Conflict? {
      if current.resolution.Resolved? {
        settled := Sufficient;
        actions := actions + [ConflictResolution];
      } else {
        actions := actions + [ConflictResolution, Abstention];
      }
    }
  }

  method Generate(historical: bool, queries: seq<Query>, evidence: seq<Chunk>, supported: set<Key>,
                  actions: seq<Action>, trace: seq<Entry>, path: seq<Transition>) returns (r: Result)
    ensures r == Result(true, Sufficient, Max(|trace|, 1), queries, evidence,
                        Preferred(Relevant(evidence, supported), historical), actions, trace, path + Ending(true))
  {
    var transitions := path + [Transition(EvaluateEvidence, GenerateAnswer)];
    var chosen := PreferActiveVersions(Relevant(evidence, supported), historical);
    transitions := transitions + [Transition(GenerateAnswer, Complete)];
    r := Result(true, Sufficient, if |trace| == 0 then 1 else |trace|, queries, evidence, chosen, actions, trace, transitions);
  }
}
