/**
  From tool calls to jobs (business/durable_executor.py): idempotency keys and
  the decorator that submits one delivery job per distinct write.

  The hash and the JSON text of a canonical argument list are parameters: JSON
  texts of different lists differ, backslashes and bars occur in them only
  inside strings (`JsonText.ObjectIsQuoted`), digests have 24 characters, and
  the key lemmas speak of inputs whose digests do not collide.
 */
module DurableWrites {
  import opened Common
  import opened Delivery
  import opened Jobs
  import opened ObjectScanner

  const WRITE_TOOLS: set<string> := {
    "record_promise_to_pay", "schedule_callback", "record_payment_reported",
    "open_dispute", "record_financial_hardship", "request_human_escalation"}

  /** An argument dictionary in insertion order; values are JSON texts. */
  type Arguments = seq<(string, string)>

  ghost predicate DistinctNames(args: Arguments) {
    forall i, j :: 0 <= i < j < |args| ==> args[i].0 != args[j].0
  }

  /** The dictionary that the argument list spells out. */
  ghost predicate SameDictionary(a: Arguments, b: Arguments) {
    forall p: (string, string) :: p in a <==> p in b
  }

  // ----- Canonical order -----

  /** Code-point order of strings. */
  predicate Below(a: string, b: string) {
    b != "" && (a == "" || a[0] < b[0] || (a[0] == b[0] && Below(a[1..], b[1..])))
  }

  lemma {:induction false} BelowTotal(a: string, b: string)
    ensures a != b ==> Below(a, b) || Below(b, a)
    ensures !(Below(a, b) && Below(b, a)) && !Below(a, a)
  {
    if a != "" && b != "" && a[0] == b[0] {
      BelowTotal(a[1..], b[1..]);
      assert a == [a[0]] + a[1..] && b == [b[0]] + b[1..];
    }
    if a != "" {
      BelowTotal(a[1..], a[1..]);
    }
  }

  lemma {:induction false} BelowTransitive(a: string, b: string, c: string)
    requires Below(a, b) && Below(b, c)
    ensures Below(a, c)
  {
    if a != "" && a[0] == b[0] == c[0] {
      BelowTransitive(a[1..], b[1..], c[1..]);
    }
  }

  function Insert(p: (string, string), sorted: Arguments): Arguments {
    if sorted == [] || Below(p.0, sorted[0].0) then [p] + sorted else [sorted[0]] + Insert(p, sorted[1..])
  }

  /** `sort_keys=True`. */
  function SortByName(args: Arguments): Arguments {
    if args == [] then [] else Insert(args[0], SortByName(args[1..]))
  }

  ghost predicate Ascending(args: Arguments) {
    forall i, j :: 0 <= i < j < |args| ==> Below(args[i].0, args[j].0)
  }

  lemma {:induction false} InsertContents(p: (string, string), sorted: Arguments)
    ensures forall q :: q in Insert(p, sorted) <==> q == p || q in sorted
  {
    if sorted != [] && !Below(p.0, sorted[0].0) {
      InsertContents(p, sorted[1..]);
    }
  }

  lemma {:induction false} InsertAscending(p: (string, string), sorted: Arguments)
    requires Ascending(sorted) && forall q :: q in sorted ==> q.0 != p.0
    ensures Ascending(Insert(p, sorted))
  {
    if sorted == [] {
    } else if Below(p.0, sorted[0].0) {
      forall j | 0 <= j < |sorted| ensures Below(p.0, sorted[j].0) {
        if j > 0 {
          BelowTransitive(p.0, sorted[0].0, sorted[j].0);
        }
      }
    } else {
      InsertAscending(p, sorted[1..]);
      InsertContents(p, sorted[1..]);
      BelowTotal(p.0, sorted[0].0);
      var rest := Insert(p, sorted[1..]);
      forall j | 0 <= j < |rest| ensures Below(sorted[0].0, rest[j].0) {
        assert rest[j] in rest;
      }
    }
  }

  lemma {:induction false} SortCorrect(args: Arguments)
    requires DistinctNames(args)
    ensures Ascending(SortByName(args)) && SameDictionary(args, SortByName(args))
  {
    if args != [] {
      SortCorrect(args[1..]);
      InsertContents(args[0], SortByName(args[1..]));
      InsertAscending(args[0], SortByName(args[1..]));
    }
  }

  lemma {:induction false} AscendingUnique(a: Arguments, b: Arguments)
    requires Ascending(a) && Ascending(b) && SameDictionary(a, b)
    ensures a == b
  {
    assert b != [] ==> b[0] in b;
    if a != [] {
      assert a[0] in b;
      FirstAgrees(a, b);
      forall p: (string, string) ensures p in a[1..] <==> p in b[1..] {
        RestContents(a, p);
        RestContents(b, p);
      }
      AscendingUnique(a[1..], b[1..]);
      assert a == [a[0]] + a[1..] && b == [b[0]] + b[1..];
    }
  }

  lemma FirstAgrees(a: Arguments, b: Arguments)
    requires Ascending(a) && Ascending(b) && SameDictionary(a, b) && a != [] && b != []
    ensures a[0] == b[0]
  {
    assert a[0] in b && b[0] in a;
    var i :| 0 <= i < |b| && b[i] == a[0];
    var j :| 0 <= j < |a| && a[j] == b[0];
    if i > 0 && j > 0 {
      BelowTotal(a[0].0, b[0].0);
      assert false;
    }
  }

  lemma RestContents(a: Arguments, p: (string, string))
    requires Ascending(a) && a != []
    ensures p in a[1..] <==> p in a && p != a[0]
  {
    if p in a[1..] {
      var i :| 1 <= i < |a| && a[i] == p;
      BelowTotal(p.0, p.0);
    }
  }

  /** Two argument lists have the same canonical form exactly when they are the same dictionary. */
  lemma CanonicalIff(a: Arguments, b: Arguments)
    requires DistinctNames(a) && DistinctNames(b)
    ensures SortByName(a) == SortByName(b) <==> SameDictionary(a, b)
  {
    SortCorrect(a);
    SortCorrect(b);
    if SameDictionary(a, b) {
      assert SameDictionary(SortByName(a), SortByName(b));
      AscendingUnique(SortByName(a), SortByName(b));
    }
  }

  // ----- Idempotency keys -----

  datatype Codec = Codec(hash: string -> string, json: Arguments -> string)

  ghost predicate WellBehaved(c: Codec) {
    && (forall x :: |c.hash(x)| == 24)
    && (forall a, b :: c.json(a) == c.json(b) ==> a == b)
    && (forall a :: BarsQuoted(START, c.json(a)) && !FeedAll(START, c.json(a)).inString)
  }

  function HashInput(c: Codec, scope: string, customer: string, tool: string, args: Arguments): string {
    scope + "|" + (customer + "|" + (tool + "|" + c.json(SortByName(args))))
  }

  function KeyFor(c: Codec, scope: string, customer: string, tool: string, args: Arguments): string {
    "bw-" + tool + "-" + c.hash(HashInput(c, scope, customer, tool, args))
  }

  /** `p` ends inside a string of the text `p + t`, so `t` is no text of its own: its quotes would be the wrong way round. */
  lemma NoTextInsideText(p: string, t: string)
    requires p != "" && p[|p| - 1] == '|'
    requires BarsQuoted(START, p + t) && !FeedAll(START, p + t).inString
    ensures BarsQuoted(START, t) ==> FeedAll(START, t).inString
  {
    var n := |p| - 1;
    FeedConcat(START, p, t);
    BarsQuotedSplit(START, p, t);
    assert p == p[..n] + ['|'];
    FeedSnoc(START, p[..n], '|');
    BarsQuotedSplit(START, p[..n], ['|']);
    if BarsQuoted(START, t) {
      OppositeQuotes(FeedAll(START, p), START, t);
    }
  }

  lemma {:induction false} OppositeQuotes(s: Scan, s': Scan, t: string)
    requires s.inString == !s'.inString && !s.escaped && !s'.escaped
    requires BarsQuoted(s, t) && BarsQuoted(s', t)
    ensures FeedAll(s, t).inString == !FeedAll(s', t).inString
    decreases |t|
  {
    if t != "" {
      OppositeQuotes(Feed(s, t[0]), Feed(s', t[0]), t[1..]);
    }
  }

  /** The last of three parts joined by bars is at the end of the whole. */
  lemma LastPart(x: string, tool: string, json: string)
    ensures var w := x + "|" + (tool + "|" + json);
      |w| == |x| + |tool| + |json| + 2 && w[|w| - |json|..] == json && w[|w| - |json| - 1] == '|'
  {
    assert x + "|" + (tool + "|" + json) == (x + "|" + tool + "|") + json;
  }

  lemma ShorterCustomer(c: Codec, x: string, y: string, tool: string, args: Arguments, args': Arguments)
    requires WellBehaved(c) && |x| < |y|
    ensures x + "|" + (tool + "|" + c.json(args)) != y + "|" + (tool + "|" + c.json(args'))
  {
    var j, j' := c.json(args), c.json(args');
    var w, w' := x + "|" + (tool + "|" + j), y + "|" + (tool + "|" + j');
    if w == w' {
      LastPart(x, tool, j);
      LastPart(y, tool, j');
      var p := j[..|j| - |j'|];
      assert j == w[|w| - |j|..] && j' == w[|w| - |j'|..];
      assert j == p + j';
      assert p[|p| - 1] == w[|w| - |j'| - 1];
      NoTextInsideText(p, j');
    }
  }

  /** Whatever bars the customer ids contain: within one scope the hashed text tells customer and arguments. */
  lemma OneScope(c: Codec, scope: string, x: string, y: string, tool: string, args: Arguments, args': Arguments)
    requires WellBehaved(c)
    requires HashInput(c, scope, x, tool, args) == HashInput(c, scope, y, tool, args')
    ensures x == y && SortByName(args) == SortByName(args')
  {
    var w := x + "|" + (tool + "|" + c.json(SortByName(args)));
    var w' := y + "|" + (tool + "|" + c.json(SortByName(args')));
    DropScope(scope, w, w');
    if |x| < |y| {
      ShorterCustomer(c, x, y, tool, SortByName(args), SortByName(args'));
    } else if |y| < |x| {
      ShorterCustomer(c, y, x, tool, SortByName(args'), SortByName(args));
    } else {
      assert x == w[..|x|] == w'[..|y|] == y;
      LastPart(x, tool, c.json(SortByName(args)));
      LastPart(y, tool, c.json(SortByName(args')));
    }
  }

  lemma DropScope(scope: string, w: string, w': string)
    requires scope + "|" + w == scope + "|" + w'
    ensures w == w'
  {
    assert w == (scope + "|" + w)[|scope| + 1..];
    assert w' == (scope + "|" + w')[|scope| + 1..];
  }

  /** No scope continues the other one after a bar. */
  predicate Separate(a: string, b: string) {
    !(a + "|" <= b) && !(b + "|" <= a)
  }

  lemma EqualBars(a: string, x: string, b: string, y: string)
    requires a + "|" + x == b + "|" + y
    ensures a == b || !Separate(a, b)
  {
    var s := a + "|" + x;
    assert a + "|" == s[..|a| + 1] && b + "|" == s[..|b| + 1];
    if |a| < |b| {
      assert b == s[..|b|];
      assert a + "|" == b[..|a| + 1];
    } else if |b| < |a| {
      assert a == s[..|a|];
      assert b + "|" == a[..|b| + 1];
    } else {
      assert a == s[..|a|] == b;
    }
  }

  /**
    Barring a digest collision, and for scopes that stay separate, two write
    calls share a key exactly when they are the same write, whatever characters
    scopes, customer ids and tools contain.
   */
  lemma KeyIff(c: Codec, scope: string, customer: string, tool: string, args: Arguments,
               scope': string, customer': string, tool': string, args': Arguments)
    requires WellBehaved(c) && DistinctNames(args) && DistinctNames(args')
    requires Separate(scope, scope')
    requires var x, x' := HashInput(c, scope, customer, tool, args), HashInput(c, scope', customer', tool', args');
      c.hash(x) == c.hash(x') ==> x == x'
    ensures KeyFor(c, scope, customer, tool, args) == KeyFor(c, scope', customer', tool', args') <==>
      scope == scope' && customer == customer' && tool == tool' && SameDictionary(args, args')
  {
    CanonicalIff(args, args');
    if KeyFor(c, scope, customer, tool, args) == KeyFor(c, scope', customer', tool', args') {
      SameTool(c, scope, customer, tool, args, scope', customer', tool', args');
      if scope != scope' {
        EqualBars(scope, customer + "|" + (tool + "|" + c.json(SortByName(args))),
                  scope', customer' + "|" + (tool' + "|" + c.json(SortByName(args'))));
      }
      OneScope(c, scope, customer, customer', tool, args, args');
    }
  }

  /** The key shows the tool and, at the end, the digest. */
  lemma SameTool(c: Codec, scope: string, customer: string, tool: string, args: Arguments,
                 scope': string, customer': string, tool': string, args': Arguments)
    requires WellBehaved(c)
    requires KeyFor(c, scope, customer, tool, args) == KeyFor(c, scope', customer', tool', args')
    ensures tool == tool'
    ensures c.hash(HashInput(c, scope, customer, tool, args)) == c.hash(HashInput(c, scope', customer', tool', args'))
  {
    var h, h' := c.hash(HashInput(c, scope, customer, tool, args)), c.hash(HashInput(c, scope', customer', tool', args'));
    var k, k' := "bw-" + tool + "-" + h, "bw-" + tool' + "-" + h';
    assert |tool| == |tool'|;
    assert tool == k[3..3 + |tool|] == k'[3..3 + |tool'|] == tool';
    assert h == k[|k| - 24..] && h' == k'[|k'| - 24..];
  }

  /** Some customers of the two scopes share the hashed text, and so the key, for some write of each. */
  ghost predicate CanMerge(c: Codec, a: string, b: string) {
    exists x, y, tool, tool', args, args' :: HashInput(c, a, x, tool, args) == HashInput(c, b, y, tool', args')
  }

  /**
    Two scopes can merge customers if and only if one of them continues the
    other after a bar; then every customer of the longer one shares the keys of
    all writes with a customer of the shorter one.
   */
  lemma ScopesMergeIff(c: Codec, a: string, b: string)
    requires a != b
    ensures CanMerge(c, a, b) <==> !Separate(a, b)
  {
    if a + "|" <= b {
      assert b == a + "|" + b[|a| + 1..];
      BarMergesIds(c, a, b[|a| + 1..], "", "", []);
    } else if b + "|" <= a {
      assert a == b + "|" + a[|b| + 1..];
      BarMergesIds(c, b, a[|b| + 1..], "", "", []);
    }
    if x, y, tool, tool', args, args' :| HashInput(c, a, x, tool, args) == HashInput(c, b, y, tool', args') {
      EqualBars(a, x + "|" + (tool + "|" + c.json(SortByName(args))),
                b, y + "|" + (tool' + "|" + c.json(SortByName(args'))));
    }
  }

  /** A bar that ends one scope inside another: customer "8" of scope "app|7" has the keys of customer "7|8" of scope "app". */
  lemma BarMergesIds(c: Codec, scope: string, rest: string, customer: string, tool: string, args: Arguments)
    ensures HashInput(c, scope, rest + "|" + customer, tool, args) == HashInput(c, scope + "|" + rest, customer, tool, args)
    ensures KeyFor(c, scope, rest + "|" + customer, tool, args) == KeyFor(c, scope + "|" + rest, customer, tool, args)
  {
    var w := tool + "|" + c.json(SortByName(args));
    assert scope + "|" + (rest + "|" + customer + "|" + w) == scope + "|" + rest + "|" + (customer + "|" + w);
  }

  // ----- The executor -----

  datatype Receipt = Receipt(job: JobId, status: Status, key: string, deduplicated: bool)

  class DurableWriteExecutor {
    const store: JobStore
    const scope: string
    const codec: Codec

    constructor (store: JobStore, scope: string, codec: Codec)
      ensures this.store == store && this.scope == scope && this.codec == codec
    {
      this.store, this.scope, this.codec := store, scope, codec;
    }

    /** `succeeded` is what the inner executor reported; `newId` is the uuid a new job would get. */
    method Execute(tool: string, args: Arguments, customer: string, succeeded: bool, newId: JobId, now: real)
      returns (receipt: Option<Receipt>)
      requires newId !in store.jobs
      modifies store
      ensures receipt.Some? <==> tool in WRITE_TOOLS && succeeded
      ensures receipt.None? ==> store.Contents() == old(store.Contents())
      ensures receipt.Some? ==>
        var r, key := receipt.value, KeyFor(codec, scope, customer, tool, args);
        && store.Contents() == Apply(old(store.Contents()),
             OpSubmit(newId, key, "business_write", store.policy.EffectiveMax(None), now))
        && r.key == key && r.deduplicated == HasKey(old(store.jobs), key)
        && r.job in store.jobs && store.jobs[r.job].key == key && r.status == store.jobs[r.job].status
    {
      if tool !in WRITE_TOOLS || !succeeded {
        return None;
      }
      var key := KeyFor(codec, scope, customer, tool, args);
      var id, created := store.Submit(newId, key, "business_write", None, now);
      receipt := Some(Receipt(id, store.jobs[id].status, key, !created));
    }
  }

  // ----- End to end -----

  /** A tool call, or a step of anything that submits nothing. */
  datatype Step =
    | Call(tool: string, args: Arguments, customer: string, succeeded: bool, newId: JobId, now: real)
    | Other(action: Action)

  datatype Deployment = Deployment(codec: Codec, scope: string, maxAttempts: int)

  predicate Writes(step: Step) {
    step.Call? && step.tool in WRITE_TOOLS && step.succeeded
  }

  function CallKey(d: Deployment, step: Step): string
    requires Writes(step)
  {
    KeyFor(d.codec, d.scope, step.customer, step.tool, step.args)
  }

  /** The protocol actions that a sequence of steps performs. */
  function ActionsOf(d: Deployment, steps: seq<Step>): seq<Action> {
    if steps == [] then []
    else
      var first := steps[0];
      (if first.Other? then [first.action]
       else if Writes(first) then
         [Submit(first.newId, CallKey(d, first), "business_write", d.maxAttempts, first.now)]
       else [])
      + ActionsOf(d, steps[1..])
  }

  /** The keys of the successful write calls. */
  function CallKeys(d: Deployment, steps: seq<Step>): set<string> {
    set i | 0 <= i < |steps| && Writes(steps[i]) :: CallKey(d, steps[i])
  }

  lemma {:induction false} SubmittedKeys(d: Deployment, steps: seq<Step>, s: System)
    requires CanRunAll(s, ActionsOf(d, steps))
    requires forall i :: 0 <= i < |steps| && steps[i].Other? ==> !steps[i].action.Submit?
    ensures RunAll(s, ActionsOf(d, steps)).submitted == s.submitted + CallKeys(d, steps)
    decreases |steps|
  {
    if steps == [] {
    } else {
      var first, rest := steps[0], steps[1..];
      var actions := ActionsOf(d, steps);
      CallKeysCons(d, steps);
      if first.Other? || Writes(first) {
        assert actions[1..] == ActionsOf(d, rest);
        SubmittedKeys(d, rest, Do(s, actions[0]));
      } else {
        assert actions == ActionsOf(d, rest);
        SubmittedKeys(d, rest, s);
      }
    }
  }

  lemma CallKeysCons(d: Deployment, steps: seq<Step>)
    requires steps != []
    ensures CallKeys(d, steps) == CallKeys(d, steps[1..]) + if Writes(steps[0]) then {CallKey(d, steps[0])} else {}
  {
    var rest := steps[1..];
    forall i | 1 <= i < |steps| && Writes(steps[i]) ensures CallKey(d, steps[i]) in CallKeys(d, rest) {
      assert rest[i - 1] == steps[i];
    }
    forall i | 0 <= i < |rest| && Writes(rest[i]) ensures CallKey(d, rest[i]) in CallKeys(d, steps) {
      assert steps[i + 1] == rest[i];
    }
  }

  /**
    For every sequence of tool calls, interleaved with any steps of workers and
    operators, there are exactly as many jobs as distinct keys among the
    successful write calls, and no key is delivered twice.
   */
  lemma OneJobPerWrite(d: Deployment, steps: seq<Step>, s: System)
    requires Initial(s) && CanRunAll(s, ActionsOf(d, steps))
    requires forall i :: 0 <= i < |steps| && steps[i].Other? ==> !steps[i].action.Submit?
    ensures
      var s' := RunAll(s, ActionsOf(d, steps));
      && |s'.db.jobs| == |CallKeys(d, steps)|
      && (forall k :: k in CallKeys(d, steps) <==> HasKey(s'.db.jobs, k))
      && (forall i, j :: 0 <= i < j < |s'.log| ==>
            && s'.log[i].job in s'.db.jobs && s'.log[j].job in s'.db.jobs
            && s'.db.jobs[s'.log[i].job].key != s'.db.jobs[s'.log[j].job].key)
  {
    var actions := ActionsOf(d, steps);
    var s' := RunAll(s, actions);
    SubmittedKeys(d, steps, s);
    JobsAreDistinctKeys(s, actions);
    SubmissionRun(s, actions);
    InitialInv(s);
    EffectRun(s, actions);
    forall i, j | 0 <= i < j < |s'.log|
      ensures s'.log[i].job in s'.db.jobs && s'.log[j].job in s'.db.jobs
      ensures s'.db.jobs[s'.log[i].job].key != s'.db.jobs[s'.log[j].job].key
    {
      AtMostOnce(s, actions, i, j);
    }
  }
}
