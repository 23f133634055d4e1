/**
  Endpointing of user turns (voice/turn_manager.py): two restartable timers,
  stale-timer guards, and the accumulation of transcript segments.

  Time is in milliseconds. A timer is the deadline of its sleep; it may fire at
  any moment from its deadline on, since the event loop may be late.
 */
module TurnManagement {
  import opened Common
  import opened Text

  datatype Config = Config(endpointSilence: nat, asrSettle: nat)

  datatype Phase = Listening | Endpointing

  datatype TurnResult = TurnResult(turnId: nat, transcript: string)

  /** The settle timer remembers the turn and the number of segments it was started for. */
  datatype Settle = Settle(deadline: int, turnId: nat, version: nat)

  datatype Turns = Turns(
    config: Config,
    phase: Phase,
    turnId: nat,
    segments: seq<string>,
    partial: string,
    speechActive: bool,
    endpoint: Option<int>,
    settle: Option<Settle>,
    silenceComplete: bool,
    version: nat,
    delivered: seq<TurnResult>)

  // ----- Events -----

  datatype Event =
    | SpeechStart
    | SpeechEnd
    | PartialText(text: string)
    | FinalText(text: string)
    | SetConfig(config: Config)
    | EndpointFires
    | SettleFires

  function Start(config: Config): Turns {
    Turns(config, Listening, 0, [], "", false, None, None, false, 0, [])
  }

  predicate Enabled(s: Turns, e: Event, now: int) {
    && (e.EndpointFires? ==> s.endpoint.Some? && s.endpoint.value <= now)
    && (e.SettleFires? ==> s.settle.Some? && s.settle.value.deadline <= now)
  }

  function RestartSettle(s: Turns, now: int): Turns {
    s.(settle := Some(Settle(now + s.config.asrSettle, s.turnId, s.version)))
  }

  /** Text that arrives after the silence timeout restarts the settle timer. */
  function TextArrived(s: Turns, now: int): Turns {
    if s.phase == Endpointing && s.silenceComplete then RestartSettle(s, now) else s
  }

  /** The stripped segments, without the empty ones. */
  function StripEach(segments: seq<string>): seq<string> {
    if segments == [] then []
    else (if Strip(segments[0]) == "" then [] else [Strip(segments[0])]) + StripEach(segments[1..])
  }

  function BuildTranscript(segments: seq<string>, partial: string): string {
    var finalText := Strip(Join(StripEach(segments)));
    var partialText := Strip(partial);
    if finalText != "" && partialText != "" then
      if finalText <= partialText then partialText else Strip(finalText + " " + partialText)
    else if finalText != "" then finalText
    else partialText
  }

  function Reset(s: Turns): Turns {
    Turns(s.config, Listening, s.turnId + 1, [], "", false, None, None, false, 0, s.delivered)
  }

  function Finalize(s: Turns): Turns {
    var transcript := BuildTranscript(s.segments, s.partial);
    Reset(if transcript == "" then s else s.(delivered := s.delivered + [TurnResult(s.turnId, transcript)]))
  }

  function Handle(s: Turns, e: Event, now: int): Turns {
    match e
    case SpeechStart =>
      s.(speechActive := true, phase := Listening, silenceComplete := false, endpoint := None, settle := None)
    case SpeechEnd =>
      s.(speechActive := false, phase := Endpointing, silenceComplete := false,
         endpoint := Some(now + s.config.endpointSilence))
    case PartialText(text) =>
      if Strip(text) == "" then s else TextArrived(s.(partial := Strip(text)), now)
    case FinalText(text) =>
      if Strip(text) == "" then s
      else TextArrived(s.(segments := s.segments + [Strip(text)], partial := "", version := s.version + 1), now)
    case SetConfig(config) =>
      if s.phase == Endpointing && !s.speechActive && !s.silenceComplete
      then s.(config := config, endpoint := Some(now + config.endpointSilence))
      else s.(config := config)
    case EndpointFires =>
      if s.speechActive then s.(endpoint := None)
      else RestartSettle(s.(endpoint := None, silenceComplete := true), now)
    case SettleFires =>
      if s.settle.None? then s
      else if s.speechActive || s.settle.value.turnId != s.turnId || s.settle.value.version != s.version
      then s.(settle := None)
      else Finalize(s)
  }

  // ----- The manager -----

  class TurnManager {
    var config: Config
    var phase: Phase
    var turnId: nat
    var segments: seq<string>
    var partial: string
    var speechActive: bool
    var endpoint: Option<int>
    var settle: Option<Settle>
    var silenceComplete: bool
    var version: nat
    var delivered: seq<TurnResult>  // the calls of the turn callback

    ghost function State(): Turns reads this {
      Turns(config, phase, turnId, segments, partial, speechActive, endpoint, settle, silenceComplete, version, delivered)
    }

    constructor (config: Config)
      ensures State() == Start(config)
    {
      this.config, phase, turnId, segments, partial := config, Listening, 0, [], "";
      speechActive, endpoint, settle, silenceComplete, version := false, None, None, false, 0;
      delivered := [];
    }

    method SetConfig(config: Config, now: int)
      modifies this
      ensures State() == Handle(old(State()), Event.SetConfig(config), now)
      ensures this.config == config && settle == old(settle)
      ensures endpoint ==
        if phase == Endpointing && !speechActive && !silenceComplete then Some(now + config.endpointSilence) else old(endpoint)
    {
      this.config := config;
      if phase == Endpointing && !speechActive && !silenceComplete {
        StartEndpointTimer(now);
      }
    }

    method OnSpeechStart(now: int)
      modifies this
      ensures State() == Handle(old(State()), SpeechStart, now)
      ensures speechActive && endpoint == None && settle == None
    {
      speechActive := true;
      phase := Listening;
      silenceComplete := false;
      endpoint := None;
      settle := None;
    }

    method OnSpeechEnd(now: int)
      modifies this
      ensures State() == Handle(old(State()), SpeechEnd, now)
      ensures !speechActive && endpoint == Some(now + config.endpointSilence)
    {
      speechActive := false;
      phase := Endpointing;
      silenceComplete := false;
      StartEndpointTimer(now);
    }

    method OnPartialTranscript(text: string, now: int)
      modifies this
      ensures State() == Handle(old(State()), PartialText(text), now)
      ensures segments == old(segments) && partial == if Strip(text) == "" then old(partial) else Strip(text)
    {
      var transcript := Strip(text);
      if transcript == "" {
        return;
      }
      partial := transcript;
      if phase == Endpointing && silenceComplete {
        RestartAsrSettleTimer(now);
      }
    }

    method OnFinalTranscript(text: string, now: int)
      modifies this
      ensures State() == Handle(old(State()), FinalText(text), now)
      ensures Strip(text) != "" ==> segments == old(segments) + [Strip(text)] && partial == ""
    {
      var transcript := Strip(text);
      if transcript == "" {
        return;
      }
      segments := segments + [transcript];
      partial := "";
      version := version + 1;
      if phase == Endpointing && silenceComplete {
        RestartAsrSettleTimer(now);
      }
    }

    method StartEndpointTimer(now: int)
      modifies this`endpoint
      ensures endpoint == Some(now + config.endpointSilence)
    {
      endpoint := None;
      endpoint := Some(now + config.endpointSilence);
    }

    method RestartAsrSettleTimer(now: int)
      modifies this`settle
      ensures settle == Some(Settle(now + config.asrSettle, turnId, version))
    {
      settle := None;
      settle := Some(Settle(now + config.asrSettle, turnId, version));
    }

    /** The rest of the endpoint timer's body, after its sleep. */
    method EndpointAfterSilence(now: int)
      requires Enabled(State(), EndpointFires, now)
      modifies this
      ensures State() == Handle(old(State()), EndpointFires, now)
    {
      endpoint := None;
      if speechActive {
        return;
      }
      silenceComplete := true;
      RestartAsrSettleTimer(now);
    }

    /** The rest of the settle timer's body, after its sleep. */
    method AsrSettled(now: int)
      requires Enabled(State(), SettleFires, now)
      modifies this
      ensures State() == Handle(old(State()), SettleFires, now)
    {
      var expected := settle.value;
      settle := None;
      if speechActive || expected.turnId != turnId || expected.version != version {
        return;
      }
      FinalizeTurn();
    }

    method FinalizeTurn()
      modifies this
      ensures State() == Finalize(old(State()))
      ensures Clean(old(segments)) && Trim(old(partial)) ==>
        && (old(segments) == [] && old(partial) == "" ==> delivered == old(delivered))
        && (old(segments) != [] || old(partial) != "" ==>
              && |delivered| == |old(delivered)| + 1 && delivered[..|old(delivered)|] == old(delivered)
              && delivered[|old(delivered)|].turnId == old(turnId)
              && Transcribes(delivered[|old(delivered)|].transcript, old(segments), old(partial)))
    {
      if Clean(segments) && Trim(partial) {
        TranscriptIs(segments, partial);
      }
      var transcript := BuildTranscript(segments, partial);
      if transcript != "" {
        delivered := delivered + [TurnResult(turnId, transcript)];
      }
      ResetForNextTurn();
    }

    method ResetForNextTurn()
      modifies this
      ensures State() == Reset(old(State()))
    {
      endpoint, settle := None, None;
      turnId := turnId + 1;
      segments, partial := [], "";
      speechActive, phase := false, Listening;
      silenceComplete, version := false, 0;
    }
  }

  // ----- Runs -----

  /**
    A state with its history: every non-empty final segment fed so far, the last
    partial text that no final segment and no delivery has followed, and the
    segments and the partial text of each delivered turn.
   */
  datatype Run = Run(
    turns: Turns,
    fed: seq<string>,
    pending: string,
    spent: seq<seq<string>>,
    partials: seq<string>,
    clock: int,
    lastEnd: int,    // time of the last speech end
    lastLate: int)   // time of the last text after the silence timeout, since the last speech end

  ghost predicate CanStep(r: Run, e: Event, now: int) {
    r.clock <= now && Enabled(r.turns, e, now)
  }

  /** A turn is delivered at this step. */
  predicate Delivers(r: Run, e: Event, now: int) {
    |Handle(r.turns, e, now).delivered| > |r.turns.delivered|
  }

  function Step(r: Run, e: Event, now: int): Run {
    var s, s' := r.turns, Handle(r.turns, e, now);
    Run(s',
        if e.FinalText? && Strip(e.text) != "" then r.fed + [Strip(e.text)] else r.fed,
        if e.PartialText? && Strip(e.text) != "" then Strip(e.text)
        else if (e.FinalText? && Strip(e.text) != "") || |s'.delivered| > |s.delivered| then ""
        else r.pending,
        if |s'.delivered| > |s.delivered| then r.spent + [s.segments] else r.spent,
        if |s'.delivered| > |s.delivered| then r.partials + [r.pending] else r.partials,
        now,
        if e.SpeechEnd? then now else r.lastEnd,
        if e.SpeechEnd? then now
        else if (e.PartialText? || e.FinalText?) && Strip(e.text) != "" && s.silenceComplete then now
        else r.lastLate)
  }

  function Flatten(spent: seq<seq<string>>): seq<string> {
    if spent == [] then [] else Flatten(spent[..|spent| - 1]) + spent[|spent| - 1]
  }

  ghost predicate CanRun(r: Run, events: seq<(Event, int)>)
    decreases |events|
  {
    events == [] ||
    (CanStep(r, events[0].0, events[0].1) && CanRun(Step(r, events[0].0, events[0].1), events[1..]))
  }

  function After(r: Run, events: seq<(Event, int)>): Run
    decreases |events|
  {
    if events == [] then r else After(Step(r, events[0].0, events[0].1), events[1..])
  }

  function Begin(config: Config, now: int): Run {
    Run(Start(config), [], "", [], [], now, now, now)
  }

  // ----- No text is lost -----

  ghost predicate Clean(texts: seq<string>) {
    forall i :: 0 <= i < |texts| ==> texts[i] != "" && Trim(texts[i])
  }

  ghost predicate Conserved(r: Run) {
    Pending(r) && Turned(r.turns.delivered, r.spent, r.partials, r.turns.turnId)
  }

  /** The text not yet delivered. */
  ghost predicate Pending(r: Run) {
    var s := r.turns;
    && r.fed == Flatten(r.spent) + s.segments
    && s.version == |s.segments|
    && s.partial == r.pending
    && Tidy(s)
  }

  /** The stored texts are stripped, and no segment is empty. */
  ghost predicate Tidy(s: Turns) {
    Clean(s.segments) && Trim(s.partial)
  }

  /** Each delivered turn is the transcript of its segments and its pending partial; the ids rise, all below the next one. */
  ghost predicate Turned(delivered: seq<TurnResult>, spent: seq<seq<string>>, partials: seq<string>, turnId: nat) {
    && |spent| == |partials| == |delivered|
    && (forall i :: 0 <= i < |delivered| ==>
          delivered[i].turnId < turnId && Transcribes(delivered[i].transcript, spent[i], partials[i]))
    && (forall i, j :: 0 <= i < j < |delivered| ==> delivered[i].turnId < delivered[j].turnId)
  }

  lemma TurnedMore(
    delivered: seq<TurnResult>, spent: seq<seq<string>>, partials: seq<string>,
    turnId: nat, text: string, segments: seq<string>, partial: string)
    requires Turned(delivered, spent, partials, turnId) && Transcribes(text, segments, partial)
    ensures Turned(delivered + [TurnResult(turnId, text)], spent + [segments], partials + [partial], turnId + 1)
  {
    var delivered', spent', partials' := delivered + [TurnResult(turnId, text)], spent + [segments], partials + [partial];
    forall i | 0 <= i < |delivered'|
      ensures delivered'[i].turnId < turnId + 1 && Transcribes(delivered'[i].transcript, spent'[i], partials'[i])
    {
      if i < |delivered| {
        assert delivered'[i] == delivered[i] && spent'[i] == spent[i] && partials'[i] == partials[i];
      } else {
        assert delivered'[i] == TurnResult(turnId, text) && spent'[i] == segments && partials'[i] == partial;
      }
    }
  }

  lemma {:induction false} StripEachClean(segments: seq<string>)
    requires Clean(segments)
    ensures StripEach(segments) == segments
  {
    if segments != [] {
      StripTrims(segments[0]);
      StripEachClean(segments[1..]);
      assert segments == [segments[0]] + segments[1..];
    }
  }

  predicate EndsWith(text: string, end: string) {
    |end| <= |text| && text[|text| - |end|..] == end
  }

  /** The text is not empty and is exactly the segments and the pending partial, which may already contain them. */
  ghost predicate Transcribes(text: string, segments: seq<string>, partial: string) {
    && text != ""
    && text == (if segments == [] then partial
                else if partial == "" then Join(segments)
                else if Join(segments) <= partial then partial
                else Join(segments) + " " + partial)
    && Join(segments) <= text && EndsWith(text, partial)
  }

  /** What a transcript is: nothing that was said is missing from it, and nothing else is in it. */
  lemma TranscriptIs(segments: seq<string>, partial: string)
    requires Clean(segments) && Trim(partial)
    ensures var text := BuildTranscript(segments, partial);
      && (segments == [] ==> text == partial)
      && (partial == "" ==> text == Join(segments))
      && (segments != [] && partial != "" && Join(segments) <= partial ==> text == partial)
      && (segments != [] && partial != "" && !(Join(segments) <= partial) ==> text == Join(segments) + " " + partial)
      && (text == "" <==> segments == [] && partial == "")
      && Join(segments) <= text && |partial| <= |text| && text[|text| - |partial|..] == partial
      && (text != "" ==> Transcribes(text, segments, partial))
  {
    JoinTrims(segments);
    StripEachClean(segments);
    StripTrims(Join(segments));
    StripTrims(partial);
    StripTrims(Join(segments) + " " + partial);
  }

  lemma SomethingToDeliver(segments: seq<string>, partial: string)
    requires Clean(segments) && Trim(partial)
    ensures BuildTranscript(segments, partial) == "" <==> segments == [] && partial == ""
  {
    TranscriptIs(segments, partial);
  }

  lemma FinalTextConserves(r: Run, text: string, now: int)
    requires Conserved(r)
    ensures Conserved(Step(r, FinalText(text), now))
  {
    StripTrims(text);
    var s, s' := r.turns, Step(r, FinalText(text), now).turns;
    if Strip(text) != "" {
      assert s'.segments == s.segments + [Strip(text)];
      assert r.fed + [Strip(text)] == Flatten(r.spent) + s'.segments;
    }
  }

  lemma TranscribesText(segments: seq<string>, partial: string)
    requires Clean(segments) && Trim(partial) && BuildTranscript(segments, partial) != ""
    ensures Transcribes(BuildTranscript(segments, partial), segments, partial)
  {
    TranscriptIs(segments, partial);
  }

  lemma DeliveredStep(r: Run, now: int) returns (text: string)
    requires Tidy(r.turns) && Delivers(r, SettleFires, now)
    ensures Transcribes(text, r.turns.segments, r.turns.partial)
    ensures Step(r, SettleFires, now) == Run(
      Reset(r.turns.(delivered := r.turns.delivered + [TurnResult(r.turns.turnId, text)])),
      r.fed, "", r.spent + [r.turns.segments], r.partials + [r.pending], now, r.lastEnd, r.lastLate)
  {
    text := BuildTranscript(r.turns.segments, r.turns.partial);
    if text != "" {
      TranscribesText(r.turns.segments, r.turns.partial);
    }
  }

  lemma FlattenMore(spent: seq<seq<string>>, segments: seq<string>)
    ensures Flatten(spent + [segments]) == Flatten(spent) + segments
  {
    assert (spent + [segments])[..|spent|] == spent;
  }

  lemma NothingPending(r: Run, r': Run)
    requires Pending(r) && r'.fed == r.fed && r'.spent == r.spent + [r.turns.segments]
    requires r'.pending == r'.turns.partial == "" && r'.turns.segments == [] && r'.turns.version == 0
    ensures Pending(r')
  {
    FlattenMore(r.spent, r.turns.segments);
    assert Flatten(r'.spent) + [] == r.fed;
  }

  lemma DeliveryConserves(r: Run, now: int)
    requires Conserved(r) && Delivers(r, SettleFires, now)
    ensures Conserved(Step(r, SettleFires, now))
  {
    var text := DeliveredStep(r, now);
    TurnedMore(r.turns.delivered, r.spent, r.partials, r.turns.turnId, text, r.turns.segments, r.pending);
    NothingPending(r, Step(r, SettleFires, now));
  }

  lemma SettleConserves(r: Run, now: int)
    requires Conserved(r) && Enabled(r.turns, SettleFires, now)
    requires !Delivers(r, SettleFires, now)
    ensures Conserved(Step(r, SettleFires, now))
  {
    var s, r' := r.turns, Step(r, SettleFires, now);
    SomethingToDeliver(s.segments, s.partial);
    if r'.turns.turnId != s.turnId {
      assert s.segments == [] && s.partial == "";
    }
  }

  lemma ConservedStep(r: Run, e: Event, now: int)
    requires Conserved(r) && CanStep(r, e, now)
    ensures Conserved(Step(r, e, now))
  {
    match e
    case PartialText(text) =>
      StripTrims(text);
      OtherEventConserves(r, e, now);
    case FinalText(text) =>
      FinalTextConserves(r, text, now);
    case SettleFires =>
      if Delivers(r, e, now) {
        DeliveryConserves(r, now);
      } else {
        SettleConserves(r, now);
      }
    case _ =>
      OtherEventConserves(r, e, now);
  }

  lemma OtherEventConserves(r: Run, e: Event, now: int)
    requires Conserved(r) && !e.FinalText? && !e.SettleFires?
    requires e.PartialText? ==> Trim(Strip(e.text))
    ensures Conserved(Step(r, e, now))
  {
    var s, s' := r.turns, Step(r, e, now).turns;
    assert s'.segments == s.segments && s'.version == s.version && s'.delivered == s.delivered && s'.turnId == s.turnId;
    assert s'.partial == s.partial || (e.PartialText? && s'.partial == Strip(e.text));
  }

  /**
    In every run: the segments fed are the segments of the delivered turns, in
    order, followed by the pending ones; each transcript is exactly the segments
    of its turn and the partial text that was pending when it was delivered; and
    turn ids strictly increase.
   */
  lemma {:induction false} NoTextLost(r: Run, events: seq<(Event, int)>)
    requires Conserved(r) && CanRun(r, events)
    ensures Conserved(After(r, events))
    decreases |events|
  {
    if events != [] {
      ConservedStep(r, events[0].0, events[0].1);
      NoTextLost(Step(r, events[0].0, events[0].1), events[1..]);
    }
  }

  // ----- No turn is stuck -----

  /** While the manager waits for the end of a turn, exactly the timer it waits for is running and not stale. */
  ghost predicate TimersOk(s: Turns) {
    && (s.phase == Listening ==> !s.silenceComplete && s.endpoint.None? && s.settle.None?)
    && (s.phase == Endpointing ==>
          && !s.speechActive
          && (if s.silenceComplete then s.endpoint.None? && s.settle.Some? && s.settle.value.version == s.version
              else s.endpoint.Some?))
    && (s.settle.Some? ==> s.settle.value.turnId == s.turnId && s.settle.value.version <= s.version)
  }

  lemma {:induction false} NeverStuck(r: Run, events: seq<(Event, int)>)
    requires TimersOk(r.turns) && CanRun(r, events)
    ensures TimersOk(After(r, events).turns)
    decreases |events|
  {
    if events != [] {
      NeverStuck(Step(r, events[0].0, events[0].1), events[1..]);
    }
  }

  lemma BeginIsFine(config: Config, now: int)
    ensures Conserved(Begin(config, now)) && Timed(Begin(config, now))
  {
  }

  // ----- Timing -----

  /** The earliest moment from `now` on at which a timer with this deadline can fire. */
  function Earliest(deadline: int, now: int): int {
    Max(deadline, now)
  }

  /**
    A speech end at this time leaves no settle timer behind that could deliver
    before the silence and the settle time are over: none is running, or it is
    stale, or it does not fire before then.
   */
  predicate Harmless(s: Turns, now: int) {
    s.settle.Some? && s.settle.value.version == s.version ==>
      Earliest(s.settle.value.deadline, now) >= now + s.config.endpointSilence + s.config.asrSettle
  }

  /** Speech ends are harmless, and the configuration changes only while no settle timer runs. */
  predicate Regular(s: Turns, e: Event, now: int) {
    (e.SpeechEnd? ==> Harmless(s, now)) && (e.SetConfig? ==> s.settle.None?)
  }

  ghost predicate RegularRun(r: Run, events: seq<(Event, int)>)
    decreases |events|
  {
    events == [] ||
    (Regular(r.turns, events[0].0, events[0].1) && RegularRun(Step(r, events[0].0, events[0].1), events[1..]))
  }

  ghost predicate Timed(r: Run) {
    var s := r.turns;
    && TimersOk(s)
    && r.lastEnd <= r.clock && r.lastLate <= r.clock
    && (s.silenceComplete ==> r.lastEnd + s.config.endpointSilence <= r.clock)
    && (s.endpoint.Some? ==> s.endpoint.value >= r.lastEnd + s.config.endpointSilence && r.lastLate == r.lastEnd)
    && (s.settle.Some? && s.settle.value.version == s.version ==>
          && Earliest(s.settle.value.deadline, r.clock) >= r.lastEnd + s.config.endpointSilence + s.config.asrSettle
          && Earliest(s.settle.value.deadline, r.clock) >= r.lastLate + s.config.asrSettle)
  }

  /** A speech end after a speech start is harmless, and so is any other while no settle timer runs. */
  lemma AlternationIsHarmless(r: Run, now: int)
    requires Timed(r)
    ensures r.turns.speechActive || r.turns.settle.None? ==> Harmless(r.turns, now)
  {
  }

  lemma TimedStep(r: Run, e: Event, now: int)
    requires Timed(r) && CanStep(r, e, now) && Regular(r.turns, e, now)
    ensures Timed(Step(r, e, now))
    ensures Delivers(r, e, now) ==>
      && e.SettleFires? && !r.turns.speechActive
      && now >= r.lastEnd + r.turns.config.endpointSilence + r.turns.config.asrSettle
      && now >= r.lastLate + r.turns.config.asrSettle
  {
  }

  /**
    In every regular run, no turn is delivered while speech is active, nor
    before silence and settle time have passed since the last speech end, nor
    before the settle time has passed since the last text after the silence, as
    they are configured at its delivery.
   */
  lemma {:induction false} NoEarlyTurn(r: Run, before: seq<(Event, int)>, e: Event, now: int)
    requires Timed(r)
    requires CanRun(r, before) && RegularRun(r, before)
    requires CanStep(After(r, before), e, now) && Delivers(After(r, before), e, now)
    ensures
      var at := After(r, before);
      && !at.turns.speechActive
      && now >= at.lastEnd + at.turns.config.endpointSilence + at.turns.config.asrSettle
      && now >= at.lastLate + at.turns.config.asrSettle
    decreases |before|
  {
    if before == [] {
      if e.SettleFires? {
        TimedStep(r, e, now);
      }
    } else {
      TimedStep(r, before[0].0, before[0].1);
      NoEarlyTurn(Step(r, before[0].0, before[0].1), before[1..], e, now);
    }
  }

  /** A settle timer that is not stale delivers the turn. */
  lemma LiveSettleDelivers(s: Turns, now: int)
    requires Tidy(s) && (s.segments != [] || s.partial != "") && !s.speechActive
    requires s.settle.Some? && s.settle.value.turnId == s.turnId && s.settle.value.version == s.version
    ensures Handle(s, SettleFires, now) ==
      Reset(s.(delivered := s.delivered + [TurnResult(s.turnId, BuildTranscript(s.segments, s.partial))]))
  {
    SomethingToDeliver(s.segments, s.partial);
  }

  lemma LiveSettleCounts(s: Turns, now: int)
    requires Tidy(s) && (s.segments != [] || s.partial != "") && !s.speechActive
    requires s.settle.Some? && s.settle.value.turnId == s.turnId && s.settle.value.version == s.version
    ensures |Handle(s, SettleFires, now).delivered| > |s.delivered|
  {
    LiveSettleDelivers(s, now);
  }

  /** What the speech end and the silence timeout lead to when nothing else happens. */
  lemma SilencePasses(r: Run, end: int)
    requires Timed(r) && r.clock <= end && r.turns.settle.None?
    ensures
      var s := r.turns;
      var silence := end + s.config.endpointSilence;
      var r1 := Step(r, SpeechEnd, end);
      var r2 := Step(r1, EndpointFires, silence);
      && CanStep(r, SpeechEnd, end) && CanStep(r1, EndpointFires, silence) && r1.turns.settle.None?
      && r2.clock == silence
      && r2.turns == s.(speechActive := false, phase := Endpointing, silenceComplete := true, endpoint := None,
                        settle := Some(Settle(silence + s.config.asrSettle, s.turnId, s.version)))
  {
  }

  /** The speech end and the timers, each at its deadline. */
  function TimersAlone(config: Config, end: int): seq<(Event, int)> {
    var silence := end + config.endpointSilence;
    [(SpeechEnd, end), (EndpointFires, silence), (SettleFires, silence + config.asrSettle)]
  }

  /**
    If nothing more happens after a speech end and there is text, the timers
    alone deliver exactly one turn, at exactly the bound, and leave no timer.
   */
  lemma ExactlyOneTurn(r: Run, end: int)
    requires Timed(r) && Tidy(r.turns) && r.clock <= end && r.turns.settle.None?
    requires r.turns.segments != [] || r.turns.partial != ""
    ensures
      var s, events := r.turns, TimersAlone(r.turns.config, end);
      && CanRun(r, events)
      && After(r, events).turns ==
           Reset(s.(delivered := s.delivered + [TurnResult(s.turnId, BuildTranscript(s.segments, s.partial))]))
  {
    var events := TimersAlone(r.turns.config, end);
    SilencePasses(r, end);
    var r1 := Step(r, SpeechEnd, end);
    var r2 := Step(r1, EndpointFires, events[1].1);
    LiveSettleDelivers(r2.turns, events[2].1);
    RunThree(r, events[0], events[1], events[2]);
  }

  lemma RunThree(r: Run, a: (Event, int), b: (Event, int), c: (Event, int))
    requires CanStep(r, a.0, a.1)
    requires var r1 := Step(r, a.0, a.1); CanStep(r1, b.0, b.1) && CanStep(Step(r1, b.0, b.1), c.0, c.1)
    ensures CanRun(r, [a, b, c])
    ensures After(r, [a, b, c]) == Step(Step(Step(r, a.0, a.1), b.0, b.1), c.0, c.1)
  {
    assert [a, b, c][1..] == [b, c] && [b, c][1..] == [c] && [c][1..] == [];
    var r1 := Step(r, a.0, a.1);
    var r2 := Step(r1, b.0, b.1);
    assert CanRun(r2, [c]) && After(r2, [c]) == Step(r2, c.0, c.1);
    assert CanRun(r1, [b, c]) && After(r1, [b, c]) == After(r2, [c]);
  }

  // ----- Speech ends that do harm -----

  lemma {:induction false} LastEndGrows(r: Run, events: seq<(Event, int)>)
    requires r.lastEnd <= r.clock && CanRun(r, events)
    ensures After(r, events).lastEnd >= r.lastEnd
    decreases |events|
  {
    if events != [] {
      LastEndGrows(Step(r, events[0].0, events[0].1), events[1..]);
    }
  }

  /** After a speech end at `t`, a regular run delivers a turn before the silence and the settle time are over. */
  ghost predicate DeliversEarly(r: Run, t: int, events: seq<(Event, int)>, now: int) {
    var r1 := Step(r, SpeechEnd, t);
    && CanRun(r1, events) && RegularRun(r1, events)
    && CanStep(After(r1, events), SettleFires, now) && Delivers(After(r1, events), SettleFires, now)
    && now < t + After(r1, events).turns.config.endpointSilence + After(r1, events).turns.config.asrSettle
  }

  lemma HarmlessEnd(r: Run, t: int, events: seq<(Event, int)>, now: int)
    requires Timed(r) && r.clock <= t && Harmless(r.turns, t)
    ensures !DeliversEarly(r, t, events, now)
  {
    var r1 := Step(r, SpeechEnd, t);
    if DeliversEarly(r, t, events, now) {
      TimedStep(r, SpeechEnd, t);
      NoEarlyTurn(r1, events, SettleFires, now);
      LastEndGrows(r1, events);
      assert false;
    }
  }

  /** With text at hand the surviving timer delivers at once; without, any late word makes it deliver. */
  lemma HarmfulEnd(r: Run, t: int) returns (events: seq<(Event, int)>, now: int)
    requires Timed(r) && Tidy(r.turns) && r.clock <= t && !Harmless(r.turns, t)
    ensures DeliversEarly(r, t, events, now)
  {
    now := Earliest(r.turns.settle.value.deadline, t);
    var r1 := Step(r, SpeechEnd, t);
    if r.turns.segments != [] || r.turns.partial != "" {
      events := [];
      LiveSettleCounts(r1.turns, now);
    } else {
      events := [(PartialText("x"), t)];
      OneWord();
      var r2 := Step(r1, PartialText("x"), t);
      assert events[1..] == [] && After(r1, events) == r2;
      LiveSettleCounts(r2.turns, now);
    }
  }

  lemma OneWord()
    ensures Strip("x") == "x" && Trim("x")
  {
    assert !IsSpace('x');
  }

  /**
    Exactly when a speech end spoils the bound: some regular run after it
    delivers early if and only if a settle timer is running that is not stale
    and may fire before the silence and the settle time are over.
   */
  lemma EarlyTurnIff(r: Run, t: int)
    requires Timed(r) && Tidy(r.turns) && r.clock <= t
    ensures (exists events, now :: DeliversEarly(r, t, events, now)) <==> !Harmless(r.turns, t)
  {
    if Harmless(r.turns, t) {
      forall events, now
        ensures !DeliversEarly(r, t, events, now)
      {
        HarmlessEnd(r, t, events, now);
      }
    } else {
      var events, now := HarmfulEnd(r, t);
    }
  }

  lemma SecondEndKeepsSettle(r: Run, t: int)
    requires Timed(r) && r.clock <= t && r.turns.speechActive
    requires r.turns.config.asrSettle > 0
    ensures
      var c, s := r.turns.config, r.turns;
      var silence := t + c.endpointSilence;
      var r3 := Step(Step(Step(r, SpeechEnd, t), EndpointFires, silence), SpeechEnd, silence + c.asrSettle - 1);
      && CanStep(Step(r, SpeechEnd, t), EndpointFires, silence)
      && r3.turns.settle == Some(Settle(silence + c.asrSettle, s.turnId, s.version)) && !r3.turns.speechActive
      && r3.turns.segments == s.segments && r3.turns.partial == s.partial && r3.turns.delivered == s.delivered
      && r3.turns.turnId == s.turnId && r3.turns.version == s.version
      && r3.lastEnd == r3.clock == silence + c.asrSettle - 1
  {
  }

  lemma KeptSettleDelivers(s: Turns, r: Run, now: int)
    requires Tidy(s) && s.segments != []
    requires r.turns.segments == s.segments && r.turns.partial == s.partial && r.clock <= now && !r.turns.speechActive
    requires r.turns.settle == Some(Settle(now, r.turns.turnId, r.turns.version))
    ensures CanStep(r, SettleFires, now) && Delivers(r, SettleFires, now)
  {
    LiveSettleCounts(r.turns, now);
  }

  /**
    Such a speech end exists: one that comes after the silence timeout and just
    before the settle time is over leaves the settle timer running, and the turn
    is delivered before the new silence has passed.
   */
  lemma DoubleEndDeliversEarly(r: Run, t: int)
    requires Timed(r) && Tidy(r.turns) && r.clock <= t && r.turns.speechActive
    requires r.turns.segments != [] && r.turns.config.asrSettle > 0 && r.turns.config.endpointSilence > 1
    ensures
      var c := r.turns.config;
      var silence := t + c.endpointSilence;
      var r3 := Step(Step(Step(r, SpeechEnd, t), EndpointFires, silence), SpeechEnd, silence + c.asrSettle - 1);
      && CanStep(Step(r, SpeechEnd, t), EndpointFires, silence)
      && CanStep(r3, SettleFires, silence + c.asrSettle) && Delivers(r3, SettleFires, silence + c.asrSettle)
      && silence + c.asrSettle < r3.lastEnd + c.endpointSilence
  {
    SecondEndKeepsSettle(r, t);
    var c := r.turns.config;
    var silence := t + c.endpointSilence;
    var r3 := Step(Step(Step(r, SpeechEnd, t), EndpointFires, silence), SpeechEnd, silence + c.asrSettle - 1);
    KeptSettleDelivers(r.turns, r3, silence + c.asrSettle);
  }
}
