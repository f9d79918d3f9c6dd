/** The model request loop with its retries and fallbacks
    (app/models/client.py: _run_payload_with_retries). */
module RequestLoop {
  import opened Options
  import Reader = StreamReader

  const MAX_RETRIES: nat := 2

  datatype ErrorKind = Canceled | Incomplete(partial: string) | OutputLimit | ReasoningOnly | Other

  /** An LLMError; the last two flags say which option its text rejects. */
  datatype ModelError = ModelError(
    kind: ErrorKind, retryable: bool, status: Option<int>, rejectsFormat: bool, rejectsTokens: bool)

  datatype TokenField = MaxCompletionTokens | MaxTokens | NoTokens

  datatype Payload = Payload(responseFormat: bool, tokens: TokenField, thinkingDisabled: bool)

  /** A piece of content, and whether the callback interval had passed. */
  datatype Delta = Delta(text: string, due: bool)

  datatype Reply = Content(text: string) | Failed(error: ModelError)

  /** What happens around one request: the pieces that arrive, how it ends, and
      the polls for cancellation before it, after a failure and after the pause. */
  datatype Attempt = Attempt(
    canceledBefore: bool, deltas: seq<Delta>, reply: Reply, canceledOnError: bool, canceledInPause: bool)

  datatype Outcome = Returned(text: string) | Raised(error: ModelError) | Stopped

  // ---- showing content while it arrives -------------------------------------------------------

  function Joined(deltas: seq<Delta>): string {
    if deltas == [] then "" else Joined(deltas[..|deltas| - 1]) + deltas[|deltas| - 1].text
  }

  /** The text a reader of on_content sees: the last value given, or none yet. */
  function Showing(shown: seq<string>): string {
    if shown == [] then "" else shown[|shown| - 1]
  }

  /** From position `start` on, every value extends the one before it. */
  ghost predicate Growing(shown: seq<string>, start: nat) {
    forall i :: start <= i < |shown| - 1 ==> shown[i] <= shown[i + 1]
  }

  /** Shows the joined pieces whenever the interval has passed and they changed. */
  method ShowDeltas(deltas: seq<Delta>, before: seq<string>) returns (parts: string, snapshot: string, shown: seq<string>)
    ensures parts == Joined(deltas) && snapshot <= parts
    ensures before <= shown && Growing(shown, |before|)
    ensures if shown == before then snapshot == "" else Showing(shown) == snapshot
  {
    parts, snapshot, shown := "", "", before;
    var i := 0;
    while i < |deltas|
      invariant 0 <= i <= |deltas| && parts == Joined(deltas[..i]) && snapshot <= parts
      invariant before <= shown && Growing(shown, |before|)
      invariant if shown == before then snapshot == "" else Showing(shown) == snapshot
    {
      assert deltas[..i + 1][..i] == deltas[..i];
      parts := parts + deltas[i].text;
      if deltas[i].due && parts != snapshot {
        shown := shown + [parts];
        snapshot := parts;
      }
      i := i + 1;
    }
    assert deltas[..i] == deltas;
  }

  /** After a good reply the full text is what is shown. */
  method ShowReply(text: string, deltas: seq<Delta>, snapshot: string, before: seq<string>) returns (shown: seq<string>)
    requires Showing(before) == snapshot
    ensures before <= shown && Showing(shown) == text
  {
    shown := before;
    if deltas == [] && text != "" {
      shown := shown + [text];
    } else if text != snapshot {
      shown := shown + [text];
    }
  }

  // ---- what a failure leads to ------------------------------------------------------------------

  predicate FormatFallback(p: Payload, used: bool, e: ModelError) {
    !used && (e.status == None || e.status == Some(400) || e.status == Some(422)) && p.responseFormat && e.rejectsFormat
  }

  predicate TokenFallback(p: Payload, used: bool, e: ModelError) {
    !used && (e.status == None || e.status == Some(400) || e.status == Some(422)) && p.tokens == MaxCompletionTokens && e.rejectsTokens
  }

  predicate Final(e: ModelError) { e.kind.Canceled? || e.kind.OutputLimit? }

  /** The last non-empty partial text among the failures so far. */
  function LastPartial(errors: seq<ModelError>): Option<string> {
    if errors == [] then None
    else
      var last := errors[|errors| - 1];
      if last.kind.Incomplete? && last.kind.partial != "" then Some(last.kind.partial) else LastPartial(errors[..|errors| - 1])
  }

  /** The error raised when no retry is left. */
  function Surfaced(e: ModelError, partial: Option<string>): ModelError {
    if partial.Some? && !e.kind.Incomplete? then ModelError(Incomplete(partial.value), e.retryable, None, false, false) else e
  }

  /** The partial text an error carries to the caller. */
  function Carried(e: ModelError): Option<string> {
    if e.kind.Incomplete? && e.kind.partial != "" then Some(e.kind.partial) else None
  }

  lemma {:induction false} PartialIsText(errors: seq<ModelError>)
    ensures LastPartial(errors).Some? ==> LastPartial(errors).value != ""
  {
    if errors != [] { PartialIsText(errors[..|errors| - 1]); }
  }

  // ---- what is sent after a failure -----------------------------------------------------------

  predicate MayRejectOptions(e: ModelError) { e.status == None || e.status == Some(400) || e.status == Some(422) }

  /** The request carried an option that its error rejects. */
  predicate RejectsFormat(p: Payload, e: ModelError) { p.responseFormat && e.rejectsFormat && MayRejectOptions(e) }

  predicate RejectsTokens(p: Payload, e: ModelError) { p.tokens == MaxCompletionTokens && e.rejectsTokens && MayRejectOptions(e) }

  predicate RejectsOption(p: Payload, e: ModelError) { RejectsFormat(p, e) || RejectsTokens(p, e) }

  /** The request that follows a failed one: without the response format it
      rejected, else with the other token field, else the same again, with
      thinking turned off after a reply that was only reasoning. */
  predicate FollowsOn(p: Payload, e: ModelError, q: Payload, canDisableThinking: bool) {
    && !Final(e)
    && (RejectsFormat(p, e) ==> q == p.(responseFormat := false))
    && (!RejectsFormat(p, e) && RejectsTokens(p, e) ==> q == p.(tokens := MaxTokens))
    && (!RejectsOption(p, e) ==>
          && e.retryable && q == p.(thinkingDisabled := q.thinkingDisabled)
          && (q.thinkingDisabled <==> p.thinkingDisabled || (e.kind.ReasoningOnly? && canDisableThinking)))
  }

  /** Each request after the first follows on from the failure before it. */
  ghost predicate Chained(sent: seq<Payload>, errors: seq<ModelError>, canDisableThinking: bool) {
    forall i :: 0 <= i < |sent| - 1 && i < |errors| ==> FollowsOn(sent[i], errors[i], sent[i + 1], canDisableThinking)
  }

  /** Failures so far that rejected no option: those count as attempts. */
  function PlainFailures(sent: seq<Payload>, errors: seq<ModelError>): nat
    requires |errors| <= |sent|
  {
    if errors == [] then 0
    else
      var n := |errors| - 1;
      PlainFailures(sent[..n], errors[..n]) + if RejectsOption(sent[n], errors[n]) then 0 else 1
  }

  lemma PlainNext(sent: seq<Payload>, errors: seq<ModelError>, p: Payload, e: ModelError)
    requires |errors| == |sent|
    ensures PlainFailures(sent + [p], errors + [e]) == PlainFailures(sent, errors) + if RejectsOption(p, e) then 0 else 1
  {
    assert (sent + [p])[..|sent|] == sent && (errors + [e])[..|sent|] == errors;
  }

  function Count(b: bool): nat { if b then 1 else 0 }

  /** Options once dropped are never sent again. */
  ghost predicate Narrowing(sent: seq<Payload>) {
    forall i, k :: 0 <= i < k < |sent| ==>
      && (sent[k].responseFormat ==> sent[i].responseFormat)
      && (sent[k].tokens == MaxCompletionTokens ==> sent[i].tokens == MaxCompletionTokens)
      && (sent[i].thinkingDisabled ==> sent[k].thinkingDisabled)
  }

  /** What the loop has done: which payloads were sent, how they failed, what was shown. */
  datatype Trace = Trace(sent: seq<Payload>, errors: seq<ModelError>, shown: seq<string>)

  lemma NarrowingAppend(sent: seq<Payload>, p: Payload)
    requires Narrowing(sent)
    requires sent != [] ==> var last := sent[|sent| - 1];
      && (p.responseFormat ==> last.responseFormat)
      && (p.tokens == MaxCompletionTokens ==> last.tokens == MaxCompletionTokens)
      && (last.thinkingDisabled ==> p.thinkingDisabled)
    ensures Narrowing(sent + [p])
  {
  }

  lemma NarrowingPrefix(sent: seq<Payload>, p: Payload)
    requires Narrowing(sent + [p])
    ensures Narrowing(sent)
  {
    assert forall i :: 0 <= i < |sent| ==> (sent + [p])[i] == sent[i];
  }

  /** One request: it is recorded, its pieces are shown, and a failure takes
      what was shown back unless the call is cancelled. */
  method Send(a: Attempt, payload: Payload, before: Trace) returns (t: Trace, stopped: bool)
    requires Showing(before.shown) == ""
    ensures t.sent == before.sent + [payload] && before.shown <= t.shown
    ensures a.reply.Content? ==> !stopped && t.errors == before.errors && Showing(t.shown) == a.reply.text
    ensures a.reply.Failed? ==> t.errors == before.errors + [a.reply.error] && (stopped <==> a.canceledOnError)
    ensures a.reply.Failed? && !stopped ==> Showing(t.shown) == ""
  {
    var parts, snapshot, shown := ShowDeltas(a.deltas, before.shown);
    stopped := false;
    match a.reply
    case Content(text) =>
      shown := ShowReply(text, a.deltas, snapshot, shown);
      t := Trace(before.sent + [payload], before.errors, shown);
    case Failed(e) =>
      stopped := a.canceledOnError;
      if !stopped && a.deltas != [] { shown := shown + [""]; }
      if a.deltas == [] { assert Joined(a.deltas) == ""; }
      t := Trace(before.sent + [payload], before.errors + [e], shown);
  }

  /** How the loop may end. */
  ghost predicate Ended(o: Outcome, t: Trace, env: nat -> Attempt) {
    match o
    case Returned(text) =>
      t.sent != [] && env(|t.sent| - 1).reply == Content(text) && Showing(t.shown) == text && |t.errors| == |t.sent| - 1
    case Raised(e) =>
      && |t.errors| == |t.sent| > 0 && Showing(t.shown) == ""
      && var last := t.errors[|t.errors| - 1];
        if Final(last) then e == last else e == Surfaced(last, LastPartial(t.errors))
    case Stopped =>
      var n := |t.sent|;
      |t.errors| == n && (env(n).canceledBefore || (n > 0 && (env(n - 1).canceledOnError || env(n - 1).canceledInPause)))
  }

  /** The loop's own variables. */
  datatype Loop = Loop(payload: Payload, formatUsed: bool, tokensUsed: bool, attempt: nat)

  /** What follows a failure that is not final: another request, or nothing. */
  function NextTry(l: Loop, e: ModelError, canDisableThinking: bool): Option<Loop> {
    if FormatFallback(l.payload, l.formatUsed, e) then Some(l.(payload := l.payload.(responseFormat := false), formatUsed := true))
    else if TokenFallback(l.payload, l.tokensUsed, e) then Some(l.(payload := l.payload.(tokens := MaxTokens), tokensUsed := true))
    else if !e.retryable || l.attempt > MAX_RETRIES then None
    else
      var quiet := e.kind.ReasoningOnly? && !l.payload.thinkingDisabled && canDisableThinking;
      Some(l.(payload := if quiet then l.payload.(thinkingDisabled := true) else l.payload, attempt := l.attempt + 1))
  }

  /** An error after which the loop went on. */
  predicate Survivable(e: ModelError) { !Final(e) && (e.retryable || e.rejectsFormat || e.rejectsTokens) }

  ghost predicate Failures(t: Trace, env: nat -> Attempt) {
    forall i :: 0 <= i < |t.errors| ==> env(i).reply == Failed(t.errors[i])
  }

  ghost predicate Survived(errors: seq<ModelError>) {
    forall i :: 0 <= i < |errors| ==> Survivable(errors[i])
  }

  ghost predicate LoopOk(l: Loop, t: Trace, first: Payload) {
    && 1 <= l.attempt <= MAX_RETRIES + 1
    && |t.sent| == |t.errors| == l.attempt - 1 + Count(l.formatUsed) + Count(l.tokensUsed)
    && Showing(t.shown) == ""
    && (if t.sent == [] then l.payload == first else t.sent[0] == first)
    && Narrowing(t.sent + [l.payload])
  }

  /** Attempts and fallbacks still to come. */
  function Left(l: Loop): int { MAX_RETRIES + 2 - l.attempt + Count(!l.formatUsed) + Count(!l.tokensUsed) }

  lemma NextTryOk(l: Loop, t: Trace, after: Trace, e: ModelError, first: Payload, canDisableThinking: bool)
    requires LoopOk(l, t, first) && !Final(e) && NextTry(l, e, canDisableThinking).Some?
    requires after.sent == t.sent + [l.payload] && after.errors == t.errors + [e] && Showing(after.shown) == ""
    ensures LoopOk(NextTry(l, e, canDisableThinking).value, after, first) && Survivable(e)
    ensures Left(NextTry(l, e, canDisableThinking).value) < Left(l)
  {
    NarrowingAppend(after.sent, NextTry(l, e, canDisableThinking).value.payload);
  }

  /** What holds of every trace, wherever the loop stands. */
  ghost predicate SoFar(t: Trace, env: nat -> Attempt, first: Payload) {
    && |t.sent| <= MAX_RETRIES + 3 && Narrowing(t.sent) && (t.sent != [] ==> t.sent[0] == first)
    && Failures(t, env) && (t.errors != [] ==> Survived(t.errors[..|t.errors| - 1]))
  }

  /** What holds once the loop has ended. */
  ghost predicate Finished(o: Outcome, t: Trace, env: nat -> Attempt, first: Payload) {
    && SoFar(t, env, first) && Ended(o, t, env)
    && (o.Raised? && !Final(t.errors[|t.errors| - 1]) && t.errors[|t.errors| - 1].retryable ==> |t.sent| > MAX_RETRIES)
  }

  /** What the loop keeps of its options: a fallback once used took its option
      away, and the failures that rejected none are the attempts used up. */
  ghost predicate OptionsOk(l: Loop, t: Trace, canDisableThinking: bool) {
    && (l.formatUsed ==> !l.payload.responseFormat) && (l.tokensUsed ==> l.payload.tokens != MaxCompletionTokens)
    && |t.sent| == |t.errors| && Chained(t.sent + [l.payload], t.errors, canDisableThinking)
    && PlainFailures(t.sent, t.errors) == l.attempt - 1
  }

  /** Rejected options are dropped one by one and the request is sent again; a
      failure that rejects nothing is retried at most twice. The call gives up on
      a failure that is not final only when it rejects no option its request
      carried, and either may not be retried or was the third such failure. */
  ghost predicate Resent(o: Outcome, t: Trace, canDisableThinking: bool) {
    && Chained(t.sent, t.errors, canDisableThinking)
    && |t.errors| <= |t.sent| && PlainFailures(t.sent, t.errors) <= MAX_RETRIES + 1
    && (o.Raised? ==> |t.errors| == |t.sent| > 0)
    && (o.Raised? && !Final(t.errors[|t.errors| - 1]) ==>
          var n := |t.errors| - 1;
          !RejectsOption(t.sent[n], t.errors[n]) && (!t.errors[n].retryable || PlainFailures(t.sent, t.errors) == MAX_RETRIES + 1))
  }

  lemma NextFollowsOn(l: Loop, t: Trace, e: ModelError, canDisableThinking: bool)
    requires OptionsOk(l, t, canDisableThinking) && !Final(e)
    ensures match NextTry(l, e, canDisableThinking)
      case Some(move) =>
        && FollowsOn(l.payload, e, move.payload, canDisableThinking)
        && move.attempt == l.attempt + (if RejectsOption(l.payload, e) then 0 else 1)
        && (move.formatUsed ==> !move.payload.responseFormat) && (move.tokensUsed ==> move.payload.tokens != MaxCompletionTokens)
      case None => !RejectsOption(l.payload, e) && (!e.retryable || l.attempt > MAX_RETRIES)
  {
  }

  lemma ChainNext(sent: seq<Payload>, errors: seq<ModelError>, p: Payload, e: ModelError, q: Payload, canDisableThinking: bool)
    requires |errors| == |sent| && Chained(sent + [p], errors, canDisableThinking) && FollowsOn(p, e, q, canDisableThinking)
    ensures Chained(sent + [p] + [q], errors + [e], canDisableThinking)
  {
    var all := sent + [p] + [q];
    forall i | 0 <= i < |all| - 1 && i < |errors| + 1
      ensures FollowsOn(all[i], (errors + [e])[i], all[i + 1], canDisableThinking)
    {
      if i < |errors| { assert all[i] == (sent + [p])[i] && all[i + 1] == (sent + [p])[i + 1]; }
    }
  }

  lemma ChainPrefix(sent: seq<Payload>, errors: seq<ModelError>, more: seq<ModelError>, p: Payload, canDisableThinking: bool)
    requires |errors| == |sent| && Chained(sent + [p], errors, canDisableThinking) && errors <= more && |more| <= |sent| + 1
    ensures Chained(sent, errors, canDisableThinking) && Chained(sent + [p], more, canDisableThinking)
  {
    forall i | 0 <= i < |sent| - 1 ensures FollowsOn(sent[i], errors[i], sent[i + 1], canDisableThinking) {
      assert sent[i] == (sent + [p])[i] && sent[i + 1] == (sent + [p])[i + 1];
    }
  }

  lemma OptionsGoOn(a: Attempt, l: Loop, before: Trace, partial: Option<string>, canDisableThinking: bool, t: Trace, next: Loop, kept: Option<string>)
    requires OptionsOk(l, before, canDisableThinking) && Turned(a, l, before, partial, canDisableThinking, None, t, next, kept)
    ensures OptionsOk(next, t, canDisableThinking)
  {
    var e := a.reply.error;
    NextFollowsOn(l, before, e, canDisableThinking);
    ChainNext(before.sent, before.errors, l.payload, e, next.payload, canDisableThinking);
    PlainNext(before.sent, before.errors, l.payload, e);
  }

  lemma OptionsEnd(a: Attempt, l: Loop, before: Trace, partial: Option<string>, canDisableThinking: bool, o: Outcome, t: Trace, next: Loop, kept: Option<string>)
    requires OptionsOk(l, before, canDisableThinking) && l.attempt <= MAX_RETRIES + 1
    requires Turned(a, l, before, partial, canDisableThinking, Some(o), t, next, kept)
    ensures Resent(o, t, canDisableThinking)
  {
    ChainPrefix(before.sent, before.errors, if a.canceledBefore then before.errors else t.errors, l.payload, canDisableThinking);
    if !a.canceledBefore {
      if a.reply.Failed? { FailureEnds(a, l, before, partial, canDisableThinking, o, t, next, kept, a.reply.error); }
      else { PlainMore(before.sent, before.errors, l.payload); }
    }
  }

  lemma FailureEnds(a: Attempt, l: Loop, before: Trace, partial: Option<string>, canDisableThinking: bool, o: Outcome, t: Trace, next: Loop,
                    kept: Option<string>, e: ModelError)
    requires OptionsOk(l, before, canDisableThinking) && l.attempt <= MAX_RETRIES + 1 && !a.canceledBefore && a.reply == Failed(e)
    requires Turned(a, l, before, partial, canDisableThinking, Some(o), t, next, kept) && Chained(t.sent, t.errors, canDisableThinking)
    ensures Resent(o, t, canDisableThinking)
  {
    var n := |before.errors|;
    assert t.sent[n] == l.payload && t.errors[n] == e;
    PlainNext(before.sent, before.errors, l.payload, e);
    if !Final(e) { NextFollowsOn(l, before, e, canDisableThinking); }
  }

  lemma {:induction false} PlainMore(sent: seq<Payload>, errors: seq<ModelError>, p: Payload)
    requires |errors| <= |sent|
    ensures PlainFailures(sent + [p], errors) == PlainFailures(sent, errors)
  {
    if errors != [] {
      var n := |errors| - 1;
      assert (sent + [p])[..n] == sent[..n] && (sent + [p])[n] == sent[n];
    }
  }

  lemma BeforeSending(l: Loop, t: Trace, env: nat -> Attempt, first: Payload)
    requires LoopOk(l, t, first) && Failures(t, env) && Survived(t.errors)
    ensures SoFar(t, env, first)
  {
    NarrowingPrefix(t.sent, l.payload);
  }

  lemma AfterSending(l: Loop, before: Trace, t: Trace, env: nat -> Attempt, first: Payload)
    requires LoopOk(l, before, first) && Failures(before, env) && Survived(before.errors)
    requires t.sent == before.sent + [l.payload]
    requires match env(|before.sent|).reply
      case Content(_) => t.errors == before.errors
      case Failed(e) => t.errors == before.errors + [e]
    ensures SoFar(t, env, first)
  {
    var n := |before.errors|;
    if t.errors != before.errors { assert t.errors[..n] == before.errors; }
    if t.errors == before.errors && n > 0 { assert Survived(before.errors[..n - 1]); }
  }

  /** What one turn of the loop does. */
  ghost predicate Turned(a: Attempt, l: Loop, before: Trace, partial: Option<string>, canDisableThinking: bool,
                         o: Option<Outcome>, t: Trace, next: Loop, kept: Option<string>) {
    if a.canceledBefore then t == before && o == Some(Stopped)
    else
      && t.sent == before.sent + [l.payload] && before.shown <= t.shown
      && match a.reply
         case Content(text) => t.errors == before.errors && Showing(t.shown) == text && o == Some(Returned(text))
         case Failed(e) =>
           && t.errors == before.errors + [e]
           && (a.canceledOnError ==> o == Some(Stopped))
           && (!a.canceledOnError ==> Showing(t.shown) == "" && kept == (if Carried(e).Some? then Carried(e) else partial) && Decided(a, l, e, kept, canDisableThinking, o, next))
  }

  /** What follows a failure that was not cancelled. */
  predicate Decided(a: Attempt, l: Loop, e: ModelError, kept: Option<string>, canDisableThinking: bool, o: Option<Outcome>, next: Loop) {
    if Final(e) then o == Some(Raised(e))
    else match NextTry(l, e, canDisableThinking)
      case None => o == Some(Raised(Surfaced(e, kept)))
      case Some(move) => next == move && o == if move.attempt > l.attempt && a.canceledInPause then Some(Stopped) else None
  }

  /** One turn of the loop. */
  method TryOnce(a: Attempt, l: Loop, before: Trace, partial: Option<string>, canDisableThinking: bool)
    returns (o: Option<Outcome>, t: Trace, next: Loop, kept: Option<string>)
    requires Showing(before.shown) == ""
    ensures Turned(a, l, before, partial, canDisableThinking, o, t, next, kept)
  {
    t, next, kept := before, l, partial;
    if a.canceledBefore { return Some(Stopped), t, l, partial; }
    var stopped;
    t, stopped := Send(a, l.payload, before);
    if a.reply.Content? { return Some(Returned(a.reply.text)), t, l, partial; }
    if stopped { return Some(Stopped), t, l, partial; }
    var e := a.reply.error;
    if e.kind.Incomplete? && e.kind.partial != "" { kept := Some(e.kind.partial); }
    if Final(e) { return Some(Raised(e)), t, l, kept; }
    var move := NextTry(l, e, canDisableThinking);
    if move.None? { return Some(Raised(Surfaced(e, kept))), t, l, kept; }
    next := move.value;
    o := if next.attempt > l.attempt && a.canceledInPause then Some(Stopped) else None;
  }

  lemma TurnGoesOn(env: nat -> Attempt, l: Loop, before: Trace, partial: Option<string>, first: Payload, canDisableThinking: bool,
                   t: Trace, next: Loop, kept: Option<string>)
    requires LoopOk(l, before, first) && Failures(before, env) && Survived(before.errors) && partial == LastPartial(before.errors)
    requires Turned(env(|before.sent|), l, before, partial, canDisableThinking, None, t, next, kept)
    ensures LoopOk(next, t, first) && kept == LastPartial(t.errors) && Left(next) < Left(l)
    ensures Failures(t, env) && Survived(t.errors)
  {
    var e := env(|before.sent|).reply.error;
    LastOf(before.errors, e, partial);
    NextTryOk(l, before, t, e, first, canDisableThinking);
    FailuresAppend(before, t, e, env);
  }

  lemma FailuresAppend(before: Trace, t: Trace, e: ModelError, env: nat -> Attempt)
    requires Failures(before, env) && Survived(before.errors) && Survivable(e)
    requires |before.sent| == |before.errors| && env(|before.sent|).reply == Failed(e) && t.errors == before.errors + [e]
    ensures Failures(t, env) && Survived(t.errors)
  {
  }

  lemma TurnEnds(env: nat -> Attempt, l: Loop, before: Trace, partial: Option<string>, first: Payload, canDisableThinking: bool,
                 o: Outcome, t: Trace, next: Loop, kept: Option<string>)
    requires LoopOk(l, before, first) && Failures(before, env) && Survived(before.errors) && partial == LastPartial(before.errors)
    requires Turned(env(|before.sent|), l, before, partial, canDisableThinking, Some(o), t, next, kept)
    ensures Finished(o, t, env, first)
  {
    if env(|before.sent|).canceledBefore {
      BeforeSending(l, before, env, first);
    } else {
      AfterSending(l, before, t, env, first);
      if o.Raised? {
        var e := env(|before.sent|).reply.error;
        LastOf(before.errors, e, partial);
        RaisedEnds(l, before, t, env, first, e, kept, o, canDisableThinking);
      } else {
        SentEnds(env, l, before, partial, canDisableThinking, o, t, next, kept);
      }
    }
  }

  lemma SentEnds(env: nat -> Attempt, l: Loop, before: Trace, partial: Option<string>, canDisableThinking: bool,
                 o: Outcome, t: Trace, next: Loop, kept: Option<string>)
    requires |before.sent| == |before.errors| && !env(|before.sent|).canceledBefore && !o.Raised?
    requires Turned(env(|before.sent|), l, before, partial, canDisableThinking, Some(o), t, next, kept)
    ensures Ended(o, t, env)
  {
    assert |t.sent| == |before.sent| + 1;
  }

  lemma LastOf(errors: seq<ModelError>, e: ModelError, partial: Option<string>)
    requires partial == LastPartial(errors)
    ensures LastPartial(errors + [e]) == if Carried(e).Some? then Carried(e) else partial
  {
    assert (errors + [e])[..|errors|] == errors;
  }

  lemma RaisedEnds(l: Loop, before: Trace, t: Trace, env: nat -> Attempt, first: Payload, e: ModelError, kept: Option<string>,
                   o: Outcome, canDisableThinking: bool)
    requires LoopOk(l, before, first) && SoFar(t, env, first) && Showing(t.shown) == ""
    requires t.sent == before.sent + [l.payload] && t.errors == before.errors + [e] && kept == LastPartial(t.errors)
    requires if Final(e) then o == Raised(e) else NextTry(l, e, canDisableThinking).None? && o == Raised(Surfaced(e, kept))
    ensures Finished(o, t, env, first)
  {
    assert t.errors[|t.errors| - 1] == e;
  }

  /** The loop over attempts. At most three attempts and two fallbacks are
      made; a call that returns shows exactly what it returns, and one that
      raises leaves nothing shown. Every error but the last was survivable, and
      the call gives up on a survivable one only after the third attempt; it
      stops only where it was cancelled. Every option that a failure rejects is
      dropped and the request sent again. */
  method RunWithRetries(env: nat -> Attempt, first: Payload, canDisableThinking: bool) returns (o: Outcome, t: Trace)
    ensures Finished(o, t, env, first)
    ensures Resent(o, t, canDisableThinking)
  {
    var l := Loop(first, false, false, 1);
    var partial: Option<string> := None;
    t := Trace([], [], []);
    while l.attempt <= MAX_RETRIES + 1
      invariant LoopOk(l, t, first) && partial == LastPartial(t.errors)
      invariant Failures(t, env) && Survived(t.errors) && OptionsOk(l, t, canDisableThinking)
      decreases Left(l)
    {
      var ended;
      ghost var l0, t0, partial0 := l, t, partial;
      ended, t, l, partial := TryOnce(env(|t.sent|), l, t, partial, canDisableThinking);
      if ended.Some? {
        TurnEnds(env, l0, t0, partial0, first, canDisableThinking, ended.value, t, l, partial);
        OptionsEnd(env(|t0.sent|), l0, t0, partial0, canDisableThinking, ended.value, t, l, partial);
        return ended.value, t;
      }
      TurnGoesOn(env, l0, t0, partial0, first, canDisableThinking, t, l, partial);
      OptionsGoOn(env(|t0.sent|), l0, t0, partial0, canDisableThinking, t, l, partial);
    }
    assert false;
    o := Stopped;
  }

  // ---- what becomes of a partial text -----------------------------------------------------------

  /** Incomplete replies are those of the stream reader. */
  ghost predicate FromReader(e: ModelError) {
    e.kind.Incomplete? ==>
      exists lines, thinkingDisabled ::
        Reader.ReadAll(Reader.NOTHING, lines, Reader.LimitsFor(thinkingDisabled)) == Reader.Failed(Reader.IncompleteReply(e.kind.partial))
  }

  lemma ReaderGivesText(e: ModelError)
    requires FromReader(e)
    ensures e.kind.Incomplete? ==> e.kind.partial != ""
  {
    if e.kind.Incomplete? {
      var lines, thinkingDisabled :|
        Reader.ReadAll(Reader.NOTHING, lines, Reader.LimitsFor(thinkingDisabled)) == Reader.Failed(Reader.IncompleteReply(e.kind.partial));
      Reader.IncompleteHasText(Reader.NOTHING, lines, Reader.LimitsFor(thinkingDisabled));
    }
  }

  /** When the loop raises, the last partial text of the run reaches the caller
      unless the last error is final: a run that kept some text and then meets
      an output limit or a cancellation loses it. */
  lemma PartialIsKept(e: ModelError, t: Trace, env: nat -> Attempt, first: Payload)
    requires Finished(Raised(e), t, env, first) && FromReader(t.errors[|t.errors| - 1])
    ensures Carried(e) == LastPartial(t.errors)
      <==> !(Final(t.errors[|t.errors| - 1]) && LastPartial(t.errors).Some?)
  {
    PartialIsText(t.errors);
    ReaderGivesText(t.errors[|t.errors| - 1]);
  }

  function CutOff(): ModelError { ModelError(Incomplete("x"), true, None, false, false) }

  function TooLong(): ModelError { ModelError(OutputLimit, false, None, false, false) }

  /** A first reply cut off after some text, then one over the output limit. */
  function CutOffThenTooLong(i: nat): Attempt {
    Attempt(false, [Delta("x", false)], Failed(if i == 0 then CutOff() else TooLong()), false, false)
  }

  lemma CutOffIsFromReader()
    ensures FromReader(CutOff())
  {
    Reader.LetterIsIncomplete();
  }

  lemma SecondSurvives(errors: seq<ModelError>)
    requires |errors| > 2 && Survived(errors[..|errors| - 1])
    ensures Survivable(errors[1])
  {
    assert errors[..|errors| - 1][1] == errors[1];
  }

  /** There the loop sends two requests and raises the second error, which
      carries nothing: the text of the first reply is lost. */
  lemma PartialIsLost(o: Outcome, t: Trace, first: Payload)
    requires Finished(o, t, CutOffThenTooLong, first)
    ensures t.errors == [CutOff(), TooLong()] && FromReader(CutOff())
    ensures o == Raised(TooLong()) && LastPartial(t.errors) == Some("x") && Carried(o.error) == None
  {
    CutOffIsFromReader();
    var n := |t.errors|;
    assert CutOffThenTooLong(n).reply.Failed?;
    forall i | 0 <= i < n ensures t.errors[i] == if i == 0 then CutOff() else TooLong() {
      assert CutOffThenTooLong(i).reply == Failed(t.errors[i]);
    }
    if n > 2 { SecondSurvives(t.errors); }
    assert t.errors == [CutOff(), TooLong()];
    assert t.errors[..1] == [CutOff()];
    assert LastPartial([CutOff()]) == Some("x");
  }
}
