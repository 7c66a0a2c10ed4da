/**
 * The provider failover of the AI service (`executeWithFailover`): the chosen
 * model is tried first when its provider is enabled, then every other model
 * of an enabled provider in list order; each failure is classified as one
 * that ends the run or one that moves on to the next model.
 *
 * The runners are not modelled: `respond(n, model)` is what the `n`-th runner
 * call, made for `model`, resolves to or rejects with.
 */
module AiFailover {
  import opened Wrappers
  import opened Text

  datatype Provider = Google | OpenAI | Anthropic

  function ProviderName(p: Provider): string
  {
    match p
    case Google => "Google"
    case OpenAI => "OpenAI"
    case Anthropic => "Anthropic"
  }

  datatype AIModel = AIModel(id: string, name: string, provider: Provider, modelName: string)

  /** `ProviderStatus`: which providers have been enabled with a key. */
  datatype ProviderStatus = ProviderStatus(google: bool, openAI: bool, anthropic: bool)

  predicate Enabled(status: ProviderStatus, p: Provider)
  {
    match p
    case Google => status.google
    case OpenAI => status.openAI
    case Anthropic => status.anthropic
  }

  /** The model list of `config/models.ts`. */
  const Models: seq<AIModel> := [
    AIModel("gemini-2.5-flash", "Gemini 2.5 Flash", Google, "gemini-2.5-flash"),
    AIModel("claude-3.5-sonnet", "Claude 3.5 Sonnet", Anthropic, "claude-3-5-sonnet-20240620"),
    AIModel("gpt-4o", "OpenAI GPT-4o", OpenAI, "gpt-4o"),
    AIModel("codex", "OpenAI Codex (GPT-4o)", OpenAI, "gpt-4o")
  ]

  /** A thrown `Error`; its `message` may be missing. */
  datatype Error = Error(message: Option<string>)

  /** How one runner call settles. */
  datatype Outcome<R> = Success(value: R) | Failure(error: Error)

  /** How `executeWithFailover` settles: it resolves with a value or rejects with an error. */
  datatype Failover<R> = Returned(value: R) | Threw(error: Error)

  /** A whole run: how it settles, the `onFailover` messages in order, and the models whose runner was called, in order. */
  datatype Run<R> = Run(result: Failover<R>, notes: seq<Note>, tried: seq<AIModel>)

  // Messages.

  const NotFoundPrefix: string := "Model with ID "
  const NotFoundSuffix: string := " not found."
  const NoProvidersMessage: string := "No AI providers are enabled. Please enable one in 'Manage Keys'."
  const NetworkMessage: string := "A network error occurred. Please check your connection and try again."
  const AllFailedMessage: string := "All available and enabled AI models failed."
  const SkippingTail: string := ". Skipping."
  const TryingNextTail: string := ". Trying next model..."
  const ProviderOpen: string := "'s provider ("
  const DisabledClose: string := ") is disabled"
  const NoRunnerPrefix: string := "No runner for "
  const QuotaExceeded: string := " quota exceeded"
  const ErrorWithPrefix: string := "An error occurred with "

  function NotFoundError(id: string): Error
  {
    Error(Some(NotFoundPrefix + id + NotFoundSuffix))
  }

  const NoProvidersError: Error := Error(Some(NoProvidersMessage))
  const NetworkError: Error := Error(Some(NetworkMessage))
  const AllFailedError: Error := Error(Some(AllFailedMessage))

  /** An `onFailover` call, by kind; `NoteText` is the message it passes. */
  datatype Note = ProviderDisabled(model: AIModel) | NoRunner(provider: Provider)
                | QuotaExceededFor(model: AIModel) | ErrorWith(model: AIModel)

  function NoteText(n: Note): string
  {
    match n
    case ProviderDisabled(m) => m.name + ProviderOpen + ProviderName(m.provider) + DisabledClose + SkippingTail
    case NoRunner(p) => NoRunnerPrefix + ProviderName(p) + SkippingTail
    case QuotaExceededFor(m) => m.name + QuotaExceeded + TryingNextTail
    case ErrorWith(m) => ErrorWithPrefix + m.name + TryingNextTail
  }

  // Error classification.

  /** `error.message?.toLowerCase() || ''`. */
  function ErrorText(e: Error): string
  {
    match e.message
    case None => ""
    case Some(m) => ToLower(m)
  }

  predicate InvalidKey(e: Error)
  {
    Contains(ErrorText(e), "api key is invalid")
  }

  predicate NetworkFailure(e: Error)
  {
    Contains(ErrorText(e), "network error")
  }

  predicate RateLimited(e: Error)
  {
    Contains(ErrorText(e), "rate limit exceeded")
  }

  /** How the `catch` block reads a runner's error, in the order it tests the messages. */
  datatype ErrorKind = InvalidApiKey | NetworkDown | RateLimit | Generic

  /**
   * A way of reading errors. The loop's specification is stated for any
   * reader, so that its proofs do not unfold the message tests; the run
   * itself uses `Classify`.
   */
  type Classifier = Error -> ErrorKind

  /** The `catch` block's tests: an invalid key first, then a network error, then a rate limit. */
  function Classify(e: Error): ErrorKind
  {
    if InvalidKey(e) then InvalidApiKey
    else if NetworkFailure(e) then NetworkDown
    else if RateLimited(e) then RateLimit
    else Generic
  }

  /** An outcome that ends the run: a value, an invalid key, or a network error. */
  predicate Stops<R>(o: Outcome<R>, classify: Classifier)
  {
    o.Success? || classify(o.error) == InvalidApiKey || classify(o.error) == NetworkDown
  }

  /** How the run settles on an outcome that ends it. */
  function Verdict<R>(o: Outcome<R>, classify: Classifier): Failover<R>
    requires Stops(o, classify)
  {
    if o.Success? then Returned(o.value)
    else if classify(o.error) == InvalidApiKey then Threw(o.error)
    else Threw(NetworkError)
  }

  /** `throw lastError || new Error("All available and enabled AI models failed.")`. */
  function LastOr(lastError: Option<Error>): Error
  {
    match lastError
    case Some(e) => e
    case None => AllFailedError
  }

  // The queue.

  /** `models.find(m => m.id === id)`. */
  function Find(models: seq<AIModel>, id: string): (r: Option<AIModel>)
    ensures r.None? <==> forall i :: 0 <= i < |models| ==> models[i].id != id
    ensures r.Some? ==> exists i :: (0 <= i < |models| && models[i] == r.value && r.value.id == id
      && forall j :: 0 <= j < i ==> models[j].id != id)
  {
    if models == [] then None
    else if models[0].id == id then Some(models[0])
    else
      var r := Find(models[1..], id);
      if r.Some? then
        var i :| 0 <= i < |models[1..]| && models[1..][i] == r.value && r.value.id == id
          && forall j :: 0 <= j < i ==> models[1..][j].id != id;
        assert models[i + 1] == r.value;
        r
      else r
  }

  /** Whether the filter keeps a model other than the chosen one. */
  predicate Kept(m: AIModel, initialId: string, status: ProviderStatus)
  {
    m.id != initialId && Enabled(status, m.provider)
  }

  /** `models.filter(m => m.id !== initialModelId && providerStatus[m.provider])`. */
  function OtherEnabled(models: seq<AIModel>, initialId: string, status: ProviderStatus): seq<AIModel>
  {
    if models == [] then []
    else
      var m := models[|models| - 1];
      OtherEnabled(models[..|models| - 1], initialId, status) + (if Kept(m, initialId, status) then [m] else [])
  }

  /** `modelQueue`: the chosen model if its provider is enabled, then the other enabled models. */
  function ModelQueue(initial: AIModel, models: seq<AIModel>, status: ProviderStatus): seq<AIModel>
  {
    (if Enabled(status, initial.provider) then [initial] else []) + OtherEnabled(models, initial.id, status)
  }

  /** The positions in the list of the models the filter keeps, in increasing order. */
  function KeptPositions(models: seq<AIModel>, initialId: string, status: ProviderStatus): seq<int>
  {
    if models == [] then []
    else
      var n := |models| - 1;
      KeptPositions(models[..n], initialId, status) + (if Kept(models[n], initialId, status) then [n] else [])
  }

  /** The k-th filtered model sits at the k-th kept position. */
  lemma {:induction false} KeptPositionsLocate(models: seq<AIModel>, initialId: string, status: ProviderStatus)
    ensures var p := KeptPositions(models, initialId, status); var others := OtherEnabled(models, initialId, status);
      |p| == |others| && forall k :: 0 <= k < |p| ==> 0 <= p[k] < |models| && others[k] == models[p[k]]
  {
    if models != [] {
      var n := |models| - 1;
      KeptPositionsLocate(models[..n], initialId, status);
      var p := KeptPositions(models, initialId, status);
      var p' := KeptPositions(models[..n], initialId, status);
      var others := OtherEnabled(models, initialId, status);
      var others' := OtherEnabled(models[..n], initialId, status);
      forall k | 0 <= k < |p|
        ensures 0 <= p[k] < |models| && others[k] == models[p[k]]
      {
        if k < |p'| {
          assert p[k] == p'[k] && others[k] == others'[k];
          assert models[..n][p'[k]] == models[p'[k]];
        }
      }
    }
  }

  /** The kept positions increase and include every position the filter keeps. */
  lemma {:induction false} KeptPositionsIncrease(models: seq<AIModel>, initialId: string, status: ProviderStatus)
    ensures forall k :: 0 <= k < |KeptPositions(models, initialId, status)| ==>
      0 <= KeptPositions(models, initialId, status)[k] < |models|
    ensures forall k, l :: 0 <= k < l < |KeptPositions(models, initialId, status)| ==>
      KeptPositions(models, initialId, status)[k] < KeptPositions(models, initialId, status)[l]
    ensures forall i :: 0 <= i < |models| && Kept(models[i], initialId, status) ==> i in KeptPositions(models, initialId, status)
  {
    if models != [] {
      var n := |models| - 1;
      KeptPositionsIncrease(models[..n], initialId, status);
      var p' := KeptPositions(models[..n], initialId, status);
      var p := KeptPositions(models, initialId, status);
      assert p == p' + (if Kept(models[n], initialId, status) then [n] else []);
      assert forall k :: 0 <= k < |p'| ==> p[k] == p'[k] && p'[k] < n;
      forall i | 0 <= i < n && Kept(models[i], initialId, status)
        ensures i in p'
      {
        assert models[..n][i] == models[i];
      }
    }
  }

  /** The filtered models keep the list order: they sit at increasing positions of the list, which are exactly the kept ones. */
  lemma OtherEnabledInListOrder(models: seq<AIModel>, initialId: string, status: ProviderStatus)
    ensures var others := OtherEnabled(models, initialId, status);
      exists positions: seq<int> :: (|positions| == |others|
        && (forall k :: 0 <= k < |positions| ==> 0 <= positions[k] < |models| && others[k] == models[positions[k]])
        && (forall k, l :: 0 <= k < l < |positions| ==> positions[k] < positions[l])
        && (forall i :: 0 <= i < |models| && Kept(models[i], initialId, status) ==> i in positions))
  {
    KeptPositionsLocate(models, initialId, status);
    KeptPositionsIncrease(models, initialId, status);
    var p := KeptPositions(models, initialId, status);
    assert |p| == |OtherEnabled(models, initialId, status)|;
  }

  /** Every filtered model is one of the list's models other than the chosen one, with its provider enabled, and each such model is kept. */
  lemma {:induction false} OtherEnabledMembers(models: seq<AIModel>, initialId: string, status: ProviderStatus)
    ensures forall m :: m in OtherEnabled(models, initialId, status) <==> m in models && Kept(m, initialId, status)
  {
    if models != [] {
      var n := |models| - 1;
      OtherEnabledMembers(models[..n], initialId, status);
      assert models == models[..n] + [models[n]];
    }
  }

  /**
   * The queue holds only models of enabled providers; it starts with the
   * chosen model exactly when that model's provider is enabled, and the
   * chosen id never appears again.
   */
  lemma ModelQueueShape(initial: AIModel, models: seq<AIModel>, status: ProviderStatus)
    ensures var q := ModelQueue(initial, models, status);
      forall k :: 0 <= k < |q| ==> Enabled(status, q[k].provider)
    ensures var q := ModelQueue(initial, models, status);
      Enabled(status, initial.provider) ==> |q| > 0 && q[0] == initial && forall k :: 0 < k < |q| ==> q[k].id != initial.id
    ensures var q := ModelQueue(initial, models, status);
      !Enabled(status, initial.provider) ==> forall k :: 0 <= k < |q| ==> q[k].id != initial.id
  {
    var q := ModelQueue(initial, models, status);
    var head := if Enabled(status, initial.provider) then [initial] else [];
    var others := OtherEnabled(models, initial.id, status);
    OtherEnabledMembers(models, initial.id, status);
    forall k | |head| <= k < |q|
      ensures Kept(q[k], initial.id, status)
    {
      assert q[k] == others[k - |head|];
      assert others[k - |head|] in others;
    }
  }

  /** The queue is empty exactly when neither the chosen model nor any model with another id has an enabled provider. */
  lemma QueueEmptyIffNoneEnabled(initial: AIModel, models: seq<AIModel>, status: ProviderStatus)
    ensures ModelQueue(initial, models, status) == [] <==>
      !Enabled(status, initial.provider)
      && forall i :: 0 <= i < |models| && models[i].id != initial.id ==> !Enabled(status, models[i].provider)
  {
    var others := OtherEnabled(models, initial.id, status);
    OtherEnabledMembers(models, initial.id, status);
    if others == [] {
      forall i | 0 <= i < |models| && models[i].id != initial.id
        ensures !Enabled(status, models[i].provider)
      {
        assert models[i] !in others;
      }
    } else {
      assert others[0] in others;
      var i :| 0 <= i < |models| && models[i] == others[0];
      assert models[i].id != initial.id && Enabled(status, models[i].provider);
    }
  }

  // The loop.

  /** A queued model whose runner is actually called: its provider is enabled and has a runner. */
  predicate Runnable(m: AIModel, status: ProviderStatus, runners: set<Provider>)
  {
    Enabled(status, m.provider) && m.provider in runners
  }

  /** The queued models whose runners are called, in queue order, if none ends the run. */
  function RunnableModels(queue: seq<AIModel>, status: ProviderStatus, runners: set<Provider>): (r: seq<AIModel>)
    ensures |r| <= |queue|
  {
    if queue == [] then []
    else
      (if Runnable(queue[0], status, runners) then [queue[0]] else []) + RunnableModels(queue[1..], status, runners)
  }

  /** What one pass of the loop body does with a queued model. */
  datatype Step<R> = Skipped(note: Note) | Settled(result: Failover<R>) | FailedOver(note: Note, error: Error)

  /** The loop body for `m`, as the `attempt`-th runner call if its runner is called. */
  function StepOn<R>(m: AIModel, status: ProviderStatus, runners: set<Provider>,
                     respond: (nat, AIModel) -> Outcome<R>, classify: Classifier, attempt: nat): Step<R>
  {
    if !Enabled(status, m.provider) then Skipped(ProviderDisabled(m))
    else if m.provider !in runners then Skipped(NoRunner(m.provider))
    else
      var o := respond(attempt, m);
      if o.Success? then Settled(Returned(o.value))
      else
        match classify(o.error)
        case InvalidApiKey => Settled(Threw(o.error))
        case NetworkDown => Settled(Threw(NetworkError))
        case RateLimit => FailedOver(QuotaExceededFor(m), o.error)
        case Generic => FailedOver(ErrorWith(m), o.error)
  }

  /**
   * A model is skipped exactly when it is not runnable; a runnable model's
   * call settles the run exactly when its outcome ends it, on that outcome's
   * verdict, and otherwise fails over with the call's error and a quota or
   * generic message.
   */
  lemma StepOnClassifies<R>(m: AIModel, status: ProviderStatus, runners: set<Provider>,
                            respond: (nat, AIModel) -> Outcome<R>, classify: Classifier, attempt: nat)
    ensures StepOn(m, status, runners, respond, classify, attempt).Skipped? <==> !Runnable(m, status, runners)
    ensures StepOn(m, status, runners, respond, classify, attempt).Settled? <==>
      Runnable(m, status, runners) && Stops(respond(attempt, m), classify)
    ensures StepOn(m, status, runners, respond, classify, attempt).Settled? ==>
      StepOn(m, status, runners, respond, classify, attempt).result == Verdict(respond(attempt, m), classify)
    ensures StepOn(m, status, runners, respond, classify, attempt).FailedOver? ==>
      StepOn(m, status, runners, respond, classify, attempt).error == respond(attempt, m).error
      && StepOn(m, status, runners, respond, classify, attempt).note
         == (if classify(respond(attempt, m).error) == RateLimit then QuotaExceededFor(m) else ErrorWith(m))
  {
  }

  /**
   * The `for (const model of modelQueue)` loop from `queue` on, when `attempt`
   * runner calls have been made and the last of them failed with `lastError`;
   * `tried` holds the calls made from here on.
   */
  function RunFrom<R>(queue: seq<AIModel>, status: ProviderStatus, runners: set<Provider>,
                      respond: (nat, AIModel) -> Outcome<R>, classify: Classifier, attempt: nat, lastError: Option<Error>): Run<R>
    decreases |queue|
  {
    if queue == [] then Run(Threw(LastOr(lastError)), [], [])
    else
      match StepOn(queue[0], status, runners, respond, classify, attempt)
      case Skipped(note) =>
        var rest := RunFrom(queue[1..], status, runners, respond, classify, attempt, lastError);
        rest.(notes := [note] + rest.notes)
      case Settled(result) => Run(result, [], [queue[0]])
      case FailedOver(note, error) =>
        var rest := RunFrom(queue[1..], status, runners, respond, classify, attempt + 1, Some(error));
        Run(rest.result, [note] + rest.notes, [queue[0]] + rest.tried)
  }

  /** What `executeWithFailover(runners, initialModelId, providerStatus, onFailover, …)` does. */
  function FailoverRun<R>(models: seq<AIModel>, initialModelId: string, status: ProviderStatus,
                          runners: set<Provider>, respond: (nat, AIModel) -> Outcome<R>): Run<R>
  {
    match Find(models, initialModelId)
    case None => Run(Threw(NotFoundError(initialModelId)), [], [])
    case Some(initial) =>
      var queue := ModelQueue(initial, models, status);
      if queue == [] then Run(Threw(NoProvidersError), [], [])
      else RunFrom(queue, status, runners, respond, Classify, 0, None)
  }

  /** The runner calls are made for a prefix of the runnable models, in queue order; there is at most one message per queued model. */
  lemma {:induction false} CallsFollowTheQueue<R>(queue: seq<AIModel>, status: ProviderStatus, runners: set<Provider>,
                                                  respond: (nat, AIModel) -> Outcome<R>, classify: Classifier, attempt: nat, lastError: Option<Error>)
    ensures var r := RunFrom(queue, status, runners, respond, classify, attempt, lastError);
      var rq := RunnableModels(queue, status, runners);
      |r.tried| <= |rq| && r.tried == rq[..|r.tried|] && |r.notes| <= |queue|
  {
    if queue != [] {
      var m := queue[0];
      StepOnClassifies(m, status, runners, respond, classify, attempt);
      if !Runnable(m, status, runners) {
        CallsFollowTheQueue(queue[1..], status, runners, respond, classify, attempt, lastError);
      } else if !Stops(respond(attempt, m), classify) {
        var o := respond(attempt, m);
        CallsFollowTheQueue(queue[1..], status, runners, respond, classify, attempt + 1, Some(o.error));
        var rest := RunFrom(queue[1..], status, runners, respond, classify, attempt + 1, Some(o.error));
        var rq' := RunnableModels(queue[1..], status, runners);
        assert RunnableModels(queue, status, runners)[..|rest.tried| + 1] == [m] + rq'[..|rest.tried|];
      }
    }
  }

  /** Every call of `r` but the last, counted from `attempt`, failed with an error that moves on to the next model. */
  predicate FailedOverBeforeLast<R>(r: Run<R>, respond: (nat, AIModel) -> Outcome<R>, classify: Classifier, attempt: nat)
  {
    forall j :: 0 <= j < |r.tried| - 1 ==> !Stops(respond(attempt + j, r.tried[j]), classify)
  }

  /** Every call but the last failed with an error that moves on to the next model. */
  lemma {:induction false} EarlierCallsFailedOver<R>(queue: seq<AIModel>, status: ProviderStatus, runners: set<Provider>,
                                                     respond: (nat, AIModel) -> Outcome<R>, classify: Classifier, attempt: nat, lastError: Option<Error>)
    ensures FailedOverBeforeLast(RunFrom(queue, status, runners, respond, classify, attempt, lastError), respond, classify, attempt)
  {
    if queue != [] {
      var m := queue[0];
      StepOnClassifies(m, status, runners, respond, classify, attempt);
      if !Runnable(m, status, runners) {
        EarlierCallsFailedOver(queue[1..], status, runners, respond, classify, attempt, lastError);
      } else if !Stops(respond(attempt, m), classify) {
        var o := respond(attempt, m);
        EarlierCallsFailedOver(queue[1..], status, runners, respond, classify, attempt + 1, Some(o.error));
        var rest := RunFrom(queue[1..], status, runners, respond, classify, attempt + 1, Some(o.error));
        var r := RunFrom(queue, status, runners, respond, classify, attempt, lastError);
        forall j | 0 <= j < |r.tried| - 1
          ensures !Stops(respond(attempt + j, r.tried[j]), classify)
        {
          if j == 0 {
            assert r.tried[0] == m;
          } else {
            assert r.tried[j] == rest.tried[j - 1];
            assert attempt + j == attempt + 1 + (j - 1);
          }
        }
      }
    }
  }

  /** The outcome of the last call of `r`, counted from `attempt`. */
  function LastOutcome<R>(r: Run<R>, respond: (nat, AIModel) -> Outcome<R>, attempt: nat): Outcome<R>
    requires |r.tried| > 0
  {
    respond(attempt + |r.tried| - 1, r.tried[|r.tried| - 1])
  }

  /** The last call of `r` ended the run. */
  predicate EndedByLastCall<R>(r: Run<R>, respond: (nat, AIModel) -> Outcome<R>, classify: Classifier, attempt: nat)
  {
    |r.tried| > 0 && Stops(LastOutcome(r, respond, attempt), classify)
  }

  /** A run ended by a call settles on that call's outcome. */
  lemma {:induction false} RunSettlesOnLastCall<R>(queue: seq<AIModel>, status: ProviderStatus, runners: set<Provider>,
                                                   respond: (nat, AIModel) -> Outcome<R>, classify: Classifier, attempt: nat, lastError: Option<Error>)
    requires EndedByLastCall(RunFrom(queue, status, runners, respond, classify, attempt, lastError), respond, classify, attempt)
    ensures RunFrom(queue, status, runners, respond, classify, attempt, lastError).result
         == Verdict(LastOutcome(RunFrom(queue, status, runners, respond, classify, attempt, lastError), respond, attempt), classify)
  {
    var r := RunFrom(queue, status, runners, respond, classify, attempt, lastError);
    var m := queue[0];
    StepOnClassifies(m, status, runners, respond, classify, attempt);
    if !Runnable(m, status, runners) {
      var rest := RunFrom(queue[1..], status, runners, respond, classify, attempt, lastError);
      assert r.tried == rest.tried && r.result == rest.result;
      RunSettlesOnLastCall(queue[1..], status, runners, respond, classify, attempt, lastError);
    } else if !Stops(respond(attempt, m), classify) {
      var o := respond(attempt, m);
      var rest := RunFrom(queue[1..], status, runners, respond, classify, attempt + 1, Some(o.error));
      assert r.tried == [m] + rest.tried && r.result == rest.result;
      assert |rest.tried| > 0;
      assert LastOutcome(r, respond, attempt) == LastOutcome(rest, respond, attempt + 1);
      RunSettlesOnLastCall(queue[1..], status, runners, respond, classify, attempt + 1, Some(o.error));
    }
  }

  /** A run not ended by a call that starts with a runnable model failed over from it to a run not ended by a call either. */
  lemma NotEndedFailsOver<R>(queue: seq<AIModel>, status: ProviderStatus, runners: set<Provider>,
                             respond: (nat, AIModel) -> Outcome<R>, classify: Classifier, attempt: nat, lastError: Option<Error>)
    requires queue != [] && Runnable(queue[0], status, runners)
    requires !EndedByLastCall(RunFrom(queue, status, runners, respond, classify, attempt, lastError), respond, classify, attempt)
    ensures !Stops(respond(attempt, queue[0]), classify)
    ensures RunFrom(queue, status, runners, respond, classify, attempt, lastError).tried
         == [queue[0]] + RunFrom(queue[1..], status, runners, respond, classify, attempt + 1, Some(respond(attempt, queue[0]).error)).tried
    ensures RunFrom(queue, status, runners, respond, classify, attempt, lastError).result
         == RunFrom(queue[1..], status, runners, respond, classify, attempt + 1, Some(respond(attempt, queue[0]).error)).result
    ensures |RunFrom(queue, status, runners, respond, classify, attempt, lastError).notes|
         == 1 + |RunFrom(queue[1..], status, runners, respond, classify, attempt + 1, Some(respond(attempt, queue[0]).error)).notes|
    ensures !EndedByLastCall(RunFrom(queue[1..], status, runners, respond, classify, attempt + 1, Some(respond(attempt, queue[0]).error)),
                             respond, classify, attempt + 1)
  {
    var m := queue[0];
    StepOnClassifies(m, status, runners, respond, classify, attempt);
    var r := RunFrom(queue, status, runners, respond, classify, attempt, lastError);
    if Stops(respond(attempt, m), classify) {
      assert false;
    }
    var rest := RunFrom(queue[1..], status, runners, respond, classify, attempt + 1, Some(respond(attempt, m).error));
    if rest.tried != [] {
      assert LastOutcome(r, respond, attempt) == LastOutcome(rest, respond, attempt + 1);
    }
  }

  /** A run not ended by a call that starts with a model that is not runnable is the rest of the run, with one more message. */
  lemma SkippedModelPassesOn<R>(queue: seq<AIModel>, status: ProviderStatus, runners: set<Provider>,
                                respond: (nat, AIModel) -> Outcome<R>, classify: Classifier, attempt: nat, lastError: Option<Error>)
    requires queue != [] && !Runnable(queue[0], status, runners)
    ensures RunFrom(queue, status, runners, respond, classify, attempt, lastError).tried
         == RunFrom(queue[1..], status, runners, respond, classify, attempt, lastError).tried
    ensures RunFrom(queue, status, runners, respond, classify, attempt, lastError).result
         == RunFrom(queue[1..], status, runners, respond, classify, attempt, lastError).result
    ensures |RunFrom(queue, status, runners, respond, classify, attempt, lastError).notes|
         == 1 + |RunFrom(queue[1..], status, runners, respond, classify, attempt, lastError).notes|
  {
    StepOnClassifies(queue[0], status, runners, respond, classify, attempt);
  }

  /** A run not ended by a call called every runnable model of the queue, in queue order. */
  lemma {:induction false} RunCallsEveryRunnableModel<R>(queue: seq<AIModel>, status: ProviderStatus, runners: set<Provider>,
                                                         respond: (nat, AIModel) -> Outcome<R>, classify: Classifier, attempt: nat, lastError: Option<Error>)
    requires !EndedByLastCall(RunFrom(queue, status, runners, respond, classify, attempt, lastError), respond, classify, attempt)
    ensures RunFrom(queue, status, runners, respond, classify, attempt, lastError).tried == RunnableModels(queue, status, runners)
  {
    if queue != [] {
      if !Runnable(queue[0], status, runners) {
        SkippedModelPassesOn(queue, status, runners, respond, classify, attempt, lastError);
        RunCallsEveryRunnableModel(queue[1..], status, runners, respond, classify, attempt, lastError);
      } else {
        NotEndedFailsOver(queue, status, runners, respond, classify, attempt, lastError);
        RunCallsEveryRunnableModel(queue[1..], status, runners, respond, classify, attempt + 1, Some(respond(attempt, queue[0]).error));
      }
    }
  }

  /** A run not ended by a call left one `onFailover` message per queued model. */
  lemma {:induction false} RunNotesEveryQueuedModel<R>(queue: seq<AIModel>, status: ProviderStatus, runners: set<Provider>,
                                                       respond: (nat, AIModel) -> Outcome<R>, classify: Classifier, attempt: nat, lastError: Option<Error>)
    requires !EndedByLastCall(RunFrom(queue, status, runners, respond, classify, attempt, lastError), respond, classify, attempt)
    ensures |RunFrom(queue, status, runners, respond, classify, attempt, lastError).notes| == |queue|
  {
    if queue != [] {
      if !Runnable(queue[0], status, runners) {
        SkippedModelPassesOn(queue, status, runners, respond, classify, attempt, lastError);
        RunNotesEveryQueuedModel(queue[1..], status, runners, respond, classify, attempt, lastError);
      } else {
        NotEndedFailsOver(queue, status, runners, respond, classify, attempt, lastError);
        RunNotesEveryQueuedModel(queue[1..], status, runners, respond, classify, attempt + 1, Some(respond(attempt, queue[0]).error));
      }
    }
  }

  /** `r`, its calls counted from `attempt`, throws its last call's error or, with no call, `lastError` (or the generic one). */
  predicate ThrowsLastError<R>(r: Run<R>, respond: (nat, AIModel) -> Outcome<R>, attempt: nat, lastError: Option<Error>)
  {
    if r.tried == [] then r.result == Threw(LastOr(lastError))
    else LastOutcome(r, respond, attempt).Failure? && r.result == Threw(LastOutcome(r, respond, attempt).error)
  }

  /** Putting a failed-over call in front of a run that throws its last error gives a run that throws its last error. */
  lemma FailedCallKeepsLastError<R>(r: Run<R>, rest: Run<R>, m: AIModel, respond: (nat, AIModel) -> Outcome<R>,
                                    attempt: nat, lastError: Option<Error>)
    requires respond(attempt, m).Failure?
    requires r.tried == [m] + rest.tried && r.result == rest.result
    requires ThrowsLastError(rest, respond, attempt + 1, Some(respond(attempt, m).error))
    ensures ThrowsLastError(r, respond, attempt, lastError)
  {
    if rest.tried != [] {
      assert LastOutcome(r, respond, attempt) == LastOutcome(rest, respond, attempt + 1);
    }
  }

  /** A run not ended by a call throws the last call's error or, with no call, the error it started with. */
  lemma {:induction false} RunThrowsLastError<R>(queue: seq<AIModel>, status: ProviderStatus, runners: set<Provider>,
                                                 respond: (nat, AIModel) -> Outcome<R>, classify: Classifier, attempt: nat, lastError: Option<Error>)
    requires !EndedByLastCall(RunFrom(queue, status, runners, respond, classify, attempt, lastError), respond, classify, attempt)
    ensures ThrowsLastError(RunFrom(queue, status, runners, respond, classify, attempt, lastError), respond, attempt, lastError)
  {
    if queue != [] {
      var m := queue[0];
      if !Runnable(m, status, runners) {
        SkippedModelPassesOn(queue, status, runners, respond, classify, attempt, lastError);
        RunThrowsLastError(queue[1..], status, runners, respond, classify, attempt, lastError);
      } else {
        NotEndedFailsOver(queue, status, runners, respond, classify, attempt, lastError);
        var e := respond(attempt, m).error;
        RunThrowsLastError(queue[1..], status, runners, respond, classify, attempt + 1, Some(e));
        FailedCallKeepsLastError(RunFrom(queue, status, runners, respond, classify, attempt, lastError),
                                 RunFrom(queue[1..], status, runners, respond, classify, attempt + 1, Some(e)), m, respond, attempt, lastError);
      }
    }
  }

  // Consequences for a whole run.

  /** An unknown model id throws `Model with ID … not found.` before any runner is called. */
  lemma UnknownModelThrows<R>(models: seq<AIModel>, initialModelId: string, status: ProviderStatus,
                              runners: set<Provider>, respond: (nat, AIModel) -> Outcome<R>)
    requires forall i :: 0 <= i < |models| ==> models[i].id != initialModelId
    ensures FailoverRun(models, initialModelId, status, runners, respond)
         == Run(Threw(NotFoundError(initialModelId)), [], [])
  {
  }

  /** A known model with no listed model's provider enabled throws the "No AI providers" error before any runner is called. */
  lemma NoEnabledProviderThrows<R>(models: seq<AIModel>, initialModelId: string, status: ProviderStatus,
                                   runners: set<Provider>, respond: (nat, AIModel) -> Outcome<R>)
    requires exists i :: 0 <= i < |models| && models[i].id == initialModelId
    requires forall i :: 0 <= i < |models| ==> !Enabled(status, models[i].provider)
    ensures FailoverRun(models, initialModelId, status, runners, respond) == Run(Threw(NoProvidersError), [], [])
  {
    var initial := Find(models, initialModelId).value;
    assert initial in models;
    QueueEmptyIffNoneEnabled(initial, models, status);
  }

  /** The queue the loop runs over, for a known model id. */
  function QueueFor(models: seq<AIModel>, initialModelId: string, status: ProviderStatus): seq<AIModel>
  {
    match Find(models, initialModelId)
    case None => []
    case Some(initial) => ModelQueue(initial, models, status)
  }

  /** A call whose outcome ends the run is the last call, and the run settles on that outcome. */
  lemma StoppingCallEndsTheRun<R>(models: seq<AIModel>, initialModelId: string, status: ProviderStatus,
                                  runners: set<Provider>, respond: (nat, AIModel) -> Outcome<R>, j: nat)
    requires j < |FailoverRun(models, initialModelId, status, runners, respond).tried|
    requires Stops(respond(j, FailoverRun(models, initialModelId, status, runners, respond).tried[j]), Classify)
    ensures j == |FailoverRun(models, initialModelId, status, runners, respond).tried| - 1
    ensures FailoverRun(models, initialModelId, status, runners, respond).result
         == Verdict(respond(j, FailoverRun(models, initialModelId, status, runners, respond).tried[j]), Classify)
  {
    var queue := QueueFor(models, initialModelId, status);
    var r := FailoverRun(models, initialModelId, status, runners, respond);
    assert r == RunFrom(queue, status, runners, respond, Classify, 0, None);
    EarlierCallsFailedOver(queue, status, runners, respond, Classify, 0, None);
    assert j == |r.tried| - 1;
    assert LastOutcome(r, respond, 0) == respond(j, r.tried[j]);
    RunSettlesOnLastCall(queue, status, runners, respond, Classify, 0, None);
  }

  /** The first call that succeeds is the last call, and its value is the one returned. */
  lemma SuccessIsReturned<R>(models: seq<AIModel>, initialModelId: string, status: ProviderStatus,
                             runners: set<Provider>, respond: (nat, AIModel) -> Outcome<R>, j: nat)
    requires j < |FailoverRun(models, initialModelId, status, runners, respond).tried|
    requires respond(j, FailoverRun(models, initialModelId, status, runners, respond).tried[j]).Success?
    ensures j == |FailoverRun(models, initialModelId, status, runners, respond).tried| - 1
    ensures FailoverRun(models, initialModelId, status, runners, respond).result
         == Returned(respond(j, FailoverRun(models, initialModelId, status, runners, respond).tried[j]).value)
  {
    StoppingCallEndsTheRun(models, initialModelId, status, runners, respond, j);
  }

  /** A returned value comes from the last call, made after every earlier call failed over. */
  lemma ReturnedValueComesFromLastCall<R>(models: seq<AIModel>, initialModelId: string, status: ProviderStatus,
                                          runners: set<Provider>, respond: (nat, AIModel) -> Outcome<R>)
    requires FailoverRun(models, initialModelId, status, runners, respond).result.Returned?
    ensures |FailoverRun(models, initialModelId, status, runners, respond).tried| > 0
    ensures LastOutcome(FailoverRun(models, initialModelId, status, runners, respond), respond, 0)
         == Success(FailoverRun(models, initialModelId, status, runners, respond).result.value)
    ensures FailedOverBeforeLast(FailoverRun(models, initialModelId, status, runners, respond), respond, Classify, 0)
  {
    var queue := QueueFor(models, initialModelId, status);
    var r := FailoverRun(models, initialModelId, status, runners, respond);
    assert r == RunFrom(queue, status, runners, respond, Classify, 0, None);
    EarlierCallsFailedOver(queue, status, runners, respond, Classify, 0, None);
    if EndedByLastCall(r, respond, Classify, 0) {
      RunSettlesOnLastCall(queue, status, runners, respond, Classify, 0, None);
    } else {
      RunThrowsLastError(queue, status, runners, respond, Classify, 0, None);
    }
  }

  /** A call failing with `api key is invalid`, in any letter case, is the last call, and its error is rethrown. */
  lemma InvalidKeyIsRethrown<R>(models: seq<AIModel>, initialModelId: string, status: ProviderStatus,
                                runners: set<Provider>, respond: (nat, AIModel) -> Outcome<R>, j: nat)
    requires j < |FailoverRun(models, initialModelId, status, runners, respond).tried|
    requires respond(j, FailoverRun(models, initialModelId, status, runners, respond).tried[j]).Failure?
    requires InvalidKey(respond(j, FailoverRun(models, initialModelId, status, runners, respond).tried[j]).error)
    ensures j == |FailoverRun(models, initialModelId, status, runners, respond).tried| - 1
    ensures FailoverRun(models, initialModelId, status, runners, respond).result
         == Threw(respond(j, FailoverRun(models, initialModelId, status, runners, respond).tried[j]).error)
  {
    StoppingCallEndsTheRun(models, initialModelId, status, runners, respond, j);
  }

  /** A call failing with `network error` (and not an invalid key) is the last call, and the fixed network message is thrown. */
  lemma NetworkErrorStops<R>(models: seq<AIModel>, initialModelId: string, status: ProviderStatus,
                             runners: set<Provider>, respond: (nat, AIModel) -> Outcome<R>, j: nat)
    requires j < |FailoverRun(models, initialModelId, status, runners, respond).tried|
    requires respond(j, FailoverRun(models, initialModelId, status, runners, respond).tried[j]).Failure?
    requires NetworkFailure(respond(j, FailoverRun(models, initialModelId, status, runners, respond).tried[j]).error)
    requires !InvalidKey(respond(j, FailoverRun(models, initialModelId, status, runners, respond).tried[j]).error)
    ensures j == |FailoverRun(models, initialModelId, status, runners, respond).tried| - 1
    ensures FailoverRun(models, initialModelId, status, runners, respond).result == Threw(NetworkError)
  {
    StoppingCallEndsTheRun(models, initialModelId, status, runners, respond, j);
  }

  /**
   * When no call ends the run, every queued model with an enabled provider
   * and a runner is called once, in queue order, every queued model leaves
   * one `onFailover` message, and the last call's error is thrown (the
   * generic "All available …" error when no call was made).
   */
  lemma AllFailedThrowsLastError<R>(models: seq<AIModel>, initialModelId: string, status: ProviderStatus,
                                    runners: set<Provider>, respond: (nat, AIModel) -> Outcome<R>)
    requires QueueFor(models, initialModelId, status) != []
    requires !EndedByLastCall(FailoverRun(models, initialModelId, status, runners, respond), respond, Classify, 0)
    ensures FailoverRun(models, initialModelId, status, runners, respond).tried
         == RunnableModels(QueueFor(models, initialModelId, status), status, runners)
    ensures |FailoverRun(models, initialModelId, status, runners, respond).notes| == |QueueFor(models, initialModelId, status)|
    ensures FailoverRun(models, initialModelId, status, runners, respond).result == Threw(
      if FailoverRun(models, initialModelId, status, runners, respond).tried == [] then AllFailedError
      else LastOutcome(FailoverRun(models, initialModelId, status, runners, respond), respond, 0).error)
  {
    var queue := QueueFor(models, initialModelId, status);
    assert FailoverRun(models, initialModelId, status, runners, respond) == RunFrom(queue, status, runners, respond, Classify, 0, None);
    RunCallsEveryRunnableModel(queue, status, runners, respond, Classify, 0, None);
    RunNotesEveryQueuedModel(queue, status, runners, respond, Classify, 0, None);
    RunThrowsLastError(queue, status, runners, respond, Classify, 0, None);
  }

  /** The queued models are never skipped as disabled: the only messages before a call are "No runner" ones. */
  lemma QueuedModelsAreRunnableWithRunner(models: seq<AIModel>, initialModelId: string, status: ProviderStatus, runners: set<Provider>)
    ensures var queue := QueueFor(models, initialModelId, status);
      forall k :: 0 <= k < |queue| ==> (Runnable(queue[k], status, runners) <==> queue[k].provider in runners)
  {
    match Find(models, initialModelId)
    case None =>
    case Some(initial) => ModelQueueShape(initial, models, status);
  }

  // The method.

  /** The queue-building part of `executeWithFailover`: `push` the chosen model, then `push(...models.filter(…))`. */
  method BuildModelQueue(initial: AIModel, models: seq<AIModel>, status: ProviderStatus) returns (modelQueue: seq<AIModel>)
    ensures modelQueue == ModelQueue(initial, models, status)
  {
    modelQueue := [];
    if Enabled(status, initial.provider) {
      modelQueue := modelQueue + [initial];
    }
    ghost var head := modelQueue;
    for i := 0 to |models|
      invariant modelQueue == head + OtherEnabled(models[..i], initial.id, status)
    {
      assert models[..i + 1][..i] == models[..i];
      if models[i].id != initial.id && Enabled(status, models[i].provider) {
        modelQueue := modelQueue + [models[i]];
      }
    }
    assert models[..|models|] == models;
  }

  /** The loop body for one model: the provider checks, the runner call and the `catch` block's classification. */
  method TryModel<R>(model: AIModel, status: ProviderStatus, runners: set<Provider>,
                     respond: (nat, AIModel) -> Outcome<R>, attempt: nat) returns (step: Step<R>)
    ensures step == StepOn(model, status, runners, respond, Classify, attempt)
  {
    if !Enabled(status, model.provider) {
      return Skipped(ProviderDisabled(model));
    }
    if model.provider !in runners {
      return Skipped(NoRunner(model.provider));
    }
    var outcome := respond(attempt, model);
    if outcome.Success? {
      return Settled(Returned(outcome.value));
    }
    var error := outcome.error;
    if InvalidKey(error) {
      return Settled(Threw(error));
    }
    if NetworkFailure(error) {
      return Settled(Threw(NetworkError));
    }
    if RateLimited(error) {
      return FailedOver(QuotaExceededFor(model), error);
    }
    return FailedOver(ErrorWith(model), error);
  }

  /**
   * The loop's invariant: the whole run `whole` is what has been noted and
   * called so far followed by the run of the models still in `queue`.
   */
  ghost predicate Resumes<R>(whole: Run<R>, queue: seq<AIModel>, status: ProviderStatus, runners: set<Provider>,
                             respond: (nat, AIModel) -> Outcome<R>, classify: Classifier, lastError: Option<Error>,
                             notes: seq<Note>, tried: seq<AIModel>)
  {
    var rest := RunFrom(queue, status, runners, respond, classify, |tried|, lastError);
    whole == Run(rest.result, notes + rest.notes, tried + rest.tried)
  }

  /** One pass of the loop body keeps `Resumes`, or settles the whole run. */
  lemma ResumeStep<R>(whole: Run<R>, queue: seq<AIModel>, status: ProviderStatus, runners: set<Provider>,
                      respond: (nat, AIModel) -> Outcome<R>, classify: Classifier, lastError: Option<Error>,
                      notes: seq<Note>, tried: seq<AIModel>)
    requires queue != []
    requires Resumes(whole, queue, status, runners, respond, classify, lastError, notes, tried)
    ensures match StepOn(queue[0], status, runners, respond, classify, |tried|)
      case Skipped(note) => Resumes(whole, queue[1..], status, runners, respond, classify, lastError, notes + [note], tried)
      case Settled(r) => whole == Run(r, notes, tried + [queue[0]])
      case FailedOver(note, error) =>
        Resumes(whole, queue[1..], status, runners, respond, classify, Some(error), notes + [note], tried + [queue[0]])
  {
    match StepOn(queue[0], status, runners, respond, classify, |tried|)
    case Skipped(note) =>
      var rest := RunFrom(queue[1..], status, runners, respond, classify, |tried|, lastError);
      assert notes + ([note] + rest.notes) == (notes + [note]) + rest.notes;
    case Settled(r) =>
    case FailedOver(note, error) =>
      var rest := RunFrom(queue[1..], status, runners, respond, classify, |tried| + 1, Some(error));
      assert notes + ([note] + rest.notes) == (notes + [note]) + rest.notes;
      assert tried + ([queue[0]] + rest.tried) == (tried + [queue[0]]) + rest.tried;
  }

  /** The `for (const model of modelQueue)` loop of `executeWithFailover`, with `lastError` and the `onFailover` calls. */
  method RunModelQueue<R>(modelQueue: seq<AIModel>, status: ProviderStatus, runners: set<Provider>,
                          respond: (nat, AIModel) -> Outcome<R>)
    returns (result: Failover<R>, notes: seq<Note>, tried: seq<AIModel>)
    ensures Run(result, notes, tried) == RunFrom(modelQueue, status, runners, respond, Classify, 0, None)
  {
    ghost var whole := RunFrom(modelQueue, status, runners, respond, Classify, 0, None);
    var lastError: Option<Error> := None;
    notes, tried := [], [];
    assert Resumes(whole, modelQueue[0..], status, runners, respond, Classify, lastError, notes, tried);
    for i := 0 to |modelQueue|
      invariant Resumes(whole, modelQueue[i..], status, runners, respond, Classify, lastError, notes, tried)
    {
      var model := modelQueue[i];
      ResumeStep(whole, modelQueue[i..], status, runners, respond, Classify, lastError, notes, tried);
      assert modelQueue[i..][1..] == modelQueue[i + 1..];
      var step := TryModel(model, status, runners, respond, |tried|);
      match step {
        case Skipped(note) =>
          notes := notes + [note];
        case Settled(r) =>
          return r, notes, tried + [model];
        case FailedOver(note, error) =>
          notes := notes + [note];
          tried := tried + [model];
          lastError := Some(error);
      }
    }
    result := Threw(LastOr(lastError));
    assert notes + [] == notes && tried + [] == tried;
  }

  /** `executeWithFailover`: look up the chosen model, build the queue, then run it. */
  method ExecuteWithFailover<R>(models: seq<AIModel>, initialModelId: string, status: ProviderStatus,
                                runners: set<Provider>, respond: (nat, AIModel) -> Outcome<R>)
    returns (result: Failover<R>, notes: seq<Note>, tried: seq<AIModel>)
    ensures Run(result, notes, tried) == FailoverRun(models, initialModelId, status, runners, respond)
  {
    var found := Find(models, initialModelId);
    if found.None? {
      return Threw(NotFoundError(initialModelId)), [], [];
    }
    var modelQueue := BuildModelQueue(found.value, models, status);
    if modelQueue == [] {
      return Threw(NoProvidersError), [], [];
    }
    result, notes, tried := RunModelQueue(modelQueue, status, runners, respond);
  }

  // The configured models.

  /** With only OpenAI enabled and GPT-4o chosen, the queue is GPT-4o then Codex. */
  lemma OpenAIOnlyQueue()
    ensures QueueFor(Models, "gpt-4o", ProviderStatus(false, true, false)) == [Models[2], Models[3]]
  {
    var status := ProviderStatus(false, true, false);
    assert Models[0].id != "gpt-4o" && Models[1].id != "gpt-4o";
    assert Find(Models, "gpt-4o") == Some(Models[2]);
    assert Models[..3][..2] == Models[..2] && Models[..2][..1] == Models[..1] && Models[..1][..0] == [];
    assert Models[..3][2] == Models[2] && Models[..2][1] == Models[1] && Models[..1][0] == Models[0];
    assert OtherEnabled(Models[..1], "gpt-4o", status) == [];
    assert OtherEnabled(Models[..2], "gpt-4o", status) == [];
    assert OtherEnabled(Models[..3], "gpt-4o", status) == [];
    assert OtherEnabled(Models, "gpt-4o", status) == [Models[3]];
  }
}
