/** What a `/chat` request promises, stated over `Respond`: how its events end, when
    the conversation, the context and the status log change, which collaborator calls
    it makes and in what order, and what the fallback reply is. */
module ChatProperties {
  import opened Outcomes
  import opened JsText
  import opened History
  import opened SearchLogic
  import opened Messages
  import opened SearchPipeline
  import opened Server

  /** Every event is a progress status. */
  predicate AllProgress(events: seq<Event>)
  {
    forall i :: 0 <= i < |events| ==> events[i].SearchStatus?
  }

  /** Progress statuses followed by exactly one terminal event. */
  predicate EndsOnce(events: seq<Event>)
  {
    |events| >= 1 && events[|events| - 1].Terminal() && AllProgress(events[..|events| - 1])
  }

  /** The part of `/chat` before the completion, as `Respond` chooses it. */
  function StageOf(s: Session, message: string, command: string, env: Collaborators): Stage
  {
    if IsSearchCommand(command) then SearchStage(s, message, command, env) else OfflineStage(s, message, env)
  }

  /** Whether the search part ran to its end: the context refresh, the query
      generation and every search succeeded. */
  predicate SearchSucceeds(s: Session, command: string, env: Collaborators)
  {
    IsSearchCommand(command)
    && Refreshed(s.conversation, s.context, env.summary).Ok?
    && env.queryText.Ok?
    && var queries := GeneratedQueries(command, env.queryText.value);
       forall k :: 0 <= k < |queries| ==> env.search(queries[k]).Ok?
  }

  /** The search provider is sent exactly the queries the handler generated:
      `performSearch` re-splits their comma-joined text, which gives them back. */
  lemma PerformedQueries(command: string, text: string)
    requires IsSearchCommand(command)
    ensures QueriesFor(command, Join(GeneratedQueries(command, text), ",")) == GeneratedQueries(command, text)
  {
    if command == "deepsearch" {
      QueriesSurviveRejoin(text);
    }
  }

  lemma AppendTerminal(events: seq<Event>, e: Event)
    requires AllProgress(events) && e.Terminal()
    ensures EndsOnce(events + [e])
  {
    assert (events + [e])[..|events|] == events;
  }

  /** The first part either hands a turn on with only progress written so far, or
      has ended the request with one terminal event. */
  lemma StageEvents(s: Session, message: string, command: string, env: Collaborators)
    ensures var stage := StageOf(s, message, command, env);
      if stage.pending.Some? then AllProgress(stage.events) else EndsOnce(stage.events)
  {
    if IsSearchCommand(command) {
      var r := Refreshed(s.conversation, s.context, env.summary);
      if r.Ok? && env.queryText.Ok? {
        var queries := GeneratedQueries(command, env.queryText.value);
        var performed := QueriesFor(command, Join(queries, ","));
        var run := RunQueries(performed, env.search, |performed|);
        var progress := ProgressEvents(performed, run.issued);
        assert AllProgress(progress);
        if run.gathered.Failed? {
          AppendTerminal(progress, SearchError(SearchFailure));
        } else {
          var done := CreateSearchMessage(queries, true, 0, 0);
          assert AllProgress(progress + [SearchStatus(done, Some(|s.conversation|))]);
        }
      } else {
        AppendTerminal([], SearchError(SearchFailure));
      }
    } else if Refreshed(s.conversation, s.context, env.summary).Failed? {
      AppendTerminal([], Final(ErrorMessage(Refreshed(s.conversation, s.context, env.summary).status), None));
    }
  }

  /** Every `/chat` request writes progress statuses and then exactly one terminal
      event: the final reply, an error as the final event, or the search error. */
  lemma RespondEndsOnce(s: Session, message: string, command: string, env: Collaborators)
    ensures EndsOnce(Respond(s, message, command, env).events)
  {
    StageEvents(s, message, command, env);
    var stage := StageOf(s, message, command, env);
    if stage.pending.Some? {
      var merged := MergeHistory(stage.session.conversation, [stage.pending.value]);
      var x := Respond(s, message, command, env);
      assert |x.events| == |stage.events| + 1 && x.events[..|stage.events|] == stage.events;
      var e := x.events[|stage.events|];
      assert e.Terminal();
      assert x.events == stage.events + [e];
      AppendTerminal(stage.events, e);
    }
  }

  /** The first part keeps the conversation, refreshes the context when the
      summariser answered, and makes its summariser call, if any, first; without a
      summariser call it either calls something else first or hands a turn on. */
  lemma StageBasics(s: Session, message: string, command: string, env: Collaborators)
    ensures var stage := StageOf(s, message, command, env);
      var c0 := SummaryCalls(s.conversation, s.context);
      var r := Refreshed(s.conversation, s.context, env.summary);
      stage.session.conversation == s.conversation
      && stage.session.context == (if r.Ok? then r.value else s.context)
      && |c0| <= |stage.calls| && stage.calls[..|c0|] == c0
      && (|c0| == 0 ==> (|stage.calls| > 0 && !stage.calls[0].Summarize?) || (|stage.calls| == 0 && stage.pending.Some?))
  {
    var stage := StageOf(s, message, command, env);
    var c0 := SummaryCalls(s.conversation, s.context);
    if IsSearchCommand(command) && Refreshed(s.conversation, s.context, env.summary).Ok? {
      var context := Refreshed(s.conversation, s.context, env.summary).value;
      var calls1 := c0 + [GenerateQueries(command, QueryPrompt(context, message))];
      assert calls1[..|c0|] == c0;
      assert stage.calls[..|calls1|] == calls1;
    }
  }

  /** The completion call and what follows it: the stored history merged with the
      pending turn is sent, and the session either stays as the first part left it
      or gains the user's message and the reply. */
  lemma AnswerShape(s: Session, events: seq<Event>, calls: seq<Call>, pending: Turn,
                    message: string, command: string, completion: Outcome<ReplyContent>)
    ensures var x := Answer(s, events, calls, pending, message, command, completion);
      var last := x.events[|x.events| - 1];
      |x.events| == |events| + 1
      && x.calls == calls + [Complete(command, MergeHistory(s.conversation, [pending]))]
      && x.session.context == s.context && x.session.log == s.log
      && (if last.Final? && last.conversation.Some? then
            x.session.conversation == s.conversation + [Turn(User, Plain(message)), Turn(Assistant, Plain(last.response))]
            && last.conversation.value == x.session.conversation
          else x.session.conversation == s.conversation)
  {
  }

  /** The conversation is appended to, by the user's own message and the reply,
      exactly when the final event carries a conversation; otherwise it is unchanged. */
  lemma RespondConversation(s: Session, message: string, command: string, env: Collaborators)
    ensures var x := Respond(s, message, command, env);
      |x.events| >= 1
      && var last := x.events[|x.events| - 1];
      if last.Final? && last.conversation.Some? then
        x.session.conversation == s.conversation + [Turn(User, Plain(message)), Turn(Assistant, Plain(last.response))]
        && last.conversation.value == x.session.conversation
      else x.session.conversation == s.conversation
  {
    RespondEndsOnce(s, message, command, env);
    var stage := StageOf(s, message, command, env);
    StageBasics(s, message, command, env);
    if stage.pending.Some? {
      AnswerShape(stage.session, stage.events, stage.calls, stage.pending.value, message, command, env.completion);
    }
  }

  /** The summariser is called, first and on the last exchange, exactly when the
      conversation already holds two turns; its answer then replaces the context,
      which is otherwise left as it was. */
  lemma RespondSummarises(s: Session, message: string, command: string, env: Collaborators)
    ensures var x := Respond(s, message, command, env);
      (|s.conversation| >= 2 <==> |x.calls| >= 1 && x.calls[0].Summarize?)
      && (|s.conversation| >= 2 ==> x.calls[0] == Summarize(ContextPrompt(s.conversation, s.context)))
      && (forall i :: 0 < i < |x.calls| ==> !x.calls[i].Summarize?)
      && (|s.conversation| < 2 ==> forall i :: 0 <= i < |x.calls| ==> !x.calls[i].Summarize?)
      && x.session.context == (if |s.conversation| >= 2 && env.summary.Ok? then env.summary.value else s.context)
  {
    var stage := StageOf(s, message, command, env);
    StageBasics(s, message, command, env);
    StageCallsAfterSummary(s, message, command, env);
    if stage.pending.Some? {
      AnswerShape(stage.session, stage.events, stage.calls, stage.pending.value, message, command, env.completion);
      var x := Respond(s, message, command, env);
      assert x.calls[..|stage.calls|] == stage.calls;
      forall i | 0 <= i < |x.calls| && i >= |SummaryCalls(s.conversation, s.context)|
        ensures !x.calls[i].Summarize?
      {
        if i < |stage.calls| {
          assert x.calls[i] == stage.calls[i];
        }
      }
    }
  }

  /** After its summariser call, if any, the first part calls only the query
      generator and the search provider. */
  lemma StageCallsAfterSummary(s: Session, message: string, command: string, env: Collaborators)
    ensures var stage := StageOf(s, message, command, env);
      forall i :: |SummaryCalls(s.conversation, s.context)| <= i < |stage.calls| ==>
        stage.calls[i].GenerateQueries? || stage.calls[i].WebSearch?
  {
    if IsSearchCommand(command) && Refreshed(s.conversation, s.context, env.summary).Ok? && env.queryText.Ok? {
      SearchStageRun(s, message, command, env);
      var queries := GeneratedQueries(command, env.queryText.value);
      var run := RunQueries(queries, env.search, |queries|);
      var generate := GenerateQueries(command, QueryPrompt(Refreshed(s.conversation, s.context, env.summary).value, message));
      GenerateThenSearches(SummaryCalls(s.conversation, s.context), generate, SearchCalls(queries[..run.issued]));
    }
  }

  /** After a prefix, a query-generator call followed by searches holds only those
      two kinds of call. */
  lemma GenerateThenSearches(c0: seq<Call>, generate: Call, searches: seq<Call>)
    requires generate.GenerateQueries?
    requires forall i :: 0 <= i < |searches| ==> searches[i].WebSearch?
    ensures var all := c0 + [generate] + searches;
      forall i :: |c0| <= i < |all| ==> all[i].GenerateQueries? || all[i].WebSearch?
  {
    var all := c0 + [generate] + searches;
    forall i | |c0| < i < |all|
      ensures all[i].WebSearch?
    {
      assert all[i] == searches[i - |c0| - 1];
    }
  }

  /** When the first part hands a turn to the completion, and which: the user's own
      message offline once the context is refreshed; in search mode, once every
      search succeeded, the augmented question, after the progress statuses and the
      completion status that is also logged at the index of the user's coming turn.
      Nothing else touches the status log. */
  lemma StagePending(s: Session, message: string, command: string, env: Collaborators)
    ensures var stage := StageOf(s, message, command, env);
      (stage.pending.Some? <==>
         if IsSearchCommand(command) then SearchSucceeds(s, command, env)
         else Refreshed(s.conversation, s.context, env.summary).Ok?)
      && (!IsSearchCommand(command) && stage.pending.Some? ==>
            stage.pending.value == Turn(User, Plain(message)) && stage.events == [])
      && (!SearchSucceeds(s, command, env) ==> stage.session.log == s.log)
      && (SearchSucceeds(s, command, env) ==>
            var queries := GeneratedQueries(command, env.queryText.value);
            var run := RunQueries(queries, env.search, |queries|);
            var done := CreateSearchMessage(queries, true, 0, 0);
            run.gathered.Ok?
            && stage.session.log == s.log + [StatusRecord(|s.conversation|, done)]
            && stage.events == ProgressEvents(queries, |queries|) + [SearchStatus(done, Some(|s.conversation|))]
            && stage.pending.value == Turn(User, Plain(FormatSearchResults(run.gathered.value, message))))
  {
    if IsSearchCommand(command) && Refreshed(s.conversation, s.context, env.summary).Ok? && env.queryText.Ok? {
      var queries := GeneratedQueries(command, env.queryText.value);
      PerformedQueries(command, env.queryText.value);
      RunOutcome(queries, env.search, |queries|);
    }
  }

  /** The status log gains one record exactly when the search part ran to its end:
      the completion status for the generated queries, at the index the user's turn
      will take; that status is also the event written just before the last one. */
  lemma RespondStatusLog(s: Session, message: string, command: string, env: Collaborators)
    ensures var x := Respond(s, message, command, env);
      (x.session.log != s.log <==> SearchSucceeds(s, command, env))
      && (SearchSucceeds(s, command, env) ==>
            var done := CreateSearchMessage(GeneratedQueries(command, env.queryText.value), true, 0, 0);
            x.session.log == s.log + [StatusRecord(|s.conversation|, done)]
            && |x.events| >= 2 && x.events[|x.events| - 2] == SearchStatus(done, Some(|s.conversation|)))
  {
    var stage := StageOf(s, message, command, env);
    StagePending(s, message, command, env);
    if stage.pending.Some? {
      AnswerShape(stage.session, stage.events, stage.calls, stage.pending.value, message, command, env.completion);
    }
  }

  /** Each progress status names its query, its position and the total. */
  lemma ProgressEventsName(queries: seq<string>, n: nat)
    requires n <= |queries|
    ensures forall i :: 0 <= i < n ==>
      ProgressEvents(queries, n)[i] == SearchStatus(StatusMessage(ProgressText(queries[i], i + 1, |queries|), [queries[i]]), None)
  {
    forall i | 0 <= i < n
      ensures ProgressEvents(queries, n)[i] == SearchStatus(StatusMessage(ProgressText(queries[i], i + 1, |queries|), [queries[i]]), None)
    {
      assert ProgressEvents(queries, n)[i] == ProgressEvent(queries, i);
    }
  }

  /** The search part, once the queries are generated, in terms of the generated
      queries themselves. */
  lemma SearchStageRun(s: Session, message: string, command: string, env: Collaborators)
    requires IsSearchCommand(command)
    requires Refreshed(s.conversation, s.context, env.summary).Ok? && env.queryText.Ok?
    ensures var stage := StageOf(s, message, command, env);
      var queries := GeneratedQueries(command, env.queryText.value);
      var run := RunQueries(queries, env.search, |queries|);
      var asked := SummaryCalls(s.conversation, s.context)
                   + [GenerateQueries(command, QueryPrompt(Refreshed(s.conversation, s.context, env.summary).value, message))];
      stage.calls == asked + SearchCalls(queries[..run.issued])
      && run.issued <= |stage.events| && stage.events[..run.issued] == ProgressEvents(queries, run.issued)
      && (run.gathered.Failed? ==>
            stage.pending.None? && stage.events == ProgressEvents(queries, run.issued) + [SearchError(SearchFailure)])
  {
    PerformedQueries(command, env.queryText.value);
  }

  /** With the context refreshed and the queries generated, each query searched is
      first announced by its progress status (see `ProgressEventsName`); a failed search ends the request with the search error right after the
      failing query's status. */
  lemma RespondSearchProgress(s: Session, message: string, command: string, env: Collaborators)
    requires IsSearchCommand(command)
    requires Refreshed(s.conversation, s.context, env.summary).Ok? && env.queryText.Ok?
    ensures var x := Respond(s, message, command, env);
      var queries := GeneratedQueries(command, env.queryText.value);
      var run := RunQueries(queries, env.search, |queries|);
      run.issued <= |x.events| && x.events[..run.issued] == ProgressEvents(queries, run.issued)
      && (run.gathered.Failed? ==> x.events == ProgressEvents(queries, run.issued) + [SearchError(SearchFailure)])
  {
    var queries := GeneratedQueries(command, env.queryText.value);
    var run := RunQueries(queries, env.search, |queries|);
    var stage := StageOf(s, message, command, env);
    SearchStageRun(s, message, command, env);
    RespondFromStage(s, message, command, env);
    var x := Respond(s, message, command, env);
    PrefixOfPrefix(x.events, |stage.events|, run.issued);
  }

  /** What the first part wrote is a prefix of what the request wrote; when no turn
      was handed on, the request is the first part. */
  lemma RespondFromStage(s: Session, message: string, command: string, env: Collaborators)
    ensures var stage := StageOf(s, message, command, env);
      var x := Respond(s, message, command, env);
      |stage.events| <= |x.events| && x.events[..|stage.events|] == stage.events
      && (stage.pending.None? ==> x == Exchange(stage.session, stage.events, stage.calls))
  {
    var stage := StageOf(s, message, command, env);
    if stage.pending.Some? {
      AnswerShape(stage.session, stage.events, stage.calls, stage.pending.value, message, command, env.completion);
      var x := Respond(s, message, command, env);
      assert x.events == stage.events + [x.events[|stage.events|]];
    }
  }

  lemma PrefixOfPrefix<T>(a: seq<T>, m: nat, n: nat)
    requires n <= m <= |a|
    ensures a[..m][..n] == a[..n]
  {
  }

  /** With the context refreshed and the queries generated, the search provider is
      called on the queries strictly in order, right after the summariser and the
      query generator, up to and including the first failing search; after a failure
      nothing else is called. */
  lemma RespondSearchCalls(s: Session, message: string, command: string, env: Collaborators)
    requires IsSearchCommand(command)
    requires Refreshed(s.conversation, s.context, env.summary).Ok? && env.queryText.Ok?
    ensures var x := Respond(s, message, command, env);
      var queries := GeneratedQueries(command, env.queryText.value);
      var run := RunQueries(queries, env.search, |queries|);
      var asked := SummaryCalls(s.conversation, s.context)
                   + [GenerateQueries(command, QueryPrompt(Refreshed(s.conversation, s.context, env.summary).value, message))];
      |asked| + run.issued <= |x.calls|
      && x.calls[..|asked| + run.issued] == asked + SearchCalls(queries[..run.issued])
      && (run.gathered.Failed? ==> x.calls == asked + SearchCalls(queries[..run.issued]))
  {
    var stage := StageOf(s, message, command, env);
    SearchStageRun(s, message, command, env);
    if stage.pending.Some? {
      AnswerShape(stage.session, stage.events, stage.calls, stage.pending.value, message, command, env.completion);
      var x := Respond(s, message, command, env);
      assert x.calls[..|stage.calls|] == stage.calls;
    }
  }

  /** A request whose first part ended made no completion call: its last call is to
      the summariser, the query generator or the search provider. */
  lemma StageLastCall(s: Session, message: string, command: string, env: Collaborators)
    ensures var stage := StageOf(s, message, command, env);
      stage.pending.None? ==> |stage.calls| >= 1 && !stage.calls[|stage.calls| - 1].Complete?
  {
    var stage := StageOf(s, message, command, env);
    if IsSearchCommand(command) && Refreshed(s.conversation, s.context, env.summary).Ok? && env.queryText.Ok? {
      SearchStageRun(s, message, command, env);
    }
  }

  /** The completion is asked for exactly when the first part handed a turn on, as
      the last call, with the stored history merged with that turn: the user's
      message offline, the augmented question built from at most three results per
      query in search mode. */
  lemma RespondCompletionRequest(s: Session, message: string, command: string, env: Collaborators)
    ensures var x := Respond(s, message, command, env);
      var asked := |x.calls| >= 1 && x.calls[|x.calls| - 1].Complete?;
      (asked <==> if IsSearchCommand(command) then SearchSucceeds(s, command, env)
                  else Refreshed(s.conversation, s.context, env.summary).Ok?)
      && (!IsSearchCommand(command) && asked ==>
            x.calls[|x.calls| - 1] == Complete(command, MergeHistory(s.conversation, [Turn(User, Plain(message))])))
      && (SearchSucceeds(s, command, env) ==>
            var queries := GeneratedQueries(command, env.queryText.value);
            var run := RunQueries(queries, env.search, |queries|);
            run.gathered.Ok? && |run.gathered.value| <= MaxSearchResults * |queries|
            && x.calls[|x.calls| - 1]
               == Complete(command, MergeHistory(s.conversation, [Turn(User, Plain(FormatSearchResults(run.gathered.value, message)))])))
  {
    var stage := StageOf(s, message, command, env);
    StagePending(s, message, command, env);
    StageBasics(s, message, command, env);
    StageLastCall(s, message, command, env);
    if SearchSucceeds(s, command, env) {
      var queries := GeneratedQueries(command, env.queryText.value);
      RunOutcome(queries, env.search, |queries|);
    }
    if stage.pending.Some? {
      AnswerShape(stage.session, stage.events, stage.calls, stage.pending.value, message, command, env.completion);
    }
  }

  /** A completion without text, answering a turn new to the history, falls back on
      that turn itself, and the exchange is still stored. */
  lemma AnswerFallback(s: Session, events: seq<Event>, calls: seq<Call>, pending: Turn,
                       message: string, command: string, completion: Outcome<ReplyContent>)
    requires completion.Ok? && ReplyText(completion.value) == ""
    requires pending !in s.conversation && pending.content.Plain?
    ensures var x := Answer(s, events, calls, pending, message, command, completion);
      Fallback(pending.content).Ok?
      && x.events[|x.events| - 1] == Final(Fallback(pending.content).value, Some(x.session.conversation))
  {
    MergeHistorySpec(s.conversation, [pending]);
    var merged := MergeHistory(s.conversation, [pending]);
    assert merged[|merged| - 1] == pending;
  }

  /** The augmented question is far longer than "jomok", so falling back on it gives
      the apology. */
  lemma AugmentedFallsBackToApology(results: seq<SearchResult>, question: string)
    ensures Fallback(Plain(FormatSearchResults(results, question))) == Ok(Apology)
  {
    FormatSearchResultsFrames(results, question);
    assert |Lower(FormatSearchResults(results, question))| > 5;
  }

  /** Offline, a completion without text answering a message new to the history
      gives "aiaiai" for a message spelling "jomok" in any case and the apology
      otherwise. */
  lemma RespondFallbackOffline(s: Session, message: string, command: string, env: Collaborators)
    requires !IsSearchCommand(command) && Refreshed(s.conversation, s.context, env.summary).Ok?
    requires env.completion.Ok? && ReplyText(env.completion.value) == ""
    requires Turn(User, Plain(message)) !in s.conversation
    ensures var x := Respond(s, message, command, env);
      x.events[|x.events| - 1] == Final(if SpellsJomok(message) then "aiaiai" else Apology, Some(x.session.conversation))
  {
    var stage := StageOf(s, message, command, env);
    StagePending(s, message, command, env);
    AnswerFallback(stage.session, stage.events, stage.calls, stage.pending.value, message, command, env.completion);
    FallbackChoice(message);
  }

  /** In search mode, a completion without text answering an augmented question new
      to the history always gives the apology. */
  lemma RespondFallbackSearch(s: Session, message: string, command: string, env: Collaborators)
    requires SearchSucceeds(s, command, env)
    requires env.completion.Ok? && ReplyText(env.completion.value) == ""
    requires var queries := GeneratedQueries(command, env.queryText.value);
      var run := RunQueries(queries, env.search, |queries|);
      run.gathered.Ok? && Turn(User, Plain(FormatSearchResults(run.gathered.value, message))) !in s.conversation
    ensures var x := Respond(s, message, command, env);
      x.events[|x.events| - 1] == Final(Apology, Some(x.session.conversation))
  {
    var stage := StageOf(s, message, command, env);
    StagePending(s, message, command, env);
    AnsweredRespond(s, message, command, env);
    AnswerFallback(stage.session, stage.events, stage.calls, stage.pending.value, message, command, env.completion);
    var queries := GeneratedQueries(command, env.queryText.value);
    AugmentedFallsBackToApology(RunQueries(queries, env.search, |queries|).gathered.value, message);
  }

  /** How the final event follows from the completion: a failed completion gives its
      error message and keeps the conversation; a reply with text is sent with the
      grown conversation; an empty reply falls back on the last turn of the merged
      history, which is the last first-occurring stored turn when the new turn
      repeats one. */
  lemma AnswerReply(s: Session, events: seq<Event>, calls: seq<Call>, pending: Turn,
                    message: string, command: string, completion: Outcome<ReplyContent>)
    ensures var x := Answer(s, events, calls, pending, message, command, completion);
      var last := x.events[|x.events| - 1];
      var merged := MergeHistory(s.conversation, [pending]);
      |merged| > 0
      && (pending in s.conversation ==> merged == Dedup(s.conversation))
      && (pending !in s.conversation ==> merged[|merged| - 1] == pending)
      && (completion.Failed? ==> last == Final(ErrorMessage(completion.status), None))
      && (completion.Ok? && ReplyText(completion.value) != "" ==>
            last == Final(ReplyText(completion.value), Some(x.session.conversation)))
      && (completion.Ok? && ReplyText(completion.value) == "" ==>
            var fallback := Fallback(merged[|merged| - 1].content);
            (fallback.Ok? ==> last == Final(fallback.value, Some(x.session.conversation)))
            && (fallback.Failed? ==> last == Final(ErrorMessage(fallback.status), None)))
  {
    MergedWithOneTurn(s.conversation, pending);
  }

  /** Merging one new turn: it comes last unless it repeats a stored turn, in which
      case the merge is the deduplicated stored history. */
  lemma MergedWithOneTurn(stored: seq<Turn>, pending: Turn)
    ensures var merged := MergeHistory(stored, [pending]);
      |merged| > 0
      && (pending in stored ==> merged == Dedup(stored))
      && (pending !in stored ==> merged[|merged| - 1] == pending)
  {
    MergeHistorySpec(stored, [pending]);
    assert [pending][0] == pending;
  }

  /** The stage hands a turn to the completion: the search part ran to its end, or,
      offline, the context refresh succeeded. */
  predicate Answers(s: Session, command: string, env: Collaborators)
  {
    if IsSearchCommand(command) then SearchSucceeds(s, command, env)
    else Refreshed(s.conversation, s.context, env.summary).Ok?
  }

  /** The final event of an answered request: the completion's error message, its
      text with the grown conversation, or, for an empty offline reply to a message
      already in the history, the fallback read off the last turn of the
      deduplicated stored history. */
  lemma RespondReply(s: Session, message: string, command: string, env: Collaborators)
    requires Answers(s, command, env)
    ensures var x := Respond(s, message, command, env);
      var last := x.events[|x.events| - 1];
      (env.completion.Failed? ==>
         last == Final(ErrorMessage(env.completion.status), None) && x.session.conversation == s.conversation)
      && (env.completion.Ok? && ReplyText(env.completion.value) != "" ==>
            last == Final(ReplyText(env.completion.value), Some(x.session.conversation))
            && x.session.conversation
               == s.conversation + [Turn(User, Plain(message)), Turn(Assistant, Plain(ReplyText(env.completion.value)))])
      && (!IsSearchCommand(command) && env.completion.Ok? && ReplyText(env.completion.value) == ""
          && Turn(User, Plain(message)) in s.conversation ==>
            var d := Dedup(s.conversation);
            |d| > 0
            && var fallback := Fallback(d[|d| - 1].content);
            (fallback.Ok? ==>
               last == Final(fallback.value, Some(x.session.conversation))
               && x.session.conversation
                  == s.conversation + [Turn(User, Plain(message)), Turn(Assistant, Plain(fallback.value))])
            && (fallback.Failed? ==> last == Final(ErrorMessage(fallback.status), None)))
  {
    var stage := StageOf(s, message, command, env);
    AnsweredRespond(s, message, command, env);
    AnswerReply(stage.session, stage.events, stage.calls, stage.pending.value, message, command, env.completion);
    AnswerShape(stage.session, stage.events, stage.calls, stage.pending.value, message, command, env.completion);
  }

  /** An answered request is the completion part run on what the first part handed
      on, with the stored conversation as it was; offline the turn is the raw message. */
  lemma AnsweredRespond(s: Session, message: string, command: string, env: Collaborators)
    requires Answers(s, command, env)
    ensures var stage := StageOf(s, message, command, env);
      stage.pending.Some? && stage.session.conversation == s.conversation
      && Respond(s, message, command, env)
         == Answer(stage.session, stage.events, stage.calls, stage.pending.value, message, command, env.completion)
      && (!IsSearchCommand(command) ==> stage.pending.value == Turn(User, Plain(message)))
  {
    StagePending(s, message, command, env);
    StageBasics(s, message, command, env);
  }

  /** A repeated "jomok" gets the apology, not "aiaiai": the repeated turn is dropped
      from the provider-bound history, so the fallback reads the stored reply. */
  lemma RepeatedJomokGetsApology(context: string, env: Collaborators)
    requires env.summary.Ok? && env.completion == Ok(NoContent)
    ensures var stored := [Turn(User, Plain("jomok")), Turn(Assistant, Plain("aiaiai"))];
      var x := Respond(Session(stored, context, []), "jomok", "", env);
      x.events[|x.events| - 1] == Final(Apology, Some(stored + [Turn(User, Plain("jomok")), Turn(Assistant, Plain(Apology))]))
  {
    var stored := [Turn(User, Plain("jomok")), Turn(Assistant, Plain("aiaiai"))];
    StoredJomokFallback();
    RespondReply(Session(stored, context, []), "jomok", "", env);
  }

  /** The stored exchange has no repeats, and its last turn falls back to the apology. */
  lemma StoredJomokFallback()
    ensures var stored := [Turn(User, Plain("jomok")), Turn(Assistant, Plain("aiaiai"))];
      Turn(User, Plain("jomok")) in stored
      && Dedup(stored) == stored && Fallback(stored[1].content) == Ok(Apology)
  {
    var stored := [Turn(User, Plain("jomok")), Turn(Assistant, Plain("aiaiai"))];
    assert stored[0] == Turn(User, Plain("jomok"));
    assert FindIndex(stored, stored[0]) == 0;
    assert FindIndex(stored, stored[1]) == 1;
    assert KeepFirst(stored, 1) == [stored[0]];
    assert KeepFirst(stored, 2) == stored;
    assert Lower("aiaiai") != "jomok";
  }

  /** A collaborator failing before the completion ends the request at once.
      Offline, a summariser failure is the outer error: its message (the API-key
      text for a 401) with no conversation, after the summariser call alone. In
      search mode, a summariser or query-generator failure is the lone search error,
      and neither a search nor the completion is called. The session is unchanged
      but for a refreshed context. */
  lemma RespondEarlyFailure(s: Session, message: string, command: string, env: Collaborators)
    ensures var x := Respond(s, message, command, env);
      !IsSearchCommand(command) && Refreshed(s.conversation, s.context, env.summary).Failed? ==>
        x == Exchange(s, [Final(ErrorMessage(env.summary.status), None)], SummaryCalls(s.conversation, s.context))
    ensures var x := Respond(s, message, command, env);
      var r := Refreshed(s.conversation, s.context, env.summary);
      IsSearchCommand(command) && (r.Failed? || env.queryText.Failed?) ==>
        x.events == [SearchError(SearchFailure)]
        && x.session == (if r.Ok? then s.(context := r.value) else s)
        && x.calls == SummaryCalls(s.conversation, s.context)
                      + (if r.Ok? then [GenerateQueries(command, QueryPrompt(r.value, message))] else [])
        && forall i :: 0 <= i < |x.calls| ==> !x.calls[i].WebSearch? && !x.calls[i].Complete?
  {
  }

  /** Offline, the request never asks the query generator or the search provider:
      once the context is refreshed it calls the summariser, from two turns on, and
      then the completion with the merged history ending in the raw message. */
  lemma RespondOfflineCalls(s: Session, message: string, command: string, env: Collaborators)
    requires !IsSearchCommand(command)
    ensures var x := Respond(s, message, command, env);
      Refreshed(s.conversation, s.context, env.summary).Ok? ==>
        x.calls == SummaryCalls(s.conversation, s.context)
                   + [Complete(command, MergeHistory(s.conversation, [Turn(User, Plain(message))]))]
    ensures var x := Respond(s, message, command, env);
      forall i :: 0 <= i < |x.calls| ==> !x.calls[i].GenerateQueries? && !x.calls[i].WebSearch?
  {
  }
}
