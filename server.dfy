/** The server's per-user store and its request handlers: `/chat`, `/conversation`,
    `/reset` and `/update-command`. Collaborator answers (summariser, query generator,
    search provider, completion) are inputs of a request; the calls made to them are
    part of its result. */
module Server {
  import opened Outcomes
  import opened JsText
  import opened History
  import opened SearchLogic
  import opened Messages
  import opened SearchPipeline

  /** A call a request makes to a collaborator. `GenerateQueries` and `Complete`
      carry the request's command, which selects their system prompts. */
  datatype Call =
    | Summarize(prompt: string)
    | GenerateQueries(command: string, prompt: string)
    | WebSearch(query: string)
    | Complete(command: string, messages: seq<Turn>)

  /** What the collaborators answer during one request: the summariser's and the
      query generator's texts, the search provider, and the final completion. */
  datatype Collaborators = Collaborators(
    summary: Outcome<string>,
    queryText: Outcome<string>,
    search: SearchProvider,
    completion: Outcome<ReplyContent>)

  /** One user's entries in the conversation, context and search-status maps. */
  datatype Session = Session(conversation: seq<Turn>, context: string, log: seq<StatusRecord>)

  /** The session after a request, what the request wrote back, and the calls it made. */
  datatype Exchange = Exchange(session: Session, events: seq<Event>, calls: seq<Call>)

  predicate IsSearchCommand(command: string)
  {
    command == "search" || command == "deepsearch"
  }

  /** The summariser call `processContext` makes: none below two turns. */
  function SummaryCalls(conversation: seq<Turn>, context: string): (calls: seq<Call>)
    ensures |calls| <= 1 && (|calls| == 1 <==> |conversation| >= 2)
    ensures forall i :: 0 <= i < |calls| ==> calls[i].Summarize?
  {
    if |conversation| >= 2 then [Summarize(ContextPrompt(conversation, context))] else []
  }

  /** The context after the summariser step: the summariser's answer from two turns
      on, the old context below. */
  function Refreshed(conversation: seq<Turn>, context: string, summary: Outcome<string>): (r: Outcome<string>)
    ensures |conversation| < 2 ==> r == Ok(context)
    ensures r.Failed? <==> |conversation| >= 2 && summary.Failed?
    ensures r.Failed? ==> r.status == summary.status
  {
    if |conversation| >= 2 then summary else Ok(context)
  }

  function SearchCalls(queries: seq<string>): (calls: seq<Call>)
    ensures |calls| == |queries|
    ensures forall i :: 0 <= i < |queries| ==> calls[i] == WebSearch(queries[i])
  {
    seq(|queries|, i requires 0 <= i < |queries| => WebSearch(queries[i]))
  }

  /** The queries the handler itself derives from the generator's text (index.js
      lines 174-176), before it joins them for `performSearch`; `QueriesFor` is the
      same derivation as `performSearch` repeats it on the joined text (index.js
      lines 85-92), and `ChatProperties.PerformedQueries` shows the two agree. */
  function GeneratedQueries(command: string, text: string): (queries: seq<string>)
    ensures |queries| >= 1
    ensures command == "search" ==> queries == [text]
    ensures command != "search" ==> |queries| == |Split(text, ',')|
  {
    if command == "search" then [text] else SplitQueries(text)
  }

  /** Where a request stands after its first part: the session so far, what was
      written and called, and the user turn bound for the completion provider, or
      `None` when the request has already ended. */
  datatype Stage = Stage(session: Session, events: seq<Event>, calls: seq<Call>, pending: Option<Turn>)

  /** The `search`/`deepsearch` part of `/chat`: refresh the context, generate the
      queries, run them, log the completion status; a failure anywhere ends the
      request with the search error. */
  function SearchStage(s: Session, message: string, command: string, env: Collaborators): Stage
  {
    var calls0 := SummaryCalls(s.conversation, s.context);
    match Refreshed(s.conversation, s.context, env.summary)
    case Failed(_) => Stage(s, [SearchError(SearchFailure)], calls0, None)
    case Ok(context) =>
      var s1 := s.(context := context);
      var calls1 := calls0 + [GenerateQueries(command, QueryPrompt(context, message))];
      match env.queryText
      case Failed(_) => Stage(s1, [SearchError(SearchFailure)], calls1, None)
      case Ok(text) =>
        var queries := GeneratedQueries(command, text);
        var performed := QueriesFor(command, Join(queries, ","));
        var run := RunQueries(performed, env.search, |performed|);
        var progress := ProgressEvents(performed, run.issued);
        var calls2 := calls1 + SearchCalls(performed[..run.issued]);
        match run.gathered
        case Failed(_) => Stage(s1, progress + [SearchError(SearchFailure)], calls2, None)
        case Ok(results) =>
          var done := CreateSearchMessage(queries, true, 0, 0);
          var index := |s.conversation|;
          Stage(s1.(log := s.log + [StatusRecord(index, done)]),
                progress + [SearchStatus(done, Some(index))], calls2,
                Some(Turn(User, Plain(FormatSearchResults(results, message)))))
  }

  /** The offline part of `/chat`: the raw message is bound for the provider and the
      context is refreshed; a summariser failure ends the request with an error. */
  function OfflineStage(s: Session, message: string, env: Collaborators): Stage
  {
    var calls0 := SummaryCalls(s.conversation, s.context);
    match Refreshed(s.conversation, s.context, env.summary)
    case Failed(status) => Stage(s, [Final(ErrorMessage(status), None)], calls0, None)
    case Ok(context) => Stage(s.(context := context), [], calls0, Some(Turn(User, Plain(message))))
  }

  /** The common tail of `/chat`: merge the history with the pending turn, ask for
      the completion, read its reply or fall back, then append the two turns. */
  function Answer(s: Session, events: seq<Event>, calls: seq<Call>, pending: Turn,
                  message: string, command: string, completion: Outcome<ReplyContent>): Exchange
  {
    var merged := MergeHistory(s.conversation, [pending]);
    var calls' := calls + [Complete(command, merged)];
    match completion
    case Failed(status) => Exchange(s, events + [Final(ErrorMessage(status), None)], calls')
    case Ok(content) =>
      var text := ReplyText(content);
      var reply := if text != "" then Ok(text) else Fallback(merged[|merged| - 1].content);
      match reply
      case Failed(status) => Exchange(s, events + [Final(ErrorMessage(status), None)], calls')
      case Ok(r) =>
        var conversation := s.conversation + [Turn(User, Plain(message)), Turn(Assistant, Plain(r))];
        Exchange(s.(conversation := conversation), events + [Final(r, Some(conversation))], calls')
  }

  /** A `/chat` request with a provider key set, on the user's initialised session. */
  function Respond(s: Session, message: string, command: string, env: Collaborators): Exchange
  {
    var stage := if IsSearchCommand(command) then SearchStage(s, message, command, env)
                 else OfflineStage(s, message, env);
    match stage.pending
    case None => Exchange(stage.session, stage.events, stage.calls)
    case Some(pending) =>
      Answer(stage.session, stage.events, stage.calls, pending, message, command, env.completion)
  }

  /** The conversation alternates user and assistant turns, starting with the user. */
  ghost predicate Alternates(conversation: seq<Turn>)
  {
    |conversation| % 2 == 0
    && forall i :: 0 <= i < |conversation| ==> conversation[i].role == (if i % 2 == 0 then User else Assistant)
  }

  /** What every stored session satisfies: alternating turns; a context only once
      there were two turns to summarise; status records that point at a user turn
      or just past the end, in non-decreasing order. */
  ghost predicate WellFormed(s: Session)
  {
    Alternates(s.conversation)
    && (s.context != "" ==> |s.conversation| >= 2)
    && (forall k :: 0 <= k < |s.log| ==>
          s.log[k].messageIndex <= |s.conversation| && s.log[k].messageIndex % 2 == 0)
    && (forall j, k :: 0 <= j < k < |s.log| ==> s.log[j].messageIndex <= s.log[k].messageIndex)
  }

  /** The four maps of the store: the conversation, context and status maps hold the
      same users, each of whom has a command, and every session is well formed. */
  ghost predicate StoreInvariant(conversations: map<string, seq<Turn>>, contexts: map<string, string>,
                                 searchStatuses: map<string, seq<StatusRecord>>, commands: map<string, string>)
  {
    conversations.Keys == contexts.Keys == searchStatuses.Keys
    && conversations.Keys <= commands.Keys
    && forall u :: u in conversations ==>
         WellFormed(Session(conversations[u], contexts[u], searchStatuses[u]))
  }

  lemma StoreInvariantUpdate(conversations: map<string, seq<Turn>>, contexts: map<string, string>,
                             searchStatuses: map<string, seq<StatusRecord>>, commands: map<string, string>,
                             userId: string, s: Session, command: string)
    requires StoreInvariant(conversations, contexts, searchStatuses, commands)
    requires WellFormed(s)
    ensures StoreInvariant(conversations[userId := s.conversation], contexts[userId := s.context],
                           searchStatuses[userId := s.log], commands[userId := command])
  {
  }

  /** The session `/chat` starts from is well formed: a stored one by the invariant,
      a new one by construction. */
  lemma StoredSessionWellFormed(conversations: map<string, seq<Turn>>, contexts: map<string, string>,
                                searchStatuses: map<string, seq<StatusRecord>>, commands: map<string, string>,
                                userId: string)
    requires StoreInvariant(conversations, contexts, searchStatuses, commands)
    ensures WellFormed(Session(
      if userId in conversations then conversations[userId] else [],
      if userId in contexts then contexts[userId] else "",
      if userId in searchStatuses then searchStatuses[userId] else []))
  {
  }

  /** Initialising the user's entries and then storing the request's resulting
      session gives the old maps with that user's entries replaced, and keeps the
      store invariant. */
  lemma CommitRequest(c0: map<string, seq<Turn>>, x0: map<string, string>, l0: map<string, seq<StatusRecord>>,
                      m0: map<string, string>, userId: string, command: string, s0: Session, r: Session,
                      c1: map<string, seq<Turn>>, x1: map<string, string>, l1: map<string, seq<StatusRecord>>,
                      c2: map<string, seq<Turn>>, x2: map<string, string>, l2: map<string, seq<StatusRecord>>)
    requires StoreInvariant(c0, x0, l0, m0) && WellFormed(r)
    requires c1 == c0[userId := s0.conversation] && x1 == x0[userId := s0.context] && l1 == l0[userId := s0.log]
    requires c2 == c1[userId := r.conversation] && x2 == x1[userId := r.context] && l2 == l1[userId := r.log]
    ensures c2 == c0[userId := r.conversation] && x2 == x0[userId := r.context] && l2 == l0[userId := r.log]
    ensures StoreInvariant(c2, x2, l2, m0[userId := command])
  {
    OverrideTwice(c0, userId, s0.conversation, r.conversation);
    OverrideTwice(x0, userId, s0.context, r.context);
    OverrideTwice(l0, userId, s0.log, r.log);
    StoreInvariantUpdate(c0, x0, l0, m0, userId, r, command);
  }

  /** Storing twice under the same key keeps only the second value. */
  lemma OverrideTwice<K, V>(m: map<K, V>, k: K, a: V, b: V)
    ensures m[k := a][k := b] == m[k := b]
  {
  }

  class SessionStore {
    var conversations: map<string, seq<Turn>>
    var contexts: map<string, string>
    var searchStatuses: map<string, seq<StatusRecord>>
    var commands: map<string, string>

    ghost predicate Valid()
      reads this
    {
      StoreInvariant(conversations, contexts, searchStatuses, commands)
    }

    constructor ()
      ensures Valid()
      ensures conversations == map[] && contexts == map[] && searchStatuses == map[] && commands == map[]
    {
      conversations, contexts, searchStatuses, commands := map[], map[], map[], map[];
    }

    /** The user's session as `/chat` initialises it: stored entries, or empty ones. */
    function SessionOf(userId: string): (s: Session)
      reads this
      ensures Valid() ==> WellFormed(s)
      ensures userId !in conversations && userId !in contexts && userId !in searchStatuses ==> s == Session([], "", [])
    {
      Session(
        if userId in conversations then conversations[userId] else [],
        if userId in contexts then contexts[userId] else "",
        if userId in searchStatuses then searchStatuses[userId] else [])
    }

    /** `POST /chat`. */
    method Chat(apiKeySet: bool, message: string, userId: string, command: string, env: Collaborators)
      returns (events: seq<Event>, calls: seq<Call>)
      requires Valid()
      modifies this
      ensures Valid()
      ensures !apiKeySet ==>
        events == [Final(ApiKeyMissing, None)] && calls == []
        && conversations == old(conversations) && contexts == old(contexts)
        && searchStatuses == old(searchStatuses) && commands == old(commands)
      ensures apiKeySet ==>
        var x := Respond(old(SessionOf(userId)), message, command, env);
        events == x.events && calls == x.calls
        && conversations == old(conversations)[userId := x.session.conversation]
        && contexts == old(contexts)[userId := x.session.context]
        && searchStatuses == old(searchStatuses)[userId := x.session.log]
        && commands == old(commands)[userId := command]
    {
      if !apiKeySet {
        events, calls := [Final(ApiKeyMissing, None)], [];
        return;
      }
      ghost var c0, x0, l0, m0 := conversations, contexts, searchStatuses, commands;
      ghost var s0 := SessionOf(userId);
      StoredSessionWellFormed(c0, x0, l0, m0, userId);
      RespondPreservesWellFormed(s0, message, command, env);
      ghost var r := Respond(s0, message, command, env).session;
      InitSession(userId, command);
      ghost var c1, x1, l1 := conversations, contexts, searchStatuses;
      events, calls := Handle(userId, message, command, env);
      CommitRequest(c0, x0, l0, m0, userId, command, s0, r, c1, x1, l1, conversations, contexts, searchStatuses);
    }

    // The methods below are the steps of `Chat`. Each states the whole new state of
    // the maps it touches, in terms of the specification functions, and leaves the
    // store invariant out: `Chat` re-establishes `Valid()` once through `CommitRequest`.

    /** index.js lines 152-259: the request proper, on an initialised session. */
    method Handle(userId: string, message: string, command: string, env: Collaborators)
      returns (events: seq<Event>, calls: seq<Call>)
      requires userId in conversations && userId in contexts && userId in searchStatuses
      modifies this
      ensures var x := Respond(old(SessionOf(userId)), message, command, env);
        events == x.events && calls == x.calls
        && conversations == old(conversations)[userId := x.session.conversation]
        && contexts == old(contexts)[userId := x.session.context]
        && searchStatuses == old(searchStatuses)[userId := x.session.log]
        && commands == old(commands)
    {
      var stage;
      if command == "search" || command == "deepsearch" {
        stage := SearchPart(userId, message, command, env);
      } else {
        stage := OfflinePart(userId, message, env);
      }
      if stage.pending.None? {
        events, calls := stage.events, stage.calls;
        return;
      }
      assert SessionOf(userId) == stage.session;
      events, calls := AnswerPart(userId, stage.events, stage.calls, stage.pending.value, message, command, env.completion);
    }

    /** index.js lines 145-150: default entries for an unseen user, and the command recorded. */
    method InitSession(userId: string, command: string)
      modifies this
      ensures SessionOf(userId) == old(SessionOf(userId))
      ensures userId in conversations && userId in contexts && userId in searchStatuses
      ensures conversations == old(conversations)[userId := SessionOf(userId).conversation]
      ensures contexts == old(contexts)[userId := SessionOf(userId).context]
      ensures searchStatuses == old(searchStatuses)[userId := SessionOf(userId).log]
      ensures commands == old(commands)[userId := command]
    {
      if userId !in contexts || contexts[userId] == "" {
        contexts := contexts[userId := ""];
      }
      if userId !in conversations {
        conversations := conversations[userId := []];
      }
      if userId !in searchStatuses {
        searchStatuses := searchStatuses[userId := []];
      }
      commands := commands[userId := command];
    }

    /** index.js lines 158-160 and 198-200, with `processContext` (lines 55-82): from two turns
        on, the summariser is called on the last exchange and its answer replaces the
        stored context; `refreshed` is false when that call failed. */
    method RefreshContext(userId: string, summary: Outcome<string>) returns (calls: seq<Call>, refreshed: bool)
      requires userId in conversations && userId in contexts
      modifies this
      ensures userId in conversations && userId in contexts
      ensures calls == SummaryCalls(conversations[userId], old(contexts[userId]))
      ensures refreshed == Refreshed(conversations[userId], old(contexts[userId]), summary).Ok?
      ensures conversations == old(conversations) && commands == old(commands) && searchStatuses == old(searchStatuses)
      ensures contexts == if refreshed then old(contexts)[userId := Refreshed(conversations[userId], old(contexts[userId]), summary).value]
                          else old(contexts)
    {
      calls, refreshed := [], true;
      if |conversations[userId]| >= 2 {
        calls := [Summarize(ContextPrompt(conversations[userId], contexts[userId]))];
        if summary.Failed? {
          return calls, false;
        }
        contexts := contexts[userId := summary.value];
      }
    }

    /** index.js lines 156-195: the search branch of `/chat` on an initialised session. */
    method SearchPart(userId: string, message: string, command: string, env: Collaborators) returns (stage: Stage)
      requires userId in conversations && userId in contexts && userId in searchStatuses
      requires IsSearchCommand(command)
      modifies this
      ensures stage == SearchStage(old(SessionOf(userId)), message, command, env)
      ensures conversations == old(conversations) && commands == old(commands)
      ensures contexts == old(contexts)[userId := stage.session.context]
      ensures searchStatuses == old(searchStatuses)[userId := stage.session.log]
    {
      var s0 := SessionOf(userId);
      var messageIndex := |conversations[userId]|;
      var calls, refreshed := RefreshContext(userId, env.summary);
      if !refreshed {
        return Stage(s0, [SearchError(SearchFailure)], calls, None);
      }
      var s1 := s0.(context := contexts[userId]);
      var queryContext := QueryPrompt(contexts[userId], message);
      calls := calls + [GenerateQueries(command, queryContext)];
      if env.queryText.Failed? {
        return Stage(s1, [SearchError(SearchFailure)], calls, None);
      }
      var queries := GeneratedQueries(command, env.queryText.value);
      var events, searched, searchContent := PerformSearch(command, Join(queries, ","), message, env.search);
      calls := calls + SearchCalls(searched);
      if searchContent.Failed? {
        return Stage(s1, events + [SearchError(SearchFailure)], calls, None);
      }
      var completeSearchMessage := CreateSearchMessage(queries, true, 0, 0);
      searchStatuses := searchStatuses[userId := searchStatuses[userId] + [StatusRecord(messageIndex, completeSearchMessage)]];
      events := events + [SearchStatus(completeSearchMessage, Some(messageIndex))];
      stage := Stage(s1.(log := searchStatuses[userId]), events, calls, Some(Turn(User, Plain(searchContent.value))));
    }

    /** index.js lines 196-201: the offline branch of `/chat` on an initialised session. */
    method OfflinePart(userId: string, message: string, env: Collaborators) returns (stage: Stage)
      requires userId in conversations && userId in contexts && userId in searchStatuses
      modifies this
      ensures stage == OfflineStage(old(SessionOf(userId)), message, env)
      ensures conversations == old(conversations) && commands == old(commands) && searchStatuses == old(searchStatuses)
      ensures contexts == old(contexts)[userId := stage.session.context]
    {
      var s0 := SessionOf(userId);
      var pending := Turn(User, Plain(message));
      var calls, refreshed := RefreshContext(userId, env.summary);
      if !refreshed {
        return Stage(s0, [Final(ErrorMessage(env.summary.status), None)], calls, None);
      }
      stage := Stage(s0.(context := contexts[userId]), [], calls, Some(pending));
    }

    /** index.js lines 203-259: merge, complete, fall back, append the two turns and write the
        final event; a thrown error becomes the final event of the outer `catch`. */
    method AnswerPart(userId: string, events0: seq<Event>, calls0: seq<Call>, pending: Turn,
                      message: string, command: string, completion: Outcome<ReplyContent>)
      returns (events: seq<Event>, calls: seq<Call>)
      requires userId in conversations && userId in contexts && userId in searchStatuses
      modifies this
      ensures var x := Answer(old(SessionOf(userId)), events0, calls0, pending, message, command, completion);
        events == x.events && calls == x.calls
        && x.session.context == old(SessionOf(userId)).context && x.session.log == old(SessionOf(userId)).log
        && conversations == old(conversations)[userId := x.session.conversation]
      ensures contexts == old(contexts) && searchStatuses == old(searchStatuses) && commands == old(commands)
    {
      ghost var s := SessionOf(userId);
      var messages := MergeHistory(conversations[userId], [pending]);
      calls := calls0 + [Complete(command, messages)];
      if completion.Failed? {
        events := events0 + [Final(ErrorMessage(completion.status), None)];
        return;
      }
      var aiResponse := ReplyText(completion.value);
      if aiResponse == "" {
        var fallback := Fallback(messages[|messages| - 1].content);
        if fallback.Failed? {
          events := events0 + [Final(ErrorMessage(fallback.status), None)];
          return;
        }
        aiResponse := fallback.value;
      }
      conversations := conversations[userId := conversations[userId] + [Turn(User, Plain(message))]];
      conversations := conversations[userId := conversations[userId] + [Turn(Assistant, Plain(aiResponse))]];
      assert conversations[userId] == s.conversation + [Turn(User, Plain(message)), Turn(Assistant, Plain(aiResponse))];
      events := events0 + [Final(aiResponse, Some(conversations[userId]))];
    }

    /** `GET /conversation/:userId`: the stored conversation and status log, empty for
        an unknown user, and the last command, `offline` when none or empty. */
    method Conversation(userId: string) returns (conversation: seq<Turn>, searchLog: seq<StatusRecord>, command: string)
      ensures userId in conversations ==> conversation == conversations[userId]
      ensures userId !in conversations ==> conversation == []
      ensures userId in searchStatuses ==> searchLog == searchStatuses[userId]
      ensures userId !in searchStatuses ==> searchLog == []
      ensures command == (if userId in commands && commands[userId] != "" then commands[userId] else "offline")
    {
      conversation := if userId in conversations then conversations[userId] else [];
      searchLog := if userId in searchStatuses then searchStatuses[userId] else [];
      command := if userId in commands && commands[userId] != "" then commands[userId] else "offline";
    }

    /** `POST /reset/:userId`: the user's four entries are removed, nobody else's. */
    method Reset(userId: string)
      requires Valid()
      modifies this
      ensures Valid()
      ensures conversations == old(conversations) - {userId} && contexts == old(contexts) - {userId}
      ensures searchStatuses == old(searchStatuses) - {userId} && commands == old(commands) - {userId}
      ensures SessionOf(userId) == Session([], "", []) && userId !in commands
    {
      conversations := conversations - {userId};
      contexts := contexts - {userId};
      searchStatuses := searchStatuses - {userId};
      commands := commands - {userId};
    }

    /** `POST /update-command`: only the command map changes. */
    method UpdateCommand(userId: string, command: string)
      requires Valid()
      modifies this
      ensures Valid()
      ensures commands == old(commands)[userId := command]
      ensures conversations == old(conversations) && contexts == old(contexts) && searchStatuses == old(searchStatuses)
    {
      commands := commands[userId := command];
    }
  }

  /** Appending a user turn and an assistant turn keeps the alternation. */
  lemma AppendPairAlternates(conversation: seq<Turn>, user: Turn, assistant: Turn)
    requires Alternates(conversation) && user.role == User && assistant.role == Assistant
    ensures Alternates(conversation + [user, assistant])
  {
    var c := conversation + [user, assistant];
    forall i | 0 <= i < |c|
      ensures c[i].role == (if i % 2 == 0 then User else Assistant)
    {
      if i < |conversation| {
        assert c[i] == conversation[i];
      } else if i == |conversation| {
        assert c[i] == user;
      } else {
        assert c[i] == assistant;
      }
    }
  }

  /** The first part of `/chat` keeps the conversation and the session's well-formedness:
      the context only changes from two turns on, and a status record points at the
      next user turn. */
  lemma StagePreservesWellFormed(s: Session, message: string, command: string, env: Collaborators)
    requires WellFormed(s)
    ensures var stage := if IsSearchCommand(command) then SearchStage(s, message, command, env)
                         else OfflineStage(s, message, env);
            stage.session.conversation == s.conversation && WellFormed(stage.session)
  {
    if IsSearchCommand(command) {
      var stage := SearchStage(s, message, command, env);
      var log := stage.session.log;
      assert |log| == |s.log| || (|log| == |s.log| + 1 && log[..|s.log|] == s.log
                                  && log[|s.log|].messageIndex == |s.conversation|);
      if |log| == |s.log| + 1 {
        forall j, k | 0 <= j < k < |log|
          ensures log[j].messageIndex <= log[k].messageIndex
        {
          if k < |s.log| {
            assert log[j] == s.log[j] && log[k] == s.log[k];
          } else {
            assert log[j] == s.log[j];
          }
        }
        forall k | 0 <= k < |log|
          ensures log[k].messageIndex <= |s.conversation| && log[k].messageIndex % 2 == 0
        {
          if k < |s.log| {
            assert log[k] == s.log[k];
          }
        }
      }
    }
  }

  /** The common tail keeps the session's well-formedness: the conversation grows by
      a user turn and an assistant turn, or not at all. */
  lemma AnswerPreservesWellFormed(s: Session, events: seq<Event>, calls: seq<Call>, pending: Turn,
                                  message: string, command: string, completion: Outcome<ReplyContent>)
    requires WellFormed(s)
    ensures WellFormed(Answer(s, events, calls, pending, message, command, completion).session)
  {
    var r := Answer(s, events, calls, pending, message, command, completion).session;
    if r != s {
      var reply :| r.conversation == s.conversation + [Turn(User, Plain(message)), Turn(Assistant, Plain(reply))];
      AppendPairAlternates(s.conversation, Turn(User, Plain(message)), Turn(Assistant, Plain(reply)));
    }
  }

  lemma RespondPreservesWellFormed(s: Session, message: string, command: string, env: Collaborators)
    requires WellFormed(s)
    ensures WellFormed(Respond(s, message, command, env).session)
  {
    StagePreservesWellFormed(s, message, command, env);
    var stage := if IsSearchCommand(command) then SearchStage(s, message, command, env)
                 else OfflineStage(s, message, env);
    if stage.pending.Some? {
      AnswerPreservesWellFormed(stage.session, stage.events, stage.calls, stage.pending.value,
                                message, command, env.completion);
    }
  }
}
