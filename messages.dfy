/** The values the `/chat` pipeline builds and the pure helpers of `index.js`:
    the search-status message, the augmented question, the context and query
    prompts, the query split, the provider-bound history merge, and the reading of
    the completion's reply with its fallbacks. */
module Messages {
  import opened Outcomes
  import opened JsText
  import opened History
  import opened SearchLogic

  /** `MAX_SEARCH_RESULTS` */
  const MaxSearchResults: nat := 3

  const ApiKeyMissing := "API key is not set. Please set up your Anthropic API key in the settings."
  const SearchFailure := "There was an error processing your search request."
  const GenericFailure := "I apologize, but there was an error processing your request. Please try again later."
  const ApiKeyRejected := "There was an error with the API key. Please check your Anthropic API key in the settings."
  const Apology := "I apologize, but I don't have a response at the moment."

  datatype Role = User | Assistant

  /** One element of a content-part list: its `type`, its `text` ("" when absent)
      and any other payload, such as an image source. */
  datatype Part = Part(kind: string, text: string, payload: string)

  /** A turn's `content`: a string or a list of parts. Structural equality of this
      type stands for equality of the `JSON.stringify` forms. */
  datatype Content = Plain(text: string) | Parts(parts: seq<Part>)

  datatype Turn = Turn(role: Role, content: Content)

  /** The `searchStatus` object `createSearchMessage` builds (its `type` is fixed). */
  datatype StatusMessage = StatusMessage(content: string, queries: seq<string>)

  /** An entry of a user's search-status log. */
  datatype StatusRecord = StatusRecord(messageIndex: nat, status: StatusMessage)

  /** What a `/chat` request writes back: progress events, the `final` event, or the
      HTTP 500 JSON error of a failed search. */
  datatype Event =
    | SearchStatus(status: StatusMessage, messageIndex: Option<nat>)
    | Final(response: string, conversation: Option<seq<Turn>>)
    | SearchError(error: string)
  {
    predicate Terminal() { !SearchStatus? }
  }

  function ProgressText(query: string, progress: nat, total: nat): string
  {
    "Searching the web for \"" + query + "\"... (" + NatToString(progress) + "/" + NatToString(total) + ")"
  }

  function QueryNoun(total: nat): string
  {
    if total == 1 then "query" else "queries"
  }

  function DoneText(total: nat): string
  {
    "Done! Searched " + NatToString(total) + " " + QueryNoun(total) + " with "
      + NatToString(total * MaxSearchResults) + " results."
  }

  /** `createSearchMessage(queries, isComplete, totalQueries, currentProgress)`:
      a `totalQueries` or `currentProgress` of 0 stands for the omitted argument,
      both falling back to the number of queries as `||` does. */
  function CreateSearchMessage(queries: seq<string>, isComplete: bool, totalQueries: nat, currentProgress: nat): (m: StatusMessage)
    ensures m.queries == queries
    ensures var total := if totalQueries == 0 then |queries| else totalQueries;
      isComplete ==> m.content == DoneText(total)
    ensures var total := if totalQueries == 0 then |queries| else totalQueries;
      var progress := if currentProgress == 0 then |queries| else currentProgress;
      !isComplete && |queries| > 0 ==> m.content == ProgressText(queries[|queries| - 1], progress, total)
  {
    var currentQuery := if |queries| > 0 then queries[|queries| - 1] else "undefined";
    var total := if totalQueries != 0 then totalQueries else |queries|;
    var progress := if currentProgress != 0 then currentProgress else |queries|;
    if isComplete then StatusMessage(DoneText(total), queries)
    else StatusMessage(ProgressText(currentQuery, progress, total), queries)
  }

  /** The completion message reports three results per query whatever the search
      returned, and says "query" only for a single one. */
  lemma DoneReportsThreePerQuery(queries: seq<string>)
    requires |queries| >= 1
    ensures var m := CreateSearchMessage(queries, true, 0, 0);
      exists count: string, noun: string ::
        m.content == "Done! Searched " + NatToString(|queries|) + " " + noun + " with " + count + " results."
        && (forall i :: 0 <= i < |count| ==> '0' <= count[i] <= '9')
        && DecimalValue(count) == 3 * |queries|
        && (noun == "query" <==> |queries| == 1)
  {
    var n := |queries|;
    var count, noun := NatToString(3 * n), QueryNoun(n);
    var m := CreateSearchMessage(queries, true, 0, 0);
    assert m.content == DoneText(n);
    DoneTextParts(n);
    DecimalRoundTrip(3 * n);
    QueryNounSingular(n);
    DoneWitness(m.content, n, count, noun);
  }

  /** Packs a decomposed completion text into the existential form. */
  lemma DoneWitness(content: string, n: nat, count: string, noun: string)
    requires content == "Done! Searched " + NatToString(n) + " " + noun + " with " + count + " results."
    requires forall i :: 0 <= i < |count| ==> '0' <= count[i] <= '9'
    requires DecimalValue(count) == 3 * n && (noun == "query" <==> n == 1)
    ensures exists count': string, noun': string ::
      content == "Done! Searched " + NatToString(n) + " " + noun' + " with " + count' + " results."
      && (forall i :: 0 <= i < |count'| ==> '0' <= count'[i] <= '9')
      && DecimalValue(count') == 3 * n
      && (noun' == "query" <==> n == 1)
  {
  }

  lemma QueryNounSingular(n: nat)
    ensures QueryNoun(n) == "query" <==> n == 1
  {
    assert |"queries"| != |"query"|;
  }

  lemma DoneTextParts(n: nat)
    ensures DoneText(n) == "Done! Searched " + NatToString(n) + " " + QueryNoun(n) + " with " + NatToString(3 * n) + " results."
  {
    assert n * MaxSearchResults == 3 * n;
  }

  /** One rendered search result. */
  function RenderResult(r: SearchResult): string
  {
    "URL: " + r.url + ", Title: " + r.title + ", Content: " + r.content
  }

  const SearchHeader := "Here's more data from the web about my question:\n\n"
  const QuestionLead := "\n\nMy question is: "

  /** `formatSearchResults(results, commandContent)` */
  function FormatSearchResults(results: seq<SearchResult>, question: string): (text: string)
  {
    SearchHeader + Join(seq(|results|, i requires 0 <= i < |results| => RenderResult(results[i])), "\n\n")
      + QuestionLead + question
  }

  /** The augmented question opens with the fixed header and ends with the original
      question verbatim; a single result sits between them as one rendered line. */
  lemma FormatSearchResultsFrames(results: seq<SearchResult>, question: string)
    ensures var text := FormatSearchResults(results, question);
      |text| >= |SearchHeader| + |QuestionLead| + |question|
      && text[..|SearchHeader|] == SearchHeader
      && text[|text| - |question|..] == question
    ensures |results| == 1 ==>
      FormatSearchResults(results, question) == SearchHeader + RenderResult(results[0]) + QuestionLead + question
  {
    var body := Join(seq(|results|, i requires 0 <= i < |results| => RenderResult(results[i])), "\n\n");
    var text := FormatSearchResults(results, question);
    assert text == SearchHeader + (body + QuestionLead + question);
    assert text == (SearchHeader + body + QuestionLead) + question;
  }

  /** A content part as `processContext` renders it. */
  function RenderPart(p: Part): string
  {
    if p.kind == "text" then p.text else "[Image]"
  }

  /** A turn's content as `processContext` renders it: a string verbatim, a part
      list as its rendered parts joined by a space. */
  function RenderContent(c: Content): (s: string)
  {
    match c
    case Plain(t) => t
    case Parts(ps) => Join(seq(|ps|, i requires 0 <= i < |ps| => RenderPart(ps[i])), " ")
  }

  /** A rendered part list can be read back part by part when no rendered part
      holds a space. */
  lemma RenderedPartsReadBack(parts: seq<Part>)
    requires |parts| >= 1
    requires forall i :: 0 <= i < |parts| ==> ' ' !in RenderPart(parts[i])
    ensures var pieces := Split(RenderContent(Parts(parts)), ' ');
      |pieces| == |parts|
      && forall i :: 0 <= i < |parts| ==> pieces[i] == (if parts[i].kind == "text" then parts[i].text else "[Image]")
  {
    var rendered := seq(|parts|, i requires 0 <= i < |parts| => RenderPart(parts[i]));
    SplitJoin(rendered, ' ');
  }

  /** The last two turns, rendered and joined by a newline. */
  function LastConversation(conversation: seq<Turn>): string
    requires |conversation| >= 2
  {
    RenderContent(conversation[|conversation| - 2].content) + "\n" + RenderContent(conversation[|conversation| - 1].content)
  }

  /** The prompt `processContext` sends to the summariser. */
  function ContextPrompt(conversation: seq<Turn>, summary: string): string
    requires |conversation| >= 2
  {
    if summary != "" then "Last context summary: " + summary + "\nLast conversation: " + LastConversation(conversation)
    else "Last conversation: " + LastConversation(conversation)
  }

  /** Only the last two turns reach the summariser, and the summary clause leads the
      prompt exactly when there is a summary. */
  lemma ContextPromptShape(earlier: seq<Turn>, conversation: seq<Turn>, summary: string)
    requires |conversation| >= 2
    ensures ContextPrompt(earlier + conversation, summary) == ContextPrompt(conversation, summary)
    ensures var p := ContextPrompt(conversation, summary);
      var lead := "Last context summary: ";
      (|p| >= |lead| && p[..|lead|] == lead) <==> summary != ""
  {
    var all := earlier + conversation;
    assert all[|all| - 1] == conversation[|conversation| - 1];
    assert all[|all| - 2] == conversation[|conversation| - 2];
    var p := ContextPrompt(conversation, summary);
    var lead := "Last context summary: ";
    if summary == "" {
      assert p[8] == 'v';
      assert lead[8] == 't';
    } else {
      assert p == lead + (summary + "\nLast conversation: " + LastConversation(conversation));
    }
  }

  /** The prompt the query generator receives. */
  function QueryPrompt(summary: string, question: string): (p: string)
  {
    (if summary != "" then "Context: " + summary + "\n" else "") + "Question: " + question
  }

  /** The prompt ends with the question after its label, and opens with the labelled
      summary exactly when there is a summary. */
  lemma QueryPromptShape(summary: string, question: string)
    ensures var p := QueryPrompt(summary, question);
      var lead, tail := "Context: ", "Question: " + question;
      |p| >= |tail| && p[|p| - |tail|..] == tail
      && ((|p| >= |lead| && p[..|lead|] == lead) <==> summary != "")
      && (summary != "" ==> p[|lead|..|lead| + |summary|] == summary)
  {
    var p := QueryPrompt(summary, question);
    var lead, tail := "Context: ", "Question: " + question;
    if summary == "" {
      assert p[0] == 'Q';
    } else {
      assert p == lead + summary + ("\n" + tail);
    }
  }

  /** `text.split(',').map(q => q.trim())` */
  function SplitQueries(text: string): (queries: seq<string>)
    ensures |queries| == |Split(text, ',')| >= 1
  {
    var parts := Split(text, ',');
    seq(|parts|, i requires 0 <= i < |parts| => Trim(parts[i]))
  }

  /** Each query is one comma-separated piece of the text with its surrounding
      whitespace cut, so it holds no comma and starts and ends with neither
      whitespace nor a comma; nothing is deduplicated, and the pieces rejoined
      with commas give the text back. */
  lemma SplitQueriesSpec(text: string)
    ensures var queries := SplitQueries(text);
      Join(Split(text, ','), ",") == text
      && forall i :: 0 <= i < |queries| ==>
           queries[i] == Trim(Split(text, ',')[i])
           && ',' !in queries[i]
           && (|queries[i]| > 0 ==> !IsJsWhitespace(queries[i][0]) && !IsJsWhitespace(queries[i][|queries[i]| - 1]))
  {
    var queries := SplitQueries(text);
    JoinSplit(text, ',');
    SplitPiecesAvoidSeparator(text, ',');
    forall i | 0 <= i < |queries|
      ensures ',' !in queries[i]
      ensures |queries[i]| > 0 ==> !IsJsWhitespace(queries[i][0]) && !IsJsWhitespace(queries[i][|queries[i]| - 1])
    {
      TrimKeepsOut(Split(text, ',')[i], ',');
      TrimIsSlice(Split(text, ',')[i]);
    }
  }

  /** Re-splitting the queries after joining them with commas, as `performSearch`
      does with what the handler passes it, gives the same queries. */
  lemma {:induction false} QueriesSurviveRejoin(text: string)
    ensures SplitQueries(Join(SplitQueries(text), ",")) == SplitQueries(text)
  {
    var qs := SplitQueries(text);
    SplitQueriesSpec(text);
    SplitJoin(qs, ',');
    assert Split(Join(qs, ","), ',') == qs;
    var again := SplitQueries(Join(qs, ","));
    forall i | 0 <= i < |qs|
      ensures again[i] == qs[i]
    {
      TrimIdempotent(Split(text, ',')[i]);
    }
  }

  /** The provider-bound message list: stored history then this request's turns,
      each turn kept only if no equal turn comes before it. */
  function MergeHistory(stored: seq<Turn>, pending: seq<Turn>): (merged: seq<Turn>)
    ensures |stored + pending| > 0 ==> |merged| > 0
  {
    FirstOccurrencesSpec(stored + pending);
    DedupIsFirstOccurrences(stored + pending);
    assert |stored + pending| > 0 ==> (stored + pending)[0] in stored + pending;
    Dedup(stored + pending)
  }

  /** The merged list holds each turn of the concatenation exactly once, in the
      order of first occurrence; the new turn comes last unless it repeats an
      earlier one, and a duplicate-free history passes unchanged. */
  lemma MergeHistorySpec(stored: seq<Turn>, pending: seq<Turn>)
    ensures var merged := MergeHistory(stored, pending);
      (forall t :: t in merged <==> t in stored + pending)
      && NoDuplicates(merged)
      && (forall i, j :: 0 <= i < j < |merged| ==>
            FindIndex(stored + pending, merged[i]) < FindIndex(stored + pending, merged[j]))
    ensures NoDuplicates(stored + pending) ==> MergeHistory(stored, pending) == stored + pending
    ensures |pending| == 1 ==>
      MergeHistory(stored, pending) == Dedup(stored) + (if pending[0] in stored then [] else pending)
  {
    FirstOccurrencesSpec(stored + pending);
    DedupIsFirstOccurrences(stored + pending);
    if NoDuplicates(stored + pending) {
      FirstOccurrencesOfDistinct(stored + pending);
    }
    if |pending| == 1 {
      assert pending == [pending[0]];
      DedupSnoc(stored, pending[0]);
    }
  }

  /** The completion's `content`: missing, an array of blocks (each given by its
      `text`, "" when absent) or a string. */
  datatype ReplyContent = NoContent | Blocks(texts: seq<string>) | Text(text: string)

  /** The reply text the handler reads from a completion; "" when there is none. */
  function ReplyText(c: ReplyContent): string
  {
    match c
    case NoContent => ""
    case Blocks(texts) => if |texts| > 0 then texts[0] else ""
    case Text(t) => t
  }

  /** The canned reply for an empty completion, read off the last provider-bound
      turn; a part-list content makes `toLowerCase` throw, an error without status. */
  function Fallback(last: Content): (r: Outcome<string>)
    ensures r.Failed? <==> last.Parts?
    ensures r.Failed? ==> r.status.None?
    ensures r.Ok? ==> r.value == "aiaiai" || r.value == Apology
  {
    match last
    case Plain(t) => Ok(if Lower(t) == "jomok" then "aiaiai" else Apology)
    case Parts(_) => Failed(None)
  }

  /** The spellings that lower-case to `jomok`, listed letter by letter. */
  predicate SpellsJomok(t: string)
  {
    |t| == 5 && (t[0] == 'j' || t[0] == 'J') && (t[1] == 'o' || t[1] == 'O')
    && (t[2] == 'm' || t[2] == 'M') && (t[3] == 'o' || t[3] == 'O')
    && (t[4] == 'k' || t[4] == 'K' || t[4] == '\U{212A}')
  }

  /** The playful reply is chosen exactly for a spelling of `jomok`, untrimmed;
      every other text gets the apology. */
  lemma FallbackChoice(t: string)
    ensures Fallback(Plain(t)) == Ok(if SpellsJomok(t) then "aiaiai" else Apology)
  {
    if Lower(t) == "jomok" {
      assert |t| == 5;
      assert LowerChar(t[0]) == 'j' && LowerChar(t[1]) == 'o' && LowerChar(t[2]) == 'm';
      assert LowerChar(t[3]) == 'o' && LowerChar(t[4]) == 'k';
    }
  }

  /** The message of the outer `catch`. */
  function ErrorMessage(status: Option<int>): (msg: string)
    ensures msg == ApiKeyRejected <==> status == Some(401)
    ensures status != Some(401) ==> msg == GenericFailure
  {
    if status == Some(401) then ApiKeyRejected else GenericFailure
  }
}
