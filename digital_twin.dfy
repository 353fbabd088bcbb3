/**
 * The digital twin's retrieval-augmented answer pipeline (`queryDigitalTwin`),
 * the database introspection wrapper (`getDatabaseInfo`) and the topic list
 * (`listTopics`).
 *
 * The vector store and the chat-completion service are not modelled: what
 * they would answer for this call is an input (`World`), and every result
 * records the external calls the code made (`Run.calls`), so that "no call
 * is made" and "the model is given this prompt" can be stated.
 */
module DigitalTwin {
  import opened Wrappers
  import opened JsValues

  // ---------------------------------------------------------------------
  // What the vector store returns

  /** The metadata fields the pipeline reads; `type`, `category` and `tags` are never read. */
  datatype Metadata = Metadata(title: Option<string>, content: Option<string>)

  /** One similarity match. Scores are opaque numbers that are only passed through. */
  datatype QueryResult = QueryResult(id: string, score: Option<real>, metadata: Option<Metadata>)

  /** An evidence record returned to the caller. */
  datatype Source = Source(title: string, relevance: real)

  /** `RAGResponse`: `success: true` with an answer and sources, or `success: false` with an error. */
  datatype RagResponse = Answered(answer: string, sources: seq<Source>) | Failed(error: string)

  // ---------------------------------------------------------------------
  // The environment and the external services

  /** The three environment variables; absent or "" both count as missing (`!url`). */
  datatype Credentials = Credentials(vectorUrl: Option<string>, vectorToken: Option<string>, groqApiKey: Option<string>)

  predicate Present(v: Option<string>) {
    v.Some? && v.value != ""
  }

  predicate VectorCredentialsPresent(c: Credentials) {
    Present(c.vectorUrl) && Present(c.vectorToken)
  }

  /** What `index.query` does: resolve with matches (a null result reads as none) or throw. */
  datatype StoreOutcome = Matches(results: seq<QueryResult>) | StoreFault(thrown: Thrown)

  /**
   * What `groq.chat.completions.create` does: resolve with a completion whose
   * `choices[0]?.message?.content` may be missing, or throw.
   */
  datatype CompletionOutcome = Completion(content: Option<string>) | CompletionFault(thrown: Thrown)

  /** What `index.info` does: resolve with the index statistics, any of which may be missing, or throw. */
  datatype InfoOutcome =
    | Info(vectorCount: Option<nat>, dimension: Option<nat>, similarityFunction: Option<string>)
    | InfoFault(thrown: Thrown)

  /** The environment and the answers the two services give to this request. */
  datatype World = World(creds: Credentials, query: StoreOutcome, completion: CompletionOutcome, info: InfoOutcome)

  /**
   * The chat request the pipeline sends, recorded by what it is built from:
   * the extracted snippets and the question. The model name and the two
   * messages follow from them (sampling parameters are not modelled).
   */
  datatype ChatRequest = ChatRequest(topDocs: seq<string>, question: string) {
    function Model(): string {
      ChatModel
    }

    function System(): string {
      SystemPrompt
    }

    /** The user message, with the snippets joined by blank lines as its context. */
    function User(): string {
      UserPrompt(Join(topDocs, ContextSeparator), question)
    }
  }

  /** An external call, with the arguments that matter. */
  datatype Call = VectorQuery(data: string, topK: nat) | VectorInfo | ChatCompletion(request: ChatRequest)

  /** A pipeline result together with the external calls made to reach it, in order. */
  datatype Run = Run(response: RagResponse, calls: seq<Call>)

  // ---------------------------------------------------------------------
  // Constants of the pipeline

  const TopK: nat := 3
  const ContextSeparator := "\n\n"
  const DefaultTitle := "Information"
  const DefaultAnswer := "Unable to generate response"
  const EmptyQuestionError := "Question cannot be empty"
  const MissingVectorCredentialsError := "Missing Upstash Vector credentials in environment variables"
  const MissingGroqKeyError := "Missing GROQ_API_KEY in environment variables"
  const NoMatchesAnswer := "I don't have specific information about that topic in my profile."
  const NoContentAnswer := "I found some information but couldn't extract specific details."
  const ChatModel := "llama-3.1-8b-instant"
  const SystemPrompt := "You are an AI digital twin representing Eshaan Gupta. Answer questions as if you are the person, speaking in first person about your background, skills, and experience. Be professional, concise, and highlight relevant achievements."
  const PromptHead := "Based on the following information about yourself, answer the question.\nSpeak in first person as if you are describing your own background.\n\nYour Information:\n"
  const QuestionLead := "\n\nQuestion: "
  const PromptTail := "\n\nProvide a helpful, professional response:"

  // ---------------------------------------------------------------------
  // Step 2: extracting content from the matches

  /** `metadata.content || ""`, with missing metadata read as `{}`. */
  function ContentOf(r: QueryResult): (c: string)
    ensures r.metadata.Some? && r.metadata.value.content.Some? ==> c == r.metadata.value.content.value
    ensures (r.metadata.None? || r.metadata.value.content.None?) ==> c == ""
  {
    match r.metadata
    case None => ""
    case Some(m) => m.content.GetOr("")
  }

  predicate HasContent(r: QueryResult) {
    ContentOf(r) != ""
  }

  /** `metadata.title || "Information"`: the stored title when it is non-empty, else the default. */
  function TitleOf(r: QueryResult): (t: string)
    ensures t != ""
    ensures t == DefaultTitle || (r.metadata.Some? && r.metadata.value.title == Some(t))
    ensures r.metadata.Some? && r.metadata.value.title.Some? && r.metadata.value.title.value != ""
      ==> t == r.metadata.value.title.value
  {
    match r.metadata
    case None => DefaultTitle
    case Some(m) => if m.title.Some? && m.title.value != "" then m.title.value else DefaultTitle
  }

  /** `result.score || 0` */
  function RelevanceOf(r: QueryResult): (x: real)
    ensures r.score.Some? ==> x == r.score.value
    ensures r.score.None? ==> x == 0.0
  {
    r.score.GetOr(0.0)
  }

  /** `${title}: ${content}`: the title, a colon and a space, then the content. */
  function DocOf(r: QueryResult): (d: string)
    ensures |d| == |TitleOf(r)| + 2 + |ContentOf(r)|
    ensures d[..|TitleOf(r)|] == TitleOf(r) && d[|TitleOf(r)|..|TitleOf(r)| + 2] == ": "
    ensures d[|TitleOf(r)| + 2..] == ContentOf(r)
  {
    TitleOf(r) + ": " + ContentOf(r)
  }

  /** `{ title, relevance }`: the source record shown beside the answer. */
  function SourceOf(r: QueryResult): (src: Source)
    ensures src.title != "" && src.title == TitleOf(r)
    ensures src.relevance == RelevanceOf(r)
  {
    Source(TitleOf(r), RelevanceOf(r))
  }

  datatype Extraction = Extraction(topDocs: seq<string>, sources: seq<Source>)

  /**
   * The two arrays the extraction loop fills: one prompt snippet and one
   * source record per match that has content, pushed in the order the
   * matches come.
   */
  function Extract(results: seq<QueryResult>): (ex: Extraction)
    ensures |ex.topDocs| == |ex.sources| <= |results|
    decreases |results|
  {
    if results == [] then Extraction([], [])
    else
      var prev := Extract(results[..|results| - 1]);
      var r := results[|results| - 1];
      if HasContent(r) then Extraction(prev.topDocs + [DocOf(r)], prev.sources + [SourceOf(r)])
      else prev
  }

  /** The positions of the matches that have content, in increasing order. */
  function KeptPositions(results: seq<QueryResult>): (idx: seq<nat>)
    ensures forall j :: 0 <= j < |idx| ==> idx[j] < |results| && HasContent(results[idx[j]])
    ensures forall j, k :: 0 <= j < k < |idx| ==> idx[j] < idx[k]
    ensures forall i :: 0 <= i < |results| && HasContent(results[i]) ==> i in idx
    decreases |results|
  {
    if results == [] then []
    else
      var n := |results| - 1;
      var prev := KeptPositions(results[..n]);
      if HasContent(results[n]) then prev + [n] else prev
  }

  /** One snippet per match that has content. */
  lemma {:induction false} ExtractCountsKept(results: seq<QueryResult>)
    ensures |Extract(results).topDocs| == |KeptPositions(results)|
    decreases |results|
  {
    if results != [] {
      ExtractCountsKept(results[..|results| - 1]);
    }
  }

  /** The j-th snippet and source come from the j-th match that has content. */
  lemma {:induction false} ExtractAt(results: seq<QueryResult>, j: nat)
    requires j < |KeptPositions(results)|
    ensures |Extract(results).topDocs| == |KeptPositions(results)|
    ensures Extract(results).topDocs[j] == DocOf(results[KeptPositions(results)[j]])
    ensures Extract(results).sources[j] == SourceOf(results[KeptPositions(results)[j]])
    decreases |results|
  {
    ExtractCountsKept(results);
    var n := |results| - 1;
    var init := results[..n];
    ExtractCountsKept(init);
    if j < |KeptPositions(init)| {
      ExtractAt(init, j);
      assert init[KeptPositions(init)[j]] == results[KeptPositions(init)[j]];
    }
  }

  /**
   * Extraction keeps exactly the matches that have content, in input order:
   * the j-th snippet and source come from the j-th such match.
   */
  lemma ExtractKeepsContentInOrder(results: seq<QueryResult>)
    ensures var ex, idx := Extract(results), KeptPositions(results);
      |ex.topDocs| == |idx|
      && (forall j :: 0 <= j < |idx| ==>
            ex.topDocs[j] == DocOf(results[idx[j]]) && ex.sources[j] == SourceOf(results[idx[j]]))
  {
    ExtractCountsKept(results);
    forall j | 0 <= j < |KeptPositions(results)|
      ensures Extract(results).topDocs[j] == DocOf(results[KeptPositions(results)[j]])
      ensures Extract(results).sources[j] == SourceOf(results[KeptPositions(results)[j]])
    {
      ExtractAt(results, j);
    }
  }

  /** Nothing is extracted exactly when no match has content. */
  lemma ExtractEmptyIffNoContent(results: seq<QueryResult>)
    ensures Extract(results).topDocs == [] <==> forall i :: 0 <= i < |results| ==> !HasContent(results[i])
  {
    ExtractKeepsContentInOrder(results);
    var idx := KeptPositions(results);
    if idx != [] {
      assert HasContent(results[idx[0]]);
    }
    if exists i :: 0 <= i < |results| && HasContent(results[i]) {
      var i :| 0 <= i < |results| && HasContent(results[i]);
      assert i in idx;
    }
  }

  /**
   * Every snippet is its source's title, ": ", and the match's content; the
   * title is never empty.
   */
  lemma SnippetsPairWithSources(results: seq<QueryResult>, j: nat)
    requires j < |Extract(results).topDocs|
    ensures var ex, idx := Extract(results), KeptPositions(results);
      j < |idx|
      && ex.sources[j].title != ""
      && ex.topDocs[j] == ex.sources[j].title + ": " + ContentOf(results[idx[j]])
      && ContentOf(results[idx[j]]) != ""
  {
    ExtractCountsKept(results);
    ExtractAt(results, j);
  }

  /** The extraction loop of `queryDigitalTwin`, pushing into two arrays. */
  method CollectSources(results: seq<QueryResult>) returns (topDocs: seq<string>, sources: seq<Source>)
    ensures Extraction(topDocs, sources) == Extract(results)
  {
    topDocs, sources := [], [];
    for i := 0 to |results|
      invariant Extraction(topDocs, sources) == Extract(results[..i])
    {
      var result := results[i];
      var metadata := result.metadata.GetOr(Metadata(None, None));
      var title := if metadata.title.Some? && metadata.title.value != "" then metadata.title.value else DefaultTitle;
      var content := metadata.content.GetOr("");
      var score := result.score.GetOr(0.0);
      if content != "" {
        topDocs := topDocs + [title + ": " + content];
        sources := sources + [Source(title, score)];
      }
      assert results[..i + 1][..i] == results[..i];
    }
    assert results[..|results|] == results;
  }

  // ---------------------------------------------------------------------
  // Step 3: the prompt and the answer

  /** The user message: the fixed instructions, the context, then the question. */
  function UserPrompt(context: string, question: string): (p: string)
    ensures |p| == |PromptHead| + |context| + |QuestionLead| + |question| + |PromptTail|
    ensures p[..|PromptHead|] == PromptHead
    ensures p[|p| - |PromptTail|..] == PromptTail
  {
    PromptHead + context + QuestionLead + question + PromptTail
  }

  /**
   * Where the pieces sit in the user message: the instructions first, then
   * the context, then "Question: " and the question, then the closing line.
   */
  lemma UserPromptLayout(context: string, question: string)
    ensures var p := UserPrompt(context, question);
      |p| == |PromptHead| + |context| + |QuestionLead| + |question| + |PromptTail|
      && p[..|PromptHead|] == PromptHead
      && p[|PromptHead|..|PromptHead| + |context|] == context
      && var q := |PromptHead| + |context| + |QuestionLead|;
      p[q - |QuestionLead|..q] == QuestionLead && p[q..q + |question|] == question
      && p[q + |question|..] == PromptTail
  {
  }

  /** `completion.choices[0]?.message?.content?.trim() || "Unable to generate response"` */
  function AnswerText(content: Option<string>): (a: string)
    ensures a != ""
    ensures a == DefaultAnswer || (content.Some? && a == Trim(content.value))
    ensures content.Some? && !IsBlank(content.value) ==> a == Trim(content.value)
    ensures Trim(a) == a
  {
    if content.Some? && Trim(content.value) != "" then
      TrimIdempotent(content.value);
      Trim(content.value)
    else
      assert Trim(DefaultAnswer) == DefaultAnswer by {
        assert DefaultAnswer[0] == 'U';
        assert DefaultAnswer[|DefaultAnswer| - 1] == 'e';
      }
      DefaultAnswer
  }


  // ---------------------------------------------------------------------
  // queryDigitalTwin

  predicate StoreQueried(run: Run) {
    |run.calls| > 0 && run.calls[0].VectorQuery?
  }

  /** How many of the calls went to the chat model. */
  function ChatCalls(calls: seq<Call>): nat {
    if calls == [] then 0 else (if calls[0].ChatCompletion? then 1 else 0) + ChatCalls(calls[1..])
  }

  /** The condition under which the pipeline reaches the chat model. */
  predicate ReachesModel(question: string, w: World) {
    && !IsBlank(question)
    && VectorCredentialsPresent(w.creds)
    && w.query.Matches?
    && Extract(w.query.results).topDocs != []
    && Present(w.creds.groqApiKey)
  }

  /**
   * `queryDigitalTwin(question)`: validate the question, query the store,
   * extract content, and either answer from a fixed text, report an error,
   * or ask the chat model.
   */
  function QueryDigitalTwin(question: string, w: World): (run: Run)
    ensures IsBlank(question) ==> run == Run(Failed(EmptyQuestionError), [])
    ensures StoreQueried(run) <==> !IsBlank(question) && VectorCredentialsPresent(w.creds)
    ensures StoreQueried(run) ==> run.calls[0] == VectorQuery(question, TopK)
    ensures ReachesModel(question, w) ==>
      run.calls == [VectorQuery(question, TopK), ChatCompletion(ChatRequest(Extract(w.query.results).topDocs, question))]
    ensures |run.calls| <= 2
    ensures |run.calls| == 2 && run.calls[1] != VectorInfo ==> ReachesModel(question, w)
    ensures run.response.Answered? && run.response.sources != [] ==>
      ReachesModel(question, w) && run.response.sources == Extract(w.query.results).sources
  {
    // `!question || question.trim().length === 0`: the empty string is blank, so one test covers both.
    if IsBlank(question) then
      Run(Failed(EmptyQuestionError), [])
    else if !VectorCredentialsPresent(w.creds) then
      Run(Failed(MissingVectorCredentialsError), [])
    else
      var query := VectorQuery(question, TopK);
      match w.query
      case StoreFault(e) =>
        Run(Failed(MessageOr(e, "Unknown error occurred")), [query])
      case Matches(results) =>
        if |results| == 0 then
          // The store is introspected for diagnostics only; its answer is discarded.
          Run(Answered(NoMatchesAnswer, []), [query, VectorInfo])
        else
          var ex := Extract(results);
          if |ex.topDocs| == 0 then
            Run(Answered(NoContentAnswer, []), [query])
          else if !Present(w.creds.groqApiKey) then
            Run(Failed(MissingGroqKeyError), [query])
          else
            var chat := ChatCompletion(ChatRequest(ex.topDocs, question));
            match w.completion
            case CompletionFault(e) =>
              Run(Failed("Groq API error: " + MessageOr(e, "Unknown error")), [query, chat])
            case Completion(content) =>
              Run(Answered(AnswerText(content), ex.sources), [query, chat])
  }

  /** No matches: the fixed "no information" answer, no sources, and no model call. */
  lemma NoMatchesGivesFixedAnswer(question: string, w: World)
    requires !IsBlank(question) && VectorCredentialsPresent(w.creds) && w.query == Matches([])
    ensures QueryDigitalTwin(question, w) == Run(Answered(NoMatchesAnswer, []), [VectorQuery(question, TopK), VectorInfo])
  {
  }

  /** Matches without content: the fixed "no details" answer, no sources, and no model call. */
  lemma NoContentGivesFixedAnswer(question: string, w: World)
    requires !IsBlank(question) && VectorCredentialsPresent(w.creds) && w.query.Matches?
    requires w.query.results != []
    requires forall i :: 0 <= i < |w.query.results| ==> !HasContent(w.query.results[i])
    ensures QueryDigitalTwin(question, w) == Run(Answered(NoContentAnswer, []), [VectorQuery(question, TopK)])
  {
    ExtractEmptyIffNoContent(w.query.results);
  }

  /** Missing vector-store credentials: `success: false` with the thrown message, and no call at all. */
  lemma MissingVectorCredentialsFail(question: string, w: World)
    requires !IsBlank(question) && !VectorCredentialsPresent(w.creds)
    ensures QueryDigitalTwin(question, w) == Run(Failed(MissingVectorCredentialsError), [])
  {
  }

  /** A failing store query: `success: false` with the thrown message; nothing else is called. */
  lemma StoreFaultFails(question: string, w: World)
    requires !IsBlank(question) && VectorCredentialsPresent(w.creds) && w.query.StoreFault?
    ensures QueryDigitalTwin(question, w) ==
      Run(Failed(MessageOr(w.query.thrown, "Unknown error occurred")), [VectorQuery(question, TopK)])
  {
  }

  /**
   * A missing Groq key is noticed only once there is content to send, and
   * then fails with the thrown message before the model is called.
   */
  lemma MissingGroqKeyFails(question: string, w: World)
    requires !IsBlank(question) && VectorCredentialsPresent(w.creds) && w.query.Matches?
    requires Extract(w.query.results).topDocs != [] && !Present(w.creds.groqApiKey)
    ensures QueryDigitalTwin(question, w) == Run(Failed(MissingGroqKeyError), [VectorQuery(question, TopK)])
  {
  }

  /** A failing chat call yields `success: false` with "Groq API error: " and the upstream message. */
  lemma ModelFailureReported(question: string, w: World)
    requires ReachesModel(question, w) && w.completion.CompletionFault?
    ensures QueryDigitalTwin(question, w).response ==
      Failed("Groq API error: " + MessageOr(w.completion.thrown, "Unknown error"))
  {
  }

  /** A successful chat call: the trimmed completion (or the default) and the extracted sources unchanged. */
  lemma ModelSuccessAnswers(question: string, w: World)
    requires ReachesModel(question, w) && w.completion.Completion?
    ensures var run := QueryDigitalTwin(question, w);
      run.response.Answered?
      && run.response.sources == Extract(w.query.results).sources
      && run.response.answer == AnswerText(w.completion.content)
  {
  }

  /** The model is called once when the pipeline reaches it, and otherwise never. */
  lemma ModelCalledOnceIffReached(question: string, w: World)
    ensures ChatCalls(QueryDigitalTwin(question, w).calls) == if ReachesModel(question, w) then 1 else 0
  {
    ChatCallsAfterQuery(QueryDigitalTwin(question, w).calls);
  }

  /** In at most two calls that begin with a store query, only the second can go to the model. */
  lemma ChatCallsAfterQuery(calls: seq<Call>)
    requires |calls| <= 2 && (calls != [] ==> calls[0].VectorQuery?)
    ensures ChatCalls(calls) == if |calls| == 2 && calls[1].ChatCompletion? then 1 else 0
  {
    if calls != [] {
      assert ChatCalls(calls) == ChatCalls(calls[1..]);
      if |calls| == 2 {
        assert calls[1..][1..] == [];
      }
    }
  }

  /**
   * The request sent on the model path: the configured model, the fixed
   * system prompt, and the user message built from the extracted snippets
   * and the question.
   */
  lemma ModelRequest(question: string, w: World)
    requires ReachesModel(question, w)
    ensures var calls := QueryDigitalTwin(question, w).calls;
      |calls| == 2 && calls[1].ChatCompletion?
      && calls[1].request.Model() == ChatModel
      && calls[1].request.System() == SystemPrompt
      && calls[1].request.User() == UserPrompt(Join(Extract(w.query.results).topDocs, ContextSeparator), question)
  {
  }

  /**
   * The context slot of the prompt given to the model (the text `UserPrompt`
   * places between the fixed instructions and "Question: ") holds every
   * snippet, each at its offset in the joined context.
   */
  lemma PromptHoldsEverySnippet(docs: seq<string>, question: string, j: nat)
    requires j < |docs|
    ensures var context := Join(docs, ContextSeparator);
      var slot := UserPrompt(context, question)[|PromptHead|..|PromptHead| + |context|];
      var at := Offset(docs, ContextSeparator, j);
      at + |docs[j]| <= |slot| && slot[at..at + |docs[j]|] == docs[j]
  {
    UserPromptLayout(Join(docs, ContextSeparator), question);
    JoinAt(docs, ContextSeparator, j);
  }

  // ---------------------------------------------------------------------
  // getDatabaseInfo and listTopics

  /** The result of `getDatabaseInfo`. */
  datatype DbInfo =
    | DbConnected(vectorCount: nat, dimension: nat, similarityFunction: string)
    | DbUnavailable(error: string)

  datatype InfoRun = InfoRun(info: DbInfo, calls: seq<Call>)

  /**
   * `getDatabaseInfo`: the index statistics with missing numbers read as 0
   * and a missing metric as "unknown", or `success: false` with the message.
   */
  function GetDatabaseInfo(w: World): (r: InfoRun)
    ensures r.calls == (if VectorCredentialsPresent(w.creds) then [VectorInfo] else [])
    ensures r.info.DbConnected? <==> VectorCredentialsPresent(w.creds) && w.info.Info?
    ensures r.info.DbConnected? ==>
      && r.info.vectorCount == w.info.vectorCount.GetOr(0)
      && r.info.dimension == w.info.dimension.GetOr(0)
      && r.info.similarityFunction != ""
      && (r.info.similarityFunction == "unknown" || w.info.similarityFunction == Some(r.info.similarityFunction))
    ensures (VectorCredentialsPresent(w.creds) && w.info.Info? && w.info.similarityFunction.Some?
             && w.info.similarityFunction.value != "") ==>
      r.info.similarityFunction == w.info.similarityFunction.value
    ensures !VectorCredentialsPresent(w.creds) ==> r.info == DbUnavailable(MissingVectorCredentialsError)
    ensures VectorCredentialsPresent(w.creds) && w.info.InfoFault? ==>
      r.info == DbUnavailable(MessageOr(w.info.thrown, "Unknown error"))
  {
    if !VectorCredentialsPresent(w.creds) then
      InfoRun(DbUnavailable(MissingVectorCredentialsError), [])
    else
      match w.info
      case InfoFault(e) => InfoRun(DbUnavailable(MessageOr(e, "Unknown error")), [VectorInfo])
      case Info(count, dim, metric) =>
        var similarity := if metric.Some? && metric.value != "" then metric.value else "unknown";
        InfoRun(DbConnected(count.GetOr(0), dim.GetOr(0), similarity), [VectorInfo])
  }

  /** `listTopics`: the eight fixed profile categories. */
  function ListTopics(): (topics: seq<string>)
    ensures |topics| == 8
    ensures forall i, j :: 0 <= i < j < |topics| ==> topics[i] != topics[j]
  {
    ["Personal Introduction", "Technical Skills", "Projects & Achievements", "Work Experience",
     "Education", "Career Goals", "Interview Preparation", "Soft Skills"]
  }
}
