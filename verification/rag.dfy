/** The document chat of 22_Day22.py: a question is searched in the chosen
    Cortex Search service, the hits become `{text, source}` chunks, their
    texts are joined into a context, the context and the question fill the
    answer template, and the template is sent to COMPLETE as a quoted SQL
    literal. The search and the completion are the page's two remote calls
    and are parameters here. */
module Rag {
  import opened Wrappers
  import opened Text
  import opened SqlQuote
  import opened SearchService
  import opened Chat

  /** The columns the chat asks the search for. */
  const RagColumns: seq<string> := ["CHUNK_TEXT", "FILE_NAME"]

  const ChunkSeparator: string := "\n\n---\n\n"

  /** Number of chunks to retrieve: the sidebar slider, 1 to 5. */
  type ChunkCount = n: nat | 1 <= n <= 5 witness 3

  datatype Chunk = Chunk(text: string, source: string)

  /** A hit as a chunk: a missing text reads as empty, a missing file name
      as "Unknown". */
  function ToChunk(hit: Hit): Chunk
  {
    Chunk(Field(hit, "CHUNK_TEXT", ""), Field(hit, "FILE_NAME", "Unknown"))
  }

  /** `search_documents`' loop over `results.results`. */
  function ToChunks(hits: seq<Hit>): (chunks: seq<Chunk>)
    ensures |chunks| == |hits|
    ensures forall i :: 0 <= i < |hits| ==>
      && (chunks[i].text == if "CHUNK_TEXT" in hits[i] then hits[i]["CHUNK_TEXT"] else "")
      && (chunks[i].source == if "FILE_NAME" in hits[i] then hits[i]["FILE_NAME"] else "Unknown")
  {
    if hits == [] then [] else [ToChunk(hits[0])] + ToChunks(hits[1..])
  }

  function Texts(chunks: seq<Chunk>): (texts: seq<string>)
    ensures |texts| == |chunks|
    ensures forall i :: 0 <= i < |chunks| ==> texts[i] == chunks[i].text
  {
    if chunks == [] then [] else [chunks[0].text] + Texts(chunks[1..])
  }

  /** `"\n\n---\n\n".join(c["text"] for c in chunks)`. */
  function Context(chunks: seq<Chunk>): (context: string)
    ensures chunks == [] ==> context == ""
    ensures |chunks| == 1 ==> context == chunks[0].text
  {
    Join(ChunkSeparator, Texts(chunks))
  }

  lemma {:induction false} TextsAppend(a: seq<Chunk>, b: seq<Chunk>)
    ensures Texts(a + b) == Texts(a) + Texts(b)
  {
    var l, r := Texts(a + b), Texts(a) + Texts(b);
    assert |l| == |r|;
    forall i | 0 <= i < |l| ensures l[i] == r[i] {
      if i < |a| {
        assert (a + b)[i] == a[i];
      } else {
        assert (a + b)[i] == b[i - |a|];
      }
    }
  }

  /** The context keeps retrieval order: the chunks of a longer answer list
      appear as the context of the first ones, one separator, then the
      context of the rest. */
  lemma ContextInRetrievalOrder(a: seq<Chunk>, b: seq<Chunk>)
    requires a != [] && b != []
    ensures Context(a + b) == Context(a) + ChunkSeparator + Context(b)
  {
    TextsAppend(a, b);
    JoinConcat(ChunkSeparator, Texts(a), Texts(b));
  }

  /** The context is as long as the chunk texts plus one separator between
      each two of them. */
  lemma ContextLength(chunks: seq<Chunk>)
    requires chunks != []
    ensures |Context(chunks)| == SumLengths(Texts(chunks)) + (|chunks| - 1) * |ChunkSeparator|
  {
    JoinLength(ChunkSeparator, Texts(chunks));
  }

  /** An answer template: fixed instructions, the context, a label, the
      question, closing instructions. */
  datatype Template = Template(head: string, questionLabel: string, tail: string)

  /** The template filled with the context and the question: the context
      follows the instructions, the question follows the context and the
      label, both verbatim, and the closing instructions come last. */
  function FillTemplate(t: Template, context: string, question: string): (p: string)
    ensures |p| == |t.head| + |context| + |t.questionLabel| + |question| + |t.tail|
    ensures p[..|t.head|] == t.head
    ensures OccursAt(p, context, |t.head|)
    ensures OccursAt(p, t.questionLabel, |t.head| + |context|)
    ensures OccursAt(p, question, |t.head| + |context| + |t.questionLabel|)
    ensures p[|p| - |t.tail|..] == t.tail
  {
    var p := t.head + context + t.questionLabel + question + t.tail;
    assert p[|t.head|..|t.head| + |context|] == context;
    assert p[|t.head| + |context|..|t.head| + |context| + |t.questionLabel|] == t.questionLabel;
    assert p[|t.head| + |context| + |t.questionLabel|..|t.head| + |context| + |t.questionLabel| + |question|] == question;
    p
  }

  /** The page's template: instructions to answer only from customer
      reviews, the context, then `USER QUESTION:` and the question. */
  const ReviewTemplate: Template := Template(
    "You are a customer review analysis assistant. Your role is to ONLY answer questions about customer reviews and feedback.\n\n"
    + "STRICT GUIDELINES:\n"
    + "1. ONLY use information from the provided customer review context below\n"
    + "2. If asked about topics unrelated to customer reviews (e.g., general knowledge, coding, math, news), respond: \"I can only answer questions about customer reviews. Please ask about product feedback, customer experiences, or review insights.\"\n"
    + "3. If the context doesn't contain relevant information, say: \"I don't have enough information in the customer reviews to answer that.\"\n"
    + "4. Stay focused on: product features, customer satisfaction, complaints, praise, quality, pricing, shipping, or customer service mentioned in reviews\n"
    + "5. Do NOT make up information or use knowledge outside the provided reviews\n\n"
    + "CONTEXT FROM CUSTOMER REVIEWS:\n",
    "\n\nUSER QUESTION: ",
    "\n\nProvide a clear, helpful answer based ONLY on the customer reviews above. If you cite information, mention it naturally.")

  const PreviewLimit: nat := 200

  /** A source preview: texts longer than 200 characters are cut to their
      first 200 followed by "...". */
  function Preview(text: string): (shown: string)
    ensures |text| <= PreviewLimit ==> shown == text
    ensures |text| > PreviewLimit ==> |shown| == PreviewLimit + 3 && shown[PreviewLimit..] == "..."
    ensures shown[..if |text| <= PreviewLimit then |text| else PreviewLimit] == text[..if |text| <= PreviewLimit then |text| else PreviewLimit]
  {
    if |text| > PreviewLimit then text[..PreviewLimit] + "..." else text
  }

  /** Previewing a preview changes nothing. */
  lemma PreviewIdempotent(text: string)
    ensures Preview(Preview(text)) == Preview(text)
  {
    var shown := Preview(text);
    if |text| > PreviewLimit {
      assert shown[..PreviewLimit] + "..." == shown;
    }
  }

  /** One line of the Sources expander: its number from 1, file name, preview. */
  datatype SourceEntry = SourceEntry(number: nat, source: string, preview: string)

  function Sources(chunks: seq<Chunk>, first: nat): (entries: seq<SourceEntry>)
    ensures |entries| == |chunks|
    ensures forall i :: 0 <= i < |chunks| ==>
      entries[i] == SourceEntry(first + i, chunks[i].source, Preview(chunks[i].text))
  {
    if chunks == [] then [] else [SourceEntry(first, chunks[0].source, Preview(chunks[0].text))] + Sources(chunks[1..], first + 1)
  }

  datatype Reply = Reply(response: string, sources: seq<SourceEntry>)

  /** The remote calls of one question, as they happened: the search request
      made (if the path was accepted), the SQL sent (if the search returned),
      and the outcome. */
  datatype Pipeline = Pipeline(request: Option<SearchRequest>, sql: Option<string>, outcome: Result<Reply>)

  type Search = SearchRequest -> Result<seq<Hit>>
  type Complete = string -> Result<string>

  /** Answering one question inside the page's `try`: path check, search,
      context, prompt, quoted SQL, completion. Any failure is the raised
      exception's text. The page fills `ReviewTemplate`; the pipeline does
      not depend on its wording. */
  function Answer(t: Template, service: string, question: string, k: ChunkCount, search: Search, complete: Complete): (p: Pipeline)
    ensures p.request.Some? <==> ParsePath(service).Ok?
    ensures p.request.Some? ==> p.request.value == SearchRequest(ParsePath(service).value, question, RagColumns, k)
    ensures p.request.None? ==> p.outcome == Err(PathFormatError)
    ensures p.request.Some? && search(p.request.value).Err? ==> p.outcome == Err(search(p.request.value).error)
    ensures p.sql.Some? <==> p.request.Some? && search(p.request.value).Ok?
    ensures p.sql.Some? ==>
      var chunks := ToChunks(search(p.request.value).value);
      && |p.sql.value| >= |SqlHead|
      && p.sql.value[..|SqlHead|] == SqlHead
      && ReadLiteral(p.sql.value[|SqlHead|..]) == Some((FillTemplate(t, Context(chunks), question), ")"))
    ensures p.outcome.Ok? <==> p.sql.Some? && complete(p.sql.value).Ok?
    ensures p.sql.Some? && complete(p.sql.value).Err? ==> p.outcome == Err(complete(p.sql.value).error)
    ensures p.outcome.Ok? ==>
      && p.outcome.value.response == complete(p.sql.value).value
      && p.outcome.value.sources == Sources(ToChunks(search(p.request.value).value), 1)
  {
    match ParsePath(service)
    case Err(e) => Pipeline(None, None, Err(e))
    case Ok(path) =>
      var request := SearchRequest(path, question, RagColumns, k);
      match search(request)
      case Err(e) => Pipeline(Some(request), None, Err(e))
      case Ok(hits) =>
        var chunks := ToChunks(hits);
        var prompt := FillTemplate(t, Context(chunks), question);
        var sql := CompleteSql(prompt);
        CompleteSqlCarriesPrompt(prompt);
        match complete(sql)
        case Err(e) => Pipeline(Some(request), Some(sql), Err(e))
        case Ok(response) => Pipeline(Some(request), Some(sql), Ok(Reply(response, Sources(chunks, 1))))
  }

  /** A rejected path fails before any search: the outcome is the same
      whatever the search service would have answered. */
  lemma BadPathSearchesNothing(t: Template, service: string, question: string, k: ChunkCount,
                               s1: Search, s2: Search, c1: Complete, c2: Complete)
    requires Count(service, '.') != 2
    ensures Answer(t, service, question, k, s1, c1) == Answer(t, service, question, k, s2, c2)
    ensures Answer(t, service, question, k, s1, c1) == Pipeline(None, None, Err(PathFormatError))
  {
  }

  /** What the assistant bubble shows. */
  datatype DocView = Answered(reply: Reply) | DocFailed(message: string)

  datatype DocTurnResult = DocTurnResult(history: History, view: DocView)

  /** One question of the document chat: the question is recorded before
      searching, the answer only once everything succeeded; on an exception
      the history ends with the unanswered question and the error is shown. */
  function DocTurn(t: Template, h: History, service: string, question: string, k: ChunkCount,
                   search: Search, complete: Complete): (r: DocTurnResult)
    ensures |r.history| == |h| + (if r.view.Answered? then 2 else 1)
    ensures r.history[..|h|] == h
    ensures r.history[|h|] == Message(User, question)
    ensures r.view.Answered? <==> Answer(t, service, question, k, search, complete).outcome.Ok?
    ensures r.view.Answered? ==> r.view.reply == Answer(t, service, question, k, search, complete).outcome.value
    ensures r.view.Answered? ==>
      r.history[|h| + 1] == Message(Assistant, Answer(t, service, question, k, search, complete).outcome.value.response)
    ensures r.view.DocFailed? ==>
      r.view.message == "Error: " + Answer(t, service, question, k, search, complete).outcome.error
  {
    match Answer(t, service, question, k, search, complete).outcome
    case Ok(reply) => DocTurnResult(Exchange(h, question, Ok(reply.response)), Answered(reply))
    case Err(e) => DocTurnResult(Exchange(h, question, Err(e)), DocFailed("Error: " + e))
  }

  datatype DocEvent = Ask(question: string) | ClearDocChat

  /** The chat panel: Clear Chat empties the history; questions are taken
      only when a service is configured (otherwise the page asks for one and
      shows no chat input). */
  function DocStep(t: Template, h: History, service: string, e: DocEvent, k: ChunkCount,
                   search: Search, complete: Complete): (h': History)
    ensures e.ClearDocChat? ==> h' == []
    ensures e.Ask? && service == "" ==> h' == h
    ensures e.Ask? && service != "" ==> |h'| > |h| && h'[..|h|] == h
    ensures e.Ask? && service != "" ==> h' == DocTurn(t, h, service, e.question, k, search, complete).history
  {
    match e
    case ClearDocChat => []
    case Ask(question) =>
      if service == "" then h else DocTurn(t, h, service, question, k, search, complete).history
  }

  /** Document-chat steps keep every answer right after its question. */
  lemma DocStepKeepsAnswersAfterQuestions(t: Template, h: History, service: string, e: DocEvent, k: ChunkCount,
                                          search: Search, complete: Complete)
    requires AnswersFollowQuestions(h)
    ensures AnswersFollowQuestions(DocStep(t, h, service, e, k, search, complete))
  {
    if e.Ask? && service != "" {
      var outcome := Answer(t, service, e.question, k, search, complete).outcome;
      var answer: Result<string> := if outcome.Ok? then Ok(outcome.value.response) else Err(outcome.error);
      assert DocTurn(t, h, service, e.question, k, search, complete).history == Exchange(h, e.question, answer);
      ExchangeKeepsAnswersAfterQuestions(h, e.question, answer);
    }
  }
}
