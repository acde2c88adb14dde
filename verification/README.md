# 30 Days of AI with Streamlit — a Dafny model of the app logic

This project models the logic of a set of Streamlit lesson pages. Each page runs
top to bottom on every interaction, keeps what must persist in session state and
calls Snowflake for sessions, search and completions. The model covers the
following pages.

- **Cortex Search** (`20_Day20.py`):
  - choosing a search service, with the default always listed first and a
    manual-entry sentinel;
  - the three-part `database.schema.service_name` path check;
  - the query/service guard;
  - numbered result cards with fallbacks for missing columns.
- **Document chat** (`22_Day22.py`):
  - the same service choice;
  - a search asking for 1 to 5 chunks, its hits (however many come back)
    turned into `{text, source}`;
  - the `"\n\n---\n\n"` context join and the grounded answer template;
  - the prompt sent to `SNOWFLAKE.CORTEX.COMPLETE` as an SQL string literal
    with doubled quotes;
  - source previews cut at 200 characters;
  - the append-only chat history and Clear Chat.
- **Chat history** (`pages/10_Day10.py`): turns that record the question first
  and the answer only on success, two independent conversations, and Clear.
- **Connection** (`pages/01_Day1.py`):
  - resolving a session in order: cached handle, active session, then the
    secrets entry;
  - the page's connection status;
  - the custom-connection form with its required fields.
- **Post generator** (`pages/07_Day7.py`):
  - theme and font CSS selection;
  - the empty-URL guard;
  - the prompt with tone, word count and URL;
  - the `\n` to line-break display normalisation.
- **Context window** (`pages/12_Day12.py`): the numbered demo messages and the
  window `history[-w:]`.
- **Counters** (`pages/09_Day9.py`): a plain variable that resets on every
  rerun, next to a session-state counter that accumulates.
- **Input check** (`pages/11_Day11.py`): the length feedback of the validation
  demo.

Every remote call is a parameter. Calls that depend on the page's input are of
function type `A -> Result<B>`: the session builder, the version query,
`close()`, `svc.search`, `COMPLETE` / `ai_complete`. Calls made once with no
input are plain `Result` values: the active session (`Connection.Resolve`) and
the `SHOW CORTEX SEARCH SERVICES` listing (`SearchService.ListServices`).
An `Err` stands for the exception the call raised. The model therefore states
which request is made and what the page does with every possible answer. "No
call is made" is stated as "the result is the same whatever the call would have
answered". Python built-ins the pages rely on are written out:
- `str.split` and `str.join`;
- `list.remove`, which removes only the first occurrence;
- negative slices `h[-w:]`;
- the left-to-right `str.replace`;
- `str(n)`.

Files and modules:

| file | module | models |
|---|---|---|
| `wrappers.dfy` | `Wrappers` | `Option`, `Result` |
| `text.dfy` | `Text` | split/join, occurrence counts, decimal printing |
| `sql_quote.dfy` | `SqlQuote` | SQL string literals (ISO/IEC 9075, section 5.3 `<character string literal>`), the COMPLETE statement |
| `search_service.dfy` | `SearchService` | service listing, reordering, dropdown, path parsing |
| `chat.dfy` | `Chat` | chat history, turns, the two-conversation page |
| `rag.dfy` | `Rag` | the retrieval-augmented answer and the document chat |
| `cortex_search.dfy` | `CortexSearch` | the search page |
| `connection.dfy` | `Connection` | session resolution and the custom-connection form |
| `post_generator.dfy` | `PostGenerator` | CSS, prompt, normalisation, generation |
| `context_window.dfy` | `ContextWindow` | the context-window demo |
| `counter.dfy` | `Counter` | the two counters |
| `input_check.dfy` | `InputCheck` | the length feedback |

The fixed wording of the two long prompts is data: the document chat's
answer template is `Rag.ReviewTemplate`, and the post generator's prompt text
is `PostGenerator.LinkedInPrompt`. The operations that fill them (`Rag.Answer`,
`Rag.DocTurn`, `Rag.DocStep`, `PostGenerator.Generate`) take the template as
their first argument. Their contracts therefore hold for the page's wording and
do not depend on it.

Three behaviours of the code are worth stating directly:
- The chat and document-chat pages do not build a "User: … / Assistant: …"
  transcript of earlier turns. `pages/10_Day10.py:131` sends only the latest
  prompt. `22_Day22.py:254-268` fills the template with the retrieved context
  and the current question only. `Chat.TurnIgnoresHistory` states this.
- `20_Day20.py:90` uses a constant, non-empty default service. Its text-input
  fallback (`20_Day20.py:128-135`) therefore cannot be reached
  (`SearchService.ConstantDefaultAlwaysDropdown`).
- The "Input too long" branch of `pages/11_Day11.py:50-51` cannot be reached
  through a text area limited to 200 characters
  (`InputCheck.TooLongUnreachable`).

## Model

| member | source | states |
|---|---|---|
| Text.Split | 22_Day22.py:220 | `split(".")` gives one more part than there are separators, and no part contains the separator |
| Text.JoinSplit | 22_Day22.py:220 | joining the parts of a split with the separator gives back the original path |
| Text.SplitJoin | 22_Day22.py:220 | splitting a join of separator-free parts gives back the parts |
| Text.JoinConcat | 22_Day22.py:252 | the join of two non-empty lists is their joins with one separator between them |
| Text.JoinLength | 22_Day22.py:252 | a join is as long as its parts plus one separator between each two |
| Text.DecimalString | pages/12_Day12.py:118 | `str(n)` is a non-empty digit string without a leading zero |
| Text.ParseDecimalString | pages/12_Day12.py:118 | reading the decimal string back gives the number |
| Text.DecimalStringInjective | pages/12_Day12.py:118 | different numbers print differently |
| SqlQuote.Escape | 22_Day22.py:270 | doubling quotes lengthens the prompt by exactly its number of quotes |
| SqlQuote.UnescapeEscape | 22_Day22.py:270 | reading the doubled quotes back gives the original text, so, as ISO/IEC 9075 reads a literal, no prompt loses information |
| SqlQuote.EscapeIsPaired | 22_Day22.py:270 | every quote in the escaped text is part of a doubled pair, so, as ISO/IEC 9075 reads a literal, no quote closes it early |
| SqlQuote.EscapeUnescape | 22_Day22.py:270 | every text whose quotes are paired is the escaping of exactly one prompt, so escaping is a bijection onto paired texts |
| SqlQuote.ReadEscapedLiteral | 22_Day22.py:270 | an ISO/IEC 9075 lexer reading one quoted part of an escaped literal returns the original text and stops at the part's closing quote (the continuation into a further part is not modelled; see Left out) |
| SqlQuote.CompleteSql | 22_Day22.py:270 | the statement's length is the fixed parts plus the prompt plus one per quote |
| SqlQuote.CompleteSqlCarriesPrompt | 22_Day22.py:270 | the statement starts with the COMPLETE call on claude-3-5-sonnet, and its second literal, read as ISO/IEC 9075 defines it, gives back exactly the prompt, followed by `)` |
| SearchService.ListServices | 22_Day22.py:167-174 | a failed listing gives no services; otherwise path i is row i's database, schema and name joined by dots |
| Text.IndexOf | 22_Day22.py:178 | the index is the position of the first copy: the element is there and nowhere before it, and the index is the length exactly when the element is absent |
| SearchService.RemoveFirst | 22_Day22.py:177-178 | `list.remove` takes out the first copy of the element (the list before it, then the list after it), so one copy fewer and all other elements kept |
| SearchService.PutDefaultFirst | 22_Day22.py:176-179 | a non-empty default comes first; the other services are kept; it is added only if it was missing; an empty default changes nothing |
| SearchService.DefaultMovedFromFirstCopy | 22_Day22.py:176-179 | a listed default is taken from its first position to the front; the elements before and after it keep their order |
| SearchService.DefaultOnce | 22_Day22.py:176-179 | the default is listed exactly once if and only if the listing held it at most once |
| SearchService.ServiceOptions | 22_Day22.py:181-206 | a dropdown is shown if and only if there is something to list; it ends with the manual-entry sentinel after the reordered services; otherwise the text input is prefilled with the default |
| SearchService.TypeInPrefillEmpty | 22_Day22.py:201-206 | the text-input fallback is only ever prefilled with the empty string |
| SearchService.ConstantDefaultAlwaysDropdown | 20_Day20.py:90-135 | with the constant default the dropdown always appears and opens on the default |
| SearchService.SelectedService | 22_Day22.py:191-197 | a picked option other than the sentinel is the chosen service; picking the sentinel, or having no dropdown, gives the typed path |
| SearchService.InitialSelectionIsDefault | 20_Day20.py:109-123 | an untouched dropdown selects the default service |
| SearchService.ParsePath | 22_Day22.py:220-222 | a path is accepted if and only if it has exactly two dots; refusals carry the format message; accepted parts are dot-free and rejoin to the path |
| SearchService.ListedServiceParses | 22_Day22.py:220-223 | a listed service with dot-free names parses back into its own database, schema and name |
| SearchService.TwoPartPathRefused | 20_Day20.py:161-164 | a `database.schema` path without a service is refused with the format message |
| SearchService.DatabaseAndSchemaOnlyRefused | 20_Day20.py:161-164 | `RAG_DB.RAG_SCHEMA` is refused |
| SearchService.EmptySchemaAccepted | 20_Day20.py:161-169 | empty components are not refused: `a..b` has an empty schema |
| Chat.Exchange | pages/10_Day10.py:119-135 | the question is appended first, and the answer after it only when the call returned one; earlier records are untouched |
| Chat.ExchangeKeepsAnswersAfterQuestions | pages/10_Day10.py:119-141 | every assistant record stays directly after a user record, whether the call succeeds or fails |
| Chat.Turn | pages/10_Day10.py:119-141 | the reply is shown if and only if the call succeeded; a failure is shown as "Error generating response: …" and the question stays recorded |
| Chat.TurnIgnoresHistory | pages/10_Day10.py:131 | what a turn adds and shows does not depend on the earlier conversation |
| Chat.AnsweredRunAlternates | pages/10_Day10.py:119-138 | when every call answers, the history strictly alternates question and answer |
| Chat.InitHistory | pages/10_Day10.py:98-99 | a missing history starts empty and an existing one is kept |
| Chat.Step | pages/10_Day10.py:228-268 | a submit or clear on one conversation leaves the other unchanged; clear empties; submit is one turn |
| Chat.MetricAfterTurn | pages/10_Day10.py:104 | the message count grows by two after an answered turn and by one after a failed one |
| Rag.ToChunks | 22_Day22.py:226-232 | one chunk per hit, in order; missing text reads as empty and a missing file name as "Unknown" |
| Rag.Context | 22_Day22.py:252 | no chunks give an empty context, and one chunk gives its own text |
| Rag.ContextInRetrievalOrder | 22_Day22.py:252 | the context of a longer list is the context of its first chunks, one separator, then the context of the rest |
| Rag.ContextLength | 22_Day22.py:252 | the context is as long as the chunk texts plus one separator between each two |
| Rag.FillTemplate | 22_Day22.py:254-268 | the filled template starts with the fixed instructions; then come the context, the `USER QUESTION:` label and the question, each verbatim and right after the previous one; the closing instruction comes last, and nothing else is added |
| Rag.Preview | 22_Day22.py:278 | texts of at most 200 characters are shown whole; longer ones are their first 200 characters followed by "..." |
| Rag.PreviewIdempotent | 22_Day22.py:278 | previewing a preview changes nothing |
| Rag.Sources | 22_Day22.py:275-278 | one source line per chunk, numbered from 1, each with the file name and preview |
| Rag.Answer | 22_Day22.py:249-280 | a search is made if and only if the path is valid, with the question, two columns and k. The COMPLETE statement is sent if and only if the search returned. Its literal, read as ISO/IEC 9075 defines it, carries the filled template. The answer is produced if and only if every call succeeded. A refused path fails with the format message, and a failed search or completion fails with that call's own error |
| Rag.BadPathSearchesNothing | 22_Day22.py:220-224 | a refused path fails with the format message before any search or completion |
| Rag.DocTurn | 22_Day22.py:242-283 | the question is recorded first; the answer is recorded if and only if the pipeline succeeded, and the bubble then shows exactly the pipeline's response and sources; otherwise "Error: …" is shown |
| Rag.DocStep | 22_Day22.py:213-243 | Clear Chat empties the history; questions are taken only with a service configured, and then each is exactly one document-chat turn, which extends the history |
| Rag.DocStepKeepsAnswersAfterQuestions | 22_Day22.py:242-283 | the document chat keeps every answer directly after its question |
| CortexSearch.Cards | 20_Day20.py:181-191 | one card per hit, numbered from 1, with "N/A" and "No text found" for missing columns |
| CortexSearch.RunSearch | 20_Day20.py:157-204 | the view, as an if-and-only-if for each branch: nothing before a click; missing input; bad path with the format message; a search with the query, four columns and the limit; cards if and only if the search returned; a failed search shows "Error: " followed by its error |
| CortexSearch.MissingInputSearchesNothing | 20_Day20.py:158-204 | without a query or service no search is made |
| ContextWindow.Window | pages/12_Day12.py:128 | the window is the last min(n, w) messages in order, and it is empty if and only if the history is |
| ContextWindow.NegativeZeroIsWholeList | pages/12_Day12.py:122-128 | `h[-0:]` is the whole list, which is why the window size starts at 1 |
| ContextWindow.AddMessage | pages/12_Day12.py:116-119 | Add appends "Message n" where n is the new length, and keeps the rest |
| ContextWindow.AddsFromEmpty | pages/12_Day12.py:116-119 | k adds from an empty history give "Message 1" to "Message k" |
| ContextWindow.AddsExtend | pages/12_Day12.py:116-119 | k adds after "Message 1".."Message m" give "Message 1".."Message m+k" |
| ContextWindow.LabelsDistinct | pages/12_Day12.py:117-118 | added messages are pairwise different |
| ContextWindow.Rerun | pages/12_Day12.py:110-135 | one run of the demo: add, none or clear on the stored history; the count and window are those of the history as shown, which on a clear is the stored history before it is emptied |
| Connection.Resolve | pages/01_Day1.py:30-44 | a cached handle is reused; otherwise the active session is tried once, and only if it fails the secrets entry; only a success is cached; missing secrets give the fixed message |
| Connection.CachedHandleReused | pages/01_Day1.py:30-44 | with a cached handle, neither the active session nor the secrets nor the builder matter |
| Connection.PageLoad | pages/01_Day1.py:28-84 | the status is Connected if and only if a handle was obtained and the queries succeeded; a failed resolution shows its error and a failed query shows the query's error |
| Connection.NextRerunAfterLoad | pages/01_Day1.py:30-42 | after a failure the next rerun starts over with the active session; after a success it reuses the handle |
| Connection.ConnectionParams | pages/01_Day1.py:112-120 | exactly the seven fields, under their names, as typed |
| Connection.CustomConnect | pages/01_Day1.py:107-142 | the form asks for required fields if and only if one is empty; it connects if and only if the session opens and the version query succeeds, showing the version and the typed user, role and warehouse; a failed open or version query shows "❌ Connection failed: " and that call's error; a failing `close()` adds the same message for its error after the success |
| Connection.RoleAndSchemaOptional | pages/01_Day1.py:108 | role and schema do not affect whether the form is accepted |
| Connection.IncompleteFormConnectsNothing | pages/01_Day1.py:107-142 | an incomplete form opens no session |
| Connection.DayOne | pages/01_Day1.py:28-142 | a page run is the default section, plus, if and only if Connect was pressed, the custom form's outcome for the fields submitted |
| Connection.CustomFormLeavesCache | pages/01_Day1.py:107-137 | the custom form never changes the cached default session |
| PostGenerator.PaletteOf | pages/07_Day7.py:155-219 | exactly the seven named themes have a palette |
| PostGenerator.ThemeCss | pages/07_Day7.py:155-219 | the CSS is empty if and only if the theme has none; otherwise it is the shared block with the theme's colours |
| PostGenerator.NamedPalettesPlain | pages/07_Day7.py:155-217 | no theme colour contains `;` |
| PostGenerator.ThemeBlockInjective | pages/07_Day7.py:156-163 | different `;`-free palettes give different style blocks |
| PostGenerator.ThemeCssInjective | pages/07_Day7.py:155-219 | different themes inject different CSS |
| PostGenerator.FamilyOf | pages/07_Day7.py:221-234 | exactly the six named fonts have a family |
| PostGenerator.FontCss | pages/07_Day7.py:221-234 | the CSS is empty if and only if the font is "System"; otherwise it is one rule carrying the font's family |
| PostGenerator.FontCssInjective | pages/07_Day7.py:221-234 | different fonts give different rules |
| PostGenerator.InjectedCss | pages/07_Day7.py:236-237 | nothing is injected if and only if both choices are defaults; otherwise theme CSS then font CSS |
| PostGenerator.PostPrompt | pages/07_Day7.py:250-258 | the prompt is the fixed opening, the tone, the fixed length sentence, the word count, the fixed URL sentence, the URL and the fixed closing, each verbatim, in that order, and nothing else |
| PostGenerator.PromptWordCount | pages/07_Day7.py:254 | the word count written into the prompt reads back as the slider's number |
| PostGenerator.Normalize | pages/07_Day7.py:275 | the displayed text has no escaped line break left; text without one is unchanged; the first character is mapped as `replace` does |
| PostGenerator.NormalizeReplacesEach | pages/07_Day7.py:275 | every backslash-n becomes exactly one line break, and the text on each side of it is normalised on its own; with the identity on clean text this determines `replace` |
| PostGenerator.NormalizeIdempotent | pages/07_Day7.py:275 | normalising twice is normalising once |
| PostGenerator.NormalizeUndoesEscaping | pages/07_Day7.py:275 | a backslash-free text whose line breaks arrive escaped is displayed exactly as written |
| PostGenerator.Generate | pages/07_Day7.py:240-288 | an empty URL is refused without a call; otherwise the post is shown if and only if the call succeeded, with the raw text beside it; failures show "Error generating post: …" |
| Counter.Rerun | pages/09_Day9.py:90-131 | the plain variable shows ±1 or 0 for the click; the session counter moves by the click's ±1 from its stored value, starting from 0 |
| Counter.CounterCountsClicks | pages/09_Day9.py:114-131 | after any run of clicks the session counter is its start plus the "+" presses minus the "-" presses |
| Counter.FreshCounter | pages/09_Day9.py:114-131 | from a fresh session the counter is exactly the click balance |
| Counter.StandardNeverAccumulates | pages/09_Day9.py:90-105 | the plain variable never shows anything beyond 1 or -1, whatever happened before |
| InputCheck.Check | pages/11_Day11.py:47-53 | as an if-and-only-if for each branch: no feedback for empty input; too short below 3; too long above 200; otherwise valid with the length |
| InputCheck.TextArea | pages/11_Day11.py:45 | the text area passes at most 200 characters, a prefix of what was typed |
| InputCheck.TooLongUnreachable | pages/11_Day11.py:45-53 | input through the text area is never reported too long |

## Left out

- Streamlit rendering is not modelled: layout, columns, spinners, status boxes,
  expanders, markdown and icons. Only what a page shows that depends on its
  input is modelled.
- Remote calls are parameters, and every exception they raise is one `Err`
  with its message. Snowpark, Cortex Search, COMPLETE and `ai_complete` are not
  part of this model.
- `time.sleep` and the elapsed-time message of `pages/07_Day7.py:248-270` are
  left out. They involve clocks and float formatting.
- The relevance score of `20_Day20.py:193-197` is left out. It is a float
  printed with four decimals.
- Chat.MetricAfterTurn: states the stored message count. After a failed turn
  the page does not rerun (`pages/10_Day10.py:137-141`), so the sidebar metric
  drawn earlier in that run still shows the previous count until the next
  interaction. Display order within a run is not modelled.
- Rag.ToChunks and CortexSearch.Cards: a hit's columns are strings. A column
  that is present but null is not modelled. Python's `.get` returns `None` for
  it rather than the default, so `22_Day22.py:252` would fail joining the
  context and `20_Day20.py:185-191` would show "None".
- Connection.PageLoad: the four version, user, role and warehouse queries of
  `pages/01_Day1.py:47-62` are one query returning all four values. A failure
  in any of them shows the error either way.
- The custom-session caching of `pages/10_Day10.py:186-213` is left out, and so
  is the custom-session section of `22_Day22.py`. Both store the new session in
  session state. Only the close-after-test form of `pages/01_Day1.py` is
  modelled.
- Turns are not streamed; a completion is one answer.
- Sanitisation and the other code shown only as `st.code` examples are not
  modelled, because the pages do not run them. This includes the listings at
  `pages/09_Day9.py:12-70` and in `pages/11_Day11.py`.
- Other lesson pages are not part of this model.
- SqlQuote.ReadLiteral: reads one quoted part of an SQL string literal as
  ISO/IEC 9075 section 5.3 defines it, and every SQL property here holds for
  that reading only. The standard also joins two quoted parts separated only
  by whitespace holding a newline (`'ab'`, a newline, `'cd'` reads as `abcd`).
  That continuation is not modelled: `ReadLiteral` stops at the first closing
  quote, so `SqlQuote.ReadEscapedLiteral` speaks about one part only. In the
  COMPLETE statement the literal is followed by `)`, so no part follows and
  `SqlQuote.CompleteSqlCarriesPrompt` is unaffected.
  Snowflake, which runs the statement, is understood also to read backslash
  escape sequences inside single-quoted constants; that reading is not
  modelled. If it applies, the promise does not carry over: the prompt
  backslash, quote, `x` escapes to backslash, quote, quote, `x`. There the
  backslash and the first quote read as one quote and the second quote closes
  the literal, so `x')` is left as SQL text. A `\\` or `\n` in the prompt
  would also reach the model as one backslash or a line break.
