# DBChatPro home page: the SQL safety gate and the page's state machine

DBChatPro turns a natural-language prompt into SQL. An AI service writes the
SQL, the page runs it against the active database, shows the rows, and opens
a chat about them. This project models the core of the page,
`DBChatPro/Components/Pages/Home.razor.cs`, in Dafny and proves properties of
that model.

- `sql_gate.dfy` (module `SqlGate`) is the safety check
  `MakeSureSelectQueryOnly`, written as pure functions. It is built from
  `Trim`, an ordinal case-insensitive `StartsWith` and `Contains`, and a
  character count. The lemmas say what the check accepts in terms of the
  untrimmed text. They cover the accepting and rejecting examples.
- `models.dfy` (module `Models`) holds the values the page keeps:
  - connections, schemas, history items, chat messages and notices;
  - `Outcome<T>`, which stands for an awaited service call that either
    returns a value or throws an exception with a message;
  - `ServiceCall`, one entry per call into a service, with its arguments;
  - `FindConnection`, which models `FirstOrDefault` by name.
- `home.dfy` (module `HomePage`) is the page as `class Home`.
  - Its fields are the component's fields.
  - Its methods are the handlers `LoadDatabase`, `ClearUI`, `OnChat`,
    `ClearChat` and `RunDataChat`, and the gate as the page calls it.
  - `RunDataChat` is split along its own code: the `try` block is
    `AskForQuery` (up to the gate) followed by `RunAndRecord` (the rest), and
    the `catch` block is `Catch`.

Each service call the source awaits is a parameter of type `Outcome`. The
handlers return two ghost logs:

- `calls`: the service calls they made, in order, with their arguments;
- `notices`: the snackbar messages they showed.

An exception that the source does not catch (in `LoadDatabase` and `OnChat`)
ends the handler and is returned in `thrown`.

Behaviour of the code that the model keeps, where a reader might expect
otherwise:

- A refused query leaves `Error` as it was. No error is recorded; only the
  snackbar notice is shown. `LoadingMessage` stays "Getting the AI query...".
- `LoadDatabase` does not clear the conversation (`ChatHistory`): after a
  switch of connection the chat about the previous database's rows stays.
- A failure to save or reload the history sets `Error` to its message, like
  any other exception. The rows and the conversation that were already set
  are kept.
- `"SELECT 1; SELECT 2"` holds one semicolon and is accepted
  (`AcceptsTwoStatements`).
- The gate counts semicolons in the field `Query`, not in its parameter
  (line 203). `PassesGate(query, countedText)` keeps the two apart.
  `MakeSureSelectQueryOnly` passes the field, and `RunDataChat` calls it
  right after assigning the field, so there the two coincide.

## Model

| member | source | states |
|---|---|---|
| SqlGate.Trim | DBChatPro/Components/Pages/Home.razor.cs:203 | `query.Trim()`: the trimmed text is never longer than the text (its exact shape is `TrimShape`) |
| SqlGate.PassesGate | DBChatPro/Components/Pages/Home.razor.cs:203 | the condition of line 203, with the semicolons counted in a separate text: an accepted query, once trimmed, is at least as long as SELECT (what it accepts exactly is `GateMeaning`) |
| SqlGate.SkipLeadingSkipsWhitespace | DBChatPro/Components/Pages/Home.razor.cs:203 | the leading scan of `Trim` passes only white space and stops at a character that is not white space, or at the end |
| SqlGate.SkipTrailingSkipsWhitespace | DBChatPro/Components/Pages/Home.razor.cs:203 | the trailing scan of `Trim` passes only white space and stops after a character that is not white space |
| SqlGate.TrimShape | DBChatPro/Components/Pages/Home.razor.cs:203 | `query.Trim()` is the slice between two all-white-space margins, and it neither starts nor ends with white space |
| SqlGate.TrimOfPadded | DBChatPro/Components/Pages/Home.razor.cs:203 | trimming white space around a text whose ends are not white space gives back exactly that text |
| SqlGate.TrimIdempotent | DBChatPro/Components/Pages/Home.razor.cs:203 | trimming twice gives the same as trimming once |
| SqlGate.TrimIgnoresPadding | DBChatPro/Components/Pages/Home.razor.cs:203 | adding white space around a text does not change what `Trim` returns |
| SqlGate.CountCharIsMultiplicity | DBChatPro/Components/Pages/Home.razor.cs:203 | `Count(c => c == ';')` equals the number of occurrences of `;` in the text |
| SqlGate.MatchInsideTrim | DBChatPro/Components/Pages/Home.razor.cs:203 | an occurrence of a keyword without white space lies wholly inside the trimmed text |
| SqlGate.ContainsAfterTrim | DBChatPro/Components/Pages/Home.razor.cs:203 | `EXEC` occurs in the trimmed text (ignoring case) if and only if it occurs in the untrimmed text |
| SqlGate.StartsAfterTrim | DBChatPro/Components/Pages/Home.razor.cs:203 | the trimmed text starts with `SELECT` (ignoring case) if and only if the text has `SELECT` right after leading white space |
| SqlGate.GateMeaning | DBChatPro/Components/Pages/Home.razor.cs:203-208 | the check passes if and only if the text starts with SELECT after white space, contains EXEC nowhere (any case), and the counted text has at most one `;` |
| SqlGate.RejectsWithoutSelect | DBChatPro/Components/Pages/Home.razor.cs:203-206 | a text that does not start with SELECT (ignoring case) after leading white space is refused |
| SqlGate.RejectsExecAnywhere | DBChatPro/Components/Pages/Home.razor.cs:203-206 | a text containing EXEC anywhere, in any case, is refused even after SELECT |
| SqlGate.RejectsStackedStatements | DBChatPro/Components/Pages/Home.razor.cs:203-206 | a text with two or more semicolons is refused |
| SqlGate.AcceptsSingleSelect | DBChatPro/Components/Pages/Home.razor.cs:203-208 | a text starting with SELECT, without EXEC and with at most one semicolon is accepted |
| SqlGate.PaddingIgnored | DBChatPro/Components/Pages/Home.razor.cs:203 | surrounding a query with white space never changes the verdict |
| SqlGate.AcceptsTerminatedSelect | DBChatPro/Components/Pages/Home.razor.cs:203-208 | `SELECT * FROM T;` is accepted |
| SqlGate.AcceptsTwoStatements | DBChatPro/Components/Pages/Home.razor.cs:203-208 | `SELECT 1; SELECT 2` is accepted: it has only one semicolon |
| SqlGate.AcceptsSelectAsPrefixOfWord | DBChatPro/Components/Pages/Home.razor.cs:203-208 | `SELECTED_ROWS FROM t` is accepted: SELECT is tested as a prefix of the text, not as its first word |
| SqlGate.RejectsExecuteAfterSelect | DBChatPro/Components/Pages/Home.razor.cs:203-206 | `SELECT 1 EXECUTE x` is refused, because EXEC is matched as a substring |
| SqlGate.RejectsStoredProcedureCall | DBChatPro/Components/Pages/Home.razor.cs:203-206 | `EXEC sp_DeleteAll` is refused |
| SqlGate.RejectsDropAfterSelect | DBChatPro/Components/Pages/Home.razor.cs:203-206 | `select * from Users; DROP TABLE Users;` is refused (two semicolons) |
| Models.FindConnection | DBChatPro/Components/Pages/Home.razor.cs:101 | `FirstOrDefault(x => x.Name == name)`: the result is the first index whose name matches, and there is none exactly when no name matches |
| Models.ConnectionNamed | DBChatPro/Components/Pages/Home.razor.cs:101 | `FirstOrDefault(x => x.Name == name) ?? new AIConnection()`: the first connection with that name when there is one, otherwise the default connection |
| HomePage.CallsMade | DBChatPro/Components/Pages/Home.razor.cs:155-173 | a run makes at least one and at most five service calls; it gets past the first (reaches the database) exactly when generation returned and the gate accepted the query |
| HomePage.Home.constructor | DBChatPro/Components/Pages/Home.razor.cs:33-57 | the field initialisers: empty texts and lists, model `gpt-4o` on `OpenAI`, a default connection and an empty schema |
| HomePage.Home.MakeSureSelectQueryOnly | DBChatPro/Components/Pages/Home.razor.cs:201-210 | the verdict is true exactly when `query` starts with SELECT after white space and has no EXEC, and the `Query` field has at most one `;`; when `query` is `Query` it is `IsSelectOnly(query)`; one error notice on refusal, none on acceptance |
| HomePage.Home.ClearUI | DBChatPro/Components/Pages/Home.razor.cs:108-116 | prompt, summary, query and error become empty, the rows an empty list, the form a fresh one |
| HomePage.Home.LoadDatabase | DBChatPro/Components/Pages/Home.razor.cs:99-106 | selects the first connection with the given name, or a default one; loads its schema, history and favorites in that order; an exception stops it at that stage; only full success clears the page through `ClearUI`; the conversation is never touched |
| HomePage.Home.OnChat | DBChatPro/Components/Pages/Home.razor.cs:124-134 | the chat service gets the earlier messages plus the prompt as a User message; the prompt box is emptied; on a reply, exactly a User then an Assistant message are appended after the earlier ones; on an exception only the User message is, and `chatLoading` stays set |
| HomePage.Home.ClearChat | DBChatPro/Components/Pages/Home.razor.cs:136-140 | the conversation becomes exactly one System message: the preamble followed by the serialized current rows |
| HomePage.Home.CallsUpTo | DBChatPro/Components/Pages/Home.razor.cs:155-173 | the first `n` calls of a run, in the order the code awaits them: the AI service, the database, saving the prompt, then the history and the favorites; there are exactly `n` of them |
| HomePage.Home.CallsArePrefixes | DBChatPro/Components/Pages/Home.razor.cs:155-173 | a run that stops at an earlier stage makes a prefix of the calls of a run that goes further, so the calls always come in one order |
| HomePage.Home.DatabaseSeesOnlyAcceptedQueries | DBChatPro/Components/Pages/Home.razor.cs:159-167 | across a run's calls, the database is given a query if and only if the gate accepted the generated query, and then only that query |
| HomePage.Home.HistorySavedOnlyAfterQueryRan | DBChatPro/Components/Pages/Home.razor.cs:167-171 | the prompt is saved to the history at most once, as the call right after the database ran the accepted query, and exactly when that query ran |
| HomePage.Home.AskForQuery | DBChatPro/Components/Pages/Home.razor.cs:152-164 | `Loading` is set, the conversation cleared, the loading message set and the AI service asked; a thrown exception is passed on with `Loading` still set, `Query` and `Summary` unchanged and no notice shown; otherwise `Query` and `Summary` take the generated values and the run goes on exactly when the gate accepts, with `Loading` cleared and one notice on a refusal |
| HomePage.Home.RunAndRecord | DBChatPro/Components/Pages/Home.razor.cs:166-174 | the query runs; its rows and a fresh System message are kept; the prompt is saved and the history and favorites are reloaded in that order; the first exception stops it with everything set so far kept; `Error` is cleared only after the last call returns |
| HomePage.Home.Catch | DBChatPro/Components/Pages/Home.razor.cs:176-181 | the exception's message replaces the error; loading stops and the loading message is emptied |
| HomePage.Home.TryBlock | DBChatPro/Components/Pages/Home.razor.cs:150-175 | the `try` block: which exception escapes, the calls made in pipeline order up to the first failure or refusal, and every field it leaves, as functions of the services' outcomes |
| HomePage.Home.RunDataChat | DBChatPro/Components/Pages/Home.razor.cs:148-182 | `Loading` ends false; the error becomes the message of the first exception, stays as it was on a refusal, and is cleared only when every stage returned; after a successful query the conversation is exactly one System message built from the new rows, otherwise it is empty; rows, history and favorites change only at their own stage; the calls are the pipeline's first `CallsMade` calls; the database is handed a query exactly when the gate accepted the generated query, and then only that query |

## Left out

- `OnInitializedAsync` (lines 68-84) is Blazor start-up, and the dependency injection is left out too. The page's `Connections` list and `activeDatabase` field are used only there, so they are not modelled either.
- `SaveFavorite` (lines 86-91) is not modelled. It saves the form's prompt as a favorite, reloads `Favorites` and shows a success notice.
- `EditQuery` (lines 93-97) is not modelled. It runs `Query` on the database without passing the gate, replaces `RowData` with the result and shows a success notice.
- `LoadQuery` (lines 118-122) is not modelled. It sets the form's prompt to the stored query and then runs `RunDataChat` on it.
- `OnSubmit` (lines 142-146) is not modelled. It runs `RunDataChat` on the form's prompt.
- `ExportToCsv` (lines 183-200) is CSV text, encoding and a JavaScript download.
- `ToggleDrawer` and the table-styling flags are left out.
- Each service's own behaviour is not modelled: `GetAIConnections`, `GenerateSchema`, `GetAISQLQuery`, `GetDataTable`, `SaveQuery`, `GetQueries` and `ChatPrompt`. Each one is an input outcome: a value or an exception with its message.
- `JsonSerializer.Serialize` is not modelled. It is the constructor argument `serialize`, and its text is not interpreted.
- `Snackbar.Add` becomes an entry in the ghost `notices` log; the UI itself is not modelled.
- Async interleaving is not modelled: each handler runs as one step between the service outcomes it is given.
- `Trim` and the case-insensitive comparisons use ASCII white space (space, tab, line feed, vertical tab, form feed, carriage return) and the ASCII letters. .NET uses the Unicode categories.
- `new FormModel()` is modelled as a form with an empty prompt, and `new AIConnection()` as a connection whose texts are all empty. Those classes are not part of this model.
- `OnChat` is modelled as an append to a sequence. The source hands the chat service the very list it later appends the reply to; the model passes a copy. This makes no difference because the call completes before the append.
- Service results are assumed not to be null. Two paths of the code therefore have no counterpart in the model:
  - The AI service can return a null `query`. `RunDataChat` then assigns it to `Query` (lines 157-158), `query.Trim()` on line 203 throws a `NullReferenceException`, and the catch block records its message in `Error` with no notice.
  - The connection service can return a null list. `FirstOrDefault` on line 101 then throws an `ArgumentNullException`, which ends `LoadDatabase`.
- Trim: its own contract states only that the result is no longer than the text. The margins and ends are stated by the lemma `TrimShape`, because carrying them on every use of the gate makes the page's proofs much costlier.
