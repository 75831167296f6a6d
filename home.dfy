/** The home page of DBChatPro (`Home.razor.cs`) as a state machine: the
    fields the page keeps and the handlers that update them. Every awaited
    service call is an input `Outcome` (a value, or an exception with its
    message); each handler returns, as ghost results, the service calls it
    made in their order (`calls`) and the snackbar messages it showed
    (`notices`). */
module HomePage {
  import opened Models
  import opened SqlGate

  const Preamble: string := "You are a helpful AI assistant. Provide helpful insights about the following data: "
  const GettingQueryMessage: string := "Getting the AI query..."
  const RunningQueryMessage: string := "Running the Database query..."
  const RejectionNotice: Notice :=
    Notice("Only single SELECT queries are allowed. You can however copy the SQL and run it in a different tool, for example Azure Data Studio", Severity.Error)

  /** How a run of `RunDataChat` ends: an exception with its message, a
      query the gate refused, or the whole pipeline done. */
  datatype RunEnd = Threw(message: string) | Refused | Completed

  /** The stage, if any, that ends a run given what each service does. */
  function RunEnding(generated: Outcome<AIQuery>, table: Outcome<Rows>, saved: Outcome<()>,
                     history: Outcome<seq<HistoryItem>>, favorites: Outcome<seq<HistoryItem>>): RunEnd
  {
    if generated.Throws? then Threw(generated.message)
    else if !IsSelectOnly(generated.value.query) then Refused
    else if table.Throws? then Threw(table.message)
    else if saved.Throws? then Threw(saved.message)
    else if history.Throws? then Threw(history.message)
    else if favorites.Throws? then Threw(favorites.message)
    else Completed
  }

  /** The query a run generates, or nothing when generation threw. */
  function QueryOf(generated: Outcome<AIQuery>): string
  {
    if generated.Returns? then generated.value.query else ""
  }

  /** How many of the five service calls of a run are made: the AI service
      is always asked; the database only for an accepted query; each later
      call only when the one before it returned. The favorites are fetched
      last, so their outcome does not change the count. */
  function CallsMade(generated: Outcome<AIQuery>, table: Outcome<Rows>, saved: Outcome<()>,
                     history: Outcome<seq<HistoryItem>>): (n: nat)
    ensures 1 <= n <= 5
    ensures n >= 2 <==> generated.Returns? && IsSelectOnly(generated.value.query)
    ensures n >= 3 ==> table.Returns?
    ensures n == 5 ==> history.Returns?
  {
    if generated.Throws? || !IsSelectOnly(generated.value.query) then 1
    else if table.Throws? then 2
    else if saved.Throws? then 3
    else if history.Throws? then 4
    else 5
  }

  class Home {
    /** `JsonSerializer.Serialize` on result rows, left uninterpreted. */
    const serialize: Rows -> string

    var ChatPrompt: string
    var aiModel: string
    var aiPlatform: string
    var Loading: bool
    var chatLoading: bool
    var LoadingMessage: string
    var ActiveConnection: AIConnection
    var dbSchema: DatabaseSchema
    var History: seq<HistoryItem>
    var Favorites: seq<HistoryItem>
    var RowData: Rows
    var ChatHistory: seq<ChatMessage>
    var FmModel: FormModel
    var Prompt: string
    var Summary: string
    var Query: string
    var Error: string

    /** The message that lets the assistant see a result set. */
    function SystemMessage(rows: Rows): ChatMessage
    {
      ChatMessage(Role.System, Preamble + serialize(rows))
    }

    /** The page as its field initialisers leave it. */
    constructor (serialize: Rows -> string)
      ensures this.serialize == serialize
      ensures ChatPrompt == "" && aiModel == "gpt-4o" && aiPlatform == "OpenAI"
      ensures !Loading && !chatLoading && LoadingMessage == ""
      ensures ActiveConnection == DefaultConnection && dbSchema == EmptySchema
      ensures History == [] && Favorites == [] && RowData == [] && ChatHistory == []
      ensures FmModel == FreshForm && Prompt == "" && Summary == "" && Query == "" && Error == ""
    {
      this.serialize := serialize;
      ChatPrompt, aiModel, aiPlatform := "", "gpt-4o", "OpenAI";
      Loading, chatLoading, LoadingMessage := false, false, "";
      ActiveConnection, dbSchema := DefaultConnection, EmptySchema;
      History, Favorites, RowData, ChatHistory := [], [], [], [];
      FmModel, Prompt, Summary, Query, Error := FreshForm, "", "", "", "";
    }

    /** The safety gate. It tests the prefix and EXEC in `query` but counts
        the semicolons of the `Query` field; a refusal shows one notice. */
    method MakeSureSelectQueryOnly(query: string) returns (ok: bool, ghost notices: seq<Notice>)
      ensures ok <==> SelectFirst(query) && !ContainsIgnoreCase(query, ExecKeyword)
                      && multiset(Query)[';'] <= 1
      ensures query == Query ==> ok == IsSelectOnly(query)
      ensures notices == if ok then [] else [RejectionNotice]
    {
      GateMeaning(query, Query);
      ok := PassesGate(query, Query);
      notices := if ok then [] else [RejectionNotice];
    }

    /** The `catch` block of `RunDataChat`: the exception's message replaces
        the error, and loading stops. */
    method Catch(message: string)
      modifies this`Error, this`Loading, this`LoadingMessage
      ensures Error == message && !Loading && LoadingMessage == ""
    {
      Error := message;
      Loading := false;
      LoadingMessage := "";
    }

    /** Empties the prompt, the answer, the error and the result rows. */
    method ClearUI()
      modifies this`Prompt, this`Summary, this`Query, this`Error, this`RowData, this`FmModel
      ensures Prompt == "" && Summary == "" && Query == "" && Error == ""
      ensures RowData == [] && FmModel == FreshForm
    {
      Prompt := "";
      Summary := "";
      Query := "";
      Error := "";
      RowData := [];
      FmModel := FreshForm;
    }

    /** Switches to the connection called `databaseName` (or a default one),
        reloads its schema and stored queries, then clears the page. An
        exception from a service is not caught: it ends the handler and is
        returned in `thrown`. The conversation is left as it was. */
    method LoadDatabase(databaseName: string, connections: Outcome<seq<AIConnection>>,
                        schema: Outcome<DatabaseSchema>, history: Outcome<seq<HistoryItem>>,
                        favorites: Outcome<seq<HistoryItem>>)
      returns (thrown: Option<string>, ghost calls: seq<ServiceCall>)
      modifies this`ActiveConnection, this`dbSchema, this`History, this`Favorites,
               this`Prompt, this`Summary, this`Query, this`Error, this`RowData, this`FmModel
      ensures ChatHistory == old(ChatHistory)
      ensures connections.Throws? ==>
        thrown == Some(connections.message) && calls == [ServiceCall.GetAIConnections]
        && ActiveConnection == old(ActiveConnection) && dbSchema == old(dbSchema)
        && History == old(History) && Favorites == old(Favorites)
      ensures connections.Returns? ==> ActiveConnection == ConnectionNamed(connections.value, databaseName)
      ensures connections.Returns? && schema.Throws? ==>
        thrown == Some(schema.message)
        && calls == [ServiceCall.GetAIConnections, ServiceCall.GenerateSchema(ActiveConnection)]
        && dbSchema == old(dbSchema) && History == old(History) && Favorites == old(Favorites)
      ensures connections.Returns? && schema.Returns? ==> dbSchema == schema.value
      ensures connections.Returns? && schema.Returns? && history.Throws? ==>
        thrown == Some(history.message)
        && calls == [ServiceCall.GetAIConnections, ServiceCall.GenerateSchema(ActiveConnection),
                     ServiceCall.GetQueries(ActiveConnection.name, QueryType.History)]
        && History == old(History) && Favorites == old(Favorites)
      ensures connections.Returns? && schema.Returns? && history.Returns? ==>
        History == history.value
        && calls == [ServiceCall.GetAIConnections, ServiceCall.GenerateSchema(ActiveConnection),
                     ServiceCall.GetQueries(ActiveConnection.name, QueryType.History),
                     ServiceCall.GetQueries(ActiveConnection.name, QueryType.Favorite)]
      ensures connections.Returns? && schema.Returns? && history.Returns? && favorites.Throws? ==>
        thrown == Some(favorites.message) && Favorites == old(Favorites)
      ensures thrown == None <==>
        connections.Returns? && schema.Returns? && history.Returns? && favorites.Returns?
      ensures thrown == None ==>
        Favorites == favorites.value && Prompt == "" && Summary == "" && Query == "" && Error == ""
        && RowData == [] && FmModel == FreshForm
      ensures thrown != None ==>
        Prompt == old(Prompt) && Summary == old(Summary) && Query == old(Query) && Error == old(Error)
        && RowData == old(RowData) && FmModel == old(FmModel)
    {
      calls := [ServiceCall.GetAIConnections];
      if connections.Throws? {
        return Some(connections.message), calls;
      }
      ActiveConnection := ConnectionNamed(connections.value, databaseName);
      calls := calls + [ServiceCall.GenerateSchema(ActiveConnection)];
      if schema.Throws? {
        return Some(schema.message), calls;
      }
      dbSchema := schema.value;
      calls := calls + [ServiceCall.GetQueries(ActiveConnection.name, QueryType.History)];
      if history.Throws? {
        return Some(history.message), calls;
      }
      History := history.value;
      calls := calls + [ServiceCall.GetQueries(ActiveConnection.name, QueryType.Favorite)];
      if favorites.Throws? {
        return Some(favorites.message), calls;
      }
      Favorites := favorites.value;
      ClearUI();
      thrown := None;
    }

    /** Sends the chat prompt as a User message with the whole conversation
        and appends the reply as an Assistant message. An exception from the
        chat service is not caught: it is returned in `thrown`, leaving the
        User message in place and `chatLoading` set. */
    method OnChat(reply: Outcome<string>) returns (thrown: Option<string>, ghost calls: seq<ServiceCall>)
      modifies this`chatLoading, this`ChatHistory, this`ChatPrompt
      ensures ChatPrompt == ""
      ensures calls == [ServiceCall.ChatPrompt(old(ChatHistory) + [ChatMessage(Role.User, old(ChatPrompt))],
                                               aiModel, aiPlatform)]
      ensures reply.Returns? ==>
        thrown == None && !chatLoading
        && ChatHistory == old(ChatHistory) + [ChatMessage(Role.User, old(ChatPrompt)), ChatMessage(Role.Assistant, reply.value)]
      ensures reply.Throws? ==>
        thrown == Some(reply.message) && chatLoading
        && ChatHistory == old(ChatHistory) + [ChatMessage(Role.User, old(ChatPrompt))]
    {
      chatLoading := true;
      ChatHistory := ChatHistory + [ChatMessage(Role.User, ChatPrompt)];
      ChatPrompt := "";
      calls := [ServiceCall.ChatPrompt(ChatHistory, aiModel, aiPlatform)];
      if reply.Throws? {
        return Some(reply.message), calls;
      }
      ChatHistory := ChatHistory + [ChatMessage(Role.Assistant, reply.value)];
      chatLoading := false;
      thrown := None;
    }

    /** Restarts the conversation from the current result rows. */
    method ClearChat()
      modifies this`ChatHistory
      ensures ChatHistory == [SystemMessage(RowData)]
      ensures ChatHistory[0].role == Role.System && ChatHistory[0].text == Preamble + serialize(RowData)
    {
      ChatHistory := [];
      ChatHistory := ChatHistory + [SystemMessage(RowData)];
    }

    /** The first `n` service calls of a run of `RunDataChat` for `prompt`
        whose generated query is `sql`, in the order they are made: the AI
        service, the database, saving the prompt, then reloading the history
        and the favorites. */
    function CallsUpTo(prompt: string, sql: string, n: nat): (r: seq<ServiceCall>)
      requires 1 <= n <= 5
      reads this`aiModel, this`aiPlatform, this`dbSchema, this`ActiveConnection
      ensures |r| == n
    {
      var asked := [ServiceCall.GetAISQLQuery(aiModel, aiPlatform, prompt, dbSchema, ActiveConnection.databaseType)];
      var ran := asked + [ServiceCall.GetDataTable(ActiveConnection, sql)];
      var saved := ran + [ServiceCall.SaveQuery(prompt, ActiveConnection.name, QueryType.History)];
      var reloaded := saved + [ServiceCall.GetQueries(ActiveConnection.name, QueryType.History)];
      var complete := reloaded + [ServiceCall.GetQueries(ActiveConnection.name, QueryType.Favorite)];
      if n == 1 then asked else if n == 2 then ran else if n == 3 then saved else if n == 4 then reloaded else complete
    }

    /** A run that stops earlier makes a prefix of the calls of a run that
        goes further: the calls keep one order whatever the services do. */
    lemma CallsArePrefixes(prompt: string, sql: string, m: nat, n: nat)
      requires 1 <= m <= n <= 5
      ensures CallsUpTo(prompt, sql, m) == CallsUpTo(prompt, sql, n)[..m]
    {
    }

    /** The database is handed a query by a run exactly when the gate
        accepted the generated query, and then it is handed that query and
        no other, whatever the services do. */
    lemma DatabaseSeesOnlyAcceptedQueries(prompt: string, generated: Outcome<AIQuery>, table: Outcome<Rows>,
                                          saved: Outcome<()>, history: Outcome<seq<HistoryItem>>)
      ensures var calls := CallsUpTo(prompt, QueryOf(generated), CallsMade(generated, table, saved, history));
        forall c :: c in calls && c.GetDataTable? ==> c.sql == generated.value.query && IsSelectOnly(c.sql)
      ensures var calls := CallsUpTo(prompt, QueryOf(generated), CallsMade(generated, table, saved, history));
        (exists c :: c in calls && c.GetDataTable?) <==> generated.Returns? && IsSelectOnly(generated.value.query)
    {
      var n := CallsMade(generated, table, saved, history);
      var calls := CallsUpTo(prompt, QueryOf(generated), n);
      forall c | c in calls && c.GetDataTable?
        ensures c.sql == generated.value.query && IsSelectOnly(c.sql)
      {
        var i :| 0 <= i < n && calls[i] == c;
        assert i == 1;
      }
      if n >= 2 {
        assert calls[1].GetDataTable?;
      }
    }

    /** A run saves its prompt in the history at most once, and only right
        after the database ran the accepted query; it does so exactly when
        the query ran. */
    lemma HistorySavedOnlyAfterQueryRan(prompt: string, generated: Outcome<AIQuery>, table: Outcome<Rows>,
                                        saved: Outcome<()>, history: Outcome<seq<HistoryItem>>)
      ensures var calls := CallsUpTo(prompt, QueryOf(generated), CallsMade(generated, table, saved, history));
        forall i :: 0 <= i < |calls| && calls[i].SaveQuery? ==>
          i == 2 && calls[i] == ServiceCall.SaveQuery(prompt, ActiveConnection.name, QueryType.History)
          && calls[1] == ServiceCall.GetDataTable(ActiveConnection, generated.value.query)
      ensures var calls := CallsUpTo(prompt, QueryOf(generated), CallsMade(generated, table, saved, history));
        (exists i :: 0 <= i < |calls| && calls[i].SaveQuery?)
        <==> generated.Returns? && IsSelectOnly(generated.value.query) && table.Returns?
    {
      var n := CallsMade(generated, table, saved, history);
      var calls := CallsUpTo(prompt, QueryOf(generated), n);
      if n >= 3 {
        assert calls[2].SaveQuery?;
      }
    }

    /** The first part of the `try` block of `RunDataChat`: asks the AI
        service for a query for `prompt` and checks it with the gate.
        `proceed` says whether the block goes on to run the query; when it
        does not, either the service threw (`thrown`) or the gate refused. */
    method AskForQuery(prompt: string, generated: Outcome<AIQuery>)
      returns (thrown: Option<string>, proceed: bool, ghost calls: seq<ServiceCall>, ghost notices: seq<Notice>)
      modifies this`Loading, this`LoadingMessage, this`ChatHistory, this`Query, this`Summary
      ensures calls == CallsUpTo(prompt, QueryOf(generated), 1)
      ensures ChatHistory == [] && LoadingMessage == GettingQueryMessage
      ensures generated.Throws? ==>
        thrown == Some(generated.message) && !proceed && Loading && notices == []
        && Query == old(Query) && Summary == old(Summary)
      ensures generated.Returns? ==>
        thrown == None && proceed == IsSelectOnly(generated.value.query) && Loading == proceed
        && notices == (if proceed then [] else [RejectionNotice])
        && Query == generated.value.query && Summary == generated.value.summary
    {
      Loading := true;
      ChatHistory := [];
      LoadingMessage := GettingQueryMessage;
      calls := [ServiceCall.GetAISQLQuery(aiModel, aiPlatform, prompt, dbSchema, ActiveConnection.databaseType)];
      if generated.Throws? {
        return Some(generated.message), false, calls, [];
      }
      var aiResponse := generated.value;

      Query := aiResponse.query;
      Summary := aiResponse.summary;
      var isSelectOnly;
      isSelectOnly, notices := MakeSureSelectQueryOnly(Query);
      if !isSelectOnly {
        Loading := false;
        return None, false, calls, notices;
      }
      thrown, proceed := None, true;
    }

    /** The rest of the `try` block of `RunDataChat`: runs `sql`, restarts
        the conversation from its rows, saves `prompt` in the history and
        reloads the stored queries. The first exception ends it and is
        returned in `thrown`; the error is cleared only at the very end. */
    method RunAndRecord(prompt: string, sql: string, table: Outcome<Rows>, saved: Outcome<()>,
                        history: Outcome<seq<HistoryItem>>, favorites: Outcome<seq<HistoryItem>>,
                        ghost log: seq<ServiceCall>)
      returns (thrown: Option<string>, ghost calls: seq<ServiceCall>)
      modifies this`Loading, this`LoadingMessage, this`ChatHistory, this`RowData,
               this`History, this`Favorites, this`Error
      ensures LoadingMessage == RunningQueryMessage
      ensures table.Throws? ==>
        thrown == Some(table.message) && calls == log + [ServiceCall.GetDataTable(ActiveConnection, sql)]
        && Loading == old(Loading) && ChatHistory == old(ChatHistory) && RowData == old(RowData)
      ensures table.Returns? ==>
        !Loading && RowData == table.value && ChatHistory == old(ChatHistory) + [SystemMessage(table.value)]
      ensures table.Returns? && saved.Throws? ==>
        thrown == Some(saved.message)
        && calls == log + [ServiceCall.GetDataTable(ActiveConnection, sql)]
                   + [ServiceCall.SaveQuery(prompt, ActiveConnection.name, QueryType.History)]
      ensures table.Returns? && saved.Returns? && history.Throws? ==>
        thrown == Some(history.message)
        && calls == log + [ServiceCall.GetDataTable(ActiveConnection, sql)]
                   + [ServiceCall.SaveQuery(prompt, ActiveConnection.name, QueryType.History)] + [ServiceCall.GetQueries(ActiveConnection.name, QueryType.History)]
      ensures table.Returns? && saved.Returns? && history.Returns? ==>
        History == history.value
        && calls == log + [ServiceCall.GetDataTable(ActiveConnection, sql)]
                   + [ServiceCall.SaveQuery(prompt, ActiveConnection.name, QueryType.History)] + [ServiceCall.GetQueries(ActiveConnection.name, QueryType.History)] + [ServiceCall.GetQueries(ActiveConnection.name, QueryType.Favorite)]
      ensures table.Returns? && saved.Returns? && history.Returns? && favorites.Throws? ==>
        thrown == Some(favorites.message)
      ensures !(table.Returns? && saved.Returns? && history.Returns?) ==> History == old(History)
      ensures thrown == None <==> table.Returns? && saved.Returns? && history.Returns? && favorites.Returns?
      ensures thrown == None ==> Favorites == favorites.value && Error == ""
      ensures thrown != None ==> Favorites == old(Favorites) && Error == old(Error)
    {
      LoadingMessage := RunningQueryMessage;
      calls := log + [ServiceCall.GetDataTable(ActiveConnection, sql)];
      if table.Throws? {
        return Some(table.message), calls;
      }
      RowData := table.value;
      ChatHistory := ChatHistory + [SystemMessage(RowData)];

      Loading := false;
      calls := calls + [ServiceCall.SaveQuery(prompt, ActiveConnection.name, QueryType.History)];
      if saved.Throws? {
        return Some(saved.message), calls;
      }
      calls := calls + [ServiceCall.GetQueries(ActiveConnection.name, QueryType.History)];
      if history.Throws? {
        return Some(history.message), calls;
      }
      History := history.value;
      calls := calls + [ServiceCall.GetQueries(ActiveConnection.name, QueryType.Favorite)];
      if favorites.Throws? {
        return Some(favorites.message), calls;
      }
      Favorites := favorites.value;
      Error := "";
      thrown := None;
    }

    /** The `try` block of `RunDataChat`: asks for a query, and runs and
        records it when the gate lets it through. An exception ends the
        block and is returned in `thrown`. */
    method TryBlock(prompt: string, generated: Outcome<AIQuery>, table: Outcome<Rows>,
                    saved: Outcome<()>, history: Outcome<seq<HistoryItem>>,
                    favorites: Outcome<seq<HistoryItem>>)
      returns (thrown: Option<string>, ghost calls: seq<ServiceCall>, ghost notices: seq<Notice>)
      modifies this`Loading, this`LoadingMessage, this`ChatHistory, this`Query, this`Summary,
               this`RowData, this`History, this`Favorites, this`Error
      ensures thrown == match RunEnding(generated, table, saved, history, favorites)
                        case Threw(m) => Some(m)
                        case _ => None
      ensures Error == if RunEnding(generated, table, saved, history, favorites) == Completed
                       then "" else old(Error)
      ensures LoadingMessage == if CallsMade(generated, table, saved, history) >= 2
                                then RunningQueryMessage else GettingQueryMessage
      ensures Loading <==> thrown.Some? && CallsMade(generated, table, saved, history) <= 2
      ensures calls == CallsUpTo(prompt, QueryOf(generated), CallsMade(generated, table, saved, history))
      ensures notices == if RunEnding(generated, table, saved, history, favorites) == Refused
                         then [RejectionNotice] else []
      ensures generated.Returns? ==> Query == generated.value.query && Summary == generated.value.summary
      ensures generated.Throws? ==> Query == old(Query) && Summary == old(Summary)
      ensures ChatHistory == if CallsMade(generated, table, saved, history) >= 3
                             then [SystemMessage(table.value)] else []
      ensures RowData == if CallsMade(generated, table, saved, history) >= 3 then table.value else old(RowData)
      ensures History == if CallsMade(generated, table, saved, history) == 5 then history.value else old(History)
      ensures Favorites == if RunEnding(generated, table, saved, history, favorites) == Completed
                           then favorites.value else old(Favorites)
    {
      var proceed;
      thrown, proceed, calls, notices := AskForQuery(prompt, generated);
      if proceed {
        thrown, calls := RunAndRecord(prompt, QueryOf(generated), table, saved, history, favorites, calls);
      }
    }

    /** Generates a query for `prompt`, checks it with the gate, runs it,
        restarts the conversation from its rows and records the prompt in
        the history: the `try` block, and the `catch` block when it throws.
        A refused query stops the run before the database is reached. */
    method RunDataChat(prompt: string, generated: Outcome<AIQuery>, table: Outcome<Rows>,
                       saved: Outcome<()>, history: Outcome<seq<HistoryItem>>,
                       favorites: Outcome<seq<HistoryItem>>)
      returns (ghost calls: seq<ServiceCall>, ghost notices: seq<Notice>)
      modifies this`Loading, this`LoadingMessage, this`ChatHistory, this`Query, this`Summary,
               this`RowData, this`History, this`Favorites, this`Error
      ensures !Loading
      // the services are called in order, up to the first failure or refusal;
      // the error is replaced by an exception's message, kept on a refusal
      // and cleared only when every stage succeeded
      ensures Error == match RunEnding(generated, table, saved, history, favorites)
                       case Threw(m) => m
                       case Refused => old(Error)
                       case Completed => ""
      ensures LoadingMessage == match RunEnding(generated, table, saved, history, favorites)
                                case Threw(_) => ""
                                case Refused => GettingQueryMessage
                                case Completed => RunningQueryMessage
      ensures calls == CallsUpTo(prompt, QueryOf(generated), CallsMade(generated, table, saved, history))
      // the database only ever sees the generated query, and only when the
      // gate accepted it
      ensures forall c :: c in calls && c.GetDataTable? ==> c.sql == generated.value.query && IsSelectOnly(c.sql)
      ensures (exists c :: c in calls && c.GetDataTable?) <==> generated.Returns? && IsSelectOnly(generated.value.query)
      ensures notices == if RunEnding(generated, table, saved, history, favorites) == Refused
                         then [RejectionNotice] else []
      ensures generated.Returns? ==> Query == generated.value.query && Summary == generated.value.summary
      ensures generated.Throws? ==> Query == old(Query) && Summary == old(Summary)
      ensures ChatHistory == if CallsMade(generated, table, saved, history) >= 3
                             then [SystemMessage(table.value)] else []
      ensures RowData == if CallsMade(generated, table, saved, history) >= 3 then table.value else old(RowData)
      ensures History == if CallsMade(generated, table, saved, history) == 5 then history.value else old(History)
      ensures Favorites == if RunEnding(generated, table, saved, history, favorites) == Completed
                           then favorites.value else old(Favorites)
    {
      var thrown;
      thrown, calls, notices := TryBlock(prompt, generated, table, saved, history, favorites);
      DatabaseSeesOnlyAcceptedQueries(prompt, generated, table, saved, history);
      if thrown.Some? {
        Catch(thrown.value);
      }
    }
  }
}
