/** Value types of the DBChatPro home page: the records it keeps in its
    fields, the outcomes of the services it calls, and a log entry for each
    such call. */
module Models {

  datatype Option<+T> = None | Some(value: T)

  /** What an awaited service call produced: a value, or an exception with
      its message. */
  datatype Outcome<+T> = Returns(value: T) | Throws(message: string)

  /** Result rows as the database service returns them: one list of cell
      texts per row. */
  type Rows = seq<seq<string>>

  datatype Role = System | User | Assistant

  datatype ChatMessage = ChatMessage(role: Role, text: string)

  /** A configured database connection. */
  datatype AIConnection = AIConnection(name: string, connectionString: string, databaseType: string)

  /** A connection created with `new AIConnection()`: every text empty. */
  const DefaultConnection: AIConnection := AIConnection("", "", "")

  datatype TableSchema = TableSchema(tableName: string, columns: seq<string>)

  datatype DatabaseSchema = DatabaseSchema(schemaRaw: seq<string>, schemaStructured: seq<TableSchema>)

  const EmptySchema: DatabaseSchema := DatabaseSchema([], [])

  /** The AI service's answer to a prompt: a SQL text and its explanation. */
  datatype AIQuery = AIQuery(query: string, summary: string)

  datatype QueryType = History | Favorite

  /** A stored prompt, as the query service lists it. */
  datatype HistoryItem = HistoryItem(query: string, name: string, kind: QueryType)

  /** The search form; only its prompt is used by the page. */
  datatype FormModel = FormModel(prompt: string)

  /** A form created with `new FormModel()`. */
  const FreshForm: FormModel := FormModel("")

  datatype Severity = Success | Error

  /** A message shown with `Snackbar.Add`. */
  datatype Notice = Notice(text: string, severity: Severity)

  /** One call into a service the page depends on, with its arguments. */
  datatype ServiceCall =
    | GetAIConnections
    | GenerateSchema(connection: AIConnection)
    | GetAISQLQuery(model: string, platform: string, prompt: string, schema: DatabaseSchema, databaseType: string)
    | GetDataTable(connection: AIConnection, sql: string)
    | SaveQuery(prompt: string, connectionName: string, kind: QueryType)
    | GetQueries(connectionName: string, kind: QueryType)
    | ChatPrompt(messages: seq<ChatMessage>, model: string, platform: string)

  /** The index of the first connection called `name`, if any, as
      `FirstOrDefault(x => x.Name == name)` looks for it. */
  function FindConnection(connections: seq<AIConnection>, name: string): (r: Option<nat>)
    ensures r.Some? ==> r.value < |connections| && connections[r.value].name == name
    ensures r.Some? ==> forall j :: 0 <= j < r.value ==> connections[j].name != name
    ensures r.None? <==> forall j :: 0 <= j < |connections| ==> connections[j].name != name
  {
    if connections == [] then None
    else if connections[0].name == name then Some(0)
    else match FindConnection(connections[1..], name)
      case Some(i) => Some(i + 1)
      case None => None
  }

  /** The first connection called `name`, or a fresh default connection. */
  function ConnectionNamed(connections: seq<AIConnection>, name: string): (c: AIConnection)
    ensures (forall j :: 0 <= j < |connections| ==> connections[j].name != name) ==> c == DefaultConnection
    ensures (exists j :: 0 <= j < |connections| && connections[j].name == name) ==>
      exists i :: 0 <= i < |connections| && c == connections[i] && c.name == name
        && forall j :: 0 <= j < i ==> connections[j].name != name
  {
    match FindConnection(connections, name)
    case Some(i) => connections[i]
    case None => DefaultConnection
  }
}
