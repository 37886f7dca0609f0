/** The responses the handlers send: a status code and a JSON body. */
module Http {
  import opened TodoModel

  datatype Body =
    | Message(message: string)
    | LoginFailed(message: string, error: string)
    | LoginIssued(message: string, jwt: string, sessionMarker: string)
    | LoggedOut(deletedCount: nat, message: string)
    | TodoList(todos: seq<Todo>)
    | Mutation(message: string, todos: seq<Todo>)

  datatype Response = Response(status: int, body: Body)
}
