/** The todo record of `server/models/todo.js`: its fields, which of them
    are required, and the defaults Mongoose applies when a document is made. */
module TodoModel {
  import opened Common

  /** The store-assigned `_id` (an ObjectId; any fresh value will do). */
  type TodoId = nat

  datatype Todo = Todo(
    id: TodoId,
    text: string,      // `todo`: required string
    completed: bool,   // defaults to false
    owner: string,     // `userId`: required string, the Firebase uid
    createdAt: int     // defaults to Date.now(); there is no updated-at field
  )

  /** Why `save()` rejects a document. */
  datatype ValidationError = TextRequired | OwnerRequired

  /** Mongoose's `required` validator on a String path fails on the empty string. */
  predicate Present(s: string)
  {
    s != ""
  }

  /** `new Todo({ todo, userId })` followed by the validation that `save()`
      runs: the defaults are applied, and a missing required field is an error. */
  function NewTodo(id: TodoId, text: string, owner: string, now: int): (r: Result)
    ensures r.Ok? <==> Present(text) && Present(owner)
    ensures r.Err? && !Present(text) ==> r.error == TextRequired
    ensures r.Err? && Present(text) ==> r.error == OwnerRequired
    ensures r.Ok? ==> WellFormed(r.todo) && r.todo.id == id && r.todo.text == text
                      && r.todo.owner == owner && !r.todo.completed && r.todo.createdAt == now
  {
    if !Present(text) then Err(TextRequired)
    else if !Present(owner) then Err(OwnerRequired)
    else Ok(Todo(id, text, false, owner, now))
  }

  datatype Result = Ok(todo: Todo) | Err(error: ValidationError)

  /** A record that passes the schema's validators. */
  predicate WellFormed(t: Todo)
  {
    Present(t.text) && Present(t.owner)
  }
}
