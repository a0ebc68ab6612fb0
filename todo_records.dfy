/** The record types of pkg/todos, shared by its store and its repository: a
    todo carries its own key, and a stored todo's JSON holds that key too. */
module TodoRecords {

  import opened Wrappers
  import opened Redis

  /** A todo with its key. */
  datatype Todo = Todo(id: string, name: string, status: string, createdDate: nat, updatedDate: nat)

  /** The result of a list operation: the total the index reports and the todos. */
  datatype Todos = Todos(total: int, documents: seq<Todo>)

  /** parseTodoStr: start from a todo holding only `id` and fill in what the
      payload holds. Every payload these stores write holds all fields, the key
      among them, so a stored value is taken whole; an empty payload leaves the
      zero todo with the given id. */
  function ParseTodoStr(id: string, payload: Option<Todo>): (todo: Todo)
    ensures payload.None? ==> todo.id == id && todo.name == "" && todo.status == ""
    ensures payload.Some? ==> todo == payload.value
  {
    match payload
    case None => Todo(id, "", "", 0, 0)
    case Some(todo) => todo
  }

  /** Every stored todo carries the key it is stored under. */
  ghost predicate KeyedById(docs: map<string, Todo>)
  {
    forall k :: k in docs ==> docs[k].id == k
  }

  /** Reading a key of a store whose todos carry their keys always yields a
      todo carrying that key, whether or not anything is stored there. */
  lemma ParseTodoStrKeepsKey(docs: map<string, Todo>, key: string)
    requires KeyedById(docs)
    ensures ParseTodoStr(key, Payload(docs, key)).id == key
  {
  }

  /** The keys the todos of a list carry, in order. */
  function DocumentIds(documents: seq<Todo>): (ids: seq<string>)
    ensures |ids| == |documents|
    ensures forall i :: 0 <= i < |documents| ==> ids[i] == documents[i].id
  {
    seq(|documents|, i requires 0 <= i < |documents| => documents[i].id)
  }

  /** The loop of All and Search: one todo per hit, parsed from the hit's
      payload with the hit's key preset. */
  method Documents(hits: seq<Hit<Todo>>) returns (documents: seq<Todo>)
    ensures |documents| == |hits|
    ensures forall i :: 0 <= i < |hits| ==> documents[i] == hits[i].value
  {
    documents := [];
    for i := 0 to |hits|
      invariant |documents| == i
      invariant forall j :: 0 <= j < i ==> documents[j] == hits[j].value
    {
      documents := documents + [ParseTodoStr(hits[i].id, Some(hits[i].value))];
    }
  }

  /** The todos listed from a store whose todos carry their keys carry the
      keys they were listed under. */
  lemma ListedIdsAreKeys(docs: map<string, Todo>, hits: seq<Hit<Todo>>, documents: seq<Todo>)
    requires KeyedById(docs)
    requires forall h :: h in hits ==> h.id in docs && h.value == docs[h.id]
    requires |documents| == |hits| && forall i :: 0 <= i < |hits| ==> documents[i] == hits[i].value
    ensures DocumentIds(documents) == HitIds(hits)
  {
    forall i | 0 <= i < |hits|
      ensures DocumentIds(documents)[i] == HitIds(hits)[i]
    {
      assert hits[i] in hits;
    }
  }
}
