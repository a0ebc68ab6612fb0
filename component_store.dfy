/** The component todo store (pkg/components/todos/store.go): todos kept as
    JSON documents under `todos:` keys, a search index over their name and
    status, and every failure reported as a TodoError of one of three kinds. */
module ComponentStore {

  import opened Wrappers
  import opened Schema
  import opened Redis
  import opened Errors

  /** A todo as stored: its key is not part of the value. */
  datatype Todo = Todo(name: string, status: string, createdDate: nat, updatedDate: nat)

  /** A todo together with its key. */
  datatype TodoDocument = TodoDocument(id: string, value: Todo)

  /** The result of a list operation: the total the index reports and the documents. */
  datatype Todos = Todos(total: int, documents: seq<TodoDocument>)

  /** The keys of a list of documents, in order. */
  function DocumentIds(documents: seq<TodoDocument>): (ids: seq<string>)
    ensures |ids| == |documents|
    ensures forall i :: 0 <= i < |documents| ==> ids[i] == documents[i].id
  {
    seq(|documents|, i requires 0 <= i < |documents| => documents[i].id)
  }

  /** A UUID in its canonical text form (uuid.New().String()): 36 lower-case
      hexadecimal digits and dashes. */
  predicate IsUuidText(s: string)
  {
    |s| == 36 && forall i :: 0 <= i < |s| ==> s[i] in "0123456789abcdef-"
  }

  /** A failure the client sees as Unknown: the client message, and the cause
      wrapped with a context by fmt.Errorf. */
  function UnknownError(clientMessage: string, context: string, cause: Error): (e: TodoError)
  {
    TodoError(Unknown, clientMessage, Some(Wrapped(context, cause)))
  }

  /** The key Create writes: the caller's id, or the generated token when the
      id is empty, normalised. A given id keeps its normal form, and every key
      lies in the index's scope. */
  function CreateKey(id: string, token: string): (key: string)
    ensures HasPrefix(key)
    ensures |id| > 0 ==> key == FormatId(id)
    ensures |id| > 0 && !HasPrefix(id) ==> key[|TodoPrefix|..] == id
  {
    FormatId(if |id| == 0 then token else id)
  }

  /** With an empty id, the key is the prefix followed by the whole token: a
      generated id never starts with the prefix, so it is never taken as
      already normalised, and the key is never the bare prefix. */
  lemma CreateKeyForEmptyId(token: string)
    requires IsUuidText(token)
    ensures CreateKey("", token) == TodoPrefix + token
    ensures |CreateKey("", token)| == |TodoPrefix| + 36
  {
    assert token[0] != 't' by {
      assert token[0] in "0123456789abcdef-";
    }
    assert !HasPrefix(token);
  }

  /** The todo store over one Redis server. */
  class TodoStore {
    const db: Db<Todo>

    constructor (db: Db<Todo>)
      ensures this.db == db
    {
      this.db := db;
    }

    /** No stored todo was updated before it was created. */
    ghost predicate DatesOrdered()
      reads db
    {
      forall k :: k in db.docs ==> db.docs[k].createdDate <= db.docs[k].updatedDate
    }

    /** The clock reading `now` is not earlier than any stored time: the clock
        never runs backwards. */
    ghost predicate NotBefore(now: nat)
      reads db
    {
      forall k :: k in db.docs ==> db.docs[k].createdDate <= now
    }

    /** haveIndex: FT._LIST names the todo index. */
    predicate HaveIndex()
      reads db
      ensures HaveIndex() <==> TodoIndex in db.indexes
    {
      db.Listed(TodoIndex)
    }

    /** CreateIndexIfNotExists: a no-op when the index exists; otherwise creates
        it, reporting a failed FT.CREATE as Unknown. */
    method CreateIndexIfNotExists(fault: Fault) returns (err: Option<TodoError>)
      modifies db
      ensures db.docs == old(db.docs)
      ensures old(HaveIndex()) ==> err == None && db.indexes == old(db.indexes)
      ensures !old(HaveIndex()) && fault.None? ==>
                err == None && db.indexes == old(db.indexes) + {TodoIndex}
      ensures !old(HaveIndex()) && fault.Some? ==>
                err == Some(UnknownError("failed to create index", "failed to create index", Cause(fault.value)))
                && db.indexes == old(db.indexes)
      ensures err == None ==> HaveIndex()
    {
      if HaveIndex() {
        return None;
      }
      var e := db.FtCreate(TodoIndex, fault);
      if e.Some? {
        return Some(UnknownError("failed to create index", "failed to create index", Cause(e.value)));
      }
      return None;
    }

    /** DropIndex: removes the index when it exists; the result of the drop is
        ignored. Documents stay. */
    method DropIndex(fault: Fault)
      modifies db
      ensures db.docs == old(db.docs)
      ensures db.indexes == if old(HaveIndex()) && fault.None? then old(db.indexes) - {TodoIndex} else old(db.indexes)
    {
      if !HaveIndex() {
        return;
      }
      var _ := db.FtDropIndex(TodoIndex, fault);
    }

    /** The loop of All and Search: one document per hit, keeping the hit's key. */
    static method Documents(hits: seq<Hit<Todo>>) returns (documents: seq<TodoDocument>)
      ensures |documents| == |hits|
      ensures forall i :: 0 <= i < |hits| ==> documents[i] == TodoDocument(hits[i].id, hits[i].value)
    {
      documents := [];
      for i := 0 to |hits|
        invariant |documents| == i
        invariant forall j :: 0 <= j < i ==> documents[j] == TodoDocument(hits[j].id, hits[j].value)
      {
        documents := documents + [TodoDocument(hits[i].id, hits[i].value)];
      }
    }

    /** All: every todo under the prefix, each once, with the total equal to
        their number; a failed search is Unknown. */
    method All(fault: Fault) returns (r: Result<Todos, TodoError>)
      ensures fault.Some? ==>
                r == Failure(UnknownError("failed to get all todos", "failed to get all todos", Cause(fault.value)))
      ensures fault.None? ==> r.Success?
      ensures r.Success? ==>
                r.value.total == |r.value.documents| == |Covered(db.docs, TodoPrefix)|
                && Distinct(DocumentIds(r.value.documents))
                && Elems(DocumentIds(r.value.documents)) == Covered(db.docs, TodoPrefix)
                && forall d :: d in r.value.documents ==> d.id in db.docs && d.value == db.docs[d.id]
    {
      var reply, e := db.FtSearchAll(TodoPrefix, fault);
      if e.Some? {
        return Failure(UnknownError("failed to get all todos", "failed to get all todos", Cause(e.value)));
      }
      var documents := Documents(reply.hits);
      assert DocumentIds(documents) == HitIds(reply.hits);
      r := Success(Todos(reply.total, documents));
    }

    /** One: the todo stored under the normalised id; an empty payload is
        NotFound, a failed read Unknown. */
    method One(id: string, fault: Fault) returns (r: Result<Todo, TodoError>)
      ensures fault.Some? ==>
                r == Failure(UnknownError("failed to get todo", "failed to get todo", Cause(fault.value)))
      ensures fault.None? && FormatId(id) !in db.docs ==>
                r == Failure(TodoError(NotFound, "todo not found", None))
      ensures fault.None? && FormatId(id) in db.docs ==> r == Success(db.docs[FormatId(id)])
    {
      var fId := FormatId(id);
      var payload, e := db.JsonGet(fId, fault);
      if e.Some? {
        return Failure(UnknownError("failed to get todo", "failed to get todo", Cause(e.value)));
      }
      if payload.None? {
        return Failure(TodoError(NotFound, "todo not found", None));
      }
      r := Success(payload.value);
    }

    /** Search: sends the query built from the name and status clauses and
        returns one document per hit of the reply; a failed search is Unknown.
        What the server matches for a query is `matcher`. */
    method Search(name: string, status: string, fault: Fault, matcher: string -> SearchReply<Todo>)
      returns (r: Result<Todos, TodoError>)
      ensures fault.Some? ==>
                r == Failure(UnknownError("failed search for todos", "failed to search for todos", Cause(fault.value)))
      ensures fault.None? ==>
                var reply := matcher(SearchQuery(name, status));
                && r.Success?
                && r.value.total == reply.total
                && |r.value.documents| == |reply.hits|
                && forall i :: 0 <= i < |reply.hits| ==>
                     r.value.documents[i] == TodoDocument(reply.hits[i].id, reply.hits[i].value)
    {
      var query := SearchQuery(name, status);
      if fault.Some? {
        return Failure(UnknownError("failed search for todos", "failed to search for todos", Cause(fault.value)));
      }
      var reply := matcher(query);
      var documents := Documents(reply.hits);
      r := Success(Todos(reply.total, documents));
    }

    /** Create: an empty name is Invalid and writes nothing; otherwise writes a
        not-started todo, created and updated `now`, under exactly the key
        CreateKey(id, token), and returns it with that key. A failed write is
        reported as Invalid. */
    method Create(id: string, name: string, now: nat, token: string, fault: Fault)
      returns (r: Result<TodoDocument, TodoError>)
      requires IsUuidText(token)
      modifies db
      ensures db.indexes == old(db.indexes)
      ensures |name| == 0 ==>
                r == Failure(TodoError(Invalid, "todo must have a name", None)) && db.docs == old(db.docs)
      ensures |name| > 0 && fault.Some? ==>
                r == Failure(TodoError(Invalid, "failed to update todo", Some(Cause(fault.value))))
                && db.docs == old(db.docs)
      ensures |name| > 0 && fault.None? ==>
                var doc := TodoDocument(CreateKey(id, token), Todo(name, NotStarted, now, now));
                r == Success(doc) && db.docs == old(db.docs)[doc.id := doc.value]
      ensures old(DatesOrdered()) ==> DatesOrdered()
    {
      var key := id;
      if |key| == 0 {
        key := token;
      }
      if |name| == 0 {
        return Failure(TodoError(Invalid, "todo must have a name", None));
      }
      var fId := FormatId(key);
      var todo := TodoDocument(fId, Todo(name, NotStarted, now, now));
      var e := db.JsonSet(fId, todo.value, fault);
      if e.Some? {
        return Failure(TodoError(Invalid, "failed to update todo", Some(Cause(e.value))));
      }
      r := Success(todo);
    }

    /** Update: an unknown status label is Invalid before the store is touched,
        and the message shows the zero status, not the label. A read that fails
        for any reason is NotFound and writes nothing. Otherwise only the
        status and the update time change, and the todo is written back under
        the same key. */
    method Update(id: string, status: string, now: nat, readFault: Fault, writeFault: Fault)
      returns (r: Result<Todo, TodoError>)
      modifies db
      ensures db.indexes == old(db.indexes)
      ensures !StatusLookup(status).1 ==>
                r == Failure(TodoError(Invalid, "invalid status ", None)) && db.docs == old(db.docs)
      ensures StatusLookup(status).1 && readFault.Some? ==>
                r == Failure(TodoError(NotFound, "todo not found", Some(TodoErr(
                       UnknownError("failed to get todo", "failed to get todo", Cause(readFault.value))))))
                && db.docs == old(db.docs)
      ensures StatusLookup(status).1 && readFault.None? && FormatId(id) !in old(db.docs) ==>
                r == Failure(TodoError(NotFound, "todo not found", Some(TodoErr(TodoError(NotFound, "todo not found", None)))))
                && db.docs == old(db.docs)
      ensures StatusLookup(status).1 && readFault.None? && FormatId(id) in old(db.docs) ==>
                var updated := old(db.docs)[FormatId(id)].(status := status, updatedDate := now);
                && (writeFault.Some? ==>
                      r == Failure(UnknownError("failed to update todo", "failed to update todo", Cause(writeFault.value)))
                      && db.docs == old(db.docs))
                && (writeFault.None? ==> r == Success(updated) && db.docs == old(db.docs)[FormatId(id) := updated])
      ensures old(DatesOrdered()) && old(NotBefore(now)) ==> DatesOrdered()
    {
      var fId := FormatId(id);
      var (todoStatus, ok) := StatusLookup(status);
      if !ok {
        assert todoStatus == "" && "invalid status " + todoStatus == "invalid status ";
        return Failure(TodoError(Invalid, "invalid status " + todoStatus, None));
      }
      var found := One(fId, readFault);
      if found.Failure? {
        return Failure(TodoError(NotFound, "todo not found", Some(TodoErr(found.error))));
      }
      var todo := found.value.(status := todoStatus, updatedDate := now);
      var e := db.JsonSet(fId, todo, writeFault);
      if e.Some? {
        return Failure(UnknownError("failed to update todo", "failed to update todo", Cause(e.value)));
      }
      r := Success(todo);
    }

    /** Del: removes the todo under the normalised id; deleting an absent todo
        is not an error, a failed delete is Unknown. */
    method Del(id: string, fault: Fault) returns (err: Option<TodoError>)
      modifies db
      ensures db.indexes == old(db.indexes)
      ensures fault.None? ==> err == None && db.docs == old(db.docs) - {FormatId(id)}
      ensures fault.Some? ==>
                err == Some(UnknownError("failed to delete todo", "failed to delete todo", Cause(fault.value)))
                && db.docs == old(db.docs)
      ensures old(DatesOrdered()) ==> DatesOrdered()
    {
      var fId := FormatId(id);
      var e := db.JsonDel(fId, fault);
      if e.Some? {
        return Some(UnknownError("failed to delete todo", "failed to delete todo", Cause(e.value)));
      }
      return None;
    }

    /** DelAll: lists every todo, then deletes them one by one in the listed
        `order`, stopping with Unknown at the first delete that fails. When
        none fails, no key under the prefix remains. */
    method DelAll(allFault: Fault, delFaults: map<string, string>) returns (err: Option<TodoError>, ghost order: seq<string>)
      modifies db
      ensures db.indexes == old(db.indexes)
      ensures allFault.Some? ==>
                err == Some(UnknownError("failed to find all todos", "failed to find all todos", TodoErr(
                         UnknownError("failed to get all todos", "failed to get all todos", Cause(allFault.value)))))
                && db.docs == old(db.docs)
      ensures allFault.None? ==>
                && Distinct(order) && Elems(order) == Covered(old(db.docs), TodoPrefix)
                && var n := FirstFault(order, delFaults);
                && db.docs == old(db.docs) - Elems(order[..n])
                && (n == |order| ==> err == None)
                && (n < |order| ==>
                      err == Some(UnknownError("failed to delete todo", "failed to delete todo", TodoErr(
                               UnknownError("failed to delete todo", "failed to delete todo", Cause(delFaults[order[n]]))))))
      ensures allFault.None? && err == None ==> Covered(db.docs, TodoPrefix) == {}
    {
      order := [];
      var all := All(allFault);
      if all.Failure? {
        return Some(UnknownError("failed to find all todos", "failed to find all todos", TodoErr(all.error))), order;
      }
      var documents := all.value.documents;
      order := DocumentIds(documents);
      var i := 0;
      while i < |documents|
        invariant 0 <= i <= |documents|
        invariant forall j :: 0 <= j < i ==> order[j] !in delFaults
        invariant db.docs == old(db.docs) - Elems(order[..i])
        invariant db.indexes == old(db.indexes)
      {
        var key := documents[i].id;
        assert key in Covered(old(db.docs), TodoPrefix) by {
          assert key in Elems(order);
        }
        var e := Del(key, DelFault(delFaults, key));
        if e.Some? {
          assert FirstFault(order, delFaults) == i by {
            FirstFaultAt(order, delFaults, i);
          }
          return Some(UnknownError("failed to delete todo", "failed to delete todo", TodoErr(e.value))), order;
        }
        ElemsPrefixStep(order, i);
        i := i + 1;
      }
      assert order[..i] == order;
      FirstFaultAt(order, delFaults, i);
      RemoveCovered(old(db.docs), TodoPrefix, Elems(order));
      err := None;
    }
  }
}
