/** The todo service (pkg/todos/service.go): normalises ids and resolves
    status labels, then delegates each call to the repository. */
module Service {

  import opened Wrappers
  import opened Schema
  import opened Redis
  import opened Errors
  import opened TodoRecords
  import opened Repository

  /** The service over one repository. */
  class TodosService {
    const repository: TodosRepository

    constructor (repository: TodosRepository)
      ensures this.repository == repository
    {
      this.repository := repository;
    }

    /** All: the repository's list, unchanged. */
    method All(fault: Fault) returns (todos: Todos, err: Option<Error>, ghost keys: seq<string>)
      ensures fault.Some? ==> todos == Todos(0, []) && err == Some(Cause(fault.value))
      ensures fault.None? ==>
                && err == None
                && todos.total == |todos.documents| == |keys| == |Covered(repository.db.docs, TodoPrefix)|
                && Distinct(keys) && Elems(keys) == Covered(repository.db.docs, TodoPrefix)
                && forall i :: 0 <= i < |keys| ==>
                     keys[i] in repository.db.docs && todos.documents[i] == repository.db.docs[keys[i]]
    {
      todos, err, keys := repository.All(fault);
    }

    /** Search: the repository's search with the same name and status. */
    method Search(name: string, status: string, fault: Fault, matcher: string -> SearchReply<Todo>)
      returns (todos: Todos, err: Option<Error>)
      ensures fault.Some? ==> todos == Todos(0, []) && err == Some(Cause(fault.value))
      ensures fault.None? ==>
                var reply := matcher(SearchQuery(name, status));
                && err == None
                && todos.total == reply.total
                && |todos.documents| == |reply.hits|
                && forall i :: 0 <= i < |reply.hits| ==> todos.documents[i] == reply.hits[i].value
    {
      todos, err := repository.Search(name, status, fault, matcher);
    }

    /** One: the repository's read under the normalised id, never the raw one. */
    method One(id: string, fault: Fault) returns (r: Result<Todo, Error>)
      ensures fault.Some? ==> r == Failure(Cause(fault.value))
      ensures fault.None? && FormatId(id) in repository.db.docs ==>
                r == Success(repository.db.docs[FormatId(id)])
      ensures fault.None? && FormatId(id) !in repository.db.docs ==>
                r == Success(Todo(FormatId(id), "", "", 0, 0))
      ensures r.Success? && repository.Valid() ==> r.value.id == FormatId(id)
    {
      r := repository.One(FormatId(id), fault);
    }

    /** Create: the repository's create under the normalised id. */
    method Create(id: string, name: string, now: nat, fault: Fault) returns (r: Result<Todo, Error>)
      modifies repository.db
      ensures repository.db.indexes == old(repository.db.indexes)
      ensures fault.Some? ==> r == Failure(Cause(fault.value)) && repository.db.docs == old(repository.db.docs)
      ensures fault.None? ==>
                var todo := Todo(FormatId(id), name, NotStarted, now, now);
                r == Success(todo) && repository.db.docs == old(repository.db.docs)[todo.id := todo]
      ensures old(repository.Valid()) ==> repository.Valid()
    {
      r := repository.Create(FormatId(id), name, now, fault);
    }

    /** Update: an unknown status label fails, naming the label, and the
        repository is not called; a known one is resolved to its status and the
        repository updates the todo under the normalised id. */
    method Update(id: string, status: string, now: nat, readFault: Fault, writeFault: Fault)
      returns (r: Result<Todo, Error>)
      modifies repository.db
      ensures repository.db.indexes == old(repository.db.indexes)
      ensures !StatusLookup(status).1 ==>
                r == Failure(Cause("Invalid status " + status)) && repository.db.docs == old(repository.db.docs)
      ensures StatusLookup(status).1 && readFault.Some? ==>
                r == Failure(Cause(readFault.value)) && repository.db.docs == old(repository.db.docs)
      ensures StatusLookup(status).1 && readFault.None? ==>
                var key := FormatId(id);
                var updated := ParseTodoStr(key, Payload(old(repository.db.docs), key)).(status := status, updatedDate := now);
                && (writeFault.Some? ==>
                      r == Failure(Cause(writeFault.value)) && repository.db.docs == old(repository.db.docs))
                && (writeFault.None? ==>
                      r == Success(updated) && repository.db.docs == old(repository.db.docs)[key := updated])
      ensures old(repository.Valid()) ==> repository.Valid()
    {
      var normalizedId := FormatId(id);
      var (todoStatus, ok) := StatusLookup(status);
      if !ok {
        return Failure(Cause("Invalid status " + status));
      }
      r := repository.Update(normalizedId, todoStatus, now, readFault, writeFault);
    }

    /** Del: the repository's delete under the normalised id. */
    method Del(id: string, fault: Fault) returns (err: Option<Error>)
      modifies repository.db
      ensures repository.db.indexes == old(repository.db.indexes)
      ensures fault.None? ==> err == None && repository.db.docs == old(repository.db.docs) - {FormatId(id)}
      ensures fault.Some? ==> err == Some(Cause(fault.value)) && repository.db.docs == old(repository.db.docs)
      ensures old(repository.Valid()) ==> repository.Valid()
    {
      err := repository.Del(FormatId(id), fault);
    }

    /** DelAll: the repository's delete-all, unchanged. */
    method DelAll(allFault: Fault, delFaults: map<string, string>) returns (err: Option<Error>, ghost order: seq<string>)
      modifies repository.db
      ensures repository.db.indexes == old(repository.db.indexes)
      ensures allFault.Some? ==> err == Some(Cause(allFault.value)) && repository.db.docs == old(repository.db.docs)
      ensures allFault.None? && old(repository.Valid()) ==>
                && Distinct(order) && Elems(order) == Covered(old(repository.db.docs), TodoPrefix)
                && var n := FirstFault(order, delFaults);
                && repository.db.docs == old(repository.db.docs) - Elems(order[..n])
                && (n == |order| ==> err == None)
                && (n < |order| ==> err == Some(Cause(delFaults[order[n]])))
      ensures allFault.None? && old(repository.Valid()) && err == None ==>
                Covered(repository.db.docs, TodoPrefix) == {}
      ensures old(repository.Valid()) ==> repository.Valid()
    {
      err, order := repository.DelAll(allFault, delFaults);
    }
  }
}
