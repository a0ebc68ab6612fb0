/** The todo repository (pkg/todos/repository.go): raw store operations on
    ids exactly as given, returning the client's errors unchanged. */
module Repository {

  import opened Wrappers
  import opened Schema
  import opened Redis
  import opened Errors
  import opened TodoRecords

  /** The repository over one Redis server. */
  class TodosRepository {
    const db: Db<Todo>

    constructor (db: Db<Todo>)
      ensures this.db == db
    {
      this.db := db;
    }

    /** Every stored todo carries its key; every write of the repository keeps it so. */
    ghost predicate Valid()
      reads db
    {
      KeyedById(db.docs)
    }

    /** haveIndex: FT._LIST names the todo index. */
    predicate HaveIndex()
      reads db
      ensures HaveIndex() <==> TodoIndex in db.indexes
    {
      db.Listed(TodoIndex)
    }

    /** CreateIndexIfNotExists: a no-op when the index exists; otherwise creates
        it and returns FT.CREATE's error as it is. */
    method CreateIndexIfNotExists(fault: Fault) returns (err: Option<Error>)
      modifies db
      ensures db.docs == old(db.docs)
      ensures old(HaveIndex()) ==> err == None && db.indexes == old(db.indexes)
      ensures !old(HaveIndex()) && fault.None? ==>
                err == None && db.indexes == old(db.indexes) + {TodoIndex}
      ensures !old(HaveIndex()) && fault.Some? ==>
                err == Some(Cause(fault.value)) && db.indexes == old(db.indexes)
      ensures err == None ==> HaveIndex()
    {
      if HaveIndex() {
        return None;
      }
      var e := db.FtCreate(TodoIndex, fault);
      err := if e.Some? then Some(Cause(e.value)) else None;
    }

    /** DropIndex: removes the index when it exists; the result of the drop is ignored. */
    method DropIndex(fault: Fault)
      modifies db
      ensures db.docs == old(db.docs)
      ensures db.indexes == if old(HaveIndex()) && fault.None? then old(db.indexes) - {TodoIndex} else old(db.indexes)
    {
      if !HaveIndex() {
        return;
      }
      var _ := db.FtDropIndex(TodoIndex, fault);
    }

    /** All: every todo under the prefix, each once, listed in the server's
        order `keys`, with the total equal to their number. A failed search is
        returned together with the empty list. */
    method All(fault: Fault) returns (todos: Todos, err: Option<Error>, ghost keys: seq<string>)
      ensures fault.Some? ==> todos == Todos(0, []) && err == Some(Cause(fault.value))
      ensures fault.None? ==>
                && err == None
                && todos.total == |todos.documents| == |keys| == |Covered(db.docs, TodoPrefix)|
                && Distinct(keys) && Elems(keys) == Covered(db.docs, TodoPrefix)
                && forall i :: 0 <= i < |keys| ==> keys[i] in db.docs && todos.documents[i] == db.docs[keys[i]]
      ensures fault.None? && Valid() ==> DocumentIds(todos.documents) == keys
    {
      var reply, e := db.FtSearchAll(TodoPrefix, fault);
      var documents := Documents(reply.hits);
      keys := HitIds(reply.hits);
      todos := Todos(reply.total, documents);
      err := if e.Some? then Some(Cause(e.value)) else None;
      if e.None? {
        forall i | 0 <= i < |keys|
          ensures keys[i] in db.docs && documents[i] == db.docs[keys[i]]
        {
          assert reply.hits[i] in reply.hits;
        }
        if Valid() {
          ListedIdsAreKeys(db.docs, reply.hits, documents);
        }
      }
    }

    /** One: the todo stored under `id` itself, not normalised; an empty
        payload gives the zero todo carrying `id`. */
    method One(id: string, fault: Fault) returns (r: Result<Todo, Error>)
      ensures fault.Some? ==> r == Failure(Cause(fault.value))
      ensures fault.None? && id in db.docs ==> r == Success(db.docs[id])
      ensures fault.None? && id !in db.docs ==> r == Success(Todo(id, "", "", 0, 0))
      ensures r.Success? && Valid() ==> r.value.id == id
    {
      var payload, e := db.JsonGet(id, fault);
      if e.Some? {
        return Failure(Cause(e.value));
      }
      r := Success(ParseTodoStr(id, payload));
    }

    /** Search: sends the query built from the name and status clauses. The
        search error is not checked: the list built from the reply (empty for a
        failed search) comes back together with the error. */
    method Search(name: string, status: string, fault: Fault, matcher: string -> SearchReply<Todo>)
      returns (todos: Todos, err: Option<Error>)
      ensures fault.Some? ==> todos == Todos(0, []) && err == Some(Cause(fault.value))
      ensures fault.None? ==>
                var reply := matcher(SearchQuery(name, status));
                && err == None
                && todos.total == reply.total
                && |todos.documents| == |reply.hits|
                && forall i :: 0 <= i < |reply.hits| ==> todos.documents[i] == reply.hits[i].value
    {
      var query := SearchQuery(name, status);
      var reply := if fault.Some? then SearchReply(0, []) else matcher(query);
      var documents := Documents(reply.hits);
      todos := Todos(reply.total, documents);
      err := if fault.Some? then Some(Cause(fault.value)) else None;
    }

    /** Create: writes a not-started todo, created and updated `now`, under
        exactly `id` and returns it. */
    method Create(id: string, name: string, now: nat, fault: Fault) returns (r: Result<Todo, Error>)
      modifies db
      ensures db.indexes == old(db.indexes)
      ensures fault.Some? ==> r == Failure(Cause(fault.value)) && db.docs == old(db.docs)
      ensures fault.None? ==>
                var todo := Todo(id, name, NotStarted, now, now);
                r == Success(todo) && db.docs == old(db.docs)[id := todo]
      ensures old(Valid()) ==> Valid()
    {
      var todo := Todo(id, name, NotStarted, now, now);
      var e := db.JsonSet(id, todo, fault);
      if e.Some? {
        return Failure(Cause(e.value));
      }
      r := Success(todo);
    }

    /** Update: reads the todo under `id` (the zero todo when nothing is stored
        there); a failed read is returned and nothing is written. Otherwise only
        the status and the update time change and the todo is written back
        under `id`. The status is not checked. */
    method Update(id: string, status: string, now: nat, readFault: Fault, writeFault: Fault)
      returns (r: Result<Todo, Error>)
      modifies db
      ensures db.indexes == old(db.indexes)
      ensures readFault.Some? ==> r == Failure(Cause(readFault.value)) && db.docs == old(db.docs)
      ensures readFault.None? ==>
                var updated := ParseTodoStr(id, Payload(old(db.docs), id)).(status := status, updatedDate := now);
                && (writeFault.Some? ==> r == Failure(Cause(writeFault.value)) && db.docs == old(db.docs))
                && (writeFault.None? ==> r == Success(updated) && db.docs == old(db.docs)[id := updated])
      ensures old(Valid()) ==> Valid()
    {
      var found := One(id, readFault);
      if found.Failure? {
        return Failure(found.error);
      }
      var todo := found.value.(status := status, updatedDate := now);
      var e := db.JsonSet(id, todo, writeFault);
      if e.Some? {
        return Failure(Cause(e.value));
      }
      r := Success(todo);
    }

    /** Del: removes whatever is stored under `id`. */
    method Del(id: string, fault: Fault) returns (err: Option<Error>)
      modifies db
      ensures db.indexes == old(db.indexes)
      ensures fault.None? ==> err == None && db.docs == old(db.docs) - {id}
      ensures fault.Some? ==> err == Some(Cause(fault.value)) && db.docs == old(db.docs)
      ensures old(Valid()) ==> Valid()
    {
      var e := db.JsonDel(id, fault);
      err := if e.Some? then Some(Cause(e.value)) else None;
    }

    /** DelAll: lists every todo, then deletes them one by one in the listed
        `order`, stopping at the first delete that fails. When none fails, no
        key under the prefix remains. */
    method DelAll(allFault: Fault, delFaults: map<string, string>) returns (err: Option<Error>, ghost order: seq<string>)
      modifies db
      ensures db.indexes == old(db.indexes)
      ensures allFault.Some? ==> err == Some(Cause(allFault.value)) && db.docs == old(db.docs)
      ensures allFault.None? && old(Valid()) ==>
                && Distinct(order) && Elems(order) == Covered(old(db.docs), TodoPrefix)
                && var n := FirstFault(order, delFaults);
                && db.docs == old(db.docs) - Elems(order[..n])
                && (n == |order| ==> err == None)
                && (n < |order| ==> err == Some(Cause(delFaults[order[n]])))
      ensures allFault.None? && old(Valid()) && err == None ==> Covered(db.docs, TodoPrefix) == {}
      ensures old(Valid()) ==> Valid()
    {
      ghost var keys;
      var all, e;
      all, e, keys := All(allFault);
      order := keys;
      if e.Some? {
        return e, order;
      }
      var documents := all.documents;
      var i := 0;
      while i < |documents|
        invariant 0 <= i <= |documents|
        invariant old(Valid()) ==> order == DocumentIds(documents)
        invariant old(Valid()) ==> forall j :: 0 <= j < i ==> order[j] !in delFaults
        invariant old(Valid()) ==> db.docs == old(db.docs) - Elems(order[..i])
        invariant db.indexes == old(db.indexes)
        invariant old(Valid()) ==> Valid()
      {
        var key := documents[i].id;
        var d := Del(key, DelFault(delFaults, key));
        if d.Some? {
          if old(Valid()) {
            FirstFaultAt(order, delFaults, i);
          }
          return d, order;
        }
        if old(Valid()) {
          ElemsPrefixStep(order, i);
        }
        i := i + 1;
      }
      if old(Valid()) {
        assert order[..i] == order;
        FirstFaultAt(order, delFaults, i);
        RemoveCovered(old(db.docs), TodoPrefix, Elems(order));
      }
      err := None;
    }
  }
}
