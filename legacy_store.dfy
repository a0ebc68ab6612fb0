/** The older todo store (pkg/todos/store.go): the same operations as the
    component store, but with plain wrapped errors, no name check, no
    generated id and no not-found check on reads. */
module LegacyStore {

  import opened Wrappers
  import opened Schema
  import opened Redis
  import opened Errors
  import opened TodoRecords

  /** An empty id is not rejected: it normalises to the bare prefix, the key
      Create then writes. */
  lemma EmptyIdIsBarePrefix()
    ensures FormatId("") == TodoPrefix
  {
  }

  /** The store over one Redis server. */
  class Store {
    const db: Db<Todo>

    constructor (db: Db<Todo>)
      ensures this.db == db
    {
      this.db := db;
    }

    /** Every stored todo carries its key; every write of this store keeps it so. */
    ghost predicate Valid()
      reads db
    {
      KeyedById(db.docs)
    }

    /** haveIndex: FT._LIST names the todo index. */
    predicate HaveIndex()
      reads db
      ensures HaveIndex() <==> TodoIndex in db.indexes
    {
      db.Listed(TodoIndex)
    }

    /** CreateIndexIfNotExists: a no-op when the index exists; otherwise creates
        it, wrapping a failed FT.CREATE. */
    method CreateIndexIfNotExists(fault: Fault) returns (err: Option<Error>)
      modifies db
      ensures db.docs == old(db.docs)
      ensures old(HaveIndex()) ==> err == None && db.indexes == old(db.indexes)
      ensures !old(HaveIndex()) && fault.None? ==>
                err == None && db.indexes == old(db.indexes) + {TodoIndex}
      ensures !old(HaveIndex()) && fault.Some? ==>
                err == Some(Wrapped("failed to create index", Cause(fault.value))) && db.indexes == old(db.indexes)
      ensures err == None ==> HaveIndex()
    {
      if HaveIndex() {
        return None;
      }
      var e := db.FtCreate(TodoIndex, fault);
      if e.Some? {
        return Some(Wrapped("failed to create index", Cause(e.value)));
      }
      return None;
    }

    /** DropIndex: removes the index when it exists; the result of the drop is ignored. */
    method DropIndex(fault: Fault)
      modifies db
      ensures db.docs == old(db.docs)
      ensures db.indexes == if old(HaveIndex()) && fault.None? then old(db.indexes) - {TodoIndex} else old(db.indexes)
    {
      if !HaveIndex() {
        return;
      }
      var _ := db.FtDropIndex(TodoIndex, fault);
    }

    /** All: every todo under the prefix, each once, listed in the server's
        order `keys`, with the total equal to their number. A failed search is
        returned together with the empty list rather than instead of it. */
    method All(fault: Fault) returns (todos: Todos, err: Option<Error>, ghost keys: seq<string>)
      ensures fault.Some? ==> todos == Todos(0, []) && err == Some(Cause(fault.value))
      ensures fault.None? ==>
                && err == None
                && todos.total == |todos.documents| == |keys| == |Covered(db.docs, TodoPrefix)|
                && Distinct(keys) && Elems(keys) == Covered(db.docs, TodoPrefix)
                && forall i :: 0 <= i < |keys| ==> keys[i] in db.docs && todos.documents[i] == db.docs[keys[i]]
      ensures fault.None? && Valid() ==> DocumentIds(todos.documents) == keys
    {
      var reply, e := db.FtSearchAll(TodoPrefix, fault);
      var documents := Documents(reply.hits);
      keys := HitIds(reply.hits);
      todos := Todos(reply.total, documents);
      err := if e.Some? then Some(Cause(e.value)) else None;
      if e.None? {
        forall i | 0 <= i < |keys|
          ensures keys[i] in db.docs && documents[i] == db.docs[keys[i]]
        {
          assert reply.hits[i] in reply.hits;
        }
        if Valid() {
          ListedIdsAreKeys(db.docs, reply.hits, documents);
        }
      }
    }

    /** One: the todo stored under the normalised id. There is no not-found
        check: an empty payload gives the zero todo carrying that id. */
    method One(id: string, fault: Fault) returns (r: Result<Todo, Error>)
      ensures fault.Some? ==> r == Failure(Wrapped("failed JSON.GET for todo", Cause(fault.value)))
      ensures fault.None? && FormatId(id) in db.docs ==> r == Success(db.docs[FormatId(id)])
      ensures fault.None? && FormatId(id) !in db.docs ==> r == Success(Todo(FormatId(id), "", "", 0, 0))
      ensures r.Success? && Valid() ==> r.value.id == FormatId(id)
    {
      var fId := FormatId(id);
      var payload, e := db.JsonGet(fId, fault);
      if e.Some? {
        return Failure(Wrapped("failed JSON.GET for todo", Cause(e.value)));
      }
      r := Success(ParseTodoStr(fId, payload));
    }

    /** Search: sends the query built from the name and status clauses; a
        failed search returns no list. What the server matches is `matcher`. */
    method Search(name: string, status: string, fault: Fault, matcher: string -> SearchReply<Todo>)
      returns (r: Result<Todos, Error>)
      ensures fault.Some? ==> r == Failure(Wrapped("failed FT.SEARCH for todos", Cause(fault.value)))
      ensures fault.None? ==>
                var reply := matcher(SearchQuery(name, status));
                && r.Success?
                && r.value.total == reply.total
                && |r.value.documents| == |reply.hits|
                && forall i :: 0 <= i < |reply.hits| ==> r.value.documents[i] == reply.hits[i].value
    {
      var query := SearchQuery(name, status);
      if fault.Some? {
        return Failure(Wrapped("failed FT.SEARCH for todos", Cause(fault.value)));
      }
      var reply := matcher(query);
      var documents := Documents(reply.hits);
      r := Success(Todos(reply.total, documents));
    }

    /** Create: checks neither name nor id; writes a not-started todo, created
        and updated `now`, under exactly the normalised id (an empty id gives
        the bare prefix) and returns it. */
    method Create(id: string, name: string, now: nat, fault: Fault) returns (r: Result<Todo, Error>)
      modifies db
      ensures db.indexes == old(db.indexes)
      ensures fault.Some? ==>
                r == Failure(Wrapped("failed JSON.SET for todo", Cause(fault.value))) && db.docs == old(db.docs)
      ensures fault.None? ==>
                var todo := Todo(FormatId(id), name, NotStarted, now, now);
                r == Success(todo) && db.docs == old(db.docs)[todo.id := todo]
      ensures old(Valid()) ==> Valid()
    {
      var fId := FormatId(id);
      var todo := Todo(fId, name, NotStarted, now, now);
      var e := db.JsonSet(fId, todo, fault);
      if e.Some? {
        return Failure(Wrapped("failed JSON.SET for todo", Cause(e.value)));
      }
      r := Success(todo);
    }

    /** Update: an unknown status label fails before the store is read, and the
        message shows the zero status. Otherwise the todo read under the
        normalised id (the zero todo when nothing is stored there) gets the new
        status and update time and is written back under the same key. */
    method Update(id: string, status: string, now: nat, readFault: Fault, writeFault: Fault)
      returns (r: Result<Todo, Error>)
      modifies db
      ensures db.indexes == old(db.indexes)
      ensures !StatusLookup(status).1 ==> r == Failure(Cause("Invalid status ")) && db.docs == old(db.docs)
      ensures StatusLookup(status).1 && readFault.Some? ==>
                r == Failure(Wrapped("failed to update todo, not found",
                               Wrapped("failed JSON.GET for todo", Cause(readFault.value))))
                && db.docs == old(db.docs)
      ensures StatusLookup(status).1 && readFault.None? ==>
                var current := ParseTodoStr(FormatId(id), Payload(old(db.docs), FormatId(id)));
                var updated := current.(status := status, updatedDate := now);
                && (writeFault.Some? ==>
                      r == Failure(Wrapped("failed JSON.SET for todo", Cause(writeFault.value)))
                      && db.docs == old(db.docs))
                && (writeFault.None? ==> r == Success(updated) && db.docs == old(db.docs)[FormatId(id) := updated])
      ensures old(Valid()) ==> Valid()
    {
      var fId := FormatId(id);
      var (todoStatus, ok) := StatusLookup(status);
      if !ok {
        assert todoStatus == "" && "Invalid status " + todoStatus == "Invalid status ";
        return Failure(Cause("Invalid status " + todoStatus));
      }
      var found := One(fId, readFault);
      if found.Failure? {
        return Failure(Wrapped("failed to update todo, not found", found.error));
      }
      var todo := found.value.(status := todoStatus, updatedDate := now);
      var e := db.JsonSet(fId, todo, writeFault);
      if e.Some? {
        return Failure(Wrapped("failed JSON.SET for todo", Cause(e.value)));
      }
      r := Success(todo);
    }

    /** Del: removes whatever is stored under the normalised id, returning the
        client's error unchanged. */
    method Del(id: string, fault: Fault) returns (err: Option<Error>)
      modifies db
      ensures db.indexes == old(db.indexes)
      ensures fault.None? ==> err == None && db.docs == old(db.docs) - {FormatId(id)}
      ensures fault.Some? ==> err == Some(Cause(fault.value)) && db.docs == old(db.docs)
      ensures old(Valid()) ==> Valid()
    {
      var fId := FormatId(id);
      var e := db.JsonDel(fId, fault);
      err := if e.Some? then Some(Cause(e.value)) else None;
    }

    /** DelAll: lists every todo, then deletes them one by one in the listed
        `order`, stopping at the first delete that fails. When none fails, no
        key under the prefix remains. */
    method DelAll(allFault: Fault, delFaults: map<string, string>) returns (err: Option<Error>, ghost order: seq<string>)
      modifies db
      ensures db.indexes == old(db.indexes)
      ensures allFault.Some? ==>
                err == Some(Wrapped("failed to find all todos", Cause(allFault.value))) && db.docs == old(db.docs)
      ensures allFault.None? && old(Valid()) ==>
                && Distinct(order) && Elems(order) == Covered(old(db.docs), TodoPrefix)
                && var n := FirstFault(order, delFaults);
                && db.docs == old(db.docs) - Elems(order[..n])
                && (n == |order| ==> err == None)
                && (n < |order| ==> err == Some(Wrapped("failed to delete todo", Cause(delFaults[order[n]]))))
      ensures allFault.None? && old(Valid()) && err == None ==> Covered(db.docs, TodoPrefix) == {}
      ensures old(Valid()) ==> Valid()
    {
      ghost var keys;
      var all, e;
      all, e, keys := All(allFault);
      order := keys;
      if e.Some? {
        return Some(Wrapped("failed to find all todos", e.value)), order;
      }
      var documents := all.documents;
      var i := 0;
      while i < |documents|
        invariant 0 <= i <= |documents|
        invariant old(Valid()) ==> order == DocumentIds(documents)
        invariant old(Valid()) ==> forall j :: 0 <= j < i ==> order[j] !in delFaults
        invariant old(Valid()) ==> db.docs == old(db.docs) - Elems(order[..i])
        invariant db.indexes == old(db.indexes)
        invariant old(Valid()) ==> Valid()
      {
        var key := documents[i].id;
        var d := Del(key, DelFault(delFaults, key));
        if d.Some? {
          if old(Valid()) {
            assert key in Elems(order);
            FirstFaultAt(order, delFaults, i);
          }
          return Some(Wrapped("failed to delete todo", d.value)), order;
        }
        if old(Valid()) {
          assert key in Elems(order);
          ElemsPrefixStep(order, i);
        }
        i := i + 1;
      }
      if old(Valid()) {
        assert order[..i] == order;
        FirstFaultAt(order, delFaults, i);
        RemoveCovered(old(db.docs), TodoPrefix, Elems(order));
      }
      err := None;
    }
  }
}
