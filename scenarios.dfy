/** The repository's test scenarios, and the create-update-delete walk through
    the component store, replayed against the models: what each step returns
    follows from the contracts alone. Each scenario starts from an empty
    server with the index in place; clock readings are parameters. */
module Scenarios {

  import opened Wrappers
  import opened Schema
  import opened Redis
  import opened Errors
  import ComponentStore
  import TodoRecords
  import LegacyStore
  import Repository
  import Service

  /** A store whose index exists and which holds no todos. */
  method FreshLegacyStore() returns (store: LegacyStore.Store)
    ensures fresh(store.db) && store.db.docs == map[] && store.HaveIndex()
  {
    var db := new Db<TodoRecords.Todo>();
    store := new LegacyStore.Store(db);
    var _ := store.CreateIndexIfNotExists(None);
  }

  /** Create, read back, complete and delete one todo through the older
      store. The read returns what was created; the update keeps the creation
      time and is not earlier than it; after the delete a read still succeeds,
      with the zero todo, since this store has no not-found check. */
  method LegacyCrud(t0: nat, t1: nat)
    returns (created: Result<TodoRecords.Todo, Error>, read: Result<TodoRecords.Todo, Error>,
             updated: Result<TodoRecords.Todo, Error>, afterDelete: Result<TodoRecords.Todo, Error>)
    requires t0 <= t1
    ensures created == Success(TodoRecords.Todo("todos:abc123", "Take out the trash", "todo", t0, t0))
    ensures read == created
    ensures updated == Success(TodoRecords.Todo("todos:abc123", "Take out the trash", "complete", t0, t1))
    ensures updated.value.createdDate <= updated.value.updatedDate
    ensures afterDelete == Success(TodoRecords.Todo("todos:abc123", "", "", 0, 0))
  {
    var store := FreshLegacyStore();
    assert HasPrefix("todos:abc123");
    created := store.Create("todos:abc123", "Take out the trash", t0, None);
    read := store.One(created.value.id, None);
    updated := store.Update("todos:abc123", "complete", t1, None, None);
    var _ := store.Del(updated.value.id, None);
    afterDelete := store.One("todos:abc123", None);
  }

  /** Three todos created under distinct ids are listed with total and
      length three, and every listed name is one of the names created. */
  method LegacyListThree(now: nat) returns (all: TodoRecords.Todos)
    ensures all.total == |all.documents| == 3
    ensures forall d :: d in all.documents ==> d.name in Names
  {
    var store := FreshLegacyStore();
    assert FormatId("0") == "todos:0" && FormatId("1") == "todos:1" && FormatId("2") == "todos:2";
    var _ := store.Create("0", Names[0], now, None);
    var _ := store.Create("1", Names[1], now, None);
    var _ := store.Create("2", Names[2], now, None);
    assert forall k :: k in store.db.docs ==> store.db.docs[k].name in Names;
    CoveredThree(store.db.docs);
    ghost var keys;
    var err;
    all, err, keys := store.All(None);
    forall d | d in all.documents
      ensures d.name in Names
    {
      var i :| 0 <= i < |all.documents| && all.documents[i] == d;
    }
  }

  /** The names the listing scenario creates. */
  const Names: seq<string> := ["Take out the trash", "Vacuum downstairs", "Fold the laundry"]

  /** Three distinct keys under the prefix are three covered keys. */
  lemma CoveredThree(docs: map<string, TodoRecords.Todo>)
    requires docs.Keys == {"todos:0", "todos:1", "todos:2"}
    ensures |Covered(docs, TodoPrefix)| == 3
  {
    assert Covered(docs, TodoPrefix) == docs.Keys;
    assert "todos:0" != "todos:1" by { assert "todos:0"[6] != "todos:1"[6]; }
    assert "todos:0" != "todos:2" by { assert "todos:0"[6] != "todos:2"[6]; }
    assert "todos:1" != "todos:2" by { assert "todos:1"[6] != "todos:2"[6]; }
  }

  /** Create, read back, complete and delete one todo through the service and
      the repository: the id that already carries the prefix is kept. */
  method ServiceCrud(t0: nat, t1: nat)
    returns (created: Result<TodoRecords.Todo, Error>, read: Result<TodoRecords.Todo, Error>,
             updated: Result<TodoRecords.Todo, Error>)
    requires t0 <= t1
    ensures created == Success(TodoRecords.Todo("todos:abc123", "Take out the trash", "todo", t0, t0))
    ensures read == created
    ensures updated == Success(TodoRecords.Todo("todos:abc123", "Take out the trash", "complete", t0, t1))
    ensures updated.value.createdDate <= updated.value.updatedDate
  {
    var db := new Db<TodoRecords.Todo>();
    var repository := new Repository.TodosRepository(db);
    var _ := repository.CreateIndexIfNotExists(None);
    var service := new Service.TodosService(repository);
    assert HasPrefix("todos:abc123");
    created := service.Create("todos:abc123", "Take out the trash", t0, None);
    read := service.One(created.value.id, None);
    updated := service.Update("todos:abc123", "complete", t1, None, None);
    var _ := service.Del(updated.value.id, None);
  }

  /** Create "abc123", complete it later, delete it: the key gains the prefix,
      the update is strictly later than the creation, and a read after the
      delete is NotFound. */
  method ComponentCrud(t0: nat, t1: nat, token: string)
    returns (created: Result<ComponentStore.TodoDocument, TodoError>,
             updated: Result<ComponentStore.Todo, TodoError>,
             afterDelete: Result<ComponentStore.Todo, TodoError>)
    requires t0 < t1
    requires ComponentStore.IsUuidText(token)
    ensures created == Success(ComponentStore.TodoDocument("todos:abc123",
                                 ComponentStore.Todo("Take out the trash", "todo", t0, t0)))
    ensures updated == Success(ComponentStore.Todo("Take out the trash", "complete", t0, t1))
    ensures updated.value.createdDate < updated.value.updatedDate
    ensures afterDelete == Failure(TodoError(NotFound, "todo not found", None))
  {
    var db := new Db<ComponentStore.Todo>();
    var store := new ComponentStore.TodoStore(db);
    var _ := store.CreateIndexIfNotExists(None);
    assert !HasPrefix("abc123") by {
      assert "abc123"[0] != TodoPrefix[0];
    }
    assert ComponentStore.CreateKey("abc123", token) == "todos:abc123";
    created := store.Create("abc123", "Take out the trash", t0, token, None);
    updated := store.Update("abc123", "complete", t1, None, None);
    var _ := store.Del("abc123", None);
    afterDelete := store.One("todos:abc123", None);
  }
}
