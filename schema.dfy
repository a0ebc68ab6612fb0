/** What every variant of the todo store agrees on: the key prefix, the index
    name, the closed table of status labels, id normalisation and the search
    query built from the indexed fields. The source keeps three copies of
    `formatId` and of the query building (one per variant). They are the same
    code apart from formatId's error branch, which is unreachable with its
    constant pattern, so they are modelled once here. */
module Schema {

  /** The name of the search index over todos. */
  const TodoIndex: string := "todos-idx"

  /** The key prefix under which todos are stored, and the index's scope. */
  const TodoPrefix: string := "todos:"

  /** The three status values a todo can have. */
  const NotStarted: string := "todo"
  const InProgress: string := "in progress"
  const Complete: string := "complete"

  /** The status table: the labels a caller may send, each mapped to its status. */
  const TodoStatusMap: map<string, string> :=
    map["todo" := NotStarted, "in progress" := InProgress, "complete" := Complete]

  /** The pattern `^todos:` matches: the id carries the prefix. */
  predicate HasPrefix(id: string) {
    TodoPrefix <= id
  }

  /** formatId: ids that carry the prefix pass unchanged, all others get it
      prepended, so every result is a key inside the index's scope. */
  function FormatId(id: string): (r: string)
    ensures HasPrefix(r)
    ensures HasPrefix(id) ==> r == id
    ensures !HasPrefix(id) ==> r == TodoPrefix + id && |r| == |TodoPrefix| + |id|
  {
    if HasPrefix(id) then id else TodoPrefix + id
  }

  /** Normalisation is idempotent: a normalised id is its own normal form. */
  lemma FormatIdIdempotent(id: string)
    ensures FormatId(FormatId(id)) == FormatId(id)
  {
  }

  /** An id without the prefix and the same id with it name the same record,
      and normalisation never maps two different bare ids to one key. */
  lemma FormatIdAliases(a: string, b: string)
    requires !HasPrefix(a) && !HasPrefix(b)
    ensures FormatId(a) == FormatId(TodoPrefix + a)
    ensures FormatId(a) == FormatId(b) <==> a == b
  {
    assert HasPrefix(TodoPrefix + a);
    if FormatId(a) == FormatId(b) {
      assert a == FormatId(a)[|TodoPrefix|..];
      assert b == FormatId(b)[|TodoPrefix|..];
    }
  }

  /** Go's `todoStatus, ok := TodoStatusMap[statusLabel]`: the mapped status and
      true for a known label, the zero value "" and false otherwise. The table
      is closed: exactly the three labels are known, and each maps to the
      status spelled the same way. */
  function StatusLookup(statusLabel: string): (r: (string, bool))
    ensures r.1 <==> statusLabel == "todo" || statusLabel == "in progress" || statusLabel == "complete"
    ensures r.1 ==> r.0 == statusLabel
    ensures !r.1 ==> r.0 == ""
  {
    if statusLabel in TodoStatusMap then (TodoStatusMap[statusLabel], true) else ("", false)
  }

  /** strings.Join: the parts separated by `sep`. */
  function Join(parts: seq<string>, sep: string): (joined: string)
  {
    if |parts| == 0 then ""
    else if |parts| == 1 then parts[0]
    else parts[0] + sep + Join(parts[1..], sep)
  }

  /** The clauses of a search: `@name:` for a non-empty name, then `@status:`
      for a non-empty status. */
  function Clauses(name: string, status: string): (clauses: seq<string>)
  {
    (if |name| > 0 then ["@name:" + name] else [])
    + (if |status| > 0 then ["@status:" + status] else [])
  }

  /** The query string Search sends to FT.SEARCH: empty exactly when neither
      field is given, since every clause starts with `@`. */
  function SearchQuery(name: string, status: string): (query: string)
    ensures query == "" <==> |name| == 0 && |status| == 0
    ensures query != "" ==> query[0] == '@'
  {
    Join(Clauses(name, status), " ")
  }

  /** The query holds the name clause when a name is given and the status
      clause when a status is given, in that order, separated by one space,
      and is empty when neither is given. */
  lemma SearchQueryShape(name: string, status: string)
    ensures |name| == 0 && |status| == 0 ==> SearchQuery(name, status) == ""
    ensures |name| > 0 && |status| == 0 ==> SearchQuery(name, status) == "@name:" + name
    ensures |name| == 0 && |status| > 0 ==> SearchQuery(name, status) == "@status:" + status
    ensures |name| > 0 && |status| > 0 ==>
              SearchQuery(name, status) == "@name:" + name + " " + "@status:" + status
  {
    if |name| > 0 && |status| > 0 {
      assert Clauses(name, status) == ["@name:" + name, "@status:" + status];
      assert Join(Clauses(name, status)[1..], " ") == "@status:" + status;
    }
  }

  /** A non-empty query begins with a field clause, and it begins with the
      name clause exactly when a name is given. This fixes only how the query
      starts: the values are sent unescaped, so a value holding a space or
      `@status:` reads as further terms (see SearchQueryValuesUnescaped). */
  lemma {:induction false} JoinedClausesStart(name: string, status: string)
    requires |name| > 0 || |status| > 0
    ensures "@name:" <= SearchQuery(name, status) || "@status:" <= SearchQuery(name, status)
    ensures |name| > 0 <==> "@name:" <= SearchQuery(name, status)
  {
    SearchQueryShape(name, status);
    if |name| == 0 {
      assert SearchQuery(name, status)[1] == 's';
    }
  }

  /** The name and status are put into the query as they are, not escaped:
      a name that itself holds a status clause yields the same query as that
      name and status given separately, so the query does not determine the
      fields it was built from. */
  lemma SearchQueryValuesUnescaped()
    ensures SearchQuery("x @status:done", "") == SearchQuery("x", "done")
    ensures SearchQuery("x @status:done", "") == "@name:x @status:done"
  {
    SearchQueryShape("x @status:done", "");
    SearchQueryShape("x", "done");
  }
}
