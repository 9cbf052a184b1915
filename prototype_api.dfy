/** The serverless prototype's /api/tasks endpoint: a process-wide list of
    task dictionaries that POST appends to and GET returns whole. */
module PrototypeApi {
  import opened Http

  /** One stored dictionary: {'id', 'description', 'created_at'}. */
  datatype Entry = Entry(id: int, description: Json, createdAt: string)

  const SavedMessage := "Task saved"
  /** The placeholder stored as every entry's `created_at`. */
  const CreatedAtPlaceholder := "now"

  /** The JSON form of an entry. */
  function EntryJson(e: Entry): (j: Json)
  {
    JObject(map["id" := JInt(e.id), "description" := e.description, "created_at" := JStr(e.createdAt)])
  }

  /** Ids are 1, 2, ..., n in list order; such ids are therefore unique. */
  predicate NumberedInOrder(entries: seq<Entry>)
    ensures NumberedInOrder(entries) ==>
              forall i, j :: 0 <= i < |entries| && 0 <= j < |entries| && entries[i].id == entries[j].id ==> i == j
  {
    forall i :: 0 <= i < |entries| ==> entries[i].id == i + 1
  }

  /** The `tasks_storage` list. */
  class TaskStorage {
    var entries: seq<Entry>

    ghost predicate Valid()
      reads this
    {
      NumberedInOrder(entries)
    }

    /** The list as the module starts it: empty. */
    constructor ()
      ensures Valid() && entries == []
    {
      entries := [];
    }

    /** POST: append {'id': len + 1, 'description': the body's `task`
        (null when absent), 'created_at': 'now'} and answer 200. */
    method Post(body: map<string, Json>) returns (r: Response)
      requires Valid()
      modifies this
      ensures Valid()
      ensures |entries| == |old(entries)| + 1 && entries[..|old(entries)|] == old(entries)
      ensures entries[|entries| - 1] == Entry(|old(entries)| + 1, GetOr(body, "task", JNull), CreatedAtPlaceholder)
      ensures r == Response(200, JObject(map["status" := JStr(SavedMessage)]))
    {
      var task := GetOr(body, "task", JNull);
      var entry := Entry(|entries| + 1, task, CreatedAtPlaceholder);
      entries := entries + [entry];
      r := Response(200, JObject(map["status" := JStr(SavedMessage)]));
    }

    /** GET: 200 and the whole list, unmodified and in insertion order. */
    function Get(): (r: Response)
      reads this
      ensures r.status == 200 && r.body.JObject? && r.body.fields.Keys == {"tasks"}
      ensures r.body.fields["tasks"].JList? && |r.body.fields["tasks"].items| == |entries|
      ensures forall i :: 0 <= i < |entries| ==> r.body.fields["tasks"].items[i] == EntryJson(entries[i])
    {
      Response(200, JObject(map["tasks" := JList(MapList(entries, EntryJson))]))
    }
  }
}
