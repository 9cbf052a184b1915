/** The task route handlers under /api/tasks. Each handler is a decision
    from the request body and what the service returned or raised to a
    (status, JSON body) pair; `toDict` stands for `Task.to_dict`, whose
    definition is not part of this model. The methods at the end wire each
    decision to the service call it makes. */
module Routes {
  import opened Http
  import opened Service

  const DescriptionRequiredMessage := "Description is required"
  const TaskDeletedMessage := "Task deleted"

  /** `get_tasks`: 200 and one dictionary per task the service listed, in
      the order it listed them. */
  function GetTasksResponse(tasks: seq<Task>, toDict: Task -> Json): (r: Response)
    ensures r.status == 200 && r.body.JList? && |r.body.items| == |tasks|
    ensures forall i :: 0 <= i < |tasks| ==> r.body.items[i] == toDict(tasks[i])
  {
    Response(200, JList(MapList(tasks, toDict)))
  }

  /** The dictionary `create_task` hands to the service, or None when it
      answers 400 itself. Only `description`, `category` and `priority`
      are forwarded: never `category_id`, never `completed`. */
  function CreateRequest(data: Option<map<string, Json>>): (r: Option<map<string, Json>>)
    ensures r.None? <==> data.None? || "description" !in data.value
    ensures r.Some? ==> r.value.Keys == {"description", "category", "priority"}
    ensures r.Some? ==> r.value["description"] == data.value["description"]
    ensures r.Some? ==> r.value["category"] == GetOr(data.value, "category", JNull)
    ensures r.Some? ==> r.value["priority"] == GetOr(data.value, "priority", JInt(1))
  {
    // `not data` holds for a JSON null body and for an empty object; neither has a description
    if data.None? || "description" !in data.value then None
    else
      Some(map[
        "description" := data.value["description"],
        "category" := GetOr(data.value, "category", JNull),
        "priority" := GetOr(data.value, "priority", JInt(1))])
  }

  /** `create_task`: 400 without a description, whatever the service would
      have done; otherwise 201 with the created task, or 500 with the
      message of whatever the service raised. */
  function CreateTaskResponse(data: Option<map<string, Json>>, outcome: Result<Task>, toDict: Task -> Json): (r: Response)
    ensures CreateRequest(data).None? ==> r == Response(400, ErrorBody(DescriptionRequiredMessage))
    ensures CreateRequest(data).Some? ==> (r.status == 201 <==> outcome.Ok?)
    ensures CreateRequest(data).Some? && outcome.Ok? ==> r.body == toDict(outcome.value)
    ensures CreateRequest(data).Some? && outcome.Err? ==> r == Response(500, ErrorBody(outcome.error.message))
  {
    if CreateRequest(data).None? then Response(400, ErrorBody(DescriptionRequiredMessage))
    else match outcome
      case Ok(task) => Response(201, toDict(task))
      case Err(e) => Response(500, ErrorBody(e.message))
  }

  /** Whatever the body, a task created through the route has no category
      and is not completed, and the service's own presence check and the
      category parse never fail on what the route forwards. */
  lemma RouteCreatesUncategorisedOpenTask(data: Option<map<string, Json>>, id: Uuid, parse: Json -> Result<Uuid>)
    requires CreateRequest(data).Some?
    ensures NewTask(CreateRequest(data).value, id, parse)
            == Ok(Task(id, data.value["description"], None, GetOr(data.value, "priority", JInt(1)), JBool(false)))
  {
  }

  /** `get_task`: 404 when the service found nothing, 200 with the task
      otherwise. */
  function GetTaskResponse(found: Option<Task>, toDict: Task -> Json): (r: Response)
    ensures r.status == 404 <==> found.None?
    ensures found.None? ==> r.body == ErrorBody(TaskNotFoundMessage)
    ensures found.Some? ==> r == Response(200, toDict(found.value))
  {
    match found
    case None => Response(404, ErrorBody(TaskNotFoundMessage))
    case Some(task) => Response(200, toDict(task))
  }

  /** `update_task`: 200 with the updated task; a ValueError (unknown id,
      or a malformed category_id) is 404; any other exception is 500. The
      error body carries the exception's message. */
  function UpdateTaskResponse(outcome: Result<Task>, toDict: Task -> Json): (r: Response)
    ensures r.status == 200 <==> outcome.Ok?
    ensures r.status == 404 <==> outcome.Err? && outcome.error.ValueError?
    ensures r.status == 500 <==> outcome.Err? && !outcome.error.ValueError?
    ensures outcome.Ok? ==> r.body == toDict(outcome.value)
    ensures outcome.Err? ==> r.body == ErrorBody(outcome.error.message)
  {
    match outcome
    case Ok(task) => Response(200, toDict(task))
    case Err(ValueError(message)) => Response(404, ErrorBody(message))
    case Err(e) => Response(500, ErrorBody(e.message))
  }

  /** `delete_task`: 200 with a confirmation; a ValueError is 404; any
      other exception is 500. */
  function DeleteTaskResponse(outcome: Result<()>): (r: Response)
    ensures r.status == 200 <==> outcome.Ok?
    ensures r.status == 404 <==> outcome.Err? && outcome.error.ValueError?
    ensures r.status == 500 <==> outcome.Err? && !outcome.error.ValueError?
    ensures outcome.Ok? ==> r.body == JObject(map["message" := JStr(TaskDeletedMessage)])
    ensures outcome.Err? ==> r.body == ErrorBody(outcome.error.message)
  {
    match outcome
    case Ok(_) => Response(200, JObject(map["message" := JStr(TaskDeletedMessage)]))
    case Err(ValueError(message)) => Response(404, ErrorBody(message))
    case Err(e) => Response(500, ErrorBody(e.message))
  }

  // ------------------------------------------- handlers wired to the service

  /** GET /api/tasks/: `listed` is the list `get_all_tasks` returned, in
      whatever order the database produced; it holds each stored task once.
      The answer has one dictionary per stored task. */
  method GetTasks(service: TaskService, listed: seq<Task>, toDict: Task -> Json) returns (r: Response)
    requires service.Valid()
    requires multiset(listed) == multiset(AllTasks(service.tasks))
    ensures r.status == 200 && r.body.JList? && |r.body.items| == |service.tasks|
    ensures forall id :: id in service.tasks ==> toDict(service.tasks[id]) in r.body.items
    ensures forall i :: 0 <= i < |r.body.items| ==> exists id :: id in service.tasks && r.body.items[i] == toDict(service.tasks[id])
  {
    AllTasksOnePerId(service.tasks);
    assert |listed| == |multiset(listed)| == |multiset(AllTasks(service.tasks))| == |AllTasks(service.tasks)|;
    r := GetTasksResponse(listed, toDict);
    forall id | id in service.tasks
      ensures toDict(service.tasks[id]) in r.body.items
    {
      assert service.tasks[id] in multiset(listed);
      var i :| 0 <= i < |listed| && listed[i] == service.tasks[id];
      assert r.body.items[i] == toDict(service.tasks[id]);
    }
    forall i | 0 <= i < |r.body.items|
      ensures exists id :: id in service.tasks && r.body.items[i] == toDict(service.tasks[id])
    {
      assert listed[i] in multiset(listed);
      assert listed[i] in AllTasks(service.tasks);
      assert service.tasks[listed[i].id] == listed[i];
    }
  }

  /** POST /api/tasks/: a request without a description never reaches the
      store; one with a description creates an uncategorised, open task
      unless the generated id is taken. */
  method CreateTask(service: TaskService, data: Option<map<string, Json>>, newId: Uuid,
                    parse: Json -> Result<Uuid>, toDict: Task -> Json) returns (r: Response)
    requires service.Valid()
    modifies service
    ensures service.Valid() && service.categories == old(service.categories)
    ensures CreateRequest(data).None? ==>
              r == Response(400, ErrorBody(DescriptionRequiredMessage)) && service.tasks == old(service.tasks)
    ensures CreateRequest(data).Some? ==> (r.status == 201 <==> newId !in old(service.tasks))
    ensures CreateRequest(data).Some? && newId in old(service.tasks) ==>
              r == Response(500, ErrorBody(DuplicateKeyMessage))
    ensures r.status == 201 ==>
              newId in service.tasks &&
              service.tasks == old(service.tasks)[newId := service.tasks[newId]] &&
              service.tasks[newId].description == data.value["description"] &&
              service.tasks[newId].priority == GetOr(data.value, "priority", JInt(1)) &&
              service.tasks[newId].categoryId.None? &&
              service.tasks[newId].completed == JBool(false) &&
              r.body == toDict(service.tasks[newId])
    ensures r.status != 201 ==> service.tasks == old(service.tasks)
  {
    var request := CreateRequest(data);
    if request.None? {
      return Response(400, ErrorBody(DescriptionRequiredMessage));
    }
    RouteCreatesUncategorisedOpenTask(data, newId, parse);
    var outcome := service.CreateTask(request.value, newId, parse);
    r := CreateTaskResponse(data, outcome, toDict);
  }

  /** GET /api/tasks/<id>. */
  method GetTask(service: TaskService, id: Uuid, toDict: Task -> Json) returns (r: Response)
    requires service.Valid()
    ensures r.status == 404 <==> id !in service.tasks
    ensures id !in service.tasks ==> r == Response(404, ErrorBody(TaskNotFoundMessage))
    ensures id in service.tasks ==> r == Response(200, toDict(service.tasks[id]))
  {
    r := GetTaskResponse(TaskById(service.tasks, id), toDict);
  }

  /** PUT /api/tasks/<id>: 404 for an unknown id; 200 with the task after
      the fields in the body were overwritten. */
  method UpdateTask(service: TaskService, id: Uuid, data: Option<map<string, Json>>,
                    parse: Json -> Result<Uuid>, toDict: Task -> Json) returns (r: Response)
    requires service.Valid()
    modifies service
    ensures service.Valid() && service.categories == old(service.categories)
    ensures id !in old(service.tasks) ==>
              r == Response(404, ErrorBody(TaskNotFoundMessage)) && service.tasks == old(service.tasks)
    ensures id in old(service.tasks) && data.None? ==>
              r == Response(500, ErrorBody(NotIterableMessage)) && service.tasks == old(service.tasks)
    ensures r.status == 200 ==>
              id in old(service.tasks) && data.Some? && Patched(old(service.tasks)[id], data.value, parse).Ok? &&
              service.tasks == old(service.tasks)[id := Patched(old(service.tasks)[id], data.value, parse).value] &&
              r.body == toDict(service.tasks[id])
    ensures r.status == 200 <==>
              id in old(service.tasks) && data.Some? && Patched(old(service.tasks)[id], data.value, parse).Ok? &&
              CategoryExists(Patched(old(service.tasks)[id], data.value, parse).value.categoryId, old(service.categories))
    ensures id in old(service.tasks) && data.Some? && Patched(old(service.tasks)[id], data.value, parse).Err? ==>
              r == UpdateTaskResponse(Patched(old(service.tasks)[id], data.value, parse), toDict)
    ensures id in old(service.tasks) && data.Some? && Patched(old(service.tasks)[id], data.value, parse).Ok? &&
            !CategoryExists(Patched(old(service.tasks)[id], data.value, parse).value.categoryId, old(service.categories)) ==>
              r == Response(500, ErrorBody(ForeignKeyMessage))
    ensures r.status != 200 ==> service.tasks == old(service.tasks)
  {
    var outcome := service.UpdateTask(id, data, parse);
    r := UpdateTaskResponse(outcome, toDict);
  }

  /** DELETE /api/tasks/<id>: 200 and the task is gone, or 404 and nothing
      changed. */
  method DeleteTask(service: TaskService, id: Uuid) returns (r: Response)
    requires service.Valid()
    modifies service
    ensures service.Valid() && service.categories == old(service.categories)
    ensures r.status == 200 <==> id in old(service.tasks)
    ensures r.status == 200 ==> service.tasks == old(service.tasks) - {id}
    ensures r.status != 200 ==>
              r == Response(404, ErrorBody(TaskNotFoundMessage)) && service.tasks == old(service.tasks)
  {
    var outcome := service.DeleteTask(id);
    r := DeleteTaskResponse(outcome);
  }
}
