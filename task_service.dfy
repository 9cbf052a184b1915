/** The task/category service layer (`TaskService`) over an abstract store:
    tasks keyed by id, and categories as a map from id to name. Each service
    call is one atomic step: either it commits, or it raises and the store is
    as it was. Generated UUIDs and the `uuid.UUID` text parser are
    parameters. */
module Service {
  import opened Http

  /** A task or category identifier (a UUID); only equality is used. */
  datatype Uuid = Uuid(bits: nat)

  /** A row of the tasks table. The service copies the request's values in
      without checking their JSON types, so the fields hold raw JSON. */
  datatype Task = Task(
    id: Uuid,
    description: Json,
    categoryId: Option<Uuid>,
    priority: Json,
    completed: Json)

  type Tasks = map<Uuid, Task>

  /** The categories table: id to name. */
  type Categories = map<Uuid, string>

  /** The names `seed_categories` makes sure exist, in the order it visits them. */
  const DefaultCategories: seq<string> :=
    ["Health", "Work", "Relationships", "Finance", "Personal Growth"]

  const MissingFieldsMessage := "Missing required fields: ['description']"
  const TaskNotFoundMessage := "Task not found"
  /** What `'description' in update_data` raises when the body is JSON null. */
  const NotIterableMessage := "argument of type 'NoneType' is not iterable"
  /** The store's refusal of a primary key already in use. */
  const DuplicateKeyMessage := "duplicate key value violates unique constraint"
  /** The store's refusal of a category_id naming no category. */
  const ForeignKeyMessage := "insert or update violates foreign key constraint"

  /** Every task is stored under its own id. */
  predicate KeyedById(tasks: Tasks)
  {
    forall k :: k in tasks ==> tasks[k].id == k
  }

  /** A category reference the store's foreign key accepts. */
  predicate CategoryExists(categoryId: Option<Uuid>, categories: Categories)
  {
    categoryId.None? || categoryId.value in categories
  }

  /** No two categories share a name. */
  predicate NamesUnique(categories: Categories)
  {
    forall a, b :: a in categories && b in categories && categories[a] == categories[b] ==> a == b
  }

  /** The store's invariant: tasks keyed by id, every category_id set
      refers to an existing category, and category names are unique. */
  predicate WellFormed(tasks: Tasks, categories: Categories)
  {
    KeyedById(tasks) &&
    (forall k :: k in tasks ==> CategoryExists(tasks[k].categoryId, categories)) &&
    NamesUnique(categories)
  }

  // ---------------------------------------------------------------- queries

  /** `get_all_tasks`: every stored task. The source gives no ORDER BY, so
      the result is a set. */
  function AllTasks(tasks: Tasks): (r: set<Task>)
    ensures forall id :: id in tasks ==> tasks[id] in r
    ensures KeyedById(tasks) ==> forall t :: t in r ==> t.id in tasks && tasks[t.id] == t
  {
    tasks.Values
  }

  /** `get_task_by_id`: the task stored under `id`, if any. */
  function TaskById(tasks: Tasks, id: Uuid): (r: Option<Task>)
    ensures r.Some? <==> id in tasks
    ensures r.Some? ==> r.value == tasks[id]
    ensures r.Some? ==> r.value in AllTasks(tasks)
    ensures KeyedById(tasks) && r.Some? ==> r.value.id == id
  {
    if id in tasks then Some(tasks[id]) else None
  }

  /** The task's category is called `name`; false for a task with no
      category (the query is an inner join). */
  predicate InCategory(t: Task, categories: Categories, name: string)
  {
    t.categoryId.Some? && t.categoryId.value in categories &&
    categories[t.categoryId.value] == name
  }

  /** `get_tasks_by_category`: the stored tasks whose category is named
      `name`. */
  function TasksInCategory(tasks: Tasks, categories: Categories, name: string): (r: set<Task>)
    ensures r <= AllTasks(tasks)
    ensures forall t :: t in r ==> t.categoryId.Some?
    ensures forall t :: t in AllTasks(tasks) ==> (t in r <==> InCategory(t, categories, name))
  {
    set t | t in tasks.Values && InCategory(t, categories, name)
  }

  /** A stored task is listed under exactly one name: its category's. */
  lemma CategorisedTaskListedOnce(tasks: Tasks, categories: Categories, id: Uuid, name: string)
    requires WellFormed(tasks, categories)
    requires id in tasks && tasks[id].categoryId.Some?
    ensures tasks[id] in TasksInCategory(tasks, categories, name)
            <==> name == categories[tasks[id].categoryId.value]
  {
  }

  /** Listing all tasks yields one task per stored id. */
  lemma {:induction false} AllTasksOnePerId(tasks: Tasks)
    requires KeyedById(tasks)
    ensures |AllTasks(tasks)| == |tasks|
    decreases |tasks|
  {
    if tasks != map[] {
      var k :| k in tasks;
      var rest := tasks - {k};
      AllTasksOnePerId(rest);
      assert tasks.Values == rest.Values + {tasks[k]} by {
        forall v | v in tasks.Values ensures v in rest.Values + {tasks[k]} {
          var j :| j in tasks && tasks[j] == v;
          if j != k {
            assert rest[j] == v;
          }
        }
      }
      assert tasks[k] !in rest.Values by {
        forall v | v in rest.Values ensures v != tasks[k] {
          var j :| j in rest && rest[j] == v;
          assert v.id == j != k;
        }
      }
      assert rest.Keys == tasks.Keys - {k};
    }
  }

  // ------------------------------------------------------------ task records

  /** The record `create_task` builds from `task_data` under the generated
      id, or the exception it raises before touching the store. Only the
      presence of `description` is checked: an empty or null description
      is accepted. */
  function NewTask(data: map<string, Json>, id: Uuid, parse: Json -> Result<Uuid>): (r: Result<Task>)
    ensures "description" !in data ==> r == Err(ValueError(MissingFieldsMessage))
    ensures r.Ok? <==>
              "description" in data &&
              ("category_id" in data ==> parse(data["category_id"]).Ok?)
    ensures "description" in data && r.Err? ==> "category_id" in data && parse(data["category_id"]) == Err(r.error)
    ensures r.Ok? ==> r.value.id == id && r.value.description == data["description"]
    ensures r.Ok? ==> (r.value.categoryId.None? <==> "category_id" !in data)
    ensures r.Ok? && "category_id" in data ==> Ok(r.value.categoryId.value) == parse(data["category_id"])
    ensures r.Ok? && "priority" !in data ==> r.value.priority == JInt(1)
    ensures r.Ok? && "priority" in data ==> r.value.priority == data["priority"]
    ensures r.Ok? && "completed" !in data ==> r.value.completed == JBool(false)
    ensures r.Ok? && "completed" in data ==> r.value.completed == data["completed"]
  {
    if "description" !in data then
      Err(ValueError(MissingFieldsMessage))
    else if "category_id" in data && parse(data["category_id"]).Err? then
      Err(parse(data["category_id"]).error)
    else
      var categoryId := if "category_id" in data then Some(parse(data["category_id"]).value) else None;
      Ok(Task(id, data["description"], categoryId,
              GetOr(data, "priority", JInt(1)), GetOr(data, "completed", JBool(false))))
  }

  /** The fields `update_task` may overwrite. */
  const UpdatableFields: set<string> := {"description", "category_id", "priority", "completed"}

  /** The task after `update_task` has applied `patch` to it: exactly the
      fields present in `patch` are overwritten, the rest and the id keep
      their values. Fails only when `category_id` is present and does not
      parse. */
  function Patched(t: Task, patch: map<string, Json>, parse: Json -> Result<Uuid>): (r: Result<Task>)
    ensures r.Err? <==> "category_id" in patch && parse(patch["category_id"]).Err?
    ensures r.Err? ==> parse(patch["category_id"]) == Err(r.error)
    ensures r.Ok? ==> r.value.id == t.id
    ensures r.Ok? ==> r.value.description == (if "description" in patch then patch["description"] else t.description)
    ensures r.Ok? ==> r.value.categoryId == (if "category_id" in patch then Some(parse(patch["category_id"]).value) else t.categoryId)
    ensures r.Ok? ==> r.value.priority == (if "priority" in patch then patch["priority"] else t.priority)
    ensures r.Ok? ==> r.value.completed == (if "completed" in patch then patch["completed"] else t.completed)
  {
    var description := GetOr(patch, "description", t.description);
    if "category_id" in patch && parse(patch["category_id"]).Err? then
      Err(parse(patch["category_id"]).error)
    else
      var categoryId := if "category_id" in patch then Some(parse(patch["category_id"]).value) else t.categoryId;
      Ok(t.(description := description,
            categoryId := categoryId,
            priority := GetOr(patch, "priority", t.priority),
            completed := GetOr(patch, "completed", t.completed)))
  }

  /** Keys other than the four updatable fields make no difference. */
  lemma PatchIgnoresOtherKeys(t: Task, patch: map<string, Json>, parse: Json -> Result<Uuid>)
    ensures Patched(t, patch, parse) == Patched(t, patch - (patch.Keys - UpdatableFields), parse)
  {
  }

  /** Applying the same patch twice is the same as applying it once. */
  lemma PatchIsIdempotent(t: Task, patch: map<string, Json>, parse: Json -> Result<Uuid>)
    requires Patched(t, patch, parse).Ok?
    ensures Patched(Patched(t, patch, parse).value, patch, parse) == Patched(t, patch, parse)
  {
  }

  /** A freshly created task, patched with the very data it was created
      from, is unchanged. */
  lemma PatchWithCreationDataIsNoop(data: map<string, Json>, id: Uuid, parse: Json -> Result<Uuid>)
    requires NewTask(data, id, parse).Ok?
    ensures Patched(NewTask(data, id, parse).value, data, parse) == NewTask(data, id, parse)
  {
  }

  // ---------------------------------------------------------------- seeding

  /** The categories after `seed_categories` has visited `names`, inserting
      each name not yet present under the next generated id from `ids`, or
      the store's refusal when such an id is already taken (the loop's
      inserts are then not committed). */
  function Seeded(categories: Categories, names: seq<string>, ids: seq<Uuid>): (r: Result<Categories>)
    requires |ids| == |names|
    ensures r.Err? ==> r == Err(IntegrityError(DuplicateKeyMessage))
    ensures r.Ok? ==> forall k :: k in categories ==> k in r.value && r.value[k] == categories[k]
    ensures r.Ok? ==> forall n :: n in names ==> n in r.value.Values
    ensures r.Ok? ==> forall k :: k in r.value && k !in categories ==>
                        r.value[k] in names && r.value[k] !in categories.Values
    decreases |names|
  {
    if names == [] then
      Ok(categories)
    else if names[0] in categories.Values then
      Seeded(categories, names[1..], ids[1..])
    else if ids[0] in categories then
      Err(IntegrityError(DuplicateKeyMessage))
    else
      var grown := categories[ids[0] := names[0]];
      assert categories.Values <= grown.Values by {
        forall n | n in categories.Values ensures n in grown.Values {
          var k :| k in categories && categories[k] == n;
          assert grown[k] == n;
        }
      }
      assert names[0] in grown.Values by { assert grown[ids[0]] == names[0]; }
      Seeded(grown, names[1..], ids[1..])
  }

  /** When every name is already present, seeding inserts nothing. */
  lemma {:induction false} SeedWithAllPresentIsNoop(categories: Categories, names: seq<string>, ids: seq<Uuid>)
    requires |ids| == |names|
    requires forall n :: n in names ==> n in categories.Values
    ensures Seeded(categories, names, ids) == Ok(categories)
    decreases |names|
  {
    if names != [] {
      assert names[0] in names;
      SeedWithAllPresentIsNoop(categories, names[1..], ids[1..]);
    }
  }

  /** Seeding is idempotent: a second run, with any generated ids, adds
      nothing. */
  lemma SeedIsIdempotent(categories: Categories, names: seq<string>, ids: seq<Uuid>, moreIds: seq<Uuid>)
    requires |ids| == |names| == |moreIds|
    requires Seeded(categories, names, ids).Ok?
    ensures Seeded(Seeded(categories, names, ids).value, names, moreIds) == Seeded(categories, names, ids)
  {
    SeedWithAllPresentIsNoop(Seeded(categories, names, ids).value, names, moreIds);
  }

  /** Seeding never inserts a name twice: names unique before stay unique. */
  lemma {:induction false} SeedKeepsNamesUnique(categories: Categories, names: seq<string>, ids: seq<Uuid>)
    requires |ids| == |names|
    requires NamesUnique(categories)
    requires Seeded(categories, names, ids).Ok?
    ensures NamesUnique(Seeded(categories, names, ids).value)
    decreases |names|
  {
    if names != [] {
      if names[0] in categories.Values {
        SeedKeepsNamesUnique(categories, names[1..], ids[1..]);
      } else {
        var grown := categories[ids[0] := names[0]];
        assert NamesUnique(grown);
        SeedKeepsNamesUnique(grown, names[1..], ids[1..]);
      }
    }
  }

  /** Inserting one entry adds at most its value to a map's values. */
  lemma ValuesAfterInsert(m: Categories, k: Uuid, v: string)
    ensures m[k := v].Values <= m.Values + {v}
  {
  }

  /** Distinct names none of which is present stay absent once the first
      of them is inserted. */
  lemma RestStillAbsent(categories: Categories, names: seq<string>, id: Uuid)
    requires names != []
    requires forall i, j :: 0 <= i < j < |names| ==> names[i] != names[j]
    requires forall n :: n in names ==> n !in categories.Values
    ensures forall n :: n in names[1..] ==> n !in categories[id := names[0]].Values
  {
    ValuesAfterInsert(categories, id, names[0]);
    forall n | n in names[1..] ensures n !in categories[id := names[0]].Values {
      var j :| 1 <= j < |names| && names[j] == n;
      assert names[0] != names[j];
      assert n in names;
    }
  }

  /** One step of the seeding loop on a name not yet present. */
  lemma SeedInsertStep(categories: Categories, names: seq<string>, ids: seq<Uuid>)
    requires |ids| == |names| && names != []
    requires names[0] !in categories.Values
    requires Seeded(categories, names, ids).Ok?
    ensures ids[0] !in categories
    ensures Seeded(categories, names, ids) == Seeded(categories[ids[0] := names[0]], names[1..], ids[1..])
  {
  }

  /** Distinct names none of which is present are each inserted once. */
  lemma {:induction false} SeedInsertsEachMissingName(categories: Categories, names: seq<string>, ids: seq<Uuid>)
    requires |ids| == |names|
    requires forall i, j :: 0 <= i < j < |names| ==> names[i] != names[j]
    requires forall n :: n in names ==> n !in categories.Values
    requires Seeded(categories, names, ids).Ok?
    ensures |Seeded(categories, names, ids).value| == |categories| + |names|
    decreases |names|
  {
    if names != [] {
      assert names[0] !in categories.Values by { assert names[0] in names; }
      SeedInsertStep(categories, names, ids);
      var grown := categories[ids[0] := names[0]];
      assert |grown| == |categories| + 1 by {
        assert grown.Keys == categories.Keys + {ids[0]};
      }
      RestStillAbsent(categories, names, ids[0]);
      assert forall i, j :: 0 <= i < j < |names[1..]| ==> names[1..][i] != names[1..][j] by {
        forall i, j | 0 <= i < j < |names[1..]| ensures names[1..][i] != names[1..][j] {
          assert names[1..][i] == names[i + 1] && names[1..][j] == names[j + 1];
        }
      }
      SeedInsertsEachMissingName(grown, names[1..], ids[1..]);
    }
  }

  /** Seeding fails only on an id collision: with distinct generated ids
      none of which is taken, it succeeds. */
  lemma {:induction false} SeedSucceedsWithFreshIds(categories: Categories, names: seq<string>, ids: seq<Uuid>)
    requires |ids| == |names|
    requires forall i, j :: 0 <= i < j < |ids| ==> ids[i] != ids[j]
    requires forall i :: 0 <= i < |ids| ==> ids[i] !in categories
    ensures Seeded(categories, names, ids).Ok?
    decreases |names|
  {
    if names != [] {
      var next := if names[0] in categories.Values then categories else categories[ids[0] := names[0]];
      assert forall i :: 0 <= i < |ids[1..]| ==> ids[1..][i] == ids[i + 1] && ids[0] != ids[i + 1];
      SeedSucceedsWithFreshIds(next, names[1..], ids[1..]);
    }
  }

  /** The five default names are distinct. */
  lemma DefaultCategoriesDistinct()
    ensures forall i, j :: 0 <= i < j < |DefaultCategories| ==> DefaultCategories[i] != DefaultCategories[j]
  {
  }

  /** On an empty categories table, with distinct generated ids, seeding
      once leaves exactly the five default categories, and seeding again
      changes nothing. */
  lemma SeedTwiceFromEmpty(ids: seq<Uuid>, moreIds: seq<Uuid>)
    requires |ids| == |moreIds| == |DefaultCategories|
    requires forall i, j :: 0 <= i < j < |ids| ==> ids[i] != ids[j]
    ensures Seeded(map[], DefaultCategories, ids).Ok?
    ensures |Seeded(map[], DefaultCategories, ids).value| == 5
    ensures Seeded(Seeded(map[], DefaultCategories, ids).value, DefaultCategories, moreIds)
            == Seeded(map[], DefaultCategories, ids)
  {
    SeedSucceedsWithFreshIds(map[], DefaultCategories, ids);
    DefaultCategoriesDistinct();
    SeedInsertsEachMissingName(map[], DefaultCategories, ids);
    SeedIsIdempotent(map[], DefaultCategories, ids, moreIds);
  }

  // ---------------------------------------------------------------- service

  /** The service with the store it writes through. */
  class TaskService {
    var tasks: Tasks
    var categories: Categories

    ghost predicate Valid()
      reads this
    {
      WellFormed(tasks, categories)
    }

    /** An empty store. The source has no such step (the store is the
        database); this only shows that `Valid()` can be established. */
    constructor ()
      ensures Valid() && tasks == map[] && categories == map[]
    {
      tasks := map[];
      categories := map[];
    }

    /** `create_task`: build the record, then insert it under `newId`, the
        UUID generated for it. A taken id or an unknown category makes the
        commit fail and nothing is stored. */
    method CreateTask(data: map<string, Json>, newId: Uuid, parse: Json -> Result<Uuid>) returns (r: Result<Task>)
      requires Valid()
      modifies this
      ensures Valid() && categories == old(categories)
      ensures r.Err? ==> tasks == old(tasks)
      ensures NewTask(data, newId, parse).Err? ==> r == NewTask(data, newId, parse)
      ensures NewTask(data, newId, parse).Ok? && newId in old(tasks) ==>
                r == Err(IntegrityError(DuplicateKeyMessage))
      ensures r.Ok? <==>
                NewTask(data, newId, parse).Ok? && newId !in old(tasks) &&
                CategoryExists(NewTask(data, newId, parse).value.categoryId, categories)
      ensures NewTask(data, newId, parse).Ok? && newId !in old(tasks) &&
              !CategoryExists(NewTask(data, newId, parse).value.categoryId, categories) ==>
                r == Err(IntegrityError(ForeignKeyMessage))
      ensures r.Ok? ==> r == NewTask(data, newId, parse) && tasks == old(tasks)[newId := r.value]
      ensures r.Ok? ==> |tasks| == |old(tasks)| + 1 && TaskById(tasks, newId) == Some(r.value)
      ensures r.Ok? ==> forall id :: id in old(tasks) ==> id in tasks && tasks[id] == old(tasks)[id]
    {
      r := NewTask(data, newId, parse);
      if r.Err? {
        return;
      }
      if newId in tasks {
        r := Err(IntegrityError(DuplicateKeyMessage));
        return;
      }
      if !CategoryExists(r.value.categoryId, categories) {
        r := Err(IntegrityError(ForeignKeyMessage));
        return;
      }
      tasks := tasks[newId := r.value];
    }

    /** `update_task`: overwrite the fields present in `data` on the task
        stored under `id`. `data` is None when the request body was JSON
        null. */
    method UpdateTask(id: Uuid, data: Option<map<string, Json>>, parse: Json -> Result<Uuid>) returns (r: Result<Task>)
      requires Valid()
      modifies this
      ensures Valid() && categories == old(categories)
      ensures r.Err? ==> tasks == old(tasks)
      ensures id !in old(tasks) ==> r == Err(ValueError(TaskNotFoundMessage))
      ensures id in old(tasks) && data.None? ==> r == Err(TypeError(NotIterableMessage))
      ensures id in old(tasks) && data.Some? && Patched(old(tasks)[id], data.value, parse).Err? ==>
                r == Patched(old(tasks)[id], data.value, parse)
      ensures r.Ok? <==>
                id in old(tasks) && data.Some? && Patched(old(tasks)[id], data.value, parse).Ok? &&
                CategoryExists(Patched(old(tasks)[id], data.value, parse).value.categoryId, categories)
      ensures id in old(tasks) && data.Some? && Patched(old(tasks)[id], data.value, parse).Ok? &&
              !CategoryExists(Patched(old(tasks)[id], data.value, parse).value.categoryId, categories) ==>
                r == Err(IntegrityError(ForeignKeyMessage))
      ensures r.Ok? ==> r == Patched(old(tasks)[id], data.value, parse)
      ensures r.Ok? ==> tasks == old(tasks)[id := r.value] && TaskById(tasks, id) == Some(r.value)
    {
      if id !in tasks {
        return Err(ValueError(TaskNotFoundMessage));
      }
      if data.None? {
        return Err(TypeError(NotIterableMessage));
      }
      r := Patched(tasks[id], data.value, parse);
      if r.Err? {
        return;
      }
      if !CategoryExists(r.value.categoryId, categories) {
        return Err(IntegrityError(ForeignKeyMessage));
      }
      tasks := tasks[id := r.value];
    }

    /** `delete_task`: remove the task stored under `id`. */
    method DeleteTask(id: Uuid) returns (r: Result<()>)
      requires Valid()
      modifies this
      ensures Valid() && categories == old(categories)
      ensures r.Ok? <==> id in old(tasks)
      ensures r.Err? ==> r == Err(ValueError(TaskNotFoundMessage)) && tasks == old(tasks)
      ensures r.Ok? ==> tasks == old(tasks) - {id} && TaskById(tasks, id).None?
      ensures r.Ok? ==> |tasks| == |old(tasks)| - 1
    {
      if id !in tasks {
        return Err(ValueError(TaskNotFoundMessage));
      }
      tasks := tasks - {id};
      r := Ok(());
    }

    /** `seed_categories`: for each default name, insert a category unless
        one with that name exists; commit once at the end. `ids` are the
        UUIDs generated for the inserts, one per default name. */
    method SeedCategories(ids: seq<Uuid>) returns (r: Result<()>)
      requires Valid() && |ids| == |DefaultCategories|
      modifies this
      ensures Valid() && tasks == old(tasks)
      ensures r.Ok? <==> Seeded(old(categories), DefaultCategories, ids).Ok?
      ensures r.Ok? ==> categories == Seeded(old(categories), DefaultCategories, ids).value
      ensures r.Ok? ==> forall n :: n in DefaultCategories ==> n in categories.Values
      ensures NamesUnique(categories)
      ensures r.Err? ==> r == Err(IntegrityError(DuplicateKeyMessage)) && categories == old(categories)
    {
      var names := DefaultCategories;
      var pending := categories;
      var i := 0;
      while i < |names|
        invariant 0 <= i <= |names|
        invariant Seeded(categories, names, ids) == Seeded(pending, names[i..], ids[i..])
      {
        assert names[i..][1..] == names[i + 1..] && ids[i..][1..] == ids[i + 1..];
        if names[i] !in pending.Values {
          if ids[i] in pending {
            return Err(IntegrityError(DuplicateKeyMessage));
          }
          pending := pending[ids[i] := names[i]];
        }
        i := i + 1;
      }
      assert names[i..] == [];
      SeedKeepsNamesUnique(categories, names, ids);
      categories := pending;
      r := Ok(());
    }
  }
}
