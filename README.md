# LifeTriage task service: a verified model

LifeTriage is a small task tracker. Clients create, list, update and delete
tasks through an HTTP JSON API. Each task may be assigned to one category.
This project models three parts of it in Dafny and proves their contracts:

- **`Service`** (`task_service.dfy`) models the `TaskService` layer over an
  abstract store. The store holds tasks keyed by id and categories as a map
  from id to name. `TaskService` is a class whose `tasks` and `categories`
  fields its methods update. Each call is one atomic step: it either
  commits, or it raises and leaves the store unchanged. Pure functions
  describe each step: `NewTask` is the record `create_task` builds,
  `Patched` is what `update_task` makes of a task, and `Seeded` is what the
  seeding loop leaves. The queries `AllTasks`, `TaskById` and
  `TasksInCategory` are pure functions too. The store's invariant has three
  parts: every task is stored under its own id, every `category_id`
  names an existing category, and no two categories share a name.
- **`Routes`** (`task_routes.dfy`) models the `/api/tasks` handlers. Each
  handler is a function from the request body and the service's result or
  exception to a status code and a JSON body. Methods such as
  `Routes.CreateTask` then connect each handler to the service call it
  makes. The POST handler has a data-flow quirk. It forwards `description`,
  `category` and `priority`. The service reads `category_id` and
  `completed`, so a task created through the API never has a category and
  is never completed (`Routes.RouteCreatesUncategorisedOpenTask`).
- **`PrototypeApi`** (`prototype_api.dfy`) models the serverless
  prototype's in-memory `tasks_storage` list. It is a class with a sequence
  field. POST appends to it, with the id set to the list's length plus one.
- **`Http`** (`http.dfy`) holds the shared types: JSON values, the
  exceptions the handlers tell apart, results and responses.

The following are parameters:

- The UUIDs the store generates (`newId`, `ids`).
- The `uuid.UUID` parser that `category_id` text goes through (`parse`).
- `Task.to_dict` (`toDict`).

When a generated id is already taken, or a `category_id` names no
category, the store refuses the commit. The model returns this as an
`IntegrityError` and changes nothing.

In several places the code is looser than a typical task API. The model
follows the code:

- `create_task` checks only that a `description` key is present. An empty
  or null description is accepted.
- `update_task` does no validation of its own.
- POST answers 500, not 400, for any exception the service raises.
- `get_all_tasks` has no ordering clause.
- A malformed `category_id` in a PUT makes `uuid.UUID` raise `ValueError`,
  and the route answers 404 for it (`Routes.UpdateTaskResponse`). This
  assumes the service receives the id as the route was given it; as
  written, the id conversion fails first (see "## Left out").
- A PUT whose body is JSON null reaches `'description' in None`. This
  raises `TypeError`, so the route answers 500 when the task exists.

## Model

| member | source | states |
|---|---|---|
| `Http.MapList` | backend/app/routes/tasks.py:12 | the list comprehension yields one element per input element, in order, each the function applied to it |
| `Service.AllTasks` | backend/app/services/task_service.py:25-27 | every stored task is listed; in a well-keyed store each listed task is the one stored under its own id |
| `Service.AllTasksOnePerId` | backend/app/services/task_service.py:25-27 | in a store keyed by id, listing all tasks yields exactly as many tasks as there are ids |
| `Service.TaskById` | backend/app/services/task_service.py:30-32 | a task is found exactly when its id is stored; the task found is the one stored under that id, carries that id, and is among all tasks |
| `Service.TasksInCategory` | backend/app/services/task_service.py:64-70 | the result is exactly the stored tasks whose category's name equals the given name; tasks without a category are never returned (inner join) |
| `Service.CategorisedTaskListedOnce` | backend/app/services/task_service.py:66-68 | in a well-formed store, a task with a category is returned for a name exactly when that name is its category's name |
| `Service.NewTask` | backend/app/services/task_service.py:8-19 | fails with ValueError("Missing required fields: ['description']") exactly when `description` is absent; otherwise fails only on a `category_id` that does not parse; on success keeps the description, has no category exactly when `category_id` is absent, defaults priority to 1 and completed to false |
| `Service.Patched` | backend/app/services/task_service.py:41-48 | exactly the fields present in the patch among description, category_id, priority and completed are overwritten; the id and absent fields keep their values; fails only on a `category_id` that does not parse |
| `Service.PatchIgnoresOtherKeys` | backend/app/services/task_service.py:41-48 | keys other than the four updatable fields do not change the result |
| `Service.PatchIsIdempotent` | backend/app/services/task_service.py:41-48 | applying the same update twice gives the same task as applying it once |
| `Service.PatchWithCreationDataIsNoop` | backend/app/services/task_service.py:14-19 | updating a newly built task with the data it was built from changes nothing, so create and update read the request the same way |
| `Service.Seeded` | backend/app/services/task_service.py:75-79 | after seeding, every existing category is unchanged, every default name is present, and every inserted category has a default name that was absent before; the only failure is a duplicate-key refusal; `Service.SeedKeepsNamesUnique` adds that no name is inserted twice |
| `Service.SeedKeepsNamesUnique` | backend/app/services/task_service.py:75-78 | seeding a category table whose names are unique leaves them unique: the check-then-insert never adds a name that is present, nor the same name twice |
| `Service.SeedWithAllPresentIsNoop` | backend/app/services/task_service.py:76-78 | when every name is already present, seeding inserts nothing and succeeds |
| `Service.SeedIsIdempotent` | backend/app/services/task_service.py:73-79 | a second seeding, with any generated ids, leaves the categories as the first left them |
| `Service.SeedInsertsEachMissingName` | backend/app/services/task_service.py:75-78 | seeding distinct names that are all absent adds exactly one category per name |
| `Service.SeedSucceedsWithFreshIds` | backend/app/services/task_service.py:76-79 | seeding fails only on an id collision: with distinct generated ids none of which is taken, it succeeds |
| `Service.SeedTwiceFromEmpty` | backend/app/services/task_service.py:75-79 | starting from no categories and with distinct generated ids, seeding succeeds and leaves exactly five categories, and seeding again changes nothing |
| `Service.TaskService.CreateTask` | backend/app/services/task_service.py:8-22 | succeeds exactly when the record can be built, the generated id is fresh and the category exists; then exactly one task is added under the new id and returned, and every existing task is unchanged; otherwise the store is unchanged and the builder's error, the duplicate-key refusal or, for an unknown category, the foreign-key IntegrityError is returned |
| `Service.TaskService.UpdateTask` | backend/app/services/task_service.py:35-51 | an unknown id raises ValueError("Task not found") and changes nothing; a null body raises TypeError; a `category_id` that does not parse raises the parser's error; a patched task whose category does not exist gives the foreign-key IntegrityError; the call succeeds exactly otherwise, and then the task is replaced by the patched task and every other task is unchanged; on any error nothing changes; the store invariant is kept |
| `Service.TaskService.DeleteTask` | backend/app/services/task_service.py:54-61 | an unknown id raises ValueError("Task not found") and changes nothing; otherwise exactly that task is removed, so the store is one smaller and a lookup finds nothing |
| `Service.TaskService.SeedCategories` | backend/app/services/task_service.py:73-79 | the check-then-insert loop leaves exactly the categories `Seeded` describes, so all five default names are present and category names stay unique; tasks are untouched; on refusal nothing is committed |
| `Routes.GetTasksResponse` | backend/app/routes/tasks.py:9-12 | status 200 with one dictionary per task, in the order the service listed them |
| `Routes.CreateRequest` | backend/app/routes/tasks.py:17-28 | a JSON null body or a missing description is refused before the service; otherwise exactly description, category and priority are forwarded: the body's description, the body's category or null, the body's priority or 1 |
| `Routes.CreateTaskResponse` | backend/app/routes/tasks.py:15-31 | 400 {"error": "Description is required"} without a description, whatever the service would do; else 201 with the task exactly when the service succeeded, and 500 with the exception's message otherwise |
| `Routes.RouteCreatesUncategorisedOpenTask` | backend/app/routes/tasks.py:24-28 | what the route forwards always builds a task with the given description and priority, no category and completed false, never a missing-field error |
| `Routes.GetTaskResponse` | backend/app/routes/tasks.py:34-39 | 404 {"error": "Task not found"} exactly when the service found nothing, else 200 with the task |
| `Routes.UpdateTaskResponse` | backend/app/routes/tasks.py:42-51 | 200 exactly on success, 404 exactly on a ValueError, 500 exactly on any other exception; error bodies carry the exception's message |
| `Routes.DeleteTaskResponse` | backend/app/routes/tasks.py:54-62 | 200 {"message": "Task deleted"} exactly on success, 404 exactly on a ValueError, 500 exactly on any other exception |
| `Routes.GetTasks` | backend/app/routes/tasks.py:9-12 | given the list the service returned, holding each stored task once in any order, the answer is 200 with exactly one dictionary per stored task, and every dictionary is that of a stored task |
| `Routes.CreateTask` | backend/app/routes/tasks.py:14-31 | without a description the store is untouched and the answer is 400; with one, 201 exactly when the generated id is fresh, and the one added task has no category and completed false; a taken id gives 500 with the store's duplicate-key message and nothing changes |
| `Routes.GetTask` | backend/app/routes/tasks.py:33-39 | 404 {"error": "Task not found"} exactly when the id is not stored, else 200 with the stored task |
| `Routes.UpdateTask` | backend/app/routes/tasks.py:41-51 | an unknown id gives 404 and a null body on a stored task gives 500, both with the store unchanged; 200 exactly when the task exists, the body is an object, the patch succeeds and its category exists, and then the task was replaced by its patched version; a failing patch is answered as `UpdateTaskResponse` answers its error; an unknown category gives 500 with the foreign-key message; any non-200 leaves the store unchanged |
| `Routes.DeleteTask` | backend/app/routes/tasks.py:53-62 | 200 exactly when the id was stored, and then the task is gone; otherwise 404 and nothing changed |
| `PrototypeApi.NumberedInOrder` | api/app.py:31 | when ids are 1..n in list order, no two entries share an id |
| `PrototypeApi.TaskStorage.constructor` | api/app.py:11 | the storage starts empty, which satisfies the numbering invariant |
| `PrototypeApi.TaskStorage.Post` | api/app.py:25-37 | exactly one entry is appended as the last element, with id equal to the previous length plus 1, the body's `task` as description and 'now' as created_at; earlier entries are unchanged; ids stay 1..n; answers 200 {"status": "Task saved"} |
| `PrototypeApi.TaskStorage.Get` | api/app.py:42 | status 200 with the whole storage under "tasks", one dictionary per entry in insertion order |

## Left out

- Database engine, ORM session, connection pool and concurrent requests: each service call is modelled as one atomic step on the store.
- `created_at` timestamps: they come from the clock. The prototype stores the literal 'now', and that is modelled.
- UUID generation is a parameter, and so is `uuid.UUID` text parsing of `category_id`.
- `Routes.GetTask`, `Routes.UpdateTask`, `Routes.DeleteTask`: the handlers take the id as the `<uuid:...>` URL converter delivers it, already a `UUID` object (backend/app/routes/tasks.py:33, 41, 53). The service passes it through `uuid.UUID` a second time (backend/app/services/task_service.py:32, 37, 56), and that call runs `hex.replace` on a `UUID` object, so it raises `AttributeError` for every id. As written, GET by id therefore ends in an uncaught exception (Flask's 500 page), and PUT and DELETE always answer 500 {"error": "'UUID' object has no attribute 'replace'"}. The model leaves this second conversion out and describes the handlers as if the service received the id unchanged.
- `Task.to_dict` is not part of this model. It is the opaque parameter `toDict`.
- Column type and NOT NULL checks at commit are not modelled: the service stores whatever JSON value it was given. Only the primary-key and foreign-key refusals are modelled. When both apply, the model reports the primary key. The message texts of these refusals belong to the database driver and are placeholders here.
- JSON floating-point numbers are not modelled: numbers are integers.
- Request bodies other than a JSON object or null are not modelled, for example a top-level list.
- `Service.AllTasks`: returns a set, not a list, because the query has no ordering clause and the order is the database's.
- `Service.TasksInCategory`: returns a set, for the same reason.
- `Routes.GetTasksResponse`: takes the service's list in whatever order the service produced it.
- `Routes.GetTasks`: the list `get_all_tasks` returns is a parameter, required to hold each stored task once; its order is the database's and is not modelled.
- `PrototypeApi.TaskStorage.Post`: the body is a JSON object. A missing or null body makes `request.json.get` raise before anything is stored, and that case is not modelled. The `except` branch at api/app.py:38-40 cannot be reached by the modelled steps. Logging with `print` is I/O.
- The root `app.py` SQLite variant, the category and health routes, the seeding and verification scripts, database configuration, Flask bootstrap and the React front end are not part of this model. They are I/O, UI or plumbing, and `seed_categories` itself is covered.
