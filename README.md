# To-do list engine of `main.py`

This project models the in-memory task list of a small command-line to-do
program. The list holds records with a `title` and a `done` flag. The program
mutates it in place in four ways: it adds a task, removes a task by its 1-based
number, marks a task done, and replaces the whole list with what was loaded
from the backing file. It also renders the list as numbered lines.

- `tasks.dfy`, module `Tasks`: the task record, and the pure list updates
  behind each in-place mutation. These are `RemoveAt` for `pop(i - 1)` and
  `MarkAt` for `tasks[i - 1]['done'] = True`. The module also holds the index
  check of the validation loops (`ValidIndex`) and the position of the first
  accepted answer (`FirstValidPos`).
- `rendering.dfy`, module `Rendering`: what `display_tasks` prints, as a
  sequence of lines. `Listing` is "No tasks" or `"<n> - <status> <title>"`
  per task. It comes with lemmas on its shape, on how each mutation changes
  it, and on reading a line back.
- `todo.dfy`, module `Todo`: the validation loop (`PromptIndex`) and the class
  `TodoList`. The class owns the list as a `seq<Task>` field, and its methods
  update that field as the program's functions update the module-level list.

Input and output are parameters. A title typed at `input()` is a method
parameter. The numbers typed at the "Enter a number of task ..." prompt are a
sequence of answers, which the validation loop consumes in order. Every
`print` becomes a line in a returned `seq<string>`. The program prompts again
until an answer is in `1..len`. In the model, when the answers run out first,
nothing is removed or marked. On an empty list this always happens: the
program itself would keep prompting forever. Reading `tasks.json` is a
parameter of type `StoreRead`. It is one of: file not found, open failed,
decoded to a list of tasks, or content not decodable.

The model follows `main.py` as written. Fuller descriptions of this program
mention priorities, deadlines, duplicate and empty title checks, a `0`
cancel answer, and sort, filter, search and summary; none of these exist in
`main.py`, so none is modelled. Those descriptions also say an unreadable
store degrades to an empty list. In `main.py` only a missing file is caught:
when `json.load` fails, `clear()` has already run, so the list is empty and
the exception leaves `load_tasks` (`LoadOutcome.Raised`).

## Model

| member | source | states |
|---|---|---|
| `Tasks.FirstValidPos` | main.py:37-41 | the accepted answer is the first one in `1..count`; every answer before it is rejected; with no tasks, no answer is accepted |
| `Tasks.RemoveAt` | main.py:42 | popping 1-based position `i` drops exactly that task: length one less, earlier tasks in place, later tasks shifted up by one, multiset of tasks minus the removed one |
| `Tasks.MarkAt` | main.py:52 | marking position `i` makes that task done with the same title; length and every other task unchanged |
| `Tasks.MarkAtIdempotent` | main.py:52 | marking twice equals marking once; marking a task that is already done leaves the list identical |
| `Rendering.Decimal` | main.py:32 | the task number is printed as a non-empty string of decimal digits with no leading zero |
| `Rendering.DecimalRoundTrip` | main.py:32 | the printed number reads back as the task's number |
| `Rendering.DecimalInjective` | main.py:32 | different numbers are printed differently |
| `Rendering.LinesAt` | main.py:26-32 | `enumerate(tasks, start)` yields one line per task, in order; line `k` shows task `k` with number `start + k` |
| `Rendering.ListingShape` | main.py:22-32 | the empty list prints exactly `No tasks`; a non-empty list prints one line per task, line `k` being `"{k+1} - {status} {title}"` |
| `Rendering.ListingEmptyIff` | main.py:23-25 | the output is the single line `No tasks` if and only if the list is empty |
| `Rendering.LineDeterminesTask` | main.py:27-32 | a printed line determines the task's number, done flag and title |
| `Rendering.ListingAfterAppend` | main.py:16-32 | after an append, the listing is the old task lines plus one line numbered `len + 1` for the new task |
| `Rendering.ListingAfterMark` | main.py:52-53 | after marking task `i`, only line `i` of the listing changes, to status `[X]` with the same number and title |
| `Rendering.ListingAfterRemove` | main.py:42-43 | after removing task `i`, earlier lines are unchanged, later tasks are renumbered one lower, and removing the only task leaves `No tasks` |
| `Todo.PromptIndex` | main.py:37-41 | the validation loop stops at the first answer in `1..count`; the number of answers it rejects (one "Invalid task number" each) is that answer's position |
| `Todo.TodoList.constructor` | main.py:3 | the list starts empty |
| `Todo.TodoList.Display` | main.py:22-32 | the printed lines are exactly the listing of the current list |
| `Todo.TodoList.Load` | main.py:9-15 | on success the list becomes the stored sequence with nothing left over; a missing file leaves the list as it was and prints `No saved files found`; an undecodable file leaves it cleared and raises; any other open failure raises and leaves it untouched |
| `Todo.TodoList.Add` | main.py:16-20 | appends exactly one task with the given title and `done = false`; earlier tasks unchanged; prints the confirmation |
| `Todo.TodoList.Remove` | main.py:35-43 | removes exactly the task at the first accepted answer; without one, the list is unchanged; output is the listing before, one rejection line per refused answer, then the listing after |
| `Todo.TodoList.MarkDone` | main.py:45-53 | marks done exactly the task at the first accepted answer; without one, the list is unchanged; output is the listing before, the rejection lines, then the listing after |

## Left out

- `save_tasks` (main.py:5-7): it writes the list to `tasks.json` with the `json` library. This is file-system I/O, and the model has no store to write.
- JSON decoding in `load_tasks`: the model assumes the decoded value is a list of `{title, done}` records (`StoreRead.Decoded`). A file holding other JSON, which `extend` would still accept, is not modelled.
- `int(input(...))` parsing in `remove_task` and `mark_done` (main.py:39, 49): answers are given as integers. The `ValueError` that non-numeric input raises, and that nothing catches, is not modelled.
- Endless re-prompting: the program asks until it gets a valid number, so on an empty list it never returns. The model has a finite sequence of answers, and it ends the operation with no change once they run out.
- The menu loop and the choice dispatch (main.py:55-82): this is the driver that calls the operations and then `save_tasks`.
- Object identity of the task dictionaries: tasks are values. `main.py` never shares one dictionary between two list positions, so the in-place `done` update has no aliasing effect to capture.
