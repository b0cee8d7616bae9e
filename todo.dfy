/**
 The module-level list `todo_list_tasks` of main.py and the operations that
 mutate it in place. What the user types at a prompt is a parameter (the
 title, or the answers given to "Enter a number of task ...", in order);
 what is printed is returned as a sequence of lines.
 */
module Todo {
  import opened Tasks
  import opened Rendering

  const InvalidNumber := "Invalid task number"
  const NoSavedFiles := "No saved files found"

  /** The confirmation add_task prints. */
  function Added(title: string): string {
    "Task '" + title + "' added to the list."
  }

  /** One "Invalid task number" line per rejected answer. */
  function Rejections(k: nat): seq<string> {
    seq(k, _ => InvalidNumber)
  }

  /** What reading the backing file yields, in place of the file system and the JSON decoder. */
  datatype StoreRead =
    | NotFound                   // open raises FileNotFoundError
    | OpenFailed                 // open raises any other error
    | Decoded(stored: seq<Task>) // json.load returns the stored list of records
    | Undecodable                // json.load raises on the file's content

  datatype LoadOutcome =
    | Loaded        // the list now holds what was stored
    | NoSavedFile   // the error was caught and reported
    | Raised        // the exception left load_tasks uncaught

  /**
   The validation loop of remove_task and mark_done: starting from 0, read
   answers until one lies in 1..count, rejecting each other one. Returns how
   many answers were rejected; when that is |answers|, no answer was accepted.
   */
  method PromptIndex(answers: seq<int>, count: nat) returns (rejected: nat)
    ensures rejected == FirstValidPos(answers, count)
  {
    var choice := 0;
    var read := 0;
    rejected := 0;
    while !ValidIndex(choice, count) && read < |answers|
      invariant rejected <= read <= |answers|
      invariant forall j :: 0 <= j < rejected ==> !ValidIndex(answers[j], count)
      invariant if ValidIndex(choice, count)
                then rejected + 1 == read && choice == answers[rejected]
                else rejected == read
    {
      choice := answers[read];
      read := read + 1;
      if !ValidIndex(choice, count) {
        rejected := rejected + 1;
      }
    }
  }

  class TodoList {
    var tasks: seq<Task>

    /** `todo_list_tasks = []` */
    constructor ()
      ensures tasks == []
    {
      tasks := [];
    }

    /** display_tasks: the lines it prints for the current list. */
    method Display() returns (lines: seq<string>)
      ensures lines == Listing(tasks)
    {
      if |tasks| == 0 {
        lines := [NoTasks];
        return;
      }
      lines := [];
      for i := 0 to |tasks|
        invariant |lines| == i
        invariant forall k :: 0 <= k < i ==> lines[k] == Line(k + 1, tasks[k])
      {
        var status := if tasks[i].done then DoneMark else OpenMark;
        lines := lines + [Decimal(i + 1) + " - " + status + " " + tasks[i].title];
      }
      ListingShape(tasks);
    }

    /**
     load_tasks: on a readable file the list is cleared and then extended
     with the stored tasks; a missing file leaves it as it was. An
     undecodable file leaves it cleared, since clear() runs before json.load.
     */
    method Load(read: StoreRead) returns (outcome: LoadOutcome, lines: seq<string>)
      modifies this
      ensures read.Decoded? ==> outcome == Loaded && tasks == read.stored && lines == []
      ensures read.NotFound? ==> outcome == NoSavedFile && tasks == old(tasks) && lines == [NoSavedFiles]
      ensures read.OpenFailed? ==> outcome == Raised && tasks == old(tasks) && lines == []
      ensures read.Undecodable? ==> outcome == Raised && tasks == [] && lines == []
    {
      lines := [];
      match read {
        case NotFound =>
          outcome := NoSavedFile;
          lines := [NoSavedFiles];
        case OpenFailed =>
          outcome := Raised;
        case Undecodable =>
          tasks := [];
          outcome := Raised;
        case Decoded(stored) =>
          tasks := [];
          tasks := tasks + stored;
          outcome := Loaded;
      }
    }

    /** add_task: appends a new task, not done, with the typed title. */
    method Add(title: string) returns (lines: seq<string>)
      modifies this
      ensures tasks == old(tasks) + [Task(title, false)]
      ensures lines == [Added(title)]
    {
      tasks := tasks + [Task(title, false)];
      lines := [Added(title)];
    }

    /**
     remove_task: shows the list, asks until an answer in 1..|tasks| is
     typed, pops that task and shows the list again. If the answers run out
     first (always so on an empty list), nothing is removed.
     */
    method Remove(answers: seq<int>) returns (lines: seq<string>)
      modifies this
      ensures var k := FirstValidPos(answers, |old(tasks)|);
        if k < |answers| then
          (tasks == RemoveAt(old(tasks), answers[k])
           && lines == Listing(old(tasks)) + Rejections(k) + Listing(tasks))
        else
          (tasks == old(tasks) && lines == Listing(old(tasks)) + Rejections(k))
    {
      lines := Display();
      var rejected := PromptIndex(answers, |tasks|);
      lines := lines + Rejections(rejected);
      if rejected < |answers| {
        var index := answers[rejected];
        tasks := tasks[..index - 1] + tasks[index..];
        var after := Display();
        lines := lines + after;
      }
    }

    /**
     mark_done: shows the list, asks until an answer in 1..|tasks| is typed,
     sets that task's done flag and shows the list again. If the answers run
     out first, nothing changes.
     */
    method MarkDone(answers: seq<int>) returns (lines: seq<string>)
      modifies this
      ensures var k := FirstValidPos(answers, |old(tasks)|);
        if k < |answers| then
          (tasks == MarkAt(old(tasks), answers[k])
           && lines == Listing(old(tasks)) + Rejections(k) + Listing(tasks))
        else
          (tasks == old(tasks) && lines == Listing(old(tasks)) + Rejections(k))
    {
      lines := Display();
      var rejected := PromptIndex(answers, |tasks|);
      lines := lines + Rejections(rejected);
      if rejected < |answers| {
        var index := answers[rejected];
        tasks := tasks[index - 1 := tasks[index - 1].(done := true)];
        var after := Display();
        lines := lines + after;
      }
    }
  }
}
