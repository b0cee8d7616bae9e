/**
 The task record of the to-do list and the pure list operations that the
 in-place updates of main.py perform: the index check of the two validation
 loops, removal at a 1-based position, and marking a task done.
 */
module Tasks {

  /** One entry of the list: the record {"title": ..., "done": ...}. */
  datatype Task = Task(title: string, done: bool)

  /** The validation loops accept exactly the 1-based positions 1..count. */
  predicate ValidIndex(i: int, count: nat) {
    1 <= i <= count
  }

  /**
   The position, in a sequence of answers typed at the prompt, of the first
   answer the validation loop accepts; |answers| when none is accepted.
   Every answer before that position is rejected ("Invalid task number").
   */
  function FirstValidPos(answers: seq<int>, count: nat): (k: nat)
    ensures k <= |answers|
    ensures forall j :: 0 <= j < k ==> !ValidIndex(answers[j], count)
    ensures k < |answers| ==> ValidIndex(answers[k], count)
    ensures count == 0 ==> k == |answers|
  {
    if answers == [] then 0
    else if ValidIndex(answers[0], count) then 0
    else 1 + FirstValidPos(answers[1..], count)
  }

  /**
   The list after `pop(i - 1)`: the task at 1-based position i is gone, the
   ones before it stay where they were and the ones after it move up by one.
   */
  function RemoveAt(s: seq<Task>, i: int): (r: seq<Task>)
    requires ValidIndex(i, |s|)
    ensures |r| == |s| - 1
    ensures forall j :: 0 <= j < i - 1 ==> r[j] == s[j]
    ensures forall j :: i - 1 <= j < |r| ==> r[j] == s[j + 1]
    ensures multiset(r) + multiset{s[i - 1]} == multiset(s)
  {
    assert s == s[..i - 1] + [s[i - 1]] + s[i..];
    s[..i - 1] + s[i..]
  }

  /**
   The list after `tasks[i - 1]['done'] = True`: that task is done and keeps
   its title; every other task and the length are unchanged.
   */
  function MarkAt(s: seq<Task>, i: int): (r: seq<Task>)
    requires ValidIndex(i, |s|)
    ensures |r| == |s|
    ensures r[i - 1] == Task(s[i - 1].title, true)
    ensures forall j :: 0 <= j < |s| && j != i - 1 ==> r[j] == s[j]
  {
    s[i - 1 := s[i - 1].(done := true)]
  }

  /** Marking is idempotent, and marking a task that is already done changes nothing. */
  lemma MarkAtIdempotent(s: seq<Task>, i: int)
    requires ValidIndex(i, |s|)
    ensures MarkAt(MarkAt(s, i), i) == MarkAt(s, i)
    ensures s[i - 1].done ==> MarkAt(s, i) == s
  {
  }
}
