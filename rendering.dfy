/**
 What display_tasks prints, as a sequence of lines: "No tasks" for an empty
 list, otherwise one line "<n> - <status> <title>" per task, numbered from 1,
 where the status is "[X]" for a done task and "[ ]" otherwise.
 */
module Rendering {
  import opened Tasks

  const NoTasks := "No tasks"
  const DoneMark := "[X]"
  const OpenMark := "[ ]"

  predicate IsDigit(c: char) {
    '0' <= c <= '9'
  }

  function Digit(d: nat): (c: char)
    requires d < 10
    ensures IsDigit(c)
  {
    (('0' as int) + d) as char
  }

  function DigitValue(c: char): (d: nat)
    requires IsDigit(c)
    ensures d < 10
  {
    (c as int) - ('0' as int)
  }

  /** The decimal text of n, as Python's f-string formatting writes an int. */
  function Decimal(n: nat): (r: string)
    ensures |r| >= 1
    ensures forall c :: c in r ==> IsDigit(c)
    ensures r[0] == '0' ==> n == 0
  {
    if n < 10 then [Digit(n)] else Decimal(n / 10) + [Digit(n % 10)]
  }

  /** Reads a string of decimal digits back as a number. */
  function ParseDecimal(s: string): nat
    requires forall c :: c in s ==> IsDigit(c)
  {
    if s == [] then 0
    else 10 * ParseDecimal(s[..|s| - 1]) + DigitValue(s[|s| - 1])
  }

  /** The number in front of each listed task can be read back as that number. */
  lemma {:induction false} DecimalRoundTrip(n: nat)
    ensures ParseDecimal(Decimal(n)) == n
  {
    var r := Decimal(n);
    if n >= 10 {
      DecimalRoundTrip(n / 10);
      assert r[..|r| - 1] == Decimal(n / 10);
    }
  }

  lemma DecimalInjective(m: nat, n: nat)
    requires Decimal(m) == Decimal(n)
    ensures m == n
  {
    DecimalRoundTrip(m);
    DecimalRoundTrip(n);
  }

  function Status(t: Task): string {
    if t.done then DoneMark else OpenMark
  }

  /** Line f"{index} - {status} {title}" of the listing. */
  function Line(index: nat, t: Task): string {
    Decimal(index) + " - " + Status(t) + " " + t.title
  }

  /** The lines of the loop over enumerate(tasks, start=first). */
  function Lines(ts: seq<Task>, first: nat): seq<string>
    decreases |ts|
  {
    if ts == [] then [] else [Line(first, ts[0])] + Lines(ts[1..], first + 1)
  }

  /** Everything display_tasks prints for the list ts. */
  function Listing(ts: seq<Task>): seq<string> {
    if ts == [] then [NoTasks] else Lines(ts, 1)
  }

  /** Line k of the enumeration shows task k with number first + k. */
  lemma {:induction false} LinesAt(ts: seq<Task>, first: nat)
    ensures |Lines(ts, first)| == |ts|
    ensures forall k :: 0 <= k < |ts| ==> Lines(ts, first)[k] == Line(first + k, ts[k])
  {
    if ts != [] {
      LinesAt(ts[1..], first + 1);
    }
  }

  /**
   An empty list is shown as the single line "No tasks"; a non-empty one as
   one line per task, in list order, the k-th (from 0) numbered k + 1.
   */
  lemma ListingShape(ts: seq<Task>)
    ensures ts == [] ==> Listing(ts) == [NoTasks]
    ensures ts != [] ==> |Listing(ts)| == |ts|
    ensures forall k :: 0 <= k < |ts| ==> Listing(ts)[k] == Line(k + 1, ts[k])
  {
    LinesAt(ts, 1);
  }

  /** A task line never reads "No tasks": it starts with a digit. */
  lemma LineIsNotNoTasks(index: nat, t: Task)
    ensures Line(index, t) != NoTasks
  {
    assert Line(index, t)[0] == Decimal(index)[0];
    assert IsDigit(Decimal(index)[0]);
  }

  /** The listing is exactly ["No tasks"] if and only if the list is empty. */
  lemma ListingEmptyIff(ts: seq<Task>)
    ensures Listing(ts) == [NoTasks] <==> ts == []
  {
    if ts != [] {
      ListingShape(ts);
      LineIsNotNoTasks(1, ts[0]);
      if |ts| == 1 {
        assert Listing(ts)[0] == Line(1, ts[0]);
      }
    }
  }

  /** How many characters precede the first space of s. */
  function LeadingNonSpaces(s: string): (n: nat)
    ensures n <= |s|
  {
    if s == [] || s[0] == ' ' then 0 else 1 + LeadingNonSpaces(s[1..])
  }

  /** A line's number ends at its first space, so the number is recoverable. */
  lemma {:induction false} NumberEndsAtSpace(digits: string, rest: string)
    requires forall c :: c in digits ==> IsDigit(c)
    requires |rest| > 0 && rest[0] == ' '
    ensures LeadingNonSpaces(digits + rest) == |digits|
  {
    if digits != [] {
      assert digits[0] in digits;
      assert (digits + rest)[1..] == digits[1..] + rest;
      forall c | c in digits[1..] ensures IsDigit(c) {
        assert c in digits;
      }
      NumberEndsAtSpace(digits[1..], rest);
    } else {
      assert digits + rest == rest;
    }
  }

  /** Number, status and title can all be read back from a listed line. */
  lemma LineDeterminesTask(i: nat, t: Task, j: nat, u: Task)
    requires Line(i, t) == Line(j, u)
    ensures i == j && t == u
  {
    var a, b := Decimal(i), Decimal(j);
    var l := Line(i, t);
    var restA := " - " + Status(t) + " " + t.title;
    var restB := " - " + Status(u) + " " + u.title;
    assert l == a + restA;
    assert l == b + restB;
    NumberEndsAtSpace(a, restA);
    NumberEndsAtSpace(b, restB);
    assert a == l[..|a|] == b;
    DecimalInjective(i, j);
    assert restA == l[|a|..] == restB;
    assert restA[3..6] == Status(t) && restB[3..6] == Status(u);
    assert restA[7..] == t.title && restB[7..] == u.title;
    assert t.done == (Status(t) == DoneMark);
    assert u.done == (Status(u) == DoneMark);
  }

  /** Adding a task extends the listing by one line numbered |ts| + 1. */
  lemma {:induction false} LinesAppend(ts: seq<Task>, first: nat, t: Task)
    ensures Lines(ts + [t], first) == Lines(ts, first) + [Line(first + |ts|, t)]
  {
    if ts != [] {
      assert (ts + [t])[1..] == ts[1..] + [t];
      LinesAppend(ts[1..], first + 1, t);
    }
  }

  /**
   After an append, the listing is the old one (without "No tasks") followed
   by the new task's line.
   */
  lemma ListingAfterAppend(ts: seq<Task>, t: Task)
    ensures Listing(ts + [t]) == (if ts == [] then [] else Listing(ts)) + [Line(|ts| + 1, t)]
  {
    LinesAppend(ts, 1, t);
  }

  /** Marking task i done changes only line i of the listing, to status "[X]". */
  lemma ListingAfterMark(ts: seq<Task>, i: int)
    requires ValidIndex(i, |ts|)
    ensures |Listing(ts)| == |ts|
    ensures Listing(MarkAt(ts, i)) == Listing(ts)[i - 1 := Line(i, Task(ts[i - 1].title, true))]
  {
    var marked := MarkAt(ts, i);
    ListingShape(ts);
    ListingShape(marked);
    assert Status(Task(ts[i - 1].title, true)) == DoneMark;
  }

  /**
   After removing task i the earlier lines stay, the later tasks are
   renumbered one lower, and removing the only task leaves "No tasks".
   */
  lemma ListingAfterRemove(ts: seq<Task>, i: int)
    requires ValidIndex(i, |ts|)
    ensures |ts| == 1 ==> Listing(RemoveAt(ts, i)) == [NoTasks]
    ensures |ts| > 1 ==> |Listing(RemoveAt(ts, i))| == |ts| - 1
    ensures forall k :: 0 <= k < i - 1 ==> Listing(RemoveAt(ts, i))[k] == Line(k + 1, ts[k])
    ensures forall k :: i - 1 <= k < |ts| - 1 ==> Listing(RemoveAt(ts, i))[k] == Line(k + 1, ts[k + 1])
  {
    ListingShape(ts);
    ListingShape(RemoveAt(ts, i));
  }
}
