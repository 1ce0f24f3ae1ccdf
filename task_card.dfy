/**
 * The task card (frontend/src/components/TaskCard.jsx): the overdue flag, the target of
 * the round status button, the status badge text and the due-date formatting guard.
 */
module TaskCard {
  import opened Common
  import opened TaskRecord

  /** `task.dueDate && new Date(task.dueDate) < new Date() && task.status !== 'completed'`, with `now` the clock. */
  predicate IsOverdue(t: Task, now: Time)
    ensures t.dueDate.None? || t.status == Some("completed") ==> !IsOverdue(t, now)
    ensures IsOverdue(t, now) ==> ToggleTarget(t.status) == "completed"
  {
    t.dueDate.Some? && t.dueDate.value < now && t.status != Some("completed")
  }

  /** A task is overdue only if it has a due date that has passed and it is not completed. */
  lemma OverdueConditions(t: Task, now: Time)
    ensures IsOverdue(t, now) ==> t.dueDate.Some? && t.dueDate.value < now
    ensures t.status == Some("completed") ==> !IsOverdue(t, now)
    ensures t.dueDate.None? ==> !IsOverdue(t, now)
  {
  }

  /** Once overdue, a task stays overdue as time passes until its status or due date changes. */
  lemma OverdueStaysOverdue(t: Task, now: Time, later: Time)
    requires now <= later && IsOverdue(t, now)
    ensures IsOverdue(t, later)
  {
  }

  /** The status the round button asks for: back to pending from completed, completed from anything else. */
  function ToggleTarget(status: Option<string>): (r: string)
    ensures r == "pending" <==> status == Some("completed")
    ensures r == "completed" <==> status != Some("completed")
  {
    if status == Some("completed") then "pending" else "completed"
  }

  /**
   * Two presses from completed come back to completed; from any other status they end on
   * pending, so an in-progress task does not return to in-progress.
   */
  lemma ToggleTwice(status: Option<string>)
    ensures ToggleTarget(Some(ToggleTarget(status))) == if status == Some("completed") then "completed" else "pending"
  {
  }

  /** Pressing the button on an overdue task clears the overdue flag. */
  lemma ToggleClearsOverdue(t: Task, now: Time)
    requires IsOverdue(t, now)
    ensures !IsOverdue(t.(status := Some(ToggleTarget(t.status))), now)
  {
  }

  /** The position of the first `c` in `s`, or `|s|` when there is none. */
  function FirstIndex(s: string, c: char): (k: nat)
    ensures k <= |s|
    ensures forall j :: 0 <= j < k ==> s[j] != c
    ensures k < |s| ==> s[k] == c
    ensures k == |s| <==> c !in s
  {
    if s == [] || s[0] == c then 0
    else
      var k := 1 + FirstIndex(s[1..], c);
      assert forall j :: 0 < j < |s| ==> s[j] == s[1..][j - 1];
      k
  }

  /** `s.replace(from, to)` with a string pattern: only the first occurrence is replaced. */
  function ReplaceFirst(s: string, from: char, to: char): (r: string)
    ensures |r| == |s|
    ensures forall i :: 0 <= i < |s| ==> r[i] == if i == FirstIndex(s, from) then to else s[i]
    ensures from !in s ==> r == s
  {
    if s == [] then []
    else if s[0] == from then [to] + s[1..]
    else [s[0]] + ReplaceFirst(s[1..], from, to)
  }

  /** The status badge: `task.status.replace('-', ' ')`. */
  function StatusLabel(status: string): (text: string)
    ensures |text| == |status|
  {
    ReplaceFirst(status, '-', ' ')
  }

  /** Replacing the first occurrence, at position `k`, splices `to` in at `k` and keeps everything else. */
  lemma ReplaceFirstAt(s: string, from: char, to: char, k: nat)
    requires k < |s| && s[k] == from && from !in s[..k]
    ensures ReplaceFirst(s, from, to) == s[..k] + [to] + s[k + 1..]
  {
    var r := ReplaceFirst(s, from, to);
    var e := s[..k] + [to] + s[k + 1..];
    assert forall i :: 0 <= i < |s| ==> r[i] == e[i];
  }

  /**
   * The badge of a hyphenated status shows a space at its first hyphen and nothing else
   * changes: `in-progress` reads `in progress`, and any later hyphen in `rest` is kept.
   */
  lemma HyphenatedLabel(head: string, rest: string)
    requires '-' !in head
    ensures StatusLabel(head + "-" + rest) == head + " " + rest
  {
    var s := head + "-" + rest;
    assert s[..|head|] == head;
    ReplaceFirstAt(s, '-', ' ', |head|);
    assert s[|head| + 1..] == rest;
  }

  /** `formatDate`: nothing without a date, otherwise the locale rendering of that date. */
  function FormatDate(date: Option<Time>, toLocale: Time -> string): (r: Option<string>)
    ensures r.None? <==> date.None?
    ensures r.Some? ==> r.value == toLocale(date.value)
  {
    match date
    case None => None
    case Some(d) => Some(toLocale(d))
  }
}
