/** The read-only queries of task/task.go: FilterTasks (exact status match)
    and SearchTask (substring of the lower-cased description). */
module Queries {
  import opened Selection
  import opened Tasks

  /** ASCII upper-case letter. */
  predicate IsUpper(c: char) {
    'A' <= c <= 'Z'
  }

  /** Lower-cases one ASCII letter and leaves every other character alone. */
  function LowerChar(c: char): (d: char)
    ensures !IsUpper(d)
    ensures !IsUpper(c) ==> d == c
    ensures IsUpper(c) ==> 'a' <= d <= 'z' && d as int - 'a' as int == c as int - 'A' as int
  {
    if IsUpper(c) then (c as int - 'A' as int + 'a' as int) as char else c
  }

  /** strings.ToLower, restricted to ASCII letters. */
  function Lower(s: string): (r: string)
    ensures |r| == |s|
    ensures forall i :: 0 <= i < |s| ==> r[i] == LowerChar(s[i])
  {
    if |s| == 0 then "" else [LowerChar(s[0])] + Lower(s[1..])
  }

  /** `sub` occurs in `s` starting at position `i`. */
  ghost predicate OccursAt(s: string, sub: string, i: int) {
    0 <= i && i + |sub| <= |s| && s[i..i + |sub|] == sub
  }

  /** strings.Contains: `sub` occurs somewhere in `s` (the empty string occurs everywhere). */
  function Contains(s: string, sub: string): (b: bool)
    ensures b <==> exists i :: OccursAt(s, sub, i)
    decreases |s|
  {
    if |sub| > |s| then false
    else if s[..|sub|] == sub then
      assert OccursAt(s, sub, 0);
      true
    else
      var b := Contains(s[1..], sub);
      assert b ==> exists i :: OccursAt(s, sub, i) by {
        if b {
          var k :| OccursAt(s[1..], sub, k);
          assert s[1..][k..k + |sub|] == s[k + 1..k + 1 + |sub|];
          assert OccursAt(s, sub, k + 1);
        }
      }
      assert (exists i :: OccursAt(s, sub, i)) ==> b by {
        if exists i :: OccursAt(s, sub, i) {
          var i :| OccursAt(s, sub, i);
          assert i != 0;
          assert s[1..][i - 1..i - 1 + |sub|] == s[i..i + |sub|];
          assert OccursAt(s[1..], sub, i - 1);
        }
      }
      b
  }

  /** The selection criterion of FilterTasks for a non-empty status. */
  predicate HasStatus(t: Task, status: string) {
    t.status == status
  }

  /** The selection criterion of SearchTask. */
  predicate MatchesKeyword(t: Task, keyword: string) {
    Contains(Lower(t.description), keyword)
  }

  /** Lists the collection, or only the tasks whose status equals `status`
      exactly when one is given; order is kept and an empty answer is no error. */
  function FilterTasks(tasks: seq<Task>, status: string): (r: seq<Task>)
    ensures status == "" ==> r == tasks
    ensures status != "" ==> SubseqOf(r, tasks)
    ensures status != "" ==> forall t :: multiset(r)[t] == if t.status == status then multiset(tasks)[t] else 0
  {
    if status == "" then tasks else Keep(tasks, (t: Task) => HasStatus(t, status))
  }

  /** The tasks whose lower-cased description contains `keyword`, in order. */
  function SearchTask(tasks: seq<Task>, keyword: string): (r: seq<Task>)
    ensures SubseqOf(r, tasks)
    ensures forall t :: multiset(r)[t] == (if MatchesKeyword(t, keyword) then multiset(tasks)[t] else 0)
  {
    Keep(tasks, (t: Task) => MatchesKeyword(t, keyword))
  }

  /** Filtering an already filtered list changes nothing. */
  lemma FilterIdempotent(tasks: seq<Task>, status: string)
    ensures FilterTasks(FilterTasks(tasks, status), status) == FilterTasks(tasks, status)
  {
    if status != "" {
      KeepIdempotent(tasks, (t: Task) => HasStatus(t, status));
    }
  }

  /** The empty keyword matches every task. */
  lemma SearchEmptyKeywordKeepsAll(tasks: seq<Task>)
    ensures SearchTask(tasks, "") == tasks
  {
    forall i | 0 <= i < |tasks|
      ensures MatchesKeyword(tasks[i], "")
    {
      assert OccursAt(Lower(tasks[i].description), "", 0);
    }
    KeepAll(tasks, (t: Task) => MatchesKeyword(t, ""));
  }

  /** A lower-cased text has no upper-case letter anywhere, so a keyword holding one
      matches nothing: search is case-insensitive only because its caller lower-cases
      the keyword first. */
  lemma SearchUpperKeywordFindsNothing(tasks: seq<Task>, keyword: string, k: int)
    requires 0 <= k < |keyword| && IsUpper(keyword[k])
    ensures SearchTask(tasks, keyword) == []
  {
  }
}
