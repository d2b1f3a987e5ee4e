/** The project progress shown above the board: the share of tasks that sit
    in the `done` column, as a whole percentage. */
module ProgressBar {
  import opened Board

  /** The number of tasks in column `columnId`, counted one task at a time. */
  function CountWhere(tasks: seq<Task>, columnId: string): (n: nat)
    ensures n <= |tasks|
    ensures n == |tasks| <==> forall t :: t in tasks ==> t.columnId == columnId
    ensures n == 0 <==> forall t :: t in tasks ==> t.columnId != columnId
    decreases |tasks|
  {
    if tasks == [] then 0
    else
      var init, last := tasks[..|tasks| - 1], tasks[|tasks| - 1];
      assert tasks == init + [last];
      CountWhere(init, columnId) + (if last.columnId == columnId then 1 else 0)
  }

  /** Counting is the length of the matching filter, the form the code writes. */
  lemma {:induction false} CountIsFilterLength(tasks: seq<Task>, columnId: string)
    ensures CountWhere(tasks, columnId) == |TasksIn(tasks, columnId)|
    decreases |tasks|
  {
    if tasks != [] {
      CountIsFilterLength(tasks[..|tasks| - 1], columnId);
    }
  }

  /** `tasks.filter(task => task.columnId === "done").length`. */
  function CompletedCount(tasks: seq<Task>): (n: nat)
    ensures n <= |tasks|
    ensures n == |tasks| <==> forall t :: t in tasks ==> t.columnId == Done
    ensures n == 0 <==> forall t :: t in tasks ==> t.columnId != Done
  {
    CountWhere(tasks, Done)
  }

  /** Multiplying by a positive number keeps a strict order. */
  lemma MulCancel(a: int, b: int, d: int)
    requires d > 0 && a * d < b * d
    ensures a < b
  {
    assert (b - a) * d == b * d - a * d;
  }

  /** The quotient is the one `q` with `q·d <= n < q·d + d`. */
  lemma DivUnique(n: nat, d: nat, q: nat)
    requires d > 0 && q * d <= n < q * d + d
    ensures n / d == q
  {
    var r := n / d;
    assert r * d <= n < r * d + d;
    MulCancel(r, q + 1, d);
    MulCancel(q, r + 1, d);
  }

  /** `total > 0 ? Math.round((completed / total) * 100) : 0` over exact
      rationals: rounding half up is `floor((200·completed + total) / (2·total))`. */
  function Percentage(completed: nat, total: nat): (p: nat)
    requires completed <= total
    ensures p <= 100
    ensures total == 0 ==> p == 0
    ensures total > 0 ==> p * (2 * total) <= 200 * completed + total < p * (2 * total) + 2 * total
    ensures completed == 0 ==> p == 0
    ensures 0 < total == completed ==> p == 100
  {
    if total > 0 then
      var d, n := 2 * total, 200 * completed + total;
      var p := n / d;
      assert p * d <= n < p * d + d;
      MulCancel(p, 101, d);
      if completed == 0 then DivUnique(n, d, 0); p
      else if completed == total then DivUnique(n, d, 100); p
      else p
    else 0
  }

  /** The bar's percentage for a list of tasks. It reads 100 when every
      task is done, but also when fewer than one task in 200 is still open,
      since the share is rounded; it reads 0 for no tasks or fewer than one
      done task in 200. */
  function Progress(tasks: seq<Task>): (p: nat)
    ensures p <= 100
    ensures tasks != [] && (forall t :: t in tasks ==> t.columnId == Done) ==> p == 100
    ensures p == 100 <==> tasks != [] && 200 * (|tasks| - CompletedCount(tasks)) <= |tasks|
    ensures p == 0 <==> tasks == [] || 200 * CompletedCount(tasks) < |tasks|
  {
    var c, t := CompletedCount(tasks), |tasks|;
    var p := Percentage(c, t);
    if t == 0 then p
    else
      var d, n := 2 * t, 200 * c + t;
      if n >= 100 * d then DivUnique(n, d, 100); p
      else
        MulCancel(p, 100, d);
        if 200 * c < t then DivUnique(n, d, 0); p
        else p
  }

  /** With only the three default columns and no orphan, every task is
      counted exactly once by the todo, doing and done counts. */
  lemma {:induction false} CountsPartition(tasks: seq<Task>)
    requires forall t :: t in tasks ==> t.columnId in {"todo", "doing", Done}
    ensures CountWhere(tasks, "todo") + CountWhere(tasks, "doing") + CountWhere(tasks, Done) == |tasks|
    decreases |tasks|
  {
    if tasks != [] {
      var init := tasks[..|tasks| - 1];
      assert forall t :: t in init ==> t in tasks;
      CountsPartition(init);
    }
  }
}
