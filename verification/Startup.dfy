/** Start-up in the machine: its recovery steps add up to `recover_jobs`. */
module Startup {
  import opened JobModel
  import opened Store
  import opened Scheduler
  import opened Recovery
  import opened Worker
  import opened Bounded

  /** One recovery step for each old job, then the one that opens for business. */
  function RecoveryRun(todo: seq<Job>, fate: string -> Write): seq<Action>
    decreases |todo|
  {
    if todo == [] then [RecoverNext(Done)] else [RecoverNext(fate(todo[0].id))] + RecoveryRun(todo[1..], fate)
  }

  lemma {:induction false} RecoveryRunIs(s: System, todo: seq<Job>, seen: set<string>, keys: set<string>,
          fate: string -> Write)
    requires s.phase == Recovering(todo, seen, keys)
    ensures IsRun(s, RecoveryRun(todo, fate))
    ensures Final(s, RecoveryRun(todo, fate))
            == s.(files := Recover(s.files, todo, seen, keys, s.now, fate), phase := Serving)
    decreases |todo|
  {
    hide Carry; hide Judge; hide SeenAfter;
    var run := RecoveryRun(todo, fate);
    var t := Step(s, run[0]);
    if todo == [] {
      assert run[1..] == [];
      assert IsRun(t, []) && Final(t, []) == t;
    } else {
      assert t == Recovered(s, fate(todo[0].id));
      assert run[1..] == RecoveryRun(todo[1..], fate);
      RecoveryRunIs(t, todo[1..], SeenAfter(todo[0], seen, keys), keys, fate);
    }
  }

  /** After a crash anywhere, a start-up whose writes work ends with nothing running,
      nothing scheduled, and a list on which another start-up would change nothing. */
  lemma {:induction false} StartupSettles(s: System, fate: string -> Write)
    requires LedgerInv(s) && AllWritten(fate)
    ensures var t := Crashed(s);
            var run := RecoveryRun(t.phase.todo, fate);
            && IsRun(t, run) && Final(t, run).phase == Serving
            && Final(t, run).files == RecoverAll(t.files, s.now, fate)
            && Quiet(Final(t, run).files.mem) && Final(t, run).tasks == [] && Final(t, run).sched.pending == {}
  {
    var t := Crashed(s);
    CrashedLedger(s);
    assert t.phase == Recovering(RecoveryOrder(t.files.mem), {}, InterruptedKeys(RecoveryOrder(t.files.mem)));
    assert t.sched == EMPTY_SCHED && t.tasks == [] && t.now == s.now;
    hide Crashed; hide RecoveryOrder; hide InterruptedKeys; hide Recover; hide Quiet; hide IsRun; hide Final;
    hide AllWritten;
    ListIsDistinct(t.files.mem, t.starts, t.kinds);
    RecoveryRunIs(t, t.phase.todo, {}, t.phase.interrupted, fate);
    RecoveryLeavesQuiet(t.files, s.now, fate);
  }
}
