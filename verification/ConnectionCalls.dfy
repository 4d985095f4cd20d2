/**
 When a caller is given a connection, and when it is turned away.
 */
module ConnectionCalls {
  import opened Wrappers
  import opened Connections

  ghost predicate ResetSince(steps: seq<Step>, i: nat) {
    exists j :: i < j < |steps| && steps[j].Reset?
  }

  /** After its look at the cache there was a reset before it could commit. */
  ghost predicate Overtaken(steps: seq<Step>, pid: Pid, i: nat, k: nat) {
    && i < k < |steps| && steps[i] == Look(pid) && steps[k] == Commit(pid, false)
    && ResetSince(steps[..k], i)
  }

  /** Its dial failed, its call was cancelled, or a reset came in between. */
  ghost predicate TurnedAway(steps: seq<Step>, pid: Pid) {
    DialFail(pid) in steps || Commit(pid, true) in steps || exists i: nat, k: nat :: Overtaken(steps, pid, i, k)
  }

  ghost predicate Stale(steps: seq<Step>, pid: Pid) {
    exists i: nat :: i < |steps| && steps[i] == Look(pid) && ResetSince(steps, i)
  }

  lemma OvertakenMore(steps: seq<Step>, e: Step, pid: Pid, i: nat, k: nat)
    requires k < |steps|
    ensures Overtaken(steps + [e], pid, i, k) <==> Overtaken(steps, pid, i, k)
  {
    assert (steps + [e])[..k] == steps[..k];
  }

  lemma OvertakenNow(steps: seq<Step>, e: Step, pid: Pid, i: nat)
    ensures Overtaken(steps + [e], pid, i, |steps|) <==>
              i < |steps| && steps[i] == Look(pid) && e == Commit(pid, false) && ResetSince(steps, i)
  {
    assert (steps + [e])[..|steps|] == steps;
  }

  lemma TurnedAwayMore(steps: seq<Step>, e: Step, pid: Pid)
    ensures TurnedAway(steps + [e], pid) <==>
              || TurnedAway(steps, pid) || e == DialFail(pid) || e == Commit(pid, true)
              || (e == Commit(pid, false) && Stale(steps, pid))
  {
    var more := steps + [e];
    assert forall x :: x in more <==> x in steps || x == e;
    if i: nat, k: nat :| Overtaken(more, pid, i, k) {
      if k < |steps| {
        OvertakenMore(steps, e, pid, i, k);
      } else {
        OvertakenNow(steps, e, pid, i);
      }
    }
    if i: nat, k: nat :| Overtaken(steps, pid, i, k) {
      OvertakenMore(steps, e, pid, i, k);
    }
    if e == Commit(pid, false) && Stale(steps, pid) {
      var i: nat :| i < |steps| && steps[i] == Look(pid) && ResetSince(steps, i);
      OvertakenNow(steps, e, pid, i);
    }
  }

  lemma StaleMore(steps: seq<Step>, e: Step, pid: Pid)
    ensures Stale(steps + [e], pid) <==> Stale(steps, pid) || (e.Reset? && Look(pid) in steps)
  {
    var more := steps + [e];
    if Stale(more, pid) {
      var i: nat :| i < |more| && more[i] == Look(pid) && ResetSince(more, i);
      var j :| i < j < |more| && more[j].Reset?;
      assert steps[i] == Look(pid);
      if j < |steps| {
        assert steps[j].Reset?;
      }
    }
    if Stale(steps, pid) {
      var i: nat :| i < |steps| && steps[i] == Look(pid) && ResetSince(steps, i);
      var j :| i < j < |steps| && steps[j].Reset?;
      assert more[i] == Look(pid) && more[j].Reset?;
    }
    if e.Reset? && Look(pid) in steps {
      var i :| 0 <= i < |steps| && steps[i] == Look(pid);
      assert more[i] == Look(pid) && more[|steps|].Reset?;
    }
  }

  /** How far a caller has come, by the steps that were taken. */
  ghost predicate Follows(steps: seq<Step>, s: State, pid: Pid) {
    && (pid in s.procs && !s.procs[pid].Refused? && !s.procs[pid].Closing? ==> Call(pid, s.procs[pid].key) in steps)
    && if pid !in s.procs || s.procs[pid].Asking? then Look(pid) !in steps && !TurnedAway(steps, pid)
    else
      match s.procs[pid]
      case Dialling(_, e) => Look(pid) in steps && !TurnedAway(steps, pid) && (e != s.epoch <==> Stale(steps, pid))
      case Dialled(_, e, _) => Look(pid) in steps && !TurnedAway(steps, pid) && (e != s.epoch <==> Stale(steps, pid))
      case Discarding(_, _, instead) => TurnedAway(steps, pid) <==> instead.None?
      case Returned(_, _) => !TurnedAway(steps, pid)
      case Refused => TurnedAway(steps, pid)
      case _ => true
  }

  lemma NoLookNotStale(steps: seq<Step>, pid: Pid)
    requires Look(pid) !in steps
    ensures !Stale(steps, pid)
  {
  }

  lemma OwnFollows(steps: seq<Step>, s: State, e: Step)
    requires Follows(steps, s, e.pid) && ProcsOk(s) && Enabled(s, e)
    ensures Follows(steps + [e], Next(s, e), e.pid)
  {
    TurnedAwayMore(steps, e, e.pid);
    StaleMore(steps, e, e.pid);
    assert (steps + [e])[|steps|] == e;
    assert forall x :: x in steps + [e] <==> x in steps || x == e;
    if Look(e.pid) !in steps {
      NoLookNotStale(steps, e.pid);
    }
  }

  lemma OtherFollows(steps: seq<Step>, s: State, e: Step, pid: Pid)
    requires Follows(steps, s, pid) && ProcsOk(s) && Enabled(s, e) && pid != e.pid
    ensures Follows(steps + [e], Next(s, e), pid)
  {
    TurnedAwayMore(steps, e, pid);
    StaleMore(steps, e, pid);
    assert forall x :: x in steps + [e] <==> x in steps || x == e;
    assert pid in s.procs ==> ProcOk(s, s.procs[pid]);
  }

  lemma {:induction false} RunFollows(before: seq<Step>, s: State, steps: seq<Step>, t: State, pid: Pid)
    requires Inv(s) && Follows(before, s, pid) && Run(s, steps, t)
    ensures Follows(before + steps, t, pid)
    decreases |steps|
  {
    if steps == [] {
      assert before + steps == before;
    } else {
      NextKeeps(s, steps[0]);
      if steps[0].pid == pid {
        OwnFollows(before, s, steps[0]);
      } else {
        OtherFollows(before, s, steps[0], pid);
      }
      RunFollows(before + [steps[0]], Next(s, steps[0]), steps[1..], t, pid);
      assert (before + [steps[0]]) + steps[1..] == before + steps;
    }
  }

  /** Under any interleaving, a call that is over was turned away exactly if its dial failed, it was cancelled, or
      a reset came between its look at the cache and its commit; in all other cases it was given a connection, and
      that one was dialled for what it asked for. */
  lemma TurnedAwayExactly(steps: seq<Step>, t: State, pid: Pid)
    requires Run(START, steps, t) && pid in t.procs
    ensures t.procs[pid].Refused? ==> TurnedAway(steps, pid)
    ensures t.procs[pid].Returned? ==>
              var p := t.procs[pid];
              !TurnedAway(steps, pid) && Call(pid, p.key) in steps && p.conn in t.dials && t.dials[p.conn].key == p.key
  {
    assert Inv(START);
    EveryRun(steps, t);
    assert ProcOk(t, t.procs[pid]);
    RunFollows([], START, steps, t, pid);
    assert [] + steps == steps;
  }

  /** A caller that has begun is never stuck, and only so many of its own steps lie ahead. */
  function Remaining(p: Proc): nat {
    match p
    case Asking(_) => 4
    case Dialling(_, _) => 3
    case Dialled(_, _, _) => 2
    case Discarding(_, _, _) => 1
    case _ => 0
  }

  lemma CallerGoesOn(s: State, pid: Pid) returns (e: Step)
    requires pid in s.procs && Remaining(s.procs[pid]) > 0
    ensures e.pid == pid && Enabled(s, e)
    ensures Remaining(Next(s, e).procs[pid]) < Remaining(s.procs[pid])
  {
    match s.procs[pid]
    case Asking(_) => e := Look(pid);
    case Dialling(_, _) => e := DialFail(pid);
    case Dialled(_, _, _) => e := Commit(pid, false);
    case Discarding(_, _, _) => e := CloseOwn(pid);
  }
}
