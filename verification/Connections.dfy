/**
 The connection cache of the services worker, cmd/cashflux-services/main.go.

 Callers dial without holding the lock, and a reset may come in between.  Every
 section under the lock, every dial and every close is one step; callers and
 resetters interleave freely.
 */
module Connections {
  import opened Wrappers

  type Key = string
  type Conn = nat
  type Pid = nat

  /** What is remembered of a successful dial: for which key, and the epoch it began in. */
  datatype Dial = Dial(key: Key, epoch: nat)

  datatype Proc =
    | Asking(key: Key)
    | Dialling(key: Key, epoch: nat)
    | Dialled(key: Key, epoch: nat, conn: Conn)
    | Discarding(key: Key, conn: Conn, instead: Option<Conn>)
    | Returned(key: Key, conn: Conn)
    | Refused
    | Closing(conns: set<Conn>)

  datatype State = State(conns: map<Key, Conn>, epoch: nat, procs: map<Pid, Proc>,
                         closed: set<Conn>, dials: map<Conn, Dial>)

  datatype Step =
    | Call(pid: Pid, key: Key)                       // connection is called
    | Look(pid: Pid)                                 // its first section under the lock
    | DialOk(pid: Pid, conn: Conn)
    | DialFail(pid: Pid)
    | Commit(pid: Pid, cancelled: bool)              // its second section under the lock
    | CloseOwn(pid: Pid)                             // closing a connection it may not keep
    | Reset(pid: Pid)                                // the section of reset under the lock
    | CloseNext(pid: Pid, conn: Conn)                // closing one that reset took out

  predicate Enabled(s: State, step: Step) {
    match step
    case Call(pid, _) => pid !in s.procs
    case Look(pid) => pid in s.procs && s.procs[pid].Asking?
    case DialOk(pid, conn) => pid in s.procs && s.procs[pid].Dialling? && conn !in s.dials
    case DialFail(pid) => pid in s.procs && s.procs[pid].Dialling?
    case Commit(pid, _) => pid in s.procs && s.procs[pid].Dialled?
    case CloseOwn(pid) => pid in s.procs && s.procs[pid].Discarding?
    case Reset(pid) => pid !in s.procs
    case CloseNext(pid, conn) => pid in s.procs && s.procs[pid].Closing? && conn in s.procs[pid].conns
  }

  function Next(s: State, step: Step): State
    requires Enabled(s, step)
  {
    match step
    case Call(pid, key) => s.(procs := s.procs[pid := Asking(key)])
    case Look(pid) =>
      var key := s.procs[pid].key;
      s.(procs := s.procs[pid := if key in s.conns then Returned(key, s.conns[key]) else Dialling(key, s.epoch)])
    case DialOk(pid, conn) =>
      var p := s.procs[pid];
      s.(procs := s.procs[pid := Dialled(p.key, p.epoch, conn)], dials := s.dials[conn := Dial(p.key, p.epoch)])
    case DialFail(pid) => s.(procs := s.procs[pid := Refused])
    case Commit(pid, cancelled) =>
      var p := s.procs[pid];
      if s.epoch != p.epoch || cancelled then
        s.(procs := s.procs[pid := Discarding(p.key, p.conn, None)])
      else if p.key in s.conns then
        s.(procs := s.procs[pid := Discarding(p.key, p.conn, Some(s.conns[p.key]))])
      else
        s.(conns := s.conns[p.key := p.conn], procs := s.procs[pid := Returned(p.key, p.conn)])
    case CloseOwn(pid) =>
      var p := s.procs[pid];
      var after := if p.instead.Some? then Returned(p.key, p.instead.value) else Refused;
      s.(procs := s.procs[pid := after], closed := s.closed + {p.conn})
    case Reset(pid) =>
      s.(conns := map[], epoch := s.epoch + 1, procs := s.procs[pid := Closing(s.conns.Values)])
    case CloseNext(pid, conn) =>
      s.(procs := s.procs[pid := Closing(s.procs[pid].conns - {conn})], closed := s.closed + {conn})
  }

  // ----- who holds a connection -----

  /** The connections a process still has to hand over or close. */
  function Hands(p: Proc): set<Conn> {
    match p
    case Dialled(_, _, conn) => {conn}
    case Discarding(_, conn, _) => {conn}
    case Closing(conns) => conns
    case _ => {}
  }

  ghost predicate Held(s: State, c: Conn) {
    exists pid :: pid in s.procs && c in Hands(s.procs[pid])
  }

  /** Cached connections are open, were dialled for their key, and in the current epoch. */
  ghost predicate CacheOk(s: State) {
    forall k | k in s.conns ::
      s.conns[k] in s.dials && s.dials[s.conns[k]] == Dial(k, s.epoch) && s.conns[k] !in s.closed
  }

  /** What a process holds is its own: dialled, open, neither cached nor held by anybody else. */
  ghost predicate HandsOk(s: State) {
    forall pid, c | pid in s.procs && c in Hands(s.procs[pid]) :: HandOk(s, pid, c)
  }

  ghost predicate HandOk(s: State, pid: Pid, c: Conn) {
    && c in s.dials && c !in s.closed
    && (forall k | k in s.conns :: s.conns[k] != c)
    && (forall other | other in s.procs && c in Hands(s.procs[other]) :: other == pid)
  }

  /** A connection given to a caller was dialled for its key, and is in the cache unless there was a reset. */
  ghost predicate Handed(s: State, k: Key, c: Conn) {
    && c in s.dials && s.dials[c].key == k && s.dials[c].epoch <= s.epoch
    && (s.dials[c].epoch == s.epoch ==> k in s.conns && s.conns[k] == c)
  }

  ghost predicate ProcOk(s: State, p: Proc) {
    match p
    case Dialling(_, e) => e <= s.epoch
    case Dialled(k, e, c) => e <= s.epoch && c in s.dials && s.dials[c] == Dial(k, e)
    case Discarding(k, _, instead) => instead.Some? ==> Handed(s, k, instead.value)
    case Returned(k, c) => Handed(s, k, c)
    case _ => true
  }

  ghost predicate ProcsOk(s: State) { forall pid | pid in s.procs :: ProcOk(s, s.procs[pid]) }

  /** Nothing leaks: a dialled connection is cached, closed, or in somebody's hands. */
  ghost predicate Accounted(s: State) {
    forall c | c in s.dials :: Cached(s, c) || c in s.closed || Held(s, c)
  }

  ghost predicate Cached(s: State, c: Conn) { exists k :: k in s.conns && s.conns[k] == c }

  ghost predicate Inv(s: State) {
    CacheOk(s) && HandsOk(s) && ProcsOk(s) && Accounted(s) && s.closed <= s.dials.Keys
  }

  const START := State(map[], 0, map[], {}, map[])

  /** History only grows. */
  ghost predicate Grown(s: State, t: State) {
    && s.epoch <= t.epoch && s.closed <= t.closed
    && forall c | c in s.dials :: c in t.dials && t.dials[c] == s.dials[c]
  }

  lemma NextGrown(s: State, step: Step)
    requires Enabled(s, step)
    ensures Grown(s, Next(s, step))
  {
  }

  lemma NextCacheOk(s: State, step: Step)
    requires CacheOk(s) && HandsOk(s) && ProcsOk(s) && s.closed <= s.dials.Keys && Enabled(s, step)
    ensures CacheOk(Next(s, step)) && Next(s, step).closed <= Next(s, step).dials.Keys
  {
    forall pid, c | pid in s.procs && c in Hands(s.procs[pid])
      ensures c in s.dials && c !in s.closed && forall k | k in s.conns :: s.conns[k] != c
    {
      assert HandOk(s, pid, c);
    }
  }

  lemma OwnProcOk(s: State, step: Step)
    requires CacheOk(s) && ProcsOk(s) && Enabled(s, step)
    ensures ProcOk(Next(s, step), Next(s, step).procs[step.pid])
  {
  }

  lemma NextProcsOk(s: State, step: Step)
    requires CacheOk(s) && ProcsOk(s) && Enabled(s, step)
    ensures ProcsOk(Next(s, step))
  {
    var t := Next(s, step);
    NextGrown(s, step);
    OwnProcOk(s, step);
    forall pid | pid in t.procs && pid != step.pid
      ensures ProcOk(t, t.procs[pid])
    {
      assert t.procs[pid] == s.procs[pid];
    }
  }

  lemma NextHandsOk(s: State, step: Step)
    requires CacheOk(s) && HandsOk(s) && s.closed <= s.dials.Keys && Enabled(s, step)
    ensures HandsOk(Next(s, step))
  {
    var t := Next(s, step);
    forall pid, c | pid in t.procs && c in Hands(t.procs[pid])
      ensures HandOk(t, pid, c)
    {
      HoldStep(s, step, pid, c);
    }
  }

  /** Where a connection in someone's hands after a step was before it. */
  lemma HoldStep(s: State, step: Step, pid: Pid, c: Conn)
    requires CacheOk(s) && HandsOk(s) && s.closed <= s.dials.Keys && Enabled(s, step)
    requires pid in Next(s, step).procs && c in Hands(Next(s, step).procs[pid])
    ensures || (pid in s.procs && c in Hands(s.procs[pid]))
            || (step.DialOk? && step.pid == pid && c == step.conn)
            || (step.Reset? && step.pid == pid && Cached(s, c))
    ensures HandOk(Next(s, step), pid, c)
  {
    assert pid in s.procs && c in Hands(s.procs[pid]) ==> HandOk(s, pid, c);
  }

  lemma NextAccounted(s: State, step: Step)
    requires Accounted(s) && Enabled(s, step)
    ensures Accounted(Next(s, step))
  {
    var t := Next(s, step);
    forall c | c in t.dials
      ensures Cached(t, c) || c in t.closed || Held(t, c)
    {
      AccountStep(s, step, c);
    }
  }

  lemma AccountStep(s: State, step: Step, c: Conn)
    requires Accounted(s) && Enabled(s, step) && c in Next(s, step).dials
    ensures var t := Next(s, step); Cached(t, c) || c in t.closed || Held(t, c)
  {
    var t := Next(s, step);
    if c !in s.dials {
      assert c in Hands(t.procs[step.pid]);
    } else if c in s.closed {
    } else if Cached(s, c) {
      var k :| k in s.conns && s.conns[k] == c;
      if step.Reset? {
        assert c in s.conns.Values;
        assert c in Hands(t.procs[step.pid]);
      } else {
        assert k in t.conns && t.conns[k] == c;
      }
    } else {
      var pid :| pid in s.procs && c in Hands(s.procs[pid]);
      assert pid in t.procs;
      if step.pid == pid && step.Commit? && Hands(t.procs[pid]) == {} {
        assert t.conns[s.procs[pid].key] == c;
      }
    }
  }

  lemma NextKeeps(s: State, step: Step)
    requires Inv(s) && Enabled(s, step)
    ensures Inv(Next(s, step))
  {
    NextCacheOk(s, step);
    NextProcsOk(s, step);
    NextHandsOk(s, step);
    NextAccounted(s, step);
  }

  /** Whatever a caller was given is open, unless there was a reset since it was dialled. */
  lemma HandedIsOpen(s: State, pid: Pid)
    requires Inv(s) && pid in s.procs && s.procs[pid].Returned?
    ensures var c := s.procs[pid].conn; c in s.dials && (c in s.closed ==> s.dials[c].epoch < s.epoch)
  {
    assert ProcOk(s, s.procs[pid]);
  }

  ghost predicate Run(s: State, steps: seq<Step>, t: State)
    decreases |steps|
  {
    if steps == [] then s == t else Enabled(s, steps[0]) && Run(Next(s, steps[0]), steps[1..], t)
  }

  /** Under any interleaving: the cache holds only open connections of the current epoch, each under the
      key it was dialled for, and no connection leaks or has two owners. */
  lemma {:induction false} RunKeeps(s: State, steps: seq<Step>, t: State)
    requires Inv(s) && Run(s, steps, t)
    ensures Inv(t) && Grown(s, t)
    decreases |steps|
  {
    if steps != [] {
      NextKeeps(s, steps[0]);
      NextGrown(s, steps[0]);
      RunKeeps(Next(s, steps[0]), steps[1..], t);
    }
  }

  lemma EveryRun(steps: seq<Step>, t: State)
    requires Run(START, steps, t)
    ensures Inv(t)
  {
    assert Inv(START);
    RunKeeps(START, steps, t);
  }

  /** After a reset, whatever was dialled before it is closed as soon as nobody holds it any more. */
  lemma ResetClosesEverything(s: State, pid: Pid, steps: seq<Step>, t: State, c: Conn)
    requires Inv(s) && pid !in s.procs && Run(Next(s, Reset(pid)), steps, t)
    requires c in t.dials && t.dials[c].epoch <= s.epoch && !Held(t, c)
    ensures c in t.closed
  {
    NextKeeps(s, Reset(pid));
    RunKeeps(Next(s, Reset(pid)), steps, t);
    assert !Cached(t, c);
  }
}
