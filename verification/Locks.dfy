/** The two-lock protocol around the state file: any number of `apply_once` and `set_pref` processes,
    interleaved step by step, any of which may fail to save or crash anywhere. */
module Locks {
  import opened Wrappers

  datatype Contents<S> = Missing | Partial | Whole(value: S)

  /** `apply_once` holds the apply lock around everything; `set_pref` never touches it. */
  datatype Kind = Applier | Setter

  datatype Pc<S> =
    | Idle
    | Applying                      // holds the apply lock: waiting for X, reading, scrubbing
    | Waiting                       // blocked on the state lock
    | Locked                        // holds the state lock, nothing read yet
    | Loaded(seen: S)
    | Computed(was: S, now: S)
    | Opened(was: S, now: S)        // a temporary file, not yet complete
    | Synced(was: S, now: S)        // written, flushed and synced
    | Saved                         // replaced, or the failure logged
    | Unlocked                      // state lock released, apply lock still held
    | Done
    | Dead

  /** One process. `update` is what it does to the state it reads; `None` is an abort inside the lock. */
  datatype Proc<!S> = Proc(kind: Kind, update: S -> Option<S>, pc: Pc<S>, tmp: Contents<S>, ticket: nat, committed: bool)

  datatype Commit<S> = Commit(who: nat, ticket: nat, before: S, after: S)

  datatype Sys<!S> = Sys(
    empty: S,                       // what `load_state` answers when there is no readable file
    initial: S,                     // what it would have answered at the start
    procs: seq<Proc<S>>,
    applyLock: Option<nat>,
    stateLock: Option<nat>,
    file: Contents<S>,
    tickets: nat,                   // how often the state lock has been taken
    log: seq<Commit<S>>)            // the replacements, in order

  datatype Move = Begin | Refuse | Leave | Ask | TakeState | Load | Compute | OpenTmp | Flush | FailSave | Replace
                | UnlockState | UnlockApply | Crash

  function Read<S>(sys: Sys<S>): S {
    if sys.file.Whole? then sys.file.value else sys.empty
  }

  predicate Finished<S>(p: Proc<S>) {
    p.pc.Done? || p.pc.Dead?
  }

  predicate HoldsState<S>(p: Proc<S>) {
    p.pc.Locked? || p.pc.Loaded? || p.pc.Computed? || p.pc.Opened? || p.pc.Synced? || p.pc.Saved?
  }

  predicate HoldsApply<S>(p: Proc<S>) {
    p.kind.Applier? && (p.pc.Applying? || p.pc.Waiting? || HoldsState(p) || p.pc.Unlocked?)
  }

  predicate Enabled<S>(sys: Sys<S>, i: nat, m: Move) {
    i < |sys.procs| &&
    var p := sys.procs[i];
    match m
    case Begin => p.pc.Idle?
    case Refuse => p.pc.Idle? && p.kind.Applier?
    case Leave => p.pc.Applying?
    case Ask => p.pc.Applying?
    case TakeState => p.pc.Waiting? && sys.stateLock.None?
    case Load => p.pc.Locked?
    case Compute => p.pc.Loaded?
    case OpenTmp => p.pc.Computed?
    case Flush => p.pc.Opened?
    case FailSave => p.pc.Computed? || p.pc.Opened? || p.pc.Synced?
    case Replace => p.pc.Synced?
    case UnlockState => p.pc.Saved?
    case UnlockApply => p.pc.Unlocked?
    case Crash => !Finished(p)
  }

  function Drop(lock: Option<nat>, i: nat): Option<nat> {
    if lock == Some(i) then None else lock
  }

  function Put<S>(sys: Sys<S>, i: nat, p: Proc<S>): Sys<S>
    requires i < |sys.procs|
  {
    sys.(procs := sys.procs[i := p])
  }

  /** The process goes, and the kernel closes its lock files. */
  function Gone<S>(sys: Sys<S>, i: nat, pc: Pc<S>): Sys<S>
    requires i < |sys.procs|
  {
    Put(sys, i, sys.procs[i].(pc := pc)).(applyLock := Drop(sys.applyLock, i), stateLock := Drop(sys.stateLock, i))
  }

  function Step<S>(sys: Sys<S>, i: nat, m: Move): Sys<S>
    requires Enabled(sys, i, m)
  {
    var p := sys.procs[i];
    match m
    case Begin =>
      if p.kind.Setter? then Put(sys, i, p.(pc := Waiting))
      else if sys.applyLock.Some? then Put(sys, i, p.(pc := Done))           // never waits for the apply lock
      else Put(sys, i, p.(pc := Applying)).(applyLock := Some(i))
    case Refuse => Put(sys, i, p.(pc := Done))
    case Leave => Gone(sys, i, Done)
    case Ask => Put(sys, i, p.(pc := Waiting))
    case TakeState => Put(sys, i, p.(pc := Locked, ticket := sys.tickets)).(stateLock := Some(i), tickets := sys.tickets + 1)
    case Load => Put(sys, i, p.(pc := Loaded(Read(sys))))
    case Compute =>
      var u := p.update(p.pc.seen);
      if u.None? then Gone(sys, i, Done) else Put(sys, i, p.(pc := Computed(p.pc.seen, u.value)))
    case OpenTmp => Put(sys, i, p.(pc := Opened(p.pc.was, p.pc.now), tmp := Partial))
    case Flush => Put(sys, i, p.(pc := Synced(p.pc.was, p.pc.now), tmp := Whole(p.pc.now)))
    case FailSave => Put(sys, i, p.(pc := Saved, tmp := Missing))
    case Replace =>
      Put(sys, i, p.(pc := Saved, tmp := Missing, committed := true))
        .(file := p.tmp, log := sys.log + [Commit(i, p.ticket, p.pc.was, p.pc.now)])
    case UnlockState =>
      if p.kind.Setter? then Gone(sys, i, Done)
      else Put(sys, i, p.(pc := Unlocked)).(stateLock := Drop(sys.stateLock, i))
    case UnlockApply => Gone(sys, i, Done)
    case Crash => Gone(sys, i, Dead)
  }

  // ---- the invariant ---------------------------------------------------------------------------

  ghost predicate LockState<S>(sys: Sys<S>) {
    && (forall i | 0 <= i < |sys.procs| :: HoldsState(sys.procs[i]) <==> sys.stateLock == Some(i))
    && (forall i | 0 <= i < |sys.procs| :: HoldsApply(sys.procs[i]) <==> sys.applyLock == Some(i))
    && (sys.stateLock.Some? ==> sys.stateLock.value < |sys.procs|)
    && (sys.applyLock.Some? ==> sys.applyLock.value < |sys.procs|)
  }

  /** What a process has read is still what the file says, and what it will write follows from it. */
  ghost predicate Current<S>(sys: Sys<S>, p: Proc<S>) {
    && (p.pc.Loaded? ==> p.pc.seen == Read(sys))
    && (p.pc.Computed? || p.pc.Opened? || p.pc.Synced? ==> p.pc.was == Read(sys) && p.update(p.pc.was) == Some(p.pc.now))
    && (p.pc.Synced? ==> p.tmp == Whole(p.pc.now))
    && (p.pc.Applying? || p.pc.Unlocked? ==> p.kind.Applier?)
    && (p.pc.Idle? || p.pc.Applying? || p.pc.Waiting? || (HoldsState(p) && !p.pc.Saved?) ==> !p.committed)
    && (HoldsState(p) ==> p.ticket < sys.tickets)
  }

  ghost predicate AllCurrent<S>(sys: Sys<S>) {
    forall i | 0 <= i < |sys.procs| :: Current(sys, sys.procs[i])
  }

  /** Each replacement was computed, by its process's own update, from what its predecessor left. */
  ghost predicate Chained<S>(sys: Sys<S>) {
    forall k | 0 <= k < |sys.log| :: Follows(sys, k)
  }

  ghost predicate Follows<S>(sys: Sys<S>, k: nat)
    requires k < |sys.log|
  {
    && sys.log[k].who < |sys.procs|
    && sys.procs[sys.log[k].who].update(sys.log[k].before) == Some(sys.log[k].after)
    && sys.log[k].before == if k == 0 then sys.initial else sys.log[k - 1].after
  }

  /** The log lists the committed processes, once each, in the order they held the state lock. */
  ghost predicate Ordered<S>(sys: Sys<S>) {
    && (forall k | 0 <= k < |sys.log| :: sys.log[k].who < |sys.procs| && sys.procs[sys.log[k].who].committed)
    && (forall i | 0 <= i < |sys.procs| && sys.procs[i].committed :: exists k :: 0 <= k < |sys.log| && sys.log[k].who == i)
    && (forall k, l | 0 <= k < l < |sys.log| :: sys.log[k].who != sys.log[l].who && sys.log[k].ticket < sys.log[l].ticket)
    && (forall k | 0 <= k < |sys.log| :: sys.log[k].ticket < sys.tickets)
    && (forall k, i | 0 <= k < |sys.log| && 0 <= i < |sys.procs| && HoldsState(sys.procs[i]) && !sys.procs[i].pc.Saved? ::
          sys.log[k].ticket < sys.procs[i].ticket)
  }

  ghost predicate FileIsLast<S>(sys: Sys<S>) {
    && !sys.file.Partial?
    && Read(sys) == if sys.log == [] then sys.initial else sys.log[|sys.log| - 1].after
  }

  ghost predicate Inv<S>(sys: Sys<S>) {
    LockState(sys) && AllCurrent(sys) && Chained(sys) && Ordered(sys) && FileIsLast(sys)
  }

  // ---- every step keeps it ------------------------------------------------------------------------

  /** A step changes one process and never what that process would do to a state. */
  ghost predicate OneMoves<S>(sys: Sys<S>, after: Sys<S>, i: nat) {
    && i < |sys.procs| && |after.procs| == |sys.procs|
    && after.procs == sys.procs[i := after.procs[i]]
    && after.procs[i].update == sys.procs[i].update && after.procs[i].kind == sys.procs[i].kind
    && after.initial == sys.initial && after.empty == sys.empty
  }

  lemma StepIsLocal<S>(sys: Sys<S>, i: nat, m: Move)
    requires Enabled(sys, i, m)
    ensures OneMoves(sys, Step(sys, i, m), i)
  {
  }

  /** A lock may pass from or to the process that moves, and to no other. */
  ghost predicate Handed(before: Option<nat>, after: Option<nat>, i: nat) {
    after == before || (before == Some(i) && after == None) || (before == None && after == Some(i))
  }

  lemma HandedOver<S>(sys: Sys<S>, after: Sys<S>, i: nat)
    requires LockState(sys) && OneMoves(sys, after, i)
    requires Handed(sys.stateLock, after.stateLock, i) && Handed(sys.applyLock, after.applyLock, i)
    requires HoldsState(after.procs[i]) <==> after.stateLock == Some(i)
    requires HoldsApply(after.procs[i]) <==> after.applyLock == Some(i)
    ensures LockState(after)
  {
    forall j | 0 <= j < |after.procs| && j != i ensures after.procs[j] == sys.procs[j] {
    }
  }

  lemma LocksKept<S>(sys: Sys<S>, i: nat, m: Move)
    requires LockState(sys) && Enabled(sys, i, m) && Current(sys, sys.procs[i])
    ensures LockState(Step(sys, i, m))
  {
    StepIsLocal(sys, i, m);
    var p := sys.procs[i];
    assert HoldsState(p) <==> sys.stateLock == Some(i);
    assert HoldsApply(p) <==> sys.applyLock == Some(i);
    HandedOver(sys, Step(sys, i, m), i);
  }

  /** Only the holder of the state lock replaces the file, so what the others have read stays true. */
  lemma OthersStayCurrent<S>(sys: Sys<S>, after: Sys<S>, i: nat, j: nat)
    requires OneMoves(sys, after, i) && j < |sys.procs| && j != i && Current(sys, sys.procs[j])
    requires Read(after) == Read(sys) || !HoldsState(sys.procs[j])
    requires sys.tickets <= after.tickets
    ensures Current(after, after.procs[j])
  {
  }

  lemma MoverStaysCurrent<S>(sys: Sys<S>, i: nat, m: Move)
    requires Enabled(sys, i, m) && Current(sys, sys.procs[i])
    ensures Current(Step(sys, i, m), Step(sys, i, m).procs[i])
  {
  }

  lemma CurrentKept<S>(sys: Sys<S>, i: nat, m: Move)
    requires LockState(sys) && AllCurrent(sys) && Enabled(sys, i, m)
    ensures AllCurrent(Step(sys, i, m))
  {
    var after := Step(sys, i, m);
    StepIsLocal(sys, i, m);
    forall j | 0 <= j < |after.procs| ensures Current(after, after.procs[j]) {
      assert Current(sys, sys.procs[j]);
      if j == i {
        MoverStaysCurrent(sys, i, m);
      } else {
        OthersStayCurrent(sys, after, i, j);
      }
    }
  }

  ghost predicate Replaced<S>(sys: Sys<S>, after: Sys<S>, i: nat)
    requires i < |sys.procs| && sys.procs[i].pc.Synced?
  {
    && i < |after.procs| && after.procs[i].committed && after.tickets == sys.tickets
    && after.file == sys.procs[i].tmp
    && after.log == sys.log + [Commit(i, sys.procs[i].ticket, sys.procs[i].pc.was, sys.procs[i].pc.now)]
  }

  lemma OnlyReplaceWrites<S>(sys: Sys<S>, i: nat, m: Move)
    requires Enabled(sys, i, m)
    ensures var after := Step(sys, i, m);
            && sys.tickets <= after.tickets
            && (m != Replace ==> after.file == sys.file && after.log == sys.log && after.procs[i].committed == sys.procs[i].committed)
            && (m == Replace ==> Replaced(sys, after, i))
  {
  }

  lemma ChainExtends<S>(sys: Sys<S>, after: Sys<S>, i: nat)
    requires Chained(sys) && FileIsLast(sys) && OneMoves(sys, after, i)
    requires after.log == sys.log || (sys.procs[i].pc.Synced? && Current(sys, sys.procs[i]) && Replaced(sys, after, i))
    ensures Chained(after)
  {
    forall k | 0 <= k < |after.log| ensures Follows(after, k) {
      if k < |sys.log| {
        assert Follows(sys, k) && after.log[k] == sys.log[k];
        assert k > 0 ==> after.log[k - 1] == sys.log[k - 1];
        assert sys.log[k].who == i || after.procs[sys.log[k].who] == sys.procs[sys.log[k].who];
      } else {
        assert after.log[k].before == Read(sys);
        assert k > 0 ==> after.log[k - 1] == sys.log[k - 1];
      }
    }
  }

  lemma ChainKept<S>(sys: Sys<S>, i: nat, m: Move)
    requires Chained(sys) && FileIsLast(sys) && Enabled(sys, i, m) && Current(sys, sys.procs[i])
    ensures Chained(Step(sys, i, m)) && FileIsLast(Step(sys, i, m))
  {
    StepIsLocal(sys, i, m);
    OnlyReplaceWrites(sys, i, m);
    ChainExtends(sys, Step(sys, i, m), i);
  }

  /** The log half of the order, across a replacement. */
  lemma OrderAppends<S>(sys: Sys<S>, after: Sys<S>, i: nat)
    requires LockState(sys) && Ordered(sys) && OneMoves(sys, after, i) && Current(sys, sys.procs[i])
    requires sys.procs[i].pc.Synced? && Replaced(sys, after, i) && after.procs[i].pc.Saved?
    ensures Ordered(after)
  {
    assert !sys.procs[i].committed && HoldsState(sys.procs[i]);
    assert forall k | 0 <= k < |sys.log| :: after.log[k] == sys.log[k] && sys.log[k].who != i;
    forall j | 0 <= j < |after.procs| && after.procs[j].committed ensures exists k :: 0 <= k < |after.log| && after.log[k].who == j {
      if j == i {
        assert after.log[|sys.log|].who == i;
      } else {
        assert sys.procs[j].committed;
        var k :| 0 <= k < |sys.log| && sys.log[k].who == j;
        assert after.log[k].who == j;
      }
    }
    forall j | 0 <= j < |after.procs| ensures HoldsState(after.procs[j]) ==> after.procs[j].pc.Saved? {
      if j != i {
        assert after.procs[j] == sys.procs[j];
        assert HoldsState(sys.procs[j]) <==> sys.stateLock == Some(j);
      }
    }
  }

  /** The same when nothing is replaced: a new ticket is above all that were given out. */
  lemma OrderStays<S>(sys: Sys<S>, after: Sys<S>, i: nat)
    requires Ordered(sys) && OneMoves(sys, after, i)
    requires after.log == sys.log && after.procs[i].committed == sys.procs[i].committed && sys.tickets <= after.tickets
    requires HoldsState(after.procs[i]) && !after.procs[i].pc.Saved? ==>
               after.procs[i].ticket == sys.tickets
               || (after.procs[i].ticket == sys.procs[i].ticket && HoldsState(sys.procs[i]) && !sys.procs[i].pc.Saved?)
    ensures Ordered(after)
  {
    forall j | 0 <= j < |after.procs| && after.procs[j].committed ensures exists k :: 0 <= k < |after.log| && after.log[k].who == j {
      assert sys.procs[j].committed;
    }
    forall k, j | 0 <= k < |after.log| && 0 <= j < |after.procs| && HoldsState(after.procs[j]) && !after.procs[j].pc.Saved?
      ensures after.log[k].ticket < after.procs[j].ticket
    {
      if j != i {
        assert after.procs[j] == sys.procs[j];
      }
    }
  }

  lemma OrderKept<S>(sys: Sys<S>, i: nat, m: Move)
    requires LockState(sys) && Ordered(sys) && Enabled(sys, i, m) && Current(sys, sys.procs[i])
    ensures Ordered(Step(sys, i, m))
  {
    StepIsLocal(sys, i, m);
    OnlyReplaceWrites(sys, i, m);
    if m == Replace {
      OrderAppends(sys, Step(sys, i, m), i);
    } else {
      OrderStays(sys, Step(sys, i, m), i);
    }
  }

  /** INVARIANT. Every step of every process, in any interleaving, keeps it. */
  lemma StepKeepsInv<S>(sys: Sys<S>, i: nat, m: Move)
    requires Inv(sys) && Enabled(sys, i, m)
    ensures Inv(Step(sys, i, m))
  {
    assert Current(sys, sys.procs[i]);
    LocksKept(sys, i, m);
    CurrentKept(sys, i, m);
    ChainKept(sys, i, m);
    OrderKept(sys, i, m);
  }

  // ---- runs -------------------------------------------------------------------------------------------

  ghost predicate Starts<S>(sys: Sys<S>) {
    && (forall i | 0 <= i < |sys.procs| :: sys.procs[i].pc.Idle? && !sys.procs[i].committed)
    && sys.applyLock.None? && sys.stateLock.None? && !sys.file.Partial?
    && sys.initial == Read(sys) && sys.tickets == 0 && sys.log == []
  }

  datatype Turn = Turn(who: nat, move: Move)

  ghost predicate Runs<S>(sys: Sys<S>, schedule: seq<Turn>)
    decreases |schedule|
  {
    schedule == [] ||
    (Enabled(sys, schedule[0].who, schedule[0].move) && Runs(Step(sys, schedule[0].who, schedule[0].move), schedule[1..]))
  }

  ghost function End<S>(sys: Sys<S>, schedule: seq<Turn>): Sys<S>
    requires Runs(sys, schedule)
    decreases |schedule|
  {
    if schedule == [] then sys else End(Step(sys, schedule[0].who, schedule[0].move), schedule[1..])
  }

  lemma {:induction false} RunKeepsInv<S>(sys: Sys<S>, schedule: seq<Turn>)
    requires Inv(sys) && Runs(sys, schedule)
    ensures Inv(End(sys, schedule))
    decreases |schedule|
  {
    if schedule != [] {
      StepKeepsInv(sys, schedule[0].who, schedule[0].move);
      RunKeepsInv(Step(sys, schedule[0].who, schedule[0].move), schedule[1..]);
    }
  }

  /** The updates of these commits, one after the other. */
  ghost function Folded<S>(procs: seq<Proc<S>>, log: seq<Commit<S>>, initial: S): Option<S> {
    if log == [] then Some(initial)
    else
      var before := Folded(procs, log[..|log| - 1], initial);
      var who := log[|log| - 1].who;
      if before.None? || who >= |procs| then None else procs[who].update(before.value)
  }

  lemma {:induction false} ChainIsFold<S>(sys: Sys<S>, n: nat)
    requires Chained(sys) && n <= |sys.log|
    ensures Folded(sys.procs, sys.log[..n], sys.initial) == Some(if n == 0 then sys.initial else sys.log[n - 1].after)
  {
    if n > 0 {
      ChainIsFold(sys, n - 1);
      assert sys.log[..n][..n - 1] == sys.log[..n - 1];
      assert Follows(sys, n - 1);
    }
  }

  /** MAIN RESULT. From any start, after any interleaving of any number of processes with crashes and failed
      saves anywhere: the file is never partial, and it is the fold, in state-lock order, of exactly the
      updates of the processes that replaced it, each applied to what its predecessor left. */
  lemma FileIsTheFold<S>(sys: Sys<S>, schedule: seq<Turn>)
    requires Starts(sys) && Runs(sys, schedule)
    ensures var end := End(sys, schedule);
            && !end.file.Partial?
            && Folded(end.procs, end.log, end.initial) == Some(Read(end))
            && (forall k, l | 0 <= k < l < |end.log| :: end.log[k].ticket < end.log[l].ticket && end.log[k].who != end.log[l].who)
            && (forall i | 0 <= i < |end.procs| :: end.procs[i].committed <==> Listed(end.log, i))
  {
    RunKeepsInv(sys, schedule);
    InvMeans(End(sys, schedule));
  }

  ghost predicate Listed<S>(log: seq<Commit<S>>, i: nat) {
    exists k :: 0 <= k < |log| && log[k].who == i
  }

  lemma InvMeans<S>(sys: Sys<S>)
    requires Inv(sys)
    ensures !sys.file.Partial? && Folded(sys.procs, sys.log, sys.initial) == Some(Read(sys))
    ensures forall k, l | 0 <= k < l < |sys.log| :: sys.log[k].ticket < sys.log[l].ticket && sys.log[k].who != sys.log[l].who
    ensures forall i | 0 <= i < |sys.procs| :: sys.procs[i].committed <==> Listed(sys.log, i)
  {
    ChainIsFold(sys, |sys.log|);
    assert sys.log[..|sys.log|] == sys.log;
  }

  // ---- nothing is lost silently ---------------------------------------------------------------------

  /** A process has committed exactly when it made its replacement. */
  lemma {:induction false} CommittedExactly<S>(sys: Sys<S>, schedule: seq<Turn>, i: nat)
    requires Runs(sys, schedule) && i < |sys.procs|
    ensures i < |End(sys, schedule).procs|
    ensures End(sys, schedule).procs[i].committed <==> sys.procs[i].committed || Turn(i, Replace) in schedule
    decreases |schedule|
  {
    if schedule != [] {
      StepIsLocal(sys, schedule[0].who, schedule[0].move);
      OnlyReplaceWrites(sys, schedule[0].who, schedule[0].move);
      CommittedExactly(Step(sys, schedule[0].who, schedule[0].move), schedule[1..], i);
      assert schedule == [schedule[0]] + schedule[1..];
    }
  }

  /** On its way to a replacement: a preference command from the start, an apply once it has the apply lock, and either
      until it is through with the state lock. */
  predicate Pending<S>(p: Proc<S>) {
    (p.pc.Idle? && p.kind.Setter?) || p.pc.Applying? || p.pc.Waiting? || (HoldsState(p) && !p.pc.Saved?)
  }

  /** An apply that begins takes the apply lock if it is free, and otherwise gives up at once without waiting for it. */
  lemma BeginsOrGivesUp<S>(sys: Sys<S>, i: nat)
    requires Enabled(sys, i, Begin) && sys.procs[i].kind.Applier?
    ensures var after := Step(sys, i, Begin);
            if sys.applyLock.None? then Pending(after.procs[i]) && HoldsApply(after.procs[i]) && after.applyLock == Some(i)
            else Finished(after.procs[i]) && !after.procs[i].pc.Dead? && after.applyLock == sys.applyLock && after.file == sys.file
  {
  }

  /** Its update has nothing to store for some state. */
  ghost predicate MayAbort<S(!new)>(p: Proc<S>) {
    exists st :: p.update(st) == None
  }

  predicate Unhurt(schedule: seq<Turn>, i: nat) {
    Turn(i, FailSave) !in schedule && Turn(i, Crash) !in schedule && Turn(i, Leave) !in schedule
  }

  /** MAIN RESULT. No update is lost silently: a process on its way to a replacement that ends by itself has committed, if no
      save of its failed, it did not leave for a failed read, and its update has something to store. */
  lemma {:induction false} PendingCommits<S(!new)>(sys: Sys<S>, schedule: seq<Turn>, i: nat)
    requires Runs(sys, schedule) && i < |sys.procs| && Pending(sys.procs[i]) && !MayAbort(sys.procs[i]) && Unhurt(schedule, i)
    ensures i < |End(sys, schedule).procs| && (Finished(End(sys, schedule).procs[i]) ==> End(sys, schedule).procs[i].committed)
    decreases |schedule|
  {
    if schedule != [] {
      var who, m := schedule[0].who, schedule[0].move;
      StepIsLocal(sys, who, m);
      assert Turn(who, m) in schedule && schedule == [schedule[0]] + schedule[1..];
      if who == i && m == Replace {
        CommittedExactly(sys, schedule, i);
      } else {
        if who == i { StaysPending(sys, i, m); }
        PendingCommits(Step(sys, who, m), schedule[1..], i);
      }
    }
  }

  lemma StaysPending<S(!new)>(sys: Sys<S>, i: nat, m: Move)
    requires Enabled(sys, i, m) && Pending(sys.procs[i]) && !MayAbort(sys.procs[i]) && m !in {FailSave, Crash, Leave, Replace}
    ensures Pending(Step(sys, i, m).procs[i])
  {
    if m == Compute { assert sys.procs[i].update(sys.procs[i].pc.seen).Some?; }
  }

  // ---- no deadlock ----------------------------------------------------------------------------------

  /** A move the process makes by itself, short of crashing. */
  function OwnMove<S>(p: Proc<S>): Move {
    match p.pc
    case Idle => Begin
    case Applying => Ask
    case Waiting => TakeState
    case Locked => Load
    case Loaded(_) => Compute
    case Computed(_, _) => OpenTmp
    case Opened(_, _) => Flush
    case Synced(_, _) => Replace
    case Saved => UnlockState
    case Unlocked => UnlockApply
    case _ => Crash
  }

  /** MAIN RESULT. No reachable state is deadlocked: a process that cannot move waits for the state lock, and
      the holder of that lock can move. */
  lemma NoDeadlock<S>(sys: Sys<S>, i: nat)
    requires Inv(sys) && i < |sys.procs| && !Finished(sys.procs[i])
    ensures OwnMove(sys.procs[i]) != Crash
    ensures !Enabled(sys, i, OwnMove(sys.procs[i])) ==>
              && sys.stateLock.Some? && sys.stateLock.value != i && sys.stateLock.value < |sys.procs|
              && Enabled(sys, sys.stateLock.value, OwnMove(sys.procs[sys.stateLock.value]))
              && OwnMove(sys.procs[sys.stateLock.value]) != Crash
  {
    if sys.stateLock.Some? {
      assert HoldsState(sys.procs[sys.stateLock.value]);
    }
  }

  function Rank<S>(pc: Pc<S>): nat {
    match pc
    case Idle => 11
    case Applying => 10
    case Waiting => 9
    case Locked => 8
    case Loaded(_) => 7
    case Computed(_, _) => 6
    case Opened(_, _) => 5
    case Synced(_, _) => 4
    case Saved => 3
    case Unlocked => 2
    case Done => 0
    case Dead => 0
  }

  function Work<S>(procs: seq<Proc<S>>): nat {
    if procs == [] then 0 else Work(procs[..|procs| - 1]) + Rank(procs[|procs| - 1].pc)
  }

  lemma {:induction false} WorkAfter<S>(procs: seq<Proc<S>>, i: nat, p: Proc<S>)
    requires i < |procs|
    ensures Work(procs[i := p]) == Work(procs) - Rank(procs[i].pc) + Rank(p.pc)
  {
    var n := |procs| - 1;
    if i == n {
      assert procs[i := p][..n] == procs[..n];
    } else {
      WorkAfter(procs[..n], i, p);
      assert procs[i := p][..n] == procs[..n][i := p];
    }
  }

  /** Nobody runs for ever: every step uses up some of a finite amount of work. */
  lemma EveryStepIsProgress<S>(sys: Sys<S>, i: nat, m: Move)
    requires Enabled(sys, i, m)
    ensures Work(Step(sys, i, m).procs) < Work(sys.procs)
  {
    StepIsLocal(sys, i, m);
    WorkAfter(sys.procs, i, Step(sys, i, m).procs[i]);
  }

  // ---- what every update keeps, the file keeps ----------------------------------------------------------

  ghost predicate Keeps<S(!new)>(update: S -> Option<S>, good: S -> bool) {
    forall s | good(s) && update(s).Some? :: good(update(s).value)
  }

  ghost predicate AllKeep<S(!new)>(procs: seq<Proc<S>>, good: S -> bool) {
    forall i | 0 <= i < |procs| :: Keeps(procs[i].update, good)
  }

  lemma {:induction false} ChainKeeps<S(!new)>(sys: Sys<S>, n: nat, good: S -> bool)
    requires Chained(sys) && n <= |sys.log| && good(sys.initial) && AllKeep(sys.procs, good)
    ensures good(if n == 0 then sys.initial else sys.log[n - 1].after)
  {
    if n > 0 {
      ChainKeeps(sys, n - 1, good);
      assert Follows(sys, n - 1);
      assert Keeps(sys.procs[sys.log[n - 1].who].update, good);
    }
  }

  lemma {:induction false} RunKeepsUpdates<S(!new)>(sys: Sys<S>, schedule: seq<Turn>, good: S -> bool)
    requires Runs(sys, schedule) && AllKeep(sys.procs, good)
    ensures AllKeep(End(sys, schedule).procs, good) && End(sys, schedule).initial == sys.initial
    decreases |schedule|
  {
    if schedule != [] {
      var next := Step(sys, schedule[0].who, schedule[0].move);
      StepIsLocal(sys, schedule[0].who, schedule[0].move);
      forall j | 0 <= j < |next.procs| ensures Keeps(next.procs[j].update, good) {
        assert Keeps(sys.procs[j].update, good);
      }
      RunKeepsUpdates(next, schedule[1..], good);
    }
  }

  /** MAIN RESULT. A property of the initial state that every process's update keeps holds of the file
      at the end of every run, whatever crashed or failed to save on the way. */
  lemma FileKeeps<S(!new)>(sys: Sys<S>, schedule: seq<Turn>, good: S -> bool)
    requires Starts(sys) && Runs(sys, schedule) && good(sys.initial) && AllKeep(sys.procs, good)
    ensures good(Read(End(sys, schedule)))
  {
    RunKeepsInv(sys, schedule);
    RunKeepsUpdates(sys, schedule, good);
    ChainKeeps(End(sys, schedule), |End(sys, schedule).log|, good);
  }
}
