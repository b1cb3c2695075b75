/** The lock protocol with the real updates: what `apply_once` and `set_pref` do to the stored state. */
module StateFile {
  import opened Wrappers
  import opened Outputs
  import opened Identity
  import opened Externals
  import opened Reapply
  import opened Locks
  import P = Preference
  import A = Apply

  datatype Op =
    | PlaceOp(exts: seq<Output>, primary: string, defaultSide: string)
    | PrefOp(outs: seq<Output>, wanted: P.Wanted, side: string, fallback: string)

  ghost predicate ProperOp(op: Op) {
    match op
    case PlaceOp(exts, primary, _) => AreExternals(exts, primary)
    case PrefOp(outs, _, _, _) => AllPlain(outs)
  }

  /** What the locked part computes from the state it read; `None` when it leaves the lock without saving.
      States that are not good are never read, which is what the main result below shows. */
  ghost function Update(op: Op): State -> Option<State>
    requires ProperOp(op)
  {
    (st: State) =>
      if !GoodState(st) then None
      else match op
        case PlaceOp(exts, primary, side) => Some(Placed(st, exts, primary, side))
        case PrefOp(outs, w, side, fallback) =>
          var seen := P.Visited(st, outs, w, side, fallback);
          if exists o | o in outs :: P.Names(o, w) then Some(seen)
          else if w.id.Some? && w.id.value in seen.profs then Some(Preferring(seen, w.id.value, side))
          else None
  }

  /** What a completed apply has to save is the update of the state it loaded. */
  lemma ApplyIsUpdate(issued: seq<A.Cmd>, loaded: A.File, saved: State, exts: seq<Output>, seen: map<string, Output>, side: string)
    requires A.Stored(issued, loaded, saved, exts, seen, side)
    ensures var op := PlaceOp(exts, A.PrimaryOf(Connected(seen)), side);
            ProperOp(op) && Update(op)(A.Start(loaded)) == Some(saved)
  {
    A.GoodStart(loaded);
  }

  /** What the preference command saves is the update of the state it loaded, and it saves nothing when there is none. */
  method PreferenceIsUpdate(outs: seq<Output>, w: P.Wanted, side: string, fallback: string, loaded: A.File)
    returns (r: P.Outcome)
    requires AllPlain(outs)
    ensures !r.BadSide? ==> Update(PrefOp(outs, w, side, fallback))(A.Start(loaded)) == if r.Saved? then Some(r.st) else None
  {
    A.GoodStart(loaded);
    r := P.SetPref(outs, w, side, fallback, loaded);
  }

  lemma {:induction false} VisitedStack(st: State, outs: seq<Output>, w: P.Wanted, side: string, defaultSide: string)
    ensures P.Visited(st, outs, w, side, defaultSide).stack == st.stack
  {
    if outs != [] {
      VisitedStack(st, outs[..|outs| - 1], w, side, defaultSide);
    }
  }

  lemma UpdateKeepsGood(op: Op, st: State)
    requires ProperOp(op) && GoodState(st) && Update(op)(st).Some?
    ensures GoodState(Update(op)(st).value)
  {
    match op
    case PlaceOp(exts, primary, side) =>
      PlacedAgrees(st, exts, primary, side);
    case PrefOp(outs, w, side, fallback) =>
      var seen := P.Visited(st, outs, w, side, fallback);
      P.VisitedAgrees(st, outs, w, side, fallback);
      VisitedStack(st, outs, w, side, fallback);
      if w.id.Some? && w.id.value in seen.profs {
        PreferringAgrees(seen, w.id.value, Lookup(seen.profs, w.id.value).(side := side));
      }
  }

  /** Every process is one of the two programs. */
  ghost predicate Programs(procs: seq<Proc<State>>, ops: seq<Op>) {
    && |ops| == |procs|
    && forall i | 0 <= i < |procs| :: ProperOp(ops[i]) && procs[i].update == Update(ops[i])
  }

  /** MAIN RESULT. Whatever applies and preference commands run against each other, crash, or fail to save:
      the stored identity map and profiles always agree, and the stack never lists a profile twice. */
  lemma StoredStateIsAlwaysGood(sys: Sys<State>, ops: seq<Op>, schedule: seq<Turn>)
    requires Starts(sys) && Runs(sys, schedule) && Programs(sys.procs, ops)
    requires GoodState(Locks.Read(sys))
    ensures GoodState(Locks.Read(End(sys, schedule)))
  {
    var good := (st: State) => GoodState(st);
    forall i | 0 <= i < |sys.procs| ensures Keeps(sys.procs[i].update, good) {
      forall st | good(st) && sys.procs[i].update(st).Some? ensures good(sys.procs[i].update(st).value) {
        UpdateKeepsGood(ops[i], st);
      }
    }
    FileKeeps(sys, schedule, good);
  }
}
