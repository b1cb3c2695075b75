/** What a second apply over the same outputs does, and the one thing that spoils it: a profile handed
    to one external and merged away by a later one of the same apply. */
module Reapply {
  import opened Outputs
  import opened Dock
  import opened Identity
  import opened Sightings
  import opened Externals

  // ---- what happens to an id once it is handed out ------------------------------------------

  /** An id that was handed out, and that no identity maps to any more. */
  ghost predicate Gone(st: State, p: Pid) {
    SeedKey(p) in st.ids && forall k | k in st.ids :: st.ids[k] != p
  }

  lemma GoneStaysGone(st: State, o: Output, side: string, p: Pid)
    requires Gone(st, p) && Plain(o)
    ensures Gone(Ensure(st, o, side), p) && Target(st, o) != p
  {
    if !Known(st, o) {
      assert SeedKey(Pid(Seed(o))) in IdentKeys(o);
    }
  }

  lemma OwnedOrGone(st: State, o: Output, side: string, k: Key, p: Pid)
    requires Agree(st) && Owns(st.ids, p, k)
    ensures Owns(Ensure(st, o, side).ids, p, k) || Gone(Ensure(st, o, side), p)
  {
    assert Sound(st, st.ids[k]);
  }

  /** The id external `i` was given is still its class's id when the last external has been seen. */
  ghost predicate StillMine(st: State, exts: seq<Output>, side: string, i: nat)
    requires i < |exts|
  {
    Owns(Sighted(st, exts, side).ids, Pids(st, exts, side)[i], ConnKey(exts[i].name))
  }

  ghost predicate NoneMergedAway(st: State, exts: seq<Output>, side: string) {
    forall i | 0 <= i < |exts| :: StillMine(st, exts, side, i)
  }

  /** External `j` takes the merge branch, and the id it pops is the one external `i` was given. */
  ghost predicate Absorbs(st: State, exts: seq<Output>, side: string, i: nat, j: nat)
    requires i < j < |exts|
  {
    var before := SightedTo(st, exts, side, j);
    Bridge(before, exts[j]) && before.ids[ConnKey(exts[j].name)] == Pids(st, exts, side)[i]
  }

  /** No id given to an external is popped by a later one. */
  ghost predicate NoneAbsorbed(st: State, exts: seq<Output>, side: string) {
    forall i: nat, j: nat | i < j < |exts| :: !Absorbs(st, exts, side, i, j)
  }

  lemma StepMineOrGone(st: State, o: Output, side: string, k: Key, p: Pid)
    requires Agree(st) && Plain(o)
    requires Owns(st.ids, p, k) || Gone(st, p)
    ensures Owns(Ensure(st, o, side).ids, p, k) || Gone(Ensure(st, o, side), p)
  {
    if Owns(st.ids, p, k) {
      OwnedOrGone(st, o, side, k, p);
    } else {
      GoneStaysGone(st, o, side, p);
    }
  }

  ghost predicate OwnsOrGone(st: State, k: Key, p: Pid) {
    Owns(st.ids, p, k) || Gone(st, p)
  }

  lemma {:induction false} Onward(st: State, exts: seq<Output>, side: string, k: Key, p: Pid, a: nat, n: nat)
    requires Agree(st) && AllPlain(exts) && a <= n <= |exts|
    requires OwnsOrGone(SightedTo(st, exts, side, a), k, p)
    ensures OwnsOrGone(SightedTo(st, exts, side, n), k, p)
  {
    if a < n {
      Onward(st, exts, side, k, p, a, n - 1);
      SightedAgreesTo(st, exts, side, n - 1);
      StepMineOrGone(SightedTo(st, exts, side, n - 1), exts[n - 1], side, k, p);
    }
  }

  /** An id once given to an external is its class's for good, or was merged away for good. */
  lemma MineOrGone(st: State, exts: seq<Output>, side: string, i: nat)
    requires Agree(st) && AllPlain(exts) && i < |exts|
    ensures StillMine(st, exts, side, i) || Gone(Sighted(st, exts, side), Pids(st, exts, side)[i])
  {
    JustSeen(SightedTo(st, exts, side, i), exts[i], side);
    Onward(st, exts, side, ConnKey(exts[i].name), Pids(st, exts, side)[i], i + 1, |exts|);
  }

  /** All identities of an external end in one class. */
  lemma {:induction false} KeysStayTogether(st: State, exts: seq<Output>, side: string, i: nat, a: Key, b: Key, n: nat)
    requires i < n <= |exts| && a in IdentKeys(exts[i]) && b in IdentKeys(exts[i])
    ensures SameClass(SightedTo(st, exts, side, n), a, b)
  {
    var before := SightedTo(st, exts, side, n - 1);
    if i < n - 1 {
      KeysStayTogether(st, exts, side, i, a, b, n - 1);
      ClassesNeverSplit(before, Seen(exts[n - 1], side), a, b);
    } else {
      ShownTogether(before, Seen(exts[n - 1], side), a, b);
    }
  }

  // ---- what a whole apply leaves of the preferences ------------------------------------------------

  /** A profile that is gone does not come back under its id. */
  lemma NotRevived(st: State, o: Output, side: string, p: Pid)
    requires Agree(st) && Plain(o) && SeedKey(p) in st.ids && p !in st.profs
    ensures p !in Ensure(st, o, side).profs
  {
    if Known(st, o) {
      assert Target(st, o) in st.profs by {
        var k := if o.edid.Some? && EdidKey(o.edid.value) in st.ids then EdidKey(o.edid.value) else ConnKey(o.name);
        assert Sound(st, st.ids[k]);
      }
    } else {
      assert SeedKey(Pid(Seed(o))) in IdentKeys(o);
    }
  }

  lemma SeedStays(st: State, exts: seq<Output>, side: string, p: Pid, n: nat)
    requires Rooted(st) && p in st.profs && n <= |exts|
    ensures SeedKey(p) in SightedTo(st, exts, side, n).ids
  {
    SightedGrows(st, exts, side, 0, n);
    assert SeedKey(p) in st.ids.Keys;
  }

  /** A profile there afterwards was there before, with its side if it had one. */
  predicate Carries(before: State, after: State, p: Pid) {
    p in after.profs ==>
      p in before.profs && (before.profs[p].side != "" ==> after.profs[p].side == before.profs[p].side)
  }

  lemma StepCarries(st: State, o: Output, side: string, p: Pid)
    requires Agree(st) && Plain(o) && SeedKey(p) in st.ids
    ensures Carries(st, Ensure(st, o, side), p)
  {
    if p !in st.profs {
      NotRevived(st, o, side, p);
    } else if p in Ensure(st, o, side).profs && st.profs[p].side != "" {
      SidesSurvive(st, o, side, p);
    }
  }

  lemma TurnCarries(st: State, exts: seq<Output>, side: string, p: Pid, n: nat)
    requires Agree(st) && AllPlain(exts) && n < |exts| && p in st.profs
    ensures Carries(SightedTo(st, exts, side, n), SightedTo(st, exts, side, n + 1), p)
  {
    SightedAgreesTo(st, exts, side, n);
    SeedStays(st, exts, side, p, n);
    StepCarries(SightedTo(st, exts, side, n), exts[n], side, p);
    assert SightedTo(st, exts, side, n + 1) == SeeOne(st, exts, side, n);
  }

  lemma {:induction false} CarriedAlong(states: seq<State>, p: Pid, n: nat)
    requires n < |states| && forall j | 0 <= j < n :: Carries(states[j], states[j + 1], p)
    ensures Carries(states[0], states[n], p)
  {
    if n > 0 {
      CarriedAlong(states, p, n - 1);
      assert Carries(states[n - 1], states[n], p);
    }
  }

  /** No apply overwrites a preferred side: whatever profiles it merges and creates, one that is there
      afterwards and was there before keeps its non-empty side. */
  lemma ApplyKeepsSides(st: State, exts: seq<Output>, side: string, p: Pid)
    requires Agree(st) && AllPlain(exts) && p in st.profs
    ensures Carries(st, Sighted(st, exts, side), p)
  {
    var states := seq(|exts| + 1, j requires 0 <= j <= |exts| => SightedTo(st, exts, side, j));
    forall j | 0 <= j < |exts| ensures Carries(states[j], states[j + 1], p) {
      TurnCarries(st, exts, side, p, j);
    }
    CarriedAlong(states, p, |exts|);
  }

  // ---- a second apply over the same outputs ---------------------------------------------------

  ghost predicate AllIn(st: State, o: Output, p: Pid) {
    forall k | k in IdentKeys(o) :: Owns(st.ids, p, k)
  }

  lemma SeenIsNoop(st: State, o: Output, side: string, p: Pid)
    requires Agree(st) && AllIn(st, o, p)
    ensures Ensure(st, o, side) == st && Target(st, o) == p
  {
    assert ConnKey(o.name) in IdentKeys(o);
    assert Sound(st, st.ids[ConnKey(o.name)]);
    if o.edid.Some? { assert EdidKey(o.edid.value) in IdentKeys(o); }
    assert Linked(st.ids, o, p) == st.ids;
    assert Refreshed(st.profs[p], o) == st.profs[p];
    assert st.profs[p := st.profs[p]] == st.profs;
  }

  ghost predicate AllKnown(st: State, exts: seq<Output>, pids: seq<Pid>) {
    |pids| == |exts| && forall i | 0 <= i < |exts| :: AllIn(st, exts[i], pids[i])
  }

  lemma NextIsNoop(st: State, exts: seq<Output>, side: string, p: Pid, n: nat)
    requires Agree(st) && n < |exts| && AllIn(st, exts[n], p) && SightedTo(st, exts, side, n) == st
    ensures SightedTo(st, exts, side, n + 1) == st
  {
    SeenIsNoop(st, exts[n], side, p);
  }

  lemma {:induction false} Stuck(states: seq<State>, st: State, n: nat)
    requires n < |states| && states[0] == st && forall j: nat | j < n && states[j] == st :: states[j + 1] == st
    ensures states[n] == st
  {
    if n > 0 {
      Stuck(states, st, n - 1);
    }
  }

  lemma SightedIsNoop(st: State, exts: seq<Output>, side: string, pids: seq<Pid>, n: nat)
    requires Agree(st) && AllKnown(st, exts, pids) && n <= |exts|
    ensures SightedTo(st, exts, side, n) == st
  {
    var states := seq(|exts| + 1, j requires 0 <= j <= |exts| => SightedTo(st, exts, side, j));
    forall j: nat | j < n && states[j] == st ensures states[j + 1] == st {
      NextIsNoop(st, exts, side, pids[j], j);
    }
    Stuck(states, st, n);
  }

  lemma SamePids(st: State, exts: seq<Output>, side: string, pids: seq<Pid>)
    requires Agree(st) && AllKnown(st, exts, pids)
    ensures Pids(st, exts, side) == pids
  {
    forall i | 0 <= i < |exts| ensures Pids(st, exts, side)[i] == pids[i] {
      SightedIsNoop(st, exts, side, pids, i);
      SeenIsNoop(st, exts[i], side, pids[i]);
    }
  }

  lemma {:induction false} GoneStays(st: State, exts: seq<Output>, side: string, p: Pid, n: nat)
    requires Gone(st, p) && AllPlain(exts) && n <= |exts|
    ensures Gone(SightedTo(st, exts, side, n), p)
  {
    if n > 0 {
      GoneStays(st, exts, side, p, n - 1);
      GoneStaysGone(SightedTo(st, exts, side, n - 1), exts[n - 1], side, p);
    }
  }

  lemma GoneIsNotHandedOut(st: State, exts: seq<Output>, side: string, p: Pid)
    requires Gone(st, p) && AllPlain(exts)
    ensures p !in Pids(st, exts, side)
  {
    forall i | 0 <= i < |exts| ensures Pids(st, exts, side)[i] != p {
      GoneStays(st, exts, side, p, i);
      GoneStaysGone(SightedTo(st, exts, side, i), exts[i], side, p);
    }
  }

  lemma {:induction false} OpenedAllAgrees(st: State, conns: seq<string>, pidOf: map<string, Pid>)
    requires Agree(st) && forall c | c in conns :: c in pidOf && SeedKey(pidOf[c]) in st.ids
    ensures Agree(OpenedAll(st, conns, pidOf))
  {
    if conns != [] {
      var n := |conns| - 1;
      assert forall c | c in conns[..n] :: c in conns;
      OpenedAllAgrees(st, conns[..n], pidOf);
      OpenedAllKeeps(st, conns[..n], pidOf);
      assert conns[n] in conns;
      var mid, p := OpenedAll(st, conns[..n], pidOf), pidOf[conns[n]];
      PreferringAgrees(mid, p, Lookup(mid.profs, p));
    }
  }

  lemma SeatedAgrees(st: State, exts: seq<Output>, side: string)
    requires Agree(st) && AllPlain(exts)
    ensures Agree(Seated(st, exts, side))
    ensures forall i | 0 <= i < |exts| :: SeedKey(Pids(st, exts, side)[i]) in Seated(st, exts, side).ids
  {
    SightedAgrees(st, exts, side);
    StackIsApart(Sighted(st, exts, side), Restacked(st.stack, Pids(st, exts, side)));
    AllSeeded(st, exts, side);
  }

  lemma PlacedAgrees(st: State, exts: seq<Output>, primary: string, side: string)
    requires Agree(st) && AreExternals(exts, primary) && Distinct(st.stack)
    ensures var fin := Placed(st, exts, primary, side);
            && Agree(fin) && fin.ids == Sighted(st, exts, side).ids
            && fin.stack == Restacked(st.stack, Pids(st, exts, side)) && Distinct(fin.stack)
  {
    SeatedAgrees(st, exts, side);
    StackIsRecency(st.stack, Pids(st, exts, side));
    ConnsReady(st, exts, primary, side, Seated(st, exts, side).ids);
    var conns, pidOf := Conns(st, exts, side), ByOutput(exts, Pids(st, exts, side));
    OpenedAllAgrees(Seated(st, exts, side), conns, pidOf);
    OpenedAllKeeps(Seated(st, exts, side), conns, pidOf);
  }

  // ---- one direction: an id was merged away ------------------------------------------------------

  /** The stale id stays on the stack now and is dropped by the next apply. */
  lemma StaleIdMovesTheStack(st: State, exts: seq<Output>, primary: string, side: string, i: nat)
    requires Agree(st) && AreExternals(exts, primary) && Distinct(st.stack)
    requires i < |exts| && !StillMine(st, exts, side, i)
    ensures var fin := Placed(st, exts, primary, side);
            Distinct(fin.stack) && Placed(fin, exts, primary, side).stack != fin.stack
  {
    var fin, p := Placed(st, exts, primary, side), Pids(st, exts, side)[i];
    PlacedAgrees(st, exts, primary, side);
    MineOrGone(st, exts, side, i);
    GoneIsNotHandedOut(fin, exts, side, p);
    StackIsRecency(st.stack, Pids(st, exts, side));
    StackIsRecency(fin.stack, Pids(fin, exts, side));
    PlacedAgrees(fin, exts, primary, side);
    assert p in Pids(st, exts, side);
    assert p in fin.stack && p !in Placed(fin, exts, primary, side).stack;
  }

  // ---- the other: nothing was merged away ----------------------------------------------------------

  lemma MineIsAllMine(st: State, exts: seq<Output>, side: string, i: nat)
    requires i < |exts| && StillMine(st, exts, side, i)
    ensures AllIn(Sighted(st, exts, side), exts[i], Pids(st, exts, side)[i])
  {
    assert ConnKey(exts[i].name) in IdentKeys(exts[i]);
    forall k | k in IdentKeys(exts[i]) ensures Owns(Sighted(st, exts, side).ids, Pids(st, exts, side)[i], k) {
      KeysStayTogether(st, exts, side, i, k, ConnKey(exts[i].name), |exts|);
    }
  }

  /** Nothing to open: every id handed out still has its profile. */
  lemma NothingOpened(st: State, exts: seq<Output>, primary: string, side: string)
    requires Agree(st) && AreExternals(exts, primary) && Distinct(st.stack)
    requires NoneMergedAway(st, exts, side)
    ensures Placed(st, exts, primary, side) == Seated(st, exts, side)
  {
    var pids := Pids(st, exts, side);
    var fin := Sighted(st, exts, side);
    SightedAgrees(st, exts, side);
    ConnsAreTheExternals(st, exts, primary, side);
    ByOutputAt(exts, pids);
    forall c | c in Conns(st, exts, side) ensures ByOutput(exts, pids)[c] in fin.profs {
      var i :| 0 <= i < |exts| && exts[i].name == c;
      assert StillMine(st, exts, side, i);
      assert Sound(fin, fin.ids[ConnKey(exts[i].name)]);
    }
    OpenedAllKeeps(Seated(st, exts, side), Conns(st, exts, side), ByOutput(exts, pids));
  }

  lemma SeatedAgain(st: State, exts: seq<Output>, side: string)
    requires Agree(st) && AllPlain(exts) && Distinct(st.stack)
    requires NoneMergedAway(st, exts, side)
    ensures var fin := Seated(st, exts, side);
            Pids(fin, exts, side) == Pids(st, exts, side) && Seated(fin, exts, side) == fin
  {
    var fin, pids := Seated(st, exts, side), Pids(st, exts, side);
    SeatedAgrees(st, exts, side);
    forall i | 0 <= i < |exts| ensures AllIn(fin, exts[i], pids[i]) {
      assert StillMine(st, exts, side, i);
      MineIsAllMine(st, exts, side, i);
    }
    SightedIsNoop(fin, exts, side, pids, |exts|);
    SamePids(fin, exts, side, pids);
    StackIsRecency(st.stack, pids);
  }

  lemma SecondApplyRepeats(st: State, exts: seq<Output>, primary: string, side: string)
    requires Agree(st) && AreExternals(exts, primary) && Distinct(st.stack)
    requires NoneMergedAway(st, exts, side)
    ensures var fin := Placed(st, exts, primary, side);
            && Distinct(fin.stack)
            && Placed(fin, exts, primary, side) == fin
            && Plan(fin, exts, primary, side) == Plan(st, exts, primary, side)
  {
    var fin := Seated(st, exts, side);
    NothingOpened(st, exts, primary, side);
    SeatedAgain(st, exts, side);
    SeatedAgrees(st, exts, side);
    StackIsRecency(st.stack, Pids(st, exts, side));
    forall i | 0 <= i < |exts| ensures StillMine(fin, exts, side, i) {
      assert StillMine(st, exts, side, i);
    }
    NothingOpened(fin, exts, primary, side);
    SamePlan(st, fin, exts, primary, side);
  }

  lemma SamePlan(st: State, fin: State, exts: seq<Output>, primary: string, side: string)
    requires AreExternals(exts, primary) && Distinct(st.stack) && Distinct(fin.stack)
    requires Pids(fin, exts, side) == Pids(st, exts, side)
    requires fin == Seated(st, exts, side) == Seated(fin, exts, side)
    ensures Plan(fin, exts, primary, side) == Plan(st, exts, primary, side)
  {
    assert Restacked(fin.stack, Pids(fin, exts, side)) == Seated(fin, exts, side).stack;
    assert Restacked(st.stack, Pids(st, exts, side)) == Seated(st, exts, side).stack;
    assert Conns(fin, exts, side) == Conns(st, exts, side);
  }

  // ---- the condition, at the guard of the merge branch -----------------------------------------------

  lemma UnmergedStays(st: State, o: Output, side: string, k: Key, p: Pid)
    requires Owns(st.ids, p, k) && !(Bridge(st, o) && st.ids[ConnKey(o.name)] == p)
    ensures Owns(Ensure(st, o, side).ids, p, k)
  {
    if k in IdentKeys(o) {
      assert Known(st, o);
    }
  }

  lemma {:induction false} UnabsorbedOnward(st: State, exts: seq<Output>, side: string, i: nat, n: nat)
    requires i < n <= |exts| && forall j: nat | i < j < n :: !Absorbs(st, exts, side, i, j)
    ensures Owns(SightedTo(st, exts, side, n).ids, Pids(st, exts, side)[i], ConnKey(exts[i].name))
  {
    if n == i + 1 {
      JustSeen(SightedTo(st, exts, side, i), exts[i], side);
      assert SightedTo(st, exts, side, n) == SeeOne(st, exts, side, i);
    } else {
      UnabsorbedOnward(st, exts, side, i, n - 1);
      assert !Absorbs(st, exts, side, i, n - 1);
      UnmergedStays(SightedTo(st, exts, side, n - 1), exts[n - 1], side, ConnKey(exts[i].name), Pids(st, exts, side)[i]);
      assert SightedTo(st, exts, side, n) == SeeOne(st, exts, side, n - 1);
    }
  }

  /** Popping an id leaves no identity with it. */
  lemma AbsorbedIsGone(st: State, o: Output, side: string)
    requires Agree(st) && Bridge(st, o)
    ensures Gone(Ensure(st, o, side), st.ids[ConnKey(o.name)])
  {
    OwnedOrGone(st, o, side, ConnKey(o.name), st.ids[ConnKey(o.name)]);
    JustSeen(st, o, side);
  }

  lemma AbsorbedIsNotMine(st: State, exts: seq<Output>, side: string, i: nat, j: nat)
    requires Agree(st) && AllPlain(exts) && i < j < |exts| && Absorbs(st, exts, side, i, j)
    ensures !StillMine(st, exts, side, i)
  {
    GoneFrom(st, exts, side, i, j, |exts|);
    GoneIsNobodys(Sighted(st, exts, side), Pids(st, exts, side)[i], ConnKey(exts[i].name));
  }

  lemma GoneIsNobodys(st: State, p: Pid, k: Key)
    requires Gone(st, p)
    ensures !Owns(st.ids, p, k)
  {
  }

  lemma GoneAtOnce(st: State, exts: seq<Output>, side: string, i: nat, j: nat)
    requires Agree(st) && AllPlain(exts) && i < j < |exts| && Absorbs(st, exts, side, i, j)
    ensures Gone(SightedTo(st, exts, side, j + 1), Pids(st, exts, side)[i])
  {
    SightedAgreesTo(st, exts, side, j);
    AbsorbedIsGone(SightedTo(st, exts, side, j), exts[j], side);
    assert SightedTo(st, exts, side, j + 1) == SeeOne(st, exts, side, j);
  }

  lemma {:induction false} GoneFrom(st: State, exts: seq<Output>, side: string, i: nat, j: nat, n: nat)
    requires Agree(st) && AllPlain(exts) && i < j < n <= |exts| && Absorbs(st, exts, side, i, j)
    ensures Gone(SightedTo(st, exts, side, n), Pids(st, exts, side)[i])
  {
    if n == j + 1 {
      GoneAtOnce(st, exts, side, i, j);
    } else {
      GoneFrom(st, exts, side, i, j, n - 1);
      GoneStaysGone(SightedTo(st, exts, side, n - 1), exts[n - 1], side, Pids(st, exts, side)[i]);
    }
  }

  /** Whether every id handed out survives the apply can be read off the guard of the merge branch. */
  lemma SurvivalIsTheGuard(st: State, exts: seq<Output>, side: string)
    requires Agree(st) && AllPlain(exts)
    ensures NoneMergedAway(st, exts, side) <==> NoneAbsorbed(st, exts, side)
  {
    if NoneAbsorbed(st, exts, side) {
      forall i | 0 <= i < |exts| ensures StillMine(st, exts, side, i) {
        UnabsorbedOnward(st, exts, side, i, |exts|);
      }
    } else {
      var i: nat, j: nat :| i < j < |exts| && Absorbs(st, exts, side, i, j);
      AbsorbedIsNotMine(st, exts, side, i, j);
    }
  }

  /** MAIN RESULT, EXACT CONDITION. A second apply over the same externals leaves the recency stack alone if and only if
      no external of the first one took the merge branch and popped an id an earlier external had been given; then it
      leaves the whole stored state alone and hands out the very same slots. */
  lemma SecondApply(st: State, exts: seq<Output>, primary: string, side: string)
    requires GoodState(st) && AreExternals(exts, primary)
    ensures var fin := Placed(st, exts, primary, side);
            && Distinct(fin.stack)
            && (Placed(fin, exts, primary, side).stack == fin.stack <==> NoneAbsorbed(st, exts, side))
            && (NoneAbsorbed(st, exts, side) ==>
                  Placed(fin, exts, primary, side) == fin && Plan(fin, exts, primary, side) == Plan(st, exts, primary, side))
  {
    SurvivalIsTheGuard(st, exts, side);
    if NoneMergedAway(st, exts, side) {
      SecondApplyRepeats(st, exts, primary, side);
    } else {
      var i :| 0 <= i < |exts| && !StillMine(st, exts, side, i);
      StaleIdMovesTheStack(st, exts, primary, side, i);
    }
  }

  predicate NoMergeAt(st: State, exts: seq<Output>, side: string, j: nat)
    requires j < |exts|
  {
    !Bridge(SightedTo(st, exts, side, j), exts[j])
  }

  /** An apply that never takes the merge branch is repeatable. */
  lemma WithoutMerges(st: State, exts: seq<Output>, primary: string, side: string)
    requires GoodState(st) && AreExternals(exts, primary)
    requires forall j: nat | j < |exts| :: NoMergeAt(st, exts, side, j)
    ensures var fin := Placed(st, exts, primary, side); Distinct(fin.stack) && Placed(fin, exts, primary, side) == fin
  {
    forall i: nat, j: nat | i < j < |exts| ensures !Absorbs(st, exts, side, i, j) {
      assert NoMergeAt(st, exts, side, j);
    }
    SecondApply(st, exts, primary, side);
  }

  // ---- it does happen --------------------------------------------------------------------------------------

  /** COUNTEREXAMPLE. z is on A and x, once on B, now on C: C was z's port too, so seeing x there pops the id A was just
      given, and the apply is not repeatable. */
  lemma PoppedInTheSameApply(z: string, x: string, primary: string)
    requires IsSha1(z) && IsSha1(x) && z != x && primary != "A" && primary != "C"
    ensures GoodState(Docked(z, x)) && AreExternals([Head("A", z), Head("C", x)], primary)
    ensures Absorbs(Docked(z, x), [Head("A", z), Head("C", x)], "right-of", 0, 1)
    ensures var exts := [Head("A", z), Head("C", x)];
            var fin := Placed(Docked(z, x), exts, primary, "right-of");
            Distinct(fin.stack) && Placed(fin, exts, primary, "right-of").stack != fin.stack
  {
    DockedIs(z, x);
    DockedStack(z, x);
    MovesTheStack(Docked(z, x), z, x, primary);
  }

  lemma MovesTheStack(st: State, z: string, x: string, primary: string)
    requires IsSha1(z) && IsSha1(x) && z != x && primary != "A" && primary != "C"
    requires GoodState(st) && TwoProfiles(st, z, x)
    ensures AreExternals([Head("A", z), Head("C", x)], primary)
    ensures Absorbs(st, [Head("A", z), Head("C", x)], "right-of", 0, 1)
    ensures var exts := [Head("A", z), Head("C", x)];
            var fin := Placed(st, exts, primary, "right-of");
            Distinct(fin.stack) && Placed(fin, exts, primary, "right-of").stack != fin.stack
  {
    assert "A"[0] != "C"[0];
    PoppedFrom(st, z, x);
    SecondApply(st, [Head("A", z), Head("C", x)], primary, "right-of");
  }

  lemma DockedStack(z: string, x: string)
    ensures Docked(z, x).stack == []
  {
    var a := Ensure(FRESH, Head("A", z), "right-of");
    var c := Ensure(a, Head("C", z), "right-of");
    EnsureGrows(FRESH, Head("A", z), "right-of");
    EnsureGrows(a, Head("C", z), "right-of");
    EnsureGrows(c, Head("B", x), "right-of");
  }

  lemma PoppedFrom(st: State, z: string, x: string)
    requires z != x && TwoProfiles(st, z, x)
    ensures Absorbs(st, [Head("A", z), Head("C", x)], "right-of", 0, 1)
  {
    var exts := [Head("A", z), Head("C", x)];
    FirstIsKnown(st, z, x);
    assert SightedTo(st, exts, "right-of", 0) == st;
    assert SightedTo(st, exts, "right-of", 1) == SeeOne(st, exts, "right-of", 0) == Ensure(st, exts[0], "right-of");
    assert Pids(st, exts, "right-of")[0] == Target(st, exts[0]);
  }

  lemma FirstIsKnown(st: State, z: string, x: string)
    requires z != x && TwoProfiles(st, z, x)
    ensures var mid := Ensure(st, Head("A", z), "right-of");
            Target(st, Head("A", z)) == Pid(z) && Bridge(mid, Head("C", x)) && mid.ids[ConnKey("C")] == Pid(z)
  {
    assert EdidKey(z) in IdentKeys(Head("A", z));
  }
}
