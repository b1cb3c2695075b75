/** What the coordinator guarantees over any run of settles: ownership of every command, conservation and
    content of the displaced records, the frozen baseline, and the unplug/replug round trip. */
module RelocateRuns {
  import opened Wrappers
  import opened Outputs
  import CrashGuard
  import opened Matching
  import opened Desktop
  import opened RestorePlan
  import opened Laptop
  import opened Relocate

  // ---- runs ------------------------------------------------------------------------------------

  /** One settle of a run: what it did, and ledger and desktop before and after. */
  datatype Turn = Turn(s: Settle, p: Ledger, q: Ledger, a: Past, b: Past)

  /** Turn `i` starts from what turn `i - 1` left, over whatever the desktop has become meanwhile. */
  predicate Linked(h: seq<Turn>, i: nat)
    requires 0 < i < |h|
  {
    h[i].p == h[i - 1].q && h[i].a == h[i - 1].b.(w := h[i].a.w)
  }

  ghost predicate IsTurn(t: Turn, ways: Ways) {
    Settles(t.s, t.p, t.q, t.a, t.b, ways)
  }

  ghost predicate IsRun(h: seq<Turn>, ways: Ways) {
    && (forall i {:trigger IsTurn(h[i], ways)} | 0 <= i < |h| :: IsTurn(h[i], ways))
    && (forall i: nat | 0 < i < |h| :: Linked(h, i))
  }

  lemma TurnAt(h: seq<Turn>, ways: Ways, i: nat)
    requires IsRun(h, ways) && i < |h|
    ensures IsTurn(h[i], ways)
  {
    assert IsTurn(h[i], ways);
  }

  /** `on_settled` over whatever desktop the environment has left. */
  method SettleOnce(c: Coordinator, next: World) returns (ghost t: Turn)
    modifies c, c.desk
    ensures t == Turn(t.s, old(c.Books()), c.Books(), old(c.Now()).(w := next), c.Now()) && IsTurn(t, c.desk.ways)
    ensures c.configEnabled && c.desk.ways.cooperative ==> !t.s.Idle?
  {
    ghost var p := c.Books();
    c.desk.Change(next);
    ghost var a := c.Now();
    ghost var s := c.OnSettled();
    t := Turn(s, p, c.Books(), a, c.Now());
  }

  /** The run starts and ends with these ledgers and moments, over these desktops, and no settle of it was idle if `busy`. */
  predicate Spans(h: seq<Turn>, desktops: seq<World>, p: Ledger, a: Past, q: Ledger, b: Past, busy: bool) {
    && |h| == |desktops| && (forall i | 0 <= i < |h| :: h[i].a.w == desktops[i] && (busy ==> !h[i].s.Idle?))
    && if h == [] then q == p && b == a
       else h[0].p == p && h[0].a == a.(w := desktops[0]) && h[|h| - 1].q == q && h[|h| - 1].b == b
  }

  /** Whatever the desktops and however the desk behaves, what the coordinator does is a run. */
  method Run(c: Coordinator, desktops: seq<World>) returns (ghost h: seq<Turn>)
    modifies c, c.desk
    ensures IsRun(h, c.desk.ways)
    ensures Spans(h, desktops, old(c.Books()), old(c.Now()), c.Books(), c.Now(), c.configEnabled && c.desk.ways.cooperative)
  {
    h := [];
    ghost var p, a := c.Books(), c.Now();
    for i := 0 to |desktops|
      invariant IsRun(h, c.desk.ways)
      invariant Spans(h, desktops[..i], p, a, c.Books(), c.Now(), c.configEnabled && c.desk.ways.cooperative)
    {
      ghost var q, b := c.Books(), c.Now();
      ghost var t := SettleOnce(c, desktops[i]);
      SpansMore(h, t, desktops, i, p, a, q, b, c.configEnabled && c.desk.ways.cooperative);
      RunGrows(h, t, c.desk.ways);
      h := h + [t];
    }
    assert desktops[..|desktops|] == desktops;
  }

  lemma RunGrows(h: seq<Turn>, t: Turn, ways: Ways)
    requires IsRun(h, ways) && IsTurn(t, ways)
    requires h != [] ==> t.p == h[|h| - 1].q && t.a == h[|h| - 1].b.(w := t.a.w)
    ensures IsRun(h + [t], ways)
  {
    LinksGrow(h, t);
    TurnsGrow(h, t, ways);
  }

  lemma LinksGrow(h: seq<Turn>, t: Turn)
    requires forall i: nat | 0 < i < |h| :: Linked(h, i)
    requires h != [] ==> t.p == h[|h| - 1].q && t.a == h[|h| - 1].b.(w := t.a.w)
    ensures forall i: nat | 0 < i < |h + [t]| :: Linked(h + [t], i)
  {
    forall i: nat | 0 < i < |h + [t]| ensures Linked(h + [t], i) {
      if i < |h| { assert Linked(h, i); }
    }
  }

  lemma TurnsGrow(h: seq<Turn>, t: Turn, ways: Ways)
    requires IsTurn(t, ways) && forall i {:trigger IsTurn(h[i], ways)} | 0 <= i < |h| :: IsTurn(h[i], ways)
    ensures forall i {:trigger IsTurn((h + [t])[i], ways)} | 0 <= i < |h + [t]| :: IsTurn((h + [t])[i], ways)
  {
    forall i | 0 <= i < |h + [t]| ensures IsTurn((h + [t])[i], ways) {
      assert (h + [t])[i] == if i < |h| then h[i] else t;
    }
  }

  lemma SpansMore(h: seq<Turn>, t: Turn, desktops: seq<World>, i: nat, p: Ledger, a: Past, q: Ledger, b: Past, busy: bool)
    requires i < |desktops| && Spans(h, desktops[..i], p, a, q, b, busy)
    requires t.p == q && t.a == b.(w := desktops[i]) && (busy ==> !t.s.Idle?)
    ensures Spans(h + [t], desktops[..i + 1], p, a, t.q, t.b, busy)
    ensures h != [] ==> t.p == h[|h| - 1].q && t.a == h[|h| - 1].b.(w := t.a.w)
  {
  }

  // ---- ownership -----------------------------------------------------------------------------------

  /** The windows a settle may touch: those of the records it returns, while they still are those processes'. */
  function Mine(s: Settle, w: World): set<int> {
    if s.Edge? then LiveWindows(s.recorded, s.returned, w) else {}
  }

  /** MAIN RESULT. Whatever the desk does, one settle touches no window but its own, every command it issues hits
      one of its own windows and is no hop dwm can die of, and a settle that asked for no focus only reads. */
  lemma SettleTouches(s: Settle, p: Ledger, q: Ledger, a: Past, b: Past, ways: Ways)
    requires Settles(s, p, q, a, b, ways)
    ensures Touched(a, b, Mine(s, a.w))
  {
  }

  /** MAIN RESULT. Every command of a run is a safe one on a window of the settle that issued it. */
  lemma {:induction false} EveryCommandIsOwn(h: seq<Turn>, ways: Ways, n: nat, j: nat) returns (i: nat)
    requires IsRun(h, ways) && n < |h| && |h[0].a.log| <= j < |h[n].b.log|
    ensures i <= n && |h[i].a.log| <= j < |h[i].b.log| && h[i].b.log[j] == h[n].b.log[j]
    ensures SafeCommand(h[n].b.log[j], Mine(h[i].s, h[i].a.w))
  {
    var t := h[n];
    assert IsTurn(t, ways);
    SettleTouches(t.s, t.p, t.q, t.a, t.b, ways);
    if |t.a.log| <= j {
      i := n;
    } else {
      assert Linked(h, n);
      i := EveryCommandIsOwn(h, ways, n - 1, j);
    }
  }

  /** A window no returned record of the settle can claim: nothing is done to it, and nothing is done for it. */
  lemma StaleUntouched(s: Settle, p: Ledger, q: Ledger, a: Past, b: Past, ways: Ways, x: int)
    requires Settles(s, p, q, a, b, ways) && x in a.w.place
    requires s.Edge? ==> forall k | k in s.recorded && s.recorded[k].xid == x :: IdentOf(a.w, x) != Some(k) || !Returned(s.recorded[k], s.returned)
    ensures x in b.w.place && b.w.place[x] == a.w.place[x]
    ensures forall i | |a.log| <= i < |b.log| && !b.log[i].verb.FocusMon? :: b.log[i].owner != x && b.log[i].before.sel != Some(x)
  {
    SettleTouches(s, p, q, a, b, ways);
    assert x !in Mine(s, a.w);
    forall i | |a.log| <= i < |b.log| && !b.log[i].verb.FocusMon? ensures b.log[i].owner != x && b.log[i].before.sel != Some(x) {
      assert SafeCommand(b.log[i], Mine(s, a.w));
    }
  }

  // ---- conservation ----------------------------------------------------------------------------------

  /** Its process was looked up at a settle that lost nothing, and was not there. */
  ghost predicate SweptAway(s: Settle, k: Ident, a: Past, b: Past, ways: Ways)
    requires s.Edge?
  {
    s.removed == {} && SweptRead(a.asked, b.asked, k) && (ways.truthful ==> !ProcessLives(a.w, k))
  }

  /** Its output came back, its window's identity was read, and was not the record's. */
  ghost predicate FoundStale(s: Settle, k: Ident, a: Past, b: Past, ways: Ways)
    requires s.Edge? && k in s.recorded
  {
    && Returned(s.recorded[k], s.returned) && StaleRead(a.asked, b.asked, s.recorded[k])
    && (ways.truthful ==> IdentOf(a.w, s.recorded[k].xid) != Some(k))
  }

  /** Its output came back, dwm accepted its tags on its live window, and the window was read back on the monitor
      the output is on, if it is on one. */
  ghost predicate Restored(s: Settle, k: Ident, a: Past, b: Past, ways: Ways)
    requires s.Edge? && k in s.recorded
  {
    && Returned(s.recorded[k], s.returned) && IdentOf(a.w, s.recorded[k].xid) == Some(k)
    && exists table: map<string, int> ::
         TableOf(table, Report(a.w), s.outs) && DropJustified(b.w, a.log, b.log, s.recorded[k], table, ways.honest)
  }

  /** The record left the displaced map at this settle for one of three reasons, whatever dwm did. */
  ghost predicate Left(s: Settle, k: Ident, a: Past, b: Past, ways: Ways) {
    && s.Edge? && k in s.recorded
    && (SweptAway(s, k, a, b, ways) || FoundStale(s, k, a, b, ways) || Restored(s, k, a, b, ways))
  }

  lemma SweptIsAway(s: Settle, k: Ident, a: Past, b: Past, ways: Ways)
    requires s.Edge? && Swept(s, k, b, ways) && a.asked <= s.mid.asked && a.w.procs == b.w.procs
    ensures SweptAway(s, k, a, b, ways)
  {
    var i :| |s.mid.asked| <= i < |b.asked| && b.asked[i].Started? && b.asked[i].pid == k.pid && b.asked[i].starttime != Some(k.starttime);
    assert |a.asked| <= i;
  }

  /** What a handled record that is no longer there amounts to. */
  lemma DroppedInCycle(s: Settle, k: Ident, a: Past, b: Past, ways: Ways)
    requires s.Edge? && CycleResult(s, a, ways) && Looked(s.mid, b) && k in s.recorded && k !in s.after
    ensures FoundStale(s, k, a, b, ways) || Restored(s, k, a, b, ways)
  {
    var c, t := s.cycle.value.c, s.cycle.value.t;
    assert Outcome(c, k, k in s.after, s.mid, t);
    if k in t.stale {
      StaleReadLater(a.asked, s.mid.asked, b.asked, s.recorded[k]);
    } else {
      assert DropJustified(b.w, a.log, b.log, s.recorded[k], c.table, ways.honest);
    }
  }

  /** MAIN RESULT. One settle loses no record without a reason. */
  lemma NoneLost(s: Settle, p: Ledger, q: Ledger, a: Past, b: Past, ways: Ways, k: Ident)
    requires Settles(s, p, q, a, b, ways) && k !in q.displaced
    requires k in p.displaced || (s.Edge? && k in s.recorded)
    ensures Left(s, k, a, b, ways)
  {
    SettleTouches(s, p, q, a, b, ways);
    if k in s.after {
      SweptIsAway(s, k, a, b, ways);
    } else {
      DroppedInCycle(s, k, a, b, ways);
    }
  }

  /** Displaced when the settle began, or recorded by it. */
  predicate Held(t: Turn, k: Ident) {
    k in t.p.displaced || (t.s.Edge? && k in t.s.recorded)
  }

  lemma LostAt(h: seq<Turn>, ways: Ways, n: nat, k: Ident)
    requires IsRun(h, ways) && n < |h| && Held(h[n], k) && k !in h[n].q.displaced
    ensures Left(h[n].s, k, h[n].a, h[n].b, ways)
  {
    var t := h[n];
    TurnAt(h, ways, n);
    NoneLost(t.s, t.p, t.q, t.a, t.b, ways, k);
  }

  /** MAIN RESULT. A record displaced or recorded at any turn of a run is still displaced at any later one, or some
      settle between them dropped it for a stated reason. */
  lemma {:induction false} RunLosesNone(h: seq<Turn>, ways: Ways, m: nat, n: nat, k: Ident) returns (i: nat)
    requires IsRun(h, ways) && m <= n < |h| && Held(h[m], k) && k !in h[n].q.displaced
    ensures m <= i <= n && Left(h[i].s, k, h[i].a, h[i].b, ways)
    decreases n
  {
    if Held(h[n], k) {
      LostAt(h, ways, n, k);
      i := n;
    } else {
      assert n > m && Linked(h, n);
      i := RunLosesNone(h, ways, m, n - 1, k);
    }
  }

  // ---- what a record says ------------------------------------------------------------------------------

  /** The settle takes the record from its baseline: the window stood on an output that just went. */
  predicate TakesFrom(t: Turn, k: Ident) {
    t.s.Edge? && k in OnOutputs(t.p.snapshot, t.s.removed)
  }

  /** What was recorded of `k` last, up to turn `n`; failing that, what was displaced at the start. */
  function Latest(h: seq<Turn>, n: nat, k: Ident): Option<Rec>
    requires n < |h|
  {
    if TakesFrom(h[n], k) then Some(h[n].p.snapshot[k])
    else if n > 0 then Latest(h, n - 1, k)
    else if k in h[0].p.displaced then Some(h[0].p.displaced[k]) else None
  }

  lemma ContentOfTurn(t: Turn, ways: Ways, k: Ident)
    requires IsTurn(t, ways) && k in t.q.displaced
    ensures TakesFrom(t, k) ==> t.q.displaced[k] == t.p.snapshot[k]
    ensures !TakesFrom(t, k) ==> k in t.p.displaced && t.q.displaced[k] == t.p.displaced[k]
  {
    if t.s.Edge? {
      assert (k, t.q.displaced[k]) in t.q.displaced.Items;
      assert (k, t.q.displaced[k]) in t.s.after.Items;
      assert (k, t.q.displaced[k]) in t.s.recorded.Items;
    }
  }

  /** MAIN RESULT. A record that is still displaced says exactly what was recorded last: nothing alters one, but losing
      another output can replace it by the baseline's record of the same process there. */
  lemma {:induction false} RecordIsLatest(h: seq<Turn>, ways: Ways, n: nat, k: Ident)
    requires IsRun(h, ways) && n < |h| && k in h[n].q.displaced
    ensures Latest(h, n, k) == Some(h[n].q.displaced[k])
  {
    assert IsTurn(h[n], ways);
    ContentOfTurn(h[n], ways, k);
    if !TakesFrom(h[n], k) && n > 0 {
      assert Linked(h, n);
      RecordIsLatest(h, ways, n - 1, k);
    }
  }

  // ---- consecutive removals --------------------------------------------------------------------------------

  predicate Losing(t: Turn) {
    t.s.Edge? && t.s.removed != {}
  }

  /** A record on an output that did not come back is not the restore's business. */
  lemma StaysThrough(s: Settle, k: Ident, a: Past, ways: Ways)
    requires s.Edge? && CycleResult(s, a, ways) && s.after.Items <= s.recorded.Items
    requires k in s.recorded && !Returned(s.recorded[k], s.returned)
    ensures k in s.after && s.after[k] == s.recorded[k]
  {
    if s.cycle.Some? {
      var c, t := s.cycle.value.c, s.cycle.value.t;
      HandledAreReturned(c, s.after, s.mid, t);
    }
    assert (k, s.after[k]) in s.after.Items;
  }

  /** What stood on a lost output is displaced as the baseline shows it, at once, and the baseline stays. */
  lemma LosingAt(h: seq<Turn>, ways: Ways, i: nat)
    requires IsRun(h, ways) && i < |h| && Losing(h[i])
    ensures h[i].q.snapshot == h[i].p.snapshot
    ensures forall k | k in OnOutputs(h[i].p.snapshot, h[i].s.removed) ::
              k in h[i].q.displaced && h[i].q.displaced[k] == h[i].p.snapshot[k]
  {
    var t := h[i];
    TurnAt(h, ways, i);
    assert t.s.removed !! t.s.returned;
    forall k | k in OnOutputs(t.p.snapshot, t.s.removed) ensures k in t.q.displaced && t.q.displaced[k] == t.p.snapshot[k] {
      StaysThrough(t.s, k, t.a, ways);
    }
  }

  /** MAIN RESULT. While every settle loses an output the baseline stays what it was before the first of them, and each
      settle records from it everything that stood on what it lost. */
  lemma {:induction false} RemovalsShareABaseline(h: seq<Turn>, ways: Ways, m: nat, n: nat)
    requires IsRun(h, ways) && m <= n < |h| && forall i | m <= i <= n :: Losing(h[i])
    ensures h[n].s.Edge? && h[n].q.snapshot == h[n].p.snapshot == h[m].p.snapshot
    ensures forall k | k in OnOutputs(h[m].p.snapshot, h[n].s.removed) ::
              k in h[n].q.displaced && h[n].q.displaced[k] == h[m].p.snapshot[k]
    decreases n
  {
    LosingAt(h, ways, n);
    if m < n {
      assert Linked(h, n);
      RemovalsShareABaseline(h, ways, m, n - 1);
    }
  }

  // ---- unplug, then replug ---------------------------------------------------------------------------------

  /** A settle that takes a new baseline. */
  predicate Steady(t: Turn) {
    t.s.Seeded? || (t.s.Edge? && t.s.removed == {})
  }

  /** A window of process `k` stands on the output. */
  ghost predicate Stood(w: World, k: Ident, output: string) {
    exists y :: y in w.place && IdentOf(w, y) == Some(k) && BindsTo(Report(w)[w.place[y].monitor], w.outs, output)
  }

  /** A window sits on a monitor of the output and is the only window of its process. */
  ghost predicate LivesOn(w: World, x: int, k: Ident, output: string) {
    && x in w.place && IdentOf(w, x) == Some(k)
    && (forall y | y in w.place && IdentOf(w, y) == Some(k) :: y == x)
    && BindsTo(Report(w)[w.place[x].monitor], w.outs, output)
  }

  ghost predicate Bound(w: World, output: string) {
    exists m :: 0 <= m < |w.rects| && BindsTo(Report(w)[m], w.outs, output)
  }

  /** The last turn before `i` that took a baseline, from turn `m` on. */
  function LastSteady(h: seq<Turn>, m: nat, i: nat): (j: nat)
    requires m < i <= |h|
    ensures m <= j < i
  {
    if i - 1 == m || Steady(h[i - 1]) then i - 1 else LastSteady(h, m, i - 1)
  }

  /** From turn `m`, which takes a baseline, the output is dark until turn `n`; the process lives throughout; and no later
      unplug takes an output away on which the last baseline shows a window of the process. Anything else may happen. */
  ghost predicate Away(h: seq<Turn>, m: nat, n: nat, k: Ident, output: string)
    requires m + 1 < n < |h|
  {
    && Steady(h[m]) && output in Lit(h[m].a.w.outs)
    && (forall i | m <= i <= n :: !h[i].s.Idle?)
    && (forall i | m < i < n :: output !in Lit(h[i].a.w.outs))
    && (forall i | m < i <= n :: ProcessLives(h[i].a.w, k))
    && (forall i | m + 1 < i <= n :: Undisturbed(h, m, i, k))
  }

  ghost predicate Undisturbed(h: seq<Turn>, m: nat, i: nat, k: Ident)
    requires m < i < |h|
  {
    forall o | o in Lit(h[i - 1].a.w.outs) && o !in Lit(h[i].a.w.outs) :: !Stood(h[LastSteady(h, m, i)].b.w, k, o)
  }

  /** The window is back where `before` had it, on a monitor of the output. */
  ghost predicate BackHome(before: World, back: World, after: World, x: int, output: string)
    requires x in before.place
  {
    exists m: nat ::
      && m < |back.rects| && BindsTo(Report(back)[m], back.outs, output)
      && x in after.place && after.place[x] == Place(m, before.place[x].tags, before.place[x].floating)
      && (before.place[x].floating && Fits(before.geom[x], back.rects[m]) ==> after.geom[x] == before.geom[x])
  }

  /** Between the two moments the coordinator read an answer on which the guard refuses the window a hop, on its way from
      elsewhere to a monitor of the output. */
  ghost predicate HeldBack(a: Past, b: Past, x: int, output: string, xs: set<int>)
    requires x in a.w.place
  {
    exists m: nat :: m < |a.w.rects| && BindsTo(Report(a.w)[m], a.w.outs, output) && HopRefused(a, b, x, Some(m), xs)
  }

  function RecordOf(w: World, x: int, k: Ident, output: string): Rec
    requires x in w.place
  {
    Rec(x, k, Some(output), w.place[x].tags, w.place[x].floating, w.geom[x])
  }

  lemma SnapshotOf(snapshot: Records, w: World, x: int, k: Ident, output: string)
    requires GoodBaseline(snapshot, w) && LivesOn(w, x, k, output)
    ensures k in snapshot && snapshot[k] == RecordOf(w, x, k, output)
  {
    assert IdentOf(w, x).value in snapshot;
    assert CapturedFrom(w, w.outs, snapshot[k]);
  }

  /** What the coordinator believes to be lit is what was lit at the last settle. */
  lemma PresentIs(h: seq<Turn>, ways: Ways, i: nat)
    requires IsRun(h, ways) && ways.cooperative && 0 < i < |h| && !h[i - 1].s.Idle?
    ensures h[i].p.present == Some(Lit(h[i - 1].a.w.outs))
  {
    TurnAt(h, ways, i - 1);
    assert Linked(h, i);
  }

  /** What a new baseline shows of a process is so. */
  lemma BaselineShows(h: seq<Turn>, ways: Ways, i: nat, k: Ident)
    requires IsRun(h, ways) && ways.cooperative && i < |h| && Steady(h[i])
    requires k in h[i].q.snapshot && h[i].q.snapshot[k].output.Some?
    ensures Stood(h[i].b.w, k, h[i].q.snapshot[k].output.value)
  {
    TurnAt(h, ways, i);
    assert CapturedFrom(h[i].b.w, h[i].b.w.outs, h[i].q.snapshot[k]);
  }

  lemma BaselineFrozen(h: seq<Turn>, ways: Ways, i: nat)
    requires IsRun(h, ways) && i < |h| && !Steady(h[i])
    ensures h[i].q.snapshot == h[i].p.snapshot
  {
    TurnAt(h, ways, i);
  }

  /** A cooperative settle after the first: what it read, what it found gone and back, and what it recorded. */
  lemma EdgeAt(h: seq<Turn>, ways: Ways, i: nat)
    requires IsRun(h, ways) && ways.cooperative && i < |h| && !h[i].s.Idle? && h[i].p.present.Some?
    ensures h[i].s.Edge? && h[i].s.removed == h[i].p.present.value - Lit(h[i].a.w.outs)
    ensures h[i].s.returned == Lit(h[i].a.w.outs) - h[i].p.present.value
    ensures h[i].s.recorded == h[i].p.displaced + OnOutputs(h[i].p.snapshot, h[i].s.removed)
  {
    TurnAt(h, ways, i);
  }

  /** What the baseline shows of a process was so at the last settle that took one. */
  lemma {:induction false} BaselineStands(h: seq<Turn>, ways: Ways, m: nat, i: nat, k: Ident)
    requires IsRun(h, ways) && ways.cooperative && m <= i < |h| && Steady(h[m])
    requires forall j | m <= j <= i :: !h[j].s.Idle?
    requires k in h[i].q.snapshot && h[i].q.snapshot[k].output.Some?
    ensures Stood(h[LastSteady(h, m, i + 1)].b.w, k, h[i].q.snapshot[k].output.value)
    decreases i
  {
    if i == m || Steady(h[i]) {
      BaselineShows(h, ways, i, k);
    } else {
      BaselineFrozen(h, ways, i);
      assert Linked(h, i);
      BaselineStands(h, ways, m, i - 1, k);
    }
  }

  /** Inside the gap no settle takes a record of the process from the baseline. */
  lemma Untaken(h: seq<Turn>, ways: Ways, m: nat, i: nat, k: Ident)
    requires IsRun(h, ways) && ways.cooperative && m < i < |h| && Steady(h[m]) && Undisturbed(h, m, i, k)
    requires forall j | m <= j <= i :: !h[j].s.Idle?
    ensures h[i].s.Edge? && !TakesFrom(h[i], k)
    ensures h[i].s.recorded == h[i].p.displaced + OnOutputs(h[i].p.snapshot, h[i].s.removed)
  {
    PresentIs(h, ways, i);
    EdgeAt(h, ways, i);
    assert Linked(h, i);
    if TakesFrom(h[i], k) {
      BaselineStands(h, ways, m, i - 1, k);
    }
  }

  /** Inside the gap the settle works with the record it was given. */
  lemma Carried(h: seq<Turn>, ways: Ways, m: nat, n: nat, i: nat, k: Ident, output: string)
    requires IsRun(h, ways) && ways.cooperative && m + 1 < n < |h| && m + 1 < i <= n && Away(h, m, n, k, output)
    requires k in h[i].p.displaced
    ensures h[i].s.Edge? && k in h[i].s.recorded && h[i].s.recorded[k] == h[i].p.displaced[k]
  {
    assert Undisturbed(h, m, i, k);
    Untaken(h, ways, m, i, k);
  }

  /** The unplug itself takes the record from the baseline. */
  lemma Unplugged(h: seq<Turn>, ways: Ways, m: nat, n: nat, k: Ident, output: string)
    requires IsRun(h, ways) && ways.cooperative && m + 1 < n < |h| && Away(h, m, n, k, output)
    requires k in h[m].q.snapshot && h[m].q.snapshot[k].output == Some(output)
    ensures h[m + 1].s.Edge? && k in h[m + 1].s.recorded && h[m + 1].s.recorded[k] == h[m].q.snapshot[k]
  {
    PresentIs(h, ways, m + 1);
    EdgeAt(h, ways, m + 1);
    assert Linked(h, m + 1);
  }

  /** A settle while the output is dark keeps the record of a living process. */
  lemma Outlasts(h: seq<Turn>, ways: Ways, i: nat, k: Ident, output: string)
    requires IsRun(h, ways) && ways.cooperative && i < |h| && h[i].s.Edge? && output !in Lit(h[i].a.w.outs) && ProcessLives(h[i].a.w, k)
    requires k in h[i].s.recorded && h[i].s.recorded[k].output == Some(output)
    ensures k in h[i].q.displaced && h[i].q.displaced[k] == h[i].s.recorded[k]
  {
    var t := h[i];
    TurnAt(h, ways, i);
    StaysThrough(t.s, k, t.a, ways);
    SettleTouches(t.s, t.p, t.q, t.a, t.b, ways);
    assert k in t.q.displaced;
    assert (k, t.q.displaced[k]) in t.s.after.Items;
  }

  /** Through the gap the record stays what the baseline said. */
  lemma {:induction false} KeptThroughout(h: seq<Turn>, ways: Ways, m: nat, n: nat, i: nat, k: Ident, output: string)
    requires IsRun(h, ways) && ways.cooperative && m + 1 < n < |h| && m < i < n && Away(h, m, n, k, output)
    requires k in h[m].q.snapshot && h[m].q.snapshot[k].output == Some(output)
    ensures k in h[i].q.displaced && h[i].q.displaced[k] == h[m].q.snapshot[k]
    decreases i
  {
    if i == m + 1 {
      Unplugged(h, ways, m, n, k, output);
    } else {
      KeptThroughout(h, ways, m, n, i - 1, k, output);
      assert Linked(h, i);
      Carried(h, ways, m, n, i, k, output);
    }
    Outlasts(h, ways, i, k, output);
  }

  /** A connector some monitor binds to is in the table, with a monitor it binds to. */
  lemma TableBinds(table: map<string, int>, w: World, outs: map<string, Output>, output: string)
    requires TableOf(table, Report(w), outs) && outs == w.outs && Bound(w, output)
    ensures output in table && 0 <= table[output] < |w.rects| && BindsTo(Report(w)[table[output]], w.outs, output)
    ensures forall o | o in table :: 0 <= table[o] < |w.rects|
  {
  }

  /** The output of a record is back, and its window still is that process's. */
  ghost predicate Returning(t: Turn, k: Ident, output: string) {
    && t.s.Edge? && output in t.s.returned && Bound(t.a.w, output)
    && k in t.s.recorded && t.s.recorded[k].output == Some(output)
    && t.s.recorded[k].xid in t.a.w.place && IdentOf(t.a.w, t.s.recorded[k].xid) == Some(k)
  }

  ghost predicate RecHome(rec: Rec, back: World, after: World, output: string) {
    exists m: nat :: m < |back.rects| && BindsTo(Report(back)[m], back.outs, output) && Home(after, rec, m)
  }

  /** A floating record's geometry was sent to its window, relative to a monitor of the output. */
  ghost predicate SentHome(rec: Rec, a: Past, b: Past, output: string) {
    rec.floating ==> exists m: nat ::
      m < |a.w.rects| && BindsTo(Report(a.w)[m], a.w.outs, output) && Placed(a.writes, b.writes, rec.xid, a.w.rects[m], rec.geom)
  }

  /** What a returned record of a live window amounts to in a cooperative cycle. */
  lemma Brought(c: Context, after: Records, b: Past, t: Tally, k: Ident, m: nat)
    requires CycleEnd(c, after, b, t) && c.ways.cooperative && m < |c.a.w.rects|
    requires k in c.d && Returned(c.d[k], c.returned) && Target(c.d[k], c.table) == Some(m)
    requires c.d[k].xid in c.a.w.place && IdentOf(c.a.w, c.d[k].xid) == Some(k)
    ensures Marked(b.w, c.d[k]) && GeometryGiven(c, c.d[k], b)
    ensures if k in after then HopRefused(c.a, b, c.d[k].xid, Some(m), OwnAll(c)) else Home(b.w, c.d[k], m)
  {
    assert k in t.handled && Outcome(c, k, k in after, b, t);
  }

  lemma ComesBack(s: Settle, a: Past, ways: Ways, k: Ident, output: string)
    requires s.Edge? && CycleResult(s, a, ways) && Exactly(s, None, a) && ways.cooperative
    requires k in s.recorded && s.recorded[k].output == Some(output) && output in s.returned && Bound(a.w, output)
    requires s.recorded[k].xid in a.w.place && IdentOf(a.w, s.recorded[k].xid) == Some(k)
    ensures Marked(s.mid.w, s.recorded[k]) && SentHome(s.recorded[k], a, s.mid, output)
    ensures if k in s.after then HeldBack(a, s.mid, s.recorded[k].xid, output, Mine(s, a.w))
            else RecHome(s.recorded[k], a.w, s.mid.w, output)
  {
    var c, t := s.cycle.value.c, s.cycle.value.t;
    TableBinds(c.table, a.w, s.outs, output);
    var m: nat := c.table[output];
    Brought(c, s.after, s.mid, t, k, m);
    assert c.table[output] == m && Target(s.recorded[k], c.table) == Some(m);
    if k in s.after { RefusedSince(a, c.a, s.mid, s.recorded[k].xid, Some(m), OwnAll(c)); }
  }

  /** Nothing was sent to the window in between. */
  predicate Unwritten(p: seq<Write>, p': seq<Write>, x: int) {
    |p| <= |p'| && forall i | |p| <= i < |p'| :: p'[i].xid != x
  }

  /** A tiled record's window is never sent a geometry. */
  lemma TiledUnwritten(s: Settle, a: Past, b: Past, ways: Ways, k: Ident)
    requires s.Edge? && CycleResult(s, a, ways) && Looked(s.mid, b)
    requires k in s.recorded && !s.recorded[k].floating && IdentOf(a.w, s.recorded[k].xid) == Some(k)
    ensures Unwritten(a.writes, b.writes, s.recorded[k].xid)
  {
    if s.cycle.Some? {
      var c := s.cycle.value.c;
      forall i | |a.writes| <= i < |b.writes| ensures b.writes[i].xid != s.recorded[k].xid {
        assert WrittenFor(c, b.writes[i]);
        var j :| WritesTo(c, j, b.writes[i]);
      }
    }
  }

  lemma HeldLater(a: Past, b: Past, c: Past, x: int, output: string, xs: set<int>)
    requires x in a.w.place && HeldBack(a, b, x, output, xs) && b.asked <= c.asked
    ensures HeldBack(a, c, x, output, xs)
  {
    var m: nat :| m < |a.w.rects| && BindsTo(Report(a.w)[m], a.w.outs, output) && HopRefused(a, b, x, Some(m), xs);
    RefusedLater(a, b, c, x, Some(m), xs);
  }

  ghost predicate ReplugEnd(t: Turn, k: Ident, output: string)
    requires Returning(t, k, output)
  {
    && (if k in t.q.displaced then HeldBack(t.a, t.b, t.s.recorded[k].xid, output, Mine(t.s, t.a.w))
        else RecHome(t.s.recorded[k], t.a.w, t.b.w, output))
    && t.b.w.rects == t.a.w.rects
    && Marked(t.b.w, t.s.recorded[k]) && SentHome(t.s.recorded[k], t.a, t.b, output)
    && (!t.s.recorded[k].floating ==> Unwritten(t.a.writes, t.b.writes, t.s.recorded[k].xid))
  }

  /** At the replug. */
  lemma Replugged(h: seq<Turn>, ways: Ways, i: nat, k: Ident, output: string)
    requires IsRun(h, ways) && ways.cooperative && i < |h|
    requires Returning(h[i], k, output)
    ensures ReplugEnd(h[i], k, output)
  {
    var t := h[i];
    TurnAt(h, ways, i);
    ComesBack(t.s, t.a, ways, k, output);
    SettleTouches(t.s, t.p, t.q, t.a, t.b, ways);
    if k in t.q.displaced {
      assert (k, t.q.displaced[k]) in t.s.after.Items;
      HeldLater(t.a, t.s.mid, t.b, t.s.recorded[k].xid, output, Mine(t.s, t.a.w));
    }
    if !t.s.recorded[k].floating { TiledUnwritten(t.s, t.a, t.b, ways, k); }
  }

  /** A connector no monitor binds to is not in the table. */
  lemma TableLacks(table: map<string, int>, w: World, outs: map<string, Output>, output: string)
    requires TableOf(table, Report(w), outs) && outs == w.outs && !Bound(w, output)
    ensures output !in table && forall o | o in table :: 0 <= table[o] < |w.rects|
  {
  }

  /** What a returned record amounts to in a cooperative cycle that has no monitor for it. */
  lemma Unanswered(c: Context, after: Records, b: Past, t: Tally, k: Ident)
    requires CycleEnd(c, after, b, t) && c.ways.cooperative
    requires k in c.d && Returned(c.d[k], c.returned) && Target(c.d[k], c.table) == None
    requires c.d[k].xid in c.a.w.place && IdentOf(c.a.w, c.d[k].xid) == Some(k)
    ensures k !in after && Marked(b.w, c.d[k])
  {
    assert k in t.handled && Outcome(c, k, k in after, b, t);
  }

  lemma GoesUnplaced(s: Settle, a: Past, ways: Ways, k: Ident, output: string)
    requires s.Edge? && CycleResult(s, a, ways) && Exactly(s, None, a) && ways.cooperative
    requires k in s.recorded && s.recorded[k].output == Some(output) && output in s.returned && !Bound(a.w, output)
    requires s.recorded[k].xid in a.w.place && IdentOf(a.w, s.recorded[k].xid) == Some(k)
    ensures k !in s.after && Marked(s.mid.w, s.recorded[k])
  {
    var c, t := s.cycle.value.c, s.cycle.value.t;
    TableLacks(c.table, a.w, s.outs, output);
    Unanswered(c, s.after, s.mid, t, k);
  }

  /** When the output is back but no monitor binds to it, the record is forgotten all the same: dwm accepting the tags is
      enough, although the window was not moved anywhere. It has its tags and floating state back where it is. */
  lemma UnboundIsForgotten(h: seq<Turn>, ways: Ways, i: nat, k: Ident, output: string)
    requires IsRun(h, ways) && ways.cooperative && i < |h| && h[i].s.Edge? && output in h[i].s.returned
    requires k in h[i].s.recorded && h[i].s.recorded[k].output == Some(output) && !Bound(h[i].a.w, output)
    requires h[i].s.recorded[k].xid in h[i].a.w.place && IdentOf(h[i].a.w, h[i].s.recorded[k].xid) == Some(k)
    ensures k !in h[i].q.displaced && Marked(h[i].b.w, h[i].s.recorded[k])
  {
    TurnAt(h, ways, i);
    FewerKeys(h[i].q.displaced, h[i].s.after);
    GoesUnplaced(h[i].s, h[i].a, ways, k, output);
  }

  lemma FewerKeys(d: Records, e: Records)
    requires d.Items <= e.Items
    ensures d.Keys <= e.Keys
  {
    forall k | k in d ensures k in e { assert (k, d[k]) in e.Items; }
  }

  /** A window alone in its process on the output when the baseline is taken, away with the output, and there when it
      comes back. */
  ghost predicate RoundTrip(h: seq<Turn>, ways: Ways, m: nat, n: nat, x: int, k: Ident, output: string) {
    && IsRun(h, ways) && ways.cooperative && m + 1 < n < |h|
    && LivesOn(h[m].b.w, x, k, output) && Away(h, m, n, k, output)
    && output in Lit(h[n].a.w.outs) && Bound(h[n].a.w, output)
    && x in h[n].a.w.place && IdentOf(h[n].a.w, x) == Some(k)
  }

  /** At the return the record still says what the baseline showed. */
  lemma ReturnsAsRecorded(h: seq<Turn>, ways: Ways, m: nat, n: nat, x: int, k: Ident, output: string)
    requires RoundTrip(h, ways, m, n, x, k, output)
    ensures Returning(h[n], k, output) && h[n].s.recorded[k] == RecordOf(h[m].b.w, x, k, output)
  {
    SeenAtBaseline(h, ways, m, x, k, output);
    CarriedToReturn(h, ways, m, n, k, output);
  }

  lemma CarriedToReturn(h: seq<Turn>, ways: Ways, m: nat, n: nat, k: Ident, output: string)
    requires IsRun(h, ways) && ways.cooperative && m + 1 < n < |h| && Away(h, m, n, k, output) && output in Lit(h[n].a.w.outs)
    requires k in h[m].q.snapshot && h[m].q.snapshot[k].output == Some(output)
    ensures h[n].s.Edge? && output in h[n].s.returned && k in h[n].s.recorded && h[n].s.recorded[k] == h[m].q.snapshot[k]
  {
    KeptThroughout(h, ways, m, n, n - 1, k, output);
    assert Linked(h, n);
    Carried(h, ways, m, n, n, k, output);
    PresentIs(h, ways, n);
    EdgeAt(h, ways, n);
  }

  lemma SeenAtBaseline(h: seq<Turn>, ways: Ways, m: nat, x: int, k: Ident, output: string)
    requires IsRun(h, ways) && ways.cooperative && m < |h| && Steady(h[m]) && LivesOn(h[m].b.w, x, k, output)
    ensures k in h[m].q.snapshot && h[m].q.snapshot[k] == RecordOf(h[m].b.w, x, k, output)
  {
    TurnAt(h, ways, m);
    SnapshotOf(h[m].q.snapshot, h[m].b.w, x, k, output);
  }

  /** MAIN RESULT. On a cooperative desk, whatever dwm and the other outputs did in between, the settle at which the output
      returns brings the window back with its tags and floating state (and its geometry, if floating and fitting) and
      forgets the record, unless it was elsewhere and the crash guard refused it a hop: only then is the record kept, and
      even then the window has its tags and floating state back. A floating window is sent its geometry, a tiled one none. */
  lemma UnplugReplug(h: seq<Turn>, ways: Ways, m: nat, n: nat, x: int, k: Ident, output: string)
    requires RoundTrip(h, ways, m, n, x, k, output)
    ensures var before, t := h[m].b.w, h[n];
            && (if k in t.q.displaced then HeldBack(t.a, t.b, x, output, Mine(t.s, t.a.w)) else BackHome(before, t.a.w, t.b.w, x, output))
            && x in t.b.w.place && t.b.w.place[x].tags == before.place[x].tags && t.b.w.place[x].floating == before.place[x].floating
            && (if before.place[x].floating then SentHome(RecordOf(before, x, k, output), t.a, t.b, output)
                else Unwritten(t.a.writes, t.b.writes, x))
  {
    ReturnsAsRecorded(h, ways, m, n, x, k, output);
    Replugged(h, ways, n, k, output);
    if k !in h[n].q.displaced { SameHome(h[m].b.w, h[n], x, k, output); }
  }

  lemma SameHome(before: World, t: Turn, x: int, k: Ident, output: string)
    requires x in before.place && t.s.Edge? && k in t.s.recorded && t.b.w.rects == t.a.w.rects
    requires t.s.recorded[k] == RecordOf(before, x, k, output) && RecHome(t.s.recorded[k], t.a.w, t.b.w, output)
    ensures BackHome(before, t.a.w, t.b.w, x, output)
  {
    var m: nat :| m < |t.a.w.rects| && BindsTo(Report(t.a.w)[m], t.a.w.outs, output) && Home(t.b.w, t.s.recorded[k], m);
    assert t.b.w.place[x] == Place(m, before.place[x].tags, before.place[x].floating);
  }

  /** Held back, and by the crash predicate: on a state that was read nothing else could be seen on the window's screen. */
  ghost predicate AtRisk(a: Past, b: Past, x: int, output: string, xs: set<int>)
    requires x in a.w.place
  {
    exists m: nat :: m < |a.w.rects| && BindsTo(Report(a.w)[m], a.w.outs, output) && RiskRefused(a, b, x, Some(m), xs)
  }

  /** MAIN RESULT. With at most 64 windows on the desktop, the record of a round trip is kept only for a hop that the crash
      predicate itself refuses on a state that was read, where nothing else is visible on the window's screen. */
  lemma KeptOnlyAtRisk(h: seq<Turn>, ways: Ways, m: nat, n: nat, x: int, k: Ident, output: string)
    requires RoundTrip(h, ways, m, n, x, k, output) && |h[n].a.w.place| <= 64
    ensures var t := h[n];
            if k in t.q.displaced then AtRisk(t.a, t.b, x, output, Mine(t.s, t.a.w)) else BackHome(h[m].b.w, t.a.w, t.b.w, x, output)
  {
    UnplugReplug(h, ways, m, n, x, k, output);
    var t := h[n];
    if k in t.q.displaced { HeldAtRisk(t.a, t.b, x, output, Mine(t.s, t.a.w)); }
  }

  lemma HeldAtRisk(a: Past, b: Past, x: int, output: string, xs: set<int>)
    requires x in a.w.place && HeldBack(a, b, x, output, xs) && |a.w.place| <= 64
    ensures AtRisk(a, b, x, output, xs)
  {
    var m: nat :| m < |a.w.rects| && BindsTo(Report(a.w)[m], a.w.outs, output) && HopRefused(a, b, x, Some(m), xs);
    WithinBudget(a, b, x, Some(m), xs);
  }

  /** A window on every tag: visible on its monitor in any view. */
  predicate OnEveryTag(w: World, y: int, s: int) {
    y in w.place && w.place[y].monitor == s && w.place[y].tags == 0xFFFF_FFFF
  }

  /** Such a window, outside `xs`. */
  ghost predicate HasCompany(w: World, s: int, xs: set<int>) {
    exists y :: OnEveryTag(w, y, s) && y !in xs
  }

  /** On every monitor but that of the output there is one. */
  ghost predicate Accompanied(w: World, output: string, xs: set<int>) {
    forall m: nat, s: nat | m < |w.rects| && s < |w.rects| && s != m && BindsTo(Report(w)[m], w.outs, output) :: HasCompany(w, s, xs)
  }

  lemma SeenInAnyView(tags: CrashGuard.Tags, view: CrashGuard.Tags)
    requires tags == 0xFFFF_FFFF && view != 0
    ensures tags & view != 0
  {
    assert tags & view == view;
  }

  lemma StillCompany(w: World, at: World, x: int, s: int, xs: set<int>)
    requires Only(w, at, xs) && x in xs && x in at.place && at.place[x].monitor == s && HasCompany(w, s, xs)
    ensures exists y :: Company(at, x, y)
  {
    var y :| OnEveryTag(w, y, s) && y !in xs;
    SeenInAnyView(at.place[y].tags, at.tagsets[s]);
    assert Company(at, x, y);
  }

  lemma NotAloneAt(a: Past, q: seq<Note>, i: nat, x: int, m: nat, output: string, xs: set<int>)
    requires x in a.w.place && x in xs && Accompanied(a.w, output, xs)
    requires m < |a.w.rects| && BindsTo(Report(a.w)[m], a.w.outs, output)
    ensures !StoppedAlone(a, q, i, x, m, xs)
  {
    if StoppedAlone(a, q, i, x, m, xs) {
      var s := q[i].at.place[x].monitor;
      assert HasCompany(a.w, s, xs);
      StillCompany(a.w, q[i].at, x, s, xs);
    }
  }

  lemma NeverAlone(a: Past, b: Past, x: int, output: string, xs: set<int>)
    requires x in a.w.place && x in xs && Accompanied(a.w, output, xs)
    ensures !AtRisk(a, b, x, output, xs)
  {
    if AtRisk(a, b, x, output, xs) {
      var m: nat :| m < |a.w.rects| && BindsTo(Report(a.w)[m], a.w.outs, output) && RiskRefused(a, b, x, Some(m), xs);
      var i: nat :| StoppedAlone(a, b.asked, i, x, m, xs);
      NotAloneAt(a, b.asked, i, x, m, output, xs);
    }
  }

  /** MAIN RESULT. A round trip that ends home: with at most 64 windows, and on every other monitor some window that no
      record of this settle is about and that every view shows, the window is back and its record gone. */
  lemma AccompaniedComesHome(h: seq<Turn>, ways: Ways, m: nat, n: nat, x: int, k: Ident, output: string)
    requires RoundTrip(h, ways, m, n, x, k, output) && |h[n].a.w.place| <= 64
    requires Accompanied(h[n].a.w, output, Mine(h[n].s, h[n].a.w))
    ensures k !in h[n].q.displaced && BackHome(h[m].b.w, h[n].a.w, h[n].b.w, x, output)
  {
    KeptOnlyAtRisk(h, ways, m, n, x, k, output);
    ReturnsAsRecorded(h, ways, m, n, x, k, output);
    var t := h[n];
    assert x in Mine(t.s, t.a.w);
    NeverAlone(t.a, t.b, x, output, Mine(t.s, t.a.w));
  }

  // ---- such runs exist -----------------------------------------------------------------------------------------

  /** The window of the laptop is on the external monitor; the external monitor goes; it is back. */
  predicate PlugStory(w0: World, w1: World, w2: World) {
    && Docked(w0) && 7 in w0.place && w0.place[7].monitor == 1 && IdentOf(w0, 7) == Some(Ident(42, 1000))
    && (forall y | y in w0.place && IdentOf(w0, y) == Some(Ident(42, 1000)) :: y == 7)
    && w1.outs == OneHead().outs && ProcessLives(w1, Ident(42, 1000))
    && Docked(w2) && 7 in w2.place && IdentOf(w2, 7) == Some(Ident(42, 1000))
  }

  predicate Story(h: seq<Turn>) {
    && |h| == 3 && PlugStory(h[0].a.w, h[1].a.w, h[2].a.w)
    && forall i | 0 <= i < 3 :: !h[i].s.Idle?
  }

  lemma HeadsRoundTrip(h: seq<Turn>, ways: Ways)
    requires IsRun(h, ways) && ways.cooperative && Story(h) && h[0].p.present.None?
    ensures RoundTrip(h, ways, 0, 2, 7, Ident(42, 1000), "HDMI-1")
  {
    FirstIsBaseline(h, ways);
    ExternalBinds(h[0].a.w);
    ExternalBinds(h[2].a.w);
    HeadsLit();
    HeadsAway(h);
  }

  /** The first settle only looks. */
  lemma FirstIsBaseline(h: seq<Turn>, ways: Ways)
    requires IsRun(h, ways) && h != [] && h[0].p.present.None? && !h[0].s.Idle?
    ensures Steady(h[0]) && h[0].b.w == h[0].a.w && h[0].q.displaced == h[0].p.displaced
  {
    TurnAt(h, ways, 0);
  }

  lemma HeadsAway(h: seq<Turn>)
    requires Story(h) && Steady(h[0])
    ensures Away(h, 0, 2, Ident(42, 1000), "HDMI-1")
  {
    HeadsLit();
    assert Undisturbed(h, 0, 2, Ident(42, 1000));
  }

  /** Two windows, the second one on every tag of the panel's monitor. */
  predicate Clocked(w: World) {
    && Docked(w) && w.place.Keys == {7, 8} && OnEveryTag(w, 8, 0)
    && IdentOf(w, 7) == Some(Ident(42, 1000)) && IdentOf(w, 8) == Some(Ident(43, 1001))
  }

  /** The clock's process never has a record on the external output. */
  lemma ClockIsNotRecorded(h: seq<Turn>, ways: Ways)
    requires IsRun(h, ways) && ways.cooperative && Story(h) && h[0].p.present.None? && h[0].p.displaced == map[]
    requires Clocked(h[0].a.w)
    ensures h[2].s.Edge? && Ident(43, 1001) !in h[2].s.recorded
  {
    NotAtTheUnplug(h, ways);
    HeadsLit();
    PresentIs(h, ways, 2);
    EdgeAt(h, ways, 2);
    assert Linked(h, 2);
  }

  lemma NotAtTheUnplug(h: seq<Turn>, ways: Ways)
    requires IsRun(h, ways) && ways.cooperative && Story(h) && h[0].p.present.None? && h[0].p.displaced == map[]
    requires Clocked(h[0].a.w)
    ensures Ident(43, 1001) !in h[1].q.displaced
  {
    FirstIsBaseline(h, ways);
    HeadsLit();
    PresentIs(h, ways, 1);
    EdgeAt(h, ways, 1);
    assert Linked(h, 1);
    ClockNotTaken(h, ways);
    if Ident(43, 1001) in h[1].q.displaced { ContentAt(h, ways, 1, Ident(43, 1001)); }
  }

  lemma ClockStandsAside(w: World)
    requires Clocked(w)
    ensures !Stood(w, Ident(43, 1001), "HDMI-1")
  {
    ExternalBinds(w);
  }

  lemma ClockNotTaken(h: seq<Turn>, ways: Ways)
    requires IsRun(h, ways) && ways.cooperative && Story(h) && Steady(h[0]) && h[0].b.w == h[0].a.w && Clocked(h[0].a.w)
    ensures Ident(43, 1001) !in OnOutputs(h[0].q.snapshot, {"HDMI-1"})
  {
    if Ident(43, 1001) in OnOutputs(h[0].q.snapshot, {"HDMI-1"}) {
      BaselineShows(h, ways, 0, Ident(43, 1001));
      ClockStandsAside(h[0].a.w);
    }
  }

  lemma ContentAt(h: seq<Turn>, ways: Ways, i: nat, k: Ident)
    requires IsRun(h, ways) && i < |h| && k in h[i].q.displaced
    ensures TakesFrom(h[i], k) || k in h[i].p.displaced
  {
    TurnAt(h, ways, i);
    ContentOfTurn(h[i], ways, k);
  }

  lemma ClockKeepsCompany(s: Settle, w: World)
    requires Clocked(w) && s.Edge? && Ident(43, 1001) !in s.recorded
    ensures Accompanied(w, "HDMI-1", Mine(s, w)) && |w.place| <= 64
  {
    assert |w.place| == |w.place.Keys|;
    ExternalBinds(w);
    assert 8 !in Mine(s, w);
    assert HasCompany(w, 0, Mine(s, w));
  }

  lemma ClockBringsHome(h: seq<Turn>, ways: Ways)
    requires IsRun(h, ways) && ways.cooperative && Story(h) && h[0].p.present.None? && h[0].p.displaced == map[]
    requires Clocked(h[0].a.w) && Clocked(h[2].a.w) && RoundTrip(h, ways, 0, 2, 7, Ident(42, 1000), "HDMI-1")
    ensures 7 in h[2].b.w.place && h[2].b.w.place[7].monitor == 1 && Ident(42, 1000) !in h[2].q.displaced
  {
    ClockIsNotRecorded(h, ways);
    ClockKeepsCompany(h[2].s, h[2].a.w);
    AccompaniedComesHome(h, ways, 0, 2, 7, Ident(42, 1000), "HDMI-1");
    BackOnOne(h[0].b.w, h[2].a.w, h[2].b.w);
  }

  lemma BackOnOne(before: World, back: World, after: World)
    requires Docked(back) && 7 in before.place && BackHome(before, back, after, 7, "HDMI-1")
    ensures 7 in after.place && after.place[7].monitor == 1
  {
    ExternalBinds(back);
  }

  function Desktops(clock: bool): seq<World> {
    if clock then [WithClock(TwoHeads(1)), WithClock(OneHead()), WithClock(TwoHeads(0))] else [TwoHeads(1), OneHead(), TwoHeads(0)]
  }

  lemma PlainStory()
    ensures PlugStory(TwoHeads(1), OneHead(), TwoHeads(0))
  {
  }

  lemma ClockIsThere(m: nat)
    requires m < 2
    ensures Clocked(WithClock(TwoHeads(m))) && WithClock(TwoHeads(m)).place[7].monitor == m
  {
  }

  lemma ClockStory(w0: World, w1: World, w2: World)
    requires Clocked(w0) && w0.place[7].monitor == 1 && Clocked(w2) && w1 == WithClock(OneHead())
    ensures PlugStory(w0, w1, w2)
  {
  }

  lemma DesktopsTell(clock: bool)
    ensures |Desktops(clock)| == 3 && PlugStory(Desktops(clock)[0], Desktops(clock)[1], Desktops(clock)[2])
    ensures Desktops(clock)[2].place[7].monitor == 0
    ensures clock ==> Clocked(Desktops(clock)[0]) && Clocked(Desktops(clock)[2])
  {
    if clock {
      ClockIsThere(0);
      ClockIsThere(1);
      ClockStory(WithClock(TwoHeads(1)), WithClock(OneHead()), WithClock(TwoHeads(0)));
    } else {
      PlainStory();
    }
  }

  /** A coordinator and a desk whose run is such a round trip, with a window to bring back to the other monitor; if there is
      a clock to keep the panel company, the window is brought back. */
  method RoundTripHappens(clock: bool) returns (c: Coordinator, ghost h: seq<Turn>)
    ensures RoundTrip(h, c.desk.ways, 0, 2, 7, Ident(42, 1000), "HDMI-1") && h[2].a.w.place[7].monitor == 0
    ensures clock ==> 7 in h[2].b.w.place && h[2].b.w.place[7].monitor == 1 && Ident(42, 1000) !in h[2].q.displaced
  {
    DesktopsTell(clock);
    var worlds := Desktops(clock);
    var desk := new Desk(worlds[0], Manner(true, true, true));
    c := new Coordinator(desk, true);
    h := Run(c, worlds);
    HeadsRoundTrip(h, desk.ways);
    if clock { ClockBringsHome(h, desk.ways); }
  }
}
