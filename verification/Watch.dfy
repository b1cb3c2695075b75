/** `watch.py`: change detection with debounce, bounce hold-down, bails and bounded retries.
    Times are whole milliseconds of a monotone clock. */
module Watch {
  import opened Wrappers
  import opened Outputs
  import opened Identity
  import opened Layouts
  import opened Apply

  const UNHEALED_APPLY_LIMIT := 3

  // ---- the clock --------------------------------------------------------------------------------

  class Clock {
    var now: int
    var stopping: bool
    ghost var waits: seq<nat>         // the waits asked for

    constructor ()
    {
      now, stopping := 0, false;
      waits := [];
    }

    /** Time goes by as it likes between two readings, but never backwards. */
    method Monotonic() returns (t: int)
      modifies this`now
      ensures old(now) <= now == t
    {
      var later: int := *;
      if later > now {
        now := later;
      }
      t := now;
    }

    method Sleep(ms: nat)
      modifies this`now, this`waits
      ensures old(now) + ms <= now && waits == old(waits) + [ms]
    {
      waits := waits + [ms];
      now := now + ms;
      var t := Monotonic();
    }

    /** `stop_evt.wait`: the whole time has passed unless the program is being stopped. */
    method Wait(ms: nat) returns (stopped: bool)
      modifies this
      ensures old(now) <= now && (if stopped then stopping else old(now) + ms <= now)
      ensures (old(stopping) ==> stopping) && waits == old(waits) + [ms]
    {
      waits := waits + [ms];
      stopped := *;
      stopping := stopping || stopped;
      if !stopped {
        now := now + ms;
      }
      var t := Monotonic();
    }
  }

  // ---- churn ----------------------------------------------------------------------------------

  /** The moments no further than `window` in the past. */
  function Recent(moments: seq<int>, t: int, window: int): seq<int> {
    if moments == [] then []
    else
      var n := |moments| - 1;
      Recent(moments[..n], t, window) + (if t - moments[n] <= window then [moments[n]] else [])
  }

  predicate Sorted(moments: seq<int>) {
    forall i, j | 0 <= i < j < |moments| :: moments[i] <= moments[j]
  }

  /** Exactly the moments at most `window` back, as often as they were noticed and in that order. */
  lemma {:induction false} RecentExactly(moments: seq<int>, t: int, window: int)
    ensures forall x :: multiset(Recent(moments, t, window))[x] == if t - x <= window then multiset(moments)[x] else 0
    ensures Sorted(moments) ==> Sorted(Recent(moments, t, window))
  {
    if moments != [] {
      var n := |moments| - 1;
      RecentExactly(moments[..n], t, window);
      assert moments == moments[..n] + [moments[n]];
      var r := Recent(moments[..n], t, window);
      forall x | x in r ensures x in moments[..n] { assert multiset(r)[x] > 0; }
      if Sorted(moments) { StaysSorted(moments[..n], r, moments[n]); }
    }
  }

  lemma StaysSorted(moments: seq<int>, r: seq<int>, m: int)
    requires Sorted(moments + [m]) && Sorted(r) && forall x | x in r :: x in moments
    ensures Sorted(r + [m])
  {
    var all := moments + [m];
    forall i | 0 <= i < |r| ensures r[i] <= m {
      assert r[i] in r;
      var j :| 0 <= j < |moments| && moments[j] == r[i];
      assert all[j] == r[i] && all[|moments|] == m;
    }
  }

  lemma {:induction false} RecentOfRecent(moments: seq<int>, t: int, u: int, window: int)
    requires t <= u
    ensures Recent(Recent(moments, t, window), u, window) == Recent(moments, u, window)
  {
    if moments != [] {
      var n := |moments| - 1;
      RecentOfRecent(moments[..n], t, u, window);
      var r := Recent(moments[..n], t, window);
      if t - moments[n] <= window {
        assert (r + [moments[n]])[..|r|] == r;
      } else {
        assert r + [] == r;
      }
    }
  }

  /** Filtering what was kept, plus the new moment, is filtering the whole history. */
  lemma WindowIsIncremental(moments: seq<int>, t: int, u: int, window: int)
    requires t <= u
    ensures Recent(Recent(moments, t, window) + [u], u, window) == Recent(moments + [u], u, window)
  {
    var r := Recent(moments, t, window);
    assert (r + [u])[..|r|] == r && (moments + [u])[..|moments|] == moments;
    RecentOfRecent(moments, t, u, window);
  }

  /** What one wakeup came to. */
  datatype Step =
    | Skipped                       // a signal, or nothing to read
    | Unchanged                     // the digest was, or became again, the absorbed one
    | Suppressed                    // a connector bounced and came back
    | Bail                          // an apply gave up
    | Retry(attempt: nat)           // an apply completed, a connected head is dark, not absorbed
    | Absorb(digest: string, gaveUp: bool)
    | Raised                        // a topology read failed: the loop ends

  predicate Completes(s: Step) {
    s.Retry? || s.Absorb?
  }

  /** The retry budget across one step: bails and quiet wakeups leave it alone. */
  predicate Counts(s: Step, before: nat, after: nat) {
    match s
    case Retry(k) => after == before + 1 == k && k <= 3
    case Absorb(_, gaveUp) => after == 0 && (gaveUp ==> before == 3)
    case _ => after == before
  }

  // ---- what the loop did, in order -------------------------------------------------------------------

  /** An apply: whether it completed, whether the apply lock could be had, when it began, the place `seen` of its second read among the
      screen's answers, and its commands, which are those from `from` to `to` of what the screen was sent. */
  datatype Attempt = Attempt(completed: bool, lockFree: bool, at: int, seen: nat, from: nat, to: nat)

  /** `Read` is a digest, the place of the read it was taken from, and the time the clock showed last before it. */
  datatype Event =
    | Read(digest: string, answer: nat, at: int)
    | Ran(attempt: Attempt)
    | Hooked

  /** The attempt acted on its second read: it switched off the heads stale there and lit the ones connected there. */
  ghost predicate Acted(p: Attempt, answers: seq<Answer>, issued: seq<Cmd>) {
    && p.from <= p.to <= |issued|
    && if p.completed then
         && 0 < p.seen < |answers| && answers[p.seen - 1].Some? && answers[p.seen].Some?
         && Offs(issued[p.from..p.to]) == Stale(answers[p.seen].value)
         && Lights(issued[p.from..p.to]) == Connected(answers[p.seen].value)
       else p.from == p.to
  }

  /** The event happened between the two moments: a digest is that of a read then made, an apply is what was then sent. */
  ghost predicate Happened(e: Event, a: Moment, b: Moment) {
    match e
    case Read(d, i, _) => |a.answers| <= i < |b.answers| && b.answers[i].Some? && d == TopologyText(b.answers[i].value)
    case Ran(p) =>
      Acted(p, b.answers, b.issued) && p.from == |a.issued| && p.to == |b.issued|
      && (if p.completed then |a.answers| < p.seen else p.lockFree ==> !Clear(a, b))
    case Hooked => true
  }

  ghost predicate AllHappened(t: seq<Event>, a: Moment, b: Moment) {
    forall i {:trigger Happened(t[i], a, b)} | 0 <= i < |t| :: Happened(t[i], a, b)
  }

  predicate OnlyReads(t: seq<Event>) {
    forall i | 0 <= i < |t| :: t[i].Read?
  }

  /** Reads only, the last one of this digest. */
  predicate EndsWith(t: seq<Event>, digest: string) {
    t != [] && OnlyReads(t) && t[|t| - 1].digest == digest
  }

  /** Reads, then an apply. */
  predicate EndsTrying(t: seq<Event>, completed: bool) {
    && t != [] && OnlyReads(t[..|t| - 1])
    && t[|t| - 1].Ran? && t[|t| - 1].attempt.completed == completed
  }

  /** Reads, an apply that completed, the digest read after it, and the hook. */
  predicate EndsSettled(t: seq<Event>, digest: string) {
    && |t| >= 3 && OnlyReads(t[..|t| - 3])
    && t[|t| - 3].Ran? && t[|t| - 3].attempt.completed
    && t[|t| - 2].Read? && t[|t| - 2].digest == digest && t[|t| - 3].attempt.seen < t[|t| - 2].answer
    && t[|t| - 1].Hooked?
  }

  /** Two reads in a row, a debounce apart, both differed from the absorbed digest. */
  predicate Confirmed(t: seq<Event>, last: string) {
    && |t| >= 2 && t[0].Read? && t[1].Read? && t[0].answer < t[1].answer && t[0].at + 150 <= t[1].at
    && t[0].digest != last && t[1].digest != last
  }

  /** The events of one wakeup that began with `last` absorbed and ended with `next`. */
  ghost predicate Traces(s: Step, last: string, next: string, t: seq<Event>) {
    match s
    case Skipped => next == last && t == []
    case Unchanged => next == last && EndsWith(t, last)
    case Suppressed => next == last && EndsWith(t, last)
    case Bail => next == last && EndsTrying(t, false) && Confirmed(t, last)
    case Retry(_) => next == last && (exists d :: EndsSettled(t, d)) && Confirmed(t, last)
    case Absorb(d, _) => next == d && EndsSettled(t, d) && Confirmed(t, last)
    case Raised => next == last && (OnlyReads(t) || (EndsTrying(t, true) && Confirmed(t, last)))
  }

  /** The events from the apply on. */
  ghost predicate Finishes(s: Step, last: string, next: string, t: seq<Event>) {
    match s
    case Bail => next == last && |t| == 1 && EndsTrying(t, false)
    case Raised => next == last && |t| == 1 && EndsTrying(t, true)
    case Retry(_) => next == last && |t| == 3 && exists d :: EndsSettled(t, d)
    case Absorb(d, _) => next == d && |t| == 3 && EndsSettled(t, d)
    case _ => false
  }

  lemma FinishedTrace(s: Step, last: string, next: string, looked: seq<Event>, done: seq<Event>)
    requires OnlyReads(looked) && Confirmed(looked, last) && Finishes(s, last, next, done)
    ensures Traces(s, last, next, looked + done)
  {
    var t := looked + done;
    assert t[..|looked|] == looked && forall i | 0 <= i < |done| :: t[|looked| + i] == done[i];
    if s.Retry? {
      var d :| EndsSettled(done, d);
      assert EndsSettled(t, d);
    }
  }

  /** The apply began at `at`, after a second read that was not held down. */
  predicate WentAhead(tr: Trust, t: seq<Event>, at: int, b: Scene) {
    |t| >= 2 && t[1].Read? && NotHeld(tr, t[1].at, t[1].answer, b.(now := at))
  }

  lemma AheadLater(tr: Trust, looked: seq<Event>, t: seq<Event>, a: Scene, b: Scene)
    requires |looked| >= 2 && looked <= t && looked[1].Read? && NotHeld(tr, looked[1].at, looked[1].answer, a)
    requires a.x.answers <= b.x.answers && b.stopping == a.stopping
    ensures WentAhead(tr, t, a.now, b)
  {
    assert looked[1] == t[1];
  }

  /** A wakeup makes one apply at most, right after its reads. */
  lemma OneRan(s: Step, last: string, next: string, looked: seq<Event>, done: seq<Event>)
    requires OnlyReads(looked) && Confirmed(looked, last) && Finishes(s, last, next, done)
    ensures (looked + done)[1] == looked[1]
    ensures forall j | 0 <= j < |looked + done| && (looked + done)[j].Ran? :: (looked + done)[j] == done[0]
  {
    if s.Retry? {
      var d :| EndsSettled(done, d);
    }
  }

  /** A read known to have failed. */
  lemma Unclear(a: Moment, b: Moment, i: nat)
    requires |a.answers| <= i < |b.answers| && b.answers[i].None?
    ensures !Clear(a, b)
  {
  }

  lemma UnclearWithin(a: Moment, b: Moment, c: Moment, d: Moment)
    requires Later(a, b) && Later(c, d) && !Clear(b, c)
    ensures !Clear(a, d)
  {
    var i :| |b.answers| <= i < |c.answers| && c.answers[i].None?;
    assert d.answers[i].None?;
  }

  /** What happened between two moments happened between any moments around them, if nothing else was sent. */
  lemma HappenedWithin(t: seq<Event>, a: Moment, b: Moment, c: Moment, d: Moment)
    requires Looked(a, b) && Later(b, c) && Looked(c, d) && AllHappened(t, b, c)
    ensures AllHappened(t, a, d)
  {
    forall i | 0 <= i < |t| ensures Happened(t[i], a, d) {
      assert Happened(t[i], b, c);
      if !Clear(b, c) { UnclearWithin(a, b, c, d); }
    }
  }

  lemma ReadsHappenedWithin(t: seq<Event>, a: Moment, b: Moment, c: Moment, d: Moment)
    requires Later(a, b) && Later(b, c) && Later(c, d) && OnlyReads(t) && AllHappened(t, b, c)
    ensures AllHappened(t, a, d)
  {
    forall i | 0 <= i < |t| ensures Happened(t[i], a, d) {
      assert Happened(t[i], b, c);
    }
  }

  // ---- the hold-down gates ------------------------------------------------------------------------

  /** `present_connectors`: an unreadable topology yields the empty set. */
  function PresentOf(read: Answer): (names: set<string>)
    ensures forall n :: n in names <==> read.Some? && n in read.value && read.value[n].connected
  {
    if read.Some? then Connected(read.value) else {}
  }

  /** What the hold-down goes by: its two times, when an apply was last done, and the connectors present then. */
  datatype Trust = Trust(holdMs: int, suspectMs: int, doneAt: Option<int>, present: set<string>)

  /** The gates that need no read: switched on, an apply was recent, and there is a baseline. */
  predicate Gates(tr: Trust, now: int) {
    tr.holdMs > 0 && tr.doneAt.Some? && now - tr.doneAt.value <= tr.suspectMs && tr.present != {}
  }

  /** All gates of `_bounce_settled`: a connector of the baseline is missing from this read. */
  predicate Suspect(tr: Trust, now: int, read: Answer) {
    Gates(tr, now) && !(tr.present <= PresentOf(read))
  }

  /** What `present_connectors` promises its callers: an unreadable topology holds nothing down. */
  predicate UnknownIsNotHeld(tr: Trust, now: int, read: Answer) {
    read.None? ==> !Suspect(tr, now, read)
  }

  /** EXACT CONDITION. The promise is kept only where there was nothing to decide: the read answered, or an earlier
      gate had already let the apply through. */
  lemma UnknownHeldExactly(tr: Trust, now: int, read: Answer)
    ensures UnknownIsNotHeld(tr, now, read) <==> read.Some? || !Gates(tr, now)
  {
    if read.None? && Gates(tr, now) {
      var x :| x in tr.present;
      assert x !in PresentOf(read);
    }
  }

  /** COUNTEREXAMPLE. With the default times, a second after an apply, one connector in the baseline and a read
      that fails: the apply is held down. */
  lemma UnknownIsHeld()
    ensures !UnknownIsNotHeld(Trust(3000, 5000, Some(0), {"HDMI-1"}), 1000, None)
  {
    assert "HDMI-1" in {"HDMI-1"};
  }

  /** The screen, the time the clock showed last, and whether the program is being stopped. */
  datatype Scene = Scene(x: Moment, now: int, stopping: bool)

  /** Nothing was sent meanwhile. */
  predicate Elapsed(a: Scene, b: Scene) {
    Looked(a.x, b.x) && a.now <= b.now
  }

  /** At some time in between, and by one of the reads made in between, all gates were passed. */
  ghost predicate Bounced(tr: Trust, a: Scene, b: Scene) {
    exists at: int, i: nat :: a.now <= at <= b.now && |a.x.answers| <= i < |b.x.answers| && Suspect(tr, at, b.x.answers[i])
  }

  /** Nothing was to be held down, or the hold was sat out: with the gates still open, the read after this one missed no
      connector of the baseline, or the whole hold has passed since, or the program is being stopped. */
  predicate NotHeld(tr: Trust, at: int, answer: nat, b: Scene) {
    Gates(tr, b.now) ==>
      b.stopping || at + tr.holdMs <= b.now || (answer + 1 < |b.x.answers| && tr.present <= PresentOf(b.x.answers[answer + 1]))
  }

  /** What the hold-down comes to: `Some(true)` suppresses the apply, `Some(false)` lets it go ahead. */
  ghost predicate Waited(tr: Trust, last: string, bounced: Option<bool>, t: seq<Event>, a: Scene, b: Scene) {
    && Elapsed(a, b) && OnlyReads(t) && AllHappened(t, a.x, b.x)
    && (if bounced == Some(true) then TopologyText(b.x.outs) == last && EndsWith(t, last) else forall i | 0 <= i < |t| :: t[i].digest != last)
    && (bounced != Some(false) || t != [] ==> Bounced(tr, a, b))
    && (bounced == Some(false) && a.x.answers != [] ==> NotHeld(tr, a.now, |a.x.answers| - 1, b))
    && (bounced.None? ==> !Clear(a.x, b.x))
  }

  /** A hold so far: every wait was followed by a read, and none gave the absorbed digest. */
  ghost predicate Holding(last: string, t: seq<Event>, waited: int, before: seq<nat>, waits: seq<nat>, a: Moment, b: Moment) {
    && Looked(a, b) && OnlyReads(t) && AllHappened(t, a, b) && (forall i | 0 <= i < |t| :: t[i].digest != last)
    && Polled(before, waits, t, Some(true), false) && waited == Total(waits[|before|..])
  }

  lemma HoldsOn(last: string, seen: seq<Event>, more: seq<Event>, waited: int, wait: nat, before: seq<nat>, mid: seq<nat>, waits: seq<nat>,
                a: Moment, b: Moment, c: Moment)
    requires Holding(last, seen, waited, before, mid, a, b) && Looked(b, c)
    requires OnlyReads(more) && AllHappened(more, b, c) && |more| == 1 && more[0].digest != last && waits == mid + [wait] && wait <= 150
    ensures Holding(last, seen + more, waited + wait, before, waits, a, c)
  {
    ReadsHappenedWithin(seen, a, a, b, c);
    ReadsHappenedWithin(more, a, b, c, c);
    BothHappened(seen, more, a, c);
    TotalMore(before, mid, waits, wait);
  }

  /** The turn that ends a hold. */
  lemma HoldEnds(g: Glance, last: string, seen: seq<Event>, more: seq<Event>, waited: int, wait: nat, before: seq<nat>, mid: seq<nat>,
                 waits: seq<nat>, stopping: bool, a: Moment, b: Moment, c: Moment)
    requires Holding(last, seen, waited, before, mid, a, b) && Looked(b, c) && !g.Different?
    requires OnlyReads(more) && AllHappened(more, b, c) && (g.Back? ==> |more| == 1 && EndsWith(more, last)) && (!g.Back? ==> more == [])
    requires if waits == mid then g.Over? && wait == 0 else waits == mid + [wait] && wait <= 150 && (g.Over? ==> stopping)
    requires g.Unreadable? ==> !Clear(b, c)
    ensures var t, back := seen + more, if g.Over? then Some(false) else if g.Back? then Some(true) else None;
            && Looked(a, c) && OnlyReads(t) && AllHappened(t, a, c) && Polled(before, waits, t, back, stopping)
            && waited + wait == Total(waits[|before|..])
            && (g.Back? ==> EndsWith(t, last)) && (!g.Back? ==> t == seen) && (g.Unreadable? ==> !Clear(a, c))
  {
    ReadsHappenedWithin(seen, a, a, b, c);
    ReadsHappenedWithin(more, a, b, c, c);
    BothHappened(seen, more, a, c);
    if waits != mid { TotalMore(before, mid, waits, wait); }
    if g.Unreadable? { UnclearWithin(a, b, c, c); }
    if g.Back? { assert (seen + more)[|seen + more| - 1] == more[0]; }
  }

  /** A hold after all gates were passed. */
  lemma HeldDown(tr: Trust, last: string, bounced: Option<bool>, t: seq<Event>, a: Scene, b: Scene, c: Scene)
    requires Elapsed(a, b) && Elapsed(b, c) && |b.x.answers| == |a.x.answers| + 1 && Suspect(tr, b.now, b.x.answers[|a.x.answers|])
    requires OnlyReads(t) && AllHappened(t, b.x, c.x)
    requires if bounced == Some(true) then TopologyText(c.x.outs) == last && EndsWith(t, last) else forall i | 0 <= i < |t| :: t[i].digest != last
    requires (bounced == Some(false) ==> c.stopping || b.now + tr.holdMs <= c.now) && (bounced.None? ==> !Clear(b.x, c.x))
    ensures Waited(tr, last, bounced, t, a, c) && Bounced(tr, a, c)
  {
    assert c.x.answers[|a.x.answers|] == b.x.answers[|a.x.answers|];
    ReadsHappenedWithin(t, a.x, b.x, c.x, c.x);
    if bounced.None? { UnclearWithin(a.x, b.x, c.x, c.x); }
  }

  /** What the reads before an apply come to. */
  ghost predicate Looks(tr: Trust, v: Verdict, last: string, t: seq<Event>, a: Scene, b: Scene) {
    && Elapsed(a, b) && OnlyReads(t) && AllHappened(t, a.x, b.x)
    && (v.Same? || v.Returned? ==> TopologyText(b.x.outs) == last && EndsWith(t, last))
    && (v.Returned? ==> Bounced(tr, a, b))
    && (v.Failed? ==> !Clear(a.x, b.x))
  }

  /** A read of the topology that was not the absorbed digest. */
  predicate ReadOff(e: Event, last: string, a: Scene, b: Scene) {
    && Elapsed(a, b) && e.Read? && e.digest != last && e.answer == |a.x.answers| && |b.x.answers| == |a.x.answers| + 1 && e.at == a.now
    && b.x.answers[|a.x.answers|] == Some(b.x.outs) && e.digest == TopologyText(b.x.outs)
  }

  lemma BouncedSince(tr: Trust, a: Scene, b: Scene, c: Scene)
    requires Elapsed(a, b) && Bounced(tr, b, c)
    ensures Bounced(tr, a, c)
  {
    var at: int, i: nat :| b.now <= at <= c.now && |b.x.answers| <= i < |c.x.answers| && Suspect(tr, at, c.x.answers[i]);
    assert a.now <= at && |a.x.answers| <= i;
  }

  /** The second digest and the hold-down. */
  lemma Reconfirmed(tr: Trust, last: string, bounced: Option<bool>, first: Event, held: seq<Event>, a: Scene, b: Scene, c: Scene)
    requires ReadOff(first, last, a, b) && b.now == a.now && Waited(tr, last, bounced, held, b, c)
    ensures var v := if bounced.None? then Failed else if bounced.value then Returned else Changed;
            Looks(tr, v, last, [first] + held, a, c) && (v.Changed? ==> NotHeld(tr, first.at, first.answer, c))
  {
    ReadsHappenedWithin([first], a.x, a.x, b.x, c.x);
    ReadsHappenedWithin(held, a.x, b.x, c.x, c.x);
    ReadFirst(first, held, last);
    BothHappened([first], held, a.x, c.x);
    if bounced != Some(false) { BouncedSince(tr, a, b, c); }
    if bounced.None? { UnclearWithin(a.x, b.x, c.x, c.x); }
  }

  lemma BothHappened(s: seq<Event>, t: seq<Event>, a: Moment, b: Moment)
    requires AllHappened(s, a, b) && AllHappened(t, a, b)
    ensures AllHappened(s + t, a, b)
  {
    forall i | 0 <= i < |s + t| ensures Happened((s + t)[i], a, b) {
      assert (s + t)[i] == if i < |s| then s[i] else t[i - |s|];
    }
  }

  /** The first digest, the debounce, and what followed. */
  lemma LooksBefore(tr: Trust, v: Verdict, last: string, first: Event, again: seq<Event>, a: Scene, b: Scene, c: Scene)
    requires ReadOff(first, last, a, b) && Looks(tr, v, last, again, b, c)
    requires v.Changed? ==> again != [] && again[0].digest != last && again[0].answer == |b.x.answers| && a.now + 150 <= again[0].at
    ensures Looks(tr, v, last, [first] + again, a, c) && (v.Changed? ==> Confirmed([first] + again, last))
  {
    ReadsHappenedWithin([first], a.x, a.x, b.x, c.x);
    ReadsHappenedWithin(again, a.x, b.x, c.x, c.x);
    ReadFirst(first, again, last);
    BothHappened([first], again, a.x, c.x);
    if v.Returned? { BouncedSince(tr, a, b, c); }
    if v.Failed? { UnclearWithin(a.x, b.x, c.x, c.x); }
  }

  /** A first read, then more. */
  lemma ReadFirst(e: Event, again: seq<Event>, last: string)
    requires e.Read? && e.digest != last && OnlyReads(again)
    ensures OnlyReads([e] + again)
    ensures EndsWith(again, last) ==> EndsWith([e] + again, last)
    ensures again != [] && again[0].digest != last && e.answer < again[0].answer && e.at + 150 <= again[0].at ==>
              Confirmed([e] + again, last)
  {
    var t := [e] + again;
    assert forall i | 0 < i < |t| :: t[i] == again[i - 1];
  }

  /** One stretch of events after another. */
  lemma Joined(a: seq<Event>, b: seq<Event>, c: seq<Event>, s: seq<Event>, t: seq<Event>)
    requires b == a + s && c == b + t
    ensures c == a + (s + t)
  {
  }

  lemma FirstThenRest(log: seq<Event>, e: Event, t: seq<Event>, after: seq<Event>)
    requires t != [] && t[0] == e && after == log + [e] + t[1..]
    ensures after == log + t
  {
    assert t == [e] + t[1..];
    Joined(log, log + [e], after, [e], t[1..]);
  }

  /** How the waits before an apply ended. */
  datatype Verdict = Failed | Same | Returned | Changed

  /** One look of the hold-down loop: the hold is over, or what a re-read gave. */
  datatype Glance = Over | Unreadable | Different(digest: string) | Back

  /** The last read of a completed wakeup is the look for dark heads: what it showed decides between retry and absorption. */
  predicate ShowsDark(read: Answer) {
    read.Some? && Connected(read.value) - Lit(read.value) != {}
  }

  /** The polling of a hold: after every wait, of at most 150 ms, the topology is read again, unless the wait was cut short. */
  predicate Polled(before: seq<nat>, after: seq<nat>, t: seq<Event>, back: Option<bool>, stopping: bool) {
    && before <= after && (forall i | |before| <= i < |after| :: after[i] <= 150)
    && match back
       case None => |after| == |before| + |t| + 1
       case Some(true) => |after| == |before| + |t|
       case Some(false) => |after| == |before| + |t| || (stopping && |after| == |before| + |t| + 1)
  }

  function Total(waits: seq<nat>): nat {
    if waits == [] then 0 else Total(waits[..|waits| - 1]) + waits[|waits| - 1]
  }

  lemma TotalMore(before: seq<nat>, mid: seq<nat>, after: seq<nat>, ms: nat)
    requires before <= mid && after == mid + [ms]
    ensures Total(after[|before|..]) == Total(mid[|before|..]) + ms
  {
    assert after[|before|..] == mid[|before|..] + [ms];
  }

  /** After a completed apply a dark head is retried while the budget lasts; it is absorbed only as given up. */
  predicate DarkDecides(s: Step, a: Moment, b: Moment) {
    Completes(s) ==>
      && |a.answers| < |b.answers|
      && (b.answers[|b.answers| - 1].Some? ==> b.answers[|b.answers| - 1].value == b.outs)
      && (ShowsDark(b.answers[|b.answers| - 1]) <==> s.Retry? || s.gaveUp)
  }

  /** With nothing interfering a wakeup does nothing if the digest is the absorbed one, and otherwise heals: no head is
      dark, and the digest absorbed is that of the heads as they are. */
  predicate CalmHeals(s: Step, last: string, a: Moment, b: Moment) {
    Calm(a, b) ==>
      && (TopologyText(a.outs) == last ==> !Completes(s) && !s.Bail? && !s.Suppressed?)
      && (!Completes(s) && !s.Raised? ==> b.outs == a.outs)
      && !s.Retry?
      && (s.Absorb? ==> !s.gaveUp && s.digest == TopologyText(b.outs) && Healthy(b.outs) && Connected(b.outs) == Connected(a.outs))
  }

  /** MAIN CONTRACT of one wakeup that began with `last` absorbed and ended with `next`, on a screen that went from `a` to
      `b` meanwhile: `t` is what it did, in order. */
  ghost predicate Wakes(s: Step, last: string, next: string, t: seq<Event>, a: Moment, b: Moment) {
    && Later(a, b) && Traces(s, last, next, t) && AllHappened(t, a, b)
    && (!Completes(s) && !s.Raised? ==> Looked(a, b))
    && (s.Raised? ==> !Clear(a, b) && (OnlyReads(t) ==> Looked(a, b)))
    && (s.Unchanged? || s.Suppressed? ==> TopologyText(b.outs) == last)
    && DarkDecides(s, a, b) && CalmHeals(s, last, a, b)
  }

  /** What the apply of a confirmed change, and what follows it, comes to between two moments. */
  ghost predicate Changes(s: Step, last: string, next: string, t: seq<Event>, a: Moment, b: Moment) {
    && Later(a, b) && Finishes(s, last, next, t) && AllHappened(t, a, b)
    && (s.Bail? ==> Looked(a, b)) && (s.Raised? ==> !Clear(a, b))
    && DarkDecides(s, a, b)
    && (Calm(a, b) ==> !s.Retry?)
    && (Calm(a, b) && s.Absorb? ==>
          !s.gaveUp && s.digest == TopologyText(b.outs) && Healthy(b.outs) && Connected(b.outs) == Connected(a.outs))
  }

  /** What follows an apply that completed, beginning with this read. */
  ghost predicate Settles(s: Step, last: string, next: string, settled: Event, a: Moment, b: Moment) {
    && Looked(a, b) && (s.Raised? || Completes(s))
    && (s.Raised? ==> next == last && !Clear(a, b))
    && (Completes(s) ==> settled.Read? && settled.answer == |a.answers| && Happened(settled, a, b))
    && (s.Retry? ==> next == last)
    && (s.Absorb? ==> next == s.digest == settled.digest && (a.drifts == b.drifts ==> s.digest == TopologyText(b.outs)))
    && DarkDecides(s, a, b)
  }

  function ChangeEvents(s: Step, ran: Event, settled: Event): seq<Event> {
    if s.Raised? then [ran] else [ran, settled, Hooked]
  }

  lemma SettledBy(s: Step, last: string, next: string, settled: Event, a: Moment, b: Moment, c: Moment)
    requires Looked(a, b) && Looked(b, c) && |b.answers| == |a.answers| + 1 && b.answers[|a.answers|] == Some(b.outs)
    requires settled.Read? && settled.answer == |a.answers| && settled.digest == TopologyText(b.outs)
    requires Completes(s) && DarkDecides(s, b, c)
    requires if s.Retry? then next == last else next == s.digest == settled.digest
    ensures Settles(s, last, next, settled, a, c)
  {
    assert c.answers[|a.answers|] == b.answers[|a.answers|];
  }

  lemma SettledChange(s: Step, last: string, next: string, ran: Event, settled: Event, a: Moment, b: Moment, c: Moment)
    requires Tried(ran, a, b) && ran.attempt.completed && Settles(s, last, next, settled, b, c)
    ensures Changes(s, last, next, ChangeEvents(s, ran, settled), a, c)
  {
    var t := ChangeEvents(s, ran, settled);
    HappenedWithin([ran], a, a, b, c);
    assert Happened([ran][0], a, c);
    if s.Raised? {
      UnclearWithin(a, b, c, c);
    } else {
      assert EndsSettled(t, settled.digest);
    }
    if Calm(a, c) { HealthyIs(b.outs); }
  }

  lemma GaveUpEarly(last: string, ran: Event, a: Moment, b: Moment)
    requires Tried(ran, a, b) && !ran.attempt.completed
    ensures Changes(Bail, last, last, [ran], a, b)
  {
  }

  /** A wakeup that got no further than reading. */
  lemma QuietWake(s: Step, last: string, t: seq<Event>, a: Moment, b: Moment)
    requires Looked(a, b) && OnlyReads(t) && AllHappened(t, a, b) && (s.Unchanged? || s.Suppressed? || s.Raised?)
    requires s.Unchanged? || s.Suppressed? ==> TopologyText(b.outs) == last && EndsWith(t, last)
    requires s.Raised? ==> !Clear(a, b)
    requires s.Suppressed? && a.drifts == b.drifts ==> TopologyText(a.outs) != last
    ensures Wakes(s, last, last, t, a, b)
  {
  }

  /** A wakeup that confirmed a change and acted on it. */
  lemma ChangedWake(s: Step, last: string, next: string, looked: seq<Event>, done: seq<Event>, a: Moment, b: Moment, c: Moment)
    requires Looked(a, b) && OnlyReads(looked) && AllHappened(looked, a, b) && Confirmed(looked, last)
    requires Changes(s, last, next, done, b, c)
    requires a.drifts == b.drifts ==> TopologyText(a.outs) != last
    ensures Wakes(s, last, next, looked + done, a, c)
  {
    var t := looked + done;
    FinishedTrace(s, last, next, looked, done);
    ReadsHappenedWithin(looked, a, a, b, c);
    HappenedWithin(done, a, b, c, c);
    forall i | 0 <= i < |t| ensures Happened(t[i], a, c) {
      assert t[i] == if i < |looked| then looked[i] else done[i - |looked|];
    }
    if s.Raised? {
      UnclearWithin(a, b, c, c);
      assert t[|t| - 1] == done[0];
    }
  }

  /** A wakeup, with what the hold-down had to do with it: it suppresses only what a connector's return explains, and an apply
      goes ahead only after a second read that was not held down. */
  ghost predicate Woke(tr: Trust, s: Step, last: string, next: string, t: seq<Event>, a: Scene, b: Scene) {
    && !s.Skipped? && Wakes(s, last, next, t, a.x, b.x)
    && (s.Suppressed? ==> Bounced(tr, a, b))
    && forall j | 0 <= j < |t| && t[j].Ran? :: WentAhead(tr, t, t[j].attempt.at, b)
  }

  lemma QuietWoke(tr: Trust, v: Verdict, s: Step, last: string, t: seq<Event>, a: Scene, b: Scene)
    requires Looks(tr, v, last, t, a, b) && !v.Changed?
    requires s == if v.Same? then Unchanged else if v.Returned? then Suppressed else Raised
    requires a.x.drifts == b.x.drifts && TopologyText(a.x.outs) == last ==> v.Same? || v.Failed?
    ensures Woke(tr, s, last, last, t, a, b)
  {
    QuietWake(s, last, t, a.x, b.x);
  }

  lemma ChangeWoke(tr: Trust, s: Step, last: string, next: string, looked: seq<Event>, done: seq<Event>, a: Scene, b: Scene, c: Scene)
    requires Looks(tr, Changed, last, looked, a, b) && Confirmed(looked, last) && NotHeld(tr, looked[1].at, looked[1].answer, b)
    requires a.x.drifts == b.x.drifts ==> TopologyText(a.x.outs) != last
    requires Changes(s, last, next, done, b.x, c.x) && b.stopping == c.stopping
    requires done != [] && done[0].Ran? && done[0].attempt.at == b.now
    ensures Woke(tr, s, last, next, looked + done, a, c)
  {
    ChangedWake(s, last, next, looked, done, a.x, b.x, c.x);
    OneRan(s, last, next, looked, done);
    AheadLater(tr, looked, looked + done, b, c);
  }

  /** The event of an apply. */
  function RanFrom(completed: bool, lockFree: bool, at: int, a: Moment, b: Moment): Event {
    Ran(Attempt(completed, lockFree, at, |a.answers| + 1, |a.issued|, |b.issued|))
  }

  lemma RanHappened(completed: bool, lockFree: bool, at: int, a: Moment, b: Moment)
    requires Later(a, b) && (!completed ==> Looked(a, b) && (lockFree ==> !Clear(a, b)))
    requires completed ==> BothRead(a, b)
                           && Offs(b.issued[|a.issued|..]) == Stale(SecondRead(a, b))
                           && Lights(b.issued[|a.issued|..]) == Connected(SecondRead(a, b))
    ensures Happened(RanFrom(completed, lockFree, at, a, b), a, b)
  {
    assert b.issued[|a.issued|..|b.issued|] == b.issued[|a.issued|..];
  }

  /** What an apply that acted on these heads leaves in the state file, if it can be written: on the placement path the state
      its slots were computed from, on the others what was there. */
  ghost predicate Filed(before: File, after: File, written: bool, issued: seq<Cmd>, seen: Heads,
                        layouts: Catalogue, defaultSide: string, exts: seq<Output>)
  {
    if Connected(seen) != {} && MatchProfile(Connected(seen), layouts).None? then
      if written then after.Some? && Stored(issued, before, after.value, exts, seen, defaultSide) else after == before
    else after == before
  }

  /** One attempt to apply: what it did to the heads and to the state file, where `written` says that a save did not fail. */
  ghost predicate Applied(ran: Event, a: Moment, b: Moment, before: File, after: File, written: bool, layouts: Catalogue,
                          defaultSide: string, exts: seq<Output>)
  {
    && ran.Ran? && Happened(ran, a, b)
    && if ran.attempt.completed then Completed(ran, a, b, before, after, written, layouts, defaultSide, exts)
       else Looked(a, b) && after == before
  }

  ghost predicate Completed(ran: Event, a: Moment, b: Moment, before: File, after: File, written: bool, layouts: Catalogue,
                            defaultSide: string, exts: seq<Output>)
    requires ran.Ran?
  {
    && Later(a, b) && BothRead(a, b) && ran.attempt.seen == |a.answers| + 1 && ran.attempt.lockFree
    && Filed(before, after, written, b.issued, SecondRead(a, b), layouts, defaultSide, exts)
    && (Calm(a, b) ==> Healthy(b.outs) && Connected(b.outs) == Connected(a.outs))
  }

  /** What an apply sent and what it has to save, as the loop needs to know it. */
  ghost predicate Passed(completed: bool, lockFree: bool, a: Moment, b: Moment, layouts: Catalogue, loaded: File, defaultSide: string,
                         toSave: File, exts: seq<Output>)
  {
    if completed then
      && lockFree && Later(a, b) && BothRead(a, b)
      && Arranged(b.issued, SecondRead(a, b), layouts, loaded, defaultSide, toSave, exts)
      && (Calm(a, b) ==> Healthy(b.outs) && Connected(b.outs) == Connected(a.outs))
    else
      toSave.None? && Looked(a, b) && (lockFree ==> !Clear(a, b))
  }

  lemma AppliedIsLater(ran: Event, a: Moment, b: Moment, before: File, after: File, written: bool, layouts: Catalogue,
                       defaultSide: string, exts: seq<Output>)
    requires Applied(ran, a, b, before, after, written, layouts, defaultSide, exts)
    ensures Tried(ran, a, b)
  {
  }

  /** What the loop goes by. */
  ghost predicate Tried(ran: Event, a: Moment, b: Moment) {
    && ran.Ran? && Later(a, b) && Happened(ran, a, b)
    && if ran.attempt.completed then
         && ran.attempt.seen < |b.answers|
         && (Calm(a, b) ==> Healthy(b.outs) && Connected(b.outs) == Connected(a.outs))
       else
         Looked(a, b) && (ran.attempt.lockFree ==> !Clear(a, b))
  }

  lemma PassApplies(completed: bool, lockFree: bool, at: int, a: Moment, b: Moment, layouts: Catalogue, before: File, after: File,
                    written: bool, defaultSide: string, toSave: File, exts: seq<Output>)
    requires Passed(completed, lockFree, a, b, layouts, before, defaultSide, toSave, exts)
    requires Happened(RanFrom(completed, lockFree, at, a, b), a, b)
    requires after == if toSave.Some? && written then toSave else before
    ensures Applied(RanFrom(completed, lockFree, at, a, b), a, b, before, after, written, layouts, defaultSide, exts)
  {
  }

  /** One pass over the heads, which began at `at`. */
  method Pass(x: Screen, lockFree: bool, layouts: Catalogue, loaded: File, defaultSide: string, ghost at: int)
    returns (completed: bool, toSave: File, ghost exts: seq<Output>)
    modifies x
    ensures Passed(completed, lockFree, old(x.Now()), x.Now(), layouts, loaded, defaultSide, toSave, exts)
    ensures Happened(RanFrom(completed, lockFree, at, old(x.Now()), x.Now()), old(x.Now()), x.Now())
  {
    var r;
    ghost var mid;
    r, toSave, exts, mid := ApplyOnce(x, lockFree, layouts, loaded, defaultSide);
    completed := r.Completed?;
    RanHappened(completed, lockFree, at, old(x.Now()), x.Now());
  }

  class Watcher {
    const screen: Screen
    const clock: Clock
    const window: int
    const threshold: nat
    const holdMs: int
    const suspectMs: int
    const layouts: Catalogue
    const defaultSide: string
    var times: seq<int>
    var backoff: int
    var unhealed: nat
    var present: set<string>          // empty: no trusted baseline
    var applyDoneAt: Option<int>
    var stored: File                  // the state file
    ghost var changes: seq<int>       // every moment a change was ever noticed
    ghost var filteredAt: int         // when `times` was last filtered
    ghost var log: seq<Event>
    ghost var refused: nat            // how often another process held the apply lock
    ghost var unsaved: nat            // how often a save failed
    ghost var ranAt: nat              // the apply the baseline was read after
    ghost var readAt: nat             // and the read it was

    /** The baseline a disconnect is measured against was read after an apply that completed. */
    ghost predicate Based()
      reads this, screen
    {
      && ranAt < |log| && log[ranAt].Ran? && log[ranAt].attempt.completed
      && log[ranAt].attempt.seen < readAt < |screen.answers| && present == PresentOf(screen.answers[readAt])
    }

    ghost function Trusted(): Trust
      reads this
    {
      Trust(holdMs, suspectMs, applyDoneAt, present)
    }

    ghost function Here(): Scene
      reads screen, clock
    {
      Scene(screen.Now(), clock.now, clock.stopping)
    }

    ghost predicate Valid()
      reads this, screen, clock
    {
      && 0 <= backoff <= 1000 && filteredAt <= clock.now
      && times == Recent(changes, filteredAt, window)
      && unhealed <= 3
      && (applyDoneAt.Some? ==> applyDoneAt.value <= clock.now && Based())
    }

    constructor (screen: Screen, clock: Clock, window: int, threshold: nat, holdMs: int, suspectMs: int,
                 layouts: Catalogue, defaultSide: string, stored: File)
      ensures Valid() && this.screen == screen && this.clock == clock && unhealed == 0 && log == [] && refused == 0 && unsaved == 0
    {
      this.screen, this.clock, this.window, this.threshold := screen, clock, window, threshold;
      this.holdMs, this.suspectMs, this.layouts, this.defaultSide := holdMs, suspectMs, layouts, defaultSide;
      times, backoff, unhealed, present, applyDoneAt := [], 0, 0, {}, None;
      this.stored := stored;
      changes, log, refused, unsaved := [], [], 0, 0;
      filteredAt, ranAt, readAt := clock.now, 0, 0;
    }

    /** One more change noticed: the moments within the window are kept. */
    method NoteChange()
      requires Valid()
      modifies this`times, this`changes, this`filteredAt, clock`now
      ensures Valid() && old(clock.now) <= filteredAt == clock.now
      ensures changes == old(changes) + [filteredAt] && times == Recent(changes, filteredAt, window)
    {
      var now := clock.Monotonic();
      WindowIsIncremental(changes, filteredAt, now, window);
      times := Recent(times + [now], now, window);
      changes, filteredAt := changes + [now], now;
    }

    /** `_debounce_ms_for_churn`. */
    method DebounceMs() returns (ms: nat)
      requires Valid()
      modifies this`times, this`backoff, this`changes, this`filteredAt, clock`now
      ensures Valid() && old(clock.now) <= filteredAt == clock.now
      ensures changes == old(changes) + [filteredAt] && times == Recent(changes, filteredAt, window)
      ensures backoff == if |times| > threshold
                         then (if old(backoff) + 150 > 1000 then 1000 else old(backoff) + 150)
                         else (if old(backoff) < 50 then 0 else old(backoff) - 50)
      ensures ms == 150 + backoff && ms <= 1150
    {
      NoteChange();
      if |times| > threshold {
        backoff := if backoff + 150 > 1000 then 1000 else backoff + 150;
      } else {
        backoff := if backoff - 50 < 0 then 0 else backoff - 50;
      }
      ms := 150 + backoff;
    }

    /** `topology_hash`: the digest of a fresh read, or an exception. */
    method Digest() returns (d: Option<string>)
      requires Valid()
      modifies screen`outs, screen`drifts, screen`answers, this`log
      ensures Valid() && Looked(old(screen.Now()), screen.Now())
      ensures |screen.answers| == |old(screen.answers)| + 1
      ensures d.None? ==> !Clear(old(screen.Now()), screen.Now()) && log == old(log)
      ensures d.Some? ==>
                && d.value == TopologyText(screen.outs) && screen.answers[|old(screen.answers)|] == Some(screen.outs)
                && log == old(log) + [Read(d.value, |old(screen.answers)|, clock.now)]
    {
      var seen := screen.Read();
      if seen.None? {
        Unclear(old(screen.Now()), screen.Now(), |old(screen.answers)|);
        return None;
      }
      var text := TopologyHash(seen.value);
      log := log + [Read(text, |old(screen.answers)|, clock.now)];
      d := Some(text);
    }

    method PresentConnectors() returns (names: set<string>)
      modifies screen`outs, screen`drifts, screen`answers
      ensures Looked(old(screen.Now()), screen.Now()) && |screen.answers| == |old(screen.answers)| + 1
      ensures names == PresentOf(screen.answers[|old(screen.answers)|])
    {
      var seen := screen.Read();
      names := if seen.Some? then set n | n in seen.value && seen.value[n].connected else {};
    }

    /** `unhealed_connectors`: an unreadable topology yields the empty list. */
    method UnhealedConnectors() returns (names: seq<string>, ghost read: Answer)
      modifies screen`outs, screen`drifts, screen`answers
      ensures Looked(old(screen.Now()), screen.Now()) && screen.answers == old(screen.answers) + [read]
      ensures read.Some? ==> read.value == screen.outs
      ensures forall n :: n in names <==> read.Some? && n in Connected(read.value) && n !in Lit(read.value)
      ensures names != [] <==> ShowsDark(read)
    {
      var seen := screen.Read();
      read := seen;
      names := if seen.Some? then UnhealedOutputs(seen.value) else [];
      assert names != [] ==> names[0] in names;
      if ShowsDark(read) {
        ghost var n :| n in Connected(read.value) && n !in Lit(read.value);
        assert n in names;
      }
    }

    /** The gates of `_bounce_settled`: recent apply, trusted baseline, and something vanished since. Only the last
        one reads, and it is asked only if the others let it. */
    method Suspicious() returns (yes: bool)
      requires Valid()
      modifies screen`outs, screen`drifts, screen`answers, clock`now
      ensures Valid() && Looked(old(screen.Now()), screen.Now()) && old(clock.now) <= clock.now
      ensures if Gates(Trusted(), clock.now)
              then |screen.answers| == |old(screen.answers)| + 1 else screen.Now() == old(screen.Now())
      ensures yes <==> Gates(Trusted(), clock.now)
                       && !(present <= PresentOf(screen.answers[|old(screen.answers)|]))
    {
      if holdMs <= 0 {
        return false;
      }
      if applyDoneAt.None? {
        return false;
      }
      var now := clock.Monotonic();
      if now - applyDoneAt.value > suspectMs {
        return false;
      }
      if present == {} {
        return false;
      }
      var here := PresentConnectors();
      yes := present - here != {};
      if !(present <= here) {
        ghost var x :| x in present && x !in here;
        assert x in present - here;
      }
    }

    /** One turn of the hold-down loop. */
    method HoldTurn(deadline: int, last: string) returns (g: Glance, ghost waited: nat, ghost t: seq<Event>)
      requires Valid()
      modifies screen`outs, screen`drifts, screen`answers, clock, this`log
      ensures Valid() && Looked(old(screen.Now()), screen.Now()) && old(clock.now) <= clock.now
      ensures waited == 0 || old(clock.now) + waited <= deadline
      ensures log == old(log) + t && OnlyReads(t) && AllHappened(t, old(screen.Now()), screen.Now())
      ensures g.Over? ==> (clock.stopping || deadline <= clock.now) && t == []
      ensures g.Back? ==> TopologyText(screen.outs) == last && EndsWith(t, last)
      ensures g.Different? ==> t != [] && forall i | 0 <= i < |t| :: t[i].digest != last
      ensures g.Different? ==> old(clock.now) + waited <= clock.now && old(clock.now) < clock.now && old(clock.now) < deadline
      ensures g.Unreadable? ==> t == [] && !Clear(old(screen.Now()), screen.Now())
      ensures g.Back? || g.Different? ==> |t| == 1
      ensures if clock.waits == old(clock.waits) then g.Over? && waited == 0
              else clock.waits == old(clock.waits) + [waited] && waited <= 150 && (g.Over? ==> clock.stopping)
    {
      waited, t := 0, [];
      var now := clock.Monotonic();
      if now >= deadline {
        return Over, 0, t;
      }
      var before := clock.Monotonic();
      var left := if deadline - before > 0 then deadline - before else 0;
      var wait := if left < 150 then left else 150;
      var stopped := clock.Wait(wait);
      if stopped {
        return Over, wait, t;
      }
      var d := Digest();
      waited := wait;
      if d.None? {
        g := Unreadable;
      } else {
        g := if d.value == last then Back else Different(d.value);
        t := [Read(d.value, |old(screen.answers)|, clock.now)];
      }
    }

    /** The hold-down loop: `Some(true)` when the absorbed digest came back within the hold. */
    method Hold(last: string) returns (back: Option<bool>, ghost waited: int, ghost t: seq<Event>)
      requires Valid() && holdMs > 0
      modifies screen`outs, screen`drifts, screen`answers, clock, this`log
      ensures Valid() && Looked(old(screen.Now()), screen.Now()) && old(clock.now) <= clock.now
      ensures 0 <= waited <= holdMs
      ensures log == old(log) + t && OnlyReads(t) && AllHappened(t, old(screen.Now()), screen.Now())
      ensures back == Some(true) ==> TopologyText(screen.outs) == last && EndsWith(t, last)
      ensures back != Some(true) ==> forall i | 0 <= i < |t| :: t[i].digest != last
      ensures back == Some(false) ==> clock.stopping || old(clock.now) + holdMs <= clock.now
      ensures back.None? ==> !Clear(old(screen.Now()), screen.Now())
      ensures Polled(old(clock.waits), clock.waits, t, back, clock.stopping) && waited == Total(clock.waits[|old(clock.waits)|..])
    {
      back, waited, t := Some(false), 0, [];
      ghost var a, w := screen.Now(), clock.waits;
      assert w[|w|..] == [];
      var start := clock.Monotonic();
      var deadline := start + holdMs;
      while true
        invariant Valid() && log == old(log) + t && old(clock.now) <= start <= clock.now
        invariant waited <= holdMs && waited <= clock.now - start && back == Some(false)
        invariant Holding(last, t, waited, w, clock.waits, a, screen.Now())
        decreases deadline - clock.now
      {
        ghost var before, seen, b, slept := log, t, screen.Now(), clock.waits;
        var g;
        ghost var wait, more;
        g, wait, more := HoldTurn(deadline, last);
        Joined(old(log), before, log, seen, more);
        if g.Different? { HoldsOn(last, seen, more, waited, wait, w, slept, clock.waits, a, b, screen.Now()); }
        if !g.Different? { HoldEnds(g, last, seen, more, waited, wait, w, slept, clock.waits, clock.stopping, a, b, screen.Now()); }
        waited, t := waited + wait, t + more;
        if !g.Different? {
          back := if g.Over? then Some(false) else if g.Back? then Some(true) else None;
          break;
        }
      }
    }

    /** `_bounce_settled`; `None` when a read raised. Holding down takes all gates, read at one moment; without them the
        apply is not delayed at all, with them it goes ahead only when the hold is over. */
    method BounceSettled(last: string) returns (bounced: Option<bool>, ghost waited: int, ghost t: seq<Event>)
      requires Valid() && screen.answers != []
      modifies screen`outs, screen`drifts, screen`answers, clock, this`log
      ensures Valid() && log == old(log) + t && Waited(Trusted(), last, bounced, t, old(Here()), Here())
      ensures 0 <= waited && (waited > 0 ==> waited <= holdMs && Bounced(Trusted(), old(Here()), Here()))
      ensures !Gates(Trusted(), old(clock.now)) ==> bounced == Some(false) && waited == 0 && screen.answers == old(screen.answers)
      ensures Polled(old(clock.waits), clock.waits, t, bounced, clock.stopping) && waited == Total(clock.waits[|old(clock.waits)|..])
    {
      ghost var a := Here();
      var yes := Suspicious();
      ghost var b := Here();
      if !yes {
        assert clock.waits[|old(clock.waits)|..] == [];
        return Some(false), 0, [];
      }
      bounced, waited, t := Hold(last);
      HeldDown(Trusted(), last, bounced, t, a, b, Here());
    }

    // ---- one wakeup ------------------------------------------------------------------------------

    /** `save_state`: a failed write is logged, and the file is as it was. */
    method Save(st: State)
      requires GoodState(st)
      modifies this`stored, this`unsaved
      ensures (stored == Some(st) && unsaved == old(unsaved)) || (stored == old(stored) && unsaved == old(unsaved) + 1)
    {
      var writes: bool := *;
      if writes {
        stored := Some(st);
      } else {
        unsaved := unsaved + 1;
      }
    }

    /** An apply with the stored state it finds; another process may hold the apply lock, and a save may fail. */
    method Apply() returns (ghost ran: Event, completed: bool, ghost exts: seq<Output>)
      modifies screen, this`stored, this`log, this`refused, this`unsaved
      ensures Applied(ran, old(screen.Now()), screen.Now(), old(stored), stored, unsaved == old(unsaved), layouts, defaultSide, exts)
      ensures ran.attempt.completed == completed && ran.attempt.at == clock.now && log == old(log) + [ran]
      ensures refused == old(refused) + if ran.attempt.lockFree then 0 else 1
    {
      ghost var a, at, before, failed := screen.Now(), clock.now, stored, unsaved;
      var lockFree: bool := *;
      if !lockFree { refused := refused + 1; }
      var toSave;
      completed, toSave, exts := Pass(screen, lockFree, layouts, stored, defaultSide, at);
      if toSave.Some? { Save(toSave.value); }
      PassApplies(completed, lockFree, at, a, screen.Now(), layouts, before, stored, unsaved == failed, defaultSide, toSave, exts);
      ran := RanFrom(completed, lockFree, at, a, screen.Now());
      log := log + [ran];
    }

    /** The bounce baseline, recorded after every completed apply unless the hold-down is off. */
    method RecordBaseline(ghost ran: nat)
      requires Valid() && ran < |log| && log[ran].Ran? && log[ran].attempt.completed && log[ran].attempt.seen < |screen.answers|
      modifies screen`outs, screen`drifts, screen`answers, clock`now, this`applyDoneAt, this`present, this`ranAt, this`readAt
      ensures Valid() && Looked(old(screen.Now()), screen.Now())
      ensures holdMs > 0 ==> applyDoneAt.Some? && old(clock.now) <= applyDoneAt.value <= clock.now
                             && ranAt == ran && readAt == |old(screen.answers)| && |screen.answers| == readAt + 1
      ensures holdMs <= 0 ==> applyDoneAt == old(applyDoneAt) && present == old(present) && screen.Now() == old(screen.Now())
    {
      if holdMs > 0 {
        var now := clock.Monotonic();
        applyDoneAt := Some(now);
        ranAt, readAt := ran, |screen.answers|;
        present := PresentConnectors();
      }
    }

    /** Whether to accept the state after a completed apply that left these heads dark. */
    method Account(dark: seq<string>) returns (retry: bool)
      requires Valid()
      modifies this`unhealed
      ensures Valid()
      ensures retry <==> dark != [] && old(unhealed) < 3
      ensures unhealed == if retry then old(unhealed) + 1 else 0
    {
      if dark != [] {
        var attempts := unhealed + 1;
        if attempts <= UNHEALED_APPLY_LIMIT {
          unhealed := attempts;
          return true;
        }
      }
      unhealed := 0;
      return false;
    }

    /** What follows the settled read: the bounce baseline, the look for dark heads, the hook, and the decision. */
    method Conclude(last: string, settled: string, ghost ran: nat) returns (next: string, s: Step)
      requires Valid() && ran < |log| && log[ran].Ran? && log[ran].attempt.completed && log[ran].attempt.seen < |screen.answers|
      modifies screen`outs, screen`drifts, screen`answers, clock`now, this`applyDoneAt, this`present, this`ranAt, this`readAt,
               this`unhealed, this`log
      ensures Valid() && Looked(old(screen.Now()), screen.Now()) && log == old(log) + [Hooked]
      ensures Completes(s) && Counts(s, old(unhealed), unhealed) && DarkDecides(s, old(screen.Now()), screen.Now())
      ensures ShowsDark(screen.answers[|screen.answers| - 1]) ==> (s.Retry? <==> old(unhealed) < 3)
      ensures if s.Retry? then next == last else next == s.digest == settled
    {
      RecordBaseline(ran);
      var dark;
      ghost var read;
      dark, read := UnhealedConnectors();
      assert screen.answers[|screen.answers| - 1] == read;
      log := log + [Hooked];
      var retry := Account(dark);
      if retry {
        next, s := last, Retry(unhealed);
      } else {
        next, s := settled, Absorb(settled, dark != []);
      }
    }

    /** After a completed apply, the last event of the log: settle, look for dark heads, run the hook, then absorb or retry.
        Whatever the heads do meanwhile, the last read decides. */
    method AfterApply(last: string) returns (next: string, s: Step, ghost settled: Event)
      requires Valid() && log != [] && log[|log| - 1].Ran? && log[|log| - 1].attempt.completed
      requires log[|log| - 1].attempt.seen < |screen.answers|
      modifies screen`outs, screen`drifts, screen`answers, clock`now, this`applyDoneAt, this`present, this`ranAt, this`readAt,
               this`unhealed, this`log
      ensures Valid() && Settles(s, last, next, settled, old(screen.Now()), screen.Now()) && Counts(s, old(unhealed), unhealed)
      ensures log == if s.Raised? then old(log) else old(log) + [settled, Hooked]
      ensures Completes(s) && ShowsDark(screen.answers[|screen.answers| - 1]) ==> (s.Retry? <==> old(unhealed) < 3)
    {
      ghost var a, ran := screen.Now(), |log| - 1;
      var d := Digest();
      if d.None? {
        return last, Raised, Hooked;
      }
      settled := Read(d.value, |a.answers|, clock.now);
      ghost var b := screen.Now();
      next, s := Conclude(last, d.value, ran);
      SettledBy(s, last, next, settled, a, b, screen.Now());
    }

    /** After the debounce: the digest again, then the hold-down. */
    method Reconfirm(last: string) returns (v: Verdict, ghost t: seq<Event>)
      requires Valid()
      modifies screen`outs, screen`drifts, screen`answers, clock, this`log
      ensures Valid() && log == old(log) + t && Looks(Trusted(), v, last, t, old(Here()), Here())
      ensures v.Changed? ==>
                && t != [] && t[0].digest != last && t[0].answer == |old(screen.answers)| && t[0].at == old(clock.now)
                && NotHeld(Trusted(), t[0].at, t[0].answer, Here())
    {
      ghost var a := Here();
      var verify := Digest();
      if verify.None? {
        return Failed, [];
      }
      ghost var first := Read(verify.value, |a.x.answers|, clock.now);
      t := [first];
      if verify.value == last {
        return Same, t;
      }
      ghost var before, b := log, Here();
      var bounced;
      ghost var waited, held;
      bounced, waited, held := BounceSettled(last);
      v := if bounced.None? then Failed else if bounced.value then Returned else Changed;
      Reconfirmed(Trusted(), last, bounced, first, held, a, b, Here());
      t := [first] + held;
      Joined(old(log), before, log, [first], held);
    }

    /** The first digest; `None` when it could not be had, and a debounce if it differs. */
    method FirstLook(last: string) returns (differs: Option<bool>, ghost t: seq<Event>)
      requires Valid()
      modifies screen`outs, screen`drifts, screen`answers, clock, this`times, this`backoff, this`changes, this`filteredAt, this`log
      ensures Valid() && log == old(log) + t && Elapsed(old(Here()), Here())
      ensures differs != Some(true) ==> Looks(Trusted(), if differs.None? then Failed else Same, last, t, old(Here()), Here())
      ensures differs == Some(true) ==> |t| == 1 && ReadOff(t[0], last, old(Here()), Here()) && t[0].at + 150 + backoff <= clock.now && 0 <= backoff
    {
      ghost var a := Here();
      var cur := Digest();
      if cur.None? {
        return None, [];
      }
      t := [Read(cur.value, |a.x.answers|, a.now)];
      differs := Some(cur.value != last);
      if cur.value != last {
        var ms := DebounceMs();
        clock.Sleep(ms);
      }
    }

    /** The waits before an apply. `Same`: nothing to do. `Changed`: the digest is confirmed to differ. */
    method Confirm(last: string) returns (v: Verdict, ghost t: seq<Event>)
      requires Valid()
      modifies screen`outs, screen`drifts, screen`answers, clock, this`times, this`backoff, this`changes, this`filteredAt, this`log
      ensures Valid() && log == old(log) + t && Looks(Trusted(), v, last, t, old(Here()), Here())
      ensures v.Changed? ==>
                && Confirmed(t, last) && t[0].at + 150 + backoff <= t[1].at && NotHeld(Trusted(), t[1].at, t[1].answer, Here())
      ensures old(screen.drifts) == screen.drifts && TopologyText(old(screen.outs)) == last ==> v.Same? || v.Failed?
    {
      ghost var a := Here();
      var differs;
      ghost var first;
      differs, first := FirstLook(last);
      if differs != Some(true) {
        return if differs.None? then Failed else Same, first;
      }
      ghost var before, b := log, Here();
      ghost var again;
      v, again := Reconfirm(last);
      LooksBefore(Trusted(), v, last, first[0], again, a, b, Here());
      t := first + again;
      assert first == [first[0]];
      Joined(old(log), before, log, first, again);
    }

    /** What follows an apply that completed between `a` and `b`. */
    method SettleChange(last: string, ghost ran: Event, ghost a: Moment) returns (next: string, s: Step, ghost t: seq<Event>)
      requires Valid() && log != [] && log[|log| - 1] == ran && Tried(ran, a, screen.Now()) && ran.attempt.completed
      modifies screen`outs, screen`drifts, screen`answers, clock`now, this`applyDoneAt, this`present, this`ranAt, this`readAt,
               this`unhealed, this`log
      ensures Valid() && t != [] && t[0] == ran && log == old(log) + t[1..] && !s.Bail?
      ensures Changes(s, last, next, t, a, screen.Now()) && Counts(s, old(unhealed), unhealed)
    {
      ghost var b, settled := screen.Now(), ran;
      next, s, settled := AfterApply(last);
      SettledChange(s, last, next, ran, settled, a, b, screen.Now());
      t := ChangeEvents(s, ran, settled);
      assert t[1..] == if s.Raised? then [] else [settled, Hooked];
    }

    /** An apply, with what the loop goes by. */
    method Try() returns (completed: bool, ghost ran: Event)
      requires Valid()
      modifies screen, this`log, this`stored, this`refused, this`unsaved
      ensures Valid() && log == old(log) + [ran] && Tried(ran, old(screen.Now()), screen.Now())
      ensures ran.attempt.completed == completed && ran.attempt.at == clock.now
      ensures refused == old(refused) + if ran.attempt.lockFree then 0 else 1
    {
      ghost var a, exts := screen.Now(), [];
      ran, completed, exts := Apply();
      AppliedIsLater(ran, a, screen.Now(), old(stored), stored, unsaved == old(unsaved), layouts, defaultSide, exts);
    }

    /** The apply of a confirmed change, and what follows it. */
    method ApplyChange(last: string) returns (next: string, s: Step, ghost t: seq<Event>)
      requires Valid()
      modifies screen, clock`now, this`applyDoneAt, this`present, this`ranAt, this`readAt, this`unhealed, this`log, this`stored,
               this`refused, this`unsaved
      ensures t != [] && t[0].Ran? && t[0].attempt.at == old(clock.now)
      ensures Valid() && log == old(log) + t && old(refused) <= refused
      ensures Changes(s, last, next, t, old(screen.Now()), screen.Now()) && Counts(s, old(unhealed), unhealed)
      ensures s.Bail? ==> old(refused) < refused || !Clear(old(screen.Now()), screen.Now())
    {
      ghost var a, before := screen.Now(), log;
      var completed;
      ghost var ran;
      completed, ran := Try();
      if completed {
        next, s, t := SettleChange(last, ran, a);
        FirstThenRest(before, ran, t, log);
      } else {
        next, s, t := last, Bail, [ran];
        GaveUpEarly(last, ran, a, screen.Now());
      }
    }

    /** A confirmed change is acted on, in a wakeup that began at `a` and made these reads. */
    method ActOn(last: string, ghost looked: seq<Event>, ghost a: Scene, ghost tr: Trust) returns (next: string, s: Step, ghost t: seq<Event>)
      requires Valid() && Looks(tr, Changed, last, looked, a, Here()) && Confirmed(looked, last)
      requires NotHeld(tr, looked[1].at, looked[1].answer, Here()) && (a.x.drifts == screen.drifts ==> TopologyText(a.x.outs) != last)
      modifies screen, clock`now, this`applyDoneAt, this`present, this`ranAt, this`readAt, this`unhealed, this`log, this`stored,
               this`refused, this`unsaved
      ensures Valid() && looked <= t && log == old(log) + t[|looked|..] && old(refused) <= refused
      ensures Woke(tr, s, last, next, t, a, Here()) && Counts(s, old(unhealed), unhealed)
      ensures s.Bail? ==> old(refused) < refused || !Clear(a.x, screen.Now())
    {
      ghost var b, done := Here(), looked;
      next, s, done := ApplyChange(last);
      t := looked + done;
      ChangeWoke(tr, s, last, next, looked, done, a, b, Here());
      if s.Bail? && !Clear(b.x, screen.Now()) { UnclearWithin(a.x, b.x, screen.Now(), screen.Now()); }
    }

    /** MAIN RESULT: `_apply_if_changed`, what one wakeup does; `t` is what it did, in order. Nothing is done
        unless a digest other than the absorbed one was confirmed; a new digest is absorbed only if it was
        read after an apply that completed; the hook runs after such an apply, once, and never otherwise;
        a wakeup is suppressed only if an apply was recent and a read since missed a connector of its baseline, and
        an apply goes ahead then only after the whole hold; two reads that differ are a debounce apart;
        a dark head is retried while the budget lasts; and if nothing interfered during the wakeup it absorbs a
        healed topology or gives up. */
    method ApplyIfChanged(last: string) returns (next: string, s: Step, ghost t: seq<Event>)
      requires Valid()
      modifies screen, clock, this
      ensures Valid() && log == old(log) + t && old(refused) <= refused
      ensures Woke(old(Trusted()), s, last, next, t, old(Here()), Here()) && Counts(s, old(unhealed), unhealed)
      ensures s.Bail? ==> old(refused) < refused || !Clear(old(screen.Now()), screen.Now())
    {
      ghost var a, tr, before, looked := Here(), Trusted(), log, [];
      var v;
      v, looked := Confirm(last);
      if v.Changed? {
        next, s, t := ActOn(last, looked, a, tr);
        assert t == looked + t[|looked|..];
        Joined(before, before + looked, log, looked, t[|looked|..]);
      } else {
        next, t := last, looked;
        s := if v.Same? then Unchanged else if v.Returned? then Suppressed else Raised;
        QuietWoke(tr, v, s, last, t, a, Here());
      }
    }

    // ---- many wakeups -----------------------------------------------------------------------------

    /** MAIN RESULT. Two wakeups in a row during which nothing interferes, every read answers and no other process holds the
        lock: whatever was absorbed before, after the first the held digest is that of the heads as they are, after
        any apply they are healed, and the second does nothing at all. */
    method HealThenRest(last: string) returns (next: string, first: Step, second: Step, ghost mid: Moment)
      requires Valid()
      modifies screen, clock, this
      ensures Valid() && Later(old(screen.Now()), mid) && Later(mid, screen.Now())
      ensures Calm(old(screen.Now()), screen.Now()) && Clear(old(screen.Now()), screen.Now()) && refused == old(refused) ==>
                && (first.Unchanged? || first.Absorb?) && second.Unchanged?
                && next == TopologyText(screen.outs) && screen.issued == mid.issued
                && (first.Absorb? ==> Healthy(screen.outs) && Connected(screen.outs) == Connected(old(screen.outs)))
    {
      ghost var a, t := screen.Now(), [];
      next, first, t := ApplyIfChanged(last);
      mid := screen.Now();
      next, second, t := ApplyIfChanged(next);
      if !Clear(a, mid) { UnclearWithin(a, a, mid, screen.Now()); }
      if !Clear(mid, screen.Now()) { UnclearWithin(a, mid, screen.Now(), screen.Now()); }
    }
  }
}
