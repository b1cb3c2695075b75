/** The loop of `watch.py` over any number of wakeups: the digest it holds, its retry budget, and what its applies did. */
module WatchRuns {
  import opened Wrappers
  import opened Outputs
  import opened Apply
  import opened Watch

  // ---- runs -----------------------------------------------------------------------------------------------

  /** One wakeup: what it came to, what it did, and the screen before and after. */
  datatype Wakeup = Wakeup(s: Step, t: seq<Event>, a: Moment, b: Moment)

  /** Completed applies since the last absorption that left the digest unabsorbed. */
  function Spent(h: seq<Wakeup>): nat {
    if h == [] then 0
    else
      var before := Spent(h[..|h| - 1]);
      match h[|h| - 1].s
      case Retry(_) => before + 1
      case Absorb(_, _) => 0
      case _ => before
  }

  /** The digest the loop holds after these wakeups. */
  function Held(initial: string, h: seq<Wakeup>): string {
    if h == [] then initial
    else if h[|h| - 1].s.Absorb? then h[|h| - 1].s.digest
    else Held(initial, h[..|h| - 1])
  }

  /** Between wakeups the heads change as they like, and the program neither reads nor sends. */
  predicate Idled(a: Moment, b: Moment) {
    Looked(a, b) && b.answers == a.answers
  }

  /** Wakeup `i` did what a wakeup does, with the digest and the budget the ones before it left, on what has become of the
      screen they left. */
  ghost predicate WakeupAt(initial: string, h: seq<Wakeup>, i: nat)
    requires i < |h|
  {
    && Wakes(h[i].s, Held(initial, h[..i]), Held(initial, h[..i + 1]), h[i].t, h[i].a, h[i].b)
    && Counts(h[i].s, Spent(h[..i]), Spent(h[..i + 1]))
    && (i > 0 ==> Idled(h[i - 1].b, h[i].a))
  }

  ghost predicate IsRun(initial: string, h: seq<Wakeup>) {
    forall i: nat {:trigger WakeupAt(initial, h, i)} | i < |h| :: WakeupAt(initial, h, i)
  }

  lemma At(initial: string, h: seq<Wakeup>, i: nat)
    requires IsRun(initial, h) && i < |h|
    ensures WakeupAt(initial, h, i)
  {
    assert WakeupAt(initial, h, i);
  }

  // ---- the retry budget --------------------------------------------------------------------------------------

  function Retries(h: seq<Wakeup>): nat {
    if h == [] then 0 else Retries(h[..|h| - 1]) + (if h[|h| - 1].s.Retry? then 1 else 0)
  }

  lemma {:induction false} StretchSpends(h: seq<Wakeup>, i: nat, j: nat)
    requires i <= j <= |h| && forall k | i <= k < j :: !h[k].s.Absorb?
    ensures Spent(h[..j]) == Spent(h[..i]) + Retries(h[i..j])
  {
    if i < j {
      StretchSpends(h, i, j - 1);
      assert h[..j][..j - 1] == h[..j - 1] && h[i..j][..j - 1 - i] == h[i..j - 1];
    } else {
      assert h[i..j] == [];
    }
  }

  lemma {:induction false} NeverOverspent(initial: string, h: seq<Wakeup>, n: nat)
    requires IsRun(initial, h) && n <= |h|
    ensures Spent(h[..n]) <= 3
  {
    if n > 0 {
      NeverOverspent(initial, h, n - 1);
      BudgetAt(initial, h, n - 1);
    }
  }

  lemma BudgetAt(initial: string, h: seq<Wakeup>, i: nat)
    requires IsRun(initial, h) && i < |h|
    ensures Counts(h[i].s, Spent(h[..i]), Spent(h[..i + 1]))
  {
    At(initial, h, i);
  }

  /** MAIN RESULT. Between two absorptions at most three completed applies leave the digest
      unabsorbed, however many wakeups bail, raise or do nothing in between. */
  lemma BoundedRetries(initial: string, h: seq<Wakeup>, i: nat, j: nat)
    requires IsRun(initial, h) && i <= j <= |h| && forall k | i <= k < j :: !h[k].s.Absorb?
    ensures Retries(h[i..j]) <= 3
  {
    StretchSpends(h, i, j);
    NeverOverspent(initial, h, j);
  }

  /** MAIN RESULT. Whatever the heads do: if a wakeup absorbed a digest while a connected head was dark, the whole budget had
      been spent on it, or the look for dark heads could not be had. */
  lemma DarkIsNotAbsorbed(initial: string, h: seq<Wakeup>, i: nat)
    requires IsRun(initial, h) && i < |h| && h[i].s.Absorb? && Connected(h[i].b.outs) - Lit(h[i].b.outs) != {}
    ensures h[i].b.answers != []
    ensures h[i].b.answers[|h[i].b.answers| - 1].None? || (h[i].s.gaveUp && Spent(h[..i]) == 3)
  {
    DecidedAt(initial, h, i);
    BudgetAt(initial, h, i);
  }

  lemma DecidedAt(initial: string, h: seq<Wakeup>, i: nat)
    requires IsRun(initial, h) && i < |h|
    ensures DarkDecides(h[i].s, h[i].a, h[i].b)
  {
    At(initial, h, i);
  }

  // ---- what the applies did --------------------------------------------------------------------------------------

  /** If a wakeup sent anything, it was one apply that completed, and it sent all of it. */
  lemma SentByOneApply(w: Wakeup, last: string, next: string) returns (k: nat)
    requires Wakes(w.s, last, next, w.t, w.a, w.b) && |w.a.issued| < |w.b.issued|
    ensures k < |w.t| && w.t[k].Ran? && w.t[k].attempt.completed
    ensures w.t[k].attempt.from == |w.a.issued| && w.t[k].attempt.to == |w.b.issued|
    ensures Acted(w.t[k].attempt, w.b.answers, w.b.issued)
  {
    k := if Completes(w.s) then |w.t| - 3 else |w.t| - 1;
    assert Happened(w.t[k], w.a, w.b);
  }

  /** MAIN RESULT. Every command of a run was sent by an apply of some wakeup that completed, which switched off exactly the
      heads that were stale on its own second read and lit exactly those connected on it. */
  lemma {:induction false} EveryCommandIsAnApplys(initial: string, h: seq<Wakeup>, n: nat, j: nat) returns (i: nat, k: nat)
    requires IsRun(initial, h) && n < |h| && |h[0].a.issued| <= j < |h[n].b.issued|
    ensures i <= n && k < |h[i].t| && h[i].t[k].Ran? && h[i].t[k].attempt.completed
    ensures h[i].t[k].attempt.from <= j < h[i].t[k].attempt.to && Acted(h[i].t[k].attempt, h[i].b.answers, h[i].b.issued)
    ensures h[i].b.issued <= h[n].b.issued
  {
    At(initial, h, n);
    if |h[n].a.issued| <= j {
      i := n;
      k := SentByOneApply(h[n], Held(initial, h[..n]), Held(initial, h[..n + 1]));
    } else {
      i, k := EveryCommandIsAnApplys(initial, h, n - 1, j);
    }
  }

  /** MAIN RESULT. Whatever changed before it and whatever happens in the rest of the run: a wakeup during which nothing
      interferes, and which no failed read or bail cuts short, ends holding the digest of the heads as they are. It absorbs
      if and only if that was not held already, and then exactly the connected heads are lit. */
  lemma CalmWakeupHeals(initial: string, h: seq<Wakeup>, i: nat)
    requires IsRun(initial, h) && i < |h| && Calm(h[i].a, h[i].b)
    requires !h[i].s.Skipped? && !h[i].s.Raised? && !h[i].s.Bail?
    ensures Held(initial, h[..i + 1]) == TopologyText(h[i].b.outs)
    ensures h[i].s.Absorb? <==> Held(initial, h[..i]) != TopologyText(h[i].a.outs)
    ensures h[i].s.Absorb? ==> Healthy(h[i].b.outs) && Connected(h[i].b.outs) == Connected(h[i].a.outs)
  {
    At(initial, h, i);
  }

  // ---- the held digest ---------------------------------------------------------------------------------------------

  /** The digest was read by this wakeup after its apply completed, and right before the hook. */
  ghost predicate TakenAfterApply(w: Wakeup, digest: string) {
    w.s.Absorb? && w.s.digest == digest && EndsSettled(w.t, digest) && AllHappened(w.t, w.a, w.b)
  }

  lemma AbsorbedIsTaken(initial: string, h: seq<Wakeup>, i: nat)
    requires IsRun(initial, h) && i < |h| && h[i].s.Absorb?
    ensures TakenAfterApply(h[i], Held(initial, h[..i + 1]))
  {
    At(initial, h, i);
  }

  /** MAIN RESULT. Over any run: when the held digest is another than before, some wakeup in between read it after an
      apply of its own that completed. Until then every wakeup still compares against the old one. */
  lemma {:induction false} NothingIsLost(initial: string, h: seq<Wakeup>, i: nat, j: nat)
    requires IsRun(initial, h) && i <= j <= |h| && Held(initial, h[..i]) != Held(initial, h[..j])
    ensures exists k | i <= k < j :: TakenAfterApply(h[k], Held(initial, h[..j]))
    decreases j
  {
    var k: nat := j - 1;
    HeldAfter(initial, h, k);
    if !h[k].s.Absorb? {
      NothingIsLost(initial, h, i, k);
    } else {
      AbsorbedIsTaken(initial, h, k);
    }
  }

  lemma HeldAfter(initial: string, h: seq<Wakeup>, k: nat)
    requires k < |h|
    ensures Held(initial, h[..k + 1]) == if h[k].s.Absorb? then h[k].s.digest else Held(initial, h[..k])
  {
    assert h[..k + 1][..k] == h[..k];
  }

  // ---- the hook -----------------------------------------------------------------------------------------------------

  /** The events of the wakeups, one after another. */
  function Flat(h: seq<Wakeup>): seq<Event> {
    if h == [] then [] else Flat(h[..|h| - 1]) + h[|h| - 1].t
  }

  /** Every hook comes right after the read that follows a completed apply. */
  predicate HooksFollowApplies(t: seq<Event>) {
    forall p | 0 <= p < |t| && t[p].Hooked? :: p >= 2 && t[p - 1].Read? && t[p - 2].Ran? && t[p - 2].attempt.completed
  }

  lemma HookInTrace(s: Step, last: string, next: string, t: seq<Event>)
    requires Traces(s, last, next, t)
    ensures HooksFollowApplies(t)
  {
    if Completes(s) {
      PrefixReads(t, |t| - 3);
    } else if !OnlyReads(t) {
      PrefixReads(t, |t| - 1);
    }
  }

  lemma PrefixReads(t: seq<Event>, n: nat)
    requires n <= |t| && OnlyReads(t[..n])
    ensures forall i | 0 <= i < n :: t[i].Read?
  {
    assert forall i | 0 <= i < n :: t[i] == t[..n][i];
  }

  lemma HooksJoin(a: seq<Event>, b: seq<Event>)
    requires HooksFollowApplies(a) && HooksFollowApplies(b)
    ensures HooksFollowApplies(a + b)
  {
    var t := a + b;
    forall p | 0 <= p < |t| && t[p].Hooked? ensures p >= 2 && t[p - 1].Read? && t[p - 2].Ran? && t[p - 2].attempt.completed {
      if p >= |a| { assert b[p - |a|].Hooked?; }
    }
  }

  /** MAIN RESULT. In everything a run did, the hook never ran but right after the read that follows a completed apply. */
  lemma {:induction false} HooksOnlyAfterApplies(initial: string, h: seq<Wakeup>, n: nat)
    requires IsRun(initial, h) && n <= |h|
    ensures HooksFollowApplies(Flat(h[..n]))
  {
    if n > 0 {
      HooksOnlyAfterApplies(initial, h, n - 1);
      At(initial, h, n - 1);
      HookInTrace(h[n - 1].s, Held(initial, h[..n - 1]), Held(initial, h[..n]), h[n - 1].t);
      assert h[..n][..n - 1] == h[..n - 1];
      HooksJoin(Flat(h[..n - 1]), h[n - 1].t);
    }
  }

  // ---- the loop ------------------------------------------------------------------------------------------------------

  /** What one wakeup does to the books of a run. */
  lemma BooksMove(initial: string, h: seq<Wakeup>, w: Wakeup, next: string, spent: nat)
    requires Counts(w.s, Spent(h), spent) && next == if w.s.Absorb? then w.s.digest else Held(initial, h)
    ensures Held(initial, h + [w]) == next && Spent(h + [w]) == spent && Flat(h + [w]) == Flat(h) + w.t
  {
    assert (h + [w])[..|h|] == h;
  }

  lemma StaysAt(initial: string, h: seq<Wakeup>, w: Wakeup, i: nat)
    requires IsRun(initial, h) && i < |h|
    ensures WakeupAt(initial, h + [w], i)
  {
    At(initial, h, i);
    assert (h + [w])[..i] == h[..i] && (h + [w])[..i + 1] == h[..i + 1];
  }

  lemma NewAt(initial: string, h: seq<Wakeup>, w: Wakeup, next: string, spent: nat)
    requires h != [] ==> Idled(h[|h| - 1].b, w.a)
    requires Wakes(w.s, Held(initial, h), next, w.t, w.a, w.b) && Counts(w.s, Spent(h), spent)
    requires Held(initial, h + [w]) == next && Spent(h + [w]) == spent
    ensures WakeupAt(initial, h + [w], |h|)
  {
    assert (h + [w])[..|h|] == h && (h + [w])[..|h| + 1] == h + [w];
  }

  lemma RunGrows(initial: string, h: seq<Wakeup>, w: Wakeup)
    requires IsRun(initial, h) && WakeupAt(initial, h + [w], |h|)
    ensures IsRun(initial, h + [w])
  {
    forall i: nat | i < |h| ensures WakeupAt(initial, h + [w], i) {
      StaysAt(initial, h, w, i);
    }
  }

  /** What `select` and the event queue gave: a signal, whether the X connection could be read, and how many RandR events
      were pending. */
  datatype Woken = Woken(signal: bool, xReady: bool, events: nat)

  /** A RandR event, or a slow poll that timed out. Events are only asked for with RandR 1.5 or later. */
  predicate Due(eventsOk: bool, u: Woken) {
    !u.signal && (if u.xReady then eventsOk && u.events > 0 else true)
  }

  /** One wakeup for each time `select` returned, unless the last one raised, and those with something to look at are not
      skipped. */
  predicate Follows(eventsOk: bool, woken: seq<Woken>, h: seq<Wakeup>) {
    && |h| <= |woken| && (forall i | 0 <= i < |h| :: h[i].s.Skipped? <==> !Due(eventsOk, woken[i]))
    && (|h| < |woken| ==> h != [] && h[|h| - 1].s.Raised?) && forall i | 0 <= i < |h| - 1 :: !h[i].s.Raised?
  }

  /** Without RandR 1.5 only the slow poll leads to a look at the topology. */
  lemma SlowPollOnly(woken: seq<Woken>, h: seq<Wakeup>, i: nat)
    requires Follows(false, woken, h) && i < |h|
    ensures h[i].s.Skipped? <==> woken[i].signal || woken[i].xReady
  {
  }

  /** One turn of the loop, some time after the last: a signal is drained, and so is a connection with nothing to read on it. */
  method Turn(w: Watcher, last: string, eventsOk: bool, woken: Woken) returns (next: string, ghost u: Wakeup, raised: bool)
    requires w.Valid()
    modifies w.screen, w.clock, w
    ensures w.Valid() && w.log == old(w.log) + u.t && Idled(old(w.screen.Now()), u.a) && u.b == w.screen.Now()
    ensures Wakes(u.s, last, next, u.t, u.a, u.b) && Counts(u.s, old(w.unhealed), w.unhealed)
    ensures next == (if u.s.Absorb? then u.s.digest else last) && (raised <==> u.s.Raised?)
    ensures u.s.Skipped? <==> !Due(eventsOk, woken)
  {
    w.screen.Drift();
    ghost var a := w.screen.Now();
    if woken.signal {
      return last, Wakeup(Skipped, [], a, a), false;
    }
    var gotEvent := eventsOk && woken.events > 0;
    if !(gotEvent || !woken.xReady) {
      return last, Wakeup(Skipped, [], a, a), false;
    }
    var s;
    ghost var t;
    next, s, t := w.ApplyIfChanged(last);
    return next, Wakeup(s, t, a, w.screen.Now()), s.Raised?;
  }

  /** The books of a loop that began with the screen at `first` and has gone through `n` of these wakeups. */
  ghost predicate Going(initial: string, h: seq<Wakeup>, eventsOk: bool, woken: seq<Woken>, n: nat, last: string, spent: nat,
                        first: Moment, now: Moment)
  {
    && |h| == n <= |woken| && (forall i | 0 <= i < n :: h[i].s.Skipped? <==> !Due(eventsOk, woken[i]))
    && IsRun(initial, h) && spent == Spent(h) && last == Held(initial, h)
    && (if h == [] then now == first else Idled(first, h[0].a) && h[|h| - 1].b == now)
    && forall i | 0 <= i < |h| - 1 :: !h[i].s.Raised?
  }

  lemma GoesOn(initial: string, h: seq<Wakeup>, eventsOk: bool, woken: seq<Woken>, last: string, spent: nat, first: Moment, now: Moment,
               u: Wakeup, next: string, spent': nat)
    requires |h| < |woken| && Going(initial, h, eventsOk, woken, |h|, last, spent, first, now) && (h != [] ==> !h[|h| - 1].s.Raised?)
    requires Idled(now, u.a) && (u.s.Skipped? <==> !Due(eventsOk, woken[|h|]))
    requires Wakes(u.s, last, next, u.t, u.a, u.b) && Counts(u.s, spent, spent') && next == if u.s.Absorb? then u.s.digest else last
    ensures Going(initial, h + [u], eventsOk, woken, |h| + 1, next, spent', first, u.b) && Flat(h + [u]) == Flat(h) + u.t
  {
    RunGoesOn(initial, h, u, next, spent');
    OneMore(h, u, eventsOk, woken, first, now);
  }

  lemma RunGoesOn(initial: string, h: seq<Wakeup>, u: Wakeup, next: string, spent: nat)
    requires IsRun(initial, h) && (h != [] ==> Idled(h[|h| - 1].b, u.a))
    requires Wakes(u.s, Held(initial, h), next, u.t, u.a, u.b) && Counts(u.s, Spent(h), spent)
    requires next == if u.s.Absorb? then u.s.digest else Held(initial, h)
    ensures IsRun(initial, h + [u]) && Held(initial, h + [u]) == next && Spent(h + [u]) == spent && Flat(h + [u]) == Flat(h) + u.t
  {
    BooksMove(initial, h, u, next, spent);
    NewAt(initial, h, u, next, spent);
    RunGrows(initial, h, u);
  }

  lemma OneMore(h: seq<Wakeup>, u: Wakeup, eventsOk: bool, woken: seq<Woken>, first: Moment, now: Moment)
    requires |h| < |woken| && forall i | 0 <= i < |h| :: (h[i].s.Skipped? <==> !Due(eventsOk, woken[i])) && !h[i].s.Raised?
    requires Idled(now, u.a) && (u.s.Skipped? <==> !Due(eventsOk, woken[|h|]))
    requires if h == [] then now == first else Idled(first, h[0].a) && h[|h| - 1].b == now
    ensures forall i | 0 <= i < |h + [u]| :: (h + [u])[i].s.Skipped? <==> !Due(eventsOk, woken[i])
    ensures Idled(first, (h + [u])[0].a) && forall i | 0 <= i < |h + [u]| - 1 :: !(h + [u])[i].s.Raised?
  {
  }

  /** One turn, with the books of the loop. */
  method TurnOn(w: Watcher, last: string, eventsOk: bool, woken: seq<Woken>, n: nat, ghost initial: string, ghost h: seq<Wakeup>,
                ghost first: Moment)
    returns (next: string, ghost u: Wakeup, raised: bool)
    requires n < |woken| && Going(initial, h, eventsOk, woken, n, last, w.unhealed, first, w.screen.Now())
    requires w.Valid() && (h != [] ==> !h[|h| - 1].s.Raised?)
    modifies w.screen, w.clock, w
    ensures w.Valid() && Going(initial, h + [u], eventsOk, woken, n + 1, next, w.unhealed, first, w.screen.Now())
    ensures w.log == old(w.log) + u.t && Flat(h + [u]) == Flat(h) + u.t && (raised <==> u.s.Raised?)
  {
    ghost var spent, now := w.unhealed, w.screen.Now();
    next, u, raised := Turn(w, last, eventsOk, woken[n]);
    GoesOn(initial, h, eventsOk, woken, last, spent, first, now, u, next, w.unhealed);
  }

  /** `watch_loop`, for whatever `select` gives until the program is told to stop. The loop ends early only when a read raises.
      What it does is a run, with one wakeup for each time `select` returned: the log is the first read and then the events
      of the wakeups, each as a wakeup goes, and only a signal or an idle connection is skipped. */
  method WatchLoop(w: Watcher, eventsOk: bool, woken: seq<Woken>) returns (last: Option<string>, ghost initial: string, ghost h: seq<Wakeup>)
    requires w.Valid() && w.unhealed == 0
    modifies w.screen, w.clock, w
    ensures w.Valid() && IsRun(initial, h) && w.unhealed == Spent(h)
    ensures last.None? ==> h == [] && w.log == old(w.log) && !Clear(old(w.screen.Now()), w.screen.Now())
    ensures last.Some? ==>
              && last.value == Held(initial, h)
              && w.log == old(w.log) + ([Read(initial, |old(w.screen.answers)|, old(w.clock.now))] + Flat(h))
    ensures last.Some? && h != [] ==> Looked(old(w.screen.Now()), h[0].a) && h[|h| - 1].b == w.screen.Now()
    ensures last.Some? ==> Follows(eventsOk, woken, h)
  {
    h, initial := [], "";
    last := w.Digest();
    if last.None? {
      return;
    }
    initial := last.value;
    ghost var before, first := w.log, w.screen.Now();
    var n, raised := 0, false;
    while n < |woken| && !raised
      invariant w.Valid() && w.log == before + Flat(h)
      invariant last.Some? && Going(initial, h, eventsOk, woken, n, last.value, w.unhealed, first, w.screen.Now())
      invariant raised <==> h != [] && h[|h| - 1].s.Raised?
    {
      ghost var flat, mid := Flat(h), w.log;
      var next;
      ghost var u;
      next, u, raised := TurnOn(w, last.value, eventsOk, woken, n, initial, h, first);
      Joined(before, mid, w.log, flat, u.t);
      last, h, n := Some(next), h + [u], n + 1;
    }
    Joined(old(w.log), before, w.log, [Read(initial, |old(w.screen.answers)|, old(w.clock.now))], Flat(h));
  }
}
