/** `RelocationCoordinator` of `relocate.py`: record on unplug, restore on replug. */
module Relocate {
  import opened Wrappers
  import opened Outputs
  import opened CrashGuard
  import opened Matching
  import opened Desktop
  import opened RestorePlan
  import opened Laptop

  const FOCUS_CONFIRM_TRIES := 6

  datatype Status = Arrived | Failed | FocusLost | Raised

  /** One turn of the hop loop. */
  datatype Hop = Unfocused | Refused | NotTaken(raised: bool) | Landed(monitor: nat)

  /** What one turn means for the walk; a landing elsewhere lets it go on. */
  function After(hop: Hop, target: int): Status {
    match hop
    case Unfocused => FocusLost
    case Refused => Failed
    case NotTaken(raised) => if raised then Raised else Failed
    case Landed(m) => if m == target then Arrived else Failed
  }

  /** One executed action: `accepted` and `abort`, or an exception. */
  datatype StepResult = Done(accepted: bool, abort: bool) | Threw

  datatype Verdict = Drop | Keep | WindowFailed

  // ---- what a stretch of work leaves behind --------------------------------------------------

  /** The desktop, the commands dwm got, the focus requests made, the geometries sent, the answers read. */
  datatype Past = Past(w: World, log: seq<Command>, focus: nat, writes: seq<Write>, asked: seq<Note>)

  /** Between two moments only windows of `xs` were touched, only by safe commands, and nothing but
      reading happened unless the focus was asked for. */
  ghost predicate Touched(a: Past, b: Past, xs: set<int>) {
    && Only(a.w, b.w, xs) && Grown(a.log, b.log, xs)
    && a.writes <= b.writes && a.asked <= b.asked
    && a.focus <= b.focus && (a.focus == b.focus ==> b == a.(asked := b.asked))
  }

  /** Nothing happened but reading. */
  predicate Looked(a: Past, b: Past) {
    a.asked <= b.asked && b == a.(asked := b.asked)
  }

  lemma TouchedTrans(a: Past, b: Past, c: Past, xs: set<int>, ys: set<int>)
    requires Touched(a, b, xs) && Touched(b, c, ys)
    ensures Touched(a, c, xs + ys)
  {
    OnlyTrans(a.w, b.w, c.w, xs, ys);
    GrownTrans(a.log, b.log, c.log, xs, ys);
  }

  lemma LookedFirst(a: Past, b: Past, c: Past, xs: set<int>)
    requires Looked(a, b) && Touched(b, c, xs)
    ensures Touched(a, c, xs)
  {
  }

  lemma TouchedThenLooked(a: Past, b: Past, c: Past, xs: set<int>)
    requires Touched(a, b, xs) && Looked(b, c)
    ensures Touched(a, c, xs)
  {
  }

  lemma TouchedMore(a: Past, b: Past, xs: set<int>, ys: set<int>)
    requires Touched(a, b, xs) && xs <= ys
    ensures Touched(a, b, ys)
  {
    forall i | |a.log| <= i < |b.log| ensures SafeCommand(b.log[i], ys) {
      assert SafeCommand(b.log[i], xs);
    }
  }

  /** dwm accepted exactly this record's tags on exactly this record's window. */
  ghost predicate TagAccepted(l: seq<Command>, l': seq<Command>, rec: Rec) {
    exists i :: |l| <= i < |l'| && l'[i].verb == Tag(rec.tags) && l'[i].reply.Accepted?
                && l'[i].owner == rec.xid && l'[i].before.sel == Some(rec.xid)
  }

  lemma TagAcceptedSplits(a: seq<Command>, b: seq<Command>, c: seq<Command>, rec: Rec)
    requires a <= b <= c
    ensures TagAccepted(a, c, rec) <==> TagAccepted(a, b, rec) || TagAccepted(b, c, rec)
  {
    if TagAccepted(a, b, rec) {
      var i :| |a| <= i < |b| && b[i].verb == Tag(rec.tags) && b[i].reply.Accepted? && b[i].owner == rec.xid && b[i].before.sel == Some(rec.xid);
      assert c[i] == b[i];
    }
    if TagAccepted(a, c, rec) {
      var i :| |a| <= i < |c| && c[i].verb == Tag(rec.tags) && c[i].reply.Accepted? && c[i].owner == rec.xid && c[i].before.sel == Some(rec.xid);
      assert i < |b| ==> b[i] == c[i];
    }
  }

  /** This verb was sent for this window, while it was selected. */
  ghost predicate Sent(l: seq<Command>, l': seq<Command>, x: int, verb: Verb) {
    exists i :: |l| <= i < |l'| && l'[i].verb == verb && l'[i].owner == x && l'[i].before.sel == Some(x)
  }

  lemma SentLater(a: seq<Command>, b: seq<Command>, c: seq<Command>, x: int, verb: Verb)
    requires a <= b <= c && (Sent(a, b, x, verb) || Sent(b, c, x, verb))
    ensures Sent(a, c, x, verb)
  {
    if Sent(a, b, x, verb) {
      var i :| |a| <= i < |b| && b[i].verb == verb && b[i].owner == x && b[i].before.sel == Some(x);
      assert c[i] == b[i];
    }
  }

  /** Some read of the window showed it on this monitor. */
  ghost predicate SeenAt(q: seq<Note>, q': seq<Note>, x: int, target: Option<int>) {
    target.Some? && exists i :: |q| <= i < |q'| && ShowsAt(q'[i], x, target.value)
  }

  predicate ShowsAt(e: Note, x: int, target: int) {
    e.Fetched? && e.xid == x && e.client.Some? && e.client.value.place.monitor == target
  }

  lemma SeenSplits(a: seq<Note>, b: seq<Note>, c: seq<Note>, x: int, target: Option<int>)
    requires a <= b <= c
    ensures SeenAt(a, c, x, target) <==> SeenAt(a, b, x, target) || SeenAt(b, c, x, target)
  {
    if SeenAt(a, b, x, target) {
      var i :| |a| <= i < |b| && ShowsAt(b[i], x, target.value);
      assert c[i] == b[i];
    }
    if SeenAt(a, c, x, target) {
      var i :| |a| <= i < |c| && ShowsAt(c[i], x, target.value);
      assert i < |b| ==> b[i] == c[i];
    }
  }

  /** No window's state was asked for. */
  predicate Unfetched(q: seq<Note>, q': seq<Note>) {
    forall i | |q| <= i < |q'| :: !q'[i].Fetched?
  }

  /** What was read of windows is so. */
  predicate FetchedTruly(q: seq<Note>, q': seq<Note>, w: World) {
    forall i | |q| <= i < |q'| && q'[i].Fetched? && q'[i].client.Some? :: q'[i].xid in w.place && q'[i].client.value.place == w.place[q'[i].xid]
  }

  /** Some read of monitors or windows was not answered. */
  predicate Doubtful(q: seq<Note>, q': seq<Note>) {
    exists i :: |q| <= i < |q'| && NoAnswer(q'[i])
  }

  predicate NoAnswer(e: Note) {
    e.NoMonitors? || (e.Fetched? && e.client.None?)
  }

  lemma DoubtSplits(q: seq<Note>, q1: seq<Note>, q': seq<Note>)
    requires q <= q1 <= q'
    ensures Doubtful(q, q') <==> Doubtful(q, q1) || Doubtful(q1, q')
  {
    if Doubtful(q, q1) {
      var i :| |q| <= i < |q1| && NoAnswer(q1[i]);
      assert NoAnswer(q'[i]);
    }
    if Doubtful(q, q') {
      var i :| |q| <= i < |q'| && NoAnswer(q'[i]);
      assert i < |q1| ==> NoAnswer(q1[i]);
    }
  }

  lemma FetchedOn(q: seq<Note>, q1: seq<Note>, q': seq<Note>, w: World)
    requires q <= q1 <= q' && FetchedTruly(q, q1, w) && FetchedTruly(q1, q', w)
    ensures FetchedTruly(q, q', w)
  {
    assert forall i | |q| <= i < |q1| :: q'[i] == q1[i];
  }

  lemma OneStateMore(w: World, i: nat)
    requires i < |w.rects|
    ensures States(w)[..i + 1] == States(w)[..i] + [MonitorState(Report(w)[i].num, Report(w)[i].tagset, StatesOf(Report(w)[i].all, w.place))]
  {
  }

  /** The focus was asked for. */
  predicate AskedFor(q: seq<Note>, q': seq<Note>, x: int) {
    exists i :: |q| <= i < |q'| && q'[i] == FocusWanted(x)
  }

  /** A window that was there and had the focus before was asked for, unless the monitors could not be read. */
  predicate AskedBack(q: seq<Note>, q': seq<Note>, prev: Option<(int, int)>, w: World) {
    prev.Some? && prev.value.1 in w.place ==> Doubtful(q, q') || AskedFor(q, q', prev.value.1)
  }

  predicate NotSelected(e: Note, x: int) {
    e.Monitors? && e.at.sel != Some(x)
  }

  /** The focus was asked for at note `i`, and then the monitors did not answer or six answers in a row showed another
      selection. */
  ghost predicate Unconfirmed(q: seq<Note>, i: nat, x: int) {
    && i < |q| && q[i] == FocusWanted(x)
    && exists n: nat :: Ends(q, i, n, x)
  }

  predicate Ends(q: seq<Note>, i: nat, n: nat, x: int) {
    && 0 < n <= 6 && i + n < |q|
    && (forall m | i < m < i + n :: NotSelected(q[m], x))
    && (q[i + n].NoMonitors? || (n == 6 && NotSelected(q[i + n], x)))
  }

  /** Between the two moments a focus asked for was not confirmed. */
  ghost predicate GaveUp(q: seq<Note>, q': seq<Note>, x: int) {
    exists i: nat :: |q| <= i && Unconfirmed(q', i, x)
  }

  lemma NeverConfirmed(q: seq<Note>, q': seq<Note>, n: nat, x: int)
    requires q <= q' && |q'| == |q| + n + 1 && q'[|q|] == FocusWanted(x) && Ends(q', |q|, n, x)
    ensures GaveUp(q, q', x)
  {
    assert Unconfirmed(q', |q|, x);
  }

  lemma GaveUpWithin(a: seq<Note>, b: seq<Note>, c: seq<Note>, d: seq<Note>, x: int)
    requires a <= b && c <= d && GaveUp(b, c, x)
    ensures GaveUp(a, d, x)
  {
    var i: nat :| |b| <= i && Unconfirmed(c, i, x);
    var n: nat :| Ends(c, i, n, x);
    assert forall m | i <= m <= i + n :: d[m] == c[m];
    assert Ends(d, i, n, x);
    assert Unconfirmed(d, i, x);
  }

  /** The window's identity was read and did not come back as the record's. */
  ghost predicate StaleRead(q: seq<Note>, q': seq<Note>, rec: Rec) {
    exists i :: |q| <= i < |q'| && q'[i].Resolved? && q'[i].xid == rec.xid && q'[i].ident != Some(rec.ident)
  }

  lemma StaleReadLater(q: seq<Note>, q1: seq<Note>, q': seq<Note>, rec: Rec)
    requires q <= q1 <= q' && StaleRead(q, q1, rec)
    ensures StaleRead(q, q', rec)
  {
    var i :| |q| <= i < |q1| && q1[i].Resolved? && q1[i].xid == rec.xid && q1[i].ident != Some(rec.ident);
    assert q'[i] == q1[i];
  }

  /** The process was looked up and did not come back with the record's start time. */
  ghost predicate SweptRead(q: seq<Note>, q': seq<Note>, k: Ident) {
    exists i :: |q| <= i < |q'| && q'[i].Started? && q'[i].pid == k.pid && q'[i].starttime != Some(k.starttime)
  }

  lemma SweptReadLater(q: seq<Note>, q1: seq<Note>, q': seq<Note>, k: Ident)
    requires q <= q1 <= q' && SweptRead(q, q1, k)
    ensures SweptRead(q, q', k)
  {
    var i :| |q| <= i < |q1| && q1[i].Started? && q1[i].pid == k.pid && q1[i].starttime != Some(k.starttime);
    assert q'[i] == q1[i];
  }

  /** The process was looked up and came back with the record's start time. */
  ghost predicate FoundRead(q: seq<Note>, q': seq<Note>, k: Ident) {
    exists i :: |q| <= i < |q'| && q'[i] == Started(k.pid, Some(k.starttime))
  }

  lemma FoundReadsStay(q: seq<Note>, q1: seq<Note>, q': seq<Note>, ks: set<Ident>)
    requires q <= q1 <= q' && forall k | k in ks :: FoundRead(q, q1, k)
    ensures forall k | k in ks :: FoundRead(q, q', k)
  {
    forall k | k in ks ensures FoundRead(q, q', k) {
      var i :| |q| <= i < |q1| && q1[i] == Started(k.pid, Some(k.starttime));
      assert q'[i] == q1[i];
    }
  }

  // ---- refusals ---------------------------------------------------------------------------------

  /** What the guard answers when every read does: the predicate, or too many windows to look at. */
  ghost predicate GuardSaysNo(w: World, x: int) {
    CrashRisk(States(w), x, 1) || |w.place| > 64
  }

  /** The `i`-th answer shows a moment at which the guard refuses a hop of `x` on its way to `target`: `x` is selected
      and neither there nor was it at the start, and until then only windows of `xs` had been touched. */
  ghost predicate Stopped(a: Past, q: seq<Note>, i: nat, x: int, target: int, xs: set<int>)
    requires x in a.w.place
  {
    && |a.asked| <= i < |q| && q[i].Monitors? && Only(a.w, q[i].at, xs) && q[i].at.sel == Some(x)
    && a.w.place[x].monitor != target && q[i].at.place[x].monitor != target
    && GuardSaysNo(q[i].at, x)
  }

  /** Between the two moments the coordinator read such an answer. */
  ghost predicate HopRefused(a: Past, b: Past, x: int, target: Option<int>, xs: set<int>)
    requires x in a.w.place
  {
    target.Some? && exists i: nat :: Stopped(a, b.asked, i, x, target.value, xs)
  }

  lemma RefusedLater(a: Past, b: Past, c: Past, x: int, target: Option<int>, xs: set<int>)
    requires x in a.w.place && b.asked <= c.asked && HopRefused(a, b, x, target, xs)
    ensures HopRefused(a, c, x, target, xs)
  {
    var i: nat :| Stopped(a, b.asked, i, x, target.value, xs);
    assert Stopped(a, c.asked, i, x, target.value, xs);
  }

  lemma RefusedSince(a: Past, b: Past, c: Past, x: int, target: Option<int>, xs: set<int>)
    requires Looked(a, b) && x in b.w.place && HopRefused(b, c, x, target, xs)
    ensures HopRefused(a, c, x, target, xs)
  {
    var i: nat :| Stopped(b, c.asked, i, x, target.value, xs);
    assert Stopped(a, c.asked, i, x, target.value, xs);
  }

  /** ... and it was the crash predicate that refused, with nothing else to see on the window's screen. */
  ghost predicate StoppedAlone(a: Past, q: seq<Note>, i: nat, x: int, target: int, xs: set<int>)
    requires x in a.w.place
  {
    && Stopped(a, q, i, x, target, xs) && CrashRisk(States(q[i].at), x, 1)
    && (|q[i].at.rects| >= 2 ==> forall y :: !Company(q[i].at, x, y))
  }

  ghost predicate RiskRefused(a: Past, b: Past, x: int, target: Option<int>, xs: set<int>)
    requires x in a.w.place
  {
    target.Some? && exists i: nat :: StoppedAlone(a, b.asked, i, x, target.value, xs)
  }

  /** With no more than 64 windows it is never the budget. */
  lemma WithinBudget(a: Past, b: Past, x: int, target: Option<int>, xs: set<int>)
    requires x in a.w.place && HopRefused(a, b, x, target, xs) && |a.w.place| <= 64
    ensures RiskRefused(a, b, x, target, xs)
  {
    var i: nat :| Stopped(a, b.asked, i, x, target.value, xs);
    var at := b.asked[i].at;
    SameSize(a.w.place, at.place);
    if |at.rects| >= 2 {
      forall y ensures !Company(at, x, y) {
        if Company(at, x, y) { CompanyPermits(at, x, y); }
      }
    }
    assert StoppedAlone(a, b.asked, i, x, target.value, xs);
  }

  lemma SameSize(p: map<int, Place>, p': map<int, Place>)
    requires p.Keys == p'.Keys
    ensures |p| == |p'|
  {
    assert |p| == |p.Keys| && |p'| == |p'.Keys|;
  }

  /** The monitors of this desktop were read meanwhile. */
  ghost predicate JustListed(q: seq<Note>, q': seq<Note>, w: World) {
    exists i: nat :: |q| <= i < |q'| && q'[i] == Monitors(w)
  }

  lemma RefusedHere(a: Past, q: seq<Note>, b: Past, x: int, target: int)
    requires x in a.w.place && a.asked <= q && JustListed(q, b.asked, b.w) && Only(a.w, b.w, {x}) && b.w.sel == Some(x)
    requires a.w.place[x].monitor != target && b.w.place[x].monitor != target && GuardSaysNo(b.w, x)
    ensures HopRefused(a, b, x, Some(target), {x})
  {
    var i: nat :| |q| <= i < |b.asked| && b.asked[i] == Monitors(b.w);
    assert Stopped(a, b.asked, i, x, target, {x});
  }

  // ---- what may keep a record ----------------------------------------------------------------------

  /** A state was read, with the window selected, on which the guard refuses it a hop. */
  ghost predicate RefusalRead(q: seq<Note>, q': seq<Note>, x: int) {
    exists i :: |q| <= i < |q'| && q'[i].Monitors? && q'[i].at.sel == Some(x) && GuardSaysNo(q'[i].at, x)
  }

  lemma RefusalIsRead(q: seq<Note>, q1: seq<Note>, q': seq<Note>, w: World, x: int)
    requires q <= q1 <= q' && w.sel == Some(x)
    requires Doubtful(q1, q') || (JustListed(q1, q', w) && GuardSaysNo(w, x))
    ensures Doubtful(q, q') || RefusalRead(q, q', x)
  {
    DoubtSplits(q, q1, q');
    if !Doubtful(q1, q') {
      var i: nat :| |q1| <= i < |q'| && q'[i] == Monitors(w);
      assert RefusalRead(q, q', x);
    }
  }

  /** A command meant for the window was not accepted. */
  predicate TurnedDown(l: seq<Command>, l': seq<Command>, x: int) {
    exists i :: |l| <= i < |l'| && l'[i].owner == x && !l'[i].reply.Accepted?
  }

  /** `n` hops in a row were made for the window. */
  predicate HopsFrom(l: seq<Command>, j: nat, n: nat, x: int) {
    j + n <= |l| && forall i | j <= i < j + n :: l[i].verb.Tagmon? && l[i].owner == x
  }

  ghost predicate Wandered(l: seq<Command>, l': seq<Command>, x: int, n: nat) {
    exists j: nat :: |l| <= j && HopsFrom(l', j, n, x)
  }

  /** Something stood in the way: a focus not confirmed, a read not answered, a refused hop, a command not accepted, or as
      many hops as there are monitors. */
  ghost predicate Hampered(a: Past, b: Past, x: int) {
    || GaveUp(a.asked, b.asked, x) || Doubtful(a.asked, b.asked) || RefusalRead(a.asked, b.asked, x)
    || TurnedDown(a.log, b.log, x) || Wandered(a.log, b.log, x, |a.w.rects|)
  }

  lemma HamperedWithin(a: Past, b: Past, c: Past, d: Past, x: int)
    requires a.asked <= b.asked <= c.asked <= d.asked && a.log <= b.log <= c.log <= d.log && a.w.rects == b.w.rects
    requires Hampered(b, c, x)
    ensures Hampered(a, d, x)
  {
    if GaveUp(b.asked, c.asked, x) {
      GaveUpWithin(a.asked, b.asked, c.asked, d.asked, x);
    } else if Doubtful(b.asked, c.asked) {
      DoubtSplits(a.asked, b.asked, c.asked);
      DoubtSplits(a.asked, c.asked, d.asked);
    } else if RefusalRead(b.asked, c.asked, x) {
      var i :| |b.asked| <= i < |c.asked| && c.asked[i].Monitors? && c.asked[i].at.sel == Some(x) && GuardSaysNo(c.asked[i].at, x);
      assert d.asked[i] == c.asked[i];
    } else {
      HamperedByCommands(a, b, c, d, x);
    }
  }

  lemma HamperedByCommands(a: Past, b: Past, c: Past, d: Past, x: int)
    requires a.log <= b.log <= c.log <= d.log && a.w.rects == b.w.rects
    requires TurnedDown(b.log, c.log, x) || Wandered(b.log, c.log, x, |b.w.rects|)
    ensures TurnedDown(a.log, d.log, x) || Wandered(a.log, d.log, x, |a.w.rects|)
  {
    if TurnedDown(b.log, c.log, x) {
      var i :| |b.log| <= i < |c.log| && c.log[i].owner == x && !c.log[i].reply.Accepted?;
      assert d.log[i] == c.log[i];
    } else {
      var j: nat :| |b.log| <= j && HopsFrom(c.log, j, |b.w.rects|, x);
      assert forall i | j <= i < j + |b.w.rects| :: d.log[i] == c.log[i];
      assert HopsFrom(d.log, j, |a.w.rects|, x);
    }
  }

  // ---- one record ----------------------------------------------------------------------------------

  /** What one executed action may do to the record's own window. */
  predicate Allowed(a: Action, p: Place, p': Place, cooperative: bool) {
    match a
    case MoveOneHop(_) => p'.floating == p.floating
    case SetTags(t) => p'.monitor == p.monitor && p'.floating == p.floating && (cooperative ==> p'.tags == t)
    case Toggle => p'.monitor == p.monitor && p'.tags == p.tags && (cooperative ==> p'.floating == !p.floating)
    case Configure(_) => p' == p
  }

  /** The window is back: monitor, tags, floating state, and a floating window that fits is where it was. */
  predicate Home(w: World, rec: Rec, m: int) {
    && rec.xid in w.place && rec.xid in w.geom && 0 <= m < |w.rects|
    && w.place[rec.xid] == Place(m, rec.tags, rec.floating)
    && (rec.floating && Fits(rec.geom, w.rects[m]) ==> w.geom[rec.xid] == rec.geom)
  }

  predicate InRange(target: Option<int>, w: World) {
    target.Some? && 0 <= target.value < |w.rects|
  }

  /** `conn_to_mon.get(rec.output)`. */
  function Target(rec: Rec, table: map<string, int>): Option<int> {
    if rec.output.Some? && rec.output.value in table then Some(table[rec.output.value]) else None
  }

  /** Why a live record may be forgotten. */
  ghost predicate DropJustified(w: World, l0: seq<Command>, l: seq<Command>, rec: Rec, table: map<string, int>, honest: bool) {
    && TagAccepted(l0, l, rec) && rec.xid in w.place
    && (honest ==> w.place[rec.xid].tags == rec.tags)
    && (InRange(Target(rec, table), w) ==> w.place[rec.xid].monitor == Target(rec, table).value)
  }

  /** The window a cycle may touch for this record: its own, and only while it still is that process's. */
  function Own(w: World, rec: Rec): set<int> {
    if IdentOf(w, rec.xid) == Some(rec.ident) then {rec.xid} else {}
  }

  /** A focus change, then one act on window `x`. */
  lemma ActTouches(a: Past, mid: World, b: Past, x: int)
    requires Refocused(a.w, mid) && Only(mid, b.w, {x}) && Grown(a.log, b.log, {x})
    requires a.writes <= b.writes && a.asked <= b.asked && a.focus < b.focus
    ensures Touched(a, b, {x})
  {
  }

  /** A hop by the selected window leaves everything else alone. */
  lemma OneHop(w: World, w': World, x: int)
    requires w.sel == Some(x) && (w' == w || Performed(w, Tagmon(1), w'))
    ensures Only(w, w', {x}) && x in w'.place && w'.place[x].floating == w.place[x].floating
    ensures Performed(w, Tagmon(1), w') && |w.rects| >= 2 ==>
              w'.place[x].monitor == DirToMon(w.place[x].monitor, |w.rects|, 1)
  {
  }

  /** Any verb on the selected window leaves everything else alone. */
  lemma OneStep(w: World, v: Verb, w': World, x: int)
    requires w.sel == Some(x) && (w' == w || Performed(w, v, w')) && (v.Tag? || v.ToggleFloating?)
    ensures Only(w, w', {x}) && x in w'.place
    ensures w'.place[x].monitor == w.place[x].monitor
    ensures v.Tag? ==> w'.place[x].floating == w.place[x].floating
    ensures v.ToggleFloating? ==> w'.place[x].tags == w.place[x].tags
    ensures Performed(w, v, w') && v.Tag? ==> w'.place[x].tags == v.tags
    ensures Performed(w, v, w') && v.ToggleFloating? ==> w'.place[x].floating == !w.place[x].floating
  {
  }

  /** The saved geometry was sent to the window, relative to its target. */
  predicate GeometrySent(a: Past, b: Past, rec: Rec, target: Option<int>) {
    && InRange(target, a.w) && a.writes <= b.writes && |b.writes| == |a.writes| + 1
    && b.writes[|a.writes|].xid == rec.xid && Absolute(b.writes[|a.writes|].rel, a.w.rects[target.value]) == rec.geom
  }

  /** What an action that is not called off sends, whatever comes of it. */
  ghost predicate Commanded(rec: Rec, action: Action, target: Option<int>, a: Past, b: Past) {
    match action
    case MoveOneHop(_) => true
    case SetTags(_) => Sent(a.log, b.log, rec.xid, Tag(rec.tags))
    case Toggle => Sent(a.log, b.log, rec.xid, ToggleFloating)
    case Configure(_) => InRange(target, a.w) ==> GeometrySent(a, b, rec, target)
  }

  /** What one executed action of a plan did, and what its result says about it. */
  ghost predicate Acted(rec: Rec, action: Action, target: Option<int>, a: Past, b: Past, r: StepResult, ways: Ways)
  {
    && rec.xid in a.w.place && rec.xid in b.w.place
    && Allowed(action, a.w.place[rec.xid], b.w.place[rec.xid], ways.cooperative)
    && (TagAccepted(a.log, b.log, rec) <==> action.SetTags? && r.Done? && r.accepted)
    && (SeenAt(a.asked, b.asked, rec.xid, target) <==> action.MoveOneHop? && r.Done? && r.accepted)
    && (r.Done? && r.accepted && action.MoveOneHop? ==> target == Some(b.w.place[rec.xid].monitor))
    && (r.Done? && r.accepted && action.SetTags? && ways.honest ==> b.w.place[rec.xid].tags == rec.tags)
    && (if r.Done? && r.abort then !r.accepted && GaveUp(a.asked, b.asked, rec.xid) else Commanded(rec, action, target, a, b))
    && (b.writes == a.writes || (action.Configure? && GeometrySent(a, b, rec, target)))
    && (Sinks(action, r) ==> Hampered(a, b, rec.xid))
    && (ways.cooperative ==> Obeyed(rec, action, target, a, b, r))
  }

  /** What a cooperative desk adds: only the guard stands in the way, and a geometry that fits is taken. */
  ghost predicate Obeyed(rec: Rec, action: Action, target: Option<int>, a: Past, b: Past, r: StepResult)
    requires rec.xid in a.w.place && rec.xid in b.w.place
  {
    match action
    case MoveOneHop(_) =>
      InRange(target, a.w) && a.w.place[rec.xid].monitor != target.value ==>
        r == Done(true, false) || (r == Done(false, false) && HopRefused(a, b, rec.xid, target, {rec.xid}))
    case SetTags(_) => r == Done(true, false)
    case Toggle => r == Done(true, false)
    case Configure(g) =>
      && r == Done(true, false)
      && (InRange(target, b.w) && b.w.place[rec.xid].floating && b.w.place[rec.xid].monitor == target.value ==>
            Fits(g, b.w.rects[target.value]) ==> b.w.geom[rec.xid] == g)
  }

  /** A floating window that fits its target is where it was. */
  predicate Sits(w: World, rec: Rec, live: Live) {
    InRange(live.target, w) && rec.xid in w.geom && rec.floating && Fits(rec.geom, w.rects[live.target.value]) ==>
      w.geom[rec.xid] == rec.geom
  }

  /** A step that failed in a way that sinks the restore. */
  predicate Sinks(a: Action, r: StepResult) {
    !(r.Done? && r.accepted) && (a.MoveOneHop? || a.SetTags?)
  }

  /** One verb ran on the selected window, and what it did to the window if it did anything. */
  ghost predicate Ran(a: Past, b: Past, x: int, verb: Verb, reply: Reply, ways: Ways) {
    && |b.log| == |a.log| + 1 && a.log <= b.log && x in a.w.place && x in b.w.place
    && b.log[|a.log|].verb == verb && b.log[|a.log|].owner == x && b.log[|a.log|].before.sel == Some(x) && b.log[|a.log|].reply == reply
    && b.w.place[x].monitor == a.w.place[x].monitor
    && (verb.Tag? ==> b.w.place[x].floating == a.w.place[x].floating)
    && (verb.ToggleFloating? ==> b.w.place[x].tags == a.w.place[x].tags)
    && (ways.honest && reply.Accepted? && verb.Tag? ==> b.w.place[x].tags == verb.tags)
    && (ways.honest && reply.Accepted? && verb.ToggleFloating? ==> b.w.place[x].floating == !a.w.place[x].floating)
  }

  /** What holds of the window after the first `i` actions of a plan begun at `a`. The restore stands exactly while the tags
      are accepted, if it was their turn, and the window was read on its target, if it had to move. */
  ghost predicate Progress(a: Past, b: Past, rec: Rec, live: Live, i: nat, essentialOk: bool, ways: Ways)
  {
    && rec.xid in b.w.place && a.log <= b.log && a.asked <= b.asked && b.w.rects == a.w.rects
    && (i == 0 || TagAt(live) == 0 ==> b.w.place[rec.xid].monitor == live.monitor)
    && (i <= TagAt(live) ==> !TagAccepted(a.log, b.log, rec))
    && (i == 0 || TagAt(live) == 0 ==> !SeenAt(a.asked, b.asked, rec.xid, live.target))
    && (essentialOk <==> (i > TagAt(live) ==> TagAccepted(a.log, b.log, rec))
                         && (i > 0 && TagAt(live) == 1 ==> SeenAt(a.asked, b.asked, rec.xid, live.target)))
    && (essentialOk && i > 0 && TagAt(live) == 1 ==> live.target == Some(b.w.place[rec.xid].monitor))
    && (essentialOk && ways.honest && i > TagAt(live) ==> b.w.place[rec.xid].tags == rec.tags)
    && (ways.cooperative && i > TagAt(live) ==> b.w.place[rec.xid].tags == rec.tags)
    && (ways.cooperative ==> b.w.place[rec.xid].floating == if i > TagAt(live) + 1 then rec.floating else live.floating)
  }

  /** The verbs of the first `i` actions were sent, whatever came of them. */
  ghost predicate SentSoFar(a: Past, b: Past, rec: Rec, live: Live, i: nat) {
    && (i > TagAt(live) ==> Sent(a.log, b.log, rec.xid, Tag(rec.tags)))
    && (i > TagAt(live) + 1 && live.floating != rec.floating ==> Sent(a.log, b.log, rec.xid, ToggleFloating))
  }

  /** One more action of the plan, whatever came of it. */
  lemma OneMore(a: Past, b: Past, c: Past, rec: Rec, live: Live, i: nat, essentialOk: bool, ways: Ways, r: StepResult)
    requires i < |PlanRestore(rec, live)| && Progress(a, b, rec, live, i, essentialOk, ways)
    requires b.log <= c.log && b.asked <= c.asked && c.w.rects == b.w.rects
    requires Acted(rec, PlanRestore(rec, live)[i], live.target, b, c, r, ways)
    ensures Progress(a, c, rec, live, i + 1, essentialOk && !Sinks(PlanRestore(rec, live)[i], r), ways)
  {
    PlanShape(rec, live, i);
    TagAcceptedSplits(a.log, b.log, c.log, rec);
    SeenSplits(a.asked, b.asked, c.asked, rec.xid, live.target);
  }

  /** One more action that was not called off. */
  lemma OneMoreSent(a: Past, b: Past, c: Past, rec: Rec, live: Live, i: nat, ways: Ways, r: StepResult)
    requires i < |PlanRestore(rec, live)| && a.log <= b.log <= c.log && SentSoFar(a, b, rec, live, i)
    requires Acted(rec, PlanRestore(rec, live)[i], live.target, b, c, r, ways) && !(r.Done? && r.abort)
    ensures SentSoFar(a, c, rec, live, i + 1)
  {
    PlanShape(rec, live, i);
    if i >= TagAt(live) { SentLater(a.log, b.log, c.log, rec.xid, Tag(rec.tags)); }
    if i > TagAt(live) && live.floating != rec.floating { SentLater(a.log, b.log, c.log, rec.xid, ToggleFloating); }
  }

  /** On a cooperative desk only the move, the first action, can sink a restore. */
  lemma OnlyTheHopSinks(a: Past, b: Past, c: Past, rec: Rec, live: Live, i: nat, essentialOk: bool, ways: Ways, r: StepResult)
    requires i < |PlanRestore(rec, live)| && ways.cooperative && live.monitors == |b.w.rects|
    requires Progress(a, b, rec, live, i, essentialOk, ways)
    requires Acted(rec, PlanRestore(rec, live)[i], live.target, b, c, r, ways)
    ensures r.Done? && !r.abort
    ensures Sinks(PlanRestore(rec, live)[i], r) ==> i == 0 && HopRefused(b, c, rec.xid, live.target, {rec.xid})
  {
    PlanShape(rec, live, i);
  }

  lemma PlannedIsRunnable(rec: Rec, live: Live, i: nat)
    requires i < |PlanRestore(rec, live)|
    ensures var action := PlanRestore(rec, live)[i];
            && (action.MoveOneHop? ==> action.direction == 1 && live.monitors >= 2 && live.target.Some? && live.target.value != live.monitor)
            && (action.MoveOneHop? ==> i == 0)
            && (action.SetTags? ==> action.tags == rec.tags) && (action.Configure? ==> action.geom == rec.geom)
  {
    PlanShape(rec, live, i);
  }

  /** What an unfinished or finished plan has written. */
  ghost predicate Wrote(a: Past, b: Past, rec: Rec, live: Live, i: nat, abort: bool)
  {
    && (!rec.floating || i < |PlanRestore(rec, live)| ==> b.writes == a.writes)
    && (b.writes == a.writes || GeometrySent(a, b, rec, live.target))
    && (!abort && rec.floating && i == |PlanRestore(rec, live)| && InRange(live.target, a.w) ==> GeometrySent(a, b, rec, live.target))
  }

  lemma WroteMore(a: Past, b: Past, c: Past, rec: Rec, live: Live, i: nat, ways: Ways, r: StepResult)
    requires i < |PlanRestore(rec, live)| && b.w.rects == a.w.rects && Wrote(a, b, rec, live, i, false)
    requires Acted(rec, PlanRestore(rec, live)[i], live.target, b, c, r, ways)
    ensures Wrote(a, c, rec, live, i + 1, r.Done? && r.abort)
  {
    PlanShape(rec, live, i);
  }

  /** The state of the action loop that began at `a`, after `i` actions. */
  ghost predicate UpTo(a: Past, b: Past, rec: Rec, live: Live, i: nat, essentialOk: bool, abort: bool, ways: Ways)
    requires rec.xid in a.w.place
  {
    && Touched(a, b, {rec.xid}) && (i == 0 ==> b == a && essentialOk)
    && Progress(a, b, rec, live, i, essentialOk, ways)
    && (if abort then GaveUp(a.asked, b.asked, rec.xid) && (i <= TagAt(live) + 1 ==> !essentialOk) else SentSoFar(a, b, rec, live, i))
    && (ways.cooperative ==> !abort && (essentialOk || HopRefused(a, b, rec.xid, live.target, {rec.xid})))
    && (ways.cooperative && essentialOk && i == |PlanRestore(rec, live)| && live.target == Some(b.w.place[rec.xid].monitor) ==> Sits(b.w, rec, live))
    && Wrote(a, b, rec, live, i, abort) && (!essentialOk ==> Hampered(a, b, rec.xid))
  }

  lemma UpToMore(a: Past, b: Past, c: Past, rec: Rec, live: Live, i: nat, sofar: bool, ways: Ways, r: StepResult)
    requires rec.xid in a.w.place && i < |PlanRestore(rec, live)| && live.monitors == |a.w.rects|
    requires UpTo(a, b, rec, live, i, sofar, false, ways) && Touched(b, c, {rec.xid})
    requires Acted(rec, PlanRestore(rec, live)[i], live.target, b, c, r, ways)
    ensures UpTo(a, c, rec, live, i + 1, sofar && !Sinks(PlanRestore(rec, live)[i], r), r.Done? && r.abort, ways)
  {
    TouchedTrans(a, b, c, {rec.xid}, {rec.xid});
    OneMore(a, b, c, rec, live, i, sofar, ways, r);
    WroteMore(a, b, c, rec, live, i, ways, r);
    if r.Done? && r.abort {
      CalledOff(a, b, c, rec, live, i, ways, r);
    } else {
      OneMoreSent(a, b, c, rec, live, i, ways, r);
    }
    if !sofar { HamperedWithin(a, a, b, c, rec.xid); }
    if Sinks(PlanRestore(rec, live)[i], r) { HamperedWithin(a, b, c, c, rec.xid); }
    if ways.cooperative { StillUp(a, b, c, rec, live, i, sofar, ways, r); }
  }

  lemma CalledOff(a: Past, b: Past, c: Past, rec: Rec, live: Live, i: nat, ways: Ways, r: StepResult)
    requires i < |PlanRestore(rec, live)| && a.asked <= b.asked <= c.asked
    requires Acted(rec, PlanRestore(rec, live)[i], live.target, b, c, r, ways) && r.Done? && r.abort
    ensures GaveUp(a.asked, c.asked, rec.xid) && (i <= TagAt(live) ==> Sinks(PlanRestore(rec, live)[i], r))
  {
    PlanShape(rec, live, i);
    GaveUpWithin(a.asked, b.asked, c.asked, c.asked, rec.xid);
  }

  lemma StillUp(a: Past, b: Past, c: Past, rec: Rec, live: Live, i: nat, sofar: bool, ways: Ways, r: StepResult)
    requires rec.xid in a.w.place && i < |PlanRestore(rec, live)| && live.monitors == |a.w.rects| && ways.cooperative
    requires UpTo(a, b, rec, live, i, sofar, false, ways) && Touched(b, c, {rec.xid})
    requires Acted(rec, PlanRestore(rec, live)[i], live.target, b, c, r, ways)
    requires Progress(a, c, rec, live, i + 1, sofar && !Sinks(PlanRestore(rec, live)[i], r), ways)
    ensures r.Done? && !r.abort
    ensures var ok := sofar && !Sinks(PlanRestore(rec, live)[i], r);
            && (ok || HopRefused(a, c, rec.xid, live.target, {rec.xid}))
            && (ok && i + 1 == |PlanRestore(rec, live)| && live.target == Some(c.w.place[rec.xid].monitor) ==> Sits(c.w, rec, live))
  {
    OnlyTheHopSinks(a, b, c, rec, live, i, sofar, ways, r);
    PlanShape(rec, live, i);
    if !sofar { RefusedLater(a, b, c, rec.xid, live.target, {rec.xid}); }
  }

  /** What the action loop comes to. Whatever came of the single steps, each of them was tried unless a focus was not
      confirmed. */
  ghost predicate PlanDone(a: Past, b: Past, rec: Rec, live: Live, essentialOk: bool, ways: Ways)
    requires rec.xid in a.w.place
  {
    && rec.xid in b.w.place
    && (essentialOk <==> TagAccepted(a.log, b.log, rec)
                         && (PlannedMove(live).Some? ==> SeenAt(a.asked, b.asked, rec.xid, live.target)))
    && (essentialOk && ways.honest ==> b.w.place[rec.xid].tags == rec.tags)
    && (essentialOk && InRange(live.target, b.w) ==> b.w.place[rec.xid].monitor == live.target.value)
    && AllSent(a, b, rec, live.target, live.floating) && (!essentialOk ==> Hampered(a, b, rec.xid))
    && (ways.cooperative ==> Marked(b.w, rec))
    && (ways.cooperative && !essentialOk ==> HopRefused(a, b, rec.xid, live.target, {rec.xid}))
    && (ways.cooperative && essentialOk && InRange(live.target, b.w) ==> Home(b.w, rec, live.target.value))
    && (ways.cooperative && rec.floating && InRange(live.target, a.w) ==> GeometrySent(a, b, rec, live.target))
    && (b.writes == a.writes || (rec.floating && GeometrySent(a, b, rec, live.target)))
  }

  /** The window has its tags and its floating state back, wherever it is. */
  predicate Marked(w: World, rec: Rec) {
    rec.xid in w.place && w.place[rec.xid].tags == rec.tags && w.place[rec.xid].floating == rec.floating
  }

  /** Unless a focus was not confirmed, the tags were sent, and so were the toggle and the geometry if they were due. */
  ghost predicate AllSent(a: Past, b: Past, rec: Rec, target: Option<int>, floating: bool) {
    GaveUp(a.asked, b.asked, rec.xid)
    || (&& Sent(a.log, b.log, rec.xid, Tag(rec.tags))
        && (floating != rec.floating ==> Sent(a.log, b.log, rec.xid, ToggleFloating))
        && (rec.floating && InRange(target, a.w) ==> GeometrySent(a, b, rec, target)))
  }

  /** A completed plan without a failed step has brought the window home. */
  lemma Finished(a: Past, b: Past, rec: Rec, live: Live, ways: Ways)
    requires ways.cooperative && InRange(live.target, b.w) && live.monitors == |b.w.rects|
    requires Progress(a, b, rec, live, |PlanRestore(rec, live)|, true, ways)
    requires live.target == Some(b.w.place[rec.xid].monitor) ==> Sits(b.w, rec, live)
    ensures Home(b.w, rec, live.target.value)
  {
    PlanShape(rec, live, |PlanRestore(rec, live)| - 1);
  }

  lemma PlanEnds(a: Past, b: Past, rec: Rec, live: Live, i: nat, essentialOk: bool, abort: bool, ways: Ways)
    requires rec.xid in a.w.place && UpTo(a, b, rec, live, i, essentialOk, abort, ways)
    requires i <= |PlanRestore(rec, live)| && (i == |PlanRestore(rec, live)| || abort)
    requires live.monitors == |a.w.rects| && live.monitor == a.w.place[rec.xid].monitor
    ensures PlanDone(a, b, rec, live, essentialOk, ways)
  {
    PlanShape(rec, live, 0);
    if i == |PlanRestore(rec, live)| { PlanShape(rec, live, i - 1); }
    if ways.cooperative && essentialOk && InRange(live.target, b.w) { Finished(a, b, rec, live, ways); }
  }

  // ---- a whole cycle ---------------------------------------------------------------------------------

  predicate Keyed(d: map<Ident, Rec>) {
    forall k | k in d :: d[k].ident == k
  }

  /** Records by process, each under its own. */
  type Records = d: map<Ident, Rec> | Keyed(d) witness map[]

  predicate Returned(rec: Rec, returned: set<string>) {
    rec.output.Some? && rec.output.value in returned
  }

  /** The windows a cycle over these records may touch: those of returned records whose window still is
      that process's. */
  function LiveWindows(d: Records, returned: set<string>, w: World): set<int> {
    set k | k in d && Returned(d[k], returned) && IdentOf(w, d[k].xid) == Some(k) :: d[k].xid
  }

  /** Where a restore cycle starts from and what it works with. */
  datatype Context = Context(d: Records, returned: set<string>, a: Past, table: map<string, int>, ways: Ways)

  /** Records a cycle has handled, and among them those found stale. */
  datatype Tally = Tally(handled: set<Ident>, stale: set<Ident>) {
    function Add(key: Ident, isStale: bool): Tally {
      Tally(handled + {key}, if isStale then stale + {key} else stale)
    }
  }

  /** The windows of the records handled so far. */
  function DoneWindows(c: Context, handled: set<Ident>): set<int> {
    set k | k in handled && k in c.d && IdentOf(c.a.w, c.d[k].xid) == Some(k) :: c.d[k].xid
  }

  function OwnAll(c: Context): set<int> {
    LiveWindows(c.d, c.returned, c.a.w)
  }

  /** The window's state was asked for and not given. */
  ghost predicate Unread(q: seq<Note>, q': seq<Note>, x: int) {
    exists i :: |q| <= i < |q'| && q'[i] == Fetched(x, None)
  }

  /** This geometry was sent to the window, relative to this monitor. */
  ghost predicate Placed(p: seq<Write>, p': seq<Write>, x: int, mon: Rect, geom: Rect) {
    exists i :: |p| <= i < |p'| && p'[i].xid == x && Absolute(p'[i].rel, mon) == geom
  }

  /** A floating record's geometry was sent, if its target is a monitor. */
  ghost predicate GeometryGiven(c: Context, rec: Rec, b: Past) {
    rec.floating && InRange(Target(rec, c.table), c.a.w) ==>
      Placed(c.a.writes, b.writes, rec.xid, c.a.w.rects[Target(rec, c.table).value], rec.geom)
  }

  /** Everything the record asks for was sent, unless a focus was not confirmed or the window could not be read. */
  ghost predicate Executed(c: Context, rec: Rec, b: Past) {
    || Unread(c.a.asked, b.asked, rec.xid) || GaveUp(c.a.asked, b.asked, rec.xid)
    || (&& rec.xid in c.a.w.place && Sent(c.a.log, b.log, rec.xid, Tag(rec.tags)) && GeometryGiven(c, rec, b)
        && (c.a.w.place[rec.xid].floating != rec.floating ==> Sent(c.a.log, b.log, rec.xid, ToggleFloating)))
  }

  /** The moments of a cycle, one after another. */
  predicate Onward(a: Past, b: Past) {
    a.log <= b.log && a.asked <= b.asked && a.writes <= b.writes
  }

  lemma ExecutedStays(c: Context, rec: Rec, b1: Past, b: Past)
    requires Onward(c.a, b1) && Onward(b1, b) && Executed(c, rec, b1)
    ensures Executed(c, rec, b)
  {
    if Unread(c.a.asked, b1.asked, rec.xid) {
      var i :| |c.a.asked| <= i < |b1.asked| && b1.asked[i] == Fetched(rec.xid, None);
      assert b.asked[i] == Fetched(rec.xid, None);
    } else if GaveUp(c.a.asked, b1.asked, rec.xid) {
      GaveUpWithin(c.a.asked, c.a.asked, b1.asked, b.asked, rec.xid);
    } else {
      SentLater(c.a.log, b1.log, b.log, rec.xid, Tag(rec.tags));
      if c.a.w.place[rec.xid].floating != rec.floating { SentLater(c.a.log, b1.log, b.log, rec.xid, ToggleFloating); }
      GivenStays(c, rec, b1, b);
    }
  }

  lemma GivenStays(c: Context, rec: Rec, b1: Past, b: Past)
    requires Onward(b1, b) && GeometryGiven(c, rec, b1)
    ensures GeometryGiven(c, rec, b)
  {
    if rec.floating && InRange(Target(rec, c.table), c.a.w) {
      var mon := c.a.w.rects[Target(rec, c.table).value];
      var i :| |c.a.writes| <= i < |b1.writes| && b1.writes[i].xid == rec.xid && Absolute(b1.writes[i].rel, mon) == rec.geom;
      assert b.writes[i] == b1.writes[i];
    }
  }

  /** The outcome of one handled record, read off the state reached so far. Dropped as stale: its identity was
      read in this cycle and was not the record's. Dropped otherwise: for an accepted tag. Kept by a cooperative
      desk: the guard refused one of its hops. Kept or dropped, everything it asks for was sent, and a cooperative
      desk has given the window its tags and its floating state. */
  ghost predicate Handled(c: Context, rec: Rec, kept: bool, b: Past, stale: bool)
  {
    if stale then
      !kept && StaleRead(c.a.asked, b.asked, rec) && (c.ways.truthful ==> IdentOf(c.a.w, rec.xid) != Some(rec.ident))
    else
      && IdentOf(c.a.w, rec.xid) == Some(rec.ident) && Executed(c, rec, b)
      && (if kept then Hampered(c.a, b, rec.xid) else DropJustified(b.w, c.a.log, b.log, rec, c.table, c.ways.honest))
      && (c.ways.cooperative && rec.xid in c.a.w.place ==> Obtained(c, rec, kept, b))
  }

  /** What a cooperative desk makes of a record of a live window. */
  ghost predicate Obtained(c: Context, rec: Rec, kept: bool, b: Past)
    requires rec.xid in c.a.w.place
  {
    && Marked(b.w, rec) && GeometryGiven(c, rec, b)
    && if kept then HopRefused(c.a, b, rec.xid, Target(rec, c.table), OwnAll(c))
       else InRange(Target(rec, c.table), c.a.w) ==> Home(b.w, rec, Target(rec, c.table).value)
  }

  lemma StoppedFromStart(a: Past, b: Past, c: Past, x: int, target: Option<int>, done: set<int>, xs: set<int>)
    requires Only(a.w, b.w, done) && a.asked <= b.asked && x in a.w.place && x !in done
    requires HopRefused(b, c, x, target, {x}) && done <= xs && x in xs
    ensures HopRefused(a, c, x, target, xs)
  {
    var i: nat :| Stopped(b, c.asked, i, x, target.value, {x});
    OnlyTrans(a.w, b.w, c.asked[i].at, done, {x});
    assert Stopped(a, c.asked, i, x, target.value, xs);
  }

  /** How one record's turn ended. Dropped: its identity did not come back as the record's, or dwm accepted its tags and the
      window was read on its target if that is a monitor. Whatever came of it, everything was sent that is to be sent. */
  ghost predicate Ended(a: Past, b: Past, rec: Rec, target: Option<int>, verdict: Verdict, stale: bool, ways: Ways) {
    if stale then
      && verdict.Drop? && Looked(a, b) && StaleRead(a.asked, b.asked, rec)
      && (ways.truthful ==> IdentOf(a.w, rec.xid) != Some(rec.ident))
    else if verdict.WindowFailed? then
      && IdentOf(a.w, rec.xid) == Some(rec.ident) && Looked(a, b) && Unread(a.asked, b.asked, rec.xid)
      && (ways.cooperative ==> rec.xid !in a.w.place)
    else
      && IdentOf(a.w, rec.xid) == Some(rec.ident) && rec.xid in a.w.place && rec.xid in b.w.place
      && (verdict.Drop? <==> TagAccepted(a.log, b.log, rec) && (InRange(target, a.w) ==> SeenAt(a.asked, b.asked, rec.xid, target)))
      && (verdict.Drop? && ways.honest ==> b.w.place[rec.xid].tags == rec.tags)
      && (verdict.Drop? && InRange(target, a.w) ==> b.w.place[rec.xid].monitor == target.value)
      && AllSent(a, b, rec, target, a.w.place[rec.xid].floating) && (!verdict.Drop? ==> Hampered(a, b, rec.xid))
      && (b.writes == a.writes || (rec.floating && GeometrySent(a, b, rec, target)))
      && (ways.cooperative ==> EndedWell(a, b, rec, target, verdict))
  }

  /** ... and on a cooperative desk. */
  ghost predicate EndedWell(a: Past, b: Past, rec: Rec, target: Option<int>, verdict: Verdict)
    requires rec.xid in a.w.place
  {
    && Marked(b.w, rec) && (rec.floating && InRange(target, a.w) ==> GeometrySent(a, b, rec, target))
    && if verdict.Drop? then InRange(target, a.w) ==> Home(b.w, rec, target.value)
       else HopRefused(a, b, rec.xid, target, {rec.xid})
  }

  /** A plan done after looking at the window. */
  lemma DoneIsEnd(a: Past, a1: Past, b: Past, rec: Rec, live: Live, essentialOk: bool, ways: Ways)
    requires Looked(a, a1) && rec.xid in a.w.place && IdentOf(a.w, rec.xid) == Some(rec.ident)
    requires live.monitor == a.w.place[rec.xid].monitor && live.floating == a.w.place[rec.xid].floating && live.monitors == |a.w.rects|
    requires forall t :: SeenAt(a.asked, a1.asked, rec.xid, t) <==> t == Some(live.monitor)
    requires Touched(a1, b, {rec.xid}) && PlanDone(a1, b, rec, live, essentialOk, ways)
    ensures Ended(a, b, rec, live.target, if essentialOk then Drop else Keep, false, ways)
  {
    SeenSplits(a.asked, a1.asked, b.asked, rec.xid, live.target);
    if !essentialOk { HamperedWithin(a, a1, b, b, rec.xid); }
    if GaveUp(a1.asked, b.asked, rec.xid) { GaveUpWithin(a.asked, a1.asked, b.asked, b.asked, rec.xid); }
    if ways.cooperative && !essentialOk { RefusedSince(a, a1, b, rec.xid, live.target, {rec.xid}); }
  }

  /** The end of a record's turn, seen from the start of the cycle. */
  lemma HandledNow(c: Context, rec: Rec, verdict: Verdict, b1: Past, b: Past, stale: bool, done: set<int>)
    requires Touched(c.a, b1, done) && done <= OwnAll(c) && Onward(b1, b) && b.w.rects == b1.w.rects
    requires rec.ident in c.d && c.d[rec.ident] == rec && Returned(rec, c.returned)
    requires IdentOf(c.a.w, rec.xid) == Some(rec.ident) ==> rec.xid !in done
    requires Ended(b1, b, rec, Target(rec, c.table), verdict, stale, c.ways)
    ensures Handled(c, rec, !verdict.Drop?, b, stale)
  {
    if stale {
      var i :| |b1.asked| <= i < |b.asked| && b.asked[i].Resolved? && b.asked[i].xid == rec.xid && b.asked[i].ident != Some(rec.ident);
      assert |c.a.asked| <= i;
    } else {
      ExecutedNow(c, rec, verdict, b1, b, done);
      if !verdict.Drop? { KeptNow(c, rec, verdict, b1, b, done); }
      if verdict.Drop? { TagAcceptedSplits(c.a.log, b1.log, b.log, rec); }
      if c.ways.cooperative && rec.xid in c.a.w.place { OutcomeNow(c, rec, verdict, b1, b, done); }
    }
  }

  lemma KeptNow(c: Context, rec: Rec, verdict: Verdict, b1: Past, b: Past, done: set<int>)
    requires Touched(c.a, b1, done) && Onward(b1, b) && !verdict.Drop?
    requires Ended(b1, b, rec, Target(rec, c.table), verdict, false, c.ways)
    ensures Hampered(c.a, b, rec.xid)
  {
    if verdict.WindowFailed? {
      var i :| |b1.asked| <= i < |b.asked| && b.asked[i] == Fetched(rec.xid, None);
      assert NoAnswer(b.asked[i]);
    }
    HamperedWithin(c.a, b1, b, b, rec.xid);
  }

  lemma ExecutedNow(c: Context, rec: Rec, verdict: Verdict, b1: Past, b: Past, done: set<int>)
    requires Touched(c.a, b1, done) && Onward(b1, b)
    requires IdentOf(c.a.w, rec.xid) == Some(rec.ident) ==> rec.xid !in done
    requires Ended(b1, b, rec, Target(rec, c.table), verdict, false, c.ways)
    ensures Executed(c, rec, b)
  {
    if verdict.WindowFailed? {
      var i :| |b1.asked| <= i < |b.asked| && b.asked[i] == Fetched(rec.xid, None);
      assert |c.a.asked| <= i;
    } else if GaveUp(b1.asked, b.asked, rec.xid) {
      GaveUpWithin(c.a.asked, b1.asked, b.asked, b.asked, rec.xid);
    } else {
      SentLater(c.a.log, b1.log, b.log, rec.xid, Tag(rec.tags));
      if c.a.w.place[rec.xid].floating != rec.floating { SentLater(c.a.log, b1.log, b.log, rec.xid, ToggleFloating); }
      if rec.floating && InRange(Target(rec, c.table), b1.w) { GivenNow(c, rec, b1, b); }
    }
  }

  lemma GivenNow(c: Context, rec: Rec, b1: Past, b: Past)
    requires b1.w.rects == c.a.w.rects && c.a.writes <= b1.writes && GeometrySent(b1, b, rec, Target(rec, c.table))
    ensures GeometryGiven(c, rec, b)
  {
    assert b.writes[|b1.writes|].xid == rec.xid;
  }

  lemma OutcomeNow(c: Context, rec: Rec, verdict: Verdict, b1: Past, b: Past, done: set<int>)
    requires Touched(c.a, b1, done) && done <= OwnAll(c) && rec.xid in c.a.w.place && c.ways.cooperative
    requires rec.ident in c.d && c.d[rec.ident] == rec && Returned(rec, c.returned)
    requires IdentOf(c.a.w, rec.xid) == Some(rec.ident) && rec.xid !in done
    requires Ended(b1, b, rec, Target(rec, c.table), verdict, false, c.ways)
    ensures Obtained(c, rec, !verdict.Drop?, b)
  {
    if rec.floating && InRange(Target(rec, c.table), b1.w) { GivenNow(c, rec, b1, b); }
    if !verdict.Drop? { StoppedFromStart(c.a, b1, b, rec.xid, Target(rec, c.table), done, OwnAll(c)); }
  }

  /** Touching other windows does not undo it. */
  lemma HandledStays(c: Context, rec: Rec, kept: bool, b1: Past, b: Past, stale: bool, xs: set<int>)
    requires Handled(c, rec, kept, b1, stale)
    requires Only(b1.w, b.w, xs) && (stale || rec.xid !in xs) && Onward(c.a, b1) && Onward(b1, b)
    ensures Handled(c, rec, kept, b, stale)
  {
    if stale {
      StaleReadLater(c.a.asked, b1.asked, b.asked, rec);
    } else {
      ExecutedStays(c, rec, b1, b);
      if kept { HamperedWithin(c.a, c.a, b1, b, rec.xid); }
      if !kept { TagAcceptedSplits(c.a.log, b1.log, b.log, rec); }
      if c.ways.cooperative && rec.xid in c.a.w.place { OutcomeStays(c, rec, kept, b1, b, xs); }
    }
  }

  lemma OutcomeStays(c: Context, rec: Rec, kept: bool, b1: Past, b: Past, xs: set<int>)
    requires rec.xid in c.a.w.place && Obtained(c, rec, kept, b1)
    requires Only(b1.w, b.w, xs) && rec.xid !in xs && Onward(b1, b)
    ensures Obtained(c, rec, kept, b)
  {
    GivenStays(c, rec, b1, b);
    if kept { RefusedLater(c.a, b1, b, rec.xid, Target(rec, c.table), OwnAll(c)); }
  }

  /** A geometry goes to floating records of live windows only, and is theirs, relative to their target. */
  predicate WritesTo(c: Context, k: Ident, e: Write) {
    && k in c.d && c.d[k].floating && IdentOf(c.a.w, c.d[k].xid) == Some(k) && c.d[k].xid == e.xid
    && InRange(Target(c.d[k], c.table), c.a.w)
    && Absolute(e.rel, c.a.w.rects[Target(c.d[k], c.table).value]) == c.d[k].geom
  }

  ghost predicate WritesFloating(c: Context, p: seq<Write>) {
    c.a.writes <= p && forall i | |c.a.writes| <= i < |p| :: WrittenFor(c, p[i])
  }

  ghost predicate WrittenFor(c: Context, e: Write) {
    exists k :: WritesTo(c, k, e)
  }

  /** At most one write more, and that one for this record. */
  predicate OneWrite(c: Context, p1: seq<Write>, p: seq<Write>, key: Ident) {
    p == p1 || (p1 <= p && |p| == |p1| + 1 && WritesTo(c, key, p[|p1|]))
  }

  lemma WritesGrow(c: Context, p1: seq<Write>, p: seq<Write>, key: Ident)
    requires WritesFloating(c, p1) && OneWrite(c, p1, p, key)
    ensures WritesFloating(c, p)
  {
    forall i | |c.a.writes| <= i < |p| ensures WrittenFor(c, p[i]) {
      if i < |p1| { assert p[i] == p1[i]; }
    }
  }

  /** State of a restore cycle: nothing is invented, nothing foreign is dropped, and every record
      handled so far has its outcome. */
  ghost predicate Cycle(c: Context, d: Records, b: Past, t: Tally) {
    && t.stale <= t.handled
    && (forall k | k in d :: k in c.d && d[k] == c.d[k])
    && (forall k | k in c.d && k !in t.handled :: k in d)
    && (forall k | k in t.handled :: Outcome(c, k, k in d, b, t))
  }

  ghost predicate Outcome(c: Context, k: Ident, kept: bool, b: Past, t: Tally)
  {
    k in c.d && Returned(c.d[k], c.returned) && Handled(c, c.d[k], kept, b, k in t.stale)
  }

  lemma CycleTurn(c: Context, d1: Records, d: Records, b1: Past, b: Past, t: Tally, key: Ident, stale: bool)
    requires Onward(c.a, b1) && Onward(b1, b) && Cycle(c, d1, b1, t)
    requires key in c.d && key in d1 && key !in t.handled && Returned(c.d[key], c.returned)
    requires Only(b1.w, b.w, Own(c.a.w, c.d[key]))
    requires d == d1 || d == d1 - {key}
    requires Handled(c, c.d[key], key in d, b, stale)
    ensures Cycle(c, d, b, t.Add(key, stale))
  {
    var t' := t.Add(key, stale);
    forall k | k in t.handled ensures Outcome(c, k, k in d, b, t') {
      assert Outcome(c, k, k in d1, b1, t);
      HandledStays(c, c.d[k], k in d1, b1, b, k in t.stale, Own(c.a.w, c.d[key]));
    }
    assert Outcome(c, key, key in d, b, t');
  }

  /** Giving the focus back undoes nothing. */
  lemma CycleStays(c: Context, d: Records, b1: Past, b: Past, t: Tally)
    requires Onward(c.a, b1) && Onward(b1, b) && Only(b1.w, b.w, {}) && Cycle(c, d, b1, t)
    ensures Cycle(c, d, b, t)
  {
    forall k | k in t.handled ensures Outcome(c, k, k in d, b, t) {
      assert Outcome(c, k, k in d, b1, t);
      HandledStays(c, c.d[k], k in d, b1, b, k in t.stale, {});
    }
  }

  lemma DoneIsOwn(c: Context, handled: set<Ident>)
    requires forall k | k in handled :: k in c.d && Returned(c.d[k], c.returned)
    ensures DoneWindows(c, handled) <= OwnAll(c)
  {
  }

  lemma DoneGrows(c: Context, handled: set<Ident>, key: Ident)
    requires key in c.d && c.d[key].ident == key
    ensures DoneWindows(c, handled) + Own(c.a.w, c.d[key]) == DoneWindows(c, handled + {key})
  {
  }

  /** A shutdown was requested meanwhile. */
  ghost predicate StopSeen(q: seq<Note>, q': seq<Note>) {
    exists i :: |q| <= i < |q'| && q'[i].StopWanted?
  }

  /** Everything a finished cycle guarantees: all returned records are handled, unless a shutdown cut it short. */
  ghost predicate CycleEnd(c: Context, d: Records, b: Past, t: Tally) {
    && Touched(c.a, b, OwnAll(c))
    && Cycle(c, d, b, t)
    && WritesFloating(c, b.writes)
    && (c.ways.cooperative || !StopSeen(c.a.asked, b.asked) ==> forall k | k in c.d && Returned(c.d[k], c.returned) :: k in t.handled)
  }

  datatype Cycled = Cycled(c: Context, t: Tally)

  // ---- baselines ---------------------------------------------------------------------------------------

  function OnOutputs(d: Records, outputs: set<string>): Records {
    map k | k in d && Returned(d[k], outputs) :: d[k]
  }

  predicate ProcessLives(w: World, k: Ident) {
    k.pid in w.procs && w.procs[k.pid] == k.starttime
  }

  /** A record that says what the desktop shows right now, with the output its monitor binds to. */
  ghost predicate CapturedFrom(w: World, outs: map<string, Output>, r: Rec) {
    && r.xid in w.place && r.xid in w.geom && |w.rects| == |w.tagsets| && w.place[r.xid].monitor < |w.rects|
    && IdentOf(w, r.xid) == Some(r.ident)
    && r.tags == w.place[r.xid].tags && r.floating == w.place[r.xid].floating && r.geom == w.geom[r.xid]
    && forall c :: r.output == Some(c) <==> BindsTo(Report(w)[w.place[r.xid].monitor], outs, c)
  }

  ghost predicate AllCaptured(w: World, outs: map<string, Output>, recs: seq<Rec>) {
    forall i | 0 <= i < |recs| :: CapturedFrom(w, outs, recs[i])
  }

  predicate Listed(recs: seq<Rec>, x: int) {
    exists i :: 0 <= i < |recs| && recs[i].xid == x
  }

  lemma ListedMore(a: seq<Rec>, b: seq<Rec>)
    ensures forall x | Listed(a, x) || Listed(b, x) :: Listed(a + b, x)
  {
    forall x | Listed(a, x) || Listed(b, x) ensures Listed(a + b, x) {
      if Listed(a, x) {
        var i :| 0 <= i < |a| && a[i].xid == x;
        assert (a + b)[i].xid == x;
      } else {
        var i :| 0 <= i < |b| && b[i].xid == x;
        assert (a + b)[|a| + i].xid == x;
      }
    }
  }

  /** `{(r.pid, r.starttime): r for r in recs}`: the last record of a process wins. */
  function ByProcess(recs: seq<Rec>): map<Ident, Rec> {
    if recs == [] then map[] else ByProcess(recs[..|recs| - 1])[recs[|recs| - 1].ident := recs[|recs| - 1]]
  }

  lemma {:induction false} ByProcessHolds(recs: seq<Rec>)
    ensures Keyed(ByProcess(recs))
    ensures forall i | 0 <= i < |recs| :: recs[i].ident in ByProcess(recs)
    ensures forall k | k in ByProcess(recs) :: exists i :: 0 <= i < |recs| && recs[i] == ByProcess(recs)[k]
  {
    if recs != [] {
      var n := |recs| - 1;
      ByProcessHolds(recs[..n]);
      forall k | k in ByProcess(recs) ensures exists i :: 0 <= i < |recs| && recs[i] == ByProcess(recs)[k] {
        if k == recs[n].ident {
          assert recs[n] == ByProcess(recs)[k];
        } else {
          var i :| 0 <= i < n && recs[..n][i] == ByProcess(recs[..n])[k];
          assert recs[i] == ByProcess(recs)[k];
        }
      }
      forall i | 0 <= i < |recs| ensures recs[i].ident in ByProcess(recs) {
        if i < n { assert recs[..n][i] == recs[i]; }
      }
    }
  }

  // ---- what a capture makes of the answers it gets ---------------------------------------------------------

  /** The note says which process the window is of, and the next one how the window is. */
  predicate AnsweredAt(q: seq<Note>, i: nat, x: int, k: Ident) {
    i + 1 < |q| && q[i] == Resolved(x, Some(k)) && q[i + 1].Fetched? && q[i + 1].xid == x && q[i + 1].client.Some?
  }

  /** From note `n` on, both of the window's own reads answered, the first with this process. */
  ghost predicate Answered(q: seq<Note>, n: nat, x: int, k: Ident) {
    exists i: nat :: n <= i && AnsweredAt(q, i, x, k)
  }

  /** The window was asked for its process, and if that answered for its state. */
  predicate TriedAt(q: seq<Note>, i: nat, x: int) {
    && i < |q| && q[i].Resolved? && q[i].xid == x
    && (q[i].ident.Some? ==> i + 1 < |q| && q[i + 1].Fetched? && q[i + 1].xid == x)
  }

  ghost predicate Tried(q: seq<Note>, n: nat, x: int) {
    exists i: nat :: n <= i && TriedAt(q, i, x)
  }

  /** The notes one window leaves. */
  function WindowNotes(x: int, ident: Option<Ident>, client: Option<ClientReply>): seq<Note> {
    if ident.None? then [Resolved(x, None)] else [Resolved(x, ident), Fetched(x, client)]
  }

  predicate HasRecord(recs: seq<Rec>, x: int, k: Ident) {
    exists i :: 0 <= i < |recs| && recs[i].xid == x && recs[i].ident == k
  }

  /** The windows recorded are those whose own reads answered since note `n`. */
  ghost predicate RecordsAnswers(recs: seq<Rec>, q: seq<Note>, n: nat) {
    forall x, k {:trigger HasRecord(recs, x, k)} {:trigger Answered(q, n, x, k)} :: HasRecord(recs, x, k) <==> Answered(q, n, x, k)
  }

  lemma AnsweredMore(q: seq<Note>, n: nat, y: int, ident: Option<Ident>, client: Option<ClientReply>, x: int, k: Ident)
    requires n <= |q|
    ensures Answered(q + WindowNotes(y, ident, client), n, x, k)
            <==> Answered(q, n, x, k) || (x == y && ident == Some(k) && client.Some?)
  {
    var q' := q + WindowNotes(y, ident, client);
    if Answered(q, n, x, k) {
      var i: nat :| n <= i && AnsweredAt(q, i, x, k);
      assert AnsweredAt(q', i, x, k);
    }
    if x == y && ident == Some(k) && client.Some? {
      assert AnsweredAt(q', |q|, x, k);
    }
    if Answered(q', n, x, k) {
      var i: nat :| n <= i && AnsweredAt(q', i, x, k);
      if i + 1 < |q| { assert AnsweredAt(q, i, x, k); }
    }
  }

  lemma HasRecordMore(recs: seq<Rec>, rec: Rec, x: int, k: Ident)
    ensures HasRecord(recs + [rec], x, k) <==> HasRecord(recs, x, k) || (rec.xid == x && rec.ident == k)
  {
    var recs' := recs + [rec];
    if HasRecord(recs, x, k) {
      var i :| 0 <= i < |recs| && recs[i].xid == x && recs[i].ident == k;
      assert recs'[i] == recs[i];
    }
    if rec.xid == x && rec.ident == k { assert recs'[|recs|] == rec; }
  }

  /** One more window, recorded if and only if it answered. */
  lemma RecordsMore(recs: seq<Rec>, q: seq<Note>, n: nat, y: int, ident: Option<Ident>, client: Option<ClientReply>, rec: Option<Rec>)
    requires n <= |q| && RecordsAnswers(recs, q, n)
    requires rec.Some? <==> ident.Some? && client.Some?
    requires rec.Some? ==> rec.value.xid == y && Some(rec.value.ident) == ident
    ensures RecordsAnswers(if rec.Some? then recs + [rec.value] else recs, q + WindowNotes(y, ident, client), n)
  {
    var recs' := if rec.Some? then recs + [rec.value] else recs;
    var q' := q + WindowNotes(y, ident, client);
    forall x, k ensures HasRecord(recs', x, k) <==> Answered(q', n, x, k) {
      AnsweredMore(q, n, y, ident, client, x, k);
      if rec.Some? { HasRecordMore(recs, rec.value, x, k); }
    }
  }

  lemma NothingAnswered(q: seq<Note>)
    ensures RecordsAnswers([], q, |q|)
  {
  }

  lemma TriedStays(q: seq<Note>, q': seq<Note>, n: nat, x: int)
    requires q <= q' && Tried(q, n, x)
    ensures Tried(q', n, x)
  {
    var i: nat :| n <= i && TriedAt(q, i, x);
    assert TriedAt(q', i, x);
  }

  /** What a capture makes of its answers, on any desk: `listed` says whether the monitors answered, `read` what the outputs
      did, and the notes from `n` on are what the windows did. A process is in the baseline if and only if both answered and
      so did both reads of some window of it; every window was tried; and every record is that of a window that answered,
      as it is. */
  ghost predicate Taken(w: World, listed: bool, read: Option<map<string, Output>>, q: seq<Note>, n: nat, snapshot: map<Ident, Rec>) {
    && (forall k :: k in snapshot <==> listed && read.Some? && AnsweredForm(q, n, k))
    && (listed && read.Some? ==>
          && (forall k | k in snapshot :: CapturedFrom(w, read.value, snapshot[k]) && snapshot[k].ident == k && Answered(q, n, snapshot[k].xid, k))
          && forall x | x in w.place :: Tried(q, n, x))
  }

  /** Some window of the process answered. */
  ghost predicate AnsweredForm(q: seq<Note>, n: nat, k: Ident) {
    exists x :: Answered(q, n, x, k)
  }

  /** The record still shows its window as it is, and that is the only window of its process. */
  ghost predicate StillShown(w: World, outs: map<string, Output>, r: Rec) {
    CapturedFrom(w, outs, r) && forall y | y in w.place && IdentOf(w, y) == Some(r.ident) :: y == r.xid
  }

  /** What `_safe_capture` promises: whatever fails, no record of the last good baseline is lost while its window is there
      as before. */
  ghost predicate KeepsBaseline(before: Records, after: map<Ident, Rec>, w: World, outs: map<string, Output>) {
    forall k | k in before && StillShown(w, outs, before[k]) :: k in after && after[k] == before[k]
  }

  /** EXACT CONDITION, record by record and on any desk: a record whose window is there as before stays if and only if the
      monitors, the outputs and both reads of that very window answered. */
  lemma BaselineKeptExactly(w: World, listed: bool, read: Option<map<string, Output>>, outs: map<string, Output>,
                            q: seq<Note>, n: nat, before: Records, after: map<Ident, Rec>, k: Ident)
    requires Taken(w, listed, read, q, n, after) && (read.Some? ==> read.value == outs)
    requires k in before && StillShown(w, outs, before[k])
    ensures k in after && after[k] == before[k] <==> listed && read.Some? && Answered(q, n, before[k].xid, k)
  {
    if k in after { OneRecordOnly(w, outs, before[k], after[k]); }
    if Answered(q, n, before[k].xid, k) { assert AnsweredForm(q, n, k); }
  }

  /** Two records of one window at one moment are the same. */
  lemma OneRecordOnly(w: World, outs: map<string, Output>, r: Rec, r': Rec)
    requires StillShown(w, outs, r) && CapturedFrom(w, outs, r') && r'.ident == r.ident
    ensures r' == r
  {
    assert r'.xid == r.xid;
    assert r'.output.Some? ==> r.output == r'.output;
    assert r.output.Some? ==> r'.output == r.output;
  }

  /** The record of the one window of the laptop. */
  function LaptopRecord(): Rec {
    Rec(7, Ident(42, 1000), Some("HDMI-1"), 1, false, Rect(10, 0, 10, 10))
  }

  function LaptopBaseline(): Records {
    map[Ident(42, 1000) := LaptopRecord()]
  }

  lemma LaptopIsShown()
    ensures StillShown(TwoHeads(1), TwoHeads(1).outs, LaptopRecord())
  {
    var w := TwoHeads(1);
    ExternalBinds(w);
    forall c ensures LaptopRecord().output == Some(c) <==> BindsTo(Report(w)[1], w.outs, c) {
      if BindsTo(Report(w)[1], w.outs, c) { OneBinding(Report(w)[1], w.outs, c, "HDMI-1"); }
    }
  }

  lemma OneBinding(m: MonitorReply, outs: map<string, Output>, c: string, d: string)
    requires BindsTo(m, outs, c) && BindsTo(m, outs, d)
    ensures c == d
  {
  }

  /** COUNTEREXAMPLE. One window on the external monitor, as the baseline says, and the monitors do not answer: whatever
      the capture makes of that, its record is gone. */
  lemma BaselineLost(after: map<Ident, Rec>)
    ensures Taken(TwoHeads(1), false, None, [], 0, after) <==> after == map[]
    ensures !KeepsBaseline(LaptopBaseline(), map[], TwoHeads(1), TwoHeads(1).outs)
  {
    LaptopIsShown();
    assert Ident(42, 1000) in LaptopBaseline();
    if Taken(TwoHeads(1), false, None, [], 0, after) { assert forall k :: k !in after; }
  }

  /** COUNTEREXAMPLE. The monitors and the outputs answer, so does the window's process, and then the one read of the window
      itself fails: its record is gone all the same. */
  lemma BaselineLostToOneRead(after: map<Ident, Rec>)
    ensures var q := [Resolved(7, Some(Ident(42, 1000))), Fetched(7, None)];
            Taken(TwoHeads(1), true, Some(TwoHeads(1).outs), q, 0, after) <==> after == map[]
    ensures !KeepsBaseline(LaptopBaseline(), map[], TwoHeads(1), TwoHeads(1).outs)
  {
    var q := [Resolved(7, Some(Ident(42, 1000))), Fetched(7, None)];
    LaptopIsShown();
    assert Ident(42, 1000) in LaptopBaseline();
    assert TriedAt(q, 0, 7);
    if Taken(TwoHeads(1), true, Some(TwoHeads(1).outs), q, 0, after) { assert forall k :: k !in after; }
  }

  /** A snapshot that shows every resolvable window, or another one of the same process, as it is. */
  ghost predicate GoodBaseline(snapshot: Records, w: World) {
    && (forall k | k in snapshot :: CapturedFrom(w, w.outs, snapshot[k]))
    && (forall x | x in w.place && IdentOf(w, x).Some? :: IdentOf(w, x).value in snapshot)
  }

  /** What `_selected_focus` reads off a world. */
  function FocusOf(w: World): Option<(int, int)> {
    if w.sel.Some? && w.sel != Some(0) then Some((w.selmon, w.sel.value)) else None
  }

  lemma ReportScreens(w: World)
    ensures Screens(Report(w), w) && DistinctNums(Report(w))
  {
  }

  // ---- a settle ------------------------------------------------------------------------------------------

  /** What the coordinator remembers between settles. */
  datatype Ledger = Ledger(displaced: Records, snapshot: Records, focus: Option<(int, int)>, present: Option<set<string>>)

  /** What one settle did: nothing, the first baseline, or an edge. `outs` is what it read, `recorded` the displaced
      map after recording, `after` and `mid` the displaced map and the state of things after the restore cycle. */
  datatype Settle =
    | Idle
    | Seeded(outs: map<string, Output>)
    | Edge(outs: map<string, Output>, removed: set<string>, returned: set<string>,
           recorded: Records, cycle: Option<Cycled>, after: Records, mid: Past)

  /** Meanwhile dwm was asked for its monitors and did not answer. */
  ghost predicate Unlisted(q: seq<Note>, q': seq<Note>) {
    exists i :: |q| <= i < |q'| && q'[i].NoMonitors?
  }

  /** Without a cycle nothing happened, and if something had come back it was because dwm did not answer; with one, it worked
      on these records against the real connector table. */
  ghost predicate CycleResult(s: Settle, a: Past, ways: Ways)
    requires s.Edge?
  {
    match s.cycle
    case None => s.after == s.recorded && Looked(a, s.mid) && (s.returned != {} ==> Unlisted(a.asked, s.mid.asked))
    case Some(Cycled(c, t)) =>
      && Looked(a, c.a) && c == Context(s.recorded, s.returned, c.a, c.table, ways)
      && TableOf(c.table, Report(a.w), s.outs)
      && CycleEnd(c, s.after, s.mid, t)
  }

  /** A record swept on a settle that removed nothing: its process was looked up and was not there. */
  ghost predicate Swept(s: Settle, k: Ident, b: Past, ways: Ways)
    requires s.Edge?
  {
    s.removed == {} && SweptRead(s.mid.asked, b.asked, k) && (ways.truthful ==> !ProcessLives(b.w, k))
  }

  /** No displaced record appears from nowhere, and none disappears except by a justified drop of the cycle
      or by the sweep. */
  ghost predicate Conserved(s: Settle, d: Records, a: Past, b: Past, ways: Ways)
    requires s.Edge?
  {
    && d.Items <= s.after.Items && s.after.Items <= s.recorded.Items
    && Looked(s.mid, b) && CycleResult(s, a, ways)
    && forall k | k in s.after && k !in d :: Swept(s, k, b, ways)
  }

  /** The steady-state focus is back, or at least its monitor if the window is gone. */
  predicate GivenBack(focus: Option<(int, int)>, w: World) {
    focus.Some? ==>
      if focus.value.1 in w.place then w.sel == Some(focus.value.1)
      else 0 <= focus.value.0 < |w.rects| ==> w.selmon == focus.value.0
  }

  /** A cooperative desk is read as it is, every return edge is worked on, and a focus that was taken is given back. */
  ghost predicate Exactly(s: Settle, focus: Option<(int, int)>, a: Past)
    requires s.Edge?
  {
    && s.outs == a.w.outs && (s.returned != {} ==> s.cycle.Some?)
    && (a.focus < s.mid.focus ==> GivenBack(focus, s.mid.w))
  }

  /** dwm could be reached, and then the outputs were read, and this is what they were. */
  predicate ReadFirst(a: Past, b: Past, outs: map<string, Output>) {
    |a.asked| + 1 < |b.asked| && b.asked[|a.asked|] == Reached(true) && b.asked[|a.asked| + 1] == Outs(Some(outs))
  }

  lemma ReadStaysFirst(a: Past, b: Past, c: Past, outs: map<string, Output>)
    requires ReadFirst(a, b, outs) && b.asked <= c.asked
    ensures ReadFirst(a, c, outs)
  {
  }

  /** dwm could not be reached, or the outputs could not be read. */
  predicate TurnedAway(a: Past, b: Past) {
    && |a.asked| < |b.asked| && b.asked[|a.asked|].Reached?
    && (b.asked[|a.asked|].available ==> |a.asked| + 1 < |b.asked| && b.asked[|a.asked| + 1] == Outs(None))
  }

  /** What one settle did to the ledger and to the desktop. */
  ghost predicate Settles(s: Settle, p: Ledger, q: Ledger, a: Past, b: Past, ways: Ways) {
    match s
    case Idle => q == p && Looked(a, b)
    case Seeded(outs) =>
      && p.present.None? && q.present == Some(Lit(outs)) && q.displaced == p.displaced
      && Looked(a, b) && ReadFirst(a, b, outs) && Fresh(p, q, a, b, ways)
      && (ways.cooperative ==> outs == a.w.outs)
    case Edge(outs, removed, returned, recorded, _, after, _) =>
      && p.present.Some? && q.present == Some(Lit(outs)) && ReadFirst(a, b, outs)
      && removed == p.present.value - Lit(outs) && returned == Lit(outs) - p.present.value
      && recorded == p.displaced + OnOutputs(p.snapshot, removed)
      && Conserved(s, q.displaced, a, b, ways)
      && (if removed == {} then Fresh(p, q, a, b, ways) else q.snapshot == p.snapshot && q.focus == p.focus && q.displaced == after)
      && (ways.cooperative ==> Exactly(s, p.focus, a))
  }

  /** The notes from `n` on are those of a capture, and this is what it made of them. */
  ghost predicate CapturedAt(p: Ledger, q: Ledger, w: World, asked: seq<Note>, n: nat) {
    && n < |asked|
    && if asked[n].NoMonitors? then Taken(w, false, None, asked, n + 1, q.snapshot) && q.focus == p.focus
       else
         && asked[n] == Monitors(w) && n + 1 < |asked| && asked[n + 1].Outs?
         && Taken(w, true, asked[n + 1].read, asked, n + 2, q.snapshot) && q.focus == FocusOf(w)
  }

  /** A new baseline: on any desk exactly what answered, on a cooperative one everything. */
  ghost predicate Fresh(p: Ledger, q: Ledger, a: Past, b: Past, ways: Ways) {
    && (exists n: nat :: |a.asked| <= n && CapturedAt(p, q, b.w, b.asked, n))
    && (ways.cooperative ==> GoodBaseline(q.snapshot, b.w) && q.focus == FocusOf(b.w))
  }

  /** An edge up to the end of its restore cycle. */
  ghost predicate EdgeDone(s: Settle, p: Ledger, q: Ledger, a: Past, b: Past, ways: Ways) {
    && s.Edge? && p.present.Some? && q.present == Some(Lit(s.outs)) && ReadFirst(a, b, s.outs)
    && s.removed == p.present.value - Lit(s.outs) && s.returned == Lit(s.outs) - p.present.value
    && s.recorded == p.displaced + OnOutputs(p.snapshot, s.removed) && s.after.Items <= s.recorded.Items
    && q == Ledger(s.after, p.snapshot, p.focus, q.present) && b == s.mid
    && CycleResult(s, a, ways) && (ways.cooperative ==> Exactly(s, p.focus, a))
  }

  /** ... and after a sweep and a new baseline. */
  lemma EdgeRefreshed(s: Settle, p: Ledger, q: Ledger, q': Ledger, a: Past, b: Past, c: Past, ways: Ways)
    requires EdgeDone(s, p, q, a, b, ways) && s.removed == {} && a.asked <= b.asked
    requires Looked(b, c) && Fresh(p, q', b, c, ways) && q'.present == q.present && q'.displaced.Items <= q.displaced.Items
    requires forall k | k in q.displaced && k !in q'.displaced ::
               SweptRead(b.asked, c.asked, k) && (ways.truthful ==> !ProcessLives(c.w, k))
    ensures Settles(s, p, q', a, c, ways)
  {
    FreshLater(p, q', a, b, c, ways);
  }

  /** Of the ledger before, a capture only looks at the focus. */
  lemma FreshFor(p: Ledger, p': Ledger, q: Ledger, a: Past, b: Past, ways: Ways)
    requires Fresh(p, q, a, b, ways) && p'.focus == p.focus
    ensures Fresh(p', q, a, b, ways)
  {
    var n: nat :| |a.asked| <= n && CapturedAt(p, q, b.w, b.asked, n);
    assert CapturedAt(p', q, b.w, b.asked, n);
  }

  lemma FreshLater(p: Ledger, q: Ledger, a: Past, b: Past, c: Past, ways: Ways)
    requires a.asked <= b.asked && Fresh(p, q, b, c, ways)
    ensures Fresh(p, q, a, c, ways)
  {
    var n: nat :| |b.asked| <= n && CapturedAt(p, q, c.w, c.asked, n);
  }

  lemma HandledAreReturned(c: Context, d: Records, b: Past, t: Tally)
    requires Cycle(c, d, b, t)
    ensures forall k | k in t.handled :: k in c.d && Returned(c.d[k], c.returned)
  {
    forall k | k in t.handled ensures k in c.d && Returned(c.d[k], c.returned) {
      assert Outcome(c, k, k in d, b, t);
    }
  }

  lemma SweptReadsStay(q: seq<Note>, q1: seq<Note>, q': seq<Note>, ks: set<Ident>)
    requires q <= q1 <= q' && forall k | k in ks :: SweptRead(q, q1, k)
    ensures forall k | k in ks :: SweptRead(q, q', k)
  {
    forall k | k in ks ensures SweptRead(q, q', k) {
      SweptReadLater(q, q1, q', k);
    }
  }

  /** A hop of the selected monitor touches no window. */
  lemma FocusMoves(a: World, b: World)
    requires b == a || Performed(a, FocusMon(1), b)
    ensures Only(a, b, {})
  {
  }

  /** A cooperative desk, and a target that exists elsewhere. */
  predicate OnTheWay(a: Past, ways: Ways, x: int, target: int) {
    ways.cooperative && x in a.w.place && 0 <= target < |a.w.rects| && a.w.place[x].monitor != target
  }

  /** `i` turns, each with its focus request and its hop. */
  predicate Walked(a: Past, b: Past, x: int, i: nat) {
    && |b.log| == |a.log| + i && b.focus == a.focus + i
    && x in a.w.place && x in b.w.place && b.w.place[x].floating == a.w.place[x].floating
  }

  /** After `i` hops the window is `i` hops nearer and not there yet. */
  predicate Underway(w0: World, w: World, x: int, target: int, i: nat)
    requires 0 <= target < |w.rects| == |w0.rects|
  {
    && x in w0.place && x in w.place && w.place[x].monitor != target
    && Hops(w.place[x].monitor, target, |w.rects|) + i == Hops(w0.place[x].monitor, target, |w.rects|)
  }

  predicate OnlyHops(l: seq<Command>, l': seq<Command>, x: int) {
    l <= l' && forall i | |l| <= i < |l'| :: l'[i].verb.Tagmon? && l'[i].owner == x
  }

  /** What one turn of the hop loop read of its window: where it was, and at last where it landed. */
  ghost predicate ReadOnTheWay(a: Past, q: seq<Note>, x: int, hop: Hop)
    requires x in a.w.place
  {
    && (hop.Landed? ==> SeenAt(a.asked, q, x, Some(hop.monitor)))
    && forall t: int :: SeenAt(a.asked, q, x, Some(t)) ==> t == a.w.place[x].monitor || (hop.Landed? && hop.monitor == t)
  }

  /** Before the hop every read of the window showed it where it was. */
  lemma ReadInTwo(a: Past, b: Past, q: seq<Note>, x: int, hop: Hop)
    requires x in a.w.place && a.asked <= b.asked <= q && b.w.place == a.w.place && FetchedTruly(a.asked, b.asked, b.w)
    requires forall t: int :: SeenAt(b.asked, q, x, Some(t)) <==> hop.Landed? && hop.monitor == t
    ensures ReadOnTheWay(a, q, x, hop)
  {
    forall t: int ensures SeenAt(a.asked, q, x, Some(t)) ==> t == a.w.place[x].monitor || (hop.Landed? && hop.monitor == t) {
      SeenSplits(a.asked, b.asked, q, x, Some(t));
    }
    if hop.Landed? { SeenSplits(a.asked, b.asked, q, x, Some(hop.monitor)); }
  }

  /** A window that began elsewhere has not been read on the target, and is not there. */
  ghost predicate Unseen(a: Past, b: Past, x: int, target: int) {
    x in a.w.place && x in b.w.place && a.w.place[x].monitor != target ==>
      b.w.place[x].monitor != target && !SeenAt(a.asked, b.asked, x, Some(target))
  }

  /** Nothing but forward hops of the selected monitor was sent, and none from the target. */
  predicate OnlyForward(l: seq<Command>, l': seq<Command>, target: int) {
    l <= l' && forall i | |l| <= i < |l'| :: l'[i].verb == FocusMon(1) && l'[i].before.selmon != target
  }

  lemma ForwardTrans(a: seq<Command>, b: seq<Command>, c: seq<Command>, target: int)
    requires OnlyForward(a, b, target) && OnlyForward(b, c, target)
    ensures OnlyForward(a, c, target)
  {
    forall i | |a| <= i < |c| ensures c[i].verb == FocusMon(1) && c[i].before.selmon != target {
      if i < |b| { assert c[i] == b[i]; }
    }
  }

  lemma OneHopNearer(cur: nat, target: nat, n: nat)
    requires cur < n && target < n && cur != target
    ensures Hops(DirToMon(cur, n, 1), target, n) + 1 == Hops(cur, target, n)
  {
    RingStep(cur, n, 1);
  }

  /** Walking the selected monitor, with the focus counted as asked for. */
  lemma WalkTouches(a: Past, b: Past)
    requires Only(a.w, b.w, {}) && Grown(a.log, b.log, {}) && b == a.(w := b.w, log := b.log, focus := b.focus, asked := b.asked)
    requires b.focus > a.focus && a.asked <= b.asked
    ensures Touched(a, b, {})
  {
  }

  /** What `_selected_focus` answers is the focus of the world. */
  lemma FocusRead(w: World, r: Option<(int, int)>)
    requires r.None? <==> forall i | 0 <= i < |Report(w)| :: !HasSelection(Report(w)[i])
    requires r.Some? ==> exists i: nat :: Foremost(Report(w), i) && r.value == (Report(w)[i].num, Report(w)[i].selected.value)
    ensures r == FocusOf(w)
  {
    if r.Some? {
      var i: nat :| Foremost(Report(w), i) && r.value == (Report(w)[i].num, Report(w)[i].selected.value);
      assert i == w.selmon;
    } else {
      assert !HasSelection(Report(w)[w.selmon]);
    }
  }

  /** Asking for the focus touches no window. */
  lemma RefocusTouches(a: Past, b: Past)
    requires Refocused(a.w, b.w) && b == a.(w := b.w, focus := b.focus, asked := b.asked) && b.focus > a.focus && a.asked <= b.asked
    ensures Touched(a, b, {})
  {
  }

  lemma BaselineFrom(w: World, outs: map<string, Output>, recs: seq<Rec>)
    requires AllCaptured(w, outs, recs)
    ensures forall k | k in ByProcess(recs) :: CapturedFrom(w, outs, ByProcess(recs)[k])
    ensures forall x | Listed(recs, x) && IdentOf(w, x).Some? :: IdentOf(w, x).value in ByProcess(recs)
  {
    ByProcessHolds(recs);
    forall k | k in ByProcess(recs) ensures CapturedFrom(w, outs, ByProcess(recs)[k]) {
      var i :| 0 <= i < |recs| && recs[i] == ByProcess(recs)[k];
    }
    forall x | Listed(recs, x) && IdentOf(w, x).Some? ensures IdentOf(w, x).value in ByProcess(recs) {
      var i :| 0 <= i < |recs| && recs[i].xid == x;
      assert recs[i].ident in ByProcess(recs);
    }
  }

  /** A capture that got its two replies. */
  lemma TakenFrom(w: World, outs: map<string, Output>, q: seq<Note>, n: nat, recs: seq<Rec>)
    requires AllCaptured(w, outs, recs) && RecordsAnswers(recs, q, n) && forall x | x in w.place :: Tried(q, n, x)
    ensures Taken(w, true, Some(outs), q, n, ByProcess(recs))
  {
    ByProcessHolds(recs);
    BaselineFrom(w, outs, recs);
    forall k ensures k in ByProcess(recs) <==> AnsweredForm(q, n, k) {
      if AnsweredForm(q, n, k) {
        var x :| Answered(q, n, x, k);
        assert HasRecord(recs, x, k);
        var i :| 0 <= i < |recs| && recs[i].xid == x && recs[i].ident == k;
        assert recs[i].ident in ByProcess(recs);
      }
      if k in ByProcess(recs) { RecordAnswered(q, n, recs, k); }
    }
    forall k | k in ByProcess(recs) ensures Answered(q, n, ByProcess(recs)[k].xid, k) { RecordAnswered(q, n, recs, k); }
  }

  lemma RecordAnswered(q: seq<Note>, n: nat, recs: seq<Rec>, k: Ident)
    requires RecordsAnswers(recs, q, n) && k in ByProcess(recs)
    ensures ByProcess(recs)[k].ident == k && Answered(q, n, ByProcess(recs)[k].xid, k)
  {
    ByProcessHolds(recs);
    var i :| 0 <= i < |recs| && recs[i] == ByProcess(recs)[k];
    assert HasRecord(recs, recs[i].xid, k);
  }

  class Coordinator {
    const desk: Desk
    const configEnabled: bool
    var displaced: Records
    var snapshot: Records
    var snapshotFocus: Option<(int, int)>
    var focusCalls: nat
    var prevPresent: Option<set<string>>

    constructor (desk: Desk, configEnabled: bool)
      ensures this.desk == desk && this.configEnabled == configEnabled
      ensures displaced == map[] && snapshot == map[] && snapshotFocus == None
      ensures focusCalls == 0 && prevPresent == None
    {
      this.desk, this.configEnabled := desk, configEnabled;
      displaced, snapshot, snapshotFocus := map[], map[], None;
      focusCalls, prevPresent := 0, None;
    }

    ghost function Now(): Past
      reads this, desk
    {
      Past(desk.w, desk.log, focusCalls, desk.writes, desk.asked)
    }

    ghost function Books(): Ledger
      reads this
    {
      Ledger(displaced, snapshot, snapshotFocus, prevPresent)
    }

    /** One poll of the selection; None when dwm did not answer. */
    method Glimpse(xid: int) returns (seen: Option<bool>)
      modifies desk`w, desk`asked
      ensures Refocused(old(desk.w), desk.w) && (desk.ways.cooperative ==> desk.w == old(desk.w) && seen.Some?)
      ensures desk.asked == old(desk.asked) + [if seen.Some? then Monitors(desk.w) else NoMonitors]
      ensures seen.Some? ==> (seen.value <==> desk.w.sel == Some(xid))
    {
      desk.Drift();
      var reply := desk.GetMonitors();
      if reply.None? { return None; }
      ReportShowsSelection(desk.w, xid);
      var confirmed := SelectedConfirmed(reply.value, xid);
      seen := Some(confirmed);
    }

    /** `_focus_and_confirm`: true only if dwm was read back with this very window selected. */
    method FocusAndConfirm(xid: int) returns (ok: bool)
      modifies this`focusCalls, desk`w, desk`asked
      ensures Refocused(old(desk.w), desk.w)
      ensures focusCalls == old(focusCalls) + 1 && old(desk.asked) <= desk.asked
      ensures ok ==> desk.w.sel == Some(xid) && JustListed(old(desk.asked), desk.asked, desk.w)
      ensures !ok ==> GaveUp(old(desk.asked), desk.asked, xid)
      ensures |old(desk.asked)| < |desk.asked| && desk.asked[|old(desk.asked)|] == FocusWanted(xid)
      ensures Unfetched(old(desk.asked), desk.asked)
      ensures desk.ways.cooperative && xid in old(desk.w.place) ==> ok
    {
      ghost var n := |desk.asked|;
      desk.Focus(xid);
      focusCalls := focusCalls + 1;
      for k := 0 to FOCUS_CONFIRM_TRIES
        invariant Refocused(old(desk.w), desk.w) && focusCalls == old(focusCalls) + 1
        invariant old(desk.asked) <= desk.asked && |desk.asked| == n + 1 + k && desk.asked[n] == FocusWanted(xid)
        invariant forall m | n < m < |desk.asked| :: NotSelected(desk.asked[m], xid)
        invariant desk.ways.cooperative && xid in old(desk.w.place) ==> k == 0 && desk.w.sel == Some(xid)
      {
        var seen := Glimpse(xid);
        if seen.None? {
          NeverConfirmed(old(desk.asked), desk.asked, k + 1, xid);
          return false;
        }
        if seen.value {
          assert desk.asked[n + 1 + k] == Monitors(desk.w);
          return true;
        }
      }
      NeverConfirmed(old(desk.asked), desk.asked, 6, xid);
      return false;
    }

    /** `_read_monitor_states`: None over budget or when a read failed. */
    method ReadMonitorStates(mons: seq<MonitorReply>) returns (r: Option<seq<MonitorState>>)
      requires mons == Report(desk.w)
      modifies desk`asked
      ensures old(desk.asked) <= desk.asked
      ensures r.Some? ==> r.value == States(desk.w)
      ensures r.None? <==> |desk.w.place| > 64 || Doubtful(old(desk.asked), desk.asked)
      ensures desk.ways.cooperative ==> !Doubtful(old(desk.asked), desk.asked)
      ensures FetchedTruly(old(desk.asked), desk.asked, desk.w)
    {
      TotalIsWindows(desk.w);
      var total := TotalListed(mons);
      if total > GUARD_CLIENT_BUDGET { return None; }
      var states := [];
      for i := 0 to |mons|
        invariant !Doubtful(old(desk.asked), desk.asked)
        invariant states == States(desk.w)[..i] && old(desk.asked) <= desk.asked && FetchedTruly(old(desk.asked), desk.asked, desk.w)
      {
        ghost var q := desk.asked;
        var clients := ReadClients(mons[i].all);
        FetchedOn(old(desk.asked), q, desk.asked, desk.w);
        DoubtSplits(old(desk.asked), q, desk.asked);
        if clients.None? { return None; }
        OneStateMore(desk.w, i);
        states := states + [MonitorState(mons[i].num, mons[i].tagset, clients.value)];
      }
      return Some(states);
    }

    method ReadClients(xs: seq<int>) returns (r: Option<seq<ClientState>>)
      requires forall k | 0 <= k < |xs| :: xs[k] in desk.w.place
      modifies desk`asked
      ensures old(desk.asked) <= desk.asked
      ensures r.Some? ==> r.value == StatesOf(xs, desk.w.place)
      ensures r.None? <==> Doubtful(old(desk.asked), desk.asked)
      ensures desk.ways.cooperative ==> r.Some?
      ensures FetchedTruly(old(desk.asked), desk.asked, desk.w)
    {
      var clients := [];
      for j := 0 to |xs|
        invariant !Doubtful(old(desk.asked), desk.asked)
        invariant clients == StatesOf(xs, desk.w.place)[..j] && old(desk.asked) <= desk.asked && FetchedTruly(old(desk.asked), desk.asked, desk.w)
      {
        ghost var q := desk.asked;
        var c := desk.GetClient(xs[j]);
        DoubtSplits(old(desk.asked), q, desk.asked);
        assert desk.asked[|q|] == Fetched(xs[j], c);
        if c.None? { return None; }
        clients := clients + [ClientState(xs[j], c.value.place.tags, c.value.place.floating)];
      }
      return Some(clients);
    }

    /** `_tagmon_would_crash_dwm`: on any desk the hop is refused exactly when a read is not answered, when there are more
        than 64 windows, or when the crash predicate says so of the state as it is. */
    method TagmonWouldCrash(xid: int, direction: int) returns (r: bool)
      modifies desk`asked
      ensures old(desk.asked) <= desk.asked && (desk.ways.cooperative ==> JustListed(old(desk.asked), desk.asked, desk.w))
      ensures Doubtful(old(desk.asked), desk.asked) || JustListed(old(desk.asked), desk.asked, desk.w)
      ensures r <==> Doubtful(old(desk.asked), desk.asked) || CrashRisk(States(desk.w), xid, direction) || |desk.w.place| > 64
      ensures desk.ways.cooperative ==> (r <==> CrashRisk(States(desk.w), xid, direction) || |desk.w.place| > 64)
      ensures FetchedTruly(old(desk.asked), desk.asked, desk.w)
    {
      var reply := desk.GetMonitors();
      ghost var q := desk.asked;
      assert q[|old(desk.asked)|] == if reply.Some? then Monitors(desk.w) else NoMonitors;
      if reply.None? { return true; }
      var states := ReadMonitorStates(reply.value);
      DoubtSplits(old(desk.asked), q, desk.asked);
      if states.None? { return true; }
      return CrashRisk(states.value, xid, direction);
    }

    /** Focus and confirm, then ask the guard about the state the hop would run in. */
    method Approach(xid: int, direction: int) returns (stop: Option<Hop>)
      requires xid in desk.w.place && direction == 1
      modifies this`focusCalls, desk`w, desk`asked
      ensures Refocused(old(desk.w), desk.w)
      ensures focusCalls == old(focusCalls) + 1 && old(desk.asked) <= desk.asked
      ensures desk.ways.cooperative && stop.Some? ==> JustListed(old(desk.asked), desk.asked, desk.w)
      ensures stop.None? ==> desk.w.sel == Some(xid) && !MightCrash(desk.w, direction)
      ensures stop.Some? ==> stop.value.Unfocused? || stop.value.Refused?
      ensures stop == Some(Refused) ==> desk.w.sel == Some(xid)
      ensures desk.ways.cooperative ==> stop != Some(Unfocused) && (stop.Some? <==> GuardSaysNo(desk.w, xid))
      ensures stop == Some(Unfocused) ==> GaveUp(old(desk.asked), desk.asked, xid)
      ensures FetchedTruly(old(desk.asked), desk.asked, desk.w)
      ensures stop == Some(Refused) ==> Doubtful(old(desk.asked), desk.asked) || RefusalRead(old(desk.asked), desk.asked, xid)
    {
      var ok := FocusAndConfirm(xid);
      if !ok { return Some(Unfocused); }
      ghost var q := desk.asked;
      var risky := TagmonWouldCrash(xid, direction);
      if risky {
        RefusalIsRead(old(desk.asked), q, desk.asked, desk.w, xid);
        return Some(Refused);
      }
      GuardCoversAll(desk.w, xid, direction);
      return None;
    }

    /** One turn of the hop loop: approach, hop, read the window back. */
    method HopOnce(xid: int, direction: int) returns (hop: Hop)
      requires direction == 1 && xid in desk.w.place && |desk.w.rects| >= 2
      modifies this`focusCalls, desk`w, desk`log, desk`asked
      ensures Touched(old(Now()), Now(), {xid})
      ensures |desk.log| == |old(desk.log)| + (if hop.Unfocused? || hop.Refused? then 0 else 1)
      ensures OnlyHops(old(desk.log), desk.log, xid) && (hop.Landed? || Hampered(old(Now()), Now(), xid))
      ensures hop.Unfocused? ==> GaveUp(old(desk.asked), desk.asked, xid)
      ensures ReadOnTheWay(old(Now()), desk.asked, xid, hop)
      ensures focusCalls == old(focusCalls) + 1
      ensures desk.w.place[xid].floating == old(desk.w.place[xid].floating)
      ensures hop.Landed? ==> desk.w.place[xid].monitor == hop.monitor
      ensures hop.Refused? ==> desk.w.sel == Some(xid) && desk.w.place[xid].monitor == old(desk.w.place[xid].monitor)
      ensures desk.ways.cooperative ==>
                if hop.Refused? then GuardSaysNo(desk.w, xid) && JustListed(old(desk.asked), desk.asked, desk.w)
                else hop == Landed(DirToMon(old(desk.w.place[xid].monitor), |desk.w.rects|, 1))
    {
      var stop := Approach(xid, direction);
      if stop.Some? { return stop.value; }
      ghost var b := Now();
      hop := Hopped(xid, direction);
      ActTouches(old(Now()), b.w, Now(), xid);
      ReadInTwo(old(Now()), b, desk.asked, xid, hop);
      if !hop.Landed? { HamperedWithin(old(Now()), b, Now(), Now(), xid); }
    }

    /** The hop itself, and the look where it went. */
    method Hopped(xid: int, direction: int) returns (hop: Hop)
      requires direction == 1 && xid in desk.w.place && |desk.w.rects| >= 2 && desk.w.sel == Some(xid) && !MightCrash(desk.w, 1)
      modifies desk`w, desk`log, desk`asked
      ensures Only(old(desk.w), desk.w, {xid}) && Grown(old(desk.log), desk.log, {xid}) && OnlyHops(old(desk.log), desk.log, xid)
      ensures |desk.log| == |old(desk.log)| + 1 && old(desk.asked) <= desk.asked && (hop.NotTaken? || hop.Landed?)
      ensures desk.w.place[xid].floating == old(desk.w.place[xid].floating)
      ensures hop.Landed? ==> desk.w.place[xid].monitor == hop.monitor
      ensures forall t: int :: SeenAt(old(desk.asked), desk.asked, xid, Some(t)) <==> hop.Landed? && hop.monitor == t
      ensures desk.ways.cooperative ==> hop == Landed(DirToMon(old(desk.w.place[xid].monitor), |desk.w.rects|, 1))
      ensures hop.Landed? || TurnedDown(old(desk.log), desk.log, xid) || Doubtful(old(desk.asked), desk.asked)
    {
      ghost var before, n := desk.w, |desk.asked|;
      var reply := desk.Run(Tagmon(direction), xid);
      assert desk.log[|old(desk.log)|] == Command(Tagmon(direction), xid, before, reply);
      OneHop(before, desk.w, xid);
      hop := NotTaken(!reply.Rejected?);
      if reply.Accepted? {
        var c := desk.GetClient(xid);
        assert desk.asked[n] == Fetched(xid, c) && (c.None? ==> NoAnswer(desk.asked[n]));
        if c.Some? {
          hop := Landed(c.value.place.monitor);
          assert ShowsAt(desk.asked[n], xid, c.value.place.monitor);
        }
      }
    }

    /** One turn of the walk that began at `a`: `more` says whether it goes on. */
    method WalkOn(x: int, direction: int, target: int, ghost i: nat, ghost a: Past) returns (status: Status, more: bool)
      requires direction == 1 && x in desk.w.place && |desk.w.rects| >= 2
      requires Touched(a, Now(), {x}) && Walked(a, Now(), x, i)
      requires OnTheWay(a, desk.ways, x, target) ==> Underway(a.w, desk.w, x, target, i)
      requires Unseen(a, Now(), x, target) && OnlyHops(a.log, desk.log, x)
      modifies this`focusCalls, desk`w, desk`log, desk`asked
      ensures OnlyHops(a.log, desk.log, x) && (more || status.Arrived? || Hampered(a, Now(), x))
      ensures (status.FocusLost? ==> GaveUp(a.asked, desk.asked, x)) && (more ==> Unseen(a, Now(), x, target))
      ensures a.w.place[x].monitor != target ==> (status.Arrived? <==> SeenAt(a.asked, desk.asked, x, Some(target)))
      ensures Touched(a, Now(), {x}) && focusCalls == old(focusCalls) + 1
      ensures if more then Walked(a, Now(), x, i + 1) && status.Failed? else |desk.log| <= |a.log| + i + 1
      ensures desk.w.place[x].floating == a.w.place[x].floating
      ensures status.Arrived? ==> !more && desk.w.place[x].monitor == target
      ensures OnTheWay(a, desk.ways, x, target) ==>
                if more then Underway(a.w, desk.w, x, target, i + 1)
                else if status.Arrived? then |desk.log| == |a.log| + Hops(a.w.place[x].monitor, target, |desk.w.rects|)
                else status.Failed? && HopRefused(a, Now(), x, Some(target), {x})
    {
      ghost var b := Now();
      var hop := HopOnce(x, direction);
      TouchedTrans(a, b, Now(), {x}, {x});
      assert {x} + {x} == {x};
      if OnTheWay(a, desk.ways, x, target) { OneHopNearer(b.w.place[x].monitor, target, |desk.w.rects|); }
      status := After(hop, target);
      more := hop.Landed? && !status.Arrived?;
      SeenSplits(a.asked, b.asked, desk.asked, x, Some(target));
      if hop.Unfocused? { GaveUpWithin(a.asked, b.asked, desk.asked, desk.asked, x); }
      if !hop.Landed? { HamperedWithin(a, b, Now(), Now(), x); }
      if OnTheWay(a, desk.ways, x, target) && hop.Refused? {
        RefusedHere(a, b.asked, Now(), x, target);
      }
    }

    /** `_tagmon_to_target`. In every environment: at most `n` hops, each forward, confirmed and guarded,
        and `Arrived` only if the last read said so. On a cooperative desk the walk takes exactly
        (target - current) mod n hops, unless the guard refuses one: then the window is where it was refused. */
    method TagmonToTarget(rec: Rec, direction: int, target: int, n: nat) returns (status: Status)
      requires direction == 1 && rec.xid in desk.w.place && n == |desk.w.rects| >= 2
      modifies this`focusCalls, desk`w, desk`log, desk`asked
      ensures Touched(old(Now()), Now(), {rec.xid})
      ensures |desk.log| <= |old(desk.log)| + n
      ensures focusCalls > old(focusCalls)
      ensures desk.w.place[rec.xid].floating == old(desk.w.place[rec.xid].floating)
      ensures status.Arrived? ==> desk.w.place[rec.xid].monitor == target
      ensures old(desk.w.place[rec.xid].monitor) != target ==> (status.Arrived? <==> SeenAt(old(desk.asked), desk.asked, rec.xid, Some(target)))
      ensures OnlyHops(old(desk.log), desk.log, rec.xid) && (status.Arrived? || Hampered(old(Now()), Now(), rec.xid))
      ensures status.FocusLost? ==> GaveUp(old(desk.asked), desk.asked, rec.xid)
      ensures desk.ways.cooperative && 0 <= target < n && old(desk.w.place[rec.xid].monitor) != target ==>
                if status.Arrived? then |desk.log| == |old(desk.log)| + Hops(old(desk.w.place[rec.xid].monitor), target, n)
                else status.Failed? && HopRefused(old(Now()), Now(), rec.xid, Some(target), {rec.xid})
    {
      ghost var a := Now();
      status := Failed;
      for i := 0 to n
        invariant status.Failed? && Touched(a, Now(), {rec.xid}) && Walked(a, Now(), rec.xid, i)
        invariant OnTheWay(a, desk.ways, rec.xid, target) ==> Underway(a.w, desk.w, rec.xid, target, i)
        invariant Unseen(a, Now(), rec.xid, target) && OnlyHops(a.log, desk.log, rec.xid)
      {
        var more;
        status, more := WalkOn(rec.xid, direction, target, i, a);
        if !more { return; }
      }
      assert HopsFrom(desk.log, |a.log|, n, rec.xid);
    }

    /** Focus, then one verb on the selected window; None when the focus was not confirmed. */
    method FocusedRun(x: int, verb: Verb) returns (reply: Option<Reply>)
      requires x in desk.w.place && (verb.Tag? || verb.ToggleFloating?)
      modifies this`focusCalls, desk`w, desk`log, desk`asked
      ensures Touched(old(Now()), Now(), {x}) && Unfetched(old(desk.asked), desk.asked) && desk.writes == old(desk.writes)
      ensures reply.None? ==> GaveUp(old(desk.asked), desk.asked, x) && desk.log == old(desk.log) && desk.w.place == old(desk.w.place)
      ensures reply.Some? ==> Ran(old(Now()), Now(), x, verb, reply.value, desk.ways)
      ensures desk.ways.cooperative ==> reply == Some(Accepted)
    {
      var ok := FocusAndConfirm(x);
      if !ok { return None; }
      ghost var before := desk.w;
      var answer := desk.Run(verb, x);
      OneStep(before, verb, desk.w, x);
      ActTouches(old(Now()), before, Now(), x);
      assert desk.log[|old(desk.log)|] == Command(verb, x, before, answer);
      reply := Some(answer);
    }

    /** `_step_tag`. */
    method StepTag(rec: Rec, tags: Tags) returns (r: StepResult)
      requires rec.xid in desk.w.place && tags == rec.tags
      modifies this`focusCalls, desk`w, desk`log, desk`asked
      ensures Touched(old(Now()), Now(), {rec.xid}) && Unfetched(old(desk.asked), desk.asked)
      ensures Allowed(SetTags(tags), old(desk.w.place[rec.xid]), desk.w.place[rec.xid], desk.ways.cooperative)
      ensures TagAccepted(old(desk.log), desk.log, rec) <==> r.Done? && r.accepted
      ensures (r.Done? && r.accepted) || Hampered(old(Now()), Now(), rec.xid)
      ensures r.Done? && r.accepted && desk.ways.honest ==> desk.w.place[rec.xid].tags == tags
      ensures if r.Done? && r.abort then !r.accepted && GaveUp(old(desk.asked), desk.asked, rec.xid)
              else Sent(old(desk.log), desk.log, rec.xid, Tag(rec.tags))
      ensures desk.ways.cooperative ==> r == Done(true, false)
    {
      var reply := FocusedRun(rec.xid, Tag(tags));
      if reply.None? { return Done(false, true); }
      return if reply.value.Unavailable? then Threw else Done(reply.value.Accepted?, false);
    }

    /** `_step_togglefloating`: cosmetic, its acceptance is not tracked. */
    method StepToggle(rec: Rec) returns (r: StepResult)
      requires rec.xid in desk.w.place
      modifies this`focusCalls, desk`w, desk`log, desk`asked
      ensures Touched(old(Now()), Now(), {rec.xid}) && Unfetched(old(desk.asked), desk.asked)
      ensures Allowed(Toggle, old(desk.w.place[rec.xid]), desk.w.place[rec.xid], desk.ways.cooperative)
      ensures !TagAccepted(old(desk.log), desk.log, rec)
      ensures if r.Done? && r.abort then !r.accepted && GaveUp(old(desk.asked), desk.asked, rec.xid)
              else Sent(old(desk.log), desk.log, rec.xid, ToggleFloating)
      ensures desk.ways.cooperative ==> r == Done(true, false)
    {
      var reply := FocusedRun(rec.xid, ToggleFloating);
      if reply.None? { return Done(false, true); }
      return if reply.value.Unavailable? then Threw else Done(true, false);
    }

    /** Focus, then send the geometry. */
    method FocusedConfigure(x: int, rel: Rect) returns (ok: bool)
      requires x in desk.w.place
      modifies this`focusCalls, desk`w, desk`writes, desk`asked
      ensures Touched(old(Now()), Now(), {x}) && desk.w.place == old(desk.w.place) && Unfetched(old(desk.asked), desk.asked)
      ensures desk.writes == if ok then old(desk.writes) + [Write(x, rel)] else old(desk.writes)
      ensures !ok ==> GaveUp(old(desk.asked), desk.asked, x)
      ensures desk.ways.cooperative ==> ok
      ensures ok && desk.ways.cooperative && Placeable(desk.w, x, rel) ==>
                desk.w.geom[x] == Absolute(rel, desk.w.rects[desk.w.place[x].monitor])
    {
      ghost var a := Now();
      ok := FocusAndConfirm(x);
      ghost var before := desk.w;
      if ok { desk.Configure(x, rel); }
      ActTouches(a, before, Now(), x);
    }

    /** `_step_configure`: without the target's origin the geometry is skipped, never guessed. */
    method StepConfigure(rec: Rec, geom: Rect, target: Option<int>, mons: seq<MonitorReply>) returns (r: StepResult)
      requires rec.xid in desk.w.place && Screens(mons, desk.w) && geom == rec.geom
      modifies this`focusCalls, desk`w, desk`writes, desk`asked
      ensures Touched(old(Now()), Now(), {rec.xid}) && Unfetched(old(desk.asked), desk.asked)
      ensures Allowed(Configure(geom), old(desk.w.place[rec.xid]), desk.w.place[rec.xid], desk.ways.cooperative)
      ensures desk.writes == old(desk.writes) || GeometrySent(old(Now()), Now(), rec, target)
      ensures if r.Done? && r.abort then !r.accepted && GaveUp(old(desk.asked), desk.asked, rec.xid)
              else InRange(target, desk.w) ==> GeometrySent(old(Now()), Now(), rec, target)
      ensures desk.ways.cooperative ==> r == Done(true, false)
      ensures desk.ways.cooperative && InRange(target, desk.w) && desk.w.place[rec.xid].floating
              && desk.w.place[rec.xid].monitor == target.value && Fits(geom, desk.w.rects[target.value]) ==>
                desk.w.geom[rec.xid] == geom
    {
      if InRange(target, desk.w) { GeometryRoundTrip(mons, desk.w, geom, target.value); }
      var origin := MonitorOrigin(mons, target);
      if origin.None? { return Done(true, false); }
      KnownOrigin(mons, desk.w, target);
      var ok := FocusedConfigure(rec.xid, ToRelative(geom, origin.value));
      return if ok then Done(true, false) else Done(false, true);
    }

    /** `_step_tagmon`. */
    method StepTagmon(rec: Rec, direction: int, target: Option<int>) returns (r: StepResult)
      requires rec.xid in desk.w.place && direction == 1 && |desk.w.rects| >= 2 && target.Some?
      requires desk.w.place[rec.xid].monitor != target.value
      modifies this`focusCalls, desk`w, desk`log, desk`asked
      ensures Touched(old(Now()), Now(), {rec.xid})
      ensures Allowed(MoveOneHop(direction), old(desk.w.place[rec.xid]), desk.w.place[rec.xid], desk.ways.cooperative)
      ensures r.Done? && r.accepted ==> target == Some(desk.w.place[rec.xid].monitor)
      ensures SeenAt(old(desk.asked), desk.asked, rec.xid, target) <==> r.Done? && r.accepted
      ensures OnlyHops(old(desk.log), desk.log, rec.xid) && ((r.Done? && r.accepted) || Hampered(old(Now()), Now(), rec.xid))
      ensures r.Done? && r.abort ==> !r.accepted && GaveUp(old(desk.asked), desk.asked, rec.xid)
      ensures desk.ways.cooperative && InRange(target, old(desk.w)) ==>
                r == Done(true, false) || (r == Done(false, false) && HopRefused(old(Now()), Now(), rec.xid, target, {rec.xid}))
    {
      var status := TagmonToTarget(rec, direction, target.value, |desk.w.rects|);
      r := if status.Raised? then Threw else Done(status.Arrived?, status.FocusLost?);
    }

    /** `_run_restore_action`. */
    method RunAction(rec: Rec, action: Action, target: Option<int>, mons: seq<MonitorReply>) returns (r: StepResult)
      requires rec.xid in desk.w.place && Screens(mons, desk.w)
      requires action.MoveOneHop? ==> action.direction == 1 && |desk.w.rects| >= 2 && target.Some? && desk.w.place[rec.xid].monitor != target.value
      requires (action.SetTags? ==> action.tags == rec.tags) && (action.Configure? ==> action.geom == rec.geom)
      modifies this`focusCalls, desk`w, desk`log, desk`writes, desk`asked
      ensures Touched(old(Now()), Now(), {rec.xid})
      ensures Acted(rec, action, target, old(Now()), Now(), r, desk.ways)
    {
      match action
      case MoveOneHop(d) => r := StepTagmon(rec, d, target);
      case SetTags(t) => r := StepTag(rec, t);
      case Toggle => r := StepToggle(rec);
      case Configure(g) => r := StepConfigure(rec, g, target, mons);
    }

    /** The `i`-th action of the plan. */
    method RunPlanned(rec: Rec, live: Live, mons: seq<MonitorReply>, i: nat) returns (r: StepResult)
      requires rec.xid in desk.w.place && Screens(mons, desk.w)
      requires live.monitors == |mons| && i < |PlanRestore(rec, live)| && (i == 0 ==> desk.w.place[rec.xid].monitor == live.monitor)
      modifies this`focusCalls, desk`w, desk`log, desk`writes, desk`asked
      ensures Touched(old(Now()), Now(), {rec.xid})
      ensures Acted(rec, PlanRestore(rec, live)[i], live.target, old(Now()), Now(), r, desk.ways)
    {
      PlannedIsRunnable(rec, live, i);
      r := RunAction(rec, PlanRestore(rec, live)[i], live.target, mons);
    }

    /** One turn of the action loop that began at `a`, with its per-step guard. */
    method TakeAction(rec: Rec, live: Live, mons: seq<MonitorReply>, i: nat, sofar: bool, ghost a: Past)
      returns (essentialOk: bool, abort: bool)
      requires rec.xid in a.w.place && rec.xid in desk.w.place && Screens(mons, desk.w)
      requires live.monitors == |mons| && i < |PlanRestore(rec, live)|
      requires UpTo(a, Now(), rec, live, i, sofar, false, desk.ways)
      modifies this`focusCalls, desk`w, desk`log, desk`writes, desk`asked
      ensures UpTo(a, Now(), rec, live, i + 1, essentialOk, abort, desk.ways)
    {
      ghost var b := Now();
      var r := RunPlanned(rec, live, mons, i);
      essentialOk := sofar && !Sinks(PlanRestore(rec, live)[i], r);
      abort := r.Done? && r.abort;
      UpToMore(a, b, Now(), rec, live, i, sofar, desk.ways, r);
    }

    /** The action loop of `_restore_one`. A rejected, lost or raised essential step (move, tag) sinks the
        restore; an unconfirmed focus ends it, and nothing else does. On a cooperative desk only a refused hop sinks it,
        and even then the window gets its tags, its floating state and its geometry. */
    method ExecutePlan(rec: Rec, live: Live, mons: seq<MonitorReply>) returns (essentialOk: bool)
      requires rec.xid in desk.w.place && Screens(mons, desk.w)
      requires live.monitors == |mons|
      requires live.monitor == desk.w.place[rec.xid].monitor && live.floating == desk.w.place[rec.xid].floating
      modifies this`focusCalls, desk`w, desk`log, desk`writes, desk`asked
      ensures Touched(old(Now()), Now(), {rec.xid})
      ensures PlanDone(old(Now()), Now(), rec, live, essentialOk, desk.ways)
    {
      essentialOk := true;
      ghost var a := Now();
      var n := |PlanRestore(rec, live)|;
      var abort := false;
      var i := 0;
      while i < n && !abort
        invariant i <= n && UpTo(a, Now(), rec, live, i, essentialOk, abort, desk.ways)
      {
        essentialOk, abort := TakeAction(rec, live, mons, i, essentialOk, a);
        i := i + 1;
      }
      PlanEnds(a, Now(), rec, live, i, essentialOk, abort, desk.ways);
    }

    /** The record's window: whether it still is that process's, and if so how it is. */
    method LookAt(rec: Rec) returns (known: bool, client: Option<ClientReply>)
      modifies desk`asked
      ensures old(desk.asked) <= desk.asked && (!known ==> StaleRead(old(desk.asked), desk.asked, rec))
      ensures known ==> IdentOf(desk.w, rec.xid) == Some(rec.ident)
      ensures !known && desk.ways.truthful ==> IdentOf(desk.w, rec.xid) != Some(rec.ident)
      ensures client.Some? ==> rec.xid in desk.w.place && client.value == ClientReply(desk.w.place[rec.xid], desk.w.geom[rec.xid])
      ensures client.Some? ==> forall t :: SeenAt(old(desk.asked), desk.asked, rec.xid, t) <==> t == Some(client.value.place.monitor)
      ensures known && client.None? ==> Unread(old(desk.asked), desk.asked, rec.xid)
      ensures known && rec.xid in desk.w.place && desk.ways.cooperative ==> client.Some?
    {
      client := None;
      ghost var n := |desk.asked|;
      var identity := desk.ResolvePid(rec.xid);
      assert desk.asked[n] == Resolved(rec.xid, identity);
      known := identity == Some(rec.ident);
      if known {
        client := desk.GetClient(rec.xid);
        assert desk.asked[n + 1] == Fetched(rec.xid, client);
        if client.Some? { assert ShowsAt(desk.asked[n + 1], rec.xid, client.value.place.monitor); }
      }
    }

    /** `_restore_one`. The window's identity is read once; unless it comes back as the record's the record is
        dropped with no control call at all. Otherwise "drop" means exactly that dwm accepted the tags on this very window
        and it was read back on its monitor; a cooperative desk keeps a record only for a refused hop. Dropped or kept,
        the window got everything the record asks for unless a focus was not confirmed. */
    method RestoreOne(rec: Rec, mons: seq<MonitorReply>, table: map<string, int>) returns (verdict: Verdict, ghost stale: bool)
      requires Screens(mons, desk.w)
      modifies this`focusCalls, desk`w, desk`log, desk`writes, desk`asked
      ensures Touched(old(Now()), Now(), Own(old(desk.w), rec))
      ensures Ended(old(Now()), Now(), rec, Target(rec, table), verdict, stale, desk.ways)
    {
      ghost var a := Now();
      var known, client := LookAt(rec);
      stale := !known;
      if !known { return Drop, stale; }
      if client.None? { return WindowFailed, stale; }
      var live := Live(Target(rec, table), client.value.place.monitor, client.value.place.floating, |mons|);
      ghost var b := Now();
      var essentialOk := ExecutePlan(rec, live, mons);
      verdict := if essentialOk then Drop else Keep;
      LookedFirst(a, b, Now(), {rec.xid});
      DoneIsEnd(a, b, Now(), rec, live, essentialOk, desk.ways);
    }

    /** One forward hop of the selected monitor; None ends the walk. */
    method FocusmonHop(ghost target: int) returns (again: Option<seq<MonitorReply>>)
      requires |desk.w.rects| >= 2 && desk.w.selmon != target
      modifies desk`w, desk`log, desk`asked
      ensures Only(old(desk.w), desk.w, {}) && Grown(old(desk.log), desk.log, {})
      ensures |desk.log| == |old(desk.log)| + 1 && OnlyForward(old(desk.log), desk.log, target) && old(desk.asked) <= desk.asked
      ensures again.Some? ==> again.value == Report(desk.w)
      ensures desk.ways.cooperative ==> again.Some? && desk.w.selmon == DirToMon(old(desk.w.selmon), |desk.w.rects|, 1)
    {
      var reply := desk.Run(FocusMon(1), 0);
      FocusMoves(old(desk.w), desk.w);
      if !reply.Accepted? { return None; }
      again := desk.GetMonitors();
    }

    /** `_focusmon_to`: forward hops of the selected monitor until it reads as the target, at most one per
        monitor; on a cooperative desk exactly the distance to a target that exists. */
    method FocusmonTo(target: int, mons: seq<MonitorReply>)
      requires mons == Report(desk.w)
      modifies desk`w, desk`log, desk`asked
      ensures Only(old(desk.w), desk.w, {}) && Grown(old(desk.log), desk.log, {})
      ensures |desk.log| <= |old(desk.log)| + |mons|
      ensures OnlyForward(old(desk.log), desk.log, target) && old(desk.asked) <= desk.asked
      ensures old(desk.w.selmon) == target ==> desk.log == old(desk.log)
      ensures desk.ways.cooperative && 0 <= target < |mons| ==>
                desk.w.selmon == target && |desk.log| == |old(desk.log)| + Hops(old(desk.w.selmon), target, |mons|)
    {
      if |mons| < 2 { return; }
      var n := |mons|;
      var now := mons;
      ghost var w0, l0 := desk.w, desk.log;
      ghost var walk := desk.ways.cooperative && 0 <= target < n;
      for i := 0 to n
        invariant Only(w0, desk.w, {}) && Grown(l0, desk.log, {}) && |desk.log| == |l0| + i
        invariant now == Report(desk.w)
        invariant OnlyForward(l0, desk.log, target) && old(desk.asked) <= desk.asked
        invariant if i == 0 then desk.w == w0 && desk.log == l0 else w0.selmon != target
        invariant walk ==> Hops(desk.w.selmon, target, n) + i == Hops(w0.selmon, target, n)
      {
        ReportShowsMonitor(desk.w);
        if SelectedMonitor(now) == Some(target) { return; }
        ghost var w1, l1 := desk.w, desk.log;
        var again := FocusmonHop(target);
        OnlyTrans(w0, w1, desk.w, {}, {});
        GrownTrans(l0, l1, desk.log, {}, {});
        ForwardTrans(l0, l1, desk.log, target);
        if walk { OneHopNearer(w1.selmon, target, n); }
        if again.None? { return; }
        now := again.value;
      }
    }

    /** Focus the window again if it is still there, else walk back to its monitor. */
    method GiveBack(num: int, xid: int, mons: seq<MonitorReply>)
      requires mons == Report(desk.w)
      modifies this`focusCalls, desk`w, desk`log, desk`asked
      ensures Touched(old(Now()), Now().(focus := focusCalls + 1), {})
      ensures focusCalls >= old(focusCalls)
      ensures desk.ways.cooperative ==> GivenBack(Some((num, xid)), desk.w)
      ensures old(desk.asked) <= desk.asked && (xid in old(desk.w.place) ==> AskedFor(old(desk.asked), desk.asked, xid))
    {
      ghost var a := Now();
      ReportShowsWindows(desk.w);
      if xid in AllXids(mons) {
        var _ := FocusAndConfirm(xid);
        RefocusTouches(a, Now().(focus := focusCalls + 1));
      } else {
        FocusmonTo(num, mons);
        WalkTouches(a, Now().(focus := focusCalls + 1));
      }
    }

    /** `_restore_focus`: give the steady-state focus back, or at least its monitor. */
    method RestoreFocus(prev: Option<(int, int)>)
      modifies this`focusCalls, desk`w, desk`log, desk`asked
      ensures Touched(old(Now()), Now().(focus := focusCalls + 1), {})
      ensures focusCalls >= old(focusCalls)
      ensures desk.ways.cooperative ==> GivenBack(prev, desk.w)
      ensures AskedBack(old(desk.asked), desk.asked, prev, old(desk.w))
    {
      ghost var a := Now();
      if prev.Some? {
        var reply := desk.GetMonitors();
        assert reply.None? ==> NoAnswer(desk.asked[|a.asked|]);
        if reply.Some? {
          ghost var b := Now();
          GiveBack(prev.value.0, prev.value.1, reply.value);
          LookedFirst(a, b, Now().(focus := focusCalls + 1), {});
        }
      }
    }

    /** One record of the restore loop. */
    method RestoreNext(key: Ident, mons: seq<MonitorReply>, table: map<string, int>, ghost c: Context, ghost done: set<int>)
      returns (ghost stale: bool)
      requires Screens(mons, desk.w)
      requires Touched(c.a, Now(), done) && done <= OwnAll(c)
      requires c.table == table && c.ways == desk.ways
      requires key in displaced && key in c.d && c.d[key] == displaced[key] && Returned(c.d[key], c.returned)
      requires IdentOf(c.a.w, c.d[key].xid) == Some(key) ==> c.d[key].xid !in done
      modifies this`focusCalls, this`displaced, desk`w, desk`log, desk`writes, desk`asked
      ensures Touched(old(Now()), Now(), Own(c.a.w, c.d[key]))
      ensures displaced == old(displaced) || displaced == old(displaced) - {key}
      ensures Handled(c, c.d[key], key in displaced, Now(), stale)
      ensures OneWrite(c, old(desk.writes), desk.writes, key)
    {
      var rec := displaced[key];
      ghost var b1 := Now();
      var verdict;
      verdict, stale := RestoreOne(rec, mons, table);
      if verdict.Drop? { displaced := displaced - {key}; }
      HandledNow(c, rec, verdict, b1, Now(), stale, done);
    }

    /** One record of the restore loop, with the books of the whole cycle. */
    method RestoreTurn(key: Ident, mons: seq<MonitorReply>, table: map<string, int>, ghost c: Context, ghost t: Tally)
      returns (ghost t': Tally)
      requires Screens(mons, desk.w)
      requires c.table == table && c.ways == desk.ways
      requires key in c.d && key in displaced && key !in t.handled && Returned(c.d[key], c.returned)
      requires Cycle(c, displaced, Now(), t) && Touched(c.a, Now(), DoneWindows(c, t.handled))
      modifies this`focusCalls, this`displaced, desk`w, desk`log, desk`writes, desk`asked
      ensures Screens(mons, desk.w)
      ensures t'.handled == t.handled + {key}
      ensures Cycle(c, displaced, Now(), t') && Touched(c.a, Now(), DoneWindows(c, t'.handled))
      ensures displaced == old(displaced) || displaced == old(displaced) - {key}
      ensures OneWrite(c, old(desk.writes), desk.writes, key)
    {
      ghost var b1, d1, done := Now(), displaced, DoneWindows(c, t.handled);
      HandledAreReturned(c, displaced, b1, t);
      DoneIsOwn(c, t.handled);
      ghost var stale := RestoreNext(key, mons, table, c, done);
      TouchedTrans(c.a, b1, Now(), done, Own(c.a.w, c.d[key]));
      DoneGrows(c, t.handled, key);
      t' := t.Add(key, stale);
      CycleTurn(c, d1, displaced, b1, Now(), t, key, stale);
    }

    /** The loop of `_restore_returned`, over the records in any order. A shutdown request leaves the rest displaced. */
    method RestoreLoop(mons: seq<MonitorReply>, table: map<string, int>, returned: set<string>, ghost c: Context)
      returns (ghost t: Tally)
      requires Screens(mons, desk.w)
      requires c == Context(displaced, returned, c.a, table, desk.ways) && Looked(c.a, Now())
      modifies this`focusCalls, this`displaced, desk`w, desk`log, desk`writes, desk`asked
      ensures Screens(mons, desk.w) && CycleEnd(c, displaced, Now(), t)
    {
      var records := displaced;
      var todo := records.Keys;
      t := Tally({}, {});
      while todo != {}
        invariant Screens(mons, desk.w)
        invariant todo <= records.Keys && todo !! t.handled && todo <= displaced.Keys
        invariant Cycle(c, displaced, Now(), t) && Touched(c.a, Now(), DoneWindows(c, t.handled))
        invariant forall k | k in c.d && k !in todo && Returned(c.d[k], returned) :: k in t.handled
        invariant WritesFloating(c, desk.writes)
        decreases |todo|
      {
        ghost var b1 := Now();
        var stop := desk.StopRequested();
        TouchedThenLooked(c.a, b1, Now(), DoneWindows(c, t.handled));
        CycleStays(c, displaced, b1, Now(), t);
        if stop {
          assert desk.asked[|b1.asked|].StopWanted?;
          break;
        }
        var key :| key in todo;
        todo := todo - {key};
        if Returned(records[key], returned) {
          ghost var p1 := desk.writes;
          t := RestoreTurn(key, mons, table, c, t);
          WritesGrow(c, p1, desk.writes, key);
        }
      }
      HandledAreReturned(c, displaced, Now(), t);
      DoneIsOwn(c, t.handled);
      TouchedMore(c.a, Now(), DoneWindows(c, t.handled), OwnAll(c));
    }

    /** The end of a cycle: the focus goes back only if this cycle took it. */
    method GiveFocusBack(entry: nat, prev: Option<(int, int)>, ghost c: Context, ghost t: Tally)
      requires desk.ways == c.ways && entry == c.a.focus
      requires CycleEnd(c, displaced, Now(), t)
      modifies this`focusCalls, desk`w, desk`log, desk`asked
      ensures CycleEnd(c, displaced, Now(), t)
      ensures desk.ways.cooperative && focusCalls > entry ==> GivenBack(prev, desk.w)
      ensures old(focusCalls) > entry ==> AskedBack(old(desk.asked), desk.asked, prev, old(desk.w))
    {
      if focusCalls > entry {
        ghost var b1 := Now();
        RestoreFocus(prev);
        TouchedTrans(c.a, b1, Now().(focus := focusCalls + 1), OwnAll(c), {});
        assert OwnAll(c) + {} == OwnAll(c);
        CycleStays(c, displaced, b1, Now(), t);
      }
    }

    /** The loop, then the focus. */
    method RestoreCycle(mons: seq<MonitorReply>, table: map<string, int>, returned: set<string>, ghost c: Context)
      returns (ghost t: Tally)
      requires Screens(mons, desk.w)
      requires c == Context(displaced, returned, c.a, table, desk.ways) && Looked(c.a, Now())
      modifies this`focusCalls, this`displaced, desk`w, desk`log, desk`writes, desk`asked
      ensures CycleEnd(c, displaced, Now(), t)
      ensures desk.ways.cooperative && focusCalls > old(focusCalls) ==> GivenBack(snapshotFocus, desk.w)
    {
      var prevFocus := snapshotFocus;
      var entry := focusCalls;
      t := RestoreLoop(mons, table, returned, c);
      GiveFocusBack(entry, prevFocus, c, t);
    }

    /** `_restore_returned`. `cycle` is None when dwm was gone at cycle entry. */
    method RestoreReturned(returned: set<string>, outs: map<string, Output>) returns (ghost cycle: Option<Cycled>)
      modifies this`focusCalls, this`displaced, desk`w, desk`log, desk`writes, desk`asked
      ensures old(desk.asked) <= desk.asked
      ensures cycle.None? ==> displaced == old(displaced) && Looked(old(Now()), Now()) && Unlisted(old(desk.asked), desk.asked)
      ensures cycle.Some? ==>
                && cycle.value.c == Context(old(displaced), returned, old(Now()), cycle.value.c.table, desk.ways)
                && TableOf(cycle.value.c.table, Report(old(desk.w)), outs)
                && CycleEnd(cycle.value.c, displaced, Now(), cycle.value.t)
      ensures desk.ways.cooperative ==> cycle.Some?
      ensures desk.ways.cooperative && focusCalls > old(focusCalls) ==> GivenBack(snapshotFocus, desk.w)
    {
      ghost var a := Now();
      var reply := desk.GetMonitors();
      if reply.None? {
        assert desk.asked[|a.asked|].NoMonitors?;
        return None;
      }
      ReportScreens(desk.w);
      var table := ConnectorTable(reply.value, outs);
      ghost var c := Context(displaced, returned, a, table, desk.ways);
      ghost var t := RestoreCycle(reply.value, table, returned, c);
      return Some(Cycled(c, t));
    }

    /** `_record_displaced`: every snapshot record on a removed output becomes a displaced record. */
    method RecordDisplaced(removed: set<string>)
      modifies this`displaced
      ensures displaced == old(displaced) + OnOutputs(snapshot, removed)
    {
      var todo := snapshot.Keys;
      ghost var d0 := displaced;
      while todo != {}
        invariant todo <= snapshot.Keys
        invariant displaced == d0 + map k | k in snapshot && k !in todo && Returned(snapshot[k], removed) :: snapshot[k]
        decreases |todo|
      {
        var key :| key in todo;
        todo := todo - {key};
        if Returned(snapshot[key], removed) {
          displaced := displaced[key := snapshot[key]];
        }
      }
    }

    /** `_sweep_displaced`: every record is looked up; one is dropped exactly when its process did not come
        back as it was, so with a truthful `/proc` exactly the dead go, whatever dwm does. */
    method SweepDisplaced()
      modifies this`displaced, desk`asked
      ensures old(desk.asked) <= desk.asked
      ensures forall k | k in displaced :: k in old(displaced) && displaced[k] == old(displaced)[k] && ProcessLives(desk.w, k)
      ensures forall k | k in old(displaced) && k !in displaced :: SweptRead(old(desk.asked), desk.asked, k)
      ensures forall k | k in displaced :: FoundRead(old(desk.asked), desk.asked, k)
      ensures desk.ways.truthful ==> forall k | k in old(displaced) && ProcessLives(desk.w, k) :: k in displaced
    {
      var records := displaced;
      var todo := records.Keys;
      ghost var q0 := desk.asked;
      while todo != {}
        invariant todo <= displaced.Keys <= records.Keys && q0 <= desk.asked
        invariant forall k | k in displaced :: displaced[k] == records[k]
        invariant forall k | k in displaced && k !in todo :: ProcessLives(desk.w, k)
        invariant forall k | k in records && k !in displaced :: SweptRead(q0, desk.asked, k)
        invariant forall k | k in displaced && k !in todo :: FoundRead(q0, desk.asked, k)
        invariant desk.ways.truthful ==> forall k | k in records && ProcessLives(desk.w, k) :: k in displaced
        decreases |todo|
      {
        var key :| key in todo;
        todo := todo - {key};
        ghost var q1 := desk.asked;
        var starttime := desk.ReadProc(records[key].ident.pid);
        SweptReadsStay(q0, q1, desk.asked, records.Keys - displaced.Keys);
        FoundReadsStay(q0, q1, desk.asked, displaced.Keys - todo - {key});
        assert desk.asked[|q1|] == Started(key.pid, starttime);
        if starttime != Some(records[key].ident.starttime) {
          displaced := displaced - {key};
        }
      }
    }

    /** One window of the capture: resolve, read, associate by the monitor the READ reports. It is recorded if and only if
        both its reads answer. */
    method CaptureOne(xid: int, mapping: map<int, Option<string>>, mons: seq<MonitorReply>, ghost outs: map<string, Output>)
      returns (rec: Option<Rec>, ghost ident: Option<Ident>, ghost answer: Option<ClientReply>)
      requires mons == Report(desk.w) && xid in desk.w.place
      requires forall num :: num in mapping <==> exists i :: 0 <= i < |mons| && mons[i].num == num
      requires forall i, c | 0 <= i < |mons| :: mapping[mons[i].num] == Some(c) <==> BindsTo(mons[i], outs, c)
      modifies desk`asked
      ensures desk.asked == old(desk.asked) + WindowNotes(xid, ident, answer)
      ensures rec.Some? <==> ident.Some? && answer.Some?
      ensures rec.Some? ==> rec.value.xid == xid && Some(rec.value.ident) == ident && CapturedFrom(desk.w, outs, rec.value)
      ensures desk.ways.cooperative && IdentOf(desk.w, xid).Some? ==> rec.Some?
    {
      answer := None;
      var identity := desk.ResolvePid(xid);
      ident := identity;
      if identity.None? { return None, ident, answer; }
      var client := desk.GetClient(xid);
      answer := client;
      if client.None? { return None, ident, answer; }
      var place := client.value.place;
      var connector := None;
      assert mons[place.monitor].num == place.monitor;
      if place.monitor in mapping { connector := mapping[place.monitor]; }
      rec := Some(Rec(xid, identity.value, connector, place.tags, place.floating, client.value.geom));
    }

    /** One window, with the books of the whole capture. */
    method CaptureNext(xid: int, mapping: map<int, Option<string>>, mons: seq<MonitorReply>, recs: seq<Rec>, ghost outs: map<string, Output>, ghost n: nat)
      returns (more: seq<Rec>)
      requires mons == Report(desk.w) && xid in desk.w.place
      requires forall num :: num in mapping <==> exists i :: 0 <= i < |mons| && mons[i].num == num
      requires forall i, c | 0 <= i < |mons| :: mapping[mons[i].num] == Some(c) <==> BindsTo(mons[i], outs, c)
      requires n <= |desk.asked| && AllCaptured(desk.w, outs, recs) && RecordsAnswers(recs, desk.asked, n)
      modifies desk`asked
      ensures old(desk.asked) <= desk.asked && AllCaptured(desk.w, outs, more) && RecordsAnswers(more, desk.asked, n)
      ensures Tried(desk.asked, n, xid) && forall x | Listed(recs, x) :: Listed(more, x)
      ensures desk.ways.cooperative && IdentOf(desk.w, xid).Some? ==> Listed(more, xid)
    {
      var rec;
      ghost var ident, answer;
      rec, ident, answer := CaptureOne(xid, mapping, mons, outs);
      assert TriedAt(desk.asked, |old(desk.asked)|, xid);
      RecordsMore(recs, old(desk.asked), n, xid, ident, answer, rec);
      more := recs;
      if rec.Some? {
        ListedMore(recs, [rec.value]);
        assert [rec.value][0].xid == xid;
        more := recs + [rec.value];
      }
    }

    /** The windows of one monitor. */
    method CaptureMonitor(xs: seq<int>, mapping: map<int, Option<string>>, mons: seq<MonitorReply>, recs: seq<Rec>, ghost outs: map<string, Output>, ghost n: nat)
      returns (more: seq<Rec>)
      requires mons == Report(desk.w) && forall x | x in xs :: x in desk.w.place
      requires forall num :: num in mapping <==> exists i :: 0 <= i < |mons| && mons[i].num == num
      requires forall i, c | 0 <= i < |mons| :: mapping[mons[i].num] == Some(c) <==> BindsTo(mons[i], outs, c)
      requires n <= |desk.asked| && AllCaptured(desk.w, outs, recs) && RecordsAnswers(recs, desk.asked, n)
      modifies desk`asked
      ensures old(desk.asked) <= desk.asked && AllCaptured(desk.w, outs, more) && RecordsAnswers(more, desk.asked, n)
      ensures (forall x | x in xs :: Tried(desk.asked, n, x)) && forall x | Listed(recs, x) :: Listed(more, x)
      ensures desk.ways.cooperative ==> forall x | x in xs && IdentOf(desk.w, x).Some? :: Listed(more, x)
    {
      more := recs;
      for j := 0 to |xs|
        invariant old(desk.asked) <= desk.asked && AllCaptured(desk.w, outs, more) && RecordsAnswers(more, desk.asked, n)
        invariant (forall x | x in xs[..j] :: Tried(desk.asked, n, x)) && forall x | Listed(recs, x) :: Listed(more, x)
        invariant desk.ways.cooperative ==> forall x | x in xs[..j] && IdentOf(desk.w, x).Some? :: Listed(more, x)
      {
        assert xs[j] in xs;
        ghost var q := desk.asked;
        more := CaptureNext(xs[j], mapping, mons, more, outs, n);
        forall x | x in xs[..j] ensures Tried(desk.asked, n, x) { TriedStays(q, desk.asked, n, x); }
        assert xs[..j + 1] == xs[..j] + [xs[j]];
      }
      assert xs[..|xs|] == xs;
    }

    /** `capture_windows`, given what dwm and RandR answered. When one of them did not the list is EMPTY, not an error; when
        both did, every window is tried and those whose own two reads answer are recorded, whatever the desk. */
    method CaptureWindows(reply: Option<seq<MonitorReply>>, read: Option<map<string, Output>>) returns (recs: seq<Rec>)
      requires (reply.Some? ==> reply.value == Report(desk.w)) && (read.Some? ==> Named(read.value))
      modifies this`snapshotFocus, desk`asked
      ensures old(desk.asked) <= desk.asked
      ensures snapshotFocus == if reply.Some? then FocusOf(desk.w) else old(snapshotFocus)
      ensures reply.None? || read.None? ==> recs == []
      ensures reply.Some? && read.Some? ==> AllCaptured(desk.w, read.value, recs) && RecordsAnswers(recs, desk.asked, |old(desk.asked)|)
      ensures reply.Some? && read.Some? ==> forall x | x in desk.w.place :: Tried(desk.asked, |old(desk.asked)|, x)
      ensures reply.Some? && read.Some? && desk.ways.cooperative ==>
                forall x | x in desk.w.place && IdentOf(desk.w, x).Some? :: Listed(recs, x)
    {
      recs := [];
      if reply.None? { return; }
      var mons := reply.value;
      snapshotFocus := SelectedFocus(mons);
      FocusRead(desk.w, snapshotFocus);
      if read.None? { return; }
      var mapping := MatchMonitors(mons, read.value);
      recs := CaptureAll(mapping, mons, read.value);
    }

    /** All windows, monitor by monitor. */
    method CaptureAll(mapping: map<int, Option<string>>, mons: seq<MonitorReply>, ghost outs: map<string, Output>) returns (recs: seq<Rec>)
      requires mons == Report(desk.w)
      requires forall num :: num in mapping <==> exists i :: 0 <= i < |mons| && mons[i].num == num
      requires forall i, c | 0 <= i < |mons| :: mapping[mons[i].num] == Some(c) <==> BindsTo(mons[i], outs, c)
      modifies desk`asked
      ensures old(desk.asked) <= desk.asked
      ensures AllCaptured(desk.w, outs, recs) && RecordsAnswers(recs, desk.asked, |old(desk.asked)|)
      ensures forall x | x in desk.w.place :: Tried(desk.asked, |old(desk.asked)|, x)
      ensures desk.ways.cooperative ==> forall x | x in desk.w.place && IdentOf(desk.w, x).Some? :: Listed(recs, x)
    {
      recs := [];
      ghost var n := |desk.asked|;
      NothingAnswered(desk.asked);
      for i := 0 to |mons|
        invariant old(desk.asked) <= desk.asked && AllCaptured(desk.w, outs, recs) && RecordsAnswers(recs, desk.asked, n)
        invariant forall x | x in desk.w.place && desk.w.place[x].monitor < i :: Tried(desk.asked, n, x)
        invariant desk.ways.cooperative ==> forall x | x in desk.w.place && desk.w.place[x].monitor < i && IdentOf(desk.w, x).Some? :: Listed(recs, x)
      {
        ghost var q := desk.asked;
        recs := CaptureMonitor(mons[i].all, mapping, mons, recs, outs, n);
        forall x | x in desk.w.place && desk.w.place[x].monitor < i ensures Tried(desk.asked, n, x) { TriedStays(q, desk.asked, n, x); }
      }
    }

    /** `_safe_capture`, given what dwm and RandR answered: the baseline is replaced even when nothing did. */
    method SafeCapture(reply: Option<seq<MonitorReply>>, read: Option<map<string, Output>>)
      requires (reply.Some? ==> reply.value == Report(desk.w)) && (read.Some? ==> Named(read.value))
      modifies this`snapshot, this`snapshotFocus, desk`asked
      ensures old(desk.asked) <= desk.asked
      ensures Taken(desk.w, reply.Some?, read, desk.asked, |old(desk.asked)|, snapshot)
      ensures snapshotFocus == if reply.Some? then FocusOf(desk.w) else old(snapshotFocus)
      ensures desk.ways.cooperative && reply.Some? && read == Some(desk.w.outs) ==> GoodBaseline(snapshot, desk.w)
    {
      var captured := CaptureWindows(reply, read);
      var latest: map<Ident, Rec> := map[];
      for i := 0 to |captured|
        invariant latest == ByProcess(captured[..i])
      {
        assert captured[..i + 1][..i] == captured[..i];
        latest := latest[captured[i].ident := captured[i]];
      }
      assert captured[..|captured|] == captured;
      ByProcessHolds(captured);
      snapshot := latest;
      if reply.Some? && read.Some? {
        TakenFrom(desk.w, read.value, desk.asked, |old(desk.asked)|, captured);
        BaselineFrom(desk.w, read.value, captured);
      }
    }

    /** The reads of a capture, then the capture. */
    method TakeBaseline()
      modifies this`snapshot, this`snapshotFocus, desk`asked
      ensures Looked(old(Now()), Now()) && Fresh(old(Books()), Books(), old(Now()), Now(), desk.ways)
    {
      ghost var p, n := Books(), |desk.asked|;
      var reply := desk.GetMonitors();
      var read := None;
      if reply.Some? { read := desk.ReadOutputs(); }
      ghost var q := desk.asked;
      SafeCapture(reply, read);
      assert desk.asked[n] == q[n] && (reply.Some? ==> desk.asked[n + 1] == q[n + 1]);
      assert CapturedAt(p, Books(), desk.w, desk.asked, n);
    }

    /** The steady half of a settle: sweep the dead, take a new baseline. */
    method Refresh(ghost p: Ledger)
      requires p.focus == snapshotFocus
      modifies this`displaced, this`snapshot, this`snapshotFocus, desk`asked
      ensures Looked(old(Now()), Now()) && Fresh(p, Books(), old(Now()), Now(), desk.ways)
      ensures displaced.Items <= old(displaced).Items
      ensures forall k | k in old(displaced) && k !in displaced ::
                SweptRead(old(desk.asked), desk.asked, k) && (desk.ways.truthful ==> !ProcessLives(desk.w, k))
    {
      ghost var a := Now();
      SweepDisplaced();
      ghost var b, d, mid := Now(), displaced, Books();
      TakeBaseline();
      SweptReadsStay(a.asked, b.asked, desk.asked, old(displaced).Keys - d.Keys);
      FreshLater(mid, Books(), a, b, Now(), desk.ways);
      FreshFor(mid, p, Books(), a, Now(), desk.ways);
    }

    /** The return half of an edge, in a settle that began at `a`. */
    method RestoreEdge(outs: map<string, Output>, removed: set<string>, returned: set<string>, ghost a: Past) returns (ghost s: Settle)
      requires Looked(a, Now())
      modifies this`focusCalls, this`displaced, desk`w, desk`log, desk`writes, desk`asked
      ensures s.Edge? && s == Edge(outs, removed, returned, old(displaced), s.cycle, displaced, Now())
      ensures old(desk.asked) <= desk.asked
      ensures displaced.Items <= old(displaced).Items && CycleResult(s, a, desk.ways)
      ensures desk.ways.cooperative && outs == old(desk.w).outs ==> Exactly(s, snapshotFocus, a)
    {
      ghost var recorded := displaced;
      ghost var cycle: Option<Cycled> := None;
      if returned != {} { cycle := RestoreReturned(returned, outs); }
      return Edge(outs, removed, returned, recorded, cycle, displaced, Now());
    }

    /** Record what went, restore what came back. */
    method RecordAndRestore(outs: map<string, Output>, ghost a: Past) returns (removed: set<string>, ghost s: Settle)
      requires prevPresent.Some? && (desk.ways.cooperative ==> outs == desk.w.outs)
      requires Looked(a, Now()) && ReadFirst(a, Now(), outs)
      modifies this`focusCalls, this`prevPresent, this`displaced, desk`w, desk`log, desk`writes, desk`asked
      ensures EdgeDone(s, old(Books()), Books(), a, Now(), desk.ways) && s.removed == removed
    {
      ghost var p, b := Books(), Now();
      var cur := Lit(outs);
      removed := prevPresent.value - cur;
      var returned := cur - prevPresent.value;
      prevPresent := Some(cur);
      if removed != {} { RecordDisplaced(removed); }
      assert displaced == p.displaced + OnOutputs(p.snapshot, removed);
      s := RestoreEdge(outs, removed, returned, a);
      ReadStaysFirst(a, b, Now(), outs);
    }

    /** `on_settled` once a baseline exists: record what went, restore what came back, and on a settle that
        removed nothing sweep and take a new snapshot. The settle began at `a`, with reading the outputs. */
    method SettleEdge(outs: map<string, Output>, ghost a: Past) returns (ghost s: Settle)
      requires prevPresent.Some? && (desk.ways.cooperative ==> outs == desk.w.outs)
      requires Looked(a, Now()) && ReadFirst(a, Now(), outs)
      modifies this, desk`w, desk`log, desk`writes, desk`asked
      ensures s.Edge? && Settles(s, old(Books()), Books(), a, Now(), desk.ways)
    {
      var removed;
      ghost var p := Books();
      removed, s := RecordAndRestore(outs, a);
      ghost var q, mid := Books(), Now();
      if removed == {} {
        Refresh(p);
        EdgeRefreshed(s, p, q, Books(), a, mid, Now(), desk.ways);
      }
    }

    /** `on_settled`, the single entry point. `s` says which branch ran and with what. */
    method OnSettled() returns (ghost s: Settle)
      modifies this, desk`w, desk`log, desk`writes, desk`asked
      ensures Settles(s, old(Books()), Books(), old(Now()), Now(), desk.ways)
      ensures s.Idle? ==> !configEnabled || TurnedAway(old(Now()), Now())
      ensures configEnabled && desk.ways.cooperative ==> !s.Idle?
      ensures !s.Idle? ==> (s.Seeded? <==> old(prevPresent).None?)
    {
      ghost var a := Now();
      if !configEnabled { return Idle; }
      var available := desk.Available();
      if !available { return Idle; }
      var outs := desk.ReadOutputs();
      if outs.None? { return Idle; }
      if prevPresent.None? {
        ghost var p, b := Books(), Now();
        prevPresent := Some(Lit(outs.value));
        ghost var mid := Books();
        TakeBaseline();
        FreshLater(mid, Books(), a, b, Now(), desk.ways);
        FreshFor(mid, p, Books(), a, Now(), desk.ways);
        ReadStaysFirst(a, b, Now(), outs.value);
        return Seeded(outs.value);
      }
      s := SettleEdge(outs.value, a);
    }
  }
}
