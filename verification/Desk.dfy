/** The desktop the relocation coordinator drives: dwm behind its IPC socket, the X focus and
    configure channel, RandR and /proc. `World` is its state; class `Desk` answers requests.

    By default a desk is adversarial: a focus request may be ignored or land late, the user may
    move the selection, any read may fail, any verb may be rejected or lost, an accepted verb may
    have done nothing. `honest` adds that an accepted verb took effect; `cooperative` adds that
    focus lands, reads answer and verbs are accepted. `truthful` is about the processes alone: every
    identity read answers, and answers as the world is, whatever dwm does. */
module Desktop {
  import opened Wrappers
  import opened Outputs
  import opened CrashGuard
  import opened Matching

  datatype Place = Place(monitor: nat, tags: Tags, floating: bool)
  datatype ClientReply = ClientReply(place: Place, geom: Rect)
  datatype Ident = Ident(pid: int, starttime: int)

  /** `order` is the attach order over all windows: a monitor's list is the part of it on that
      monitor. `selmon` is dwm's selected monitor and `sel` the client selected there, if any. */
  datatype Tables = Tables(
    rects: seq<Rect>,
    tagsets: seq<Tags>,
    order: seq<int>,
    place: map<int, Place>,
    geom: map<int, Rect>,
    selmon: nat,
    sel: Option<int>,
    owner: map<int, int>,
    procs: map<int, int>,
    outs: map<string, Output>)

  predicate NoDup(s: seq<int>) {
    forall i, j | 0 <= i < j < |s| :: s[i] != s[j]
  }

  ghost predicate Wf(w: Tables) {
    && |w.rects| == |w.tagsets| >= 1
    && (forall i | 0 <= i < |w.tagsets| :: w.tagsets[i] != 0)
    && NoDup(w.order)
    && (forall x :: x in w.order <==> x in w.place)
    && w.geom.Keys == w.place.Keys
    && (forall x | x in w.place :: w.place[x].monitor < |w.rects|)
    && w.selmon < |w.rects|
    && (w.sel.Some? ==> w.sel.value in w.place && w.place[w.sel.value].monitor == w.selmon)
    && Named(w.outs)
  }

  /** The tables of a running desktop: at least one monitor, every window listed once and on a monitor, the
      selection on the selected monitor. */
  type World = w: Tables | Wf(w)
    witness Tables([Rect(0, 0, 1, 1)], [1], [], map[], map[], 0, None, map[], map[], map[])

  /** How a desk behaves. */
  datatype Manner = Manner(honest: bool, truthful: bool, cooperative: bool)

  type Ways = m: Manner | m.cooperative ==> m.honest && m.truthful
    witness Manner(false, false, false)

  /** One question and its answer, None where there was none: the process of a window, the start time of a process, the
      state of a window, the monitors, the outputs, whether dwm can be reached, and whether to stop; or a request for the focus, which has no answer. */
  datatype Note =
    | FocusWanted(xid: int)
    | Reached(available: bool)
    | Resolved(xid: int, ident: Option<Ident>)
    | Started(pid: int, starttime: Option<int>)
    | Fetched(xid: int, client: Option<ClientReply>)
    | Monitors(at: World)
    | NoMonitors
    | Outs(read: Option<map<string, Output>>)
    | StopWanted

  /** `resolve_pid`: window to process, process to start time. */
  function IdentOf(w: World, xid: int): Option<Ident> {
    if xid in w.owner && w.owner[xid] in w.procs then Some(Ident(w.owner[xid], w.procs[w.owner[xid]])) else None
  }

  // ---- what dwm reports ------------------------------------------------------------

  function WindowsOn(order: seq<int>, place: map<int, Place>, m: nat): (r: seq<int>)
    ensures forall x :: x in r <==> x in order && x in place && place[x].monitor == m
  {
    if order == [] then []
    else
      assert order == [order[0]] + order[1..];
      (if order[0] in place && place[order[0]].monitor == m then [order[0]] else []) + WindowsOn(order[1..], place, m)
  }

  function StatesOf(xs: seq<int>, place: map<int, Place>): (r: seq<ClientState>)
    requires forall k | 0 <= k < |xs| :: xs[k] in place
    ensures |r| == |xs|
  {
    seq(|xs|, k requires 0 <= k < |xs| =>
      ClientState(xs[k], place[xs[k]].tags, place[xs[k]].floating))
  }

  function SelectedOn(w: World, m: nat): Option<int> {
    if m == w.selmon then w.sel else None
  }

  /** `get_monitors`. */
  function Report(w: World): (r: seq<MonitorReply>)
    ensures |r| == |w.rects|
  {
    seq(|w.rects|, i requires 0 <= i < |w.rects| =>
      MonitorReply(i, Some(w.rects[i]), i == w.selmon, w.tagsets[i], WindowsOn(w.order, w.place, i), SelectedOn(w, i)))
  }

  /** The monitor states a complete set of replies describes. */
  function States(w: World): (r: seq<MonitorState>)
    ensures |r| == |w.rects|
  {
    seq(|w.rects|, i requires 0 <= i < |w.rects| =>
      MonitorState(i, w.tagsets[i], StatesOf(WindowsOn(w.order, w.place, i), w.place)))
  }

  // ---- what commands do ---------------------------------------------------------------

  datatype Verb = Tagmon(arg: int) | Tag(tags: Tags) | ToggleFloating | FocusMon(arg: int)
  datatype Reply = Accepted | Rejected | Unavailable

  /** A geometry sent to a window, in coordinates relative to its monitor. */
  datatype Write = Write(xid: int, rel: Rect)

  /** One command dwm received; `owner` is the window the sender meant it for. */
  datatype Command = Command(verb: Verb, owner: int, before: World, reply: Reply)

  function Remove(s: seq<int>, x: int): (r: seq<int>)
    ensures forall y :: y in r <==> y in s && y != x
  {
    if s == [] then []
    else
      assert s == [s[0]] + s[1..];
      (if s[0] == x then [] else [s[0]]) + Remove(s[1..], x)
  }

  /** Screens, processes and the set of windows stay. */
  predicate Kept(w: World, w': World) {
    && w'.rects == w.rects && |w'.tagsets| == |w.tagsets|
    && w'.owner == w.owner && w'.procs == w.procs && w'.outs == w.outs
    && w'.place.Keys == w.place.Keys
  }

  /** Layouts move tiled windows only. */
  predicate FloatKept(w: World, w': World)
    requires w'.place.Keys == w.place.Keys
  {
    forall y | y in w.place && w.place[y].floating && w'.place[y].floating :: w'.geom[y] == w.geom[y]
  }

  /** Only the selection, the views and the tiled geometry moved. */
  predicate Refocused(w: World, w': World)
  {
    && Kept(w, w')
    && w'.place == w.place && w'.order == w.order && FloatKept(w, w')
  }

  /** No window outside `xs` changed monitor, tags or floating state, or moved while floating. */
  predicate Only(w: World, w': World, xs: set<int>)
  {
    && Kept(w, w')
    && forall y | y in w.place && y !in xs ::
         w'.place[y] == w.place[y] && (w.place[y].floating ==> w'.geom[y] == w.geom[y])
  }

  predicate Performed(w: World, v: Verb, w': World)
  {
    && Kept(w, w') && FloatKept(w, w')
    && match v
       case FocusMon(arg) =>
         && w'.place == w.place && w'.order == w.order
         && w'.selmon == if |w.rects| < 2 then w.selmon else DirToMon(w.selmon, |w.rects|, arg)
       case Tagmon(arg) =>
         && w'.tagsets == w.tagsets && w'.selmon == w.selmon
         && if w.sel.None? || |w.rects| < 2 then w'.place == w.place && w'.order == w.order
            else
              var x := w.sel.value;
              var d := DirToMon(w.place[x].monitor, |w.rects|, arg);
              && w'.place == w.place[x := Place(d, w.tagsets[d], w.place[x].floating)]
              && w'.order == [x] + Remove(w.order, x)
       case Tag(t) =>
         && w'.tagsets == w.tagsets && w'.selmon == w.selmon && w'.order == w.order
         && w'.place == if w.sel.None? then w.place else w.place[w.sel.value := w.place[w.sel.value].(tags := t)]
       case ToggleFloating =>
         && w'.tagsets == w.tagsets && w'.selmon == w.selmon && w'.order == w.order
         && w'.place == if w.sel.None? then w.place
                        else w.place[w.sel.value := w.place[w.sel.value].(floating := !w.place[w.sel.value].floating)]
  }

  /** Some dwm that answers exactly like this world dies of the hop. */
  ghost predicate MightCrash(w: World, arg: int)
  {
    exists wm :: WmOk(wm) && View(wm) == States(w) && wm.sel == w.sel && TagMon(wm, arg).Crashed?
  }

  /** A command meant for `xs` that hits the window it was meant for, and if it is a hop, a forward
      hop no dwm consistent with the replies can die of. */
  ghost predicate SafeCommand(c: Command, xs: set<int>) {
    c.verb.FocusMon?
    || (&& c.before.sel == Some(c.owner) && c.owner in xs
        && (c.verb.Tagmon? ==> c.verb.arg == 1 && !MightCrash(c.before, 1)))
  }

  /** The log only grew, by safe commands meant for `xs`. */
  ghost predicate Grown(l: seq<Command>, l': seq<Command>, xs: set<int>) {
    l <= l' && forall i | |l| <= i < |l'| :: SafeCommand(l'[i], xs)
  }

  lemma GrownTrans(a: seq<Command>, b: seq<Command>, c: seq<Command>, xs: set<int>, ys: set<int>)
    requires Grown(a, b, xs) && Grown(b, c, ys)
    ensures Grown(a, c, xs + ys)
  {
    forall i | |a| <= i < |c| ensures SafeCommand(c[i], xs + ys) {
      if i < |b| { assert c[i] == b[i]; }
    }
  }

  lemma OnlyTrans(a: World, b: World, c: World, xs: set<int>, ys: set<int>)
    requires Only(a, b, xs) && Only(b, c, ys)
    ensures Only(a, c, xs + ys)
  {
  }

  /** The guard's answer covers every dwm consistent with the replies. */
  lemma GuardCoversAll(w: World, x: int, direction: int)
    requires w.sel == Some(x)
    requires !CrashRisk(States(w), x, direction)
    ensures !MightCrash(w, direction)
  {
    forall wm | WmOk(wm) && View(wm) == States(w) && wm.sel == w.sel ensures !TagMon(wm, direction).Crashed? {
      if |wm.mons| >= 2 {
        GuardPredictsCrash(wm, x, direction);
      }
    }
  }

  // ---- when the guard has nothing to refuse -------------------------------------------------

  /** `focus(NULL)` would find `y` once `x` is gone from its screen. */
  predicate Company(w: World, x: int, y: int)
    requires x in w.place
  {
    && y in w.place && y != x && w.place[y].monitor == w.place[x].monitor
    && w.place[y].tags & w.tagsets[w.place[x].monitor] != 0
  }

  lemma {:induction false} OthersVisible(cs: seq<ClientState>, tagset: Tags, exclude: Option<int>, i: nat)
    requires i < |cs| && Visible(cs[i], tagset) && !Excluded(cs[i], exclude)
    ensures VisibleCount(cs, tagset, exclude) > 0
  {
    if i > 0 {
      OthersVisible(cs[1..], tagset, exclude, i - 1);
    }
  }

  lemma ListedAs(w: World, y: int) returns (i: nat)
    requires y in w.place
    ensures var cs := States(w)[w.place[y].monitor].clients;
            i < |cs| && cs[i] == ClientState(y, w.place[y].tags, w.place[y].floating)
  {
    var xs := WindowsOn(w.order, w.place, w.place[y].monitor);
    assert y in xs;
    i :| 0 <= i < |xs| && xs[i] == y;
  }

  lemma OnOneScreen(w: World, x: int)
    requires x in w.place
    ensures SourceOf(States(w), x) == Some(w.place[x].monitor)
  {
    WindowIsListed(w, x);
    var s := SourceOf(States(w), x).value;
    var i := IndexOf(States(w)[s].clients, x);
    assert WindowsOn(w.order, w.place, s)[i] == x;
  }

  lemma CompanyIsSeen(w: World, x: int, y: int)
    requires x in w.place && Company(w, x, y)
    ensures !SourceEmptied(States(w)[w.place[x].monitor], x)
  {
    var i := ListedAs(w, y);
    OthersVisible(States(w)[w.place[x].monitor].clients, w.tagsets[w.place[x].monitor], Some(x), i);
  }

  /** The guard never refuses a window that leaves something visible behind on its screen. */
  lemma CompanyPermits(w: World, x: int, y: int)
    requires |w.rects| >= 2 && x in w.place && Company(w, x, y)
    ensures !CrashRisk(States(w), x, 1)
  {
    var m := w.place[x].monitor;
    OnOneScreen(w, x);
    CompanyIsSeen(w, x, y);
    RingStep(m, |w.rects|, 1);
    StillVisibleIsSafe(States(w), x, 1, m, DirToMon(m, |w.rects|, 1));
  }

  lemma WindowIsListed(w: World, x: int)
    requires x in w.place
    ensures Holds(States(w)[w.place[x].monitor].clients, x)
  {
    var i := ListedAs(w, x);
  }

  /** What the guard counts against its budget. */
  function TotalListed(mons: seq<MonitorReply>): nat {
    if mons == [] then 0 else |mons[0].all| + TotalListed(mons[1..])
  }

  const GUARD_CLIENT_BUDGET := 64

  function SumTo(f: nat -> nat, n: nat): nat {
    if n == 0 then 0 else SumTo(f, n - 1) + f(n - 1)
  }

  lemma {:induction false} SumStep(f: nat -> nat, g: nat -> nat, at: nat, n: nat)
    requires forall m: nat :: f(m) == g(m) + if m == at then 1 else 0
    ensures SumTo(f, n) == SumTo(g, n) + if at < n then 1 else 0
  {
    if n > 0 {
      SumStep(f, g, at, n - 1);
    }
  }

  function Sizes(order: seq<int>, place: map<int, Place>): nat -> nat {
    (m: nat) => |WindowsOn(order, place, m)|
  }

  function CountBelow(order: seq<int>, place: map<int, Place>, n: nat): nat {
    SumTo(Sizes(order, place), n)
  }

  lemma WindowsOnStep(order: seq<int>, place: map<int, Place>, m: nat)
    requires order != [] && order[0] in place
    ensures Sizes(order, place)(m) == Sizes(order[1..], place)(m) + if m == place[order[0]].monitor then 1 else 0
  {
  }

  /** Every window is on exactly one screen. */
  lemma {:induction false} AllCounted(order: seq<int>, place: map<int, Place>, n: nat)
    requires forall i | 0 <= i < |order| :: order[i] in place && place[order[i]].monitor < n
    ensures CountBelow(order, place, n) == |order|
  {
    if order == [] {
      NoneCounted(place, n);
    } else {
      forall m: nat { WindowsOnStep(order, place, m); }
      SumStep(Sizes(order, place), Sizes(order[1..], place), place[order[0]].monitor, n);
      AllCounted(order[1..], place, n);
    }
  }

  lemma {:induction false} NoneCounted(place: map<int, Place>, n: nat)
    ensures CountBelow([], place, n) == 0
  {
    if n > 0 { NoneCounted(place, n - 1); }
  }

  lemma {:induction false} TotalFrom(w: World, k: nat)
    requires k <= |w.rects|
    ensures TotalListed(Report(w)[k..]) + CountBelow(w.order, w.place, k) == CountBelow(w.order, w.place, |w.rects|)
    decreases |w.rects| - k
  {
    var r := Report(w);
    if k < |w.rects| {
      TotalFrom(w, k + 1);
      assert r[k..][1..] == r[k + 1..] && r[k..][0] == r[k];
    } else {
      assert r[k..] == [];
    }
  }

  lemma {:induction false} NoDupSize(s: seq<int>, keys: set<int>)
    requires NoDup(s) && forall x :: x in s <==> x in keys
    ensures |s| == |keys|
  {
    if s == [] {
      assert forall x | x in keys :: x in s;
      assert keys == {};
    } else {
      assert s[0] in s;
      forall x ensures x in s[1..] <==> x in keys - {s[0]} {
        if x in keys - {s[0]} { assert x in s; }
      }
      NoDupSize(s[1..], keys - {s[0]});
    }
  }

  /** The guard's total is the number of windows, wherever they are. */
  lemma TotalIsWindows(w: World)
    ensures TotalListed(Report(w)) == |w.place|
  {
    TotalFrom(w, 0);
    assert Report(w)[0..] == Report(w);
    assert forall i | 0 <= i < |w.order| :: w.order[i] in w.order;
    AllCounted(w.order, w.place, |w.rects|);
    NoDupSize(w.order, w.place.Keys);
  }

  // ---- the world's hop is the explicit dwm hop --------------------------------------------

  lemma {:induction false} WindowsAfterRemove(order: seq<int>, place: map<int, Place>, m: nat, x: int)
    ensures WindowsOn(Remove(order, x), place, m) == Remove(WindowsOn(order, place, m), x)
  {
    if order != [] {
      WindowsAfterRemove(order[1..], place, m, x);
      var here := WindowsOn(order[1..], place, m);
      var head := if order[0] in place && place[order[0]].monitor == m then [order[0]] else [];
      assert WindowsOn(order, place, m) == head + here;
      RemoveHead(head, here, x);
      if order[0] == x {
        assert Remove(order, x) == Remove(order[1..], x);
      } else {
        assert Remove(order, x) == [order[0]] + Remove(order[1..], x);
        assert Remove(order, x)[1..] == Remove(order[1..], x);
      }
    }
  }

  lemma RemoveHead(head: seq<int>, tail: seq<int>, x: int)
    requires |head| <= 1
    ensures Remove(head + tail, x) == (if head == [x] then [] else head) + Remove(tail, x)
  {
    if head == [] {
      assert head + tail == tail;
    } else {
      assert (head + tail)[1..] == tail;
      assert head == [head[0]];
    }
  }

  lemma {:induction false} WindowsElsewhere(order: seq<int>, place: map<int, Place>, m: nat, x: int, p: Place)
    requires x !in order
    ensures WindowsOn(order, place[x := p], m) == WindowsOn(order, place, m)
  {
    if order != [] {
      assert order == [order[0]] + order[1..];
      WindowsElsewhere(order[1..], place, m, x, p);
    }
  }

  lemma {:induction false} RemoveAbsent(s: seq<int>, x: int)
    requires x !in s
    ensures Remove(s, x) == s
  {
    if s != [] {
      assert s == [s[0]] + s[1..];
      RemoveAbsent(s[1..], x);
    }
  }

  /** Who is where after a hop: off the source, at the head of the destination. */
  lemma WindowsAfterHop(w: World, w': World, x: int, d: nat, m: nat)
    requires w.sel == Some(x) && d < |w.rects| && d != w.place[x].monitor && m < |w.rects|
    requires w'.place == w.place[x := Place(d, w.tagsets[d], w.place[x].floating)]
    requires w'.order == [x] + Remove(w.order, x)
    ensures WindowsOn(w'.order, w'.place, m)
              == if m == d then [x] + WindowsOn(w.order, w.place, m)
                 else if m == w.place[x].monitor then Remove(WindowsOn(w.order, w.place, m), x)
                 else WindowsOn(w.order, w.place, m)
  {
    var rest := Remove(w.order, x);
    assert w'.order[1..] == rest;
    WindowsElsewhere(rest, w.place, m, x, w'.place[x]);
    WindowsAfterRemove(w.order, w.place, m, x);
    if m != w.place[x].monitor {
      RemoveAbsent(WindowsOn(w.order, w.place, m), x);
    }
  }

  lemma {:induction false} StatesAfterRemove(xs: seq<int>, place: map<int, Place>, place': map<int, Place>, x: int)
    requires forall k | 0 <= k < |xs| :: xs[k] in place
    requires forall y | y in xs && y != x :: y in place' && place'[y] == place[y]
    ensures forall k | 0 <= k < |Remove(xs, x)| :: Remove(xs, x)[k] in place'
    ensures StatesOf(Remove(xs, x), place') == Detach(StatesOf(xs, place), x)
  {
    var r := Remove(xs, x);
    forall k | 0 <= k < |r| ensures r[k] in place' { assert r[k] in r; }
    if xs != [] {
      StatesAfterRemove(xs[1..], place, place', x);
      var t := Remove(xs[1..], x);
      assert StatesOf(xs, place)[1..] == StatesOf(xs[1..], place);
      assert xs[0] in xs;
      if xs[0] == x {
        assert r == t;
        assert Detach(StatesOf(xs, place), x) == Detach(StatesOf(xs[1..], place), x);
      } else {
        assert r == [xs[0]] + t;
        assert StatesOf(r, place') == [StatesOf(xs, place)[0]] + StatesOf(t, place');
      }
    }
  }

  /** A dwm that answers like the world, with its selection on the world's monitor. */
  ghost predicate Behind(wm: Wm, w: World) {
    && WmOk(wm) && View(wm) == States(w)
    && wm.sel == w.sel && w.sel.Some? && wm.selmon == w.selmon
  }

  lemma MonitorsBehind(wm: Wm, w: World, m: nat)
    requires Behind(wm, w) && m < |w.rects|
    ensures m < |wm.mons| && wm.mons[m].tagset == w.tagsets[m]
    ensures wm.mons[m].clients == StatesOf(WindowsOn(w.order, w.place, m), w.place)
  {
    assert View(wm)[m] == States(w)[m];
  }

  /** The hop as a change of the two tables. */
  ghost predicate Hopped(w: World, w': World, x: int, d: nat) {
    && w.sel == Some(x) && d < |w.rects| && d != w.place[x].monitor
    && w'.place == w.place[x := Place(d, w.tagsets[d], w.place[x].floating)]
    && w'.order == [x] + Remove(w.order, x)
    && w'.tagsets == w.tagsets && w'.rects == w.rects
  }

  function ClientsOn(w: World, m: nat): seq<ClientState> {
    StatesOf(WindowsOn(w.order, w.place, m), w.place)
  }

  lemma ListedHere(order: seq<int>, place: map<int, Place>, m: nat)
    ensures forall k | 0 <= k < |WindowsOn(order, place, m)| :: WindowsOn(order, place, m)[k] in place && place[WindowsOn(order, place, m)[k]].monitor == m
  {
    var xs := WindowsOn(order, place, m);
    forall k | 0 <= k < |xs| ensures xs[k] in place && place[xs[k]].monitor == m {
      assert xs[k] in xs;
    }
  }

  lemma LeftBehind(xs: seq<int>, place: map<int, Place>, place': map<int, Place>, x: int, p: Place)
    requires forall k | 0 <= k < |xs| :: xs[k] in place
    requires place' == place[x := p]
    ensures forall k | 0 <= k < |Remove(xs, x)| :: Remove(xs, x)[k] in place'
    ensures StatesOf(Remove(xs, x), place') == Detach(StatesOf(xs, place), x)
  {
    StatesAfterRemove(xs, place, place', x);
  }

  lemma HopLeaves(w: World, w': World, x: int, d: nat)
    requires Hopped(w, w', x, d)
    ensures ClientsOn(w', w.place[x].monitor) == Detach(ClientsOn(w, w.place[x].monitor), x)
  {
    var s := w.place[x].monitor;
    WindowsAfterHop(w, w', x, d, s);
    ListedHere(w.order, w.place, s);
    LeftBehind(WindowsOn(w.order, w.place, s), w.place, w'.place, x, w'.place[x]);
  }

  lemma SameStates(xs: seq<int>, place: map<int, Place>, place': map<int, Place>)
    requires forall k | 0 <= k < |xs| :: xs[k] in place && xs[k] in place' && place'[xs[k]] == place[xs[k]]
    ensures StatesOf(xs, place') == StatesOf(xs, place)
  {
  }

  lemma StatesCons(x: int, xs: seq<int>, place: map<int, Place>)
    requires x in place && forall k | 0 <= k < |xs| :: xs[k] in place
    ensures StatesOf([x] + xs, place) == [ClientState(x, place[x].tags, place[x].floating)] + StatesOf(xs, place)
  {
  }

  lemma HopPasses(w: World, w': World, x: int, d: nat, m: nat)
    requires Hopped(w, w', x, d)
    requires m < |w.rects| && m != d && m != w.place[x].monitor
    ensures ClientsOn(w', m) == ClientsOn(w, m)
  {
    WindowsAfterHop(w, w', x, d, m);
    var xs := WindowsOn(w.order, w.place, m);
    assert forall k | 0 <= k < |xs| :: xs[k] in xs && w'.place[xs[k]] == w.place[xs[k]];
    SameStates(xs, w.place, w'.place);
  }

  lemma HopArrives(w: World, w': World, x: int, d: nat)
    requires Hopped(w, w', x, d)
    ensures ClientsOn(w', d) == [ClientState(x, w.tagsets[d], w.place[x].floating)] + ClientsOn(w, d)
  {
    WindowsAfterHop(w, w', x, d, d);
    var xs := WindowsOn(w.order, w.place, d);
    assert forall k | 0 <= k < |xs| :: xs[k] in xs && w'.place[xs[k]] == w.place[xs[k]];
    SameStates(xs, w.place, w'.place);
    StatesCons(x, xs, w'.place);
  }

  lemma MovedIs(wm: Wm, w: World, x: int)
    requires Behind(wm, w) && w.sel == Some(x)
    ensures Moved(wm, x) == ClientState(x, w.place[x].tags, w.place[x].floating)
  {
    MonitorsBehind(wm, w, wm.selmon);
    var i := IndexOf(wm.mons[wm.selmon].clients, x);
    assert WindowsOn(w.order, w.place, wm.selmon)[i] == x;
  }

  lemma HopOneMonitor(w: World, w': World, wm: Wm, x: int, d: nat, m: nat)
    requires Behind(wm, w) && Hopped(w, w', x, d) && m < |w.rects|
    ensures d < |wm.mons| && m < |wm.mons|
    ensures States(w')[m] == View(SendMon(wm, x, d))[m]
  {
    MonitorsBehind(wm, w, d);
    MonitorsBehind(wm, w, m);
    if m == d {
      HopAtDestination(w, w', wm, x, d);
    } else if m == wm.selmon {
      HopLeaves(w, w', x, d);
    } else {
      HopPasses(w, w', x, d, m);
    }
  }

  lemma HopAtDestination(w: World, w': World, wm: Wm, x: int, d: nat)
    requires Behind(wm, w) && Hopped(w, w', x, d) && d < |wm.mons|
    ensures States(w')[d] == View(SendMon(wm, x, d))[d]
  {
    MonitorsBehind(wm, w, d);
    HopArrives(w, w', x, d);
    MovedIs(wm, w, x);
  }

  /** MAIN RESULT. The map-based hop and the explicit `sendmon` are the same step: whatever dwm
      stands behind the replies, its monitors after `sendmon` read as the world after the hop. */
  lemma HopIsSendMon(w: World, w': World, wm: Wm, x: int, d: nat)
    requires Behind(wm, w) && |w.rects| >= 2 && w.sel == Some(x)
    requires d == DirToMon(w.place[x].monitor, |w.rects|, 1)
    requires Performed(w, Tagmon(1), w')
    ensures d < |wm.mons| && States(w') == View(SendMon(wm, x, d))
  {
    assert Hopped(w, w', x, d);
    MonitorsBehind(wm, w, d);
    forall m | 0 <= m < |w.rects| ensures States(w')[m] == View(SendMon(wm, x, d))[m] {
      HopOneMonitor(w, w', wm, x, d, m);
    }
  }

  // ---- the class ---------------------------------------------------------------------------

  class Desk {
    const ways: Ways
    var w: World
    ghost var log: seq<Command>
    ghost var writes: seq<Write>  // geometries sent
    ghost var asked: seq<Note>    // what was read, and what came back

    constructor (initial: World, ways: Ways)
      ensures w == initial && log == [] && writes == [] && asked == []
      ensures this.ways == ways
    {
      this.ways, w := ways, initial;
      log, writes, asked := [], [], [];
    }

    /** Anything may happen to the desktop between two settles. */
    method Change(next: World)
      modifies this`w
      ensures w == next
    {
      w := next;
    }

    /** dwm's event loop and the user run between two requests: a pending focus may land, the user
        may select another window or switch a view. A cooperative desk is quiet. */
    method Drift()
      modifies this`w
      ensures Refocused(old(w), w)
      ensures ways.cooperative ==> w == old(w)
    {
      var lucky: bool := *;
      if lucky && !ways.cooperative { w := w.(sel := None); }
    }

    /** `RelocationControl.focus`: ask for the focus; a focusing dwm may switch the view. */
    method Focus(xid: int)
      modifies this`w, this`asked
      ensures Refocused(old(w), w) && asked == old(asked) + [FocusWanted(xid)]
      ensures ways.cooperative && xid in w.place ==> w.sel == Some(xid)
    {
      var lucky: bool := *;
      if xid in w.place && (ways.cooperative || lucky) { w := w.(selmon := w.place[xid].monitor, sel := Some(xid)); }
      asked := asked + [FocusWanted(xid)];
    }

    method Available() returns (r: bool)
      modifies this`asked
      ensures asked == old(asked) + [Reached(r)]
      ensures ways.cooperative ==> r
    {
      r := *;
      r := r || ways.cooperative;
      asked := asked + [Reached(r)];
    }

    /** `get_monitors`; None is DwmIpcUnavailable. */
    method GetMonitors() returns (r: Option<seq<MonitorReply>>)
      modifies this`asked
      ensures r.Some? ==> r.value == Report(w)
      ensures asked == old(asked) + [if r.Some? then Monitors(w) else NoMonitors]
      ensures ways.cooperative ==> r.Some?
    {
      var lucky: bool := *;
      if ways.cooperative || lucky { r := Some(Report(w)); } else { r := None; }
      asked := asked + [if r.Some? then Monitors(w) else NoMonitors];
    }

    /** `get_dwm_client`; None is DwmIpcUnavailable. */
    method GetClient(xid: int) returns (r: Option<ClientReply>)
      modifies this`asked
      ensures asked == old(asked) + [Fetched(xid, r)]
      ensures r.Some? ==> xid in w.place && r.value == ClientReply(w.place[xid], w.geom[xid])
      ensures ways.cooperative && xid in w.place ==> r.Some?
    {
      var lucky: bool := *;
      if xid in w.place && (ways.cooperative || lucky) { r := Some(ClientReply(w.place[xid], w.geom[xid])); } else { r := None; }
      asked := asked + [Fetched(xid, r)];
    }

    /** `resolve_pid`; None when unresolved for any reason. */
    method ResolvePid(xid: int) returns (r: Option<Ident>)
      modifies this`asked
      ensures asked == old(asked) + [Resolved(xid, r)]
      ensures r.Some? || ways.truthful ==> r == IdentOf(w, xid)
    {
      var lucky: bool := *;
      if ways.truthful || lucky { r := IdentOf(w, xid); } else { r := None; }
      asked := asked + [Resolved(xid, r)];
    }

    /** `read_proc_identity`; None when the process is gone or unreadable. */
    method ReadProc(pid: int) returns (r: Option<int>)
      modifies this`asked
      ensures asked == old(asked) + [Started(pid, r)]
      ensures r.Some? || ways.truthful ==> r == if pid in w.procs then Some(w.procs[pid]) else None
    {
      var lucky: bool := *;
      if pid in w.procs && (ways.truthful || lucky) { r := Some(w.procs[pid]); } else { r := None; }
      asked := asked + [Started(pid, r)];
    }

    /** A RandR read; None is a raised error. */
    method ReadOutputs() returns (r: Option<map<string, Output>>)
      modifies this`asked
      ensures asked == old(asked) + [Outs(r)]
      ensures r.Some? ==> Named(r.value)
      ensures ways.cooperative ==> r == Some(w.outs)
    {
      var lucky: bool := *;
      if ways.cooperative || lucky { r := Some(w.outs); } else { r := None; }
      asked := asked + [Outs(r)];
    }

    method StopRequested() returns (r: bool)
      modifies this`asked
      ensures asked == if r then old(asked) + [StopWanted] else old(asked)
      ensures ways.cooperative ==> !r
    {
      r := *;
      r := r && !ways.cooperative;
      if r { asked := asked + [StopWanted]; }
    }

    /** `run_command`. An unavailable reply says nothing about whether dwm acted. */
    method Run(verb: Verb, ghost owner: int) returns (reply: Reply)
      modifies this`w, this`log
      ensures log == old(log) + [Command(verb, owner, old(w), reply)]
      ensures w == old(w) || Performed(old(w), verb, w)
      ensures reply.Rejected? ==> w == old(w)
      ensures ways.honest && reply.Accepted? ==> Performed(old(w), verb, w)
      ensures ways.cooperative && (verb.Tagmon? ==> verb.arg >= 0) ==> reply.Accepted?
    {
      var lucky: bool := *;
      EffectPerforms(w, verb);
      var next: World := Effect(w, verb);
      if (verb.Tagmon? && verb.arg < 0) || (!ways.cooperative && !lucky) {
        reply := Rejected;
      } else {
        reply := Accepted;
        if ways.honest || lucky { w := next; }
      }
      log := log + [Command(verb, owner, old(w), reply)];
    }

    /** `configure_geometry` with monitor-relative coordinates: dwm adds the origin of the window's
        monitor and keeps a floating window that fits there. */
    method Configure(xid: int, rel: Rect)
      modifies this`w, this`writes
      ensures Kept(old(w), w) && w == old(w).(geom := w.geom)
      ensures writes == old(writes) + [Write(xid, rel)]
      ensures forall y | y in w.geom && y != xid :: w.geom[y] == old(w).geom[y]
      ensures ways.cooperative && Placeable(w, xid, rel) ==> w.geom[xid] == Absolute(rel, w.rects[w.place[xid].monitor])
    {
      var lucky: bool := *;
      writes := writes + [Write(xid, rel)];
      if Placeable(w, xid, rel) && (ways.cooperative || lucky) {
        w := w.(geom := w.geom[xid := Absolute(rel, w.rects[w.place[xid].monitor])]);
      }
    }
  }

  /** dwm's `configurerequest`: the request is relative to the window's monitor. */
  function Absolute(rel: Rect, mon: Rect): Rect {
    Rect(mon.x + rel.x, mon.y + rel.y, rel.width, rel.height)
  }

  /** Past the right or bottom edge dwm centres the window instead. */
  predicate Fits(g: Rect, mon: Rect) {
    g.x + g.width <= mon.x + mon.width && g.y + g.height <= mon.y + mon.height
  }

  predicate Placeable(w: World, xid: int, rel: Rect) {
    && xid in w.place && w.place[xid].floating
    && var mon := w.rects[w.place[xid].monitor];
    Fits(Absolute(rel, mon), mon)
  }

  /** One way to carry out a verb: every geometry stays, and a verb that moves things leaves nothing selected. */
  function Effect(w: World, verb: Verb): Tables
  {
    match verb
    case FocusMon(arg) =>
      if |w.rects| < 2 then w else w.(selmon := DirToMon(w.selmon, |w.rects|, arg), sel := None)
    case Tagmon(arg) =>
      if w.sel.None? || |w.rects| < 2 then w
      else
        var x := w.sel.value;
        var d := DirToMon(w.place[x].monitor, |w.rects|, arg);
        w.(place := w.place[x := Place(d, w.tagsets[d], w.place[x].floating)], order := [x] + Remove(w.order, x), sel := None)
    case Tag(t) =>
      if w.sel.None? then w else w.(place := w.place[w.sel.value := w.place[w.sel.value].(tags := t)])
    case ToggleFloating =>
      if w.sel.None? then w
      else w.(place := w.place[w.sel.value := w.place[w.sel.value].(floating := !w.place[w.sel.value].floating)])
  }

  lemma {:induction false} RemoveNoDup(s: seq<int>, x: int)
    requires NoDup(s)
    ensures NoDup(Remove(s, x))
  {
    if s != [] {
      RemoveNoDup(s[1..], x);
      var t := Remove(s[1..], x);
      forall j | 0 <= j < |t| ensures t[j] != s[0] { assert t[j] in t; }
    }
  }

  lemma MovedToFront(order: seq<int>, x: int)
    requires NoDup(order) && x in order
    ensures NoDup([x] + Remove(order, x))
    ensures forall y :: y in [x] + Remove(order, x) <==> y in order
  {
    RemoveNoDup(order, x);
    var rest := Remove(order, x);
    assert forall j | 0 <= j < |rest| :: rest[j] in rest;
  }

  lemma HopKeepsWf(w: World, arg: int)
    requires w.sel.Some?
    ensures Wf(Effect(w, Tagmon(arg)))
  {
    MovedToFront(w.order, w.sel.value);
  }

  lemma MarkKeepsWf(w: World, verb: Verb)
    requires verb.Tag? || verb.ToggleFloating?
    ensures Wf(Effect(w, verb))
  {
  }

  lemma EffectIsWf(w: World, verb: Verb)
    ensures Wf(Effect(w, verb))
  {
    match verb
    case Tagmon(arg) => if w.sel.Some? { HopKeepsWf(w, arg); }
    case Tag(t) => MarkKeepsWf(w, verb);
    case ToggleFloating => MarkKeepsWf(w, verb);
    case FocusMon(_) =>
  }

  lemma EffectPerforms(w: World, verb: Verb)
    ensures Wf(Effect(w, verb)) && Performed(w, verb, Effect(w, verb))
  {
    EffectIsWf(w, verb);
  }
}
