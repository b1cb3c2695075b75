/** The crash guard of `relocate.py`, and the dwm step it predicts.

    `tagmon_crash_risk` never runs dwm: it counts clients in an IPC reply. Here the
    step itself (`sendmon`, then `focus(NULL)`, then `arrange(NULL)` with the
    single-window-center patch in `tile`) is written out, stack order included, and
    the count is proved to predict it. */
module CrashGuard {
  import opened Wrappers

  /** dwm's tag masks are C `unsigned int`. */
  type Tags = bv32

  // ---- what the daemon reads ---------------------------------------------------

  datatype ClientState = ClientState(xid: int, tags: Tags, floating: bool)
  datatype MonitorState = MonitorState(num: int, tagset: Tags, clients: seq<ClientState>)

  predicate Visible(c: ClientState, tagset: Tags) {
    c.tags & tagset != 0
  }

  predicate Tiles(c: ClientState, tagset: Tags) {
    Visible(c, tagset) && !c.floating
  }

  predicate Excluded(c: ClientState, exclude: Option<int>) {
    exclude == Some(c.xid)
  }

  function TiledCount(cs: seq<ClientState>, tagset: Tags, exclude: Option<int>): nat {
    if cs == [] then 0
    else (if !Excluded(cs[0], exclude) && Tiles(cs[0], tagset) then 1 else 0) + TiledCount(cs[1..], tagset, exclude)
  }

  function VisibleCount(cs: seq<ClientState>, tagset: Tags, exclude: Option<int>): nat {
    if cs == [] then 0
    else (if !Excluded(cs[0], exclude) && Visible(cs[0], tagset) then 1 else 0) + VisibleCount(cs[1..], tagset, exclude)
  }

  predicate Holds(cs: seq<ClientState>, xid: int) {
    exists i :: 0 <= i < |cs| && cs[i].xid == xid
  }

  /** Position of the first client with this id. */
  function IndexOf(cs: seq<ClientState>, xid: int): (i: nat)
    requires Holds(cs, xid)
    ensures i < |cs| && cs[i].xid == xid
    ensures forall j | 0 <= j < i :: cs[j].xid != xid
  {
    if cs[0].xid == xid then 0
    else
      assert Holds(cs[1..], xid) by {
        var i :| 0 <= i < |cs| && cs[i].xid == xid;
        assert cs[1..][i - 1].xid == xid;
      }
      1 + IndexOf(cs[1..], xid)
  }

  /** First monitor, in reply order, that lists the window. */
  function SourceOf(mons: seq<MonitorState>, xid: int): (s: Option<nat>)
    ensures s.Some? ==> s.value < |mons| && Holds(mons[s.value].clients, xid)
                        && forall i | 0 <= i < s.value :: !Holds(mons[i].clients, xid)
    ensures s.None? ==> forall i | 0 <= i < |mons| :: !Holds(mons[i].clients, xid)
  {
    if mons == [] then None
    else if Holds(mons[0].clients, xid) then Some(0)
    else
      var rest := SourceOf(mons[1..], xid);
      if rest.None? then
        assert forall i | 0 < i < |mons| :: mons[i] == mons[1..][i - 1];
        None
      else
        assert forall i | 0 < i < |mons| :: mons[i] == mons[1..][i - 1];
        Some(rest.value + 1)
  }

  /** The `index` dictionary: the LAST monitor carrying a number wins. */
  function ByNum(mons: seq<MonitorState>, num: int): (d: Option<nat>)
    ensures d.Some? ==> d.value < |mons| && mons[d.value].num == num
    ensures d.None? ==> forall i | 0 <= i < |mons| :: mons[i].num != num
  {
    if mons == [] then None
    else if mons[|mons| - 1].num == num then Some(|mons| - 1)
    else ByNum(mons[..|mons| - 1], num)
  }

  function Step(direction: int): int {
    if direction > 0 then 1 else -1
  }

  /** `post_tiled[m.num]`: the dictionary is filled for every monitor, then the
      entries of the source and of the destination are overwritten, in that order. */
  function PostTiled(mons: seq<MonitorState>, source: nat, dest: nat, moved: ClientState, m: MonitorState): nat
    requires source < |mons| && dest < |mons|
  {
    if m.num == mons[dest].num then
      TiledCount(mons[dest].clients, mons[dest].tagset, None) + (if moved.floating then 0 else 1)
    else if m.num == mons[source].num then
      TiledCount(mons[source].clients, mons[source].tagset, Some(moved.xid))
    else
      TiledCount(m.clients, m.tagset, None)
  }

  /** Some tag of the client is in view, and it is not the one left out. */
  predicate Shown(c: ClientState, tagset: Tags, exclude: Option<int>) {
    exclude != Some(c.xid) && c.tags & tagset != 0
  }

  function Ones(bits: seq<bool>): nat {
    if bits == [] then 0 else (if bits[0] then 1 else 0) + Ones(bits[1..])
  }

  predicate OnlyAt(bits: seq<bool>, i: int) {
    0 <= i < |bits| && bits[i] && forall j | 0 <= j < |bits| && bits[j] :: j == i
  }

  lemma {:induction false} OnesInWords(bits: seq<bool>)
    ensures Ones(bits) == 0 <==> forall i | 0 <= i < |bits| :: !bits[i]
    ensures Ones(bits) == 1 <==> exists i :: OnlyAt(bits, i)
  {
    if bits != [] {
      var rest := bits[1..];
      OnesInWords(rest);
      if bits[0] {
        if Ones(rest) == 0 { assert OnlyAt(bits, 0); }
      } else {
        if i :| OnlyAt(rest, i) { assert OnlyAt(bits, i + 1); }
        if i :| OnlyAt(bits, i) { assert OnlyAt(rest, i - 1); }
      }
    }
  }

  function ShownBits(cs: seq<ClientState>, tagset: Tags, exclude: Option<int>, tiled: bool): (bits: seq<bool>)
    ensures |bits| == |cs|
    ensures forall i | 0 <= i < |cs| :: bits[i] == (Shown(cs[i], tagset, exclude) && !(tiled && cs[i].floating))
  {
    if cs == [] then []
    else [Shown(cs[0], tagset, exclude) && !(tiled && cs[0].floating)] + ShownBits(cs[1..], tagset, exclude, tiled)
  }

  lemma {:induction false} CountsAreOnes(cs: seq<ClientState>, tagset: Tags, exclude: Option<int>)
    ensures VisibleCount(cs, tagset, exclude) == Ones(ShownBits(cs, tagset, exclude, false))
    ensures TiledCount(cs, tagset, exclude) == Ones(ShownBits(cs, tagset, exclude, true))
  {
    if cs != [] { CountsAreOnes(cs[1..], tagset, exclude); }
  }

  /** The counts of the guard in words: none is counted exactly when nothing else shows a tag in view, and one exactly when a
      single client does that is not floating. */
  lemma CountsInWords(cs: seq<ClientState>, tagset: Tags, exclude: Option<int>)
    ensures VisibleCount(cs, tagset, exclude) == 0 <==> forall i | 0 <= i < |cs| :: !Shown(cs[i], tagset, exclude)
    ensures TiledCount(cs, tagset, exclude) == 1 <==> exists i :: OnlyAt(ShownBits(cs, tagset, exclude, true), i)
  {
    CountsAreOnes(cs, tagset, exclude);
    OnesInWords(ShownBits(cs, tagset, exclude, false));
    OnesInWords(ShownBits(cs, tagset, exclude, true));
    assert forall i | 0 <= i < |cs| :: ShownBits(cs, tagset, exclude, false)[i] == Shown(cs[i], tagset, exclude);
  }

  predicate SourceEmptied(src: MonitorState, xid: int) {
    VisibleCount(src.clients, src.tagset, Some(xid)) == 0
  }

  predicate SomeSingleton(mons: seq<MonitorState>, source: nat, dest: nat, moved: ClientState)
    requires source < |mons| && dest < |mons|
  {
    exists i :: 0 <= i < |mons| && PostTiled(mons, source, dest, moved, mons[i]) == 1
  }

  /** The guard: true means "refuse this hop". */
  predicate CrashRisk(mons: seq<MonitorState>, xid: int, direction: int) {
    var n := |mons|;
    var source := SourceOf(mons, xid);
    if source.None? || n < 2 then true
    else
      var src := mons[source.value];
      var moved := src.clients[IndexOf(src.clients, xid)];
      var dest := ByNum(mons, (src.num + Step(direction)) % n);
      if dest.None? then true
      else SourceEmptied(src, xid) && SomeSingleton(mons, source.value, dest.value, moved)
  }

  // ---- the dwm it talks about -----------------------------------------------------

  /** One dwm monitor: `clients` in attach order, `stack` in focus order, and whether
      its current layout arranges with `tile`. */
  datatype Monitor = Monitor(tagset: Tags, clients: seq<ClientState>, stack: seq<int>, tiling: bool)

  /** `selmon` is the index of the selected monitor and `sel` its selected client. */
  datatype Wm = Wm(mons: seq<Monitor>, selmon: nat, sel: Option<int>)

  datatype Outcome = Crashed | Survived(wm: Wm)

  predicate Distinct(cs: seq<ClientState>) {
    forall i, j | 0 <= i < j < |cs| :: cs[i].xid != cs[j].xid
  }

  ghost predicate MonitorOk(m: Monitor) {
    && m.tagset != 0
    && Distinct(m.clients)
    && forall x :: x in m.stack <==> Holds(m.clients, x)
  }

  ghost predicate WmOk(wm: Wm) {
    && wm.selmon < |wm.mons|
    && (forall i | 0 <= i < |wm.mons| :: MonitorOk(wm.mons[i]))
    && (forall i, j, x | 0 <= i < j < |wm.mons| :: !(Holds(wm.mons[i].clients, x) && Holds(wm.mons[j].clients, x)))
    && (wm.sel.Some? ==> Holds(wm.mons[wm.selmon].clients, wm.sel.value))
  }

  function Detach(cs: seq<ClientState>, xid: int): (r: seq<ClientState>) {
    if cs == [] then []
    else (if cs[0].xid == xid then [] else [cs[0]]) + Detach(cs[1..], xid)
  }

  function DetachStack(st: seq<int>, xid: int): (r: seq<int>) {
    if st == [] then []
    else (if st[0] == xid then [] else [st[0]]) + DetachStack(st[1..], xid)
  }

  /** `sendmon`: leave the source, take the destination's current tagset, attach at
      the head of both destination lists. `selmon` does not move. */
  function SendMon(wm: Wm, xid: int, d: nat): Wm
    requires wm.selmon < |wm.mons| && d < |wm.mons|
    requires Holds(wm.mons[wm.selmon].clients, xid)
  {
    var s := wm.mons[wm.selmon];
    var t := wm.mons[d];
    var moved := s.clients[IndexOf(s.clients, xid)].(tags := t.tagset);
    var s' := s.(clients := Detach(s.clients, xid), stack := DetachStack(s.stack, xid));
    var t' := t.(clients := [moved] + t.clients, stack := [xid] + t.stack);
    wm.(mons := wm.mons[wm.selmon := s'][d := t'])
  }

  predicate VisibleOn(m: Monitor, xid: int) {
    Holds(m.clients, xid) && Visible(m.clients[IndexOf(m.clients, xid)], m.tagset)
  }

  /** `focus(NULL)`: the first visible client of the focus stack, or none. */
  function FirstVisible(m: Monitor, st: seq<int>): (r: Option<int>)
    ensures r.Some? ==> r.value in st && VisibleOn(m, r.value)
    ensures r.None? ==> forall x | x in st :: !VisibleOn(m, x)
  {
    if st == [] then None
    else if VisibleOn(m, st[0]) then Some(st[0])
    else FirstVisible(m, st[1..])
  }

  function FocusNull(wm: Wm): Wm
    requires wm.selmon < |wm.mons|
  {
    wm.(sel := FirstVisible(wm.mons[wm.selmon], wm.mons[wm.selmon].stack))
  }

  /** `tile` with the patch: with exactly one tiled client it dereferences `selmon->sel`. */
  predicate TileFaults(wm: Wm, m: Monitor) {
    m.tiling && TiledCount(m.clients, m.tagset, None) == 1 && wm.sel.None?
  }

  /** `arrange(NULL)`: every monitor in turn; the first fault ends dwm. */
  function ArrangeAll(wm: Wm, i: nat): Outcome
    requires i <= |wm.mons|
    decreases |wm.mons| - i
  {
    if i == |wm.mons| then Survived(wm)
    else if TileFaults(wm, wm.mons[i]) then Crashed
    else ArrangeAll(wm, i + 1)
  }

  /** dwm's `dirtomon`: the next or previous monitor of the list, wrapping at its ends. */
  function DirToMon(m: nat, n: nat, direction: int): (d: nat)
    requires m < n
    ensures d < n
    ensures n >= 2 ==> d != m
  {
    if direction > 0 then (if m + 1 == n then 0 else m + 1)
    else (if m == 0 then n - 1 else m - 1)
  }

  /** The `tagmon` command on the selected client. */
  function TagMon(wm: Wm, direction: int): Outcome
    requires WmOk(wm)
  {
    var n := |wm.mons|;
    if wm.sel.None? || n < 2 then Survived(wm)
    else
      ArrangeAll(FocusNull(SendMon(wm, wm.sel.value, DirToMon(wm.selmon, n, direction))), 0)
  }

  /** What `get_monitors` and `get_dwm_client` show of it: no stack, no layout. */
  function View(wm: Wm): (v: seq<MonitorState>)
    ensures |v| == |wm.mons|
    ensures forall i | 0 <= i < |v| :: v[i] == MonitorState(i, wm.mons[i].tagset, wm.mons[i].clients)
  {
    seq(|wm.mons|, i requires 0 <= i < |wm.mons| => MonitorState(i, wm.mons[i].tagset, wm.mons[i].clients))
  }

  // ---- the prediction -----------------------------------------------------------

  lemma {:induction false} CountWithout(cs: seq<ClientState>, tagset: Tags, xid: int)
    ensures TiledCount(Detach(cs, xid), tagset, None) == TiledCount(cs, tagset, Some(xid))
    ensures VisibleCount(Detach(cs, xid), tagset, None) == VisibleCount(cs, tagset, Some(xid))
  {
    if cs != [] {
      CountWithout(cs[1..], tagset, xid);
      if cs[0].xid != xid {
        assert Detach(cs, xid)[1..] == Detach(cs[1..], xid);
      } else {
        assert Detach(cs, xid) == Detach(cs[1..], xid);
      }
    }
  }

  lemma {:induction false} DetachMembers(cs: seq<ClientState>, xid: int)
    ensures forall c :: c in Detach(cs, xid) <==> c in cs && c.xid != xid
  {
    if cs != [] {
      DetachMembers(cs[1..], xid);
      assert cs == [cs[0]] + cs[1..];
    }
  }

  lemma {:induction false} DetachStackMembers(st: seq<int>, xid: int)
    ensures forall x :: x in DetachStack(st, xid) <==> x in st && x != xid
  {
    if st != [] {
      DetachStackMembers(st[1..], xid);
      assert st == [st[0]] + st[1..];
    }
  }

  lemma {:induction false} NoneVisible(cs: seq<ClientState>, tagset: Tags)
    ensures VisibleCount(cs, tagset, None) == 0 <==> forall c | c in cs :: !Visible(c, tagset)
  {
    if cs != [] {
      NoneVisible(cs[1..], tagset);
      assert cs == [cs[0]] + cs[1..];
    }
  }

  lemma {:induction false} DetachDistinct(cs: seq<ClientState>, xid: int)
    requires Distinct(cs)
    ensures Distinct(Detach(cs, xid))
  {
    if cs != [] {
      DetachDistinct(cs[1..], xid);
      DetachMembers(cs[1..], xid);
      var rest := Detach(cs[1..], xid);
      forall j | 0 <= j < |rest| ensures cs[0].xid != rest[j].xid {
        assert rest[j] in cs[1..];
      }
    }
  }

  /** The source after `sendmon` is still a consistent dwm monitor. */
  lemma SourceAfter(m: Monitor, xid: int)
    requires MonitorOk(m)
    ensures MonitorOk(m.(clients := Detach(m.clients, xid), stack := DetachStack(m.stack, xid)))
  {
    DetachDistinct(m.clients, xid);
    DetachStackMembers(m.stack, xid);
    DetachMembers(m.clients, xid);
    var cs := Detach(m.clients, xid);
    forall x ensures x in DetachStack(m.stack, xid) <==> Holds(cs, x) {
      if Holds(cs, x) {
        var i :| 0 <= i < |cs| && cs[i].xid == x;
        assert cs[i] in m.clients;
      }
      if Holds(m.clients, x) && x != xid {
        var c := m.clients[IndexOf(m.clients, x)];
        assert c in cs;
      }
    }
  }

  /** `focus(NULL)` finds nothing exactly when the monitor shows no client. */
  lemma FocusNullFindsNothing(m: Monitor)
    requires MonitorOk(m)
    ensures FirstVisible(m, m.stack).None? <==> VisibleCount(m.clients, m.tagset, None) == 0
  {
    NoneVisible(m.clients, m.tagset);
    if c :| c in m.clients && Visible(c, m.tagset) {
      var i :| 0 <= i < |m.clients| && m.clients[i] == c;
      assert Holds(m.clients, c.xid) && m.clients[IndexOf(m.clients, c.xid)] == c;
      assert VisibleOn(m, c.xid) && c.xid in m.stack;
    }
  }

  lemma {:induction false} ArrangeAllCrashes(wm: Wm, i: nat)
    requires i <= |wm.mons|
    ensures ArrangeAll(wm, i).Crashed? <==> exists k :: i <= k < |wm.mons| && TileFaults(wm, wm.mons[k])
    ensures ArrangeAll(wm, i).Survived? ==> ArrangeAll(wm, i).wm == wm
    decreases |wm.mons| - i
  {
    if i < |wm.mons| {
      ArrangeAllCrashes(wm, i + 1);
    }
  }

  /** After `sendmon`, each monitor's tiled count is the guard's `post_tiled` entry. */
  lemma PostTiledIsReal(wm: Wm, xid: int, d: nat, k: nat)
    requires WmOk(wm) && wm.sel == Some(xid)
    requires d < |wm.mons| && d != wm.selmon && k < |wm.mons|
    ensures var m := SendMon(wm, xid, d).mons[k];
            var src := wm.mons[wm.selmon].clients;
            TiledCount(m.clients, m.tagset, None)
              == PostTiled(View(wm), wm.selmon, d, src[IndexOf(src, xid)], View(wm)[k])
  {
    var src := wm.mons[wm.selmon];
    var dst := wm.mons[d];
    var moved := src.clients[IndexOf(src.clients, xid)];
    if k == d {
      assert dst.tagset & dst.tagset == dst.tagset;
      assert ([moved.(tags := dst.tagset)] + dst.clients)[1..] == dst.clients;
    } else if k == wm.selmon {
      CountWithout(src.clients, src.tagset, xid);
    }
  }

  /** The guard's modular arithmetic is dwm's walk along its list. */
  lemma RingStep(s: nat, n: nat, direction: int)
    requires s < n && n >= 2
    ensures (s + Step(direction)) % n == DirToMon(s, n, direction)
  {
    if direction <= 0 && s == 0 {
      assert (s + Step(direction)) == -1 && -1 == (-1) * n + (n - 1);
    }
  }

  /** The guard looks at the monitor that really holds the window, and at the real destination. */
  lemma GuardSeesTheMove(wm: Wm, xid: int, direction: int)
    requires WmOk(wm) && |wm.mons| >= 2 && wm.sel == Some(xid)
    ensures SourceOf(View(wm), xid) == Some(wm.selmon)
    ensures var d := DirToMon(wm.selmon, |wm.mons|, direction);
            ByNum(View(wm), d) == Some(d)
  {
    var v := View(wm);
    var s := SourceOf(v, xid);
    assert Holds(v[wm.selmon].clients, xid);
    assert s.Some? && s.value <= wm.selmon;
    assert Holds(wm.mons[s.value].clients, xid);
    assert v[DirToMon(wm.selmon, |wm.mons|, direction)].num == DirToMon(wm.selmon, |wm.mons|, direction);
  }

  /** State right before `arrange(NULL)`. */
  function BeforeArrange(wm: Wm, xid: int, d: nat): (r: Wm)
    requires WmOk(wm) && wm.sel == Some(xid) && d < |wm.mons|
    ensures |r.mons| == |wm.mons|
  {
    FocusNull(SendMon(wm, xid, d))
  }

  /** Half (a): the selection is lost exactly when the source shows nothing else. */
  lemma SelectionLost(wm: Wm, xid: int, d: nat)
    requires WmOk(wm) && wm.sel == Some(xid) && d < |wm.mons| && d != wm.selmon
    ensures BeforeArrange(wm, xid, d).sel.None? <==> SourceEmptied(View(wm)[wm.selmon], xid)
  {
    var src := wm.mons[wm.selmon];
    SourceAfter(src, xid);
    FocusNullFindsNothing(SendMon(wm, xid, d).mons[wm.selmon]);
    CountWithout(src.clients, src.tagset, xid);
  }

  ghost predicate AllTile(wm: Wm) {
    forall i | 0 <= i < |wm.mons| :: wm.mons[i].tiling
  }

  function Moved(wm: Wm, xid: int): ClientState
    requires WmOk(wm) && wm.sel == Some(xid)
  {
    var src := wm.mons[wm.selmon].clients;
    src[IndexOf(src, xid)]
  }

  /** The guard's two counts, for a destination already worked out. */
  predicate Predicted(wm: Wm, xid: int, d: nat)
    requires WmOk(wm) && wm.sel == Some(xid) && d < |wm.mons|
  {
    SourceEmptied(View(wm)[wm.selmon], xid) && SomeSingleton(View(wm), wm.selmon, d, Moved(wm, xid))
  }

  /** What the replies do not show: whether a monitor left with one tiled client arranges with `tile`. */
  predicate SingletonTiles(wm: Wm, xid: int, d: nat)
    requires WmOk(wm) && wm.sel == Some(xid) && d < |wm.mons|
  {
    exists k | 0 <= k < |wm.mons| :: wm.mons[k].tiling && PostTiled(View(wm), wm.selmon, d, Moved(wm, xid), View(wm)[k]) == 1
  }

  /** Both halves together, for a destination already worked out. */
  lemma CrashAt(wm: Wm, xid: int, d: nat)
    requires WmOk(wm) && wm.sel == Some(xid) && d < |wm.mons| && d != wm.selmon
    ensures ArrangeAll(BeforeArrange(wm, xid, d), 0).Crashed? <==>
            SourceEmptied(View(wm)[wm.selmon], xid) && SingletonTiles(wm, xid, d)
  {
    var w := BeforeArrange(wm, xid, d);
    SelectionLost(wm, xid, d);
    ArrangeAllCrashes(w, 0);
    if ArrangeAll(w, 0).Crashed? {
      var k :| 0 <= k < |w.mons| && TileFaults(w, w.mons[k]);
      PostTiledIsReal(wm, xid, d, k);
    }
    if SourceEmptied(View(wm)[wm.selmon], xid) && SingletonTiles(wm, xid, d) {
      var k :| 0 <= k < |wm.mons| && wm.mons[k].tiling && PostTiled(View(wm), wm.selmon, d, Moved(wm, xid), View(wm)[k]) == 1;
      PostTiledIsReal(wm, xid, d, k);
      assert TileFaults(w, w.mons[k]);
    }
  }

  lemma RiskIsPredicted(wm: Wm, xid: int, direction: int)
    requires WmOk(wm) && |wm.mons| >= 2 && wm.sel == Some(xid)
    ensures CrashRisk(View(wm), xid, direction) <==> Predicted(wm, xid, DirToMon(wm.selmon, |wm.mons|, direction))
  {
    GuardSeesTheMove(wm, xid, direction);
    RingStep(wm.selmon, |wm.mons|, direction);
  }

  /** MAIN RESULT. For every dwm whose selected client is the window, the hop ends dwm only if the guard
      refuses it, and exactly then when some monitor left with a single tiled client really tiles; with
      every monitor tiling the guard is exact. */
  lemma GuardPredictsCrash(wm: Wm, xid: int, direction: int)
    requires WmOk(wm) && |wm.mons| >= 2 && wm.sel == Some(xid)
    ensures TagMon(wm, direction).Crashed? <==>
            CrashRisk(View(wm), xid, direction) && SingletonTiles(wm, xid, DirToMon(wm.selmon, |wm.mons|, direction))
    ensures AllTile(wm) ==> (TagMon(wm, direction).Crashed? <==> CrashRisk(View(wm), xid, direction))
  {
    RiskIsPredicted(wm, xid, direction);
    CrashAt(wm, xid, DirToMon(wm.selmon, |wm.mons|, direction));
  }

  /** One window on the left of two floating-layout monitors. */
  function Lonely(): Wm {
    Wm([Monitor(1, [ClientState(7, 1, false)], [7], false), Monitor(1, [], [], false)], 0, Some(7))
  }

  lemma LonelyIsRisky()
    ensures WmOk(Lonely()) && Predicted(Lonely(), 7, 1)
  {
    var wm := Lonely();
    assert wm.mons[0].clients[0].xid == 7;
    assert MonitorOk(wm.mons[0]) && MonitorOk(wm.mons[1]);
    assert PostTiled(View(wm), 0, 1, wm.mons[0].clients[0], View(wm)[1]) == 1;
  }

  /** A monitor that does not tile cannot fault, so on such a dwm the guard may refuse a
      hop that would survive: the condition above is really needed. */
  lemma GuardIsConservativeWithoutTiling()
    ensures exists wm :: WmOk(wm) && |wm.mons| == 2 && wm.sel == Some(7)
                         && TagMon(wm, 1).Survived? && CrashRisk(View(wm), 7, 1)
  {
    var wm := Lonely();
    LonelyIsRisky();
    RiskIsPredicted(wm, 7, 1);
    GuardPredictsCrash(wm, 7, 1);
    assert forall k | 0 <= k < |wm.mons| :: !wm.mons[k].tiling;
  }

  /** Unresolved windows, a lone monitor and a reply without the destination are refused. */
  lemma GuardFailsSafe(mons: seq<MonitorState>, xid: int, direction: int)
    requires |mons| < 2
          || (forall i | 0 <= i < |mons| :: !Holds(mons[i].clients, xid))
          || (forall i, j | 0 <= i < |mons| && 0 <= j < |mons| :: mons[j].num != (mons[i].num + Step(direction)) % |mons|)
    ensures CrashRisk(mons, xid, direction)
  {
  }

  /** A hop that leaves something visible behind is never refused once both ends are resolved. */
  lemma StillVisibleIsSafe(mons: seq<MonitorState>, xid: int, direction: int, s: nat, d: nat)
    requires |mons| >= 2 && SourceOf(mons, xid) == Some(s)
    requires d < |mons| && d == (mons[s].num + Step(direction)) % |mons| && mons[d].num == d
    requires !SourceEmptied(mons[s], xid)
    ensures !CrashRisk(mons, xid, direction)
  {
  }
}
