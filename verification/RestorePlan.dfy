/** The pure half of `relocate.py`: reply readers, the relative geometry and the restore plan. */
module RestorePlan {
  import opened Wrappers
  import opened CrashGuard
  import opened Matching
  import opened Desktop

  /** A captured window. `output` is the connector its monitor was bound to, if any. */
  datatype Rec = Rec(xid: int, ident: Ident, output: Option<string>, tags: Tags, floating: bool, geom: Rect)

  datatype Action = MoveOneHop(direction: int) | SetTags(tags: Tags) | Toggle | Configure(geom: Rect)

  /** What the coordinator reads before it plans. */
  datatype Live = Live(target: Option<int>, monitor: int, floating: bool, monitors: nat)

  // ---- reply readers ---------------------------------------------------------------

  /** What passes for a confirmed focus: some monitor reports the window as its selected client. */
  ghost predicate Confirms(mons: seq<MonitorReply>, xid: int) {
    exists i :: 0 <= i < |mons| && mons[i].selected == Some(xid)
  }

  /** `_selected_confirmed`: the selected monitor decides, any monitor's selection is the fallback. */
  method SelectedConfirmed(mons: seq<MonitorReply>, xid: int) returns (r: bool)
    ensures r <==> Confirms(mons, xid)
  {
    var fallback := false;
    for k := 0 to |mons|
      invariant fallback <==> exists i :: 0 <= i < k && mons[i].selected == Some(xid)
    {
      if mons[k].selected == Some(xid) {
        if mons[k].isSelected { return true; }
        fallback := true;
      }
    }
    return fallback;
  }

  /** dwm's verbs act on the selected monitor's selected client. */
  ghost predicate ActsOn(mons: seq<MonitorReply>, xid: int) {
    exists i :: 0 <= i < |mons| && mons[i].isSelected && mons[i].selected == Some(xid)
  }

  /** EXACT CONDITION. With one selected monitor, a confirmed window is not the one verbs act on exactly
      when only some OTHER monitor remembers it as its own selection. */
  lemma FallbackGap(mons: seq<MonitorReply>, xid: int, s: nat)
    requires s < |mons| && mons[s].isSelected
    requires forall i | 0 <= i < |mons| && i != s :: !mons[i].isSelected
    ensures Confirms(mons, xid) && !ActsOn(mons, xid)
            <==> mons[s].selected != Some(xid) && exists i :: 0 <= i < |mons| && i != s && mons[i].selected == Some(xid)
  {
  }

  /** COUNTEREXAMPLE. Two monitors, each with a selected client of its own as dwm keeps them: the user is on
      the first in window 5, and window 7 is confirmed although every verb would hit window 5. */
  lemma ConfirmedButNotActedOn()
    ensures var mons := [MonitorReply(0, None, true, 1, [5], Some(5)), MonitorReply(1, None, false, 1, [7], Some(7))];
            Confirms(mons, 7) && !ActsOn(mons, 7) && ActsOn(mons, 5)
  {
    var mons := [MonitorReply(0, None, true, 1, [5], Some(5)), MonitorReply(1, None, false, 1, [7], Some(7))];
    assert mons[1].selected == Some(7) && mons[0].isSelected && mons[0].selected == Some(5);
  }

  /** `_all_client_xids`. */
  function AllXids(mons: seq<MonitorReply>): (r: set<int>)
    ensures forall x :: x in r <==> exists i :: 0 <= i < |mons| && x in mons[i].all
  {
    set i, x | 0 <= i < |mons| && x in mons[i].all :: x
  }

  /** `_selected_monitor`. */
  function SelectedMonitor(mons: seq<MonitorReply>): (r: Option<int>)
  {
    if mons == [] then None
    else if mons[0].isSelected then Some(mons[0].num)
    else SelectedMonitor(mons[1..])
  }

  /** On a world the selected monitor is the one it says, also when nothing is selected there. */
  lemma ReportShowsMonitor(w: World)
    ensures SelectedMonitor(Report(w)) == Some(w.selmon)
  {
    FirstSelected(Report(w), w.selmon);
  }

  lemma {:induction false} FirstSelected(mons: seq<MonitorReply>, s: nat)
    requires s < |mons| && mons[s].isSelected && forall i | 0 <= i < s :: !mons[i].isSelected
    ensures SelectedMonitor(mons) == Some(mons[s].num)
  {
    if s > 0 {
      FirstSelected(mons[1..], s - 1);
    }
  }

  predicate HasSelection(m: MonitorReply) {
    m.selected.Some? && m.selected != Some(0)
  }

  /** Monitor `i` has a selected client, and precedence over every other that has one. */
  ghost predicate Foremost(mons: seq<MonitorReply>, i: nat) {
    && i < |mons| && HasSelection(mons[i])
    && forall j | 0 <= j < |mons| && HasSelection(mons[j]) ::
         if mons[i].isSelected then mons[j].isSelected ==> i <= j else !mons[j].isSelected && i <= j
  }

  /** `_selected_focus`: the selected monitor's client if it has one, else the first monitor's that has one. */
  method SelectedFocus(mons: seq<MonitorReply>) returns (r: Option<(int, int)>)
    ensures r.None? <==> forall i | 0 <= i < |mons| :: !HasSelection(mons[i])
    ensures r.Some? ==> exists i: nat :: Foremost(mons, i) && r.value == (mons[i].num, mons[i].selected.value)
  {
    r := None;
    ghost var at := 0;
    for k := 0 to |mons|
      invariant r.None? <==> forall i | 0 <= i < k :: !HasSelection(mons[i])
      invariant r.Some? ==> 0 <= at < k && HasSelection(mons[at]) && r.value == (mons[at].num, mons[at].selected.value)
      invariant r.Some? ==> forall j | 0 <= j < k && HasSelection(mons[j]) :: at <= j
      invariant forall j | 0 <= j < k && HasSelection(mons[j]) :: !mons[j].isSelected
    {
      if mons[k].selected.Some? && mons[k].selected.value != 0 {
        if mons[k].isSelected {
          assert Foremost(mons, k);
          return Some((mons[k].num, mons[k].selected.value));
        }
        if r.None? {
          r := Some((mons[k].num, mons[k].selected.value));
          at := k;
        }
      }
    }
    assert r.Some? ==> Foremost(mons, at);
  }

  /** Over a world with one selection the readers mean that selection. */
  lemma ReportShowsSelection(w: World, xid: int)
    ensures Confirms(Report(w), xid) <==> w.sel == Some(xid)
    ensures ActsOn(Report(w), xid) <==> w.sel == Some(xid)
  {
    if w.sel == Some(xid) {
      assert Report(w)[w.selmon].selected == Some(xid) && Report(w)[w.selmon].isSelected;
    }
  }

  lemma ReportShowsWindows(w: World)
    ensures AllXids(Report(w)) == w.place.Keys
  {
    forall x | x in w.place ensures x in AllXids(Report(w)) {
      assert x in Report(w)[w.place[x].monitor].all;
    }
  }

  // ---- geometry -------------------------------------------------------------------

  /** `monitor_origin`: the first monitor with the number, None when its geometry is malformed. */
  function MonitorOrigin(mons: seq<MonitorReply>, num: Option<int>): (r: Option<(int, int)>)
  {
    if num.None? || mons == [] then None
    else if mons[0].num == num.value then
      (match mons[0].geometry case Some(g) => Some((g.x, g.y)) case None => None)
    else MonitorOrigin(mons[1..], num)
  }

  /** `to_monitor_relative_geometry`. */
  function ToRelative(g: Rect, origin: (int, int)): Rect {
    Rect(g.x - origin.0, g.y - origin.1, g.width, g.height)
  }

  /** The monitors of a reply are the screens of the world, in order. */
  ghost predicate Screens(mons: seq<MonitorReply>, w: World) {
    |mons| == |w.rects| && forall i | 0 <= i < |mons| :: mons[i].num == i && mons[i].geometry == Some(w.rects[i])
  }

  lemma {:induction false} OriginAt(mons: seq<MonitorReply>, base: int, t: int)
    requires forall i | 0 <= i < |mons| :: mons[i].num == base + i
    requires base <= t < base + |mons|
    ensures MonitorOrigin(mons, Some(t))
              == match mons[t - base].geometry case Some(g) => Some((g.x, g.y)) case None => None
  {
    if t != base {
      OriginAt(mons[1..], base + 1, t);
    }
  }

  /** Only a monitor has an origin. */
  lemma KnownOrigin(mons: seq<MonitorReply>, w: World, target: Option<int>)
    requires Screens(mons, w) && MonitorOrigin(mons, target).Some?
    ensures target.Some? && 0 <= target.value < |w.rects|
  {
    NumberOfOrigin(mons, 0, target);
  }

  lemma {:induction false} NumberOfOrigin(mons: seq<MonitorReply>, base: int, target: Option<int>)
    requires forall i | 0 <= i < |mons| :: mons[i].num == base + i
    requires MonitorOrigin(mons, target).Some?
    ensures target.Some? && base <= target.value < base + |mons|
  {
    if mons[0].num != target.value { NumberOfOrigin(mons[1..], base + 1, target); }
  }

  /** Subtracting the target's origin and dwm adding it back cancel, whatever the target. */
  lemma GeometryRoundTrip(mons: seq<MonitorReply>, w: World, g: Rect, t: nat)
    requires Screens(mons, w) && t < |w.rects|
    ensures MonitorOrigin(mons, Some(t)).Some?
    ensures Absolute(ToRelative(g, MonitorOrigin(mons, Some(t)).value), w.rects[t]) == g
  {
    OriginAt(mons, 0, t);
  }

  // ---- the plan ---------------------------------------------------------------------

  /** `tagmon_direction`: one forward hop, or nothing; dwm types the argument unsigned. */
  function TagmonDirection(cur: int, target: int, n: nat): (r: Option<int>)
    ensures r.Some? <==> n >= 2 && 0 <= target < n && cur != target
    ensures r.Some? ==> r.value == 1
  {
    if n < 2 then None
    else if !(0 <= target < n) then None
    else if cur == target then None
    else Some(1)
  }

  function PlannedMove(live: Live): Option<int> {
    match live.target
    case None => None
    case Some(t) => if t != live.monitor then TagmonDirection(live.monitor, t, live.monitors) else None
  }

  function PlanRestore(rec: Rec, live: Live): seq<Action> {
    (match PlannedMove(live) case Some(d) => [MoveOneHop(d)] case None => [])
    + [SetTags(rec.tags)]
    + (if live.floating != rec.floating then [Toggle] else [])
    + (if rec.floating then [Configure(rec.geom)] else [])
  }

  /** Position of the tag step: the moves come first, the cosmetics after it. */
  function TagAt(live: Live): nat {
    if PlannedMove(live).Some? then 1 else 0
  }

  /** What each step of a plan is, by position. A tiled record is never given a geometry. */
  lemma PlanShape(rec: Rec, live: Live, i: nat)
    requires i < |PlanRestore(rec, live)|
    ensures TagAt(live) < |PlanRestore(rec, live)|
    ensures PlanRestore(rec, live)[i].MoveOneHop? <==> i < TagAt(live)
    ensures PlanRestore(rec, live)[i].MoveOneHop? ==> PlanRestore(rec, live)[i] == MoveOneHop(1) && i == 0
    ensures PlanRestore(rec, live)[i].SetTags? <==> i == TagAt(live)
    ensures PlanRestore(rec, live)[i].SetTags? ==> PlanRestore(rec, live)[i].tags == rec.tags
    ensures PlanRestore(rec, live)[i].Toggle? <==> i == TagAt(live) + 1 && live.floating != rec.floating
    ensures PlanRestore(rec, live)[i].Configure? ==> rec.floating && PlanRestore(rec, live)[i].geom == rec.geom
    ensures rec.floating ==> PlanRestore(rec, live)[|PlanRestore(rec, live)| - 1].Configure?
    ensures PlanRestore(rec, live)[i].Configure? ==> i == |PlanRestore(rec, live)| - 1
  {
  }

  /** Forward hops from one monitor to another on a ring of n. */
  function Hops(cur: nat, target: nat, n: nat): (h: nat)
    requires cur < n && target < n
    ensures h < n
  {
    if target >= cur then target - cur else target - cur + n
  }

  lemma HopsIsModular(cur: nat, target: nat, n: nat)
    requires cur < n && target < n
    ensures Hops(cur, target, n) == (target - cur) % n
  {
    if target < cur {
      assert target - cur == -1 * n + Hops(cur, target, n);
    }
  }
}
