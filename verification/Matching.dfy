/** dwm monitors and RandR outputs: `match_dwm_monitor_to_output` of `windows.py` and the
    inverse table `_restore_returned` builds from it. */
module Matching {
  import opened Wrappers
  import opened Outputs
  import opened CrashGuard

  datatype Rect = Rect(x: int, y: int, width: nat, height: nat)

  /** One element of a `get_monitors` reply. A malformed geometry is None. */
  datatype MonitorReply = MonitorReply(
    num: int,
    geometry: Option<Rect>,
    isSelected: bool,
    tagset: Tags,
    all: seq<int>,
    selected: Option<int>)

  predicate SameGeometry(o: Output, g: Rect) {
    o.position == Some((g.x, g.y)) && o.mode == Some((g.width, g.height))
  }

  function Candidates(m: MonitorReply, outs: map<string, Output>): set<string> {
    match m.geometry
    case None => {}
    case Some(g) => set n | n in outs && SameGeometry(outs[n], g)
  }

  /** The documented rule: a unique geometry match, or the unique connected one among several. */
  predicate BindsTo(m: MonitorReply, outs: map<string, Output>, c: string) {
    && c in Candidates(m, outs)
    && (|| (forall n | n in Candidates(m, outs) :: n == c)
        || (outs[c].connected && forall n | n in Candidates(m, outs) && outs[n].connected :: n == c))
  }

  predicate DistinctNums(mons: seq<MonitorReply>) {
    forall i, j | 0 <= i < j < |mons| :: mons[i].num != mons[j].num
  }

  lemma Unique(s: set<string>, c: string)
    requires c in s
    ensures |s| == 1 <==> forall n | n in s :: n == c
  {
    if forall n | n in s :: n == c {
      assert s == {c};
    } else {
      var n :| n in s && n != c;
      assert {c, n} <= s;
      var rest := s - {c, n};
      assert s == {c, n} + rest;
    }
  }

  function Filtered(m: MonitorReply, outs: map<string, Output>): set<string> {
    var geometry := Candidates(m, outs);
    if |geometry| > 1 then set n | n in geometry && outs[n].connected else geometry
  }

  /** Counting candidates, with the tie-break only when there are several, is the documented rule. */
  lemma CountingIsBinding(m: MonitorReply, outs: map<string, Output>, c: string)
    ensures |Filtered(m, outs)| == 1 && c in Filtered(m, outs) <==> BindsTo(m, outs, c)
  {
    var geometry := Candidates(m, outs);
    if c in geometry {
      Unique(geometry, c);
      if c in Filtered(m, outs) {
        Unique(Filtered(m, outs), c);
      }
      if |geometry| > 1 {
        assert exists n :: n in geometry && n != c;
        assert forall n :: n in Filtered(m, outs) <==> n in geometry && outs[n].connected;
      } else {
        assert |geometry| != 0;
      }
    }
  }

  /** One turn of the loop: filter, tie-break, accept a unique survivor. */
  method BindOne(m: MonitorReply, outs: map<string, Output>) returns (r: Option<string>)
    ensures forall c :: r == Some(c) <==> BindsTo(m, outs, c)
  {
    var matches := Candidates(m, outs);
    if |matches| > 1 {
      matches := set n | n in matches && outs[n].connected;
    }
    assert matches == Filtered(m, outs);
    forall c ensures |matches| == 1 && c in matches <==> BindsTo(m, outs, c) {
      CountingIsBinding(m, outs, c);
    }
    r := None;
    if |matches| == 1 {
      var c :| c in matches;
      Unique(matches, c);
      r := Some(c);
    }
  }

  method MatchMonitors(mons: seq<MonitorReply>, outs: map<string, Output>) returns (result: map<int, Option<string>>)
    requires DistinctNums(mons)
    ensures forall num :: num in result <==> exists i :: 0 <= i < |mons| && mons[i].num == num
    ensures forall i, c | 0 <= i < |mons| :: result[mons[i].num] == Some(c) <==> BindsTo(mons[i], outs, c)
  {
    result := map[];
    for k := 0 to |mons|
      invariant forall num :: num in result <==> exists i :: 0 <= i < k && mons[i].num == num
      invariant forall i, c | 0 <= i < k :: result[mons[i].num] == Some(c) <==> BindsTo(mons[i], outs, c)
    {
      var r := BindOne(mons[k], outs);
      result := result[mons[k].num := r];
    }
  }

  /** A monitor is never bound to a dark head: the head has the monitor's origin and its size for a mode. */
  lemma BoundIsLit(m: MonitorReply, outs: map<string, Output>, c: string)
    requires BindsTo(m, outs, c)
    ensures c in outs && outs[c].position.Some? && outs[c].mode.Some?
    ensures m.geometry == Some(Rect(outs[c].position.value.0, outs[c].position.value.1, outs[c].mode.value.0, outs[c].mode.value.1))
  {
  }

  /** Monitors at different places, or of different sizes, never share an output. */
  lemma BindingsAreSeparate(m: MonitorReply, k: MonitorReply, outs: map<string, Output>, c: string)
    requires m.geometry.Some? && k.geometry.Some? && m.geometry != k.geometry
    requires BindsTo(m, outs, c)
    ensures !BindsTo(k, outs, c)
  {
    assert SameGeometry(outs[c], m.geometry.value);
  }

  /** A mirrored pair that is connected on both sides is refused, not guessed. */
  lemma MirrorIsRefused(m: MonitorReply, outs: map<string, Output>, c: string, d: string)
    requires c != d && c in Candidates(m, outs) && d in Candidates(m, outs)
    requires outs[c].connected && outs[d].connected
    ensures forall x :: !BindsTo(m, outs, x)
  {
  }

  /** `{conn: num for num, conn in mapping.items() if conn is not None}`. */
  method InvertBindings(mons: seq<MonitorReply>, mapping: map<int, Option<string>>) returns (inv: map<string, int>)
    requires forall i | 0 <= i < |mons| :: mons[i].num in mapping
    ensures forall c | c in inv :: exists i :: 0 <= i < |mons| && mons[i].num == inv[c] && mapping[inv[c]] == Some(c)
    ensures forall i | 0 <= i < |mons| && mapping[mons[i].num].Some? :: mapping[mons[i].num].value in inv
  {
    inv := map[];
    for k := 0 to |mons|
      invariant forall c | c in inv :: exists i :: 0 <= i < k && mons[i].num == inv[c] && mapping[inv[c]] == Some(c)
      invariant forall i | 0 <= i < k && mapping[mons[i].num].Some? :: mapping[mons[i].num].value in inv
    {
      match mapping[mons[k].num]
      case None =>
      case Some(c) => inv := inv[c := mons[k].num];
    }
  }

  /** Every entry comes from a binding, and every bound output has an entry. */
  ghost predicate TableOf(table: map<string, int>, mons: seq<MonitorReply>, outs: map<string, Output>) {
    && (forall c | c in table :: exists i :: 0 <= i < |mons| && mons[i].num == table[c] && BindsTo(mons[i], outs, c))
    && (forall i, c | 0 <= i < |mons| && BindsTo(mons[i], outs, c) :: c in table)
  }

  ghost predicate SeparateGeometry(mons: seq<MonitorReply>) {
    && (forall i | 0 <= i < |mons| :: mons[i].geometry.Some?)
    && forall i, j | 0 <= i < j < |mons| :: mons[i].geometry != mons[j].geometry
  }

  /** MAIN RESULT. When no two monitors coincide the table is the exact inverse of the binding:
      an output is sent to a monitor exactly when that monitor binds to it. */
  method ConnectorTable(mons: seq<MonitorReply>, outs: map<string, Output>) returns (inv: map<string, int>)
    requires DistinctNums(mons)
    ensures TableOf(inv, mons, outs)
    ensures SeparateGeometry(mons) ==>
              forall i, c | 0 <= i < |mons| :: BindsTo(mons[i], outs, c) <==> c in inv && inv[c] == mons[i].num
  {
    var mapping := MatchMonitors(mons, outs);
    inv := InvertBindings(mons, mapping);
    forall i, c | 0 <= i < |mons| && BindsTo(mons[i], outs, c) ensures c in inv {
      assert mapping[mons[i].num] == Some(c);
    }
    if SeparateGeometry(mons) {
      forall i, c | 0 <= i < |mons| && BindsTo(mons[i], outs, c) ensures c in inv && inv[c] == mons[i].num {
        assert mapping[mons[i].num] == Some(c);
        var j :| 0 <= j < |mons| && mons[j].num == inv[c] && mapping[inv[c]] == Some(c);
        assert BindsTo(mons[j], outs, c);
        if i != j {
          BindingsAreSeparate(mons[i], mons[j], outs, c);
        }
      }
    }
  }
}
