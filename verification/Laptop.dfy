/** A small desktop: a laptop with an external monitor, and one window that goes with it. */
module Laptop {
  import opened Wrappers
  import opened Outputs
  import opened Matching
  import opened Desktop

  function Panel(name: string, x: int): Output {
    Output(name, true, Some((10, 10)), Some((x, 0)), None)
  }

  /** A laptop panel with an external monitor beside it, and one tiled window on monitor `m`. */
  function TwoHeads(m: nat): World
    requires m < 2
  {
    assert "eDP-1"[0] != "HDMI-1"[0];
    Tables([Rect(0, 0, 10, 10), Rect(10, 0, 10, 10)], [1, 1], [7], map[7 := Place(m, 1, false)], map[7 := Rect(10 * m, 0, 10, 10)],
           m, Some(7), map[7 := 42], map[42 := 1000], map["eDP-1" := Panel("eDP-1", 0), "HDMI-1" := Panel("HDMI-1", 10)])
  }

  /** The same after the external monitor went: one screen, the window evacuated to it. */
  function OneHead(): World {
    Tables([Rect(0, 0, 10, 10)], [1], [7], map[7 := Place(0, 1, false)], map[7 := Rect(0, 0, 10, 10)],
           0, Some(7), map[7 := 42], map[42 := 1000], map["eDP-1" := Panel("eDP-1", 0)])
  }

  /** The same desktop with a floating window on every tag of the panel's monitor, as a clock might be. */
  function WithClock(w: World): World
    requires 8 !in w.place
  {
    assert 8 !in w.order;
    w.(order := w.order + [8], place := w.place[8 := Place(0, 0xFFFF_FFFF, true)], geom := w.geom[8 := Rect(0, 0, 1, 1)],
       owner := w.owner[8 := 43], procs := w.procs[43 := 1001])
  }

  /** Both heads are there. */
  predicate Docked(w: World) {
    w.rects == [Rect(0, 0, 10, 10), Rect(10, 0, 10, 10)] && w.outs == TwoHeads(0).outs
  }

  lemma HeadsLit()
    ensures Lit(TwoHeads(0).outs) == {"eDP-1", "HDMI-1"} && Lit(OneHead().outs) == {"eDP-1"} && "HDMI-1" !in Lit(OneHead().outs)
  {
    assert "eDP-1"[0] != "HDMI-1"[0];
  }

  lemma ExternalBinds(w: World)
    requires Docked(w)
    ensures BindsTo(Report(w)[1], w.outs, "HDMI-1") && !BindsTo(Report(w)[0], w.outs, "HDMI-1")
  {
    assert "eDP-1"[0] != "HDMI-1"[0];
    assert Candidates(Report(w)[1], w.outs) == {"HDMI-1"};
  }
}
