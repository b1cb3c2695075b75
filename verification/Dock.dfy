/** A small docking history: monitor z was once on ports A and C, monitor x on port B. */
module Dock {
  import opened Wrappers
  import opened Outputs
  import opened Identity

  function Head(name: string, edid: string): Output {
    Output(name, true, None, None, Some(edid))
  }

  /** What was stored along the way. */
  function Docked(z: string, x: string): State {
    Ensure(Ensure(Ensure(FRESH, Head("A", z), "right-of"), Head("C", z), "right-of"), Head("B", x), "right-of")
  }

  lemma OnPortA(z: string)
    requires IsSha1(z)
    ensures var a := Ensure(FRESH, Head("A", z), "right-of");
            && Agree(a) && a.ids == map[EdidKey(z) := Pid(z), ConnKey("A") := Pid(z)]
            && a.profs == map[Pid(z) := Profile(["A"], Some(z), "right-of")]
  {
    EnsureAgrees(FRESH, Head("A", z), "right-of");
  }

  lemma OnPortC(a: State, z: string)
    requires IsSha1(z) && Agree(a)
    requires a.ids == map[EdidKey(z) := Pid(z), ConnKey("A") := Pid(z)]
    requires a.profs == map[Pid(z) := Profile(["A"], Some(z), "right-of")]
    ensures var c := Ensure(a, Head("C", z), "right-of");
            && Agree(c) && c.ids == map[EdidKey(z) := Pid(z), ConnKey("A") := Pid(z), ConnKey("C") := Pid(z)]
            && c.profs == map[Pid(z) := Profile(["A", "C"], Some(z), "right-of")]
  {
    EnsureAgrees(a, Head("C", z), "right-of");
    assert EdidKey(z) in IdentKeys(Head("C", z));
    assert "A"[0] != "C"[0];
    assert ["A"] + ["C"] == ["A", "C"];
  }

  /** Two monitors, two profiles. */
  predicate TwoProfiles(st: State, z: string, x: string) {
    && st.ids == map[EdidKey(z) := Pid(z), ConnKey("A") := Pid(z), ConnKey("C") := Pid(z),
                     EdidKey(x) := Pid(x), ConnKey("B") := Pid(x)]
    && st.profs == map[Pid(z) := Profile(["A", "C"], Some(z), "right-of"), Pid(x) := Profile(["B"], Some(x), "right-of")]
  }

  lemma OnPortB(c: State, z: string, x: string)
    requires IsSha1(x) && z != x && Agree(c)
    requires c.ids == map[EdidKey(z) := Pid(z), ConnKey("A") := Pid(z), ConnKey("C") := Pid(z)]
    requires c.profs == map[Pid(z) := Profile(["A", "C"], Some(z), "right-of")]
    ensures Agree(Ensure(c, Head("B", x), "right-of")) && TwoProfiles(Ensure(c, Head("B", x), "right-of"), z, x)
  {
    assert "A"[0] != "B"[0] && "C"[0] != "B"[0];
    assert !Known(c, Head("B", x));
    EnsureAgrees(c, Head("B", x), "right-of");
  }

  lemma DockedIs(z: string, x: string)
    requires IsSha1(z) && IsSha1(x) && z != x
    ensures Agree(Docked(z, x)) && TwoProfiles(Docked(z, x), z, x)
  {
    OnPortA(z);
    OnPortC(Ensure(FRESH, Head("A", z), "right-of"), z);
    OnPortB(Ensure(Ensure(FRESH, Head("A", z), "right-of"), Head("C", z), "right-of"), z, x);
  }
}
