/** `set_pref` of `cli.py`: what it stores, what it refuses, and when its own loop undoes it. */
module Preference {
  import opened Wrappers
  import opened Outputs
  import opened Dock
  import opened Identity

  const SIDES_VALID := {"right-of", "left-of", "above", "below"}

  /** The command-line argument, and the profile id it spells if it spells one. */
  datatype Wanted = Wanted(text: string, id: Option<Pid>)
  datatype Outcome = BadSide | NoMatch | Saved(st: State, matched: seq<Pid>)

  predicate Names(o: Output, w: Wanted) {
    o.connected
    && (o.name == w.text || (o.edid.Some? && "edid:" + o.edid.value == w.text) || "conn:" + o.name == w.text)
  }

  function Visit(st: State, o: Output, w: Wanted, side: string, defaultSide: string): State {
    if !o.connected then st
    else if Names(o, w) then Preferring(Ensure(st, o, defaultSide), Target(st, o), side)
    else Ensure(st, o, defaultSide)
  }

  function Visited(st: State, outs: seq<Output>, w: Wanted, side: string, defaultSide: string): State {
    if outs == [] then st
    else Visit(Visited(st, outs[..|outs| - 1], w, side, defaultSide), outs[|outs| - 1], w, side, defaultSide)
  }

  lemma VisitAgrees(st: State, o: Output, w: Wanted, side: string, defaultSide: string)
    requires Agree(st) && Plain(o)
    ensures Agree(Visit(st, o, w, side, defaultSide))
    ensures o.connected ==> Target(st, o) in Visit(st, o, w, side, defaultSide).profs
  {
    if o.connected {
      EnsureAgrees(st, o, defaultSide);
      var mid, p := Ensure(st, o, defaultSide), Target(st, o);
      assert Sound(mid, mid.ids[ConnKey(o.name)]);
      PreferringAgrees(mid, p, Lookup(mid.profs, p).(side := side));
    }
  }

  lemma {:induction false} VisitedAgrees(st: State, outs: seq<Output>, w: Wanted, side: string, defaultSide: string)
    requires Agree(st) && AllPlain(outs)
    ensures Agree(Visited(st, outs, w, side, defaultSide))
  {
    if outs != [] {
      var n := |outs| - 1;
      VisitedAgrees(st, outs[..n], w, side, defaultSide);
      VisitAgrees(Visited(st, outs[..n], w, side, defaultSide), outs[n], w, side, defaultSide);
    }
  }

  /** One turn of the loop: the profile that was given the side, if the argument names this output. */
  method VisitNext(store: Store, o: Output, w: Wanted, side: string, defaultSide: string) returns (matched: Option<Pid>)
    requires Agree(store.View()) && Plain(o)
    modifies store
    ensures store.View() == Visit(old(store.View()), o, w, side, defaultSide) && Agree(store.View())
    ensures matched == if Names(o, w) then Some(Target(old(store.View()), o)) else None
  {
    matched := None;
    if o.connected {
      var pid := store.EnsureProfile(o, defaultSide);
      if o.name == w.text || (o.edid.Some? && "edid:" + o.edid.value == w.text) || "conn:" + o.name == w.text {
        store.Prefer(pid, side);
        matched := Some(pid);
      }
    }
  }

  /** `set_pref`, under the state lock: nothing is stored unless something matched. */
  method SetPref(outs: seq<Output>, w: Wanted, side: string, defaultSide: string, loaded: Option<State>)
    returns (r: Outcome)
    requires AllPlain(outs) && (loaded.Some? ==> Agree(loaded.value))
    ensures r.BadSide? <==> side !in ["right-of", "left-of", "above", "below"]
    ensures var st := if loaded.Some? then loaded.value else FRESH;
            var seen := Visited(st, outs, w, side, defaultSide);
            var known := w.id.Some? && w.id.value in seen.profs;
            !r.BadSide? ==>
            if exists o | o in outs :: Names(o, w) then r.Saved? && r.st == seen && r.matched != []
            else if known then r == Saved(Preferring(seen, w.id.value, side), [w.id.value])
            else r == NoMatch
    ensures r.Saved? ==> Agree(r.st)
  {
    if side !in SIDES_VALID {
      return BadSide;
    }
    var store := new Store(loaded);
    ghost var st := store.View();
    var matched: seq<Pid> := [];
    for i := 0 to |outs|
      invariant Agree(store.View())
      invariant store.View() == Visited(st, outs[..i], w, side, defaultSide)
      invariant matched != [] <==> exists o | o in outs[..i] :: Names(o, w)
    {
      assert outs[..i + 1][..i] == outs[..i] && outs[..i + 1] == outs[..i] + [outs[i]];
      var pid := VisitNext(store, outs[i], w, side, defaultSide);
      if pid.Some? { matched := matched + [pid.value]; }
    }
    assert outs[..|outs|] == outs;
    if matched == [] && w.id.Some? && w.id.value in store.profs {
      assert SeedKey(w.id.value) in store.ids;
      store.Prefer(w.id.value, side);
      matched := matched + [w.id.value];
    }
    if matched == [] {
      return NoMatch;
    }
    r := Saved(store.View(), matched);
  }

  // ---- does the preference survive the rest of the loop? -------------------------------------

  /** State of the loop before output `j`. */
  function Before(st: State, outs: seq<Output>, j: nat, w: Wanted, side: string, defaultSide: string): State
    requires j <= |outs|
  {
    Visited(st, outs[..j], w, side, defaultSide)
  }

  /** Output `j` folds the class of `k` into a profile that already prefers another side. */
  ghost predicate Undoes(st: State, outs: seq<Output>, j: nat, k: Key, w: Wanted, side: string, defaultSide: string)
    requires j < |outs|
  {
    outs[j].connected && Overruled(Before(st, outs, j, w, side, defaultSide), outs[j], k)
  }

  /** Output `i` is the last one the argument names. */
  predicate LastNamed(outs: seq<Output>, i: nat, w: Wanted) {
    i < |outs| && Names(outs[i], w) && forall j | i < j < |outs| :: !Names(outs[j], w)
  }

  lemma BeforeNext(st: State, outs: seq<Output>, j: nat, w: Wanted, side: string, defaultSide: string)
    requires j < |outs|
    ensures Before(st, outs, j + 1, w, side, defaultSide)
         == Visit(Before(st, outs, j, w, side, defaultSide), outs[j], w, side, defaultSide)
  {
    assert outs[..j + 1][..j] == outs[..j];
  }

  lemma NamedIsSet(st: State, outs: seq<Output>, i: nat, w: Wanted, side: string, defaultSide: string)
    requires Agree(st) && AllPlain(outs) && LastNamed(outs, i, w)
    ensures SideOf(Before(st, outs, i + 1, w, side, defaultSide), ConnKey(outs[i].name)) == side
  {
    BeforeNext(st, outs, i, w, side, defaultSide);
  }

  /** One unnamed output: the side of a class that has one stays unless it is overruled. */
  lemma OneMore(st: State, outs: seq<Output>, j: nat, k: Key, w: Wanted, side: string, defaultSide: string)
    requires Agree(st) && AllPlain(outs) && j < |outs| && !Names(outs[j], w)
    requires SideOf(Before(st, outs, j, w, side, defaultSide), k) != ""
    ensures SideOf(Before(st, outs, j + 1, w, side, defaultSide), k) != ""
    ensures SideOf(Before(st, outs, j + 1, w, side, defaultSide), k) == SideOf(Before(st, outs, j, w, side, defaultSide), k)
            <==> !Undoes(st, outs, j, k, w, side, defaultSide)
  {
    BeforeNext(st, outs, j, w, side, defaultSide);
    VisitedAgrees(st, outs[..j], w, side, defaultSide);
    if outs[j].connected {
      SideKeptUnlessOverruled(Before(st, outs, j, w, side, defaultSide), outs[j], defaultSide, k);
    }
  }

  lemma {:induction false} QuietStretch(st: State, outs: seq<Output>, a: nat, b: nat, k: Key,
                                        w: Wanted, side: string, defaultSide: string)
    requires Agree(st) && AllPlain(outs) && a <= b <= |outs|
    requires forall j | a <= j < b :: !Names(outs[j], w) && !Undoes(st, outs, j, k, w, side, defaultSide)
    requires SideOf(Before(st, outs, a, w, side, defaultSide), k) != ""
    ensures SideOf(Before(st, outs, b, w, side, defaultSide), k) == SideOf(Before(st, outs, a, w, side, defaultSide), k)
    decreases b - a
  {
    if a < b {
      OneMore(st, outs, a, k, w, side, defaultSide);
      QuietStretch(st, outs, a + 1, b, k, w, side, defaultSide);
    }
  }

  /** With no later output folding it away, the preference is what gets saved. */
  lemma PreferenceKept(st: State, outs: seq<Output>, i: nat, w: Wanted, side: string, defaultSide: string)
    requires Agree(st) && AllPlain(outs) && LastNamed(outs, i, w) && side != ""
    requires forall j | i < j < |outs| :: !Undoes(st, outs, j, ConnKey(outs[i].name), w, side, defaultSide)
    ensures SideOf(Visited(st, outs, w, side, defaultSide), ConnKey(outs[i].name)) == side
  {
    NamedIsSet(st, outs, i, w, side, defaultSide);
    QuietStretch(st, outs, i + 1, |outs|, ConnKey(outs[i].name), w, side, defaultSide);
    assert outs[..|outs|] == outs;
  }

  /** The side of the profile that output `j` folds its class into. */
  function SideTaken(st: State, outs: seq<Output>, j: nat, w: Wanted, side: string, defaultSide: string): string
    requires j < |outs|
  {
    var before := Before(st, outs, j, w, side, defaultSide);
    Lookup(before.profs, Target(before, outs[j])).side
  }

  /** An overruled class takes the side of the profile it is folded into. */
  lemma UndoneTakes(st: State, outs: seq<Output>, j: nat, k: Key, w: Wanted, side: string, defaultSide: string)
    requires Agree(st) && AllPlain(outs) && j < |outs| && !Names(outs[j], w)
    requires Undoes(st, outs, j, k, w, side, defaultSide)
    ensures SideOf(Before(st, outs, j + 1, w, side, defaultSide), k) == SideTaken(st, outs, j, w, side, defaultSide)
    ensures SideTaken(st, outs, j, w, side, defaultSide) != ""
  {
    BeforeNext(st, outs, j, w, side, defaultSide);
    VisitedAgrees(st, outs[..j], w, side, defaultSide);
    SideAcrossMerge(Before(st, outs, j, w, side, defaultSide), outs[j], defaultSide, k);
  }

  /** Output `j` is the last one to undo the preference stored at output `i`. */
  ghost predicate LastUndoing(st: State, outs: seq<Output>, i: nat, j: nat, k: Key, w: Wanted, side: string, defaultSide: string) {
    && i < j < |outs| && Undoes(st, outs, j, k, w, side, defaultSide)
    && forall l | j < l < |outs| :: !Undoes(st, outs, l, k, w, side, defaultSide)
  }

  /** What the last one makes of it is what gets saved. */
  lemma LastDecides(st: State, outs: seq<Output>, i: nat, j: nat, w: Wanted, side: string, defaultSide: string)
    requires Agree(st) && AllPlain(outs) && LastNamed(outs, i, w)
    requires LastUndoing(st, outs, i, j, ConnKey(outs[i].name), w, side, defaultSide)
    ensures SideOf(Visited(st, outs, w, side, defaultSide), ConnKey(outs[i].name)) == SideTaken(st, outs, j, w, side, defaultSide)
  {
    var k := ConnKey(outs[i].name);
    UndoneTakes(st, outs, j, k, w, side, defaultSide);
    QuietStretch(st, outs, j + 1, |outs|, k, w, side, defaultSide);
    assert outs[..|outs|] == outs;
  }

  lemma {:induction false} SomeLast(st: State, outs: seq<Output>, i: nat, n: nat, k: Key, w: Wanted, side: string, defaultSide: string)
    returns (j: nat)
    requires n <= |outs| && forall l | n <= l < |outs| :: !Undoes(st, outs, l, k, w, side, defaultSide)
    requires exists l :: i < l < |outs| && Undoes(st, outs, l, k, w, side, defaultSide)
    ensures LastUndoing(st, outs, i, j, k, w, side, defaultSide)
    decreases n
  {
    var l :| i < l < |outs| && Undoes(st, outs, l, k, w, side, defaultSide);
    if Undoes(st, outs, n - 1, k, w, side, defaultSide) {
      j := n - 1;
    } else {
      j := SomeLast(st, outs, i, n - 1, k, w, side, defaultSide);
    }
  }

  ghost predicate NeverUndone(st: State, outs: seq<Output>, i: nat, k: Key, w: Wanted, side: string, defaultSide: string) {
    forall j | i < j < |outs| :: !Undoes(st, outs, j, k, w, side, defaultSide)
  }

  /** The last output to undo it folds the class into a profile that prefers that very side. */
  ghost predicate UndoneInFavour(st: State, outs: seq<Output>, i: nat, k: Key, w: Wanted, side: string, defaultSide: string) {
    exists j: nat :: LastUndoing(st, outs, i, j, k, w, side, defaultSide) && SideTaken(st, outs, j, w, side, defaultSide) == side
  }

  /** EXACT CONDITION, for every list. The preference that was just stored is what gets saved if and only if no later
      output undoes it, or the last one that does folds its class into a profile that prefers that very side. */
  lemma PreferenceSaved(st: State, outs: seq<Output>, i: nat, w: Wanted, side: string, defaultSide: string)
    requires Agree(st) && AllPlain(outs) && LastNamed(outs, i, w) && side != ""
    ensures var k := ConnKey(outs[i].name);
            SideOf(Visited(st, outs, w, side, defaultSide), k) == side
            <==> NeverUndone(st, outs, i, k, w, side, defaultSide) || UndoneInFavour(st, outs, i, k, w, side, defaultSide)
  {
    var k := ConnKey(outs[i].name);
    if NeverUndone(st, outs, i, k, w, side, defaultSide) {
      PreferenceKept(st, outs, i, w, side, defaultSide);
    } else {
      var j := SomeLast(st, outs, i, |outs|, k, w, side, defaultSide);
      LastDecides(st, outs, i, j, w, side, defaultSide);
      if UndoneInFavour(st, outs, i, k, w, side, defaultSide) {
        var l: nat :| LastUndoing(st, outs, i, l, k, w, side, defaultSide) && SideTaken(st, outs, l, w, side, defaultSide) == side;
        LastIsOne(st, outs, i, j, l, k, w, side, defaultSide);
      }
    }
  }

  lemma LastIsOne(st: State, outs: seq<Output>, i: nat, j: nat, l: nat, k: Key, w: Wanted, side: string, defaultSide: string)
    requires LastUndoing(st, outs, i, j, k, w, side, defaultSide) && LastUndoing(st, outs, i, l, k, w, side, defaultSide)
    ensures j == l
  {
  }

  // ---- it can be undone ---------------------------------------------------------------------

  lemma AskedAbove(st: State, z: string, x: string, w: Wanted)
    requires z != x && w == Wanted("A", None) && TwoProfiles(st, z, x)
    ensures var mid := Visit(st, Head("A", z), w, "above", "right-of");
            && mid.ids == st.ids && Pid(x) in mid.profs && Pid(z) in mid.profs
            && mid.profs[Pid(z)].side == "above" && mid.profs[Pid(x)].side == "right-of"
  {
    assert EdidKey(z) in IdentKeys(Head("A", z));
  }

  lemma TakenOver(mid: State, z: string, x: string, w: Wanted)
    requires z != x && w == Wanted("A", None)
    requires mid.ids == map[EdidKey(z) := Pid(z), ConnKey("A") := Pid(z), ConnKey("C") := Pid(z),
                            EdidKey(x) := Pid(x), ConnKey("B") := Pid(x)]
    requires Pid(x) in mid.profs && Pid(z) in mid.profs
    requires mid.profs[Pid(z)].side == "above" && mid.profs[Pid(x)].side == "right-of"
    ensures !Names(Head("C", x), w)
    ensures Overruled(mid, Head("C", x), ConnKey("A"))
    ensures SideOf(Visit(mid, Head("C", x), w, "above", "right-of"), ConnKey("A")) == "right-of"
  {
    assert ("edid:" + x)[0] == 'e' && "C"[0] != "A"[0] && "right-of"[0] != "above"[0];
    assert ("conn:" + "C")[0] == 'c';
  }

  lemma VisitedTwo(st: State, a: Output, c: Output, w: Wanted, side: string, defaultSide: string)
    ensures Before(st, [a, c], 1, w, side, defaultSide) == Visit(st, a, w, side, defaultSide)
    ensures Visited(st, [a, c], w, side, defaultSide) == Visit(Visit(st, a, w, side, defaultSide), c, w, side, defaultSide)
  {
    BeforeNext(st, [a, c], 0, w, side, defaultSide);
    BeforeNext(st, [a, c], 1, w, side, defaultSide);
    assert [a, c][..2] == [a, c];
  }

  /** COUNTEREXAMPLE. z sits on A, x moves to C, and the user prefers A above: the loop stores the
      preference at A and drops it at C, where x's own profile takes z's class over. */
  lemma PreferenceLost(z: string, x: string)
    requires IsSha1(z) && IsSha1(x) && z != x
    ensures var outs := [Head("A", z), Head("C", x)];
            var w := Wanted("A", None);
            && LastNamed(outs, 0, w)
            && Undoes(Docked(z, x), outs, 1, ConnKey("A"), w, "above", "right-of")
            && SideOf(Visited(Docked(z, x), outs, w, "above", "right-of"), ConnKey("A")) == "right-of"
  {
    DockedIs(z, x);
    LostFrom(Docked(z, x), z, x);
  }

  lemma LostFrom(st: State, z: string, x: string)
    requires z != x && TwoProfiles(st, z, x)
    ensures var outs := [Head("A", z), Head("C", x)];
            var w := Wanted("A", None);
            && LastNamed(outs, 0, w)
            && Undoes(st, outs, 1, ConnKey("A"), w, "above", "right-of")
            && SideOf(Visited(st, outs, w, "above", "right-of"), ConnKey("A")) == "right-of"
  {
    var w := Wanted("A", None);
    AskedAbove(st, z, x, w);
    TakenOver(Visit(st, Head("A", z), w, "above", "right-of"), z, x, w);
    VisitedTwo(st, Head("A", z), Head("C", x), w, "above", "right-of");
  }
}
