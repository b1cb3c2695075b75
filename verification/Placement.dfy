/** `policy.py`: which side of what each external goes to. */
module Placement {
  import opened Identity

  const SIDES := ["right-of", "left-of", "above", "below"]
  const CHAIN := "right-of"

  datatype Slot = Slot(item: string, side: string, anchor: string)

  predicate StartsWith(s: string, prefix: string) {
    |prefix| <= |s| && s[..|prefix|] == prefix
  }

  predicate IsInternalLcd(name: string) {
    StartsWith(name, "eDP") || StartsWith(name, "LVDS") || StartsWith(name, "DSI") || StartsWith(name, "DPI")
  }

  lemma FourSides()
    ensures Distinct(SIDES) && |SIDES| == 4
  {
    assert SIDES[0][0] == 'r' && SIDES[1][0] == 'l' && SIDES[2][0] == 'a' && SIDES[3][0] == 'b';
  }

  /** What an item asks for: its stored side if that is a side at all. */
  function Wish(pref: string): string {
    if pref in SIDES then pref else CHAIN
  }

  /** The first side nobody holds. */
  function FirstFree(held: set<string>): (s: string)
    requires exists x | x in SIDES :: x !in held
    ensures s in SIDES && s !in held
    ensures exists i | 0 <= i < |SIDES| :: SIDES[i] == s && forall j | 0 <= j < i :: SIDES[j] in held
  {
    if SIDES[0] !in held then SIDES[0]
    else if SIDES[1] !in held then SIDES[1]
    else if SIDES[2] !in held then SIDES[2]
    else assert SIDES[3] !in held; SIDES[3]
  }

  function Held(ps: seq<Slot>): set<string> {
    set i | 0 <= i < |ps| :: ps[i].side
  }

  lemma {:induction false} FewHolders(ps: seq<Slot>)
    ensures |Held(ps)| <= |ps|
  {
    if ps != [] {
      var n := |ps| - 1;
      FewHolders(ps[..n]);
      assert Held(ps) == Held(ps[..n]) + {ps[n].side} by {
        forall s ensures s in Held(ps) <==> s in Held(ps[..n]) + {ps[n].side} {
          if s in Held(ps[..n]) {
            var i :| 0 <= i < n && ps[..n][i].side == s;
            assert ps[i].side == s;
          }
          if s in Held(ps) && s != ps[n].side {
            var i :| 0 <= i < |ps| && ps[i].side == s;
            assert ps[..n][i].side == s;
          }
        }
      }
    }
  }

  lemma SomeSideIsFree(ps: seq<Slot>)
    requires |ps| < 4
    ensures exists x | x in SIDES :: x !in Held(ps)
  {
    FewHolders(ps);
    FourSides();
    if forall x | x in SIDES :: x in Held(ps) {
      var all := {SIDES[0], SIDES[1], SIDES[2], SIDES[3]};
      assert |all| == 4;
      assert all <= Held(ps) by { assert forall i | 0 <= i < 4 :: SIDES[i] in SIDES; }
      SubsetIsSmaller(all, Held(ps));
    }
  }

  lemma {:induction false} SubsetIsSmaller<T>(a: set<T>, b: set<T>)
    requires a <= b
    ensures |a| <= |b|
  {
    if a != {} {
      var x :| x in a;
      SubsetIsSmaller(a - {x}, b - {x});
    }
  }

  /** The side an item gets next to the primary, given the slots handed out before it. */
  function Side(ps: seq<Slot>, pref: string): (s: string)
    requires |ps| < 4
    ensures s in SIDES && s !in Held(ps)
  {
    SomeSideIsFree(ps);
    if Wish(pref) in Held(ps) then FirstFree(Held(ps)) else Wish(pref)
  }

  /** The slots for the items, newest first. */
  function Assign(ordered: seq<(string, string)>, anchor: string): (ps: seq<Slot>)
    ensures |ps| == |ordered|
    ensures forall i | 0 <= i < |ps| :: ps[i].item == ordered[i].0
  {
    if ordered == [] then []
    else
      var n := |ordered| - 1;
      var ps := Assign(ordered[..n], anchor);
      ps + [if n >= 4 then Slot(ordered[n].0, CHAIN, ordered[n - 1].0)
            else Slot(ordered[n].0, Side(ps, ordered[n].1), anchor)]
  }

  /** The slots of a shorter list are a prefix: later items never move earlier ones. */
  lemma {:induction false} AssignPrefix(ordered: seq<(string, string)>, anchor: string, n: nat)
    requires n <= |ordered|
    ensures Assign(ordered[..n], anchor) == Assign(ordered, anchor)[..n]
  {
    if n == |ordered| {
      assert ordered[..n] == ordered;
    } else {
      var m := |ordered| - 1;
      AssignPrefix(ordered[..m], anchor, n);
      assert ordered[..m][..n] == ordered[..n];
      assert Assign(ordered, anchor)[..m] == Assign(ordered[..m], anchor);
    }
  }

  function NextSlot(ps: seq<Slot>, lastItem: string, item: string, pref: string, anchor: string): Slot {
    if |ps| >= 4 then Slot(item, CHAIN, lastItem) else Slot(item, Side(ps, pref), anchor)
  }

  lemma AssignNext(ordered: seq<(string, string)>, anchor: string, i: nat)
    requires i < |ordered|
    ensures var ps := Assign(ordered[..i], anchor);
            var lastItem := if i > 0 then ordered[i - 1].0 else "";
            Assign(ordered[..i + 1], anchor) == ps + [NextSlot(ps, lastItem, ordered[i].0, ordered[i].1, anchor)]
  {
    assert ordered[..i + 1][..i] == ordered[..i];
  }

  /** `occupied` holds the sides next to the primary that the slots so far have taken. */
  ghost predicate Tracks(occupied: map<string, string>, ps: seq<Slot>) {
    && |occupied| == (if |ps| < 4 then |ps| else 4)
    && (|ps| < 4 ==> occupied.Keys == Held(ps))
  }

  /** One turn of the loop of `assign_placements`. */
  method PlaceOne(occupied: map<string, string>, lastItem: string, item: string, pref: string, anchor: string,
                  ghost ps: seq<Slot>)
    returns (slot: Slot, now: map<string, string>)
    requires Tracks(occupied, ps)
    ensures slot == NextSlot(ps, lastItem, item, pref, anchor)
    ensures Tracks(now, ps + [slot])
  {
    now := occupied;
    if |occupied| >= |SIDES| {
      slot := Slot(item, CHAIN, lastItem);
    } else {
      SomeSideIsFree(ps);
      var side := if pref in SIDES then pref else CHAIN;
      if side in occupied {
        side := FirstFree(occupied.Keys);
      }
      now := occupied[side := item];
      slot := Slot(item, side, anchor);
      TracksMore(occupied, ps, slot);
    }
  }

  lemma TracksMore(occupied: map<string, string>, ps: seq<Slot>, slot: Slot)
    requires Tracks(occupied, ps) && |ps| < 4 && slot.side !in occupied
    ensures Tracks(occupied[slot.side := slot.item], ps + [slot])
  {
    HeldGrows(ps, slot);
    var now := occupied[slot.side := slot.item];
    assert now.Keys == occupied.Keys + {slot.side};
    assert |now.Keys| == |occupied.Keys| + 1;
  }

  /** `assign_placements`. */
  method AssignPlacements(ordered: seq<(string, string)>, anchor: string) returns (placements: seq<Slot>)
    ensures placements == Assign(ordered, anchor)
  {
    placements := [];
    var occupied: map<string, string> := map[];
    var lastItem := "";
    for i := 0 to |ordered|
      invariant placements == Assign(ordered[..i], anchor)
      invariant Tracks(occupied, placements)
      invariant lastItem == if i > 0 then ordered[i - 1].0 else ""
    {
      var (item, pref) := ordered[i];
      var slot;
      slot, occupied := PlaceOne(occupied, lastItem, item, pref, anchor, placements);
      AssignNext(ordered, anchor, i);
      placements := placements + [slot];
      lastItem := item;
    }
    assert ordered[..|ordered|] == ordered;
  }

  lemma HeldGrows(ps: seq<Slot>, p: Slot)
    ensures Held(ps + [p]) == Held(ps) + {p.side}
  {
    forall s | s in Held(ps) ensures s in Held(ps + [p]) {
      var i :| 0 <= i < |ps| && ps[i].side == s;
      assert (ps + [p])[i].side == s;
    }
    assert (ps + [p])[|ps|] == p;
  }

  // ---- what the policy promises --------------------------------------------------------------

  /** One of the first four takes the side it asked for unless an earlier item holds that side, in
      which case it takes the first free one; from the fifth on, items hang off their predecessor. */
  lemma SlotOf(ordered: seq<(string, string)>, anchor: string, i: nat)
    requires i < |ordered|
    ensures var ps := Assign(ordered, anchor);
            if i >= 4 then ps[i] == Slot(ordered[i].0, "right-of", ordered[i - 1].0)
            else ps[i].anchor == anchor && ps[i].side == Side(ps[..i], ordered[i].1)
  {
    AssignPrefix(ordered, anchor, i);
    AssignPrefix(ordered, anchor, i + 1);
    assert ordered[..i + 1][..i] == ordered[..i];
    assert Assign(ordered, anchor)[i] == Assign(ordered[..i + 1], anchor)[i];
  }

  /** A valid stored side is honoured exactly when no earlier item holds it. */
  lemma StoredSideIsHonoured(ordered: seq<(string, string)>, anchor: string, i: nat)
    requires i < |ordered| && i < 4 && ordered[i].1 in ["right-of", "left-of", "above", "below"]
    ensures var ps := Assign(ordered, anchor);
            ps[i].side == ordered[i].1 <==> forall j | 0 <= j < i :: ps[j].side != ordered[i].1
  {
    var ps := Assign(ordered, anchor);
    SlotOf(ordered, anchor, i);
    if ordered[i].1 in Held(ps[..i]) {
      var j :| 0 <= j < i && ps[..i][j].side == ordered[i].1;
      assert ps[j].side == ordered[i].1;
    } else {
      forall j | 0 <= j < i ensures ps[j].side != ordered[i].1 {
        assert ps[..i][j].side in Held(ps[..i]);
      }
    }
  }

  /** An item whose wish is free gets it, and one without a valid wish asks for the right; otherwise it gets the first of
      right, left, above and below that no earlier item holds. */
  lemma WishOrFirstFree(ordered: seq<(string, string)>, anchor: string, i: nat)
    requires i < |ordered| && i < 4
    ensures var ps := Assign(ordered, anchor);
            var sides := ["right-of", "left-of", "above", "below"];
            var wish := if ordered[i].1 in sides then ordered[i].1 else "right-of";
            if wish !in Held(ps[..i]) then ps[i].side == wish
            else exists k | 0 <= k < 4 :: sides[k] == ps[i].side && ps[i].side !in Held(ps[..i])
                                          && forall m | 0 <= m < k :: sides[m] in Held(ps[..i])
  {
    SlotOf(ordered, anchor, i);
    assert SIDES == ["right-of", "left-of", "above", "below"];
  }

  ghost predicate DistinctItems(ordered: seq<(string, string)>, anchor: string) {
    && (forall i, j | 0 <= i < j < |ordered| :: ordered[i].0 != ordered[j].0)
    && (forall i | 0 <= i < |ordered| :: ordered[i].0 != anchor)
  }

  /** MAIN RESULT. No two items are sent to the same side of the same output. */
  lemma SlotsNeverCollide(ordered: seq<(string, string)>, anchor: string, i: nat, j: nat)
    requires DistinctItems(ordered, anchor) && i < j < |ordered|
    ensures var ps := Assign(ordered, anchor); (ps[i].side, ps[i].anchor) != (ps[j].side, ps[j].anchor)
  {
    var ps := Assign(ordered, anchor);
    SlotOf(ordered, anchor, i);
    SlotOf(ordered, anchor, j);
    if j < 4 {
      assert ps[..j][i].side in Held(ps[..j]);
    }
  }

  /** Following anchors from `x`, at most `n` of them, ends at the primary. */
  predicate Reaches(ps: seq<Slot>, x: string, primary: string, n: nat)
    decreases n
  {
    x == primary || (n > 0 && exists i | 0 <= i < |ps| :: ps[i].item == x && Reaches(ps, ps[i].anchor, primary, n - 1))
  }

  lemma {:induction false} AnchorsReachPrimary(ordered: seq<(string, string)>, anchor: string, i: nat)
    requires i < |ordered|
    ensures Reaches(Assign(ordered, anchor), ordered[i].0, anchor, i + 1)
  {
    SlotOf(ordered, anchor, i);
    var ps := Assign(ordered, anchor);
    if i >= 4 {
      AnchorsReachPrimary(ordered, anchor, i - 1);
    } else {
      assert Reaches(ps, ps[i].anchor, anchor, i);
    }
    assert ps[i].item == ordered[i].0;
  }
}
