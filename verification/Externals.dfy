/** `_place_externals` of `apply.py`: profiles, the recency stack and the slots of the externals. */
module Externals {
  import opened Ordering
  import opened Outputs
  import opened Identity
  import opened Placement

  /** The externals of one apply: outputs under their own names, none of them the primary. */
  ghost predicate AreExternals(exts: seq<Output>, primary: string) {
    && (forall i | 0 <= i < |exts| :: Plain(exts[i]) && exts[i].name != primary)
    && (forall i, j | 0 <= i < j < |exts| :: exts[i].name != exts[j].name)
  }

  // ---- profiles of the externals ----------------------------------------------------------

  /** The state after the first `n` externals were seen. */
  function SightedTo(st: State, exts: seq<Output>, side: string, n: nat): State
    requires n <= |exts|
    decreases n, 0
  {
    if n == 0 then st else SeeOne(st, exts, side, n - 1)
  }

  /** The state after external `n` was seen, on top of the first `n`. */
  function SeeOne(st: State, exts: seq<Output>, side: string, n: nat): State
    requires n < |exts|
    decreases n, 1
  {
    Ensure(SightedTo(st, exts, side, n), exts[n], side)
  }

  function Sighted(st: State, exts: seq<Output>, side: string): State {
    SightedTo(st, exts, side, |exts|)
  }

  /** The id each external was given when it was its turn. */
  function Pids(st: State, exts: seq<Output>, side: string): (pids: seq<Pid>)
    ensures |pids| == |exts|
  {
    seq(|exts|, i requires 0 <= i < |exts| => Target(SightedTo(st, exts, side, i), exts[i]))
  }

  /** `pid_by_output` after `n` externals. */
  function ByOutputTo(exts: seq<Output>, pids: seq<Pid>, n: nat): map<string, Pid>
    requires n <= |exts| && n <= |pids|
  {
    if n == 0 then map[] else ByOutputTo(exts, pids, n - 1)[exts[n - 1].name := pids[n - 1]]
  }

  function ByOutput(exts: seq<Output>, pids: seq<Pid>): map<string, Pid>
    requires |exts| == |pids|
  {
    ByOutputTo(exts, pids, |exts|)
  }

  lemma {:induction false} ByOutputToAt(exts: seq<Output>, pids: seq<Pid>, n: nat, i: nat)
    requires i < n <= |exts| && n <= |pids|
    requires forall i, j | 0 <= i < j < |exts| :: exts[i].name != exts[j].name
    ensures exts[i].name in ByOutputTo(exts, pids, n) && ByOutputTo(exts, pids, n)[exts[i].name] == pids[i]
  {
    if i < n - 1 {
      ByOutputToAt(exts, pids, n - 1, i);
      assert exts[i].name != exts[n - 1].name;
    }
  }

  lemma {:induction false} ByOutputToOnly(exts: seq<Output>, pids: seq<Pid>, n: nat, c: string) returns (i: nat)
    requires n <= |exts| && n <= |pids| && c in ByOutputTo(exts, pids, n)
    ensures i < n && exts[i].name == c
  {
    if c == exts[n - 1].name {
      i := n - 1;
    } else {
      i := ByOutputToOnly(exts, pids, n - 1, c);
    }
  }

  lemma ByOutputAt(exts: seq<Output>, pids: seq<Pid>)
    requires |exts| == |pids|
    requires forall i, j | 0 <= i < j < |exts| :: exts[i].name != exts[j].name
    ensures forall i | 0 <= i < |exts| :: exts[i].name in ByOutput(exts, pids) && ByOutput(exts, pids)[exts[i].name] == pids[i]
    ensures forall c | c in ByOutput(exts, pids) :: exists i | 0 <= i < |exts| :: exts[i].name == c
  {
    forall i | 0 <= i < |exts| ensures exts[i].name in ByOutput(exts, pids) && ByOutput(exts, pids)[exts[i].name] == pids[i] {
      ByOutputToAt(exts, pids, |exts|, i);
    }
    forall c | c in ByOutput(exts, pids) ensures exists i | 0 <= i < |exts| :: exts[i].name == c {
      var i := ByOutputToOnly(exts, pids, |exts|, c);
    }
  }

  lemma {:induction false} SightedAgreesTo(st: State, exts: seq<Output>, side: string, n: nat)
    requires Agree(st) && AllPlain(exts) && n <= |exts|
    ensures Agree(SightedTo(st, exts, side, n))
  {
    if n > 0 {
      SightedAgreesTo(st, exts, side, n - 1);
      EnsureAgrees(SightedTo(st, exts, side, n - 1), exts[n - 1], side);
    }
  }

  lemma EnsureGrows(st: State, o: Output, side: string)
    ensures Ensure(st, o, side).stack == st.stack && st.ids.Keys <= Ensure(st, o, side).ids.Keys
  {
  }

  /** The stack stays, and what was known stays known. */
  predicate Grown(st: State, after: State) {
    after.stack == st.stack && st.ids.Keys <= after.ids.Keys
  }

  lemma GrownOn(a: State, b: State, c: State)
    requires Grown(a, b) && Grown(b, c)
    ensures Grown(a, c)
  {
  }

  lemma OneSighting(st: State, exts: seq<Output>, side: string, n: nat)
    requires n < |exts|
    ensures Grown(SightedTo(st, exts, side, n), SightedTo(st, exts, side, n + 1))
  {
    EnsureGrows(SightedTo(st, exts, side, n), exts[n], side);
  }

  lemma {:induction false} SightedGrows(st: State, exts: seq<Output>, side: string, a: nat, n: nat)
    requires a <= n <= |exts|
    ensures Grown(SightedTo(st, exts, side, a), SightedTo(st, exts, side, n))
  {
    if a < n {
      SightedGrows(st, exts, side, a, n - 1);
      OneSighting(st, exts, side, n - 1);
      GrownOn(SightedTo(st, exts, side, a), SightedTo(st, exts, side, n - 1), SightedTo(st, exts, side, n));
    }
  }

  lemma JustSeen(st: State, o: Output, side: string)
    ensures Owns(Ensure(st, o, side).ids, Target(st, o), ConnKey(o.name))
  {
  }

  lemma SeededAtOnce(st: State, o: Output, side: string)
    requires Agree(st) && Plain(o)
    ensures SeedKey(Target(st, o)) in Ensure(st, o, side).ids.Keys
  {
    EnsureAgrees(st, o, side);
    JustSeen(st, o, side);
    assert Sound(Ensure(st, o, side), Target(st, o));
  }

  /** The seed of an id that was handed out is known from then on. */
  lemma HandedOutIsSeeded(st: State, exts: seq<Output>, side: string, i: nat)
    requires Agree(st) && AllPlain(exts) && i < |exts|
    ensures SeedKey(Pids(st, exts, side)[i]) in Sighted(st, exts, side).ids
  {
    SightedAgreesTo(st, exts, side, i);
    SeededAtOnce(SightedTo(st, exts, side, i), exts[i], side);
    assert SightedTo(st, exts, side, i + 1) == SeeOne(st, exts, side, i);
    SightedGrows(st, exts, side, i + 1, |exts|);
  }

  lemma SightedAgrees(st: State, exts: seq<Output>, side: string)
    requires Agree(st) && AllPlain(exts)
    ensures Agree(Sighted(st, exts, side))
    ensures Sighted(st, exts, side).stack == st.stack
    ensures st.ids.Keys <= Sighted(st, exts, side).ids.Keys
  {
    SightedAgreesTo(st, exts, side, |exts|);
    SightedGrows(st, exts, side, 0, |exts|);
  }

  // ---- the recency stack ---------------------------------------------------------------------

  function Kept(stack: seq<Pid>, now: set<Pid>): seq<Pid> {
    if stack == [] then []
    else
      var n := |stack| - 1;
      Kept(stack[..n], now) + (if stack[n] in now then [stack[n]] else [])
  }

  function Pushed(stack: seq<Pid>, pids: seq<Pid>): seq<Pid> {
    if pids == [] then stack
    else
      var n := |pids| - 1;
      var s := Pushed(stack, pids[..n]);
      if pids[n] in s then s else s + [pids[n]]
  }

  function Elements(pids: seq<Pid>): set<Pid> {
    set p | p in pids
  }

  function Restacked(stack: seq<Pid>, pids: seq<Pid>): seq<Pid> {
    Pushed(Kept(stack, Elements(pids)), pids)
  }

  lemma {:induction false} KeptElements(stack: seq<Pid>, now: set<Pid>)
    ensures forall p :: p in Kept(stack, now) <==> p in stack && p in now
  {
    if stack != [] {
      var n := |stack| - 1;
      KeptElements(stack[..n], now);
      assert stack == stack[..n] + [stack[n]];
    }
  }

  lemma {:induction false} KeptDistinct(stack: seq<Pid>, now: set<Pid>)
    requires Distinct(stack)
    ensures Distinct(Kept(stack, now))
  {
    if stack != [] {
      var n := |stack| - 1;
      KeptDistinct(stack[..n], now);
      KeptElements(stack[..n], now);
      assert stack[n] !in stack[..n];
    }
  }

  lemma {:induction false} KeptWhole(stack: seq<Pid>, now: set<Pid>)
    requires forall i | 0 <= i < |stack| :: stack[i] in now
    ensures Kept(stack, now) == stack
  {
    if stack != [] {
      var n := |stack| - 1;
      KeptWhole(stack[..n], now);
      assert stack == stack[..n] + [stack[n]];
    }
  }

  lemma {:induction false} PushedMembers(stack: seq<Pid>, pids: seq<Pid>)
    ensures forall p :: p in Pushed(stack, pids) <==> p in stack || p in pids
    ensures Distinct(stack) ==> Distinct(Pushed(stack, pids))
    ensures stack <= Pushed(stack, pids)
    ensures (forall p | p in pids :: p in stack) ==> Pushed(stack, pids) == stack
  {
    if pids != [] {
      var n := |pids| - 1;
      PushedMembers(stack, pids[..n]);
      assert pids == pids[..n] + [pids[n]];
    }
  }

  ghost predicate Below(s: seq<Pid>, p: Pid, q: Pid) {
    exists a, b | 0 <= a < b < |s| :: s[a] == p && s[b] == q
  }

  /** The pushed part keeps the order of first appearance: `a`, first seen before `b`, sits below it. */
  lemma {:induction false} PushedInOrder(stack: seq<Pid>, pids: seq<Pid>, i: nat, j: nat)
    requires i < j < |pids| && pids[j] !in stack && pids[j] !in pids[..j]
    ensures Below(Pushed(stack, pids), pids[i], pids[j])
  {
    var n := |pids| - 1;
    var s := Pushed(stack, pids[..n]);
    if j == n {
      PushedMembers(stack, pids[..n]);
      assert pids[..n][i] == pids[i];
      assert pids[i] in pids[..n] && pids[i] in s;
      var a :| 0 <= a < |s| && s[a] == pids[i];
      assert Pushed(stack, pids) == s + [pids[n]];
      assert Pushed(stack, pids)[a] == pids[i] && Pushed(stack, pids)[|s|] == pids[j];
    } else {
      assert pids[..n][..j] == pids[..j];
      PushedInOrder(stack, pids[..n], i, j);
      var a, b :| 0 <= a < b < |s| && s[a] == pids[i] && s[b] == pids[j];
      assert Pushed(stack, pids)[a] == s[a] && Pushed(stack, pids)[b] == s[b];
    }
  }

  /** What is kept stays in its order. */
  lemma {:induction false} KeptInOrder(stack: seq<Pid>, now: set<Pid>, i: nat, j: nat)
    requires i < j < |stack| && stack[i] in now && stack[j] in now
    ensures Below(Kept(stack, now), stack[i], stack[j])
  {
    var n := |stack| - 1;
    var r := Kept(stack[..n], now);
    if j == n {
      KeptElements(stack[..n], now);
      assert stack[..n][i] == stack[i] && stack[i] in r;
      var a :| 0 <= a < |r| && r[a] == stack[i];
      assert Kept(stack, now)[a] == stack[i] && Kept(stack, now)[|r|] == stack[j];
    } else {
      KeptInOrder(stack[..n], now, i, j);
      var a, b :| 0 <= a < b < |r| && r[a] == stack[i] && r[b] == stack[j];
      assert Kept(stack, now)[a] == r[a] && Kept(stack, now)[b] == r[b];
    }
  }

  lemma OldOnesInOrder(stack: seq<Pid>, pids: seq<Pid>, i: nat, j: nat)
    requires i < j < |stack| && stack[i] in pids && stack[j] in pids
    ensures Below(Restacked(stack, pids), stack[i], stack[j])
  {
    var kept := Kept(stack, Elements(pids));
    KeptInOrder(stack, Elements(pids), i, j);
    PushedMembers(kept, pids);
    var a, b :| 0 <= a < b < |kept| && kept[a] == stack[i] && kept[b] == stack[j];
    assert Restacked(stack, pids)[a] == kept[a] && Restacked(stack, pids)[b] == kept[b];
  }

  /** MAIN RESULT. The stack after an apply: the old one restricted to what is there now, in its order, the newcomers
      on top in the order they came, no id twice, and restacking the same ids changes nothing. */
  lemma StackIsRecency(stack: seq<Pid>, pids: seq<Pid>)
    requires Distinct(stack)
    ensures Distinct(Restacked(stack, pids))
    ensures Kept(stack, Elements(pids)) <= Restacked(stack, pids)
    ensures forall p :: p in Restacked(stack, pids) <==> p in pids
    ensures forall i, j | 0 <= i < j < |stack| && stack[i] in pids && stack[j] in pids :: Below(Restacked(stack, pids), stack[i], stack[j])
    ensures forall i, j | 0 <= i < j < |pids| && pids[j] !in stack && pids[j] !in pids[..j] ::
              Below(Restacked(stack, pids), pids[i], pids[j])
    ensures Restacked(Restacked(stack, pids), pids) == Restacked(stack, pids)
    ensures Kept(Restacked(stack, pids), Elements(pids)) == Restacked(stack, pids)
  {
    var kept := Kept(stack, Elements(pids));
    KeptElements(stack, Elements(pids));
    KeptDistinct(stack, Elements(pids));
    PushedMembers(kept, pids);
    forall i, j | 0 <= i < j < |pids| && pids[j] !in stack && pids[j] !in pids[..j]
      ensures Below(Restacked(stack, pids), pids[i], pids[j])
    {
      PushedInOrder(kept, pids, i, j);
    }
    forall i, j | 0 <= i < j < |stack| && stack[i] in pids && stack[j] in pids ensures Below(Restacked(stack, pids), stack[i], stack[j]) {
      OldOnesInOrder(stack, pids, i, j);
    }
    var again := Restacked(stack, pids);
    KeptWhole(again, Elements(pids));
    PushedMembers(again, pids);
  }

  // ---- connectors, newest first ---------------------------------------------------------------

  function Reversed<T>(s: seq<T>): (r: seq<T>)
    ensures |r| == |s|
    ensures forall i | 0 <= i < |s| :: r[i] == s[|s| - 1 - i]
  {
    if s == [] then [] else [s[|s| - 1]] + Reversed(s[..|s| - 1])
  }

  function ConnsOf(pidOf: map<string, Pid>, p: Pid): set<string> {
    set c | c in pidOf && pidOf[c] == p
  }

  /** `[c for pid in ordered_pids for c in sorted(conns_by_pid[pid])]`. */
  function Expanded(pids: seq<Pid>, pidOf: map<string, Pid>): seq<string> {
    if pids == [] then []
    else
      var n := |pids| - 1;
      Expanded(pids[..n], pidOf) + Sort(ConnsOf(pidOf, pids[n]))
  }

  lemma {:induction false} ExpandedMembers(pids: seq<Pid>, pidOf: map<string, Pid>)
    ensures forall c :: c in Expanded(pids, pidOf) <==> c in pidOf && pidOf[c] in pids
    ensures Distinct(pids) ==> Distinct(Expanded(pids, pidOf))
  {
    if pids != [] {
      var n := |pids| - 1;
      ExpandedMembers(pids[..n], pidOf);
      assert pids == pids[..n] + [pids[n]];
      if Distinct(pids) {
        assert pids[n] !in pids[..n];
        var a, b := Expanded(pids[..n], pidOf), Sort(ConnsOf(pidOf, pids[n]));
        forall i, j | 0 <= i < j < |a + b| ensures (a + b)[i] != (a + b)[j] {
          if i < |a| <= j {
            assert a[i] in a && b[j - |a|] in b;
          }
        }
      }
    }
  }

  /** The connectors to place, newest attachment first. */
  function NewestFirst(stack: seq<Pid>, pidOf: map<string, Pid>): seq<string> {
    Expanded(Reversed(stack), pidOf)
  }

  lemma NewestFirstMembers(stack: seq<Pid>, pidOf: map<string, Pid>)
    requires Distinct(stack) && forall c | c in pidOf :: pidOf[c] in stack
    ensures forall c :: c in NewestFirst(stack, pidOf) <==> c in pidOf
    ensures Distinct(NewestFirst(stack, pidOf))
  {
    var r := Reversed(stack);
    ExpandedMembers(r, pidOf);
    forall c | c in pidOf ensures pidOf[c] in r {
      var i :| 0 <= i < |stack| && stack[i] == pidOf[c];
      assert r[|stack| - 1 - i] == stack[i];
    }
    forall i, j | 0 <= i < j < |r| ensures r[i] != r[j] {
      assert r[i] == stack[|stack| - 1 - i] && r[j] == stack[|stack| - 1 - j];
    }
  }

  /** What comes first is newer, or of the same profile and earlier in the alphabet. */
  ghost predicate Precedes(stack: seq<Pid>, pidOf: map<string, Pid>, c: string, d: string) {
    && c in pidOf && d in pidOf
    && (Below(stack, pidOf[d], pidOf[c]) || (pidOf[c] == pidOf[d] && Le(c, d)))
  }

  lemma {:induction false} ExpandedInOrder(pids: seq<Pid>, pidOf: map<string, Pid>, i: nat, j: nat)
    requires i < j < |Expanded(pids, pidOf)|
    ensures var c, d := Expanded(pids, pidOf)[i], Expanded(pids, pidOf)[j];
            && c in pidOf && d in pidOf
            && (Below(pids, pidOf[c], pidOf[d]) || (pidOf[c] == pidOf[d] && Le(c, d)))
  {
    var n := |pids| - 1;
    var a, b := Expanded(pids[..n], pidOf), Sort(ConnsOf(pidOf, pids[n]));
    assert Expanded(pids, pidOf) == a + b;
    ExpandedMembers(pids[..n], pidOf);
    if j < |a| {
      ExpandedInOrder(pids[..n], pidOf, i, j);
      if Below(pids[..n], pidOf[a[i]], pidOf[a[j]]) {
        var x, y :| 0 <= x < y < n && pids[..n][x] == pidOf[a[i]] && pids[..n][y] == pidOf[a[j]];
        assert pids[x] == pidOf[a[i]] && pids[y] == pidOf[a[j]];
      }
    } else if i < |a| {
      assert a[i] in a && b[j - |a|] in b;
      var x :| 0 <= x < n && pids[..n][x] == pidOf[a[i]];
      assert pids[x] == pidOf[a[i]] && pids[n] == pidOf[b[j - |a|]];
    } else {
      assert b[i - |a|] in b && b[j - |a|] in b;
    }
  }

  lemma NewestComesFirst(stack: seq<Pid>, pidOf: map<string, Pid>, i: nat, j: nat)
    requires i < j < |NewestFirst(stack, pidOf)|
    ensures Precedes(stack, pidOf, NewestFirst(stack, pidOf)[i], NewestFirst(stack, pidOf)[j])
  {
    var r := Reversed(stack);
    var c, d := NewestFirst(stack, pidOf)[i], NewestFirst(stack, pidOf)[j];
    ExpandedInOrder(r, pidOf, i, j);
    if Below(r, pidOf[c], pidOf[d]) {
      var x, y :| 0 <= x < y < |r| && r[x] == pidOf[c] && r[y] == pidOf[d];
      assert stack[|stack| - 1 - y] == pidOf[d] && stack[|stack| - 1 - x] == pidOf[c];
    }
  }

  function SideIn(st: State, p: Pid, defaultSide: string): string {
    if Lookup(st.profs, p).side != "" then Lookup(st.profs, p).side else defaultSide
  }

  function WithSides(conns: seq<string>, pidOf: map<string, Pid>, st: State, defaultSide: string): (r: seq<(string, string)>)
    requires forall c | c in conns :: c in pidOf
    ensures |r| == |conns|
    ensures forall i | 0 <= i < |r| :: r[i] == (conns[i], SideIn(st, pidOf[conns[i]], defaultSide))
  {
    if conns == [] then []
    else
      var n := |conns| - 1;
      assert forall c | c in conns[..n] :: c in conns;
      WithSides(conns[..n], pidOf, st, defaultSide) + [(conns[n], SideIn(st, pidOf[conns[n]], defaultSide))]
  }

  // ---- the placement, as a function -----------------------------------------------------------

  /** Reading a profile's side creates its entry when it is missing. */
  function OpenedAll(st: State, conns: seq<string>, pidOf: map<string, Pid>): State
    requires forall c | c in conns :: c in pidOf
  {
    if conns == [] then st
    else
      var n := |conns| - 1;
      assert forall c | c in conns[..n] :: c in conns;
      Opening(OpenedAll(st, conns[..n], pidOf), pidOf[conns[n]])
  }

  lemma {:induction false} OpenedAllKeeps(st: State, conns: seq<string>, pidOf: map<string, Pid>)
    requires forall c | c in conns :: c in pidOf
    ensures var o := OpenedAll(st, conns, pidOf);
            && o.ids == st.ids && o.stack == st.stack
            && (forall p :: Lookup(o.profs, p) == Lookup(st.profs, p))
            && ((forall c | c in conns :: pidOf[c] in st.profs) ==> o == st)
  {
    if conns != [] {
      var n := |conns| - 1;
      assert forall c | c in conns[..n] :: c in conns;
      OpenedAllKeeps(st, conns[..n], pidOf);
      assert conns[n] in conns;
      var mid, p := OpenedAll(st, conns[..n], pidOf), pidOf[conns[n]];
      if p in mid.profs {
        assert mid.profs[p := mid.profs[p]] == mid.profs;
      }
    }
  }

  /** The state once the profiles and the stack are settled. */
  function Seated(st: State, exts: seq<Output>, side: string): State {
    Sighted(st, exts, side).(stack := Restacked(st.stack, Pids(st, exts, side)))
  }

  function Conns(st: State, exts: seq<Output>, side: string): seq<string> {
    NewestFirst(Restacked(st.stack, Pids(st, exts, side)), ByOutput(exts, Pids(st, exts, side)))
  }

  lemma ConnsAreTheExternals(st: State, exts: seq<Output>, primary: string, side: string)
    requires AreExternals(exts, primary) && Distinct(st.stack)
    ensures forall c :: c in Conns(st, exts, side) <==> c in ByOutput(exts, Pids(st, exts, side))
    ensures forall c :: c in Conns(st, exts, side) <==> IsExternal(exts, c)
    ensures Distinct(Conns(st, exts, side))
  {
    var pids := Pids(st, exts, side);
    ByOutputAt(exts, pids);
    StackIsRecency(st.stack, pids);
    forall c | c in ByOutput(exts, pids) ensures ByOutput(exts, pids)[c] in Restacked(st.stack, pids) {
      var i :| 0 <= i < |exts| && exts[i].name == c;
      assert pids[i] in pids;
    }
    NewestFirstMembers(Restacked(st.stack, pids), ByOutput(exts, pids));
  }

  ghost function Plan(st: State, exts: seq<Output>, primary: string, side: string): seq<Slot>
    requires AreExternals(exts, primary) && Distinct(st.stack)
  {
    ConnsAreTheExternals(st, exts, primary, side);
    Assign(WithSides(Conns(st, exts, side), ByOutput(exts, Pids(st, exts, side)), Seated(st, exts, side), side), primary)
  }

  ghost function Placed(st: State, exts: seq<Output>, primary: string, side: string): State
    requires AreExternals(exts, primary) && Distinct(st.stack)
  {
    ConnsAreTheExternals(st, exts, primary, side);
    OpenedAll(Seated(st, exts, side), Conns(st, exts, side), ByOutput(exts, Pids(st, exts, side)))
  }

  predicate HasSlot(plan: seq<Slot>, c: string) {
    exists k | 0 <= k < |plan| :: plan[k].item == c
  }

  predicate IsExternal(exts: seq<Output>, c: string) {
    exists i | 0 <= i < |exts| :: exts[i].name == c
  }

  /** No connector twice, no two slots the same, and every anchor leads to the primary. */
  ghost predicate CollisionFree(plan: seq<Slot>, primary: string) {
    && (forall k, l | 0 <= k < l < |plan| :: plan[k].item != plan[l].item)
    && (forall k, l | 0 <= k < l < |plan| :: (plan[k].side, plan[k].anchor) != (plan[l].side, plan[l].anchor))
    && (forall k | 0 <= k < |plan| :: Reaches(plan, plan[k].item, primary, k + 1))
  }

  lemma AssignIsCollisionFree(ordered: seq<(string, string)>, primary: string)
    requires DistinctItems(ordered, primary)
    ensures CollisionFree(Assign(ordered, primary), primary)
  {
    var plan := Assign(ordered, primary);
    forall k, l | 0 <= k < l < |plan| ensures (plan[k].side, plan[k].anchor) != (plan[l].side, plan[l].anchor) {
      SlotsNeverCollide(ordered, primary, k, l);
    }
    forall k | 0 <= k < |plan| ensures Reaches(plan, plan[k].item, primary, k + 1) {
      AnchorsReachPrimary(ordered, primary, k);
    }
  }

  lemma SlotsOfConns(conns: seq<string>, ordered: seq<(string, string)>, primary: string, c: string)
    requires |ordered| == |conns| && forall i | 0 <= i < |conns| :: ordered[i].0 == conns[i]
    ensures HasSlot(Assign(ordered, primary), c) <==> c in conns
  {
    var plan := Assign(ordered, primary);
    if c in conns {
      var k :| 0 <= k < |conns| && conns[k] == c;
      assert plan[k].item == c;
    }
    if HasSlot(plan, c) {
      var k :| 0 <= k < |plan| && plan[k].item == c;
      assert conns[k] == c;
    }
  }

  lemma SlotsOfExternals(conns: seq<string>, ordered: seq<(string, string)>, exts: seq<Output>, primary: string)
    requires AreExternals(exts, primary)
    requires Distinct(conns) && forall c :: c in conns <==> IsExternal(exts, c)
    requires |ordered| == |conns| && forall i | 0 <= i < |conns| :: ordered[i].0 == conns[i]
    ensures CollisionFree(Assign(ordered, primary), primary)
    ensures forall c :: HasSlot(Assign(ordered, primary), c) <==> IsExternal(exts, c)
  {
    forall i | 0 <= i < |ordered| ensures ordered[i].0 != primary {
      assert conns[i] in conns;
      assert IsExternal(exts, conns[i]);
    }
    AssignIsCollisionFree(ordered, primary);
    forall c ensures HasSlot(Assign(ordered, primary), c) <==> IsExternal(exts, c) {
      SlotsOfConns(conns, ordered, primary, c);
    }
  }

  /** MAIN RESULT. Exactly the externals get a slot, one each; the slots never coincide and their anchors
      lead to the primary, also when several externals share a profile. */
  lemma PlanIsCompleteAndCollisionFree(st: State, exts: seq<Output>, primary: string, side: string)
    requires AreExternals(exts, primary) && Distinct(st.stack)
    ensures CollisionFree(Plan(st, exts, primary, side), primary)
    ensures forall c :: HasSlot(Plan(st, exts, primary, side), c) <==> IsExternal(exts, c)
  {
    ConnsAreTheExternals(st, exts, primary, side);
    var conns := Conns(st, exts, side);
    var ordered := WithSides(conns, ByOutput(exts, Pids(st, exts, side)), Seated(st, exts, side), side);
    SlotsOfExternals(conns, ordered, exts, primary);
  }

  /** MAIN RESULT. The slots go newest attachment first (within a profile, alphabetically), and each of the
      first four gets the side stored for its profile, if that is a side, unless an earlier slot holds it. */
  lemma PlanHonoursAgeAndSides(st: State, exts: seq<Output>, primary: string, side: string, k: nat)
    requires AreExternals(exts, primary) && Distinct(st.stack) && k < |Plan(st, exts, primary, side)|
    ensures var plan := Plan(st, exts, primary, side);
            var pidOf := ByOutput(exts, Pids(st, exts, side));
            && plan[k].item in pidOf
            && (forall l | k < l < |plan| :: Precedes(Seated(st, exts, side).stack, pidOf, plan[k].item, plan[l].item))
            && (var s := SideIn(Seated(st, exts, side), pidOf[plan[k].item], side);
                k < 4 && s in ["right-of", "left-of", "above", "below"] ==> (plan[k].side == s <==> forall l | 0 <= l < k :: plan[l].side != s))
  {
    ConnsAreTheExternals(st, exts, primary, side);
    var conns, pidOf := Conns(st, exts, side), ByOutput(exts, Pids(st, exts, side));
    var ordered := WithSides(conns, pidOf, Seated(st, exts, side), side);
    assert conns[k] in conns;
    forall l | k < l < |conns| ensures Precedes(Seated(st, exts, side).stack, pidOf, conns[k], conns[l]) {
      NewestComesFirst(Seated(st, exts, side).stack, pidOf, k, l);
    }
    if k < 4 && ordered[k].1 in ["right-of", "left-of", "above", "below"] {
      StoredSideIsHonoured(ordered, primary, k);
    }
  }

  // ---- in place -----------------------------------------------------------------------------------

  /** One turn of the first loop. */
  method EnsureNext(store: Store, exts: seq<Output>, i: nat, defaultSide: string, ghost st: State) returns (pid: Pid)
    requires i < |exts| && Agree(store.View()) && AllPlain(exts)
    requires store.View() == SightedTo(st, exts, defaultSide, i)
    modifies store
    ensures Agree(store.View()) && store.View() == SightedTo(st, exts, defaultSide, i + 1)
    ensures pid == Pids(st, exts, defaultSide)[i]
  {
    pid := store.EnsureProfile(exts[i], defaultSide);
  }

  lemma ByOutputNext(exts: seq<Output>, pids: seq<Pid>, i: nat)
    requires i < |exts| && i < |pids|
    ensures ByOutputTo(exts, pids, i + 1) == ByOutputTo(exts, pids, i)[exts[i].name := pids[i]]
  {
  }

  /** The first loop: one profile per external. */
  method EnsureAll(store: Store, exts: seq<Output>, defaultSide: string) returns (pidByOutput: map<string, Pid>)
    requires Agree(store.View()) && AllPlain(exts)
    modifies store
    ensures store.View() == Sighted(old(store.View()), exts, defaultSide) && Agree(store.View())
    ensures pidByOutput == ByOutput(exts, Pids(old(store.View()), exts, defaultSide))
  {
    ghost var st := store.View();
    ghost var pids := Pids(st, exts, defaultSide);
    pidByOutput := map[];
    for i := 0 to |exts|
      invariant Agree(store.View()) && store.View() == SightedTo(st, exts, defaultSide, i)
      invariant pidByOutput == ByOutputTo(exts, pids, i)
    {
      var pid := EnsureNext(store, exts, i, defaultSide, st);
      ByOutputNext(exts, pids, i);
      pidByOutput := pidByOutput[exts[i].name := pid];
    }
  }

  /** `[pid_by_output[o.name] for o in exts]`. */
  method CurrentPids(exts: seq<Output>, pidByOutput: map<string, Pid>, ghost pids: seq<Pid>) returns (curPids: seq<Pid>)
    requires |pids| == |exts| && pidByOutput == ByOutput(exts, pids)
    requires forall i, j | 0 <= i < j < |exts| :: exts[i].name != exts[j].name
    ensures curPids == pids
  {
    ByOutputAt(exts, pids);
    curPids := [];
    for i := 0 to |exts|
      invariant curPids == pids[..i]
    {
      curPids := curPids + [pidByOutput[exts[i].name]];
    }
  }

  /** The second loop: what is gone leaves the stack, what is new goes on top. */
  method Restack(stack: seq<Pid>, curPids: seq<Pid>) returns (now: seq<Pid>)
    ensures now == Restacked(stack, curPids)
  {
    now := Kept(stack, set p | p in curPids);
    ghost var kept := now;
    for i := 0 to |curPids|
      invariant now == Pushed(kept, curPids[..i])
    {
      assert curPids[..i + 1][..i] == curPids[..i];
      if curPids[i] !in now {
        now := now + [curPids[i]];
      }
    }
    assert curPids[..|curPids|] == curPids;
  }

  /** The stored or default side of every connector to place. */
  method ReadSides(store: Store, conns: seq<string>, pidOf: map<string, Pid>, defaultSide: string)
    returns (ordered: seq<(string, string)>)
    requires Agree(store.View())
    requires forall c | c in conns :: c in pidOf && SeedKey(pidOf[c]) in store.ids
    modifies store
    ensures Agree(store.View()) && store.View() == OpenedAll(old(store.View()), conns, pidOf)
    ensures ordered == WithSides(conns, pidOf, old(store.View()), defaultSide)
  {
    ghost var st := store.View();
    ordered := [];
    for i := 0 to |conns|
      invariant forall c | c in conns[..i] :: c in pidOf
      invariant Agree(store.View()) && store.View() == OpenedAll(st, conns[..i], pidOf) && store.ids == st.ids
      invariant ordered == WithSides(conns[..i], pidOf, st, defaultSide)
    {
      assert conns[..i + 1][..i] == conns[..i] && conns[i] in conns;
      OpenedAllKeeps(st, conns[..i], pidOf);
      var side := store.SideFor(pidOf[conns[i]], defaultSide);
      ordered := ordered + [(conns[i], side)];
    }
    assert conns[..|conns|] == conns;
  }

  lemma StackIsApart(st: State, stack: seq<Pid>)
    requires Agree(st)
    ensures Agree(st.(stack := stack))
  {
    forall k | k in st.ids ensures Sound(st.(stack := stack), st.ids[k]) {
      assert Sound(st, st.ids[k]);
    }
  }

  lemma ConnsAreSeeded(exts: seq<Output>, pids: seq<Pid>, ids: map<Key, Pid>, c: string)
    requires |pids| == |exts| && c in ByOutput(exts, pids)
    requires forall i, j | 0 <= i < j < |exts| :: exts[i].name != exts[j].name
    requires forall i | 0 <= i < |pids| :: SeedKey(pids[i]) in ids
    ensures SeedKey(ByOutput(exts, pids)[c]) in ids
  {
    ByOutputAt(exts, pids);
    var i :| 0 <= i < |exts| && exts[i].name == c;
  }

  lemma ConnsReady(st: State, exts: seq<Output>, primary: string, side: string, ids: map<Key, Pid>)
    requires AreExternals(exts, primary) && Distinct(st.stack)
    requires forall i | 0 <= i < |exts| :: SeedKey(Pids(st, exts, side)[i]) in ids
    ensures var pids := Pids(st, exts, side);
            && Kept(Restacked(st.stack, pids), Elements(pids)) == Restacked(st.stack, pids)
            && forall c | c in Conns(st, exts, side) ::
                 c in ByOutput(exts, pids) && SeedKey(ByOutput(exts, pids)[c]) in ids
  {
    var pids := Pids(st, exts, side);
    StackIsRecency(st.stack, pids);
    ConnsAreTheExternals(st, exts, primary, side);
    forall c | c in Conns(st, exts, side) ensures c in ByOutput(exts, pids) && SeedKey(ByOutput(exts, pids)[c]) in ids {
      ConnsAreSeeded(exts, pids, ids, c);
    }
  }

  lemma AllSeeded(st: State, exts: seq<Output>, side: string)
    requires Agree(st) && AllPlain(exts)
    ensures forall i | 0 <= i < |exts| :: SeedKey(Pids(st, exts, side)[i]) in Sighted(st, exts, side).ids
  {
    forall i | 0 <= i < |exts| ensures SeedKey(Pids(st, exts, side)[i]) in Sighted(st, exts, side).ids {
      HandedOutIsSeeded(st, exts, side, i);
    }
  }

  /** Profiles and stack. */
  method Seat(store: Store, exts: seq<Output>, ghost primary: string, defaultSide: string)
    returns (curPids: seq<Pid>, pidByOutput: map<string, Pid>)
    requires Agree(store.View()) && Distinct(store.stack) && AreExternals(exts, primary)
    modifies store
    ensures store.View() == Seated(old(store.View()), exts, defaultSide)
    ensures Agree(store.View()) && Distinct(store.stack)
    ensures curPids == Pids(old(store.View()), exts, defaultSide) && pidByOutput == ByOutput(exts, curPids)
    ensures forall i | 0 <= i < |curPids| :: SeedKey(curPids[i]) in store.ids
  {
    ghost var pids := Pids(store.View(), exts, defaultSide);
    SightedAgrees(store.View(), exts, defaultSide);
    AllSeeded(store.View(), exts, defaultSide);
    StackIsRecency(store.stack, pids);
    pidByOutput := EnsureAll(store, exts, defaultSide);
    curPids := CurrentPids(exts, pidByOutput, pids);
    var stack := Restack(store.stack, curPids);
    StackIsApart(store.View(), stack);
    store.stack := stack;
  }

  /** `_place_externals`: the slots handed to xrandr, in order. */
  method PlaceExternals(store: Store, exts: seq<Output>, primary: string, defaultSide: string)
    returns (placements: seq<Slot>)
    requires Agree(store.View()) && Distinct(store.stack) && AreExternals(exts, primary)
    modifies store
    ensures placements == Plan(old(store.View()), exts, primary, defaultSide)
    ensures store.View() == Placed(old(store.View()), exts, primary, defaultSide)
    ensures Agree(store.View()) && Distinct(store.stack)
  {
    ghost var st := store.View();
    var curPids, pidByOutput := Seat(store, exts, primary, defaultSide);
    ConnsReady(st, exts, primary, defaultSide, store.ids);
    var conns := NewestFirst(Kept(store.stack, set p | p in curPids), pidByOutput);
    OpenedAllKeeps(store.View(), conns, pidByOutput);
    var ordered := ReadSides(store, conns, pidByOutput, defaultSide);
    placements := AssignPlacements(ordered, primary);
  }
}
