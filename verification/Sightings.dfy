/** The identity map is incremental graph connectivity: over any history, two identities share
    a profile exactly when a chain of sightings links them. */
module Sightings {
  import opened Outputs
  import opened Identity

  /** What touches the stored state: a sighting, a set preference, or a read that creates its entry. */
  datatype Event =
    | Seen(output: Output, side: string)
    | Preferred(pid: Pid, wanted: string)
    | Opened(id: Pid)

  /** Only ids that an earlier sighting handed out are ever looked up. */
  ghost predicate Possible(st: State, e: Event) {
    match e
    case Seen(o, _) => Plain(o)
    case Preferred(p, _) => SeedKey(p) in st.ids
    case Opened(p) => SeedKey(p) in st.ids
  }

  function Next(st: State, e: Event): State {
    match e
    case Seen(o, side) => Ensure(st, o, side)
    case Preferred(p, side) => Preferring(st, p, side)
    case Opened(p) => Opening(st, p)
  }

  function After(es: seq<Event>): State {
    if es == [] then FRESH else Next(After(es[..|es| - 1]), es[|es| - 1])
  }

  ghost predicate History(es: seq<Event>) {
    es == [] || (History(es[..|es| - 1]) && Possible(After(es[..|es| - 1]), es[|es| - 1]))
  }

  lemma NextAgrees(st: State, e: Event)
    requires Agree(st) && Possible(st, e)
    ensures Agree(Next(st, e))
  {
    match e
    case Seen(o, side) => EnsureAgrees(st, o, side);
    case Preferred(p, side) => PreferringAgrees(st, p, Lookup(st.profs, p).(side := side));
    case Opened(p) => PreferringAgrees(st, p, Lookup(st.profs, p));
  }

  /** INVARIANT over every history from the empty state. */
  lemma {:induction false} AlwaysAgrees(es: seq<Event>)
    requires History(es)
    ensures Agree(After(es))
  {
    if es != [] {
      AlwaysAgrees(es[..|es| - 1]);
      NextAgrees(After(es[..|es| - 1]), es[|es| - 1]);
    }
  }

  // ---- chains of sightings ---------------------------------------------------------------

  predicate Shows(e: Event, k: Key) {
    e.Seen? && k in IdentKeys(e.output)
  }

  ghost predicate Together(es: seq<Event>, a: Key, b: Key) {
    exists i | 0 <= i < |es| :: Shows(es[i], a) && Shows(es[i], b)
  }

  ghost predicate Chain(es: seq<Event>, p: seq<Key>) {
    p != [] && forall i | 0 <= i < |p| - 1 :: Together(es, p[i], p[i + 1])
  }

  ghost predicate Runs(es: seq<Event>, p: seq<Key>, a: Key, b: Key) {
    Chain(es, p) && p[0] == a && p[|p| - 1] == b
  }

  ghost predicate Joined(es: seq<Event>, a: Key, b: Key) {
    exists p :: Runs(es, p, a, b)
  }

  lemma JoinedOnce(es: seq<Event>, a: Key, b: Key)
    requires Together(es, a, b)
    ensures Joined(es, a, b)
  {
    assert Runs(es, [a, b], a, b);
  }

  lemma JoinedTransitive(es: seq<Event>, a: Key, b: Key, c: Key)
    requires Joined(es, a, b) && Joined(es, b, c)
    ensures Joined(es, a, c)
  {
    var p :| Runs(es, p, a, b);
    var q :| Runs(es, q, b, c);
    var r := p + q[1..];
    forall i | 0 <= i < |r| - 1 ensures Together(es, r[i], r[i + 1]) {
      if i < |p| - 1 {
        assert Together(es, p[i], p[i + 1]);
      } else {
        assert r[i] == q[i - |p| + 1];
        assert Together(es, q[i - |p| + 1], q[i - |p| + 2]);
      }
    }
    assert Runs(es, r, a, c);
  }

  lemma JoinedGrows(es: seq<Event>, e: Event, a: Key, b: Key)
    requires Joined(es, a, b)
    ensures Joined(es + [e], a, b)
  {
    var p :| Runs(es, p, a, b);
    forall i | 0 <= i < |p| - 1 ensures Together(es + [e], p[i], p[i + 1]) {
      assert Together(es, p[i], p[i + 1]);
      var j :| 0 <= j < |es| && Shows(es[j], p[i]) && Shows(es[j], p[i + 1]);
      assert (es + [e])[j] == es[j];
    }
    assert Runs(es + [e], p, a, b);
  }

  // ---- one step -----------------------------------------------------------------------------

  predicate SameClass(st: State, a: Key, b: Key) {
    a in st.ids && b in st.ids && st.ids[a] == st.ids[b]
  }

  /** Classes never split. */
  lemma ClassesNeverSplit(st: State, e: Event, a: Key, b: Key)
    requires SameClass(st, a, b)
    ensures SameClass(Next(st, e), a, b)
  {
  }

  lemma ShownTogether(st: State, e: Event, a: Key, b: Key)
    requires Shows(e, a) && Shows(e, b)
    ensures SameClass(Next(st, e), a, b)
  {
  }

  /** What a sighting brings together: its own keys, and the classes they were in. */
  lemma Touching(st: State, o: Output, side: string, a: Key)
    requires Agree(st) && Plain(o)
    requires a in Ensure(st, o, side).ids && Ensure(st, o, side).ids[a] == Target(st, o)
    ensures a in IdentKeys(o) || exists t | t in IdentKeys(o) :: SameClass(st, a, t)
  {
    if a !in IdentKeys(o) {
      assert a in st.ids;
      if !Known(st, o) {
        NewIdIsUnused(st, o);
      } else if st.ids[a] == Target(st, o) {
        assert o.edid.Some? ==> EdidKey(o.edid.value) in IdentKeys(o);
        assert ConnKey(o.name) in IdentKeys(o);
        assert SameClass(st, a, ConnKey(o.name)) || SameClass(st, a, EdidKey(o.edid.value));
      } else {
        assert SameClass(st, a, ConnKey(o.name));
      }
    }
  }

  lemma Apart(st: State, o: Output, side: string, a: Key)
    requires a in Ensure(st, o, side).ids && Ensure(st, o, side).ids[a] != Target(st, o)
    ensures a in st.ids && st.ids[a] == Ensure(st, o, side).ids[a]
  {
  }

  // ---- connectivity -----------------------------------------------------------------------

  /** Every key on a chain is in the class of the first. */
  lemma {:induction false} ChainStaysInClass(es: seq<Event>, p: seq<Key>)
    requires Chain(es, p) && |p| > 1
    requires forall a, b | Together(es, a, b) :: SameClass(After(es), a, b)
    ensures SameClass(After(es), p[0], p[|p| - 1])
  {
    var n := |p| - 1;
    assert Together(es, p[n - 1], p[n]);
    if n > 1 {
      assert Chain(es, p[..n]) by {
        forall i | 0 <= i < n - 1 ensures Together(es, p[..n][i], p[..n][i + 1]) {
          assert Together(es, p[i], p[i + 1]);
        }
      }
      ChainStaysInClass(es, p[..n]);
    }
  }

  lemma {:induction false} TogetherSharesClass(es: seq<Event>, a: Key, b: Key)
    requires Together(es, a, b)
    ensures SameClass(After(es), a, b)
  {
    var n := |es| - 1;
    var before := es[..n];
    if Shows(es[n], a) && Shows(es[n], b) {
      ShownTogether(After(before), es[n], a, b);
    } else {
      var i :| 0 <= i < |es| && Shows(es[i], a) && Shows(es[i], b);
      assert Shows(before[i], a) && Shows(before[i], b);
      TogetherSharesClass(before, a, b);
      ClassesNeverSplit(After(before), es[n], a, b);
    }
  }

  lemma KeysAfter(st: State, e: Event, k: Key)
    ensures k in Next(st, e).ids <==> k in st.ids || Shows(e, k)
  {
  }

  lemma ShownSoFar(es: seq<Event>, e: Event, k: Key)
    ensures Together(es + [e], k, k) <==> Together(es, k, k) || Shows(e, k)
  {
    var all := es + [e];
    assert all[|es|] == e;
    if Together(es, k, k) {
      var i :| 0 <= i < |es| && Shows(es[i], k);
      assert all[i] == es[i];
    }
    if Together(all, k, k) && !Shows(e, k) {
      var i :| 0 <= i < |all| && Shows(all[i], k);
      assert all[i] == es[i];
    }
  }

  lemma {:induction false} KnownKeys(es: seq<Event>, k: Key)
    ensures k in After(es).ids <==> Together(es, k, k)
  {
    if es != [] {
      var n := |es| - 1;
      KnownKeys(es[..n], k);
      KeysAfter(After(es[..n]), es[n], k);
      ShownSoFar(es[..n], es[n], k);
      assert es == es[..n] + [es[n]];
    }
  }

  /** A key that ended in the target's class is joined, after this sighting, to the sighting's connector. */
  lemma JoinedToSighting(es: seq<Event>, e: Event, a: Key)
    requires History(es) && e.Seen? && Plain(e.output)
    requires forall x, y | SameClass(After(es), x, y) :: Joined(es, x, y)
    requires a in Next(After(es), e).ids && Next(After(es), e).ids[a] == Target(After(es), e.output)
    ensures Joined(es + [e], a, ConnKey(e.output.name)) && Joined(es + [e], ConnKey(e.output.name), a)
  {
    var all, c := es + [e], ConnKey(e.output.name);
    assert all[|es|] == e;
    assert c in IdentKeys(e.output);
    AlwaysAgrees(es);
    Touching(After(es), e.output, e.side, a);
    if a in IdentKeys(e.output) {
      assert Shows(all[|es|], a) && Shows(all[|es|], c);
      JoinedOnce(all, a, c);
      JoinedOnce(all, c, a);
    } else {
      var t :| t in IdentKeys(e.output) && SameClass(After(es), a, t);
      assert SameClass(After(es), t, a);
      JoinedGrows(es, e, a, t);
      JoinedGrows(es, e, t, a);
      assert Shows(all[|es|], t) && Shows(all[|es|], c);
      JoinedOnce(all, t, c);
      JoinedOnce(all, c, t);
      JoinedTransitive(all, a, t, c);
      JoinedTransitive(all, c, t, a);
    }
  }

  lemma LastApart(es: seq<Event>)
    requires es != []
    ensures es == es[..|es| - 1] + [es[|es| - 1]]
  {
  }

  lemma {:induction false} ClassesAreJoined(es: seq<Event>, a: Key, b: Key)
    requires History(es) && SameClass(After(es), a, b)
    ensures Joined(es, a, b)
  {
    if es != [] {
      var n := |es| - 1;
      var before, e := es[..n], es[n];
      LastApart(es);
      forall x, y | SameClass(After(before), x, y) ensures Joined(before, x, y) {
        ClassesAreJoined(before, x, y);
      }
      if e.Seen? && After(es).ids[a] == Target(After(before), e.output) {
        JoinedToSighting(before, e, a);
        JoinedToSighting(before, e, b);
        JoinedTransitive(es, a, ConnKey(e.output.name), b);
      } else {
        if e.Seen? {
          Apart(After(before), e.output, e.side, a);
          Apart(After(before), e.output, e.side, b);
        }
        JoinedGrows(before, e, a, b);
      }
    }
  }

  /** MAIN RESULT. After any history the known identities are those that were shown, and two of
      them map to the same profile exactly when a chain of sightings links them. */
  lemma IdentityIsConnectivity(es: seq<Event>, a: Key, b: Key)
    requires History(es)
    ensures a in After(es).ids <==> Together(es, a, a)
    ensures a in After(es).ids && b in After(es).ids ==> (After(es).ids[a] == After(es).ids[b] <==> Joined(es, a, b))
  {
    KnownKeys(es, a);
    if SameClass(After(es), a, b) {
      ClassesAreJoined(es, a, b);
    }
    if a in After(es).ids && Joined(es, a, b) {
      var p :| Runs(es, p, a, b);
      forall x, y | Together(es, x, y) ensures SameClass(After(es), x, y) {
        TogetherSharesClass(es, x, y);
      }
      if |p| > 1 {
        ChainStaysInClass(es, p);
      }
    }
  }

  /** The same sightings in another order, repeated or not. */
  ghost predicate SameSightings(es: seq<Event>, fs: seq<Event>) {
    forall a, b :: Together(es, a, b) <==> Together(fs, a, b)
  }

  lemma JoinedBySameSightings(es: seq<Event>, fs: seq<Event>, a: Key, b: Key)
    requires SameSightings(es, fs) && Joined(es, a, b)
    ensures Joined(fs, a, b)
  {
    var p :| Runs(es, p, a, b);
    assert Runs(fs, p, a, b) by {
      forall i | 0 <= i < |p| - 1 ensures Together(fs, p[i], p[i + 1]) {
        assert Together(es, p[i], p[i + 1]);
      }
    }
  }

  /** The grouping depends on what was seen together, not on the order it was seen in. */
  lemma OrderDoesNotMatter(es: seq<Event>, fs: seq<Event>, a: Key, b: Key)
    requires History(es) && History(fs) && SameSightings(es, fs)
    ensures SameClass(After(es), a, b) <==> SameClass(After(fs), a, b)
  {
    IdentityIsConnectivity(es, a, b);
    IdentityIsConnectivity(fs, a, b);
    IdentityIsConnectivity(es, b, a);
    IdentityIsConnectivity(fs, b, a);
    if Joined(es, a, b) { JoinedBySameSightings(es, fs, a, b); }
    if Joined(fs, a, b) { JoinedBySameSightings(fs, es, a, b); }
  }
}
