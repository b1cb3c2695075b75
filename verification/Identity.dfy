/** `ensure_profile` of `state.py`: identity classes kept in two dictionaries that must agree.
    SHA-1 is taken as collision free, so a profile id is its seed under a constructor. */
module Identity {
  import opened Wrappers
  import opened Ordering
  import opened Outputs

  datatype Key = EdidKey(sha: string) | ConnKey(name: string)
  datatype Pid = Pid(seed: string)
  /** A missing side and an empty side are treated alike by the source: both are `""`. */
  datatype Profile = Profile(names: seq<string>, edid: Option<string>, side: string)
  datatype State = State(ids: map<Key, Pid>, profs: map<Pid, Profile>, stack: seq<Pid>)

  const NOTHING := Profile([], None, "")
  const FRESH := State(map[], map[], [])

  predicate IsSha1(s: string) {
    |s| == 40 && forall c | c in s :: '0' <= c <= '9' || 'a' <= c <= 'f'
  }

  /** EDIDs are SHA-1 texts and connector names are not. */
  predicate Plain(o: Output) {
    !IsSha1(o.name) && (o.edid.Some? ==> IsSha1(o.edid.value))
  }

  ghost predicate AllPlain(outs: seq<Output>) {
    forall i | 0 <= i < |outs| :: Plain(outs[i])
  }

  function IdentKeys(o: Output): seq<Key> {
    (if o.edid.Some? then [EdidKey(o.edid.value)] else []) + [ConnKey(o.name)]
  }

  function Seed(o: Output): string {
    if o.edid.Some? then o.edid.value else o.name
  }

  function Lookup(profs: map<Pid, Profile>, p: Pid): Profile {
    if p in profs then profs[p] else NOTHING
  }

  // ---- one sighting, as a function ----------------------------------------------------

  predicate Known(st: State, o: Output) {
    (o.edid.Some? && EdidKey(o.edid.value) in st.ids) || ConnKey(o.name) in st.ids
  }

  /** The EDID and the connector were known apart: this sighting joins two profiles. */
  predicate Bridge(st: State, o: Output) {
    o.edid.Some? && EdidKey(o.edid.value) in st.ids && ConnKey(o.name) in st.ids
    && st.ids[EdidKey(o.edid.value)] != st.ids[ConnKey(o.name)]
  }

  /** The EDID speaks first. */
  function Target(st: State, o: Output): Pid {
    if o.edid.Some? && EdidKey(o.edid.value) in st.ids then st.ids[EdidKey(o.edid.value)]
    else if ConnKey(o.name) in st.ids then st.ids[ConnKey(o.name)]
    else Pid(Seed(o))
  }

  function Merged(dst: Profile, src: Profile): Profile {
    Profile(Sort(set n | n in dst.names + src.names),
            if dst.edid.Some? then dst.edid else src.edid,
            if dst.side != "" then dst.side else src.side)
  }

  function Redirect(ids: map<Key, Pid>, gone: Pid, keep: Pid): map<Key, Pid> {
    map k | k in ids :: if ids[k] == gone then keep else ids[k]
  }

  function Absorb(st: State, keep: Pid, gone: Pid): State {
    st.(ids := Redirect(st.ids, gone, keep),
        profs := st.profs[keep := Merged(Lookup(st.profs, keep), Lookup(st.profs, gone))] - {gone})
  }

  function Created(st: State, o: Output, side: string): State {
    st.(profs := st.profs[Pid(Seed(o)) := Profile([o.name], o.edid, side)])
  }

  function Linked(ids: map<Key, Pid>, o: Output, p: Pid): map<Key, Pid> {
    if o.edid.Some? then ids[EdidKey(o.edid.value) := p][ConnKey(o.name) := p]
    else ids[ConnKey(o.name) := p]
  }

  function Refreshed(p: Profile, o: Output): Profile {
    p.(names := if o.name in p.names then p.names else p.names + [o.name],
       edid := if p.edid.Some? then p.edid else o.edid)
  }

  function Settled(st: State, o: Output, p: Pid): State {
    st.(ids := Linked(st.ids, o, p), profs := st.profs[p := Refreshed(Lookup(st.profs, p), o)])
  }

  function Ensure(st: State, o: Output, side: string): State {
    var p := Target(st, o);
    Settled(if Bridge(st, o) then Absorb(st, p, st.ids[ConnKey(o.name)])
            else if Known(st, o) then st
            else Created(st, o, side), o, p)
  }

  // ---- the two dictionaries agree ------------------------------------------------------

  predicate Distinct<T(==)>(s: seq<T>) {
    forall i, j | 0 <= i < j < |s| :: s[i] != s[j]
  }

  predicate Owns(ids: map<Key, Pid>, p: Pid, k: Key) {
    k in ids && ids[k] == p
  }

  /** The profile of `p` says exactly what the identity map says about `p`. */
  ghost predicate Sound(st: State, p: Pid) {
    && p in st.profs
    && Distinct(st.profs[p].names)
    && (forall n :: n in st.profs[p].names <==> Owns(st.ids, p, ConnKey(n)))
    && (st.profs[p].edid.Some? ==> Owns(st.ids, p, EdidKey(st.profs[p].edid.value)))
    && (st.profs[p].edid.None? ==> forall e :: !Owns(st.ids, p, EdidKey(e)))
  }

  function SeedKey(p: Pid): Key {
    if IsSha1(p.seed) then EdidKey(p.seed) else ConnKey(p.seed)
  }

  /** A profile's seed stays a known identity for ever, so no later profile can be given its id. */
  ghost predicate Rooted(st: State) {
    forall p {:trigger SeedKey(p)} | p in st.profs :: SeedKey(p) in st.ids
  }

  ghost predicate Agree(st: State) {
    Rooted(st) && forall k {:trigger st.ids[k]} | k in st.ids :: Sound(st, st.ids[k])
  }

  /** A state the program could have stored. */
  ghost predicate GoodState(st: State) {
    Agree(st) && Distinct(st.stack)
  }

  lemma NewIdIsUnused(st: State, o: Output)
    requires Agree(st) && Plain(o) && !Known(st, o)
    ensures Pid(Seed(o)) !in st.profs
    ensures forall k | k in st.ids :: st.ids[k] != Pid(Seed(o))
  {
    assert SeedKey(Pid(Seed(o))) in IdentKeys(o);
  }

  lemma RedirectOwns(ids: map<Key, Pid>, keep: Pid, gone: Pid, p: Pid, k: Key)
    requires keep != gone
    ensures Owns(Redirect(ids, gone, keep), p, k) <==>
            p != gone && (Owns(ids, p, k) || (p == keep && Owns(ids, gone, k)))
  {
  }

  lemma AbsorbKeep(st: State, keep: Pid, gone: Pid)
    requires Sound(st, keep) && Sound(st, gone) && keep != gone
    ensures Sound(Absorb(st, keep, gone), keep)
  {
    var after := Absorb(st, keep, gone);
    var dst, src := st.profs[keep], st.profs[gone];
    assert after.profs[keep] == Merged(dst, src);
    forall n ensures n in after.profs[keep].names <==> Owns(after.ids, keep, ConnKey(n)) {
      assert n in Merged(dst, src).names <==> n in dst.names || n in src.names;
      RedirectOwns(st.ids, keep, gone, keep, ConnKey(n));
    }
    if after.profs[keep].edid.Some? {
      RedirectOwns(st.ids, keep, gone, keep, EdidKey(after.profs[keep].edid.value));
    }
  }

  lemma AbsorbOther(st: State, keep: Pid, gone: Pid, p: Pid)
    requires Sound(st, p) && keep != gone && p != keep && p != gone
    ensures Sound(Absorb(st, keep, gone), p)
  {
    var after := Absorb(st, keep, gone);
    assert after.profs[p] == st.profs[p];
    forall k ensures Owns(after.ids, p, k) <==> Owns(st.ids, p, k) {
      RedirectOwns(st.ids, keep, gone, p, k);
    }
  }

  lemma AbsorbRooted(st: State, keep: Pid, gone: Pid)
    requires Rooted(st) && keep in st.profs
    ensures Rooted(Absorb(st, keep, gone))
  {
  }

  lemma AbsorbAgrees(st: State, keep: Pid, gone: Pid)
    requires Agree(st) && keep != gone && Sound(st, keep) && Sound(st, gone)
    ensures Agree(Absorb(st, keep, gone))
  {
    var after := Absorb(st, keep, gone);
    AbsorbKeep(st, keep, gone);
    AbsorbRooted(st, keep, gone);
    forall k | k in after.ids ensures Sound(after, after.ids[k]) {
      assert Sound(st, st.ids[k]);
      if after.ids[k] != keep {
        AbsorbOther(st, keep, gone, st.ids[k]);
      }
    }
  }

  /** Linking a sighting whose keys are either unknown or already in the class of `p`. */
  ghost predicate Fits(st: State, o: Output, p: Pid) {
    && SeedKey(p) in Linked(st.ids, o, p)
    && p in st.profs && Distinct(st.profs[p].names)
    && (forall k | k in IdentKeys(o) && k in st.ids :: st.ids[k] == p)
    && (forall n :: Owns(st.ids, p, ConnKey(n)) ==> n in st.profs[p].names)
    && (forall n :: n in st.profs[p].names ==> Owns(st.ids, p, ConnKey(n)) || n == o.name)
    && (st.profs[p].edid.Some? ==> Owns(Linked(st.ids, o, p), p, EdidKey(st.profs[p].edid.value)))
    && (st.profs[p].edid.None? ==> forall e :: !Owns(st.ids, p, EdidKey(e)))
  }

  lemma SettledTarget(st: State, o: Output, p: Pid)
    requires Fits(st, o, p)
    ensures Sound(Settled(st, o, p), p)
  {
    var after := Settled(st, o, p);
    forall n ensures n in after.profs[p].names <==> Owns(after.ids, p, ConnKey(n)) {
      assert n in after.profs[p].names <==> n in st.profs[p].names || n == o.name;
      assert Owns(after.ids, p, ConnKey(n)) <==> Owns(st.ids, p, ConnKey(n)) || n == o.name;
    }
    assert o.edid.Some? ==> Owns(after.ids, p, EdidKey(o.edid.value));
  }

  lemma SettledOther(st: State, o: Output, p: Pid, q: Pid)
    requires forall k | k in IdentKeys(o) && k in st.ids :: st.ids[k] == p
    requires Sound(st, q) && q != p
    ensures Sound(Settled(st, o, p), q)
  {
    var after := Settled(st, o, p);
    forall k ensures Owns(after.ids, q, k) <==> Owns(st.ids, q, k) {
      assert k !in IdentKeys(o) ==> (k in after.ids <==> k in st.ids);
    }
  }

  lemma SettledAgrees(st: State, o: Output, p: Pid)
    requires Fits(st, o, p)
    requires forall q {:trigger SeedKey(q)} | q in st.profs && q != p :: SeedKey(q) in st.ids
    requires forall k | k in st.ids && st.ids[k] != p :: Sound(st, st.ids[k])
    ensures Agree(Settled(st, o, p))
  {
    var after := Settled(st, o, p);
    SettledTarget(st, o, p);
    forall k | k in after.ids ensures Sound(after, after.ids[k]) {
      if after.ids[k] != p {
        SettledOther(st, o, p, st.ids[k]);
      }
    }
  }

  lemma KnownSettledAgrees(st: State, o: Output, p: Pid)
    requires Agree(st) && Known(st, o)
    requires forall k | k in IdentKeys(o) && k in st.ids :: st.ids[k] == p
    ensures Agree(Settled(st, o, p))
  {
    var k :| k in IdentKeys(o) && k in st.ids;
    assert Sound(st, st.ids[k]);
    SettledAgrees(st, o, p);
  }

  lemma BridgeAgrees(st: State, o: Output, side: string)
    requires Agree(st) && Bridge(st, o)
    ensures Agree(Ensure(st, o, side))
  {
    var p, gone := Target(st, o), st.ids[ConnKey(o.name)];
    assert Sound(st, st.ids[EdidKey(o.edid.value)]) && Sound(st, gone);
    AbsorbAgrees(st, p, gone);
    assert ConnKey(o.name) in IdentKeys(o);
    KnownSettledAgrees(Absorb(st, p, gone), o, p);
  }

  lemma KnownAgrees(st: State, o: Output, side: string)
    requires Agree(st) && Known(st, o) && !Bridge(st, o)
    ensures Agree(Ensure(st, o, side))
  {
    KnownSettledAgrees(st, o, Target(st, o));
  }

  lemma NewAgrees(st: State, o: Output, side: string)
    requires Agree(st) && Plain(o) && !Known(st, o)
    ensures Agree(Ensure(st, o, side))
  {
    NewIdIsUnused(st, o);
    var p, mid := Pid(Seed(o)), Created(st, o, side);
    assert forall k | k in IdentKeys(o) :: k !in st.ids;
    assert ConnKey(o.name) in IdentKeys(o);
    forall k | k in st.ids ensures Sound(mid, mid.ids[k]) {
      assert Sound(st, st.ids[k]);
    }
    SettledAgrees(mid, o, p);
  }

  /** INVARIANT. A sighting keeps the identity map and the profiles in agreement. */
  lemma EnsureAgrees(st: State, o: Output, side: string)
    requires Agree(st) && Plain(o)
    ensures Agree(Ensure(st, o, side))
  {
    if Bridge(st, o) {
      BridgeAgrees(st, o, side);
    } else if Known(st, o) {
      KnownAgrees(st, o, side);
    } else {
      NewAgrees(st, o, side);
    }
  }

  // ---- what else a sighting keeps --------------------------------------------------------

  lemma SettledAgain(st: State, o: Output, p: Pid)
    ensures Known(Settled(st, o, p), o) && !Bridge(Settled(st, o, p), o)
    ensures Target(Settled(st, o, p), o) == p
    ensures Settled(Settled(st, o, p), o, p) == Settled(st, o, p)
  {
    var after := Settled(st, o, p);
    assert ConnKey(o.name) in IdentKeys(o);
    assert Linked(after.ids, o, p) == after.ids;
    assert Refreshed(after.profs[p], o) == after.profs[p];
    assert after.profs[p := after.profs[p]] == after.profs;
  }

  /** Seeing the same output again changes nothing, whatever the first sighting did. */
  lemma EnsureAgain(st: State, o: Output, side: string, again: string)
    ensures Ensure(Ensure(st, o, side), o, again) == Ensure(st, o, side)
    ensures Target(Ensure(st, o, side), o) == Target(st, o)
  {
    var p := Target(st, o);
    SettledAgain(if Bridge(st, o) then Absorb(st, p, st.ids[ConnKey(o.name)])
                 else if Known(st, o) then st else Created(st, o, side), o, p);
  }

  /** A preferred side of a profile that survives is never overwritten. */
  lemma SidesSurvive(st: State, o: Output, side: string, p: Pid)
    requires Agree(st) && Plain(o)
    requires p in st.profs && p in Ensure(st, o, side).profs && st.profs[p].side != ""
    ensures Ensure(st, o, side).profs[p].side == st.profs[p].side
  {
    if !Known(st, o) {
      NewIdIsUnused(st, o);
    }
  }

  /** So is its EDID. */
  lemma EdidsSurvive(st: State, o: Output, side: string, p: Pid)
    requires Agree(st) && Plain(o)
    requires p in st.profs && p in Ensure(st, o, side).profs && st.profs[p].edid.Some?
    ensures Ensure(st, o, side).profs[p].edid == st.profs[p].edid
  {
    if !Known(st, o) {
      NewIdIsUnused(st, o);
    }
  }

  /** An output seen for the first time gets a profile of its own, with the default side. */
  lemma NewcomerIsAlone(st: State, o: Output, side: string)
    requires Agree(st) && Plain(o) && !Known(st, o)
    ensures var after := Ensure(st, o, side);
            var id := Pid(match o.edid case Some(sha) => sha case None => o.name);
            && after.profs == st.profs[id := Profile([o.name], o.edid, side)]
            && id !in st.profs
            && forall k | k in after.ids ::
                 after.ids[k] == id <==> k == ConnKey(o.name) || (o.edid.Some? && k == EdidKey(o.edid.value))
  {
    NewIdIsUnused(st, o);
  }

  /** The preferred side of the class a key belongs to. */
  function SideOf(st: State, k: Key): string {
    if k in st.ids then Lookup(st.profs, st.ids[k]).side else ""
  }

  /** The class of `k` is folded into a profile that already prefers some other side. */
  predicate Overruled(st: State, o: Output, k: Key) {
    && Bridge(st, o) && Owns(st.ids, st.ids[ConnKey(o.name)], k)
    && Lookup(st.profs, Target(st, o)).side !in {"", SideOf(st, k)}
  }

  lemma SideAcrossMerge(st: State, o: Output, side: string, k: Key)
    requires Agree(st) && Bridge(st, o) && k in st.ids
    ensures SideOf(Ensure(st, o, side), k)
         == if st.ids[k] == st.ids[ConnKey(o.name)] && Lookup(st.profs, Target(st, o)).side != ""
            then Lookup(st.profs, Target(st, o)).side
            else if st.ids[k] == Target(st, o) && SideOf(st, k) == "" then SideOf(st, ConnKey(o.name))
            else SideOf(st, k)
  {
    var keep, gone := Target(st, o), st.ids[ConnKey(o.name)];
    var mid := Absorb(st, keep, gone);
    assert Sound(st, st.ids[EdidKey(o.edid.value)]) && Sound(st, gone) && Sound(st, st.ids[k]);
    assert mid.profs[keep] == Merged(st.profs[keep], st.profs[gone]);
    assert Ensure(st, o, side).ids[k] == mid.ids[k];
    assert Ensure(st, o, side).profs[mid.ids[k]].side == mid.profs[mid.ids[k]].side;
  }

  lemma SideWithoutMerge(st: State, o: Output, side: string, k: Key)
    requires Agree(st) && Plain(o) && !Bridge(st, o) && k in st.ids
    ensures SideOf(Ensure(st, o, side), k) == SideOf(st, k)
  {
    assert Sound(st, st.ids[k]);
    if !Known(st, o) {
      NewIdIsUnused(st, o);
    }
  }

  /** EXACT CONDITION. A class keeps its side across a sighting unless that sighting overrules it. */
  lemma SideKeptUnlessOverruled(st: State, o: Output, side: string, k: Key)
    requires Agree(st) && Plain(o) && k in st.ids && SideOf(st, k) != ""
    ensures SideOf(Ensure(st, o, side), k) == SideOf(st, k) <==> !Overruled(st, o, k)
  {
    if Bridge(st, o) {
      SideAcrossMerge(st, o, side, k);
    } else {
      SideWithoutMerge(st, o, side, k);
    }
  }

  // ---- the dictionaries, updated in place ------------------------------------------------

  class Store {
    var ids: map<Key, Pid>
    var profs: map<Pid, Profile>
    var stack: seq<Pid>

    function View(): State
      reads this
    {
      State(ids, profs, stack)
    }

    /** `load_state`: what the file held, or an empty state when it could not be read. */
    constructor (loaded: Option<State>)
      ensures View() == if loaded.Some? then loaded.value else FRESH
    {
      var st := if loaded.Some? then loaded.value else FRESH;
      ids, profs, stack := st.ids, st.profs, st.stack;
    }

    /** The loop over `list(imap.items())`: every key of the merged profile is re-pointed. */
    method RepointAll(gone: Pid, keep: Pid)
      requires gone != keep
      modifies this`ids
      ensures ids == Redirect(old(ids), gone, keep)
    {
      var items := ids.Keys;
      while items != {}
        invariant ids.Keys == old(ids).Keys && items <= ids.Keys
        invariant forall k | k in items :: ids[k] == old(ids)[k]
        invariant forall k | k in ids && k !in items :: ids[k] == if old(ids)[k] == gone then keep else old(ids)[k]
        decreases |items|
      {
        var k :| k in items;
        if ids[k] == gone {
          ids := ids[k := keep];
        }
        items := items - {k};
      }
    }

    method Merge(keep: Pid, gone: Pid)
      requires gone != keep
      modifies this
      ensures View() == Absorb(old(View()), keep, gone)
    {
      var src, dst := Lookup(profs, gone), Lookup(profs, keep);
      dst := dst.(names := Sort(set n | n in dst.names + src.names));
      if dst.edid.None? && src.edid.Some? {
        dst := dst.(edid := src.edid);
      }
      if dst.side == "" && src.side != "" {
        dst := dst.(side := src.side);
      }
      profs := profs[keep := dst] - {gone};
      RepointAll(gone, keep);
    }

    /** `[imap[k] for k in keys if k in imap]`. */
    method Targets(o: Output) returns (targets: seq<Pid>)
      ensures targets == [] <==> !Known(View(), o)
      ensures targets != [] ==> targets[0] == Target(View(), o)
      ensures |targets| <= 2 && (|targets| == 2 ==> targets[1] == Target(View(), o.(edid := None)))
      ensures Bridge(View(), o) <==> |targets| == 2 && targets[0] != targets[1]
    {
      var keys := IdentKeys(o);
      targets := [];
      for i := 0 to |keys|
        invariant targets == (if i > 0 && keys[0] in ids then [ids[keys[0]]] else [])
                             + (if i > 1 && keys[1] in ids then [ids[keys[1]]] else [])
      {
        if keys[i] in ids {
          targets := targets + [ids[keys[i]]];
        }
      }
      assert keys[|keys| - 1] == ConnKey(o.name) && (|keys| == 2 ==> keys[0] == EdidKey(o.edid.value));
    }

    /** The tail of `ensure_profile`: the keys, the connector name and the EDID of the profile found. */
    method Link(o: Output, target: Pid)
      modifies this
      ensures View() == Settled(old(View()), o, target)
    {
      if o.edid.Some? {
        ids := ids[EdidKey(o.edid.value) := target];
      }
      ids := ids[ConnKey(o.name) := target];
      var p := Lookup(profs, target);
      if o.name !in p.names {
        p := p.(names := p.names + [o.name]);
      }
      if p.edid.None? {
        p := p.(edid := o.edid);
      }
      profs := profs[target := p];
    }

    /** `ensure_profile`. */
    method EnsureProfile(o: Output, defaultSide: string) returns (target: Pid)
      requires Agree(View()) && Plain(o)
      modifies this
      ensures target == Target(old(View()), o)
      ensures View() == Ensure(old(View()), o, defaultSide)
      ensures Agree(View()) && SeedKey(target) in ids
    {
      ghost var before := View();
      var targets := Targets(o);
      if targets != [] {
        target := targets[0];
        if |targets| > 1 && targets[1] != target {
          Merge(target, targets[1]);
        }
      } else {
        target := Pid(Seed(o));
        profs := profs[target := Profile([o.name], o.edid, defaultSide)];
      }
      Link(o, target);
      EnsureAgrees(before, o, defaultSide);
      assert Sound(View(), ids[ConnKey(o.name)]);
    }

    /** `get_profile(st, pid)["preferred_side"] = side`. */
    method Prefer(p: Pid, side: string)
      requires Agree(View()) && SeedKey(p) in ids
      modifies this`profs
      ensures View() == Preferring(old(View()), p, side) && Agree(View())
    {
      PreferringAgrees(View(), p, Lookup(profs, p).(side := side));
      profs := profs[p := Lookup(profs, p).(side := side)];
    }

    /** `get_profile(st, pid).get("preferred_side") or default_side`: reading creates a missing entry. */
    method SideFor(p: Pid, defaultSide: string) returns (side: string)
      requires Agree(View()) && SeedKey(p) in ids
      modifies this`profs
      ensures View() == Opening(old(View()), p) && Agree(View())
      ensures side == if Lookup(old(profs), p).side != "" then Lookup(old(profs), p).side else defaultSide
    {
      PreferringAgrees(View(), p, Lookup(profs, p));
      profs := profs[p := Lookup(profs, p)];
      side := if profs[p].side != "" then profs[p].side else defaultSide;
    }
  }

  function Preferring(st: State, p: Pid, side: string): State {
    st.(profs := st.profs[p := Lookup(st.profs, p).(side := side)])
  }

  function Opening(st: State, p: Pid): State {
    st.(profs := st.profs[p := Lookup(st.profs, p)])
  }

  lemma PreferringAgrees(st: State, p: Pid, q: Profile)
    requires Agree(st) && SeedKey(p) in st.ids
    requires q.names == Lookup(st.profs, p).names && q.edid == Lookup(st.profs, p).edid
    ensures Agree(st.(profs := st.profs[p := q]))
  {
    var after := st.(profs := st.profs[p := q]);
    forall k | k in after.ids ensures Sound(after, after.ids[k]) {
      assert Sound(st, st.ids[k]);
    }
  }
}
