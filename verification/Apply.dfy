/** `apply_once` of `apply.py`, driving a set of heads that may change between its reads. */
module Apply {
  import opened Wrappers
  import opened Ordering
  import opened Outputs
  import opened Identity
  import opened Placement
  import opened Externals
  import opened Layouts
  import Argv

  /** What an apply tells xrandr to do. */
  datatype Cmd =
    | Off(connector: string)
    | Primary(connector: string)
    | Place(slot: Slot)
    | Configure(argv: seq<string>)

  function OffOf(c: Cmd): set<string> {
    if c.Off? then {c.connector} else {}
  }

  function LightOf(c: Cmd): set<string> {
    match c
    case Off(_) => {}
    case Primary(n) => {n}
    case Place(s) => {s.item}
    case Configure(argv) =>
      if argv == [] then {} else Argv.Lighted(argv[1..])
  }

  function Offs(cmds: seq<Cmd>): set<string> {
    if cmds == [] then {} else Offs(cmds[..|cmds| - 1]) + OffOf(cmds[|cmds| - 1])
  }

  function Lights(cmds: seq<Cmd>): set<string> {
    if cmds == [] then {} else Lights(cmds[..|cmds| - 1]) + LightOf(cmds[|cmds| - 1])
  }

  lemma CmdsSnoc(cmds: seq<Cmd>, c: Cmd)
    ensures Offs(cmds + [c]) == Offs(cmds) + OffOf(c)
    ensures Lights(cmds + [c]) == Lights(cmds) + LightOf(c)
  {
    assert (cmds + [c])[..|cmds|] == cmds;
  }

  lemma {:induction false} CmdsAppend(a: seq<Cmd>, b: seq<Cmd>)
    ensures Offs(a + b) == Offs(a) + Offs(b)
    ensures Lights(a + b) == Lights(a) + Lights(b)
  {
    if b == [] {
      assert a + b == a;
    } else {
      var n := |b| - 1;
      CmdsAppend(a, b[..n]);
      assert a + b == (a + b[..n]) + [b[n]];
      CmdsSnoc(a + b[..n], b[n]);
    }
  }

  // ---- the heads --------------------------------------------------------------------------------

  predicate Sane(outs: map<string, Output>) {
    Named(outs) && forall n | n in outs :: Plain(outs[n])
  }

  /** The heads of a screen, by connector. */
  type Heads = outs: map<string, Output> | Sane(outs) witness map[]

  /** What a read gave; None for one that failed. */
  type Answer = Option<Heads>

  /** Which heads are connected has not changed, and what is lit has changed by `off` and `on` only. */
  predicate Switched(a: map<string, Output>, b: map<string, Output>, off: set<string>, on: set<string>) {
    Connected(b) == Connected(a) && Lit(b) == (Lit(a) - off) + (on * Connected(a))
  }

  /** One way the heads can follow a command. */
  function Followed(outs: Heads, off: set<string>, on: set<string>): Heads {
    map n | n in outs ::
      if n in on && outs[n].connected then outs[n].(mode := Some((1, 1)), position := Some((0, 0)))
      else if n in off then outs[n].(mode := None, position := None)
      else outs[n]
  }

  lemma FollowedSwitches(outs: Heads, off: set<string>, on: set<string>)
    ensures Switched(outs, Followed(outs, off, on), off, on)
  {
  }

  lemma SwitchedTwice(a: map<string, Output>, b: map<string, Output>, c: map<string, Output>,
                      off: set<string>, on: set<string>, off2: set<string>, on2: set<string>)
    requires Switched(a, b, off, on) && Switched(b, c, off2, on2)
    requires off2 !! on
    ensures Switched(a, c, off + off2, on + on2)
  {
  }

  /** A moment in the life of a screen: its heads, the commands sent and the answers read so far, how often a head
      changed by itself, and how many commands did not do what they say. */
  datatype Moment = Moment(outs: Heads, issued: seq<Cmd>, answers: seq<Answer>, drifts: nat, ignored: nat)

  predicate Later(a: Moment, b: Moment) {
    a.issued <= b.issued && a.answers <= b.answers && a.drifts <= b.drifts && a.ignored <= b.ignored
  }

  /** Between the two moments nothing was sent. */
  predicate Looked(a: Moment, b: Moment) {
    && Later(a, b) && b.issued == a.issued && b.ignored == a.ignored
    && (a.drifts == b.drifts ==> b.outs == a.outs)
  }

  /** Between the two moments nothing but our own commands changed a head, and every command took effect. */
  predicate Calm(a: Moment, b: Moment) {
    a.drifts == b.drifts && a.ignored == b.ignored
  }

  /** Every read between the two moments answered. */
  predicate Clear(a: Moment, b: Moment) {
    forall i | |a.answers| <= i < |b.answers| :: b.answers[i].Some?
  }

  /** X and its heads, which may change at every read and every command; a read may fail and a command may be ignored. */
  class Screen {
    var outs: Heads
    ghost var issued: seq<Cmd>
    ghost var answers: seq<Answer>
    ghost var drifts: nat
    ghost var ignored: nat

    ghost function Now(): Moment
      reads this
    {
      Moment(outs, issued, answers, drifts, ignored)
    }

    constructor (outs: Heads)
      ensures Now() == Moment(outs, [], [], 0, 0)
    {
      this.outs, issued, answers := outs, [], [];
      drifts, ignored := 0, 0;
    }

    /** Cables and CRTCs move on their own. */
    method Drift()
      modifies this`outs, this`drifts
      ensures Looked(old(Now()), Now()) && answers == old(answers)
    {
      var moves: bool := *;
      if moves {
        outs := *;
        drifts := drifts + 1;
      }
    }

    /** `read_xrandr`: what the heads are right now, or a failure. */
    method Read() returns (seen: Answer)
      modifies this`outs, this`drifts, this`answers
      ensures Looked(old(Now()), Now()) && answers == old(answers) + [seen]
      ensures seen.Some? ==> seen.value == outs
    {
      Drift();
      var fails: bool := *;
      seen := if fails then None else Some(outs);
      answers := answers + [seen];
    }

    /** Runs one xrandr command. */
    method Send(cmd: Cmd)
      modifies this`outs, this`issued, this`drifts, this`ignored
      ensures Later(old(Now()), Now()) && issued == old(issued) + [cmd] && answers == old(answers)
      ensures Calm(old(Now()), Now()) ==> Switched(old(outs), outs, OffOf(cmd), LightOf(cmd))
    {
      issued := issued + [cmd];
      var obeys: bool := *;
      if obeys {
        FollowedSwitches(outs, OffOf(cmd), LightOf(cmd));
        outs := Followed(outs, OffOf(cmd), LightOf(cmd));
      } else {
        outs := *;
        ignored := ignored + 1;
      }
      Drift();
    }
  }

  // ---- the steps of an apply ---------------------------------------------------------------------

  /** Disconnected heads that still drive pixels. */
  function Stale(outs: map<string, Output>): set<string> {
    set n | n in outs && !outs[n].connected && outs[n].IsLit()
  }

  /** What the commands sent between the two moments switched off and lit, and that they did if nothing interfered. */
  ghost predicate Did(a: Moment, b: Moment, off: set<string>, on: set<string>) {
    && Later(a, b) && b.answers == a.answers
    && Offs(b.issued[|a.issued|..]) == off && Lights(b.issued[|a.issued|..]) == on
    && (Calm(a, b) ==> Switched(a.outs, b.outs, off, on))
  }

  lemma SentMore(issued: seq<Cmd>, before: seq<Cmd>, cmd: Cmd)
    requires before <= issued
    ensures (issued + [cmd])[|before|..] == issued[|before|..] + [cmd]
    ensures Offs((issued + [cmd])[|before|..]) == Offs(issued[|before|..]) + OffOf(cmd)
    ensures Lights((issued + [cmd])[|before|..]) == Lights(issued[|before|..]) + LightOf(cmd)
  {
    CmdsSnoc(issued[|before|..], cmd);
  }

  /** Sends a command on behalf of an apply that began to send at `a`. */
  method SendMore(x: Screen, cmd: Cmd, ghost a: Moment, ghost off: set<string>, ghost on: set<string>)
    requires Did(a, x.Now(), off, on) && OffOf(cmd) !! on
    modifies x`outs, x`issued, x`drifts, x`ignored
    ensures Did(a, x.Now(), off + OffOf(cmd), on + LightOf(cmd))
    ensures x.issued == old(x.issued) + [cmd]
  {
    SentMore(x.issued, a.issued, cmd);
    ghost var mid := x.Now();
    x.Send(cmd);
    if Calm(a, x.Now()) {
      SwitchedTwice(a.outs, mid.outs, x.outs, off, on, OffOf(cmd), LightOf(cmd));
    }
  }

  lemma NothingSent(a: Moment)
    ensures Did(a, a, {}, {})
  {
    assert a.issued[|a.issued|..] == [];
  }

  lemma ScrubbedSoFar(outs: map<string, Output>, items: set<string>, n: string)
    requires n in items && items <= outs.Keys
    ensures Stale(outs) - (items - {n}) == (Stale(outs) - items) + (if n in Stale(outs) then {n} else {})
  {
  }

  /** `scrub_stale`. */
  method ScrubStale(x: Screen, outs: Heads)
    modifies x`outs, x`issued, x`drifts, x`ignored
    ensures Did(old(x.Now()), x.Now(), Stale(outs), {})
  {
    ghost var a := x.Now();
    var items := outs.Keys;
    NothingSent(a);
    assert Stale(outs) - items == {};
    while items != {}
      invariant items <= outs.Keys && Did(a, x.Now(), Stale(outs) - items, {})
      decreases |items|
    {
      var connector :| connector in items;
      ScrubbedSoFar(outs, items, connector);
      if !outs[connector].connected && outs[connector].IsLit() {
        SendMore(x, Off(connector), a, Stale(outs) - items, {});
      }
      items := items - {connector};
    }
    assert Stale(outs) - {} == Stale(outs);
  }

  /** The outputs of a dictionary in whatever order it yields them. */
  method Values(outs: map<string, Output>, names: set<string>) returns (r: seq<Output>)
    requires names <= outs.Keys && Named(outs)
    ensures forall c :: c in names <==> IsExternal(r, c)
    ensures forall i | 0 <= i < |r| :: r[i].name in names && r[i] == outs[r[i].name]
    ensures forall i, j | 0 <= i < j < |r| :: r[i].name != r[j].name
  {
    r := [];
    var left := names;
    while left != {}
      invariant left <= names
      invariant forall i | 0 <= i < |r| :: r[i].name in names - left && r[i] == outs[r[i].name]
      invariant forall c | c in names - left :: IsExternal(r, c)
      invariant forall i, j | 0 <= i < j < |r| :: r[i].name != r[j].name
      decreases |left|
    {
      var n :| n in left;
      ghost var old_r := r;
      r := r + [outs[n]];
      left := left - {n};
      forall c | c in names - left ensures IsExternal(r, c) {
        if c == n {
          assert r[|old_r|].name == c;
        } else {
          assert IsExternal(old_r, c);
          var i :| 0 <= i < |old_r| && old_r[i].name == c;
          assert r[i].name == c;
        }
      }
    }
    forall c ensures c in names <==> IsExternal(r, c) {
      if IsExternal(r, c) {
        var i :| 0 <= i < |r| && r[i].name == c;
      }
    }
  }

  function Items(slots: seq<Slot>): set<string> {
    set i | 0 <= i < |slots| :: slots[i].item
  }

  function Places(slots: seq<Slot>): (cmds: seq<Cmd>)
    ensures |cmds| == |slots| && forall i | 0 <= i < |slots| :: cmds[i] == Place(slots[i])
  {
    if slots == [] then [] else Places(slots[..|slots| - 1]) + [Place(slots[|slots| - 1])]
  }

  lemma ItemsNext(slots: seq<Slot>, i: nat, on: set<string>)
    requires i < |slots|
    ensures on + Items(slots[..i]) + {slots[i].item} == on + Items(slots[..i + 1])
    ensures Places(slots[..i + 1]) == Places(slots[..i]) + [Place(slots[i])]
  {
    assert slots[..i + 1][..i] == slots[..i];
    forall c | c in Items(slots[..i + 1]) ensures c in Items(slots[..i]) || c == slots[i].item {
      var j :| 0 <= j <= i && slots[..i + 1][j].item == c;
      if j < i { assert slots[..i][j].item == c; }
    }
    forall c | c in Items(slots[..i]) ensures c in Items(slots[..i + 1]) {
      var j :| 0 <= j < i && slots[..i][j].item == c;
      assert slots[..i + 1][j].item == c;
    }
    assert slots[..i + 1][i] == slots[i];
  }

  lemma PlacesNext(start: seq<Cmd>, slots: seq<Slot>, i: nat)
    requires i < |slots|
    ensures start + Places(slots[..i]) + [Place(slots[i])] == start + Places(slots[..i + 1])
  {
    ItemsNext(slots, i, {});
    var done := Places(slots[..i]);
    assert start + done + [Place(slots[i])] == start + (done + [Place(slots[i])]);
  }

  /** One turn of the loop over the placements. */
  method PlaceOneMore(x: Screen, slots: seq<Slot>, i: nat, ghost a: Moment, ghost off: set<string>, ghost on: set<string>)
    requires i < |slots| && Did(a, x.Now(), off, on + Items(slots[..i]))
    modifies x`outs, x`issued, x`drifts, x`ignored
    ensures Did(a, x.Now(), off, on + Items(slots[..i + 1])) && x.issued == old(x.issued) + [Place(slots[i])]
  {
    ItemsNext(slots, i, on);
    SendMore(x, Place(slots[i]), a, off, on + Items(slots[..i]));
    assert off + {} == off;
  }

  /** The loop over the placements. */
  method PlaceAll(x: Screen, slots: seq<Slot>, ghost a: Moment, ghost off: set<string>, ghost on: set<string>)
    requires Did(a, x.Now(), off, on)
    modifies x`outs, x`issued, x`drifts, x`ignored
    ensures Did(a, x.Now(), off, on + Items(slots))
    ensures x.issued == old(x.issued) + Places(slots)
  {
    ghost var start := x.issued;
    assert on + Items(slots[..0]) == on;
    for i := 0 to |slots|
      invariant Did(a, x.Now(), off, on + Items(slots[..i]))
      invariant x.issued == start + Places(slots[..i])
    {
      PlaceOneMore(x, slots, i, a, off, on);
      PlacesNext(start, slots, i);
    }
    assert slots[..|slots|] == slots;
  }

  function Internal(names: set<string>): set<string> {
    set n | n in names && IsInternalLcd(n)
  }

  /** How the connectors of internal panels are named. */
  ghost predicate NamesPanel(n: string) {
    "eDP" <= n || "LVDS" <= n || "DSI" <= n || "DPI" <= n
  }

  /** The internal panel wins primary, the first one in the alphabet if there are several; without one, the first connector
      in the alphabet. */
  function PrimaryOf(names: set<string>): (p: string)
    requires names != {}
    ensures p in names && (NamesPanel(p) <==> exists n | n in names :: NamesPanel(n))
    ensures forall n | n in names && (NamesPanel(p) ==> NamesPanel(n)) :: Le(p, n)
  {
    assert forall n :: IsInternalLcd(n) <==> NamesPanel(n);
    assert forall n | n in names && IsInternalLcd(n) :: n in Internal(names);
    if Internal(names) != {} then Least(Internal(names)) else Least(names)
  }

  /** `exts` lists the connected heads other than the primary, in the order the dictionary yields them. */
  ghost predicate Rest(exts: seq<Output>, seen: map<string, Output>, primary: string) {
    && AreExternals(exts, primary)
    && (forall i | 0 <= i < |exts| :: exts[i].name in seen && exts[i] == seen[exts[i].name])
    && forall c :: c in Connected(seen) - {primary} <==> IsExternal(exts, c)
  }

  lemma EveryConnectedIsLit(plan: seq<Slot>, exts: seq<Output>, seen: map<string, Output>, primary: string)
    requires Rest(exts, seen, primary) && primary in Connected(seen)
    requires forall c :: HasSlot(plan, c) <==> IsExternal(exts, c)
    ensures {primary} + Items(plan) == Connected(seen)
  {
    forall c ensures c in Items(plan) <==> HasSlot(plan, c) {
    }
  }

  /** What is loaded, or an empty state. */
  function Start(loaded: Option<State>): State {
    if loaded.Some? then loaded.value else FRESH
  }

  ghost predicate GoodFile(loaded: Option<State>) {
    loaded.Some? ==> GoodState(loaded.value)
  }

  /** What a state file the program wrote may hold, or none. */
  type File = loaded: Option<State> | GoodFile(loaded) witness None

  /** The locked part of an apply stored what its slots were computed from, and sent those slots last. */
  ghost predicate Stored(issued: seq<Cmd>, loaded: File, saved: State, exts: seq<Output>,
                         seen: map<string, Output>, defaultSide: string)
  {
    && Connected(seen) != {} && GoodState(saved)
    && Rest(exts, seen, PrimaryOf(Connected(seen)))
    && saved == Placed(Start(loaded), exts, PrimaryOf(Connected(seen)), defaultSide)
    && Sends(issued, PrimaryOf(Connected(seen)), Plan(Start(loaded), exts, PrimaryOf(Connected(seen)), defaultSide))
  }

  /** The last commands: the primary, then its externals in order. */
  ghost predicate Sends(issued: seq<Cmd>, primary: string, plan: seq<Slot>) {
    |plan| < |issued| && issued[|issued| - |plan| - 1..] == [Primary(primary)] + Places(plan)
  }

  lemma GoodStart(loaded: Option<State>)
    requires GoodFile(loaded)
    ensures GoodState(Start(loaded))
  {
  }

  /** `[o for o in connected if o.name != primary]`. */
  method Others(seen: map<string, Output>, primary: string) returns (exts: seq<Output>)
    requires Sane(seen)
    ensures Rest(exts, seen, primary)
  {
    exts := Values(seen, Connected(seen) - {primary});
    forall i | 0 <= i < |exts| ensures Plain(exts[i]) && exts[i].name != primary {
      assert exts[i] == seen[exts[i].name];
    }
  }

  /** Load, place, and what is to be saved. */
  method SlotsFor(seen: map<string, Output>, primary: string, loaded: File, defaultSide: string)
    returns (placements: seq<Slot>, saved: State, ghost exts: seq<Output>)
    requires Sane(seen) && primary in Connected(seen)
    ensures Rest(exts, seen, primary) && GoodState(saved)
    ensures GoodState(Start(loaded))
    ensures saved == Placed(Start(loaded), exts, primary, defaultSide)
    ensures placements == Plan(Start(loaded), exts, primary, defaultSide)
    ensures {primary} + Items(placements) == Connected(seen)
  {
    GoodStart(loaded);
    var others := Others(seen, primary);
    exts := others;
    var store := new Store(loaded);
    placements := PlaceExternals(store, others, primary, defaultSide);
    saved := store.View();
    PlanLightsAll(Start(loaded), exts, seen, primary, defaultSide);
  }

  lemma PlanLightsAll(st: State, exts: seq<Output>, seen: map<string, Output>, primary: string, defaultSide: string)
    requires Rest(exts, seen, primary) && primary in Connected(seen) && Distinct(st.stack)
    ensures {primary} + Items(Plan(st, exts, primary, defaultSide)) == Connected(seen)
  {
    PlanIsCompleteAndCollisionFree(st, exts, primary, defaultSide);
    EveryConnectedIsLit(Plan(st, exts, primary, defaultSide), exts, seen, primary);
  }

  /** The state-locked part: the primary, then the externals around it. */
  method PlaceConnected(x: Screen, seen: Heads, loaded: File, defaultSide: string, ghost a: Moment)
    returns (saved: State, ghost exts: seq<Output>)
    requires Connected(seen) != {}
    requires Did(a, x.Now(), Stale(seen), {})
    modifies x`outs, x`issued, x`drifts, x`ignored
    ensures Did(a, x.Now(), Stale(seen), Connected(seen))
    ensures Stored(x.issued, loaded, saved, exts, seen, defaultSide)
  {
    var connected := Connected(seen);
    var internal := Internal(connected);
    var primary := if internal != {} then Least(internal) else Least(connected);
    SendMore(x, Primary(primary), a, Stale(seen), {});
    var placements;
    placements, saved, exts := SlotsFor(seen, primary, loaded, defaultSide);
    NothingMore(Stale(seen), primary);
    PlaceAround(x, primary, placements, a, Stale(seen));
  }

  lemma NothingMore(off: set<string>, primary: string)
    ensures off + {} == off && {} + {primary} == {primary}
  {
  }

  /** The externals around a primary that was just set. */
  method PlaceAround(x: Screen, primary: string, placements: seq<Slot>, ghost a: Moment, ghost off: set<string>)
    requires Did(a, x.Now(), off, {primary}) && x.issued != [] && x.issued[|x.issued| - 1] == Primary(primary)
    modifies x`outs, x`issued, x`drifts, x`ignored
    ensures Did(a, x.Now(), off, {primary} + Items(placements)) && Sends(x.issued, primary, placements)
  {
    ghost var first := x.issued;
    PlaceAll(x, placements, a, off, {primary});
    SentLast(first, primary, placements);
  }

  lemma SentLast(first: seq<Cmd>, primary: string, plan: seq<Slot>)
    requires first != [] && first[|first| - 1] == Primary(primary)
    ensures Sends(first + Places(plan), primary, plan)
  {
    var all := first + Places(plan);
    assert all[|first| - 1..] == [first[|first| - 1]] + Places(plan);
  }

  /** The last command is the layout's. */
  predicate LaidOut(issued: seq<Cmd>, p: Layout) {
    issued != [] && issued[|issued| - 1] == Configure(["xrandr"] + Args(p.specs))
  }

  /** The layout path: one command for the whole layout. */
  method RunLayout(x: Screen, p: Layout, ghost a: Moment, ghost off: set<string>)
    requires Parsed(p) && Did(a, x.Now(), off, {})
    modifies x`outs, x`issued, x`drifts, x`ignored
    ensures Did(a, x.Now(), off, Connectors(p))
    ensures LaidOut(x.issued, p)
  {
    var argv := BuildXrandrArgv(p);
    assert argv[1..] == Args(p.specs);
    Argv.ArgvLightsTheLayout(p);
    SendMore(x, Configure(argv), a, off, {});
    assert off + {} == off && {} + Connectors(p) == Connectors(p);
  }

  /** When nothing interferes, switching off what was stale and lighting what was connected
      leaves exactly the connected heads lit. */
  lemma Heals(were: map<string, Output>, now: map<string, Output>)
    requires Switched(were, now, Stale(were), Connected(were))
    ensures Healthy(now) && Connected(now) == Connected(were)
  {
    HealthyIs(now);
    forall n ensures n in Lit(now) <==> n in Connected(were) {
      assert n in Lit(were) && n !in Connected(were) ==> n in Stale(were);
    }
  }

  predicate AllParsed(layouts: seq<Layout>) {
    forall i | 0 <= i < |layouts| :: Parsed(layouts[i])
  }

  /** The configured layouts. */
  type Catalogue = layouts: seq<Layout> | AllParsed(layouts) witness []

  /** What an apply that acted on these heads leaves: the layout's command last, or the primary and its externals last and
      a state to save. */
  ghost predicate Arranged(issued: seq<Cmd>, seen: Heads, layouts: Catalogue, loaded: File, defaultSide: string,
                           toSave: File, exts: seq<Output>)
  {
    && (Connected(seen) != {} && MatchProfile(Connected(seen), layouts).Some? ==>
          LaidOut(issued, MatchProfile(Connected(seen), layouts).value))
    && (toSave.Some? <==> Connected(seen) != {} && MatchProfile(Connected(seen), layouts).None?)
    && (toSave.Some? ==> Stored(issued, loaded, toSave.value, exts, seen, defaultSide))
  }

  /** After the scrub: nothing connected, the layout path, or the primary and its externals. */
  method LightUp(x: Screen, outs: Heads, layouts: Catalogue, loaded: File, defaultSide: string, ghost a: Moment)
    returns (toSave: File, ghost exts: seq<Output>)
    requires Did(a, x.Now(), Stale(outs), {})
    modifies x`outs, x`issued, x`drifts, x`ignored
    ensures Did(a, x.Now(), Stale(outs), Connected(outs))
    ensures Arranged(x.issued, outs, layouts, loaded, defaultSide, toSave, exts)
  {
    toSave, exts := None, [];
    if Connected(outs) == {} {
      return;
    }
    var layout := MatchProfile(Connected(outs), layouts);
    MatchIsFirstLeast(Connected(outs), layouts);
    if layout.Some? {
      RunLayout(x, layout.value, a, Stale(outs));
    } else {
      var saved;
      saved, exts := PlaceConnected(x, outs, loaded, defaultSide, a);
      toSave := Some(saved);
    }
  }

  /** What an apply may come to: it ran to the end, or it gave up before touching anything. */
  datatype Result = Completed | Bailed

  /** An apply made its two reads and both answered. */
  predicate BothRead(a: Moment, b: Moment) {
    && a.answers <= b.answers && |b.answers| == |a.answers| + 2
    && b.answers[|a.answers|].Some? && b.answers[|a.answers| + 1].Some?
  }

  /** The heads its second read showed. */
  function SecondRead(a: Moment, b: Moment): Heads
    requires BothRead(a, b)
  {
    b.answers[|a.answers| + 1].value
  }

  /** The two reads. */
  method ReadTwice(x: Screen) returns (second: Answer)
    modifies x`outs, x`drifts, x`answers
    ensures Looked(old(x.Now()), x.Now())
    ensures second.Some? <==> BothRead(old(x.Now()), x.Now())
    ensures second.Some? ==> second.value == SecondRead(old(x.Now()), x.Now()) == x.outs
    ensures second.None? ==> !Clear(old(x.Now()), x.Now())
  {
    var first := x.Read();
    assert x.answers[|old(x.answers)|] == first;
    if first.None? {
      return None;
    }
    second := x.Read();
    assert x.answers[|old(x.answers)| + 1] == second;
  }

  /** The scrub, then everything that lights. */
  method ScrubAndLight(x: Screen, outs: Heads, layouts: Catalogue, loaded: File, defaultSide: string)
    returns (toSave: File, ghost exts: seq<Output>)
    requires outs == x.outs
    modifies x`outs, x`issued, x`drifts, x`ignored
    ensures Did(old(x.Now()), x.Now(), Stale(outs), Connected(outs))
    ensures Arranged(x.issued, outs, layouts, loaded, defaultSide, toSave, exts)
    ensures Calm(old(x.Now()), x.Now()) ==> Healthy(x.outs) && Connected(x.outs) == Connected(outs)
  {
    ghost var a := x.Now();
    ScrubStale(x, outs);
    toSave, exts := LightUp(x, outs, layouts, loaded, defaultSide, a);
    if Calm(a, x.Now()) { Heals(a.outs, x.outs); }
  }

  /** MAIN RESULT: `apply_once`. `toSave` is what the locked part writes back, if it ran; `lockFree` says whether the apply
      lock could be had. Whatever the heads do meanwhile: it completes if and only if the lock was free and both reads
      answered; giving up touches nothing; completing switches off exactly the stale heads and lights exactly the connected
      ones of the SECOND read, so never the same head twice; and if nothing interfered since `mid`, the moment of that read,
      exactly the connected heads are lit. */
  method ApplyOnce(x: Screen, lockFree: bool, layouts: Catalogue, loaded: File, defaultSide: string)
    returns (r: Result, toSave: File, ghost exts: seq<Output>, ghost mid: Moment)
    modifies x
    ensures Later(old(x.Now()), x.Now())
    ensures r.Completed? <==> lockFree && BothRead(old(x.Now()), x.Now())
    ensures r.Bailed? && lockFree ==> !Clear(old(x.Now()), x.Now())
    ensures r.Bailed? ==> Looked(old(x.Now()), x.Now()) && toSave.None?
    ensures r.Completed? ==>
              && Offs(x.issued[|old(x.issued)|..]) == Stale(SecondRead(old(x.Now()), x.Now()))
              && Lights(x.issued[|old(x.issued)|..]) == Connected(SecondRead(old(x.Now()), x.Now()))
              && Arranged(x.issued, SecondRead(old(x.Now()), x.Now()), layouts, loaded, defaultSide, toSave, exts)
    ensures Offs(x.issued[|old(x.issued)|..]) !! Lights(x.issued[|old(x.issued)|..])
    ensures r.Completed? ==>
              && Looked(old(x.Now()), mid) && Later(mid, x.Now()) && mid.answers == x.answers && mid.outs == SecondRead(old(x.Now()), x.Now())
              && (Calm(mid, x.Now()) ==> Healthy(x.outs) && Connected(x.outs) == Connected(mid.outs))
  {
    exts, toSave, r, mid := [], None, Bailed, x.Now();
    if !lockFree {
      return;
    }
    var outs := ReadTwice(x);
    if outs.None? {
      return;
    }
    mid := x.Now();
    toSave, exts := ScrubAndLight(x, outs.value, layouts, loaded, defaultSide);
    r := Completed;
  }
}
