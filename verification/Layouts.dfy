/** `profiles.py`: configured layouts, their exact match, and the xrandr command line they become. */
module Layouts {
  import opened Wrappers
  import opened Ordering
  import opened Outputs

  datatype Spec = Spec(
    connector: string,
    mode: string,
    primary: bool,
    pos: Option<(int, int)>,
    rel: Option<(string, string)>,
    scale: string,
    rotate: string)

  datatype Layout = Layout(name: string, specs: seq<Spec>)

  const RELATIONS := {"left-of", "right-of", "above", "below"}

  function ConnectorsOf(specs: seq<Spec>): set<string> {
    set i | 0 <= i < |specs| :: specs[i].connector
  }

  function Connectors(p: Layout): set<string> {
    ConnectorsOf(p.specs)
  }

  // ---- match --------------------------------------------------------------------------------

  ghost predicate Candidate(p: Layout, connected: set<string>) {
    Connectors(p) == connected
  }

  /** `match_profile`: `sorted` is stable, so an equal name never displaces an earlier layout. */
  function MatchProfile(connected: set<string>, profiles: seq<Layout>): Option<Layout> {
    if profiles == [] then None
    else
      var n := |profiles| - 1;
      var best := MatchProfile(connected, profiles[..n]);
      if Connectors(profiles[n]) != connected then best
      else if best.Some? && Le(best.value.name, profiles[n].name) then best
      else Some(profiles[n])
  }

  /** Layout `k` is for exactly these connectors, its name is least, and it is the first of that name. */
  ghost predicate FirstLeast(connected: set<string>, profiles: seq<Layout>, k: nat) {
    && k < |profiles| && Candidate(profiles[k], connected)
    && (forall i | 0 <= i < |profiles| && Candidate(profiles[i], connected) :: Le(profiles[k].name, profiles[i].name))
    && (forall i | 0 <= i < k && Candidate(profiles[i], connected) :: profiles[i].name != profiles[k].name)
  }

  lemma Outranked(connected: set<string>, profiles: seq<Layout>, k: nat)
    requires profiles != [] && FirstLeast(connected, profiles[..|profiles| - 1], k)
    requires Candidate(profiles[|profiles| - 1], connected)
    ensures FirstLeast(connected, profiles, if Le(profiles[k].name, profiles[|profiles| - 1].name) then k else |profiles| - 1)
  {
    var n := |profiles| - 1;
    var p := profiles[n];
    LeTotal(p.name, p.name);
    assert profiles[..n][k] == profiles[k];
    forall i | 0 <= i < n && Candidate(profiles[i], connected)
      ensures Le(profiles[k].name, profiles[i].name)
      ensures !Le(profiles[k].name, p.name) ==> Le(p.name, profiles[i].name) && profiles[i].name != p.name
    {
      assert profiles[..n][i] == profiles[i];
      if !Le(profiles[k].name, p.name) {
        LeTotal(profiles[k].name, p.name);
        LeTransitive(p.name, profiles[k].name, profiles[i].name);
      }
    }
    forall i | 0 <= i < k && Candidate(profiles[i], connected) ensures profiles[i].name != profiles[k].name {
      assert profiles[..n][i] == profiles[i];
    }
  }

  /** MAIN RESULT. A layout matches exactly when one is configured for precisely the connected set; of
      several, the one with the alphabetically first name, and of those the first configured. */
  lemma {:induction false} MatchIsFirstLeast(connected: set<string>, profiles: seq<Layout>)
    ensures MatchProfile(connected, profiles).None? <==> forall i | 0 <= i < |profiles| :: !Candidate(profiles[i], connected)
    ensures MatchProfile(connected, profiles).Some? ==>
              exists k: nat :: FirstLeast(connected, profiles, k) && profiles[k] == MatchProfile(connected, profiles).value
  {
    if profiles != [] {
      var n := |profiles| - 1;
      MatchIsFirstLeast(connected, profiles[..n]);
      assert forall i | 0 <= i < n :: profiles[..n][i] == profiles[i];
      var best := MatchProfile(connected, profiles[..n]);
      LeTotal(profiles[n].name, profiles[n].name);
      if best.Some? {
        var k: nat :| FirstLeast(connected, profiles[..n], k) && profiles[..n][k] == best.value;
        if Candidate(profiles[n], connected) {
          Outranked(connected, profiles, k);
        } else {
          assert FirstLeast(connected, profiles, k);
        }
      } else if Candidate(profiles[n], connected) {
        assert FirstLeast(connected, profiles, n);
      }
    }
  }

  // ---- the command line ---------------------------------------------------------------------

  function IntText(n: int): string {
    if n < 0 then "-" + Decimal(-n) else Decimal(n)
  }

  function PrimaryArgs(s: Spec): seq<string> {
    if s.primary then ["--primary"] else []
  }

  function ModeArgs(s: Spec): seq<string> {
    if s.mode != "auto" then ["--mode", s.mode] else ["--auto"]
  }

  function PlaceArgs(s: Spec): seq<string> {
    if s.pos.Some? then ["--pos", IntText(s.pos.value.0) + "x" + IntText(s.pos.value.1)]
    else if s.rel.Some? then ["--" + s.rel.value.0, s.rel.value.1]
    else []
  }

  function TurnArgs(s: Spec): seq<string> {
    if s.rotate != "" then ["--rotate", s.rotate] else []
  }

  function SpecArgs(s: Spec): seq<string> {
    ["--output", s.connector] + (PrimaryArgs(s) + (ModeArgs(s) + (PlaceArgs(s) + (["--scale", s.scale] + TurnArgs(s)))))
  }

  function Args(specs: seq<Spec>): seq<string> {
    if specs == [] then [] else Args(specs[..|specs| - 1]) + SpecArgs(specs[|specs| - 1])
  }

  lemma Regroup(x: seq<string>, a: seq<string>, b: seq<string>, c: seq<string>, d: seq<string>, e: seq<string>, f: seq<string>)
    ensures x + a + b + c + d + e + f == x + (a + (b + (c + (d + (e + f)))))
  {
  }

  /** The body of the loop: the options of one output. */
  method AppendSpec(before: seq<string>, s: Spec) returns (argv: seq<string>)
    ensures argv == before + SpecArgs(s)
  {
    var primary, mode, place, turn := PrimaryArgs(s), ModeArgs(s), PlaceArgs(s), TurnArgs(s);
    assert SpecArgs(s) == ["--output", s.connector] + (primary + (mode + (place + (["--scale", s.scale] + turn))));
    Regroup(before, ["--output", s.connector], primary, mode, place, ["--scale", s.scale], turn);
    argv := before + ["--output", s.connector] + primary + mode + place + ["--scale", s.scale] + turn;
  }

  lemma ArgsNext(front: seq<string>, specs: seq<Spec>, i: nat)
    requires i < |specs|
    ensures front + Args(specs[..i]) + SpecArgs(specs[i]) == front + Args(specs[..i + 1])
  {
    assert specs[..i + 1][..i] == specs[..i];
    var a, b := Args(specs[..i]), SpecArgs(specs[i]);
    assert front + a + b == front + (a + b);
  }

  /** `build_xrandr_argv`. */
  method BuildXrandrArgv(p: Layout) returns (argv: seq<string>)
    ensures argv == ["xrandr"] + Args(p.specs)
  {
    argv := ["xrandr"];
    for i := 0 to |p.specs|
      invariant argv == ["xrandr"] + Args(p.specs[..i])
    {
      ArgsNext(["xrandr"], p.specs, i);
      argv := AppendSpec(argv, p.specs[i]);
    }
    assert p.specs[..|p.specs|] == p.specs;
  }

  /** The parser only lets the four relations through. */
  predicate Parsed(p: Layout) {
    forall i | 0 <= i < |p.specs| :: p.specs[i].rel.Some? ==> p.specs[i].rel.value.0 in RELATIONS
  }
}
