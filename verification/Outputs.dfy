/** `Output` of `xrandr.py` and the text behind the topology digest.
    SHA-1 is left out: the digest is its text, so equal digests mean equal texts. */
module Outputs {
  import opened Wrappers
  import opened Ordering

  datatype Output = Output(
    name: string,
    connected: bool,
    mode: Option<(nat, nat)>,
    position: Option<(int, int)>,
    edid: Option<string>)
  {
    /** A live CRTC: both the mode and the origin are known. */
    predicate IsLit() {
      mode.Some? && position.Some?
    }
  }

  /** Outputs are stored under their own names. */
  predicate Named(outs: map<string, Output>) {
    forall n | n in outs :: outs[n].name == n
  }

  function Lit(outs: map<string, Output>): set<string> {
    set n | n in outs && outs[n].IsLit()
  }

  function Connected(outs: map<string, Output>): set<string> {
    set n | n in outs && outs[n].connected
  }

  /** Connected heads without a live CRTC, in alphabetical order. */
  function UnhealedOutputs(outs: map<string, Output>): (dark: seq<string>)
    ensures forall n :: n in dark <==> n in Connected(outs) && n !in Lit(outs)
    ensures Increasing(dark)
  {
    Sort(set n | n in outs && outs[n].connected && !outs[n].IsLit())
  }

  /** The three sets of heads in terms of what RandR says: a head is lit only if it has both a mode and an origin. */
  lemma HeadsAre(outs: map<string, Output>, n: string)
    ensures n in Connected(outs) <==> n in outs && outs[n].connected == true
    ensures n in Lit(outs) <==> n in outs && outs[n].mode != None && outs[n].position != None
    ensures n in UnhealedOutputs(outs) <==> n in outs && outs[n].connected && (outs[n].mode == None || outs[n].position == None)
  {
  }

  /** Every connected head drives pixels and no other does. */
  predicate Healthy(outs: map<string, Output>) {
    forall n | n in outs :: outs[n].connected <==> outs[n].mode != None && outs[n].position != None
  }

  lemma HealthyIs(outs: map<string, Output>)
    ensures Healthy(outs) <==> Lit(outs) == Connected(outs)
    ensures Healthy(outs) ==> UnhealedOutputs(outs) == []
  {
    if Lit(outs) == Connected(outs) {
      forall n | n in outs ensures outs[n].connected <==> outs[n].mode != None && outs[n].position != None {
        assert n in Lit(outs) <==> n in Connected(outs);
      }
    }
    var dark := UnhealedOutputs(outs);
    assert dark != [] ==> dark[0] in dark;
  }

  // ---- the text ------------------------------------------------------------------

  function Decimal(n: nat): string {
    if n < 10 then [('0' as int + n) as char]
    else Decimal(n / 10) + [('0' as int + n % 10) as char]
  }

  function BoolText(b: bool): string {
    if b then "True" else "False"
  }

  function ModeText(m: Option<(nat, nat)>): string {
    match m
    case None => "None"
    case Some((w, h)) => "(" + (Decimal(w) + (", " + (Decimal(h) + ")")))
  }

  function Part(o: Output): string {
    o.name + ("|" + (BoolText(o.connected) + ("|" + ModeText(o.mode))))
  }

  function Join(parts: seq<string>): string {
    if parts == [] then ""
    else if |parts| == 1 then parts[0]
    else parts[0] + ("\n" + Join(parts[1..]))
  }

  predicate Reported(o: Output) {
    o.connected || o.IsLit()
  }

  function Parts(outs: map<string, Output>, names: seq<string>): seq<string>
    requires forall n | n in names :: n in outs
  {
    if names == [] then []
    else (if Reported(outs[names[0]]) then [Part(outs[names[0]])] else []) + Parts(outs, names[1..])
  }

  function TopologyText(outs: map<string, Output>): string {
    Join(Parts(outs, Sort(outs.Keys)))
  }

  lemma {:induction false} PartsAppend(outs: map<string, Output>, names: seq<string>, n: string)
    requires forall m | m in names + [n] :: m in outs
    ensures forall m | m in names :: m in outs
    ensures Parts(outs, names + [n]) == Parts(outs, names) + (if Reported(outs[n]) then [Part(outs[n])] else [])
  {
    forall m | m in names ensures m in outs { assert m in names + [n]; }
    if names == [] {
      assert names + [n] == [n];
    } else {
      assert (names + [n])[1..] == names[1..] + [n];
      forall m | m in names[1..] + [n] ensures m in outs { assert m in names + [n]; }
      PartsAppend(outs, names[1..], n);
    }
  }

  /** `topology_hash_from_outputs`, up to the SHA-1. */
  method TopologyHash(outs: map<string, Output>) returns (text: string)
    ensures text == TopologyText(outs)
  {
    var names := Sort(outs.Keys);
    var parts := [];
    for i := 0 to |names|
      invariant forall n | n in names[..i] :: n in outs
      invariant parts == Parts(outs, names[..i])
    {
      assert names[..i + 1] == names[..i] + [names[i]];
      PartsAppend(outs, names[..i], names[i]);
      var o := outs[names[i]];
      if o.connected || o.IsLit() {
        parts := parts + [Part(o)];
      }
    }
    assert names[..|names|] == names;
    text := Join(parts);
  }

  // ---- it is canonical -------------------------------------------------------------

  /** What change detection is meant to see of a topology. */
  function Signature(outs: map<string, Output>): map<string, (bool, Option<(nat, nat)>)> {
    map n | n in outs && Reported(outs[n]) :: (outs[n].connected, outs[n].mode)
  }

  /** Connector names carry neither of the two separators. */
  predicate PlainNames(outs: map<string, Output>) {
    Named(outs) && forall n | n in outs :: '|' !in n && '\n' !in n
  }

  /** Text up to the first separator is determined by the whole text. */
  lemma CutAt(c: char, a: string, ra: string, b: string, rb: string)
    requires c !in a && c !in b
    requires ra == "" || ra[0] == c
    requires rb == "" || rb[0] == c
    requires a + ra == b + rb
    ensures a == b && ra == rb
  {
    var t := a + ra;
    assert |a| < |t| ==> t[|a|] == c;
    assert |b| < |t| ==> t[|b|] == c;
    assert forall i | 0 <= i < |a| :: t[i] == a[i] != c;
    assert forall i | 0 <= i < |b| :: t[i] == b[i] != c;
    assert |a| == |b|;
    assert a == t[..|a|] && b == t[..|b|];
    assert ra == t[|a|..] && rb == t[|b|..];
  }

  lemma {:induction false} DecimalDigits(n: nat)
    ensures Decimal(n) != ""
    ensures forall c | c in Decimal(n) :: '0' <= c <= '9'
  {
    if n >= 10 {
      DecimalDigits(n / 10);
    }
  }

  lemma {:induction false} DecimalInjective(m: nat, n: nat)
    requires Decimal(m) == Decimal(n)
    ensures m == n
  {
    var s, t := Decimal(m), Decimal(n);
    if m >= 10 { DecimalDigits(m / 10); }
    if n >= 10 { DecimalDigits(n / 10); }
    assert s[|s| - 1] == ('0' as int + m % 10) as char;
    assert t[|t| - 1] == ('0' as int + n % 10) as char;
    if m >= 10 && n >= 10 {
      assert Decimal(m / 10) == s[..|s| - 1] == t[..|t| - 1] == Decimal(n / 10);
      DecimalInjective(m / 10, n / 10);
    }
  }

  lemma ModeTextInjective(m: Option<(nat, nat)>, n: Option<(nat, nat)>)
    requires ModeText(m) == ModeText(n)
    ensures m == n
  {
    assert ModeText(m)[0] == if m.Some? then '(' else 'N';
    assert ModeText(n)[0] == if n.Some? then '(' else 'N';
    if m.Some? && n.Some? {
      var (w, h) := m.value;
      var (v, k) := n.value;
      DecimalDigits(w); DecimalDigits(h); DecimalDigits(v); DecimalDigits(k);
      assert ModeText(m)[1..] == Decimal(w) + (", " + (Decimal(h) + ")"));
      assert ModeText(n)[1..] == Decimal(v) + (", " + (Decimal(k) + ")"));
      CutAt(',', Decimal(w), ", " + (Decimal(h) + ")"), Decimal(v), ", " + (Decimal(k) + ")"));
      assert (", " + (Decimal(h) + ")"))[2..] == Decimal(h) + ")";
      assert (", " + (Decimal(k) + ")"))[2..] == Decimal(k) + ")";
      CutAt(')', Decimal(h), ")", Decimal(k), ")");
      DecimalInjective(w, v);
      DecimalInjective(h, k);
    }
  }

  lemma PartInjective(o: Output, p: Output)
    requires '|' !in o.name && '|' !in p.name
    requires Part(o) == Part(p)
    ensures o.name == p.name && o.connected == p.connected && o.mode == p.mode
  {
    var ro := BoolText(o.connected) + ("|" + ModeText(o.mode));
    var rp := BoolText(p.connected) + ("|" + ModeText(p.mode));
    CutAt('|', o.name, "|" + ro, p.name, "|" + rp);
    assert ro == ("|" + ro)[1..] == ("|" + rp)[1..] == rp;
    CutAt('|', BoolText(o.connected), "|" + ModeText(o.mode), BoolText(p.connected), "|" + ModeText(p.mode));
    assert BoolText(o.connected)[0] == (if o.connected then 'T' else 'F');
    assert BoolText(p.connected)[0] == (if p.connected then 'T' else 'F');
    assert ("|" + ModeText(o.mode))[1..] == ModeText(o.mode);
    assert ("|" + ModeText(p.mode))[1..] == ModeText(p.mode);
    ModeTextInjective(o.mode, p.mode);
  }

  lemma ModeTextIsOneLine(m: Option<(nat, nat)>)
    ensures '\n' !in ModeText(m)
  {
    if m.Some? {
      DecimalDigits(m.value.0);
      DecimalDigits(m.value.1);
    }
  }

  lemma PartIsOneLine(o: Output)
    requires '\n' !in o.name
    ensures Part(o) != "" && '\n' !in Part(o)
  {
    ModeTextIsOneLine(o.mode);
    assert '\n' !in BoolText(o.connected);
  }

  predicate Lines(ps: seq<string>) {
    forall i | 0 <= i < |ps| :: ps[i] != "" && '\n' !in ps[i]
  }

  lemma {:induction false} JoinInjective(ps: seq<string>, qs: seq<string>)
    requires Lines(ps) && Lines(qs)
    requires Join(ps) == Join(qs)
    ensures ps == qs
  {
    if ps != [] && qs != [] {
      var rp := if |ps| == 1 then "" else "\n" + Join(ps[1..]);
      var rq := if |qs| == 1 then "" else "\n" + Join(qs[1..]);
      assert Join(ps) == ps[0] + rp && Join(qs) == qs[0] + rq;
      CutAt('\n', ps[0], rp, qs[0], rq);
      if |ps| > 1 {
        assert Join(ps[1..]) == rp[1..] == rq[1..] == Join(qs[1..]);
        JoinInjective(ps[1..], qs[1..]);
      }
      assert ps == [ps[0]] + ps[1..] && qs == [qs[0]] + qs[1..];
    }
  }

  lemma {:induction false} PartsMembers(outs: map<string, Output>, names: seq<string>)
    requires forall n | n in names :: n in outs
    ensures forall p :: p in Parts(outs, names) <==> exists n :: n in names && Reported(outs[n]) && p == Part(outs[n])
  {
    if names != [] {
      PartsMembers(outs, names[1..]);
      assert names == [names[0]] + names[1..];
    }
  }

  /** Equal texts report the same outputs: one direction, one map at a time. */
  lemma TextDetermines(a: map<string, Output>, b: map<string, Output>, n: string)
    requires PlainNames(a) && PlainNames(b)
    requires Parts(a, Sort(a.Keys)) == Parts(b, Sort(b.Keys))
    requires n in Signature(a)
    ensures n in Signature(b) && Signature(b)[n] == Signature(a)[n]
  {
    PartsMembers(a, Sort(a.Keys));
    PartsMembers(b, Sort(b.Keys));
    assert Part(a[n]) in Parts(a, Sort(a.Keys));
    var m :| m in Sort(b.Keys) && Reported(b[m]) && Part(a[n]) == Part(b[m]);
    PartInjective(a[n], b[m]);
  }

  /** The names a text really lists. */
  function Keep(outs: map<string, Output>, names: seq<string>): (r: seq<string>)
    requires forall n | n in names :: n in outs
    ensures forall n :: n in r <==> n in names && Reported(outs[n])
  {
    if names == [] then []
    else
      assert names == [names[0]] + names[1..];
      (if Reported(outs[names[0]]) then [names[0]] else []) + Keep(outs, names[1..])
  }

  lemma {:induction false} KeepIncreasing(outs: map<string, Output>, names: seq<string>)
    requires forall n | n in names :: n in outs
    requires Increasing(names)
    ensures Increasing(Keep(outs, names))
  {
    if names != [] {
      KeepIncreasing(outs, names[1..]);
      var rest := Keep(outs, names[1..]);
      forall j | 0 <= j < |rest| ensures names[0] != rest[j] && Le(names[0], rest[j]) {
        assert rest[j] in names[1..];
      }
    }
  }

  lemma {:induction false} PartsOfKeep(outs: map<string, Output>, names: seq<string>)
    requires forall n | n in names :: n in outs
    ensures |Parts(outs, names)| == |Keep(outs, names)|
    ensures forall i | 0 <= i < |Keep(outs, names)| :: Parts(outs, names)[i] == Part(outs[Keep(outs, names)[i]])
  {
    if names != [] {
      PartsOfKeep(outs, names[1..]);
    }
  }

  /** A text lists the reported names in sorted order: a function of the signature. */
  lemma KeepIsSorted(outs: map<string, Output>)
    requires Named(outs)
    ensures Keep(outs, Sort(outs.Keys)) == Sort(Signature(outs).Keys)
  {
    var k := Keep(outs, Sort(outs.Keys));
    forall n ensures n in k <==> n in Signature(outs).Keys { }
    KeepIncreasing(outs, Sort(outs.Keys));
    IncreasingIsSort(k, Signature(outs).Keys);
  }

  lemma SameLines(a: map<string, Output>, b: map<string, Output>, ka: seq<string>)
    requires Named(a) && Named(b) && Signature(a) == Signature(b)
    requires ka == Keep(a, Sort(a.Keys)) == Keep(b, Sort(b.Keys))
    ensures Parts(a, Sort(a.Keys)) == Parts(b, Sort(b.Keys))
  {
    var pa, pb := Parts(a, Sort(a.Keys)), Parts(b, Sort(b.Keys));
    PartsOfKeep(a, Sort(a.Keys));
    PartsOfKeep(b, Sort(b.Keys));
    forall i | 0 <= i < |ka| ensures pa[i] == pb[i] {
      assert ka[i] in ka;
      SamePart(a, b, ka[i]);
    }
  }

  /** Equal signatures give the same listing, whatever else the two maps hold. */
  lemma SignatureDetermines(a: map<string, Output>, b: map<string, Output>)
    requires Named(a) && Named(b)
    requires Signature(a) == Signature(b)
    ensures Parts(a, Sort(a.Keys)) == Parts(b, Sort(b.Keys))
  {
    KeepIsSorted(a);
    KeepIsSorted(b);
    SameLines(a, b, Keep(a, Sort(a.Keys)));
  }

  lemma SamePart(a: map<string, Output>, b: map<string, Output>, n: string)
    requires Named(a) && Named(b)
    requires Signature(a) == Signature(b) && n in Signature(a)
    ensures n in b && Part(a[n]) == Part(b[n])
  {
    assert n in Signature(b) && Signature(a)[n] == Signature(b)[n];
  }

  lemma PartsAreLines(outs: map<string, Output>)
    requires PlainNames(outs)
    ensures Lines(Parts(outs, Sort(outs.Keys)))
  {
    var ps := Parts(outs, Sort(outs.Keys));
    PartsMembers(outs, Sort(outs.Keys));
    forall i | 0 <= i < |ps| ensures ps[i] != "" && '\n' !in ps[i] {
      assert ps[i] in ps;
      var n :| n in Sort(outs.Keys) && ps[i] == Part(outs[n]);
      PartIsOneLine(outs[n]);
    }
  }

  /** MAIN RESULT. The digest text is canonical: two topologies read the same exactly when
      they agree on which outputs are connected or lit and on those outputs' connected flag and mode. */
  lemma TextIsCanonical(a: map<string, Output>, b: map<string, Output>)
    requires PlainNames(a) && PlainNames(b)
    ensures TopologyText(a) == TopologyText(b) <==> Signature(a) == Signature(b)
  {
    if Signature(a) == Signature(b) {
      SignatureDetermines(a, b);
    }
    if TopologyText(a) == TopologyText(b) {
      PartsAreLines(a);
      PartsAreLines(b);
      JoinInjective(Parts(a, Sort(a.Keys)), Parts(b, Sort(b.Keys)));
      SignaturesEqual(a, b);
    }
  }

  lemma SignaturesEqual(a: map<string, Output>, b: map<string, Output>)
    requires PlainNames(a) && PlainNames(b)
    requires Parts(a, Sort(a.Keys)) == Parts(b, Sort(b.Keys))
    ensures Signature(a) == Signature(b)
  {
    forall n | n in Signature(a) ensures n in Signature(b) && Signature(b)[n] == Signature(a)[n] {
      TextDetermines(a, b, n);
    }
    forall n | n in Signature(b) ensures n in Signature(a) {
      TextDetermines(b, a, n);
    }
  }

  lemma OnlyHead(o: Output)
    requires o.connected
    ensures TopologyText(map[o.name := o]) == Part(o)
  {
    var outs := map[o.name := o];
    assert [o.name] == Sort(outs.Keys) by {
      IncreasingIsSort([o.name], outs.Keys);
    }
    assert Parts(outs, [o.name]) == [Part(o)];
  }

  /** What one head contributes, spelled out: a dark one and a lit one. */
  lemma TextOfOneHead()
    ensures TopologyText(map["A" := Output("A", true, None, None, None)]) == "A|True|None"
    ensures TopologyText(map["A" := Output("A", true, Some((64, 48)), Some((0, 0)), None)]) == "A|True|(64, 48)"
  {
    OnlyHead(Output("A", true, None, None, None));
    OnlyHead(Output("A", true, Some((64, 48)), Some((0, 0)), None));
    ModeSpelledOut();
  }

  lemma ModeSpelledOut()
    ensures ModeText(Some((64, 48))) == "(64, 48)"
  {
    assert Decimal(6) == "6" && Decimal(4) == "4";
    assert Decimal(64) == "64" && Decimal(48) == "48";
  }

  /** The origin is not in the text: moving a lit head is invisible to change detection. */
  lemma MovesAreInvisible(outs: map<string, Output>, n: string, p: (int, int))
    requires PlainNames(outs) && n in outs && outs[n].IsLit()
    ensures TopologyText(outs[n := outs[n].(position := Some(p))]) == TopologyText(outs)
  {
    var moved := outs[n := outs[n].(position := Some(p))];
    assert Signature(moved) == Signature(outs);
    TextIsCanonical(moved, outs);
  }
}
