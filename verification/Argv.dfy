/** How xrandr reads the command line of a layout: options, numbers, and what they say of each output. */
module Argv {
  import opened Wrappers
  import opened Outputs
  import opened Layouts

  // ---- how xrandr reads it ---------------------------------------------------------------------

  datatype Mode = Unset | Auto | Named(name: string)
  datatype Where = Nowhere | At(x: int, y: int) | Beside(side: string, anchor: string)

  /** What xrandr is told about one output. */
  datatype Conf = Conf(connector: string, mode: Mode, primary: bool, where: Where, scale: Option<string>, rotate: Option<string>)

  datatype Opt = OutputOpt | AutoMode | Primary | SetMode | Pos | Relative(side: string) | Scale | Rotate | Unknown

  /** xrandr's own options. */
  function OptOf(arg: string): Opt {
    if arg == "--output" then OutputOpt
    else if arg == "--auto" then AutoMode
    else if arg == "--primary" then Primary
    else if arg == "--mode" then SetMode
    else if arg == "--pos" then Pos
    else if arg == "--left-of" then Relative("left-of")
    else if arg == "--right-of" then Relative("right-of")
    else if arg == "--above" then Relative("above")
    else if arg == "--below" then Relative("below")
    else if arg == "--scale" then Scale
    else if arg == "--rotate" then Rotate
    else Unknown
  }

  function ReadNat(s: string): Option<int> {
    if s == "" then None
    else
      var n := |s| - 1;
      if !('0' <= s[n] <= '9') then None
      else
        var digit := s[n] as int - '0' as int;
        if n == 0 then Some(digit)
        else
          var front := ReadNat(s[..n]);
          if front.None? then None else Some(10 * front.value + digit)
  }

  function ReadInt(s: string): Option<int> {
    var minus := s != "" && s[0] == '-';
    var size := ReadNat(if minus then s[1..] else s);
    if size.None? then None else Some(if minus then -size.value else size.value)
  }

  function FirstOf(c: char, s: string): (i: nat)
    ensures i <= |s|
  {
    if s == "" || s[0] == c then 0 else 1 + FirstOf(c, s[1..])
  }

  /** `sscanf(arg, "%dx%d")`. */
  function ReadPos(s: string): Option<(int, int)> {
    var i := FirstOf('x', s);
    if i == |s| then None
    else match (ReadInt(s[..i]), ReadInt(s[i + 1..]))
         case (Some(x), Some(y)) => Some((x, y))
         case _ => None
  }

  /** An option that takes a value, applied to an output. */
  function Apply(opt: Opt, value: string, c: Conf): Option<Conf> {
    match opt
    case SetMode => Some(c.(mode := Named(value)))
    case Pos => (match ReadPos(value) case None => None case Some((x, y)) => Some(c.(where := At(x, y))))
    case Relative(side) => Some(c.(where := Beside(side, value)))
    case Scale => Some(c.(scale := Some(value)))
    case Rotate => Some(c.(rotate := Some(value)))
    case _ => None
  }

  /** xrandr's reading of the rest of a command line: options apply to the last output named; `None` when an option is
      unknown, lacks its value, has an unreadable one, or comes before any output. */
  function Reads(args: seq<string>, done: seq<Conf>, cur: Option<Conf>): Option<seq<Conf>>
    decreases |args|
  {
    var all := if cur.Some? then done + [cur.value] else done;
    if args == [] then Some(all)
    else if OptOf(args[0]).OutputOpt? then
      if |args| < 2 then None else Reads(args[2..], all, Some(Conf(args[1], Unset, false, Nowhere, None, None)))
    else if cur.None? then None
    else if OptOf(args[0]).AutoMode? then Reads(args[1..], done, Some(cur.value.(mode := Auto)))
    else if OptOf(args[0]).Primary? then Reads(args[1..], done, Some(cur.value.(primary := true)))
    else if |args| < 2 then None
    else
      var next := Apply(OptOf(args[0]), args[1], cur.value);
      if next.None? then None else Reads(args[2..], done, next)
  }

  function WithMode(confs: seq<Conf>): set<string> {
    set i | 0 <= i < |confs| && confs[i].mode != Unset :: confs[i].connector
  }

  /** The outputs a command line gives a mode to. */
  function Lighted(args: seq<string>): set<string> {
    match Reads(args, [], None)
    case None => {}
    case Some(confs) => WithMode(confs)
  }

  /** What the layout means by one of its outputs: an explicit position goes before a relation. */
  function Meaning(s: Spec): Conf {
    Conf(s.connector,
         if s.mode == "auto" then Auto else Named(s.mode),
         s.primary,
         match (s.pos, s.rel)
           case (Some((x, y)), _) => At(x, y)
           case (None, Some((side, anchor))) => Beside(side, anchor)
           case _ => Nowhere,
         Some(s.scale),
         if s.rotate == "" then None else Some(s.rotate))
  }

  function Meanings(specs: seq<Spec>): (confs: seq<Conf>)
    ensures |confs| == |specs| && forall i | 0 <= i < |specs| :: confs[i] == Meaning(specs[i])
  {
    seq(|specs|, i requires 0 <= i < |specs| => Meaning(specs[i]))
  }

  // ---- numbers and back -------------------------------------------------------------------------

  lemma {:induction false} DecimalReads(n: nat)
    ensures ReadNat(Decimal(n)) == Some(n)
  {
    var s := Decimal(n);
    if n >= 10 {
      DecimalReads(n / 10);
      DecimalDigits(n / 10);
      assert s[..|s| - 1] == Decimal(n / 10);
    }
  }

  lemma IntReads(n: int)
    ensures ReadInt(IntText(n)) == Some(n) && 'x' !in IntText(n)
  {
    var size: nat := if n < 0 then -n else n;
    var digits := Decimal(size);
    DecimalReads(size);
    DecimalDigits(size);
    if n < 0 {
      assert ("-" + digits)[1..] == digits;
    } else {
      assert digits[0] in digits;
    }
  }

  lemma {:induction false} FirstAfter(a: string, c: char, b: string)
    requires c !in a
    ensures FirstOf(c, a + ([c] + b)) == |a|
  {
    if a != "" {
      assert (a + ([c] + b))[1..] == a[1..] + ([c] + b);
      FirstAfter(a[1..], c, b);
    }
  }

  lemma Halves(a: string, c: char, b: string)
    ensures a + [c] + b == a + ([c] + b)
    ensures (a + ([c] + b))[..|a|] == a && (a + ([c] + b))[|a| + 1..] == b
  {
  }

  lemma TwoRead(a: string, b: string, x: int, y: int)
    requires 'x' !in a && ReadInt(a) == Some(x) && ReadInt(b) == Some(y)
    ensures ReadPos(a + "x" + b) == Some((x, y))
  {
    Halves(a, 'x', b);
    FirstAfter(a, 'x', b);
  }

  lemma PosReads(x: int, y: int)
    ensures ReadPos(IntText(x) + "x" + IntText(y)) == Some((x, y))
  {
    IntReads(x);
    IntReads(y);
    TwoRead(IntText(x), IntText(y), x, y);
  }

  // ---- options and back -------------------------------------------------------------------------

  lemma Options()
    ensures OptOf("--output") == OutputOpt && OptOf("--auto") == AutoMode && OptOf("--primary") == Primary
    ensures OptOf("--mode") == SetMode && OptOf("--pos") == Pos && OptOf("--scale") == Scale && OptOf("--rotate") == Rotate
  {
    assert "--output"[2] == 'o' && "--auto"[2..4] == "au" && "--primary"[2..4] == "pr" && "--mode"[2] == 'm' && "--pos"[2..4] == "po";
    assert "--left-of"[2] == 'l' && "--right-of"[2..4] == "ri" && "--above"[2..4] == "ab" && "--below"[2] == 'b';
    assert "--scale"[2] == 's' && "--rotate"[2..4] == "ro";
  }

  lemma RelationOption(side: string)
    requires side in RELATIONS
    ensures OptOf("--" + side) == Relative(side)
  {
    assert "--" + "left-of" == "--left-of" && "--" + "right-of" == "--right-of";
    assert "--" + "above" == "--above" && "--" + "below" == "--below";
    assert "--output"[2] == 'o' && "--auto"[2..4] == "au" && "--primary"[2] == 'p' && "--mode"[2] == 'm' && "--pos"[2] == 'p';
    assert "--left-of"[2] == 'l' && "--right-of"[2] == 'r' && "--above"[2..4] == "ab" && "--below"[2] == 'b';
  }

  lemma ReadsValue(opt: string, value: string, rest: seq<string>, done: seq<Conf>, c: Conf)
    requires Apply(OptOf(opt), value, c).Some?
    ensures Reads([opt, value] + rest, done, Some(c)) == Reads(rest, done, Apply(OptOf(opt), value, c))
  {
    assert ([opt, value] + rest)[2..] == rest;
  }

  lemma ReadsFlag(opt: string, rest: seq<string>, done: seq<Conf>, c: Conf)
    ensures OptOf(opt).AutoMode? ==> Reads([opt] + rest, done, Some(c)) == Reads(rest, done, Some(c.(mode := Auto)))
    ensures OptOf(opt).Primary? ==> Reads([opt] + rest, done, Some(c)) == Reads(rest, done, Some(c.(primary := true)))
  {
    assert ([opt] + rest)[1..] == rest;
  }

  lemma ReadsOutput(name: string, rest: seq<string>, done: seq<Conf>)
    ensures Reads(["--output", name] + rest, done, None) == Reads(rest, done, Some(Conf(name, Unset, false, Nowhere, None, None)))
    ensures forall c :: Reads(["--output", name] + rest, done, Some(c))
                        == Reads(rest, done + [c], Some(Conf(name, Unset, false, Nowhere, None, None)))
  {
    Options();
    assert (["--output", name] + rest)[2..] == rest;
  }

  lemma ReadsPrimary(s: Spec, rest: seq<string>, done: seq<Conf>, c: Conf)
    requires !c.primary
    ensures Reads(PrimaryArgs(s) + rest, done, Some(c)) == Reads(rest, done, Some(c.(primary := s.primary)))
  {
    Options();
    if s.primary { ReadsFlag("--primary", rest, done, c); } else { assert PrimaryArgs(s) + rest == rest; }
  }

  lemma ReadsMode(s: Spec, rest: seq<string>, done: seq<Conf>, c: Conf)
    ensures Reads(ModeArgs(s) + rest, done, Some(c)) == Reads(rest, done, Some(c.(mode := Meaning(s).mode)))
  {
    Options();
    if s.mode != "auto" { ReadsValue("--mode", s.mode, rest, done, c); } else { ReadsFlag("--auto", rest, done, c); }
  }

  lemma ReadsPlace(s: Spec, rest: seq<string>, done: seq<Conf>, c: Conf)
    requires (s.rel.Some? ==> s.rel.value.0 in RELATIONS) && c.where == Nowhere
    ensures Reads(PlaceArgs(s) + rest, done, Some(c)) == Reads(rest, done, Some(c.(where := Meaning(s).where)))
  {
    Options();
    if s.pos.Some? {
      PosReads(s.pos.value.0, s.pos.value.1);
      ReadsValue("--pos", IntText(s.pos.value.0) + "x" + IntText(s.pos.value.1), rest, done, c);
    } else if s.rel.Some? {
      RelationOption(s.rel.value.0);
      ReadsValue("--" + s.rel.value.0, s.rel.value.1, rest, done, c);
    } else {
      assert PlaceArgs(s) + rest == rest;
    }
  }

  lemma ReadsTurn(s: Spec, rest: seq<string>, done: seq<Conf>, c: Conf)
    requires c.rotate == None
    ensures Reads(["--scale", s.scale] + (TurnArgs(s) + rest), done, Some(c))
            == Reads(rest, done, Some(c.(scale := Some(s.scale), rotate := Meaning(s).rotate)))
  {
    Options();
    ReadsValue("--scale", s.scale, TurnArgs(s) + rest, done, c);
    if s.rotate != "" {
      ReadsValue("--rotate", s.rotate, rest, done, c.(scale := Some(s.scale)));
    } else {
      assert TurnArgs(s) + rest == rest;
    }
  }

  lemma SpecThenRest(a: seq<string>, b: seq<string>, c: seq<string>, d: seq<string>, e: seq<string>, f: seq<string>, rest: seq<string>)
    ensures (a + (b + (c + (d + (e + f))))) + rest == a + (b + (c + (d + (e + (f + rest)))))
  {
  }

  /** After its output option, the rest of a spec's options say what the spec means. */
  lemma OptionsOfSpec(s: Spec, rest: seq<string>, done: seq<Conf>)
    requires s.rel.Some? ==> s.rel.value.0 in RELATIONS
    ensures Reads(PrimaryArgs(s) + (ModeArgs(s) + (PlaceArgs(s) + (["--scale", s.scale] + (TurnArgs(s) + rest)))), done,
                  Some(Conf(s.connector, Unset, false, Nowhere, None, None)))
            == Reads(rest, done, Some(Meaning(s)))
  {
    var tail := ["--scale", s.scale] + (TurnArgs(s) + rest);
    var c0 := Conf(s.connector, Unset, false, Nowhere, None, None);
    var c1 := c0.(primary := s.primary);
    var c2 := c1.(mode := Meaning(s).mode);
    ReadsPrimary(s, ModeArgs(s) + (PlaceArgs(s) + tail), done, c0);
    ReadsMode(s, PlaceArgs(s) + tail, done, c1);
    ReadsPlace(s, tail, done, c2);
    ReadsTurn(s, rest, done, c2.(where := Meaning(s).where));
  }

  lemma OneSpec(s: Spec, rest: seq<string>, done: seq<Conf>, cur: Option<Conf>)
    requires s.rel.Some? ==> s.rel.value.0 in RELATIONS
    ensures Reads(SpecArgs(s) + rest, done, cur)
            == Reads(rest, if cur.Some? then done + [cur.value] else done, Some(Meaning(s)))
  {
    var options := PrimaryArgs(s) + (ModeArgs(s) + (PlaceArgs(s) + (["--scale", s.scale] + (TurnArgs(s) + rest))));
    SpecThenRest(["--output", s.connector], PrimaryArgs(s), ModeArgs(s), PlaceArgs(s), ["--scale", s.scale], TurnArgs(s), rest);
    ReadsOutput(s.connector, options, done);
    OptionsOfSpec(s, rest, if cur.Some? then done + [cur.value] else done);
  }

  lemma {:induction false} ArgsInFront(specs: seq<Spec>)
    requires specs != []
    ensures Args(specs) == SpecArgs(specs[0]) + Args(specs[1..])
  {
    if |specs| > 1 {
      var n := |specs| - 1;
      ArgsInFront(specs[..n]);
      assert specs[..n][1..] == specs[1..][..n - 1];
    } else {
      assert specs[..0] == [] && specs[1..] == [];
    }
  }

  lemma MeaningsInFront(all: seq<Conf>, specs: seq<Spec>)
    requires specs != []
    ensures all + [Meaning(specs[0])] + Meanings(specs[1..]) == all + Meanings(specs)
  {
  }

  lemma {:induction false} ArgsRead(specs: seq<Spec>, done: seq<Conf>, cur: Option<Conf>)
    requires forall i | 0 <= i < |specs| :: specs[i].rel.Some? ==> specs[i].rel.value.0 in RELATIONS
    ensures Reads(Args(specs), done, cur) == Some((if cur.Some? then done + [cur.value] else done) + Meanings(specs))
  {
    var all := if cur.Some? then done + [cur.value] else done;
    if specs == [] {
      assert all + Meanings(specs) == all;
    } else {
      ArgsInFront(specs);
      OneSpec(specs[0], Args(specs[1..]), done, cur);
      ArgsRead(specs[1..], all, Some(Meaning(specs[0])));
      MeaningsInFront(all, specs);
    }
  }

  /** MAIN RESULT. Read back by xrandr's own rules, the command line of a parsed layout is well formed and says exactly what
      the layout does, output by output: mode, primary, position or relation, scale and rotation. So it gives a mode to
      exactly the layout's connectors. */
  lemma ArgvLightsTheLayout(p: Layout)
    requires Parsed(p)
    ensures Reads(Args(p.specs), [], None) == Some(Meanings(p.specs))
    ensures Lighted(Args(p.specs)) == Connectors(p)
  {
    ArgsRead(p.specs, [], None);
    assert [] + Meanings(p.specs) == Meanings(p.specs);
    MeaningsLight(p.specs);
  }

  lemma MeaningsLight(specs: seq<Spec>)
    ensures WithMode(Meanings(specs)) == ConnectorsOf(specs)
  {
    var confs := Meanings(specs);
    forall i | 0 <= i < |specs| ensures specs[i].connector in WithMode(confs) {
      assert confs[i].connector == specs[i].connector && confs[i].mode != Unset;
    }
  }
}
