/**
 Command lines whose flags and positionals interleave (cmd/wol/cmd_tui.go:41-57).
 The program calls Go's flag.Parse again and again, since that stops at the first
 positional; here that loop is compared with a grammar that reads the line once.
 */
module Args {

  datatype Arity = Unknown | Switch | Valued

  /** A flag set: what each name is, and which values each accepts. */
  datatype Flags = Flags(arity: string -> Arity, accepts: (string, string) -> bool)

  datatype Setting = Setting(name: string, value: string)

  /** The Set calls in order, and the positionals. */
  datatype Parsed = Parsed(settings: seq<Setting>, positionals: seq<string>) | Failed

  /** What the next argument is; `width` arguments make up a flag. */
  datatype Token = Plain | Terminator | Bad | Flag(name: string, value: string, width: nat)

  /** A flag set reads the arguments from some position on; what it reads may depend on the first two of them. */
  type Reader = seq<string> -> Token

  const DASHES: string := ['-', '-']

  predicate IsPlain(s: string) { |s| < 2 || s[0] != '-' }

  /** The text before the first '=' that is not the first character. */
  function NameOf(s: string): (r: string)
    ensures |r| <= |s|
    ensures s != [] ==> r != []
  {
    if s == [] then [] else if |s| > 1 && s[1] != '=' then [s[0]] + NameOf(s[1..]) else s[..1]
  }

  function Classify(flags: Flags, args: seq<string>): (t: Token)
    requires args != []
    ensures t.Flag? ==> 1 <= t.width <= 2 && t.width <= |args|
    ensures t.Flag? && t.width == 1 ==> args[0] != DASHES
    ensures t.Terminator? <==> args[0] == DASHES
    ensures t.Plain? <==> IsPlain(args[0])
  {
    var s := args[0];
    if IsPlain(s) then Plain else
    if s == DASHES then Terminator else
    var text := if s[1] == '-' then s[2..] else s[1..];
    if text == [] || text[0] == '-' || text[0] == '=' then Bad else
    var name := NameOf(text);
    var hasValue := |name| < |text|;
    var value := if hasValue then text[|name| + 1..] else [];
    match flags.arity(name)
    case Unknown => Bad
    case Switch =>
      var state := if hasValue then value else "true";
      if flags.accepts(name, state) then Flag(name, state, 1) else Bad
    case Valued =>
      if hasValue then (if flags.accepts(name, value) then Flag(name, value, 1) else Bad) else
      if |args| == 1 then Bad else
      if flags.accepts(name, args[1]) then Flag(name, args[1], 2) else Bad
  }

  function Reading(flags: Flags): Reader {
    (args: seq<string>) => if args == [] then Plain else Classify(flags, args)
  }

  /** What the loop relies on. */
  ghost predicate Sound(read: Reader) { forall args :: args != [] ==> SoundAt(read, args) }

  ghost predicate SoundAt(read: Reader, args: seq<string>)
    requires args != []
  {
    var t := read(args);
    && (t.Terminator? <==> args[0] == DASHES)
    && (t.Plain? <==> IsPlain(args[0]))
    && (t.Flag? ==> 1 <= t.width <= 2 && t.width <= |args|)
    && (t.Flag? ==> forall other :: read(args[..t.width] + other) == t)
  }

  lemma ReadingSound(flags: Flags)
    ensures Sound(Reading(flags))
  {
    var read := Reading(flags);
    forall args: seq<string> | args != [] ensures SoundAt(read, args) {
      var t := Classify(flags, args);
      if t.Flag? {
        forall other ensures read(args[..t.width] + other) == t {
          ClassifyPrefix(flags, args, other);
        }
      }
    }
  }

  lemma ClassifyPrefix(flags: Flags, args: seq<string>, other: seq<string>)
    requires args != [] && Classify(flags, args).Flag?
    ensures Classify(flags, args[..Classify(flags, args).width] + other) == Classify(flags, args)
  {
    var w := Classify(flags, args).width;
    var line := args[..w] + other;
    assert line[0] == args[0];
    if w == 2 {
      assert line[1] == args[1];
    }
  }

  function Past(args: seq<string>, width: nat): (r: seq<string>)
    requires args != []
    ensures |r| < |args|
  {
    if 1 <= width <= |args| then args[width..] else []
  }

  function UpTo(args: seq<string>, width: nat): seq<string> { if width <= |args| then args[..width] else [] }

  // ---------------------------------------------------------------- flag.Parse and the loop around it

  datatype Pass = Stopped(settings: seq<Setting>, rest: seq<string>) | Rejected

  /** flag.Parse: it stops before the first positional, or after "--". */
  function FlagParse(read: Reader, args: seq<string>): (p: Pass)
    ensures p.Stopped? ==> |p.rest| <= |args|
    decreases |args|
  {
    if args == [] then Stopped([], []) else
    match read(args)
    case Plain => Stopped([], args)
    case Terminator => Stopped([], args[1..])
    case Bad => Rejected
    case Flag(name, value, width) =>
      var later := FlagParse(read, Past(args, width));
      if later.Rejected? then Rejected else Stopped([Setting(name, value)] + later.settings, later.rest)
  }

  function With(settings: seq<Setting>, positionals: seq<string>, p: Parsed): Parsed {
    if p.Failed? then Failed else Parsed(settings + p.settings, positionals + p.positionals)
  }

  function EndsInDashes(args: seq<string>, rest: seq<string>): bool
    requires |rest| <= |args|
  {
    |args| > |rest| && args[|args| - |rest| - 1] == DASHES
  }

  function Interspersed(read: Reader, args: seq<string>): Parsed
    decreases |args|
  {
    var p := FlagParse(read, args);
    if p.Rejected? then Failed else
    if p.rest == [] then Parsed(p.settings, []) else
    if EndsInDashes(args, p.rest) then Parsed(p.settings, p.rest) else
    With(p.settings, p.rest[..1], Interspersed(read, p.rest[1..]))
  }

  method Parse(read: Reader, arguments: seq<string>) returns (p: Pass)
    ensures p == FlagParse(read, arguments)
  {
    var settings: seq<Setting>, rest := [], arguments;
    while rest != []
      invariant FlagParse(read, arguments) == var later := FlagParse(read, rest);
                if later.Rejected? then Rejected else Stopped(settings + later.settings, later.rest)
      decreases |rest|
    {
      var token := read(rest);
      match token
      case Plain => return Stopped(settings, rest);
      case Terminator => return Stopped(settings, rest[1..]);
      case Bad => return Rejected;
      case Flag(name, value, width) =>
        settings, rest := settings + [Setting(name, value)], Past(rest, width);
    }
    p := Stopped(settings, []);
  }

  /** One more round. */
  lemma LoopStep(read: Reader, left: seq<string>, settings: seq<Setting>, positionals: seq<string>)
    requires var p := FlagParse(read, left); p.Stopped? && p.rest != [] && !EndsInDashes(left, p.rest)
    ensures var p := FlagParse(read, left);
            With(settings, positionals, Interspersed(read, left)) ==
              With(settings + p.settings, positionals + [p.rest[0]], Interspersed(read, p.rest[1..]))
  {
    var p := FlagParse(read, left);
    assert p.rest[..1] == [p.rest[0]];
    WithTwice(settings, positionals, p.settings, p.rest[..1], Interspersed(read, p.rest[1..]));
  }

  method ParseInterspersed(read: Reader, arguments: seq<string>) returns (r: Parsed)
    ensures r == Interspersed(read, arguments)
  {
    var settings: seq<Setting>, positionals: seq<string>, left := [], [], arguments;
    while true
      invariant Interspersed(read, arguments) == With(settings, positionals, Interspersed(read, left))
      decreases |left|
    {
      var p := Parse(read, left);
      if p.Rejected? {
        return Failed;
      }
      var rest := p.rest;
      if |rest| == 0 {
        return Parsed(settings + p.settings, positionals);
      }
      var consumed := |left| - |rest|;
      if consumed > 0 && left[consumed - 1] == DASHES {
        return Parsed(settings + p.settings, positionals + rest);
      }
      LoopStep(read, left, settings, positionals);
      settings, positionals, left := settings + p.settings, positionals + [rest[0]], rest[1..];
    }
  }

  lemma WithTwice(a: seq<Setting>, b: seq<string>, c: seq<Setting>, d: seq<string>, p: Parsed)
    ensures With(a, b, With(c, d, p)) == With(a + c, b + d, p)
  {
    if p.Parsed? {
      assert a + (c + p.settings) == (a + c) + p.settings;
      assert b + (d + p.positionals) == (b + d) + p.positionals;
    }
  }

  // ---------------------------------------------------------------- the one-pass grammar

  function Grammar(read: Reader, args: seq<string>): Parsed
    decreases |args|
  {
    if args == [] then Parsed([], []) else
    match read(args)
    case Plain => With([], args[..1], Grammar(read, args[1..]))
    case Terminator => Parsed([], args[1..])
    case Bad => Failed
    case Flag(name, value, width) => With([Setting(name, value)], [], Grammar(read, Past(args, width)))
  }

  /** A flag has taken "--" for its value, and a positional follows. */
  predicate Trap(read: Reader, args: seq<string>)
    requires args != []
  {
    var t := read(args);
    |args| > 2 && t.Flag? && t.width == 2 && args[1] == DASHES && IsPlain(args[2])
  }

  predicate AllPlain(args: seq<string>) { forall i :: 0 <= i < |args| ==> IsPlain(args[i]) }

  /** After the first trap, if any, there are only positionals. */
  predicate Safe(read: Reader, args: seq<string>)
    decreases |args|
  {
    if args == [] then true else
    match read(args)
    case Plain => Safe(read, args[1..])
    case Terminator => true
    case Bad => true
    case Flag(_, _, width) => if Trap(read, args) then AllPlain(args[2..]) else Safe(read, Past(args, width))
  }

  lemma DashesStep(args: seq<string>, width: nat, rest: seq<string>)
    requires args != [] && 1 <= width <= |args| && |rest| <= |args| - width
    ensures EndsInDashes(args, rest) <==>
            if |rest| < |args| - width then EndsInDashes(Past(args, width), rest) else args[width - 1] == DASHES
  {
  }

  /** A trap ends the line; otherwise a flag only adds its setting. */
  lemma FlagStepStopped(read: Reader, args: seq<string>)
    requires args != [] && SoundAt(read, args) && read(args).Flag?
    requires var after := Past(args, read(args).width);
             (after != [] ==> SoundAt(read, after)) && FlagParse(read, after).Stopped?
              && FlagParse(read, after).rest != []
    ensures var t, p := read(args), FlagParse(read, Past(args, read(args).width));
            EndsInDashes(args, p.rest) <==> Trap(read, args) || EndsInDashes(Past(args, t.width), p.rest)
    ensures var p := FlagParse(read, Past(args, read(args).width));
            Trap(read, args) ==> p.settings == [] && p.rest == args[2..]
  {
    var t := read(args);
    var after := Past(args, t.width);
    var p := FlagParse(read, after);
    DashesStep(args, t.width, p.rest);
    assert |p.rest| == |after| ==> p.rest == after && read(after).Plain?;
  }

  /** What the loop makes of a line that starts with a flag. */
  lemma FlagStep(read: Reader, args: seq<string>)
    requires Sound(read)
    requires args != [] && read(args).Flag?
    ensures var t := read(args);
            Interspersed(read, args) ==
            if Trap(read, args) then Parsed([Setting(t.name, t.value)], args[2..])
            else With([Setting(t.name, t.value)], [], Interspersed(read, Past(args, t.width)))
  {
    assert SoundAt(read, args);
    var t := read(args);
    var after := Past(args, t.width);
    assert after != [] ==> SoundAt(read, after);
    var p := FlagParse(read, after);
    if p.Stopped? && p.rest != [] {
      FlagStepStopped(read, args);
      WithTwice([Setting(t.name, t.value)], [], p.settings, p.rest[..1], Interspersed(read, p.rest[1..]));
    }
  }

  lemma PlainMore(args: seq<string>)
    requires args != [] && IsPlain(args[0])
    ensures AllPlain(args) <==> AllPlain(args[1..])
  {
    if AllPlain(args[1..]) {
      forall i | 0 <= i < |args| ensures IsPlain(args[i]) {
        assert i > 0 ==> args[i] == args[1..][i - 1];
      }
    }
  }

  lemma {:induction false} PlainAlone(read: Reader, args: seq<string>)
    requires Sound(read)
    ensures Grammar(read, args) == Parsed([], args) <==> AllPlain(args)
    ensures Grammar(read, args).Parsed? ==> |Grammar(read, args).positionals| <= |args|
    decreases |args|
  {
    if args != [] {
      assert SoundAt(read, args);
      var t := read(args);
      match t
      case Plain =>
        PlainAlone(read, args[1..]);
        assert args == args[..1] + args[1..];
        PlainMore(args);
      case Terminator =>
      case Bad =>
      case Flag(_, _, width) => PlainAlone(read, Past(args, width));
    }
  }

  lemma WithInjective(a: seq<Setting>, b: seq<string>, p: Parsed, q: Parsed)
    ensures With(a, b, p) == With(a, b, q) <==> p == q
  {
    if p.Parsed? && q.Parsed? {
      assert (a + p.settings)[|a|..] == p.settings && (a + q.settings)[|a|..] == q.settings;
      assert (b + p.positionals)[|b|..] == p.positionals && (b + q.positionals)[|b|..] == q.positionals;
    }
  }

  /**
   The loop reads a line as the grammar does exactly if no flag takes "--" before positionals that
   flags or another "--" follow.
   */
  lemma {:induction false} SafeIff(read: Reader, args: seq<string>)
    requires Sound(read)
    ensures Interspersed(read, args) == Grammar(read, args) <==> Safe(read, args)
    decreases |args|
  {
    if args != [] {
      assert SoundAt(read, args);
      var t := read(args);
      match t
      case Plain =>
        SafeIff(read, args[1..]);
        WithInjective([], args[..1], Interspersed(read, args[1..]), Grammar(read, args[1..]));
      case Terminator =>
      case Bad =>
      case Flag(name, value, width) =>
        FlagStep(read, args);
        if Trap(read, args) {
          PlainAlone(read, args[2..]);
          WithInjective([Setting(name, value)], [], Parsed([], args[2..]), Grammar(read, args[2..]));
        } else {
          SafeIff(read, Past(args, width));
          WithInjective([Setting(name, value)], [], Interspersed(read, Past(args, width)),
            Grammar(read, Past(args, width)));
        }
    }
  }

  /** The flags of the line with their values, in order. */
  function FlagPart(read: Reader, args: seq<string>): seq<string>
    decreases |args|
  {
    if args == [] then [] else
    match read(args)
    case Plain => FlagPart(read, args[1..])
    case Terminator => []
    case Bad => []
    case Flag(_, _, width) => UpTo(args, width) + FlagPart(read, Past(args, width))
  }

  /** Flags first, then "--", then the positionals. */
  function Canonical(read: Reader, args: seq<string>): seq<string>
    requires Grammar(read, args).Parsed?
  {
    Line(FlagPart(read, args), Grammar(read, args).positionals)
  }

  lemma {:induction false} FlagPartHead(read: Reader, args: seq<string>)
    requires Sound(read)
    ensures var f := FlagPart(read, args); f != [] ==> !IsPlain(f[0])
    decreases |args|
  {
    if args != [] {
      assert SoundAt(read, args);
      if read(args).Plain? {
        FlagPartHead(read, args[1..]);
      }
    }
  }

  lemma FlagsFirstFlag(read: Reader, args: seq<string>, later: seq<string>, tail: seq<string>, settings: seq<Setting>)
    requires Sound(read) && args != [] && read(args).Flag? && later != [] && !IsPlain(later[0])
    requires Interspersed(read, later) == Parsed(settings, tail)
    ensures Interspersed(read, UpTo(args, read(args).width) + later) ==
            Parsed([Setting(read(args).name, read(args).value)] + settings, tail)
  {
    assert SoundAt(read, args);
    var t := read(args);
    var line := args[..t.width] + later;
    assert read(line) == t && Past(line, t.width) == later;
    assert line[t.width] == later[0];
    FlagStep(read, line);
    assert !Trap(read, line);
  }

  /** Flags first: the loop reads the flags as they were, then whatever follows the "--". */
  lemma {:induction false} FlagsFirst(read: Reader, args: seq<string>, tail: seq<string>)
    requires Sound(read) && Grammar(read, args).Parsed?
    ensures Interspersed(read, Line(FlagPart(read, args), tail)) == Parsed(Grammar(read, args).settings, tail)
    decreases |args|
  {
    if args == [] {
      DashesFirst(read, tail);
    } else {
      assert SoundAt(read, args);
      var t := read(args);
      match t
      case Plain => FlagsFirst(read, args[1..], tail);
      case Terminator => DashesFirst(read, tail);
      case Flag(name, value, width) =>
        var after := Past(args, width);
        FlagsFirst(read, after, tail);
        FlagPartHead(read, after);
        LineHead(FlagPart(read, after), tail);
        FlagsFirstFlag(read, args, Line(FlagPart(read, after), tail), tail, Grammar(read, after).settings);
        LineMore(UpTo(args, width), FlagPart(read, after), tail);
    }
  }

  function Line(flagPart: seq<string>, tail: seq<string>): seq<string> { flagPart + [DASHES] + tail }

  lemma LineMore(first: seq<string>, rest: seq<string>, tail: seq<string>)
    ensures Line(first + rest, tail) == first + Line(rest, tail)
  {
  }

  lemma LineHead(flagPart: seq<string>, tail: seq<string>)
    requires flagPart != [] ==> !IsPlain(flagPart[0])
    ensures Line(flagPart, tail) != [] && !IsPlain(Line(flagPart, tail)[0])
  {
  }

  lemma DashesFirst(read: Reader, tail: seq<string>)
    requires Sound(read)
    ensures Interspersed(read, Line([], tail)) == Parsed([], tail)
  {
    var line := Line([], tail);
    assert SoundAt(read, line) && line[1..] == tail;
  }

  /** Moving the positionals behind all flags and a "--" changes nothing, even for a line that was not safe. */
  lemma CanonicalLine(read: Reader, args: seq<string>)
    requires Sound(read)
    requires Grammar(read, args).Parsed?
    ensures Interspersed(read, Canonical(read, args)) == Grammar(read, args)
  {
    FlagsFirst(read, args, Grammar(read, args).positionals);
  }

  // ---------------------------------------------------------------- the same without the terminator

  predicate StartsPlain(args: seq<string>) { args != [] && IsPlain(args[0]) }

  /** The last flag has taken "--" for its value. */
  predicate Swallows(flagPart: seq<string>) { flagPart != [] && flagPart[|flagPart| - 1] == DASHES }

  /** The loop takes a line for positionals only exactly if none looks like a flag. */
  lemma {:induction false} LoopAlone(read: Reader, args: seq<string>)
    requires Sound(read)
    ensures Interspersed(read, args) == Parsed([], args) <==> AllPlain(args)
    ensures Interspersed(read, args).Parsed? ==> |Interspersed(read, args).positionals| <= |args|
    decreases |args|
  {
    if args != [] {
      assert SoundAt(read, args);
      var t := read(args);
      match t
      case Plain =>
        LoopAlone(read, args[1..]);
        assert args == args[..1] + args[1..];
        PlainMore(args);
      case Terminator =>
      case Bad =>
      case Flag(_, _, width) =>
        LoopAlone(read, Past(args, width));
        FlagStep(read, args);
    }
  }

  lemma {:induction false} NoFlagsNoSettings(read: Reader, args: seq<string>)
    requires Sound(read) && Grammar(read, args).Parsed? && FlagPart(read, args) == []
    ensures Grammar(read, args).settings == []
    decreases |args|
  {
    if args != [] {
      assert SoundAt(read, args);
      if read(args).Plain? {
        NoFlagsNoSettings(read, args[1..]);
      }
    }
  }

  /** A flag reads the same in front of any other arguments. */
  lemma FlagMoved(read: Reader, args: seq<string>, later: seq<string>)
    requires Sound(read) && args != [] && read(args).Flag?
    ensures var t := read(args);
            && 1 <= t.width <= |args| && read(args[..t.width] + later) == t
            && Past(args[..t.width] + later, t.width) == later
            && (t.width == 1 ==> args[0] != DASHES)
            && (Trap(read, args[..t.width] + later) <==> Swallows(args[..t.width]) && StartsPlain(later))
  {
    assert SoundAt(read, args);
    var t := read(args);
    var line := args[..t.width] + later;
    assert read(line) == t && line[0] == args[0];
    assert t.width == 2 ==> line[1] == args[1] && (|line| > 2 ==> line[2] == later[0]);
  }

  lemma SwallowsMore(first: seq<string>, more: seq<string>)
    ensures Swallows(first + more) <==> if more == [] then Swallows(first) else Swallows(more)
  {
    assert more == [] ==> first + more == first;
  }

  /** What the loop makes of it there. */
  lemma FlagMovedRead(read: Reader, args: seq<string>, later: seq<string>)
    requires Sound(read) && args != [] && read(args).Flag?
    ensures var t := read(args);
            Interspersed(read, UpTo(args, t.width) + later) ==
            if Swallows(UpTo(args, t.width)) && StartsPlain(later) then Parsed([Setting(t.name, t.value)], later)
            else With([Setting(t.name, t.value)], [], Interspersed(read, later))
  {
    FlagMoved(read, args, later);
    var t := read(args);
    var line := args[..t.width] + later;
    FlagStep(read, line);
    assert Trap(read, line) ==> line[2..] == later;
  }

  lemma PlainLineStep(s: Setting, first: seq<string>, more: seq<string>, tail: seq<string>, settings: seq<Setting>,
          rest: Parsed, line: Parsed)
    requires line == if Swallows(first) && StartsPlain(more + tail) then Parsed([s], more + tail)
                     else With([s], [], rest)
    requires rest == Parsed(settings, tail) <==> AllPlain(tail) || (Swallows(more) && StartsPlain(tail))
    requires if more == [] then settings == [] else !IsPlain(more[0])
    ensures line == Parsed([s] + settings, tail) <==> AllPlain(tail) || (Swallows(first + more) && StartsPlain(tail))
  {
    SwallowsMore(first, more);
    if more == [] {
      assert more + tail == tail;
    }
    WithInjective([s], [], rest, Parsed(settings, tail));
  }

  /** How a line that starts with a flag is read, and what is left of it. */
  ghost predicate FlagLine(read: Reader, args: seq<string>, tail: seq<string>)
    requires args != [] && read(args).Flag? && Grammar(read, args).Parsed?
  {
    var t := read(args);
    var s, after, first := Setting(t.name, t.value), Past(args, t.width), UpTo(args, t.width);
    var more, later := FlagPart(read, after), FlagPart(read, after) + tail;
    && Interspersed(read, first + later) ==
       (if Swallows(first) && StartsPlain(later) then Parsed([s], later) else With([s], [], Interspersed(read, later)))
    && (if more == [] then Grammar(read, after).settings == [] else !IsPlain(more[0]))
  }

  lemma FlagLineIs(read: Reader, args: seq<string>, tail: seq<string>)
    requires Sound(read) && Grammar(read, args).Parsed? && args != [] && read(args).Flag?
    ensures FlagLine(read, args, tail)
  {
    var after := Past(args, read(args).width);
    FlagMovedRead(read, args, FlagPart(read, after) + tail);
    FlagPartHead(read, after);
    if FlagPart(read, after) == [] {
      NoFlagsNoSettings(read, after);
    }
  }

  /** One flag before the rest of the line. */
  lemma PlainLineFlag(read: Reader, args: seq<string>, tail: seq<string>)
    requires args != [] && read(args).Flag? && Grammar(read, args).Parsed? && FlagLine(read, args, tail)
    requires PlainLineHolds(read, Past(args, read(args).width), tail)
    ensures PlainLineHolds(read, args, tail)
  {
    var t := read(args);
    var after := Past(args, t.width);
    var first, more := UpTo(args, t.width), FlagPart(read, after);
    PlainLineStep(Setting(t.name, t.value), first, more, tail, Grammar(read, after).settings,
      Interspersed(read, more + tail), Interspersed(read, first + (more + tail)));
    assert first + (more + tail) == (first + more) + tail;
  }

  ghost predicate PlainLineHolds(read: Reader, args: seq<string>, tail: seq<string>)
    requires Grammar(read, args).Parsed?
  {
    Interspersed(read, FlagPart(read, args) + tail) == Parsed(Grammar(read, args).settings, tail) <==>
    AllPlain(tail) || (Swallows(FlagPart(read, args)) && StartsPlain(tail))
  }

  lemma {:induction false} PlainLine(read: Reader, args: seq<string>, tail: seq<string>)
    requires Sound(read) && Grammar(read, args).Parsed?
    ensures PlainLineHolds(read, args, tail)
    decreases |args|
  {
    if args == [] {
      LoopAlone(read, tail);
      assert FlagPart(read, args) + tail == tail;
    } else {
      assert SoundAt(read, args);
      match read(args)
      case Plain => PlainLine(read, args[1..], tail);
      case Terminator =>
        LoopAlone(read, tail);
        assert FlagPart(read, args) + tail == tail;
      case Flag(_, _, width) =>
        PlainLine(read, Past(args, width), tail);
        FlagLineIs(read, args, tail);
        PlainLineFlag(read, args, tail);
    }
  }

  /**
   Without the "--" the reordered line is read as the grammar reads the original exactly if no
   positional looks like a flag, or the last flag takes "--" and the first positional does not.
   */
  lemma PlainLineIff(read: Reader, args: seq<string>)
    requires Sound(read) && Grammar(read, args).Parsed?
    ensures var positionals := Grammar(read, args).positionals;
            Interspersed(read, FlagPart(read, args) + positionals) == Grammar(read, args) <==>
            AllPlain(positionals) || (Swallows(FlagPart(read, args)) && StartsPlain(positionals))
  {
    PlainLine(read, args, Grammar(read, args).positionals);
  }

  /** -n takes "--" for its value; the switch after the positional is then taken for a positional. */
  lemma DashesAsValue()
    ensures var read := Reading(Flags(name => if name == ['n'] then Valued else Switch, (name, value) => true));
            var args := [['-', 'n'], DASHES, ['p'], ['-', 'x']];
            Interspersed(read, args) != Grammar(read, args)
  {
    var flags := Flags(name => if name == ['n'] then Valued else Switch, (name, value) => true);
    var read := Reading(flags);
    var args := [['-', 'n'], DASHES, ['p'], ['-', 'x']];
    assert Classify(flags, args) == Flag(['n'], DASHES, 2);
    assert !IsPlain(args[2..][1]);
    ReadingSound(flags);
    SafeIff(read, args);
  }

  // ---------------------------------------------------------------- what the flags look like

  predicate IsDashes(s: string) { s == ['-'] || s == DASHES }

  /** A name as it is written after the dashes. */
  predicate IsName(s: string) { s != [] && s[0] != '-' && s[0] != '=' && forall i :: 0 <= i < |s| ==> s[i] != '=' }

  lemma {:induction false} NameEnds(name: string, more: string)
    requires name != [] && (forall i :: 0 < i < |name| ==> name[i] != '=') && (more == [] || more[0] == '=')
    ensures NameOf(name + more) == name
  {
    if |name| == 1 {
      assert (name + more)[..1] == name;
    } else {
      assert (name + more)[1..] == name[1..] + more;
      NameEnds(name[1..], more);
    }
  }

  /** What follows the dashes of an argument. */
  lemma TextIs(dashes: string, text: string)
    requires IsDashes(dashes) && text != [] && text[0] != '-'
    ensures var s := dashes + text;
            !IsPlain(s) && s != DASHES && (if s[1] == '-' then s[2..] else s[1..]) == text
  {
    assert (dashes + text)[|dashes|] == text[0];
  }

  /** A flag with its value after an equals sign, one dash or two. */
  lemma WithEquals(flags: Flags, dashes: string, name: string, value: string, rest: seq<string>)
    requires IsDashes(dashes) && IsName(name)
    ensures Classify(flags, [dashes + (name + (['='] + value))] + rest) ==
            if flags.arity(name).Unknown? || !flags.accepts(name, value) then Bad else Flag(name, value, 1)
  {
    var text := name + (['='] + value);
    TextIs(dashes, text);
    NameEnds(name, ['='] + value);
    assert text[|name| + 1..] == value;
  }

  /** A flag alone: a switch is set to true, any other takes the next argument, whatever it is, and must have one. */
  lemma WithoutEquals(flags: Flags, dashes: string, name: string, rest: seq<string>)
    requires IsDashes(dashes) && IsName(name)
    ensures Classify(flags, [dashes + name] + rest) ==
            match flags.arity(name)
            case Unknown => Bad
            case Switch => if flags.accepts(name, "true") then Flag(name, "true", 1) else Bad
            case Valued => if rest != [] && flags.accepts(name, rest[0]) then Flag(name, rest[0], 2) else Bad
  {
    TextIs(dashes, name);
    NameEnds(name, []);
    assert name + [] == name;
  }

  /** Plain arguments: all that do not start with a dash, and the dash alone. */
  lemma PlainIs(s: string)
    ensures IsPlain(s) <==> s == [] || s == ['-'] || s[0] != '-'
  {
  }

  /** Three dashes, or an equals sign right after the dashes, is refused. */
  lemma NoName(flags: Flags, dashes: string, text: string, rest: seq<string>)
    requires text != [] && ((dashes == DASHES && text[0] == '-') || (IsDashes(dashes) && text[0] == '='))
    ensures Classify(flags, [dashes + text] + rest) == Bad
  {
    var s := dashes + text;
    assert s[|dashes|] == text[0];
    assert s[|dashes|..] == text;
  }
}
