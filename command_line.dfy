/**
  The command line of the external packaging tool (`Squirrel.exe pack ...`)
  as a sequence of options. Every option is a flag token, and every flag but
  `--noDelta` takes the token that follows it as its value. `Flatten` turns
  options into the string tokens that are passed to the process; `Parse` is
  how a reader of those tokens (the tool, or anyone reading a logged
  invocation) gets the options back.
*/
module CommandLine {
  import opened Wrappers

  /** The flags the maker can emit. */
  datatype Flag =
    | BaseUrl | AddSearchPath | DebugSetupExe | NoDelta | Framework
    | SplashImage | Icon | MainExe | AppIcon | Msi
    | PackId | PackDir | PackVersion | PackTitle | PackAuthors

  /** The token the flag is spelled as on the command line: `--` and the option's name. */
  function Token(f: Flag): (t: string)
    ensures |t| > 2 && t[..2] == "--"
  {
    match f
    case BaseUrl => "--baseUrl"
    case AddSearchPath => "--addSearchPath"
    case DebugSetupExe => "--debugSetupExe"
    case NoDelta => "--noDelta"
    case Framework => "--framework"
    case SplashImage => "--splashImage"
    case Icon => "--icon"
    case MainExe => "--mainExe"
    case AppIcon => "--appIcon"
    case Msi => "--msi"
    case PackId => "--packId"
    case PackDir => "--packDir"
    case PackVersion => "--packVersion"
    case PackTitle => "--packTitle"
    case PackAuthors => "--packAuthors"
  }

  /** `--noDelta` is a switch; every other flag is followed by a value. */
  predicate TakesValue(f: Flag)
  {
    f != NoDelta
  }

  /** The flag a token spells, if it spells one. */
  function FlagOf(t: string): (r: Option<Flag>)
    ensures r.Some? ==> Token(r.value) == t
  {
    if t == "--baseUrl" then Some(BaseUrl)
    else if t == "--addSearchPath" then Some(AddSearchPath)
    else if t == "--debugSetupExe" then Some(DebugSetupExe)
    else if t == "--noDelta" then Some(NoDelta)
    else if t == "--framework" then Some(Framework)
    else if t == "--splashImage" then Some(SplashImage)
    else if t == "--icon" then Some(Icon)
    else if t == "--mainExe" then Some(MainExe)
    else if t == "--appIcon" then Some(AppIcon)
    else if t == "--msi" then Some(Msi)
    else if t == "--packId" then Some(PackId)
    else if t == "--packDir" then Some(PackDir)
    else if t == "--packVersion" then Some(PackVersion)
    else if t == "--packTitle" then Some(PackTitle)
    else if t == "--packAuthors" then Some(PackAuthors)
    else None
  }

  /** Every flag's token is recognised as that flag, so no two flags share a token. */
  lemma FlagOfToken(f: Flag)
    ensures FlagOf(Token(f)) == Some(f)
  {
    match f
    case BaseUrl =>
    case AddSearchPath =>
    case DebugSetupExe =>
    case NoDelta =>
    case Framework =>
    case SplashImage =>
    case Icon =>
    case MainExe =>
    case AppIcon =>
    case Msi =>
    case PackId =>
    case PackDir =>
    case PackVersion =>
    case PackTitle =>
    case PackAuthors =>
  }

  /** One option: a lone switch, or a flag with its value. */
  datatype Opt = Lone(flag: Flag) | Pair(flag: Flag, value: string)

  /** Switches are lone and every other flag carries a value. */
  predicate WellFormed(opts: seq<Opt>)
  {
    forall k :: 0 <= k < |opts| ==> (opts[k].Lone? <==> !TakesValue(opts[k].flag))
  }

  /** The tokens of one option. */
  function Tokens(o: Opt): seq<string>
  {
    match o
    case Lone(f) => [Token(f)]
    case Pair(f, v) => [Token(f), v]
  }

  /** The tokens of a sequence of options, in order. */
  function Flatten(opts: seq<Opt>): seq<string>
  {
    if |opts| == 0 then [] else Tokens(opts[0]) + Flatten(opts[1..])
  }

  /** Reads tokens back into options; a missing value or an unknown flag is an error. */
  function Parse(tokens: seq<string>): Option<seq<Opt>>
    decreases |tokens|
  {
    if |tokens| == 0 then Some([])
    else match FlagOf(tokens[0])
      case None => None
      case Some(f) =>
        if !TakesValue(f) then
          match Parse(tokens[1..])
          case None => None
          case Some(rest) => Some([Lone(f)] + rest)
        else if |tokens| < 2 then None
        else
          match Parse(tokens[2..])
          case None => None
          case Some(rest) => Some([Pair(f, tokens[1])] + rest)
  }

  /** The options of the flags `f` in `opts`, in their order. */
  function Occurrences(opts: seq<Opt>, f: Flag): (r: seq<Opt>)
    ensures |r| <= |opts|
    ensures forall k :: 0 <= k < |r| ==> r[k].flag == f
  {
    if |opts| == 0 then []
    else (if opts[0].flag == f then [opts[0]] else []) + Occurrences(opts[1..], f)
  }

  // ---------------------------------------------------------------------
  // Lemmas

  /** The tokens of two option lists side by side are the two token lists side by side. */
  lemma {:induction false} FlattenAppend(a: seq<Opt>, b: seq<Opt>)
    ensures Flatten(a + b) == Flatten(a) + Flatten(b)
    decreases |a|
  {
    if |a| == 0 {
      assert a + b == b;
    } else {
      assert (a + b)[1..] == a[1..] + b;
      FlattenAppend(a[1..], b);
    }
  }

  /** Picking the options of one flag commutes with concatenation. */
  lemma {:induction false} OccurrencesAppend(a: seq<Opt>, b: seq<Opt>, f: Flag)
    ensures Occurrences(a + b, f) == Occurrences(a, f) + Occurrences(b, f)
    decreases |a|
  {
    if |a| == 0 {
      assert a + b == b;
    } else {
      assert (a + b)[1..] == a[1..] + b;
      OccurrencesAppend(a[1..], b, f);
    }
  }

  /** In a list whose options all have flag `g`, flag `f` picks all of them or none. */
  lemma {:induction false} OccurrencesOfUniform(opts: seq<Opt>, g: Flag, f: Flag)
    requires forall k :: 0 <= k < |opts| ==> opts[k].flag == g
    ensures Occurrences(opts, f) == if f == g then opts else []
    decreases |opts|
  {
    if |opts| > 0 {
      OccurrencesOfUniform(opts[1..], g, f);
      assert opts == [opts[0]] + opts[1..];
    }
  }

  /** A well-formed option list is read back exactly from its tokens. */
  lemma {:induction false} ParseFlatten(opts: seq<Opt>)
    requires WellFormed(opts)
    ensures Parse(Flatten(opts)) == Some(opts)
    decreases |opts|
  {
    if |opts| > 0 {
      var o, rest := opts[0], opts[1..];
      assert WellFormed(rest) by {
        forall k | 0 <= k < |rest| ensures (rest[k].Lone? <==> !TakesValue(rest[k].flag)) {
          assert rest[k] == opts[k + 1];
        }
      }
      ParseFlatten(rest);
      FlagOfToken(o.flag);
      var tokens := Flatten(opts);
      assert tokens == Tokens(o) + Flatten(rest);
      assert opts == [o] + rest;
      match o
      case Lone(f) =>
        assert tokens[1..] == Flatten(rest);
      case Pair(f, v) =>
        assert tokens[2..] == Flatten(rest);
    }
  }

  /** Conversely, whatever `Parse` accepts is well formed and has exactly those tokens. */
  lemma {:induction false} FlattenParse(tokens: seq<string>)
    requires Parse(tokens).Some?
    ensures WellFormed(Parse(tokens).value)
    ensures Flatten(Parse(tokens).value) == tokens
    decreases |tokens|
  {
    if |tokens| > 0 {
      var f := FlagOf(tokens[0]).value;
      var tail := if TakesValue(f) then tokens[2..] else tokens[1..];
      FlattenParse(tail);
      var opts := Parse(tokens).value;
      var rest := Parse(tail).value;
      assert opts[1..] == rest;
      assert Flatten(opts) == Tokens(opts[0]) + Flatten(rest);
      assert tokens == Tokens(opts[0]) + tail;
      forall k | 0 <= k < |opts| ensures (opts[k].Lone? <==> !TakesValue(opts[k].flag)) {
        if k > 0 { assert opts[k] == rest[k - 1]; }
      }
    }
  }
}
