/**
  The version normaliser `convertVersion`: a version such as `1.2.3-beta.1`
  is split on `-`, the first segment (the numeric core) is kept as it is, and
  when there are further segments they are joined back with `-` and every `.`
  is removed from that suffix, giving `1.2.3-beta1`.

  The JavaScript string operations it uses are modelled one by one:
  `String.prototype.split` with a one-character separator (`Split`),
  `Array.prototype.join` (`Join`) and `replace(/\./g, '')` (`RemoveDots`).
*/
module Version {
  import opened Wrappers

  /** Index of the first occurrence of `c` in `s`, if any. */
  function IndexOf(s: string, c: char): (r: Option<nat>)
    ensures r.None? <==> c !in s
    ensures r.Some? ==> r.value < |s| && s[r.value] == c && c !in s[..r.value]
  {
    if |s| == 0 then None
    else if s[0] == c then Some(0)
    else match IndexOf(s[1..], c)
      case None => None
      case Some(i) =>
        assert s[..i + 1] == [s[0]] + s[1..][..i];
        Some(i + 1)
  }

  /** A position holding `c` with no `c` before it is what `IndexOf` finds. */
  lemma {:induction false} IndexOfFirst(s: string, c: char, i: nat)
    requires i < |s| && s[i] == c && c !in s[..i]
    ensures IndexOf(s, c) == Some(i)
  {
    if i > 0 {
      assert s[..i][0] == s[0];
      assert s[1..][..i - 1] == s[1..i];
      assert forall k :: 0 <= k < i - 1 ==> s[1..i][k] == s[..i][k + 1];
      IndexOfFirst(s[1..], c, i - 1);
    }
  }

  /** `s.split(sep)`: the maximal runs between separators; never empty, even for "". */
  function Split(s: string, sep: char): (parts: seq<string>)
    ensures |parts| >= 1
    ensures forall k :: 0 <= k < |parts| ==> sep !in parts[k]
    decreases |s|
  {
    match IndexOf(s, sep)
    case None => [s]
    case Some(i) => [s[..i]] + Split(s[i + 1..], sep)
  }

  /** `parts.join(sep)`: the parts with one separator between neighbours. */
  function Join(parts: seq<string>, sep: char): string
  {
    if |parts| == 0 then ""
    else if |parts| == 1 then parts[0]
    else parts[0] + [sep] + Join(parts[1..], sep)
  }

  /** `s.replace(/\./g, '')`: `s` with every `.` deleted. */
  function RemoveDots(s: string): (r: string)
    ensures '.' !in r
    ensures |r| <= |s|
  {
    if |s| == 0 then ""
    else (if s[0] == '.' then "" else [s[0]]) + RemoveDots(s[1..])
  }

  /** `convertVersion(version)` as written: split, shift, join, strip the dots of the suffix. */
  function ConvertVersion(version: string): string
  {
    var parts := Split(version, '-');
    var mainVersion := parts[0];
    var rest := parts[1..];
    if |rest| > 0 then Join([mainVersion, RemoveDots(Join(rest, '-'))], '-')
    else mainVersion
  }

  // ---------------------------------------------------------------------
  // Split and Join

  /** Joining the pieces of a split with the same separator gives the string back. */
  lemma {:induction false} JoinSplit(s: string, sep: char)
    ensures Join(Split(s, sep), sep) == s
    decreases |s|
  {
    match IndexOf(s, sep)
    case None =>
    case Some(i) =>
      var rest := Split(s[i + 1..], sep);
      JoinSplit(s[i + 1..], sep);
      assert Split(s, sep) == [s[..i]] + rest;
      assert ([s[..i]] + rest)[1..] == rest;
      assert s == s[..i] + [sep] + s[i + 1..];
  }

  /** A string splits into a single piece exactly when it holds no separator. */
  lemma SplitSingle(s: string, sep: char)
    ensures |Split(s, sep)| == 1 <==> sep !in s
    ensures sep !in s ==> Split(s, sep) == [s]
  {
    match IndexOf(s, sep)
    case None =>
      assert Split(s, sep) == [s];
    case Some(i) =>
      var rest := Split(s[i + 1..], sep);
      assert |rest| >= 1;
      assert Split(s, sep) == [s[..i]] + rest;
  }

  // ---------------------------------------------------------------------
  // RemoveDots

  /** Removing dots distributes over concatenation: it works on each character alone. */
  lemma {:induction false} RemoveDotsAppend(a: string, b: string)
    ensures RemoveDots(a + b) == RemoveDots(a) + RemoveDots(b)
    decreases |a|
  {
    if |a| == 0 {
      assert a + b == b;
    } else {
      var head := if a[0] == '.' then "" else [a[0]];
      assert (a + b)[0] == a[0];
      assert (a + b)[1..] == a[1..] + b;
      RemoveDotsAppend(a[1..], b);
      assert RemoveDots(a + b) == head + (RemoveDots(a[1..]) + RemoveDots(b));
      assert head + (RemoveDots(a[1..]) + RemoveDots(b)) == (head + RemoveDots(a[1..])) + RemoveDots(b);
    }
  }

  /** Every character other than `.` keeps its number of occurrences; the dots are all gone. */
  lemma {:induction false} RemoveDotsCounts(s: string)
    ensures multiset(RemoveDots(s)) == multiset(s)['.' := 0]
    decreases |s|
  {
    if |s| > 0 {
      var head, t := if s[0] == '.' then "" else [s[0]], s[1..];
      RemoveDotsCounts(t);
      assert s == [s[0]] + t;
      assert multiset(RemoveDots(s)) == multiset(head) + multiset(RemoveDots(t));
      assert multiset(s) == multiset{s[0]} + multiset(t);
    }
  }

  /** A string without dots is left unchanged, so removing dots is idempotent. */
  lemma {:induction false} RemoveDotsNoDots(s: string)
    requires '.' !in s
    ensures RemoveDots(s) == s
    decreases |s|
  {
    if |s| > 0 {
      assert s[0] in s;
      assert forall k :: 0 <= k < |s| - 1 ==> s[1..][k] == s[k + 1];
      RemoveDotsNoDots(s[1..]);
    }
  }

  // ---------------------------------------------------------------------
  // ConvertVersion

  /** An input without `-` is returned unchanged; in particular "" maps to "". */
  lemma ConvertVersionNoDash(v: string)
    requires '-' !in v
    ensures ConvertVersion(v) == v
  {
    SplitSingle(v, '-');
  }

  /**
    With its first `-` at position `i`, the output is the input up to and
    including that dash, unchanged, followed by the rest of the input with
    every `.` removed.
  */
  lemma ConvertVersionDash(v: string, i: nat)
    requires i < |v| && v[i] == '-' && '-' !in v[..i]
    ensures ConvertVersion(v) == v[..i + 1] + RemoveDots(v[i + 1..])
  {
    IndexOfFirst(v, '-', i);
    var rest := Split(v[i + 1..], '-');
    assert Split(v, '-') == [v[..i]] + rest;
    assert Split(v, '-')[1..] == rest;
    JoinSplit(v[i + 1..], '-');
    var pair := [v[..i], RemoveDots(v[i + 1..])];
    assert pair[1..] == [RemoveDots(v[i + 1..])];
    assert Join(pair, '-') == v[..i] + ['-'] + RemoveDots(v[i + 1..]);
    assert v[..i + 1] == v[..i] + ['-'];
  }

  /**
    The input up to the first `-` (included, when there is one) starts the
    output, dots included, and no `.` follows it in the output.
  */
  lemma ConvertVersionPrefix(v: string)
    ensures IndexOf(v, '-').None? ==> ConvertVersion(v) == v
    ensures IndexOf(v, '-').Some? ==>
      var i, r := IndexOf(v, '-').value, ConvertVersion(v);
      |r| > i && r[..i + 1] == v[..i + 1] && '.' !in r[i + 1..]
  {
    match IndexOf(v, '-')
    case None => ConvertVersionNoDash(v);
    case Some(i) =>
      ConvertVersionDash(v, i);
      var r := ConvertVersion(v);
      assert r[i + 1..] == RemoveDots(v[i + 1..]);
  }

  /** Stripping the dots of a suffix keeps every `-`. */
  lemma DashesKept(v: string, i: nat, r: string)
    requires i < |v| && r == v[..i + 1] + RemoveDots(v[i + 1..])
    ensures multiset(r)['-'] == multiset(v)['-']
  {
    var p, t := v[..i + 1], v[i + 1..];
    assert p + t == v;
    RemoveDotsCounts(t);
    assert multiset(p + RemoveDots(t)) == multiset(p) + multiset(RemoveDots(t));
    assert multiset(p + t) == multiset(p) + multiset(t);
  }

  /** The number of `-` characters never changes. */
  lemma ConvertVersionDashCount(v: string)
    ensures multiset(ConvertVersion(v))['-'] == multiset(v)['-']
  {
    match IndexOf(v, '-')
    case None => ConvertVersionNoDash(v);
    case Some(i) =>
      ConvertVersionDash(v, i);
      DashesKept(v, i, ConvertVersion(v));
  }

  /** Converting an already converted version changes nothing. */
  lemma ConvertVersionIdempotent(v: string)
    ensures ConvertVersion(ConvertVersion(v)) == ConvertVersion(v)
  {
    match IndexOf(v, '-')
    case None =>
      ConvertVersionNoDash(v);
    case Some(i) =>
      ConvertVersionDash(v, i);
      var r := ConvertVersion(v);
      assert r[..i] == v[..i];
      assert r[i + 1..] == RemoveDots(v[i + 1..]);
      ConvertVersionDash(r, i);
      RemoveDotsNoDots(RemoveDots(v[i + 1..]));
      assert r == r[..i + 1] + r[i + 1..];
  }

  /**
    A version is left unchanged exactly when it has no `.` after its first
    `-` (in particular when it has no `-` at all).
  */
  lemma ConvertVersionFixed(v: string)
    ensures ConvertVersion(v) == v <==>
      match IndexOf(v, '-')
      case None => true
      case Some(i) => '.' !in v[i + 1..]
  {
    match IndexOf(v, '-')
    case None =>
      ConvertVersionNoDash(v);
    case Some(i) =>
      ConvertVersionDash(v, i);
      var t := v[i + 1..];
      assert v == v[..i + 1] + t;
      if '.' !in t {
        RemoveDotsNoDots(t);
      } else {
        assert RemoveDots(t) != t;
      }
  }

  /** Versions without a pre-release suffix are kept: "" and "1.2.3". */
  lemma ConvertVersionExamplesPlain()
    ensures ConvertVersion("") == ""
    ensures ConvertVersion("1.2.3") == "1.2.3"
  {
    ConvertVersionNoDash("");
    ConvertVersionNoDash("1.2.3");
  }

  /** A dash-free core, a `-` and any suffix: the core and the dash stay, the suffix loses its dots. */
  lemma ConvertVersionOfParts(core: string, suffix: string)
    requires '-' !in core
    ensures ConvertVersion(core + "-" + suffix) == core + "-" + RemoveDots(suffix)
  {
    var v := core + "-" + suffix;
    assert v[..|core|] == core;
    assert v[|core| + 1..] == suffix;
    ConvertVersionDash(v, |core|);
    assert v[..|core| + 1] == core + "-";
  }

  /** "1.2.3-beta.1" becomes "1.2.3-beta1". */
  lemma ConvertVersionExampleBeta()
    ensures ConvertVersion("1.2.3-beta.1") == "1.2.3-beta1"
  {
    var core, pre := "1.2.3", "beta" + "." + "1";
    assert "1.2.3-beta.1" == core + "-" + pre;
    assert "1.2.3-beta1" == core + "-" + ("beta" + "1");
    ConvertVersionOfParts(core, pre);
    RemoveDotBetween("beta", "1");
  }

  /**
    "1.0.0-rc.2-build.5" becomes "1.0.0-rc2-build5": every segment after
    the first loses its dots and the dash between them stays.
  */
  lemma ConvertVersionExampleBuild()
    ensures ConvertVersion("1.0.0-rc.2-build.5") == "1.0.0-rc2-build5"
  {
    var rc, build := "rc" + "." + "2", "build" + "." + "5";
    assert "1.0.0-rc.2-build.5" == "1.0.0" + "-" + (rc + "-" + build);
    assert "1.0.0-rc2-build5" == "1.0.0" + "-" + (("rc" + "2") + "-" + ("build" + "5"));
    ConvertVersionOfParts("1.0.0", rc + "-" + build);
    RemoveDotsAppend(rc + "-", build);
    RemoveDotsAppend(rc, "-");
    RemoveDotsNoDots("-");
    RemoveDotBetween("rc", "2");
    RemoveDotBetween("build", "5");
  }

  /** A dot between two dot-free parts is removed and the parts are joined. */
  lemma RemoveDotBetween(a: string, b: string)
    requires '.' !in a && '.' !in b
    ensures RemoveDots(a + "." + b) == a + b
  {
    var dot := ".";
    assert RemoveDots(dot) == [] by {
      assert dot[0] == '.' && dot[1..] == [];
    }
    RemoveDotsAppend(a + dot, b);
    RemoveDotsAppend(a, dot);
    RemoveDotsNoDots(a);
    RemoveDotsNoDots(b);
    assert RemoveDots(a + dot) == a + [];
    assert a + [] == a;
  }
}
