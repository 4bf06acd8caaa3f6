/** Canonical stable versions: exactly the printed triples, in lexicographic order. */
module Versions {
  import opened Basics
  import opened Text

  datatype Version = Version(major: nat, minor: nat, patch: nat)

  function Print(v: Version): string { PrintNat(v.major) + ("." + (PrintNat(v.minor) + ("." + PrintNat(v.patch)))) }

  /** A full match of `(0|[1-9][0-9]*)\.(0|[1-9][0-9]*)\.(0|[1-9][0-9]*)`: two dots between three numerals. */
  predicate Matches(s: string) {
    exists i, j | 0 <= i < j < |s| ::
      s[i] == '.' && s[j] == '.' && Canonical(s[..i]) && Canonical(s[i + 1..j]) && Canonical(s[j + 1..])
  }

  function IndexOf(s: string, c: char): (n: nat)
    ensures n <= |s| && c !in s[..n] && (n < |s| ==> s[n] == c)
  {
    if s == "" || s[0] == c then 0
    else
      var n := IndexOf(s[1..], c);
      assert s[..1 + n] == [s[0]] + s[1..][..n];
      1 + n
  }

  /** The parts between the separators. */
  function Split(s: string, c: char): seq<string>
    decreases |s|
  {
    var n := IndexOf(s, c);
    if n < |s| then [s[..n]] + Split(s[n + 1..], c) else [s]
  }

  /** What `version` returns; None is its ValueError. */
  function Parse(s: string): Option<Version> {
    if !Matches(s) then None
    else
      var parts := Split(s, '.');
      if |parts| == 3 && AllDigits(parts[0]) && AllDigits(parts[1]) && AllDigits(parts[2])
      then Some(Version(ValueOf(parts[0]), ValueOf(parts[1]), ValueOf(parts[2])))
      else None
  }

  lemma {:induction false} IndexFirst(part: string, rest: string, c: char)
    requires c !in part && (rest == "" || rest[0] == c)
    ensures IndexOf(part + rest, c) == |part|
  {
    if part == "" {
      assert part + rest == rest;
    } else {
      assert (part + rest)[1..] == part[1..] + rest;
      IndexFirst(part[1..], rest, c);
    }
  }

  lemma SplitFirst(part: string, rest: string, c: char)
    requires c !in part
    ensures Split(part + ([c] + rest), c) == [part] + Split(rest, c)
    ensures Split(part, c) == [part]
  {
    var s := part + ([c] + rest);
    IndexFirst(part, [c] + rest, c);
    IndexFirst(part, "", c);
    assert part + "" == part;
    assert s[..|part|] == part && s[|part| + 1..] == rest;
  }

  lemma SplitThree(a: string, b: string, c: string)
    requires AllDigits(a) && AllDigits(b) && AllDigits(c)
    ensures Split(a + ("." + (b + ("." + c))), '.') == [a, b, c]
  {
    SplitFirst(a, b + ("." + c), '.');
    SplitFirst(b, c, '.');
    SplitFirst(c, "", '.');
  }

  /** Cutting a text at two dots, and putting it together again. */
  lemma Cuts(a: string, b: string, c: string)
    ensures var s := a + ("." + (b + ("." + c)));
            var (i, j) := (|a|, |a| + 1 + |b|);
            i < j < |s| && s[i] == '.' && s[j] == '.' && s[..i] == a && s[i + 1..j] == b && s[j + 1..] == c
  {
    var rest := b + ("." + c);
    var s := a + ("." + rest);
    assert s[|a| + 1..] == rest;
    assert s[|a| + 1..|a| + 1 + |b|] == s[|a| + 1..][..|b|] == b;
    assert s[|a| + 1 + |b| + 1..] == rest[|b| + 1..] == c;
  }

  lemma Joins(s: string, i: nat, j: nat)
    requires i < j < |s| && s[i] == '.' && s[j] == '.'
    ensures s == s[..i] + ("." + (s[i + 1..j] + ("." + s[j + 1..])))
  {
    assert s[i..] == "." + s[i + 1..];
    assert s[i + 1..] == s[i + 1..j] + s[j..];
    assert s[j..] == "." + s[j + 1..];
    assert s == s[..i] + s[i..];
  }

  /** Whatever is printed is accepted and read back. */
  lemma ParsePrinted(v: Version)
    ensures Parse(Print(v)) == Some(v)
  {
    var (a, b, c) := (PrintNat(v.major), PrintNat(v.minor), PrintNat(v.patch));
    PrintNatIsCanonical(v.major);
    PrintNatIsCanonical(v.minor);
    PrintNatIsCanonical(v.patch);
    hide PrintNat, ValueOf, Split;
    SplitThree(a, b, c);
    Cuts(a, b, c);
    assert Matches(Print(v)) by {
      var s, i, j := Print(v), |a|, |a| + 1 + |b|;
      assert Canonical(s[..i]) && Canonical(s[i + 1..j]) && Canonical(s[j + 1..]);
    }
  }

  lemma ThreeNumerals(a: string, b: string, c: string)
    requires Canonical(a) && Canonical(b) && Canonical(c)
    ensures AllDigits(a) && AllDigits(b) && AllDigits(c)
    ensures Print(Version(ValueOf(a), ValueOf(b), ValueOf(c))) == a + ("." + (b + ("." + c)))
  {
    hide PrintNat, ValueOf;
    CanonicalIsPrinted(a);
    CanonicalIsPrinted(b);
    CanonicalIsPrinted(c);
  }

  /** Whatever is accepted is what would be printed. */
  lemma PrintParsed(s: string)
    requires Matches(s)
    ensures Parse(s).Some? && Print(Parse(s).value) == s
  {
    hide Canonical;
    var i, j :| 0 <= i < j < |s| && s[i] == '.' && s[j] == '.' && Canonical(s[..i]) && Canonical(s[i + 1..j])
                && Canonical(s[j + 1..]);
    PrintParsedAt(s, i, j);
  }

  lemma PrintParsedAt(s: string, i: nat, j: nat)
    requires i < j < |s| && s[i] == '.' && s[j] == '.' && Matches(s)
    requires Canonical(s[..i]) && Canonical(s[i + 1..j]) && Canonical(s[j + 1..])
    ensures Parse(s).Some? && Print(Parse(s).value) == s
  {
    hide PrintNat, ValueOf, Split, Print, Matches, Canonical, AllDigits;
    ThreeNumerals(s[..i], s[i + 1..j], s[j + 1..]);
    Joins(s, i, j);
    SplitThree(s[..i], s[i + 1..j], s[j + 1..]);
  }

  lemma PrintWritten(v: Version)
    ensures Print(v) == PrintNat(v.major) + "." + PrintNat(v.minor) + "." + PrintNat(v.patch)
  {
    hide PrintNat;
    Regroup(PrintNat(v.major), PrintNat(v.minor), PrintNat(v.patch));
  }

  lemma Regroup(a: string, b: string, c: string)
    ensures a + "." + b + "." + c == a + ("." + (b + ("." + c)))
  {
  }

  lemma AcceptsMatches(s: string)
    ensures Parse(s).Some? ==> Matches(s)
  {
  }

  /**
   * The accepted texts are exactly the printed versions: printing and parsing are inverse to each other, so no version
   * has two texts and no text two versions.
   */
  lemma ParseIff(s: string, v: Version)
    ensures Parse(s) == Some(v) <==> s == Print(v)
    ensures Parse(s) == Some(v) <==> s == PrintNat(v.major) + "." + PrintNat(v.minor) + "." + PrintNat(v.patch)
    ensures Parse(s).Some? <==> Matches(s)
  {
    hide Parse, PrintNat, Print, Matches;
    PrintWritten(v);
    ParsePrinted(v);
    if Parse(s).Some? {
      assert Matches(s) by { AcceptsMatches(s); }
    }
    if Matches(s) {
      PrintParsed(s);
    }
  }

  /** Python's order on tuples of integers. */
  predicate Less(v: Version, u: Version) {
    || v.major < u.major
    || (v.major == u.major && (v.minor < u.minor || (v.minor == u.minor && v.patch < u.patch)))
  }

  predicate AtMost(v: Version, u: Version) { v == u || Less(v, u) }

  function Numbers(v: Version): seq<nat> { [v.major, v.minor, v.patch] }

  /** One version is below another exactly if its number is smaller at the first place where they differ. */
  lemma LessIff(v: Version, u: Version)
    ensures Less(v, u) <==>
            exists i | 0 <= i < 3 ::
              Numbers(v)[i] < Numbers(u)[i] && forall j | 0 <= j < i :: Numbers(v)[j] == Numbers(u)[j]
  {
    var (a, b) := (Numbers(v), Numbers(u));
    if Less(v, u) {
      var i := if v.major < u.major then 0 else if v.minor < u.minor then 1 else 2;
      assert a[i] < b[i] && forall j | 0 <= j < i :: a[j] == b[j];
    } else {
      assert !(a[0] < b[0]);
      assert !(a[0] == b[0] && a[1] < b[1]);
      assert !(a[0] == b[0] && a[1] == b[1] && a[2] < b[2]);
    }
  }

  lemma OrderIsTotal(v: Version, u: Version, x: Version)
    ensures !Less(v, v)
    ensures Less(v, u) || Less(u, v) || v == u
    ensures Less(v, u) ==> !Less(u, v)
    ensures Less(v, u) && Less(u, x) ==> Less(v, x)
  {
  }
}
