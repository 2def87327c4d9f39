/** An app's identity: its reverse-DNS id and its release versions. */
module Identity {
  import opened Basics
  import opened Text

  const MAX_APP_ID_CHARS: nat := 64

  datatype VersionFault =
    | NoPart(name: string)
    | BadPart(name: string, why: string)
    | TooManyParts

  datatype IdentityRefusal = AppId(why: string) | Version(fault: VersionFault)

  // ---------------------------------------------------------------- regular expressions

  /** What a regular expression means: the texts it matches. */
  datatype Regex = Chars(cs: set<char>) | Then(first: Regex, second: Regex) | Star(r: Regex)

  ghost predicate Matches(r: Regex, s: string)
    decreases r, |s|
  {
    match r
    case Chars(cs) => |s| == 1 && s[0] in cs
    case Then(first, second) => exists n :: 0 <= n <= |s| && Matches(first, s[..n]) && Matches(second, s[n..])
    case Star(one) => s == [] || exists n :: 0 < n <= |s| && Matches(one, s[..n]) && Matches(r, s[n..])
  }

  ghost const ALNUM: set<char> := set c: char | IsLower(c) || IsDigit(c)
  ghost const LABEL := Then(Chars(ALNUM), Star(Chars(ALNUM + {'-'})))
  ghost const DOTTED := Then(Chars({'.'}), LABEL)

  /** `[a-z0-9][a-z0-9-]*(\\.[a-z0-9][a-z0-9-]*)+` */
  ghost const APP_ID := Then(LABEL, Then(DOTTED, Star(DOTTED)))

  // ---------------------------------------------------------------- app ids

  predicate StartChar(c: char) {
    IsLower(c) || IsDigit(c)
  }

  predicate LabelChar(c: char) {
    StartChar(c) || c == '-'
  }

  predicate AllLabelChars(s: string) {
    forall i :: 0 <= i < |s| ==> LabelChar(s[i])
  }

  predicate IsLabel(s: string) {
    s != [] && StartChar(s[0]) && AllLabelChars(s)
  }

  function LabelFault(part: string): Option<string> {
    if part == [] then Some("it has an empty label")
    else if !StartChar(part[0]) then Some("a label starts with something other than a-z or 0-9")
    else if !AllLabelChars(part[1..]) then Some("a label holds something other than a-z, 0-9 and '-'")
    else None
  }

  /** The first label that is not one decides. */
  function LabelsFault(labels: seq<string>): Option<string> {
    if labels == [] then None
    else if LabelFault(labels[0]).Some? then LabelFault(labels[0])
    else LabelsFault(labels[1..])
  }

  function AppIdFault(id: string): Option<string> {
    if id == [] then Some("it is empty")
    else if |id| > MAX_APP_ID_CHARS then Some("it is longer than 64 characters")
    else if LabelsFault(Split(id, '.')).Some? then LabelsFault(Split(id, '.'))
    else if |Split(id, '.')| < 2 then Some("it needs at least two dot-separated labels")
    else None
  }

  lemma {:induction false} LabelsStop(labels: seq<string>, n: nat)
    requires n < |labels| && LabelFault(labels[n]).Some? && forall i :: 0 <= i < n ==> LabelFault(labels[i]).None?
    ensures LabelsFault(labels) == LabelFault(labels[n])
    decreases |labels|
  {
    hide LabelFault;
    if n > 0 {
      LabelsStop(labels[1..], n - 1);
    }
  }

  lemma {:induction false} LabelsPass(labels: seq<string>)
    ensures LabelsFault(labels).None? <==> forall i :: 0 <= i < |labels| ==> LabelFault(labels[i]).None?
  {
    hide LabelFault;
    if labels != [] {
      LabelsPass(labels[1..]);
      assert forall i :: 0 < i < |labels| ==> labels[i] == labels[1..][i - 1];
    }
  }

  lemma LabelPasses(part: string)
    ensures LabelFault(part).None? <==> IsLabel(part)
  {
    if part != [] && StartChar(part[0]) && AllLabelChars(part[1..]) {
      assert forall i :: 0 < i < |part| ==> part[i] == part[1..][i - 1];
    }
  }

  method ValidateAppId(id: string) returns (result: Result<(), IdentityRefusal>)
    ensures result == if AppIdFault(id).Some? then Err(AppId(AppIdFault(id).value)) else Ok(())
  {
    hide LabelFault, LabelsFault;
    if id == [] {
      return Err(AppId("it is empty"));
    }
    if |id| > MAX_APP_ID_CHARS {
      return Err(AppId("it is longer than 64 characters"));
    }
    var parts := Split(id, '.');
    var labels := 0;
    while labels < |parts|
      invariant 0 <= labels <= |parts|
      invariant forall i :: 0 <= i < labels ==> LabelFault(parts[i]).None?
    {
      var fault := LabelFault(parts[labels]);
      if fault.Some? {
        LabelsStop(parts, labels);
        return Err(AppId(fault.value));
      }
      labels := labels + 1;
    }
    LabelsPass(parts);
    if labels < 2 {
      return Err(AppId("it needs at least two dot-separated labels"));
    }
    return Ok(());
  }

  // ---------------------------------------------------------------- ids are their regular expression

  lemma {:induction false} StarOfChars(cs: set<char>, s: string)
    ensures Matches(Star(Chars(cs)), s) <==> forall i :: 0 <= i < |s| ==> s[i] in cs
    decreases |s|
  {
    if s != [] {
      StarOfChars(cs, s[1..]);
      if Matches(Star(Chars(cs)), s) {
        var n :| 0 < n <= |s| && Matches(Chars(cs), s[..n]) && Matches(Star(Chars(cs)), s[n..]);
        assert n == 1 && s[..1][0] == s[0];
        assert forall i :: 0 < i < |s| ==> s[i] == s[1..][i - 1];
      }
      if forall i :: 0 <= i < |s| ==> s[i] in cs {
        assert Matches(Chars(cs), s[..1]);
      }
    }
  }

  lemma LabelMatches(s: string)
    ensures Matches(LABEL, s) <==> IsLabel(s)
  {
    if Matches(LABEL, s) {
      var n :| 0 <= n <= |s| && Matches(Chars(ALNUM), s[..n]) && Matches(Star(Chars(ALNUM + {'-'})), s[n..]);
      StarOfChars(ALNUM + {'-'}, s[1..]);
      assert s[..1][0] == s[0];
      assert forall i :: 0 < i < |s| ==> s[i] == s[1..][i - 1];
    }
    if IsLabel(s) {
      StarOfChars(ALNUM + {'-'}, s[1..]);
      assert Matches(Chars(ALNUM), s[..1]);
    }
  }

  lemma DottedMatches(s: string)
    ensures Matches(DOTTED, s) <==> s != [] && s[0] == '.' && IsLabel(s[1..])
  {
    hide IsLabel;
    if Matches(DOTTED, s) {
      var n :| 0 <= n <= |s| && Matches(Chars({'.'}), s[..n]) && Matches(LABEL, s[n..]);
      assert s[..1][0] == s[0];
      LabelMatches(s[1..]);
    }
    if s != [] && s[0] == '.' && IsLabel(s[1..]) {
      LabelMatches(s[1..]);
      assert Matches(Chars({'.'}), s[..1]);
    }
  }

  ghost predicate AllLabels(s: string) {
    forall i :: 0 <= i < |Split(s, '.')| ==> IsLabel(Split(s, '.')[i])
  }

  /** A label, then nothing or a dot and more. */
  lemma SplitLabel(s: string, n: nat)
    requires n <= |s| && IsLabel(s[..n]) && (n < |s| ==> s[n] == '.')
    ensures Split(s, '.') == if n == |s| then [s] else [s[..n]] + Split(s[n + 1..], '.')
  {
    assert forall i :: 0 <= i < n ==> s[i] == s[..n][i] && LabelChar(s[..n][i]);
    FindAt(s, n, '.');
  }

  lemma AllLabelsFirst(s: string, n: nat)
    requires n < |s| && IsLabel(s[..n]) && s[n] == '.'
    ensures AllLabels(s) <==> AllLabels(s[n + 1..])
  {
    hide IsLabel, Split;
    SplitLabel(s, n);
    var rest := Split(s[n + 1..], '.');
    assert forall i :: 0 <= i < |rest| ==> Split(s, '.')[i + 1] == rest[i];
  }

  lemma {:induction false} DottedLabels(s: string)
    ensures Matches(Star(DOTTED), s) <==> s == [] || (s[0] == '.' && AllLabels(s[1..]))
    decreases |s|
  {
    hide IsLabel, AllLabels, Split, Find;
    if s != [] {
      if Matches(Star(DOTTED), s) {
        var n :| 0 < n <= |s| && Matches(DOTTED, s[..n]) && Matches(Star(DOTTED), s[n..]);
        DottedMatches(s[..n]);
        DottedLabels(s[n..]);
        assert s[..n][1..] == s[1..][..n - 1];
        if n == |s| {
          OneLabel(s[1..]);
        } else {
          assert s[1..][n - 1] == s[n] == '.';
          AllLabelsFirst(s[1..], n - 1);
          assert s[1..][n..] == s[n..][1..];
        }
      }
      if s[0] == '.' && AllLabels(s[1..]) {
        var n := Find(s[1..], '.') + 1;
        FirstLabel(s[1..]);
        assert s[..n][1..] == s[1..][..n - 1];
        DottedMatches(s[..n]);
        if n < |s| {
          AllLabelsFirst(s[1..], n - 1);
          assert s[1..][n..] == s[n..][1..];
        }
        DottedLabels(s[n..]);
        assert Matches(DOTTED, s[..n]) && Matches(Star(DOTTED), s[n..]);
      }
    }
  }

  lemma OneLabel(s: string)
    requires IsLabel(s[..|s|])
    ensures AllLabels(s) && Split(s, '.') == [s]
  {
    assert s[..|s|] == s;
    SplitLabel(s, |s|);
  }

  lemma FirstLabel(s: string)
    requires AllLabels(s)
    ensures IsLabel(s[..Find(s, '.')])
  {
    hide IsLabel;
    assert IsLabel(Split(s, '.')[0]);
    assert s[..|s|] == s;
  }

  /** The labels of a text are two or more exactly when it matches. */
  lemma AppIdMatches(s: string)
    ensures Matches(APP_ID, s) <==> AllLabels(s) && |Split(s, '.')| >= 2
  {
    hide IsLabel, AllLabels, Split, Find;
    var tail := Then(DOTTED, Star(DOTTED));
    if Matches(APP_ID, s) {
      var n :| 0 <= n <= |s| && Matches(LABEL, s[..n]) && Matches(tail, s[n..]);
      var t := s[n..];
      LabelMatches(s[..n]);
      var m :| 0 <= m <= |t| && Matches(DOTTED, t[..m]) && Matches(Star(DOTTED), t[m..]);
      DottedMatches(t[..m]);
      assert m > 0;
      assert Matches(Star(DOTTED), t);
      DottedLabels(t);
      assert s[n] == t[0] && s[n + 1..] == t[1..];
      AllLabelsFirst(s, n);
      SplitLabel(s, n);
    }
    if AllLabels(s) && |Split(s, '.')| >= 2 {
      var n := Find(s, '.');
      FirstLabel(s);
      SplitLabel(s, n);
      LabelMatches(s[..n]);
      AllLabelsFirst(s, n);
      var t := s[n..];
      assert t[0] == '.' && t[1..] == s[n + 1..];
      DottedLabels(t);
      var m :| 0 < m <= |t| && Matches(DOTTED, t[..m]) && Matches(Star(DOTTED), t[m..]);
      assert Matches(tail, t);
    }
  }

  /** Exactly the texts of at most 64 characters that match the regular expression are app ids. */
  lemma AppIdIsItsRegex(id: string)
    ensures AppIdFault(id).None? <==> |id| <= MAX_APP_ID_CHARS && Matches(APP_ID, id)
  {
    hide Matches, IsLabel, LabelFault, LabelsFault, Split;
    AppIdMatches(id);
    LabelsPass(Split(id, '.'));
    forall i | 0 <= i < |Split(id, '.')| ensures LabelFault(Split(id, '.')[i]).None? <==> IsLabel(Split(id, '.')[i]) {
      LabelPasses(Split(id, '.')[i]);
    }
    SplitNothing();
  }

  /** Why an id is refused: for its length, for its first label that is not one, or for being one label. */
  lemma IdFaultsExactly(id: string)
    ensures id == "" ==> AppIdFault(id) == Some("it is empty")
    ensures |id| > 64 ==> AppIdFault(id) == Some("it is longer than 64 characters")
    ensures 1 <= |id| <= 64 ==>
              var labels := Split(id, '.');
              && (forall n ::
                    0 <= n < |labels| && !IsLabel(labels[n]) && (forall i :: 0 <= i < n ==> IsLabel(labels[i])) ==>
                    AppIdFault(id) == Some(LabelWhy(labels[n])))
              && ((forall i :: 0 <= i < |labels| ==> IsLabel(labels[i])) ==>
                    AppIdFault(id) ==
                      if |labels| >= 2 then None else Some("it needs at least two dot-separated labels"))
  {
    hide LabelFault, LabelsFault, Split, IsLabel, LabelWhy;
    FirstBadLabel(Split(id, '.'));
  }

  /** Why a label is not one. */
  function LabelWhy(part: string): string {
    if part == "" then "it has an empty label"
    else if 'a' <= part[0] <= 'z' || '0' <= part[0] <= '9'
    then "a label holds something other than a-z, 0-9 and '-'"
    else "a label starts with something other than a-z or 0-9"
  }

  lemma FirstBadLabel(labels: seq<string>)
    ensures forall n :: 0 <= n < |labels| && !IsLabel(labels[n]) && (forall i :: 0 <= i < n ==> IsLabel(labels[i])) ==>
              LabelsFault(labels) == Some(LabelWhy(labels[n]))
    ensures (forall i :: 0 <= i < |labels| ==> IsLabel(labels[i])) <==> LabelsFault(labels).None?
  {
    hide LabelFault, LabelsFault, IsLabel, LabelWhy;
    LabelsPass(labels);
    forall i | 0 <= i < |labels| ensures LabelFault(labels[i]).None? <==> IsLabel(labels[i]) {
      LabelPasses(labels[i]);
    }
    forall n | 0 <= n < |labels| && !IsLabel(labels[n]) && (forall i :: 0 <= i < n ==> IsLabel(labels[i]))
      ensures LabelsFault(labels) == Some(LabelWhy(labels[n]))
    {
      LabelsStop(labels, n);
      WhyNot(labels[n]);
    }
  }

  lemma WhyNot(part: string)
    requires !IsLabel(part)
    ensures LabelFault(part) == Some(LabelWhy(part))
  {
    LabelPasses(part);
  }

  lemma SplitNothing()
    ensures |Split([], '.')| == 1
  {
  }

  // ---------------------------------------------------------------- versions

  datatype AppVersion = AppVersion(major: u32, minor: u32, patch: u32)

  function ParsePart(name: string, part: string): Result<u32, VersionFault> {
    if part == [] then Err(BadPart(name, "part is empty"))
    else if !AllDigits(part) then Err(BadPart(name, "part is not decimal digits"))
    else if |part| > 1 && part[0] == '0' then Err(BadPart(name, "part has a leading zero"))
    else if NumberIn(part) > U32_MAX then Err(BadPart(name, "part does not fit in 32 bits"))
    else Ok(NumberIn(part))
  }

  /** The next part of the text, if there is one. */
  function PartAt(parts: seq<string>, n: nat, name: string): Result<u32, VersionFault> {
    if n < |parts| then ParsePart(name, parts[n]) else Err(NoPart(name))
  }

  function VersionOf(text: string): Result<AppVersion, VersionFault> {
    var parts := Split(text, '.');
    match (PartAt(parts, 0, "major"), PartAt(parts, 1, "minor"), PartAt(parts, 2, "patch"))
    case (Err(fault), _, _) => Err(fault)
    case (_, Err(fault), _) => Err(fault)
    case (_, _, Err(fault)) => Err(fault)
    case (Ok(major), Ok(minor), Ok(patch)) =>
      if |parts| > 3 then Err(TooManyParts) else Ok(AppVersion(major, minor, patch))
  }

  function Refusing(r: Result<AppVersion, VersionFault>): Result<AppVersion, IdentityRefusal> {
    match r
    case Ok(v) => Ok(v)
    case Err(fault) => Err(Version(fault))
  }

  method ParseVersion(text: string) returns (version: Result<AppVersion, IdentityRefusal>)
    ensures version == Refusing(VersionOf(text))
  {
    hide ParsePart;
    var parts := Split(text, '.');
    var names := ["major", "minor", "patch"];
    var numbers: seq<u32> := [];
    assert names[0] == "major" && names[1] == "minor" && names[2] == "patch";
    for next := 0 to 3
      invariant |numbers| == next <= |parts|
      invariant forall i :: 0 <= i < next ==> PartAt(parts, i, names[i]) == Ok(numbers[i])
    {
      if next == |parts| {
        return Err(Version(NoPart(names[next])));
      }
      var part := ParsePart(names[next], parts[next]);
      if part.Err? {
        assert PartAt(parts, next, names[next]) == Err(part.error);
        assert next == 0 || next == 1 || next == 2;
        return Err(Version(part.error));
      }
      numbers := numbers + [part.value];
    }
    if |parts| > 3 {
      return Err(Version(TooManyParts));
    }
    return Ok(AppVersion(numbers[0], numbers[1], numbers[2]));
  }

  /** The `n`-th part of a version is how some 32-bit number prints. */
  ghost predicate PartOk(text: string, n: nat) {
    n < |Split(text, '.')| && exists v: u32 :: Split(text, '.')[n] == Decimal(v)
  }

  /** Why a version is refused: for its first part that is missing or is not a number as it prints, or for
      having more than three. */
  lemma VersionFaultsExactly(text: string, n: nat)
    requires n < 3 && !PartOk(text, n) && forall i: nat :: i < n ==> PartOk(text, i)
    ensures var name := if n == 0 then "major" else if n == 1 then "minor" else "patch";
            var parts := Split(text, '.');
            VersionOf(text) == Err(
              if n >= |parts| then NoPart(name)
              else if parts[n] == "" then BadPart(name, "part is empty")
              else if !AllDigits(parts[n]) then BadPart(name, "part is not decimal digits")
              else if |parts[n]| > 1 && parts[n][0] == '0' then BadPart(name, "part has a leading zero")
              else BadPart(name, "part does not fit in 32 bits"))
  {
    hide Split, Decimal, AllDigits, NumberIn, PartOk;
    PartAtIs(text, 0, "major");
    PartAtIs(text, 1, "minor");
    PartAtIs(text, 2, "patch");
  }

  lemma PartAtIs(text: string, i: nat, name: string)
    ensures PartAt(Split(text, '.'), i, name).Ok? <==> PartOk(text, i)
    ensures PartAt(Split(text, '.'), i, name) != Err(TooManyParts)
  {
    hide Split, Decimal, AllDigits, NumberIn;
    var parts := Split(text, '.');
    if i < |parts| {
      forall v: u32 ensures ParsePart(name, parts[i]) == Ok(v) <==> parts[i] == Decimal(v) {
        PartIsPrinted(name, parts[i], v);
      }
    }
  }

  lemma TooManyExactly(text: string)
    ensures VersionOf(text) == Err(TooManyParts) <==>
            |Split(text, '.')| > 3 && PartOk(text, 0) && PartOk(text, 1) && PartOk(text, 2)
  {
    hide Split, ParsePart, PartOk, PartAt;
    PartAtIs(text, 0, "major");
    PartAtIs(text, 1, "minor");
    PartAtIs(text, 2, "patch");
  }

  function PrintVersion(v: AppVersion): string {
    Join([Decimal(v.major), Decimal(v.minor), Decimal(v.patch)], '.')
  }

  lemma PartIsPrinted(name: string, part: string, n: u32)
    ensures ParsePart(name, part) == Ok(n) <==> part == Decimal(n)
  {
    ParsesAsPrinted(part, n, U32_MAX);
  }

  /** A text parses as a version exactly when it is how that version prints. */
  lemma VersionIsPrinted(text: string, v: AppVersion)
    ensures VersionOf(text) == Ok(v) <==> text == PrintVersion(v)
  {
    hide Decimal, Join, Split, ParsePart;
    var printed := [Decimal(v.major), Decimal(v.minor), Decimal(v.patch)];
    forall i | 0 <= i < 3 ensures Without(printed[i], '.') {
      DigitsHaveNoDot([v.major, v.minor, v.patch][i]);
    }
    SplitOfJoin(printed, '.');
    JoinOfSplit(text, '.');
    var parts := Split(text, '.');
    if |parts| == 3 {
      PartIsPrinted("major", parts[0], v.major);
      PartIsPrinted("minor", parts[1], v.minor);
      PartIsPrinted("patch", parts[2], v.patch);
      assert parts == [parts[0], parts[1], parts[2]];
    }
  }

  lemma DigitsHaveNoDot(n: nat)
    ensures Without(Decimal(n), '.')
  {
    DecimalIsCanonical(n);
  }

  datatype Ordering = Less | Equal | Greater

  function CompareNumbers(a: nat, b: nat): Ordering {
    if a < b then Less else if a == b then Equal else Greater
  }

  /** Part by part, the first difference decides. */
  function Compare(a: AppVersion, b: AppVersion): Ordering {
    if a.major != b.major then CompareNumbers(a.major, b.major)
    else if a.minor != b.minor then CompareNumbers(a.minor, b.minor)
    else CompareNumbers(a.patch, b.patch)
  }

  /** A version as one number, a digit in base 2^32 for each part. */
  function Rank(v: AppVersion): nat {
    var (major: nat, minor: nat) := (v.major, v.minor);
    (major * 0x1_0000_0000 + minor) * 0x1_0000_0000 + v.patch
  }

  /** The order is that of the numbers, so total; and equal means the same version. */
  lemma OrderIsOfNumbers(a: AppVersion, b: AppVersion)
    ensures Compare(a, b) == Less <==> Rank(a) < Rank(b)
    ensures Compare(a, b) == Greater <==> Rank(a) > Rank(b)
    ensures Compare(a, b) == Equal <==> a == b
  {
  }
}
