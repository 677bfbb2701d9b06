/**
  The bundle-name scanner and the allowed-apps normalisation of the JS binding.

  A name is judged by one left-to-right pass; the grammar it implements is stated
  on the list of segments between dots. The allowed-apps list is brought to one
  canonical form: sorted, without duplicates, the caller once and last.
*/
module BundleNames {
  import opened Types

  const MAX_ALLOWED_APPS_COUNT: nat := 20
  const MAX_BUNDLENAME_ACC_LENGTH: nat := 2048
  const BUNDLE_MAX_DOT_NUM: nat := 2

  // ----- Segments -----

  predicate IsAlpha(c: char) {
    'a' <= c <= 'z' || 'A' <= c <= 'Z'
  }

  predicate IsNameChar(c: char) {
    IsAlpha(c) || '0' <= c <= '9' || c == '_'
  }

  function Last<T>(s: seq<T>): T
    requires s != []
  {
    s[|s| - 1]
  }

  function Front<T>(s: seq<T>): seq<T>
    requires s != []
  {
    s[..|s| - 1]
  }

  /** The segments of s between dots; always at least one. */
  function Split(s: string): (parts: seq<string>)
    ensures parts != []
  {
    if s == "" then [""]
    else
      var parts := Split(Front(s));
      if Last(s) == '.' then parts + [""] else Front(parts) + [Last(parts) + [Last(s)]]
  }

  function Join(parts: seq<string>): string
    requires parts != []
  {
    if |parts| == 1 then parts[0] else Join(Front(parts)) + "." + Last(parts)
  }

  predicate Dotless(parts: seq<string>) {
    forall i :: 0 <= i < |parts| ==> '.' !in parts[i]
  }

  predicate Segment(p: string) {
    p != "" && forall c :: c in p ==> IsNameChar(c)
  }

  /** The grammar: at least three segments of letters, digits and '_', the first
      character a letter, the last one not '_'. */
  predicate ValidParts(parts: seq<string>) {
    && |parts| >= 3
    && (forall i :: 0 <= i < |parts| ==> Segment(parts[i]))
    && IsAlpha(parts[0][0])
    && Last(Last(parts)) != '_'
  }

  lemma JoinLastLonger(parts: seq<string>, w: string)
    requires parts != []
    ensures Join(Front(parts) + [Last(parts) + w]) == Join(parts) + w
  {}

  lemma {:induction false} SplitThenJoin(s: string)
    ensures Join(Split(s)) == s
  {
    if s != "" {
      SplitThenJoin(Front(s));
      var parts := Split(Front(s));
      assert s == Front(s) + [Last(s)];
      if Last(s) == '.' {
        assert Front(parts + [""]) == parts;
      } else {
        JoinLastLonger(parts, [Last(s)]);
      }
    }
  }

  lemma SplitLetter(s: string, c: char)
    requires c != '.'
    ensures Split(s + [c]) == Front(Split(s)) + [Last(Split(s)) + [c]]
  {
    assert Front(s + [c]) == s;
  }

  /** Appending a dotless word only lengthens the last segment. */
  lemma {:induction false} SplitAppend(s: string, w: string)
    requires '.' !in w
    ensures Split(s + w) == Front(Split(s)) + [Last(Split(s)) + w]
  {
    var parts, last := Split(s), Last(Split(s));
    if w == "" {
      assert s + w == s && last + w == last;
    } else {
      var shorter := s + Front(w);
      SplitAppend(s, Front(w));
      assert Front(Split(shorter)) == Front(parts) && Last(Split(shorter)) == last + Front(w);
      SplitLetter(shorter, Last(w));
      WordAppend(s, w);
      WordAppend(last, w);
    }
  }

  lemma WordAppend(s: string, w: string)
    requires w != ""
    ensures s + Front(w) + [Last(w)] == s + w
  {
    assert w == Front(w) + [Last(w)];
  }

  /** Appending a dot and a dotless word adds one segment. */
  lemma SplitAppendSegment(s: string, w: string)
    requires '.' !in w
    ensures Split(s + "." + w) == Split(s) + [w]
  {
    assert Front(s + ".") == s;
    assert Split(s + ".") == Split(s) + [""];
    SplitAppend(s + ".", w);
    assert Front(Split(s) + [""]) == Split(s);
    assert "" + w == w;
  }

  lemma {:induction false} JoinThenSplit(parts: seq<string>)
    requires parts != [] && Dotless(parts)
    ensures Split(Join(parts)) == parts
  {
    if |parts| == 1 {
      SplitAppend("", parts[0]);
      assert "" + parts[0] == parts[0];
    } else {
      JoinThenSplit(Front(parts));
      SplitAppendSegment(Join(Front(parts)), Last(parts));
      assert Join(parts) == Join(Front(parts)) + "." + Last(parts);
    }
  }

  /** A name is accepted exactly when it is some valid list of segments joined by dots. */
  lemma GrammarIsJoinOfSegments(name: string)
    ensures ValidParts(Split(name)) <==> exists parts :: ValidParts(parts) && Join(parts) == name
  {
    SplitThenJoin(name);
    forall parts | ValidParts(parts) && Join(parts) == name
      ensures ValidParts(Split(name))
    {
      forall i | 0 <= i < |parts| ensures '.' !in parts[i] {
        assert Segment(parts[i]);
      }
      JoinThenSplit(parts);
    }
  }

  lemma {:induction false} FirstCharacter(s: string)
    requires s != "" && s[0] != '.'
    ensures Split(s)[0] != "" && Split(s)[0][0] == s[0]
  {
    if |s| > 1 {
      FirstCharacter(Front(s));
    } else {
      assert Front(s) == "" && Split(Front(s)) == [""];
    }
  }

  lemma LastCharacter(s: string)
    requires s != "" && Last(s) != '.'
    ensures Last(Split(s)) != "" && Last(Last(Split(s))) == Last(s)
  {}

  /** A character that belongs to no name spoils some segment, whatever follows it. */
  lemma {:induction false} BadCharacterStays(s: string, k: nat)
    requires k < |s| && s[k] != '.' && !IsNameChar(s[k])
    ensures !ValidParts(Split(s))
  {
    SplitThenJoin(s);
    CharacterInSegment(Split(s), k);
  }

  lemma {:induction false} CharacterInSegment(parts: seq<string>, k: nat)
    requires parts != [] && k < |Join(parts)| && Join(parts)[k] != '.'
    ensures exists i :: 0 <= i < |parts| && Join(parts)[k] in parts[i]
  {
    if |parts| == 1 {
    } else {
      var front := Join(Front(parts));
      if k < |front| {
        CharacterInSegment(Front(parts), k);
        var i :| 0 <= i < |Front(parts)| && front[k] in Front(parts)[i];
        assert Join(parts)[k] in parts[i];
      } else {
        assert Join(parts)[k] == Last(parts)[k - |front| - 1];
        assert Join(parts)[k] in parts[|parts| - 1];
      }
    }
  }

  /** Once two dots touch (or the name starts with one) some segment stays empty. */
  lemma {:induction false} EmptySegmentStays(s: string, n: nat)
    requires n < |s| && s[n] == '.' && Last(Split(s[..n])) == ""
    ensures exists i :: 0 <= i < |Split(s)| - 1 && Split(s)[i] == ""
  {
    if |s| == n + 1 {
      assert Front(s) == s[..n];
      assert Split(s)[|Split(s)| - 2] == "";
    } else {
      assert Front(s)[..n] == s[..n];
      EmptySegmentStays(Front(s), n);
      var i :| 0 <= i < |Split(Front(s))| - 1 && Split(Front(s))[i] == "";
      assert Split(s)[i] == "";
    }
  }

  lemma SplitNext(s: string, n: nat)
    requires n < |s|
    ensures
      var parts := Split(s[..n]);
      Split(s[..n + 1]) == if s[n] == '.' then parts + [""] else Front(parts) + [Last(parts) + [s[n]]]
  {
    assert Front(s[..n + 1]) == s[..n] && Last(s[..n + 1]) == s[n];
  }

  lemma BadStart(name: string)
    requires name != "" && !IsAlpha(name[0])
    ensures !ValidParts(Split(name))
  {
    if name[0] == '.' {
      EmptySegmentStays(name, 0);
    } else {
      FirstCharacter(name);
    }
  }

  /** What the two loop variables say about the segments of the prefix read. */
  ghost predicate Scanned(prefix: string, dotNum: int, lastWasDot: bool) {
    var parts := Split(prefix);
    && dotNum == |parts| - 1
    && (lastWasDot <==> Last(parts) == "")
    && (forall k :: 0 <= k < dotNum ==> Segment(parts[k]))
    && (lastWasDot || Segment(Last(parts)))
  }

  lemma ScanDot(name: string, i: nat, dotNum: int)
    requires i < |name| && name[i] == '.' && Scanned(name[..i], dotNum, false)
    ensures Scanned(name[..i + 1], dotNum + 1, true)
  {
    SplitNext(name, i);
  }

  lemma ScanNameChar(name: string, i: nat, dotNum: int, lastWasDot: bool)
    requires i < |name| && IsNameChar(name[i]) && Scanned(name[..i], dotNum, lastWasDot)
    ensures Scanned(name[..i + 1], dotNum, false)
  {
    SplitNext(name, i);
    var parts := Split(name[..i]);
    assert Segment(Last(parts) + [name[i]]);
    assert forall k :: 0 <= k < dotNum ==> (Front(parts) + [Last(parts) + [name[i]]])[k] == parts[k];
  }

  /** The end of the scan: the segments of the whole name are known to be legal. */
  lemma ScanVerdict(name: string, dotNum: int, lastWasDot: bool)
    requires name != "" && IsAlpha(name[0]) && Scanned(name, dotNum, lastWasDot)
    ensures ValidParts(Split(name)) <==> !(dotNum < BUNDLE_MAX_DOT_NUM || lastWasDot || Last(name) == '_')
  {
    FirstCharacter(name);
    if Last(name) != '.' {
      LastCharacter(name);
    }
  }

  method IsValidBundleName(name: string) returns (ok: bool)
    ensures ok <==> ValidParts(Split(name))
  {
    if name == "" {
      return false;
    }
    if !IsAlpha(name[0]) {
      BadStart(name);
      return false;
    }
    var dotNum := 0;
    var lastWasDot := true;
    var i := 0;
    while i < |name|
      invariant 0 <= i <= |name|
      invariant Scanned(name[..i], dotNum, lastWasDot)
    {
      var c := name[i];
      if c == '.' {
        if lastWasDot {
          EmptySegmentStays(name, i);
          return false;
        }
        ScanDot(name, i, dotNum);
        dotNum := dotNum + 1;
        lastWasDot := true;
      } else if IsNameChar(c) {
        ScanNameChar(name, i, dotNum, lastWasDot);
        lastWasDot := false;
      } else {
        BadCharacterStays(name, i);
        return false;
      }
      i := i + 1;
    }
    assert name[..i] == name;
    ScanVerdict(name, dotNum, lastWasDot);
    return !(dotNum < BUNDLE_MAX_DOT_NUM || lastWasDot || Last(name) == '_');
  }

  // ----- Canonical allowed-apps list -----

  /** The byte-wise order of the ordered set the list is built from. */
  predicate Less(a: string, b: string) {
    if a == "" then b != ""
    else if b == "" then false
    else a[0] < b[0] || (a[0] == b[0] && Less(a[1..], b[1..]))
  }

  lemma {:induction false} LessIsTotal(a: string, b: string)
    ensures Less(a, b) || Less(b, a) || a == b
  {
    if a != "" && b != "" && a[0] == b[0] {
      LessIsTotal(a[1..], b[1..]);
      assert a == [a[0]] + a[1..] && b == [b[0]] + b[1..];
    }
  }

  lemma {:induction false} LessIsTransitive(a: string, b: string, c: string)
    requires Less(a, b) && Less(b, c)
    ensures Less(a, c)
  {
    if a != "" && a[0] == b[0] && b[0] == c[0] {
      LessIsTransitive(a[1..], b[1..], c[1..]);
    }
  }

  lemma {:induction false} LessIsIrreflexive(a: string)
    ensures !Less(a, a)
  {
    if a != "" {
      LessIsIrreflexive(a[1..]);
    }
  }

  ghost predicate Sorted(xs: seq<string>) {
    forall i, j :: 0 <= i < j < |xs| ==> Less(xs[i], xs[j])
  }

  ghost predicate SameElements(xs: seq<string>, ys: seq<string>) {
    forall x :: x in xs <==> x in ys
  }

  lemma {:induction false} SortedIsUnique(xs: seq<string>, ys: seq<string>)
    requires Sorted(xs) && Sorted(ys) && SameElements(xs, ys)
    ensures xs == ys
  {
    assert xs != [] ==> xs[0] in ys;
    assert ys != [] ==> ys[0] in xs;
    if xs != [] {
      LeastElement(xs, ys);
      LeastElement(ys, xs);
      if xs[0] != ys[0] {
        LessIsTransitive(xs[0], ys[0], xs[0]);
        LessIsIrreflexive(xs[0]);
      }
      LessIsIrreflexive(xs[0]);
      assert xs[0] !in xs[1..] && ys[0] !in ys[1..];
      forall x ensures x in xs[1..] <==> x in ys[1..] {
        assert x in xs <==> x == xs[0] || x in xs[1..];
        assert x in ys <==> x == ys[0] || x in ys[1..];
      }
      SortedIsUnique(xs[1..], ys[1..]);
      assert xs == [xs[0]] + xs[1..] && ys == [ys[0]] + ys[1..];
    }
  }

  lemma LeastElement(xs: seq<string>, ys: seq<string>)
    requires Sorted(xs) && SameElements(xs, ys) && xs != [] && ys != []
    ensures xs[0] == ys[0] || Less(xs[0], ys[0])
  {
    assert ys[0] in xs;
  }

  /** Sorted and duplicate-free, then the caller once, at the end. */
  ghost predicate Canonical(apps: seq<string>, input: seq<string>, caller: string) {
    && apps != []
    && Last(apps) == caller
    && Sorted(Front(apps))
    && caller !in Front(apps)
    && SameElements(apps, input + [caller])
  }

  /** The canonical form depends only on the set of names: not on their order, not
      on duplicates, not on whether the caller already lists itself. */
  lemma CanonicalIsUnique(apps: seq<string>, input: seq<string>, apps': seq<string>, input': seq<string>, caller: string)
    requires Canonical(apps, input, caller) && Canonical(apps', input', caller)
    requires SameElements(input + [caller], input' + [caller])
    ensures apps == apps'
  {
    forall x ensures x in Front(apps) <==> x in Front(apps') {
      assert x in apps <==> x in Front(apps) || x == caller by {
        assert apps == Front(apps) + [caller];
      }
      assert x in apps' <==> x in Front(apps') || x == caller by {
        assert apps' == Front(apps') + [caller];
      }
      assert x in input + [caller] <==> x in input' + [caller];
    }
    SortedIsUnique(Front(apps), Front(apps'));
    assert apps == Front(apps) + [caller] && apps' == Front(apps') + [caller];
  }

  /** Normalising a normalised list changes nothing. */
  lemma CanonicalIsIdempotent(apps: seq<string>, input: seq<string>, again: seq<string>, caller: string)
    requires Canonical(apps, input, caller) && Canonical(again, apps, caller)
    ensures again == apps
  {
    forall x ensures x in input + [caller] <==> x in apps + [caller] {
      assert x in apps <==> x in input + [caller];
    }
    CanonicalIsUnique(apps, input, again, apps, caller);
  }

  /** Insertion into the ordered set. */
  method Insert(xs: seq<string>, x: string) returns (ys: seq<string>)
    requires Sorted(xs)
    ensures Sorted(ys)
    ensures forall y :: y in ys <==> y in xs || y == x
  {
    var i := 0;
    while i < |xs| && Less(xs[i], x)
      invariant 0 <= i <= |xs|
      invariant forall k :: 0 <= k < i ==> Less(xs[k], x)
    {
      i := i + 1;
    }
    if i < |xs| && xs[i] == x {
      return xs;
    }
    ys := xs[..i] + [x] + xs[i..];
    if i < |xs| {
      LessIsTotal(xs[i], x);
      forall k | i <= k < |xs| ensures Less(x, xs[k]) {
        if k > i {
          LessIsTransitive(x, xs[i], xs[k]);
        }
      }
    }
    forall y ensures y in ys <==> y in xs || y == x {
      assert xs == xs[..i] + xs[i..];
    }
  }

  /** The set of the requested names without the caller, then the caller appended. */
  method Normalise(input: seq<string>, caller: string) returns (apps: seq<string>)
    ensures Canonical(apps, input, caller)
  {
    var names := [];
    var i := 0;
    while i < |input|
      invariant 0 <= i <= |input|
      invariant Sorted(names) && caller !in names
      invariant forall x :: x in names <==> x in input[..i] && x != caller
    {
      assert input[..i + 1] == input[..i] + [input[i]];
      if input[i] != caller {
        names := Insert(names, input[i]);
      }
      i := i + 1;
    }
    assert input[..i] == input;
    apps := names + [caller];
    assert Front(apps) == names;
  }

  function TotalLength(apps: seq<string>): nat {
    if apps == [] then 0 else TotalLength(Front(apps)) + |Last(apps)|
  }

  lemma TotalLengthStep(apps: seq<string>, i: nat)
    requires i < |apps|
    ensures TotalLength(apps[..i + 1]) == TotalLength(apps[..i]) + |apps[i]|
  {
    assert Front(apps[..i + 1]) == apps[..i];
  }

  ghost predicate Admissible(apps: seq<string>) {
    && |apps| <= MAX_ALLOWED_APPS_COUNT
    && (forall x :: x in apps ==> ValidParts(Split(x)))
    && TotalLength(apps) <= MAX_BUNDLENAME_ACC_LENGTH
  }

  /** The limits on the number of names, on each name and on their total length. */
  method WithinLimits(apps: seq<string>) returns (ok: bool)
    ensures ok <==> Admissible(apps)
    ensures ok ==> |apps| <= 20 && TotalLength(apps) <= 2048
  {
    if |apps| > MAX_ALLOWED_APPS_COUNT {
      return false;
    }
    var accLen := 0;
    var i := 0;
    while i < |apps|
      invariant 0 <= i <= |apps|
      invariant forall x :: x in apps[..i] ==> ValidParts(Split(x))
      invariant accLen == TotalLength(apps[..i])
    {
      var valid := IsValidBundleName(apps[i]);
      if !valid {
        return false;
      }
      TotalLengthStep(apps, i);
      accLen := accLen + |apps[i]|;
      i := i + 1;
    }
    assert accLen == TotalLength(apps) by {
      assert apps[..i] == apps;
    }
    return accLen <= MAX_BUNDLENAME_ACC_LENGTH;
  }

  /** What the binding hands to the service, or None when it raises invalid-params. */
  method PrepareAllowedApps(input: seq<string>, caller: string) returns (r: Option<seq<string>>)
    ensures r.Some? ==> Canonical(r.value, input, caller) && Admissible(r.value)
    ensures r.None? ==> forall apps :: Canonical(apps, input, caller) ==> !Admissible(apps)
  {
    var apps := Normalise(input, caller);
    forall other | Canonical(other, input, caller) ensures other == apps {
      CanonicalIsUnique(other, input, apps, input, caller);
    }
    var ok := WithinLimits(apps);
    r := if ok then Some(apps) else None;
  }
}
