/** String operations used by the reader, each modelling one library call
    of the source on its specific arguments: the two `re.sub` patterns and
    the `re.search` of `_read_design` / `_read_motreg`, `str.lower`,
    `os.path.split` and the `_read_` prefix handling of `read_all`.
    Regular expressions are compiled without `re.UNICODE`, so `\s` is ASCII
    whitespace and case-insensitive matching folds ASCII letters only. */
module Text {
  import opened Values

  // ---------------------------------------------------------------------
  // Characters

  predicate IsUpper(c: char) { 'A' <= c <= 'Z' }

  /** ASCII lower-casing of one character. */
  function LowerChar(c: char): (r: char)
    ensures !IsUpper(r)
    ensures !IsUpper(c) ==> r == c
    ensures IsUpper(c) ==> r as int == c as int + 32
  {
    if IsUpper(c) then (c as int + 32) as char else c
  }

  /** `\s` without `re.UNICODE`: space, tab, newline, carriage return,
      form feed and vertical tab. */
  predicate IsSpace(c: char)
  {
    c == ' ' || c == '\t' || c == '\n' || c == '\r' || c == '\U{0C}' || c == '\U{0B}'
  }

  /** `s.lower()` (ASCII letters). */
  function ToLower(s: string): (r: string)
    ensures |r| == |s|
    ensures forall i :: 0 <= i < |s| ==> r[i] == LowerChar(s[i])
  {
    seq(|s|, i requires 0 <= i < |s| => LowerChar(s[i]))
  }

  /** Lower-casing leaves no upper-case letter, changes nothing else, and
      doing it twice is doing it once. */
  lemma ToLowerProperties(s: string)
    ensures forall i :: 0 <= i < |s| ==> !IsUpper(ToLower(s)[i])
    ensures forall i :: 0 <= i < |s| && !IsUpper(s[i]) ==> ToLower(s)[i] == s[i]
    ensures ToLower(ToLower(s)) == ToLower(s)
  {
  }

  predicate StartsWith(s: string, p: string)
  {
    |p| <= |s| && s[..|p|] == p
  }

  // ---------------------------------------------------------------------
  // re.search(pattern, s, re.I) for a literal lower-case pattern

  /** Whether the window of `s` at `i` lower-cases to `p`. */
  predicate MatchesAt(s: string, p: string, i: int)
  {
    0 <= i && i + |p| <= |s| && ToLower(s[i..i + |p|]) == p
  }

  /** Whether the non-empty pattern `p` occurs in `s` ignoring ASCII case,
      scanning from the left as `re.search` does. */
  predicate ContainsCI(s: string, p: string)
    requires |p| > 0
    ensures ContainsCI(s, p) ==> |p| <= |s|
    decreases |s|
  {
    if |s| < |p| then false
    else ToLower(s[..|p|]) == p || ContainsCI(s[1..], p)
  }

  lemma MatchesAtShift(s: string, p: string, i: int)
    requires s != [] && i >= 0
    ensures MatchesAt(s[1..], p, i) <==> MatchesAt(s, p, i + 1)
  {
    if 0 <= i && i + |p| <= |s| - 1 {
      assert s[1..][i..i + |p|] == s[i + 1..i + 1 + |p|];
    }
  }

  /** The scan finds `p` exactly when some window of `s` lower-cases to it. */
  lemma {:induction false} ContainsCIIff(s: string, p: string)
    requires |p| > 0
    ensures ContainsCI(s, p) <==> exists i :: MatchesAt(s, p, i)
    decreases |s|
  {
    if |s| >= |p| {
      assert s[0..|p|] == s[..|p|];
      ContainsCIIff(s[1..], p);
      if ToLower(s[..|p|]) == p {
        assert MatchesAt(s, p, 0);
      }
      if ContainsCI(s[1..], p) {
        var i :| MatchesAt(s[1..], p, i);
        MatchesAtShift(s, p, i);
      }
      if exists i :: MatchesAt(s, p, i) {
        var i :| MatchesAt(s, p, i);
        if i > 0 {
          MatchesAtShift(s, p, i - 1);
        }
      }
    } else {
      assert forall i :: !MatchesAt(s, p, i);
    }
  }

  /** A pattern whose first two letters never stand next to each other in
      `s` (ignoring case) does not occur in `s`. */
  lemma {:induction false} NotContainsCI(s: string, p: string)
    requires |p| >= 2
    requires forall i :: 0 <= i < |s| - 1 ==> !(LowerChar(s[i]) == p[0] && LowerChar(s[i + 1]) == p[1])
    ensures !ContainsCI(s, p)
    decreases |s|
  {
    if |s| >= |p| {
      assert ToLower(s[..|p|])[0] == LowerChar(s[0]);
      assert ToLower(s[..|p|])[1] == LowerChar(s[1]);
      forall i | 0 <= i < |s[1..]| - 1
        ensures !(LowerChar(s[1..][i]) == p[0] && LowerChar(s[1..][i + 1]) == p[1])
      {
        assert s[1..][i] == s[i + 1] && s[1..][i + 1] == s[i + 2];
      }
      NotContainsCI(s[1..], p);
    }
  }

  /** A string shorter than the pattern never contains it; in particular a
      one-character string contains none of `pitch`, `roll`, `yaw`. */
  lemma ContainsCIShort(s: string, p: string)
    requires |s| < |p|
    ensures !ContainsCI(s, p)
  {
  }

  // ---------------------------------------------------------------------
  // re.sub('\s*{.*?}', '', s)

  /** The end of the run of whitespace starting at `i`. */
  function SpaceEnd(s: string, i: nat): (j: nat)
    requires i <= |s|
    ensures i <= j <= |s|
    ensures forall k :: i <= k < j ==> IsSpace(s[k])
    ensures j < |s| ==> !IsSpace(s[j])
    decreases |s| - i
  {
    if i < |s| && IsSpace(s[i]) then SpaceEnd(s, i + 1) else i
  }

  /** The first `}` at or after `i`, provided no newline comes before it
      (`.` does not match a newline). */
  function CloseBrace(s: string, i: nat): (r: Option<nat>)
    requires i <= |s|
    ensures r.Some? ==> i <= r.value < |s| && s[r.value] == '}'
    ensures r.Some? ==> forall m :: i <= m < r.value ==> s[m] != '}' && s[m] != '\n'
    ensures r.None? ==> forall j :: i <= j < |s| && s[j] == '}' ==> exists k :: i <= k < j && s[k] == '\n'
    decreases |s| - i
  {
    if i == |s| then None
    else if s[i] == '}' then Some(i)
    else if s[i] == '\n' then None
    else CloseBrace(s, i + 1)
  }

  /** The length of the match of `\s*{.*?}` at the start of `s`, if any. */
  function AnnotationAt(s: string): (r: Option<nat>)
    ensures r.Some? ==> 2 <= r.value <= |s|
  {
    var j := SpaceEnd(s, 0);
    if j < |s| && s[j] == '{' then
      match CloseBrace(s, j + 1)
      case Some(k) => Some(k + 1)
      case None => None
    else None
  }

  /** `re.sub('\s*{.*?}', '', s)`: every annotation in braces, with the
      whitespace before it, is removed, left to right. */
  function StripAnnotations(s: string): (r: string)
    ensures |r| <= |s|
    decreases |s|
  {
    if s == [] then []
    else
      match AnnotationAt(s)
      case Some(n) => StripAnnotations(s[n..])
      case None => [s[0]] + StripAnnotations(s[1..])
  }

  /** Text without an opening brace is left unchanged. */
  lemma {:induction false} StripAnnotationsNoBrace(s: string)
    requires forall i :: 0 <= i < |s| ==> s[i] != '{'
    ensures StripAnnotations(s) == s
    decreases |s|
  {
    if s != [] {
      var j := SpaceEnd(s, 0);
      assert AnnotationAt(s).None?;
      StripAnnotationsNoBrace(s[1..]);
    }
  }

  lemma {:induction false} CloseBraceFinds(s: string, i: nat, k: nat)
    requires i <= k < |s| && s[k] == '}'
    requires forall m :: i <= m < k ==> s[m] != '}' && s[m] != '\n'
    ensures CloseBrace(s, i) == Some(k)
    decreases k - i
  {
    if i < k {
      CloseBraceFinds(s, i + 1, k);
    }
  }

  /** An annotation at the very start is matched whole. */
  lemma AnnotationAtStart(w: string, body: string, q: string)
    requires forall i :: 0 <= i < |w| ==> IsSpace(w[i])
    requires forall i :: 0 <= i < |body| ==> body[i] != '}' && body[i] != '\n'
    ensures AnnotationAt(w + "{" + body + "}" + q) == Some(|w| + |body| + 2)
  {
    var s := w + "{" + body + "}" + q;
    assert s[|w|] == '{';
    assert forall k :: 0 <= k < |w| ==> s[k] == w[k];
    assert SpaceEnd(s, 0) == |w|;
    forall m | |w| + 1 <= m < |w| + 1 + |body|
      ensures s[m] != '}' && s[m] != '\n'
    {
      assert s[m] == body[m - |w| - 1];
    }
    CloseBraceFinds(s, |w| + 1, |w| + 1 + |body|);
  }

  /** No annotation starts inside brace-free text that does not end in
      whitespace. */
  lemma NoAnnotationAt(p: string, rest: string)
    requires p != []
    requires forall i :: 0 <= i < |p| ==> p[i] != '{'
    requires !IsSpace(p[|p| - 1])
    ensures AnnotationAt(p + rest).None?
  {
    var s := p + rest;
    var j := SpaceEnd(s, 0);
    assert s[|p| - 1] == p[|p| - 1];
    assert j < |p|;
    assert s[j] == p[j];
  }

  /** An annotation at the very start is removed with its leading
      whitespace, and stripping goes on after it. */
  lemma StripAnnotationsAtStart(w: string, body: string, q: string)
    requires forall i :: 0 <= i < |w| ==> IsSpace(w[i])
    requires forall i :: 0 <= i < |body| ==> body[i] != '}' && body[i] != '\n'
    ensures StripAnnotations(w + "{" + body + "}" + q) == StripAnnotations(q)
  {
    var s := w + "{" + body + "}" + q;
    AnnotationAtStart(w, body, q);
    assert s[|w| + |body| + 2..] == q;
  }

  /** Where no annotation starts, the first character is kept. */
  lemma StripAnnotationsKeeps(s: string)
    requires s != [] && AnnotationAt(s).None?
    ensures StripAnnotations(s) == [s[0]] + StripAnnotations(s[1..])
  {
  }

  /** Brace-free text that does not end in whitespace is kept whole in
      front of whatever follows it. */
  lemma {:induction false} StripAnnotationsPrefix(p: string, rest: string)
    requires forall i :: 0 <= i < |p| ==> p[i] != '{'
    requires p != [] ==> !IsSpace(p[|p| - 1])
    ensures StripAnnotations(p + rest) == p + StripAnnotations(rest)
    decreases |p|
  {
    if p == [] {
      assert p + rest == rest;
    } else {
      StripAnnotationsPrefixStep(p, rest);
      var t := p[1..];
      assert forall i :: 0 <= i < |t| ==> t[i] == p[i + 1];
      StripAnnotationsPrefix(t, rest);
      ConsAppend(p, StripAnnotations(rest));
    }
  }

  /** One step of `StripAnnotationsPrefix`: the first character of `p` is
      kept. */
  lemma StripAnnotationsPrefixStep(p: string, rest: string)
    requires p != []
    requires forall i :: 0 <= i < |p| ==> p[i] != '{'
    requires !IsSpace(p[|p| - 1])
    ensures StripAnnotations(p + rest) == [p[0]] + StripAnnotations(p[1..] + rest)
  {
    var s := p + rest;
    NoAnnotationAt(p, rest);
    StripAnnotationsKeeps(s);
    assert s[1..] == p[1..] + rest;
  }

  lemma ConsAppend(p: string, t: string)
    requires p != []
    ensures [p[0]] + (p[1..] + t) == p + t
  {
    assert [p[0]] + p[1..] == p;
  }

  /** One annotation `w{body}` after brace-free text `p` is removed together
      with its leading whitespace `w`, and stripping goes on after it. */
  lemma StripAnnotationsRemoves(p: string, w: string, body: string, q: string)
    requires forall i :: 0 <= i < |p| ==> p[i] != '{'
    requires p != [] ==> !IsSpace(p[|p| - 1])
    requires forall i :: 0 <= i < |w| ==> IsSpace(w[i])
    requires forall i :: 0 <= i < |body| ==> body[i] != '}' && body[i] != '\n'
    ensures StripAnnotations(p + w + "{" + body + "}" + q) == p + StripAnnotations(q)
  {
    var rest := w + "{" + body + "}" + q;
    assert p + w + "{" + body + "}" + q == p + rest;
    StripAnnotationsPrefix(p, rest);
    StripAnnotationsAtStart(w, body, q);
  }

  // ---------------------------------------------------------------------
  // re.sub('cutoff:\s*', '', s, flags=re.I)

  /** Whether `s` starts with `cutoff:` in any letter case. */
  predicate LabelAt(s: string)
  {
    |s| >= 7 && ToLower(s[..7]) == "cutoff:"
  }

  /** `re.sub('cutoff:\s*', '', s, flags=re.I)`: every `cutoff:` label, in
      any letter case, is removed together with the whitespace after it. */
  function RemoveCutoff(s: string): (r: string)
    ensures |r| <= |s|
    decreases |s|
  {
    if s == [] then []
    else if LabelAt(s) then RemoveCutoff(s[SpaceEnd(s, 7)..])
    else [s[0]] + RemoveCutoff(s[1..])
  }

  /** Text in which no position starts a label is left unchanged. */
  lemma {:induction false} RemoveCutoffNoLabel(s: string)
    requires forall i :: 0 <= i < |s| ==> !LabelAt(s[i..])
    ensures RemoveCutoff(s) == s
    decreases |s|
  {
    if s != [] {
      assert s[0..] == s;
      forall i | 0 <= i < |s[1..]| ensures !LabelAt(s[1..][i..]) {
        assert s[1..][i..] == s[i + 1..];
      }
      RemoveCutoffNoLabel(s[1..]);
    }
  }

  /** The whitespace run after `x` is exactly `w` when what follows `w`
      does not start with whitespace. */
  lemma SpaceEndAfter(x: string, w: string, q: string)
    requires forall i :: 0 <= i < |w| ==> IsSpace(w[i])
    requires q != [] ==> !IsSpace(q[0])
    ensures SpaceEnd(x + w + q, |x|) == |x| + |w|
  {
    var s := x + w + q;
    var j := SpaceEnd(s, |x|);
    forall k | |x| <= k < |x| + |w| ensures IsSpace(s[k]) {
      assert s[k] == w[k - |x|];
    }
    if q != [] {
      assert s[|x| + |w|] == q[0];
    }
  }

  /** A leading label and the whitespace after it are removed. */
  lemma RemoveCutoffLeading(lbl: string, w: string, q: string)
    requires |lbl| == 7 && ToLower(lbl) == "cutoff:"
    requires forall i :: 0 <= i < |w| ==> IsSpace(w[i])
    requires q != [] ==> !IsSpace(q[0])
    ensures RemoveCutoff(lbl + w + q) == RemoveCutoff(q)
  {
    var s := lbl + w + q;
    assert s[..7] == lbl;
    assert LabelAt(s);
    SpaceEndAfter(lbl, w, q);
    assert s[7 + |w|..] == q;
  }

  /** Text in which no label starts is kept whole in front of what the
      substitution makes of the rest. */
  lemma {:induction false} RemoveCutoffPrefix(p: string, q: string)
    requires forall i :: 0 <= i < |p| ==> !LabelAt((p + q)[i..])
    ensures RemoveCutoff(p + q) == p + RemoveCutoff(q)
    decreases |p|
  {
    if p == [] {
      assert p + q == q;
    } else {
      var s := p + q;
      assert s[0..] == s;
      assert s[1..] == p[1..] + q;
      forall i | 0 <= i < |p[1..]| ensures !LabelAt((p[1..] + q)[i..]) {
        assert (p[1..] + q)[i..] == s[i + 1..];
      }
      RemoveCutoffPrefix(p[1..], q);
      ConsAppend(p, RemoveCutoff(q));
    }
  }

  /** A label after text in which no label starts is removed with the
      whitespace after it, and substitution goes on after that. */
  lemma RemoveCutoffRemoves(p: string, lbl: string, w: string, q: string)
    requires forall i :: 0 <= i < |p| ==> !LabelAt((p + (lbl + w + q))[i..])
    requires |lbl| == 7 && ToLower(lbl) == "cutoff:"
    requires forall i :: 0 <= i < |w| ==> IsSpace(w[i])
    requires q != [] ==> !IsSpace(q[0])
    ensures RemoveCutoff(p + lbl + w + q) == p + RemoveCutoff(q)
  {
    assert p + lbl + w + q == p + (lbl + w + q);
    RemoveCutoffPrefix(p, lbl + w + q);
    RemoveCutoffLeading(lbl, w, q);
  }

  // ---------------------------------------------------------------------
  // re.sub('_read_', '', name)

  /** Every occurrence of the non-empty literal `p` removed from `s`, left
      to right. */
  function RemoveAll(s: string, p: string): (r: string)
    requires |p| > 0
    ensures |r| <= |s|
    decreases |s|
  {
    if |s| < |p| then s
    else if s[..|p|] == p then RemoveAll(s[|p|..], p)
    else [s[0]] + RemoveAll(s[1..], p)
  }

  /** Whether `p` occurs in `s` at `i`. */
  predicate OccursAt(s: string, p: string, i: int)
  {
    0 <= i && i + |p| <= |s| && s[i..i + |p|] == p
  }

  /** Text in which `p` does not occur is left unchanged. */
  lemma {:induction false} RemoveAllAbsent(s: string, p: string)
    requires |p| > 0
    requires forall i :: !OccursAt(s, p, i)
    ensures RemoveAll(s, p) == s
    decreases |s|
  {
    if |s| >= |p| {
      assert s[0..|p|] == s[..|p|];
      assert !OccursAt(s, p, 0);
      forall i ensures !OccursAt(s[1..], p, i) {
        if 0 <= i && i + |p| <= |s[1..]| {
          assert s[1..][i..i + |p|] == s[i + 1..i + 1 + |p|];
          assert !OccursAt(s, p, i + 1);
        }
      }
      RemoveAllAbsent(s[1..], p);
      assert [s[0]] + s[1..] == s;
    }
  }

  /** Removing a prefix `p` from `p + x` where `p` does not occur in `x`
      leaves exactly `x`. */
  lemma RemoveAllPrefix(p: string, x: string)
    requires |p| > 0
    requires forall i :: !OccursAt(x, p, i)
    ensures RemoveAll(p + x, p) == x
  {
    assert (p + x)[..|p|] == p;
    assert (p + x)[|p|..] == x;
    RemoveAllAbsent(x, p);
  }

  // ---------------------------------------------------------------------
  // Ordering of method names (inspect.getmembers sorts by name)

  /** Python's string order: lexicographic by code point. */
  predicate LexLess(a: string, b: string)
    ensures LexLess(a, b) ==> a != b
    decreases |a|
  {
    if a == [] then b != []
    else b != [] && (a[0] < b[0] || (a[0] == b[0] && LexLess(a[1..], b[1..])))
  }

  /** The order is asymmetric: no two names are each less than the other. */
  lemma {:induction false} LexLessAsymmetric(a: string, b: string)
    requires LexLess(a, b)
    ensures !LexLess(b, a)
    decreases |a|
  {
    if a != [] && b != [] && a[0] == b[0] {
      LexLessAsymmetric(a[1..], b[1..]);
    }
  }

  /** Two strings that agree up to position `k` are ordered by the
      characters at `k`, and a proper prefix comes first. */
  lemma {:induction false} LexLessAt(a: string, b: string, k: nat)
    requires k <= |a| && k < |b| && a[..k] == b[..k]
    requires k == |a| || a[k] < b[k]
    ensures LexLess(a, b)
    decreases k
  {
    if k > 0 {
      assert a[1..][..k - 1] == a[..k][1..];
      assert b[1..][..k - 1] == b[..k][1..];
      assert a[0] == a[..k][0];
      assert b[0] == b[..k][0];
      LexLessAt(a[1..], b[1..], k - 1);
    }
  }

  // ---------------------------------------------------------------------
  // os.path.split(fname)[0]

  /** The index of the last `/`, or -1. */
  function LastSlash(p: string): (r: int)
    ensures -1 <= r < |p|
    ensures r >= 0 ==> p[r] == '/'
    ensures forall k :: r < k < |p| ==> p[k] != '/'
    decreases |p|
  {
    if p == [] then -1
    else if p[|p| - 1] == '/' then |p| - 1
    else LastSlash(p[..|p| - 1])
  }

  predicate AllSlashes(h: string)
  {
    forall i :: 0 <= i < |h| ==> h[i] == '/'
  }

  /** `h.rstrip('/')`: the head with its trailing slashes removed, and
      nothing else. */
  function StripTrailingSlashes(h: string): (r: string)
    ensures |r| <= |h| && r == h[..|r|]
    ensures r != [] ==> r[|r| - 1] != '/'
    ensures forall i :: |r| <= i < |h| ==> h[i] == '/'
    decreases |h|
  {
    if h != [] && h[|h| - 1] == '/' then StripTrailingSlashes(h[..|h| - 1]) else h
  }

  /** The head of `os.path.split(p)`: everything up to the last `/`, with
      trailing slashes removed unless the head is nothing but slashes. */
  function DirName(p: string): (r: string)
    ensures |r| <= |p| && r == p[..|r|]
  {
    var head := p[..LastSlash(p) + 1];
    if head != [] && !AllSlashes(head) then StripTrailingSlashes(head) else head
  }

  /** A path without a slash has an empty directory part. */
  lemma DirNameNoSlash(p: string)
    requires forall i :: 0 <= i < |p| ==> p[i] != '/'
    ensures DirName(p) == ""
  {
  }

  /** The directory part of `d/b` is `d`, for a file name `b` and a
      directory `d` that does not end in a slash. */
  lemma DirNameJoin(d: string, b: string)
    requires d != [] && d[|d| - 1] != '/'
    requires forall i :: 0 <= i < |b| ==> b[i] != '/'
    ensures DirName(d + "/" + b) == d
  {
    var p := d + "/" + b;
    assert p[|d|] == '/';
    var l := LastSlash(p);
    assert l == |d|;
    var head := p[..|d| + 1];
    assert head == d + "/";
    assert head[|d| - 1] != '/';
    assert !AllSlashes(head);
    assert head[..|d|] == d;
    assert StripTrailingSlashes(head) == StripTrailingSlashes(d);
  }

  /** The directory part of `d//b`, with any run of slashes before the
      file name, is still `d`. */
  lemma DirNameJoinSlashes(d: string, sl: string, b: string)
    requires d != [] && d[|d| - 1] != '/'
    requires sl != [] && AllSlashes(sl)
    requires forall i :: 0 <= i < |b| ==> b[i] != '/'
    ensures DirName(d + sl + b) == d
  {
    var p := d + sl + b;
    var n := |d| + |sl|;
    assert p[n - 1] == sl[|sl| - 1] == '/';
    assert LastSlash(p) == n - 1;
    var head := p[..n];
    assert head == d + sl;
    assert head[|d| - 1] != '/';
    assert !AllSlashes(head);
    var r := StripTrailingSlashes(head);
    assert r == head[..|d|] == d;
  }
}
