/**
  The parts of Go's `strings` package the monitor relies on, over `seq<char>`:
  TrimSpace (runCmd), Contains (the "error" sentinel), Split and Join (perf pairs).
 */
module Text {

  /** Go's unicode.IsSpace: the Latin-1 spaces and the other White_Space code points. */
  predicate IsSpace(c: char)
  {
    ('\t' <= c <= '\r') || c == ' ' || c == '\U{85}' || c == '\U{A0}' || c == '\U{1680}'
    || ('\U{2000}' <= c <= '\U{200A}') || c == '\U{2028}' || c == '\U{2029}'
    || c == '\U{202F}' || c == '\U{205F}' || c == '\U{3000}'
  }

  predicate AllSpace(s: string)
  {
    forall i :: 0 <= i < |s| ==> IsSpace(s[i])
  }

  /** Length of the run of white space that starts s. */
  function LeadingSpaces(s: string): (k: nat)
    ensures k <= |s|
  {
    if |s| > 0 && IsSpace(s[0]) then 1 + LeadingSpaces(s[1..]) else 0
  }

  /** Length of the run of white space that ends s. */
  function TrailingSpaces(s: string): (k: nat)
    ensures k <= |s|
  {
    if |s| > 0 && IsSpace(s[|s| - 1]) then 1 + TrailingSpaces(s[..|s| - 1]) else 0
  }

  /** LeadingSpaces counts white space only, and the whole run of it. */
  lemma {:induction false} LeadingSpacesRun(s: string)
    ensures AllSpace(s[..LeadingSpaces(s)])
    ensures LeadingSpaces(s) < |s| ==> !IsSpace(s[LeadingSpaces(s)])
  {
    if |s| > 0 && IsSpace(s[0]) {
      LeadingSpacesRun(s[1..]);
      var k := LeadingSpaces(s[1..]);
      forall i | 0 <= i < k + 1 ensures IsSpace(s[i]) {
        if i > 0 { assert s[1..][..k][i - 1] == s[i]; }
      }
      if k < |s| - 1 {
        assert s[1..][k] == s[k + 1];
      }
    }
  }

  /** TrailingSpaces counts white space only, and the whole run of it. */
  lemma {:induction false} TrailingSpacesRun(s: string)
    ensures AllSpace(s[|s| - TrailingSpaces(s)..])
    ensures TrailingSpaces(s) < |s| ==> !IsSpace(s[|s| - 1 - TrailingSpaces(s)])
  {
    if |s| > 0 && IsSpace(s[|s| - 1]) {
      var t := s[..|s| - 1];
      TrailingSpacesRun(t);
      var k := TrailingSpaces(t);
      forall i | |s| - (k + 1) <= i < |s| ensures IsSpace(s[i]) {
        if i < |s| - 1 { assert t[|t| - k..][i - (|t| - k)] == s[i]; }
      }
    }
  }

  /** r sits in s at offset i with nothing but white space around it. */
  predicate PaddedAt(s: string, r: string, i: int)
  {
    0 <= i <= |s| - |r| && AllSpace(s[..i]) && s[i..i + |r|] == r && AllSpace(s[i + |r|..])
  }

  /** Go's strings.TrimSpace: s without its leading and trailing white space. */
  function TrimSpace(s: string): string
  {
    var t := s[LeadingSpaces(s)..];
    t[..|t| - TrailingSpaces(t)]
  }

  /** A trimmed text neither starts nor ends with white space. */
  lemma TrimSpaceEnds(s: string)
    ensures var r := TrimSpace(s); r == "" || (!IsSpace(r[0]) && !IsSpace(r[|r| - 1]))
  {
    var i := LeadingSpaces(s);
    var t := s[i..];
    LeadingSpacesRun(s);
    TrailingSpacesRun(t);
    var r := TrimSpace(s);
    if r != "" {
      assert r[0] == s[i];
      assert r[|r| - 1] == t[|t| - 1 - TrailingSpaces(t)];
    }
  }

  /** What TrimSpace removes is white space only: its result sits in s between two runs of it. */
  lemma TrimSpacePadded(s: string)
    ensures exists i :: PaddedAt(s, TrimSpace(s), i)
  {
    var i := LeadingSpaces(s);
    var t := s[i..];
    LeadingSpacesRun(s);
    TrailingSpacesRun(t);
    var r := TrimSpace(s);
    assert r == t[..|t| - TrailingSpaces(t)];
    assert s[i..i + |r|] == r;
    assert s[i + |r|..] == t[|t| - TrailingSpaces(t)..];
    assert PaddedAt(s, r, i);
  }

  /** A run of white space of length i, followed by the end or a non-space, is the leading run. */
  lemma LeadingSpacesAt(s: string, i: int)
    requires 0 <= i <= |s| && AllSpace(s[..i]) && (i < |s| ==> !IsSpace(s[i]))
    ensures LeadingSpaces(s) == i
  {
    var k := LeadingSpaces(s);
    LeadingSpacesRun(s);
    assert forall j :: 0 <= j < i ==> IsSpace(s[j]) by {
      forall j | 0 <= j < i ensures IsSpace(s[j]) { assert s[..i][j] == s[j]; }
    }
    assert forall j :: 0 <= j < k ==> IsSpace(s[j]) by {
      forall j | 0 <= j < k ensures IsSpace(s[j]) { assert s[..k][j] == s[j]; }
    }
  }

  /** White space w after a text p that does not end in white space is the trailing run of p + w. */
  lemma {:induction false} TrailingSpacesAt(p: string, w: string)
    requires AllSpace(w) && (p == [] || !IsSpace(p[|p| - 1]))
    ensures TrailingSpaces(p + w) == |w|
    decreases |w|
  {
    if w != [] {
      var v := w[..|w| - 1];
      assert AllSpace(v) by {
        forall j | 0 <= j < |v| ensures IsSpace(v[j]) { assert v[j] == w[j]; }
      }
      assert (p + w)[..|p + w| - 1] == p + v;
      assert (p + w)[|p + w| - 1] == w[|w| - 1];
      TrailingSpacesAt(p, v);
    } else {
      assert p + w == p;
    }
  }

  /** The trimmed text is determined by the text alone: any non-blank-ended r padded only by white space is it. */
  lemma TrimSpaceUnique(s: string, r: string, i: int)
    requires PaddedAt(s, r, i)
    requires r == "" || (!IsSpace(r[0]) && !IsSpace(r[|r| - 1]))
    ensures TrimSpace(s) == r
  {
    if r == "" {
      assert AllSpace(s[..|s|]) by {
        forall k | 0 <= k < |s| ensures IsSpace(s[k]) {
          if k < i { assert s[..i][k] == s[k]; } else { assert s[i..][k - i] == s[k]; }
        }
      }
      LeadingSpacesAt(s, |s|);
    } else {
      assert s[i] == r[0];
      LeadingSpacesAt(s, i);
      var t := s[i..];
      assert t == r + s[i + |r|..];
      TrailingSpacesAt(r, s[i + |r|..]);
      assert TrimSpace(s) == t[..|r|];
      assert t[..|r|] == r;
    }
  }

  /** Trimming twice is trimming once. */
  lemma TrimSpaceIdempotent(s: string)
    ensures TrimSpace(TrimSpace(s)) == TrimSpace(s)
  {
    var r := TrimSpace(s);
    TrimSpaceEnds(s);
    assert PaddedAt(r, r, 0) by { assert r[..0] == [] && r[0..|r|] == r && r[|r|..] == []; }
    TrimSpaceUnique(r, r, 0);
  }

  /** White space added around a text is removed again by TrimSpace. */
  lemma TrimSpacePadding(a: string, s: string, b: string)
    requires AllSpace(a) && AllSpace(b)
    ensures TrimSpace(a + s + b) == TrimSpace(s)
  {
    var r := TrimSpace(s);
    TrimSpacePadded(s);
    TrimSpaceEnds(s);
    var i :| PaddedAt(s, r, i);
    PaddedWiden(a, s, b, r, i);
    TrimSpaceUnique(a + s + b, r, |a| + i);
  }

  lemma PaddedWiden(a: string, s: string, b: string, r: string, i: int)
    requires AllSpace(a) && AllSpace(b) && PaddedAt(s, r, i)
    ensures PaddedAt(a + s + b, r, |a| + i)
  {
    var w := a + s + b;
    var j := |a| + i;
    assert AllSpace(w[..j]) by {
      forall k | 0 <= k < j ensures IsSpace(w[..j][k]) {
        if k < |a| { assert w[..j][k] == a[k]; } else { assert w[..j][k] == s[..i][k - |a|]; }
      }
    }
    assert w[j..j + |r|] == s[i..i + |r|];
    assert AllSpace(w[j + |r|..]) by {
      var u := s[i + |r|..];
      assert w[j + |r|..] == u + b;
      forall k | 0 <= k < |u| + |b| ensures IsSpace((u + b)[k]) {
        if k < |u| { assert (u + b)[k] == u[k]; } else { assert (u + b)[k] == b[k - |u|]; }
      }
    }
  }

  /** sub occurs in s starting at index i. */
  predicate OccursAt(s: string, sub: string, i: int)
  {
    0 <= i <= |s| - |sub| && s[i..i + |sub|] == sub
  }

  /** Go's strings.Contains. */
  predicate Contains(s: string, sub: string)
  {
    |sub| <= |s| && (s[..|sub|] == sub || (|s| > 0 && Contains(s[1..], sub)))
  }

  /** Contains is the substring test: it holds exactly when sub occurs at some index of s. */
  lemma {:induction false} ContainsIffOccurs(s: string, sub: string)
    ensures Contains(s, sub) <==> exists i :: OccursAt(s, sub, i)
  {
    if |sub| <= |s| && s[..|sub|] == sub {
      assert OccursAt(s, sub, 0);
    } else if |sub| <= |s| && |s| > 0 {
      ContainsIffOccurs(s[1..], sub);
      if Contains(s[1..], sub) {
        var i :| OccursAt(s[1..], sub, i);
        assert s[1..][i..i + |sub|] == s[i + 1..i + 1 + |sub|];
        assert OccursAt(s, sub, i + 1);
      }
      if i :| OccursAt(s, sub, i) {
        assert i != 0;
        assert s[1..][i - 1..i - 1 + |sub|] == s[i..i + |sub|];
        assert OccursAt(s[1..], sub, i - 1);
      }
    }
  }

  /** Number of occurrences of c in s. */
  function Count(s: string, c: char): nat
  {
    if s == [] then 0 else (if s[0] == c then 1 else 0) + Count(s[1..], c)
  }

  /** Go's strings.Split with a one-character separator: every occurrence of sep cuts s. */
  function Split(s: string, sep: char): (parts: seq<string>)
    ensures |parts| >= 1
  {
    if s == [] then [""]
    else
      var rest := Split(s[1..], sep);
      if s[0] == sep then [""] + rest else [[s[0]] + rest[0]] + rest[1..]
  }

  /** Go's strings.Join with a one-character separator. */
  function Join(parts: seq<string>, sep: char): string
  {
    if |parts| == 0 then ""
    else if |parts| == 1 then parts[0]
    else parts[0] + [sep] + Join(parts[1..], sep)
  }

  /** Split yields one more part than there are separators, and no part holds a separator. */
  lemma {:induction false} SplitParts(s: string, sep: char)
    ensures |Split(s, sep)| == Count(s, sep) + 1
    ensures forall k :: 0 <= k < |Split(s, sep)| ==> sep !in Split(s, sep)[k]
  {
    if s != [] {
      SplitParts(s[1..], sep);
      var rest := Split(s[1..], sep);
      if s[0] != sep {
        var parts := Split(s, sep);
        forall k | 0 <= k < |parts| ensures sep !in parts[k] {
          if k == 0 { assert parts[0] == [s[0]] + rest[0]; } else { assert parts[k] == rest[k]; }
        }
      }
    }
  }

  /** Joining the parts of a split gives back the text. */
  lemma {:induction false} JoinSplit(s: string, sep: char)
    ensures Join(Split(s, sep), sep) == s
  {
    if s != [] {
      JoinSplit(s[1..], sep);
      var rest := Split(s[1..], sep);
      if s[0] == sep {
        assert Join(Split(s, sep), sep) == "" + [sep] + Join(rest, sep);
      } else if |rest| == 1 {
        assert Split(s, sep) == [[s[0]] + rest[0]];
      } else {
        var parts := Split(s, sep);
        assert parts[1..] == rest[1..];
        assert Join(parts, sep) == [s[0]] + (rest[0] + [sep] + Join(rest[1..], sep));
      }
    }
  }

  /** A text without the separator is a single part. */
  lemma {:induction false} SplitNoSeparator(s: string, sep: char)
    requires sep !in s
    ensures Split(s, sep) == [s]
  {
    if s != [] {
      assert s[0] != sep && sep !in s[1..];
      SplitNoSeparator(s[1..], sep);
      assert [s[0]] + s[1..] == s;
    }
  }

  /** Splitting at a separator splits the two sides independently. */
  lemma {:induction false} SplitAround(x: string, y: string, sep: char)
    ensures Split(x + [sep] + y, sep) == Split(x, sep) + Split(y, sep)
  {
    var s := x + [sep] + y;
    if x == [] {
      assert s[1..] == y;
    } else {
      assert s[1..] == x[1..] + [sep] + y;
      SplitAround(x[1..], y, sep);
    }
  }

  /** Splitting the join of separator-free parts gives back the parts. */
  lemma {:induction false} SplitJoin(parts: seq<string>, sep: char)
    requires |parts| >= 1
    requires forall k :: 0 <= k < |parts| ==> sep !in parts[k]
    ensures Split(Join(parts, sep), sep) == parts
  {
    SplitNoSeparator(parts[0], sep);
    if |parts| > 1 {
      SplitJoin(parts[1..], sep);
      SplitAround(parts[0], Join(parts[1..], sep), sep);
    }
  }
}
