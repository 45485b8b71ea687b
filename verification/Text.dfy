// The string operations of the Go and Python standard libraries that the model
// needs, on sequences of characters.
module Text {
  // strings.Split and str.split with a one-character separator.
  function Split(s: string, sep: char): (parts: seq<string>)
    ensures |parts| >= 1
    ensures forall k :: 0 <= k < |parts| ==> sep !in parts[k]
  {
    if s == [] then [[]]
    else
      var rest := Split(s[1..], sep);
      if s[0] == sep then [[]] + rest else [[s[0]] + rest[0]] + rest[1..]
  }

  // strings.Join and str.join.
  function Join(parts: seq<string>, sep: string): string {
    if parts == [] then []
    else if |parts| == 1 then parts[0]
    else parts[0] + sep + Join(parts[1..], sep)
  }

  lemma {:induction false} SplitWithout(s: string, sep: char)
    requires sep !in s
    ensures Split(s, sep) == [s]
  {
    if s == [] {
    } else {
      SplitWithout(s[1..], sep);
      assert [s[0]] + s[1..] == s;
    }
  }

  lemma {:induction false} SplitConcat(a: string, b: string, sep: char)
    ensures Split(a + [sep] + b, sep) == Split(a, sep) + Split(b, sep)
  {
    if a == [] {
      assert a + [sep] + b == [sep] + b;
      assert ([sep] + b)[1..] == b;
    } else {
      assert (a + [sep] + b)[1..] == a[1..] + [sep] + b;
      SplitConcat(a[1..], b, sep);
    }
  }

  lemma {:induction false} SplitJoin(parts: seq<string>, sep: char)
    requires parts != [] && forall k :: 0 <= k < |parts| ==> sep !in parts[k]
    ensures Split(Join(parts, [sep]), sep) == parts
  {
    SplitWithout(parts[0], sep);
    if |parts| > 1 {
      SplitConcat(parts[0], Join(parts[1..], [sep]), sep);
      SplitJoin(parts[1..], sep);
    }
  }

  lemma {:induction false} JoinSplit(s: string, sep: char)
    ensures Join(Split(s, sep), [sep]) == s
  {
    if s == [] {
    } else {
      JoinSplit(s[1..], sep);
      var rest := Split(s[1..], sep);
      if s[0] == sep {
        assert ([[]] + rest)[1..] == rest;
      } else {
        var parts := [[s[0]] + rest[0]] + rest[1..];
        assert parts[1..] == rest[1..];
      }
    }
  }

  // Whitespace, as str.strip, str.isspace and `\s` understand it.
  predicate IsSpace(c: char) {
    || '\t' <= c <= '\r' || ('\U{1c}' <= c <= ' ') || c == '\U{85}' || c == '\U{a0}' || c == '\U{1680}'
    || ('\U{2000}' <= c <= '\U{200a}') || c == '\U{2028}' || c == '\U{2029}' || c == '\U{202f}'
    || c == '\U{205f}' || c == '\U{3000}'
  }

  predicate IsBlank(s: string) {
    forall k :: 0 <= k < |s| ==> IsSpace(s[k])
  }

  function StripLeft(s: string): string {
    if s != [] && IsSpace(s[0]) then StripLeft(s[1..]) else s
  }

  function StripRight(s: string): string {
    if s != [] && IsSpace(s[|s| - 1]) then StripRight(s[..|s| - 1]) else s
  }

  function Strip(s: string): string {
    StripRight(StripLeft(s))
  }

  // No whitespace at either edge.
  predicate IsStripped(s: string) {
    s == [] || (!IsSpace(s[0]) && !IsSpace(s[|s| - 1]))
  }

  // The part of a string that stripping keeps.
  ghost predicate Core(s: string, l: nat, r: nat) {
    && l < r <= |s| && !IsSpace(s[l]) && !IsSpace(s[r - 1])
    && (forall k :: 0 <= k < l ==> IsSpace(s[k])) && (forall k :: r <= k < |s| ==> IsSpace(s[k]))
  }

  lemma {:induction false} Edges(s: string) returns (l: nat, r: nat)
    requires !IsBlank(s)
    ensures Core(s, l, r)
  {
    var k: nat :| k < |s| && !IsSpace(s[k]);
    l, r := 0, |s|;
    while IsSpace(s[l])
      invariant l <= k && forall j :: 0 <= j < l ==> IsSpace(s[j])
      decreases k - l
    {
      l := l + 1;
    }
    while IsSpace(s[r - 1])
      invariant l < r <= |s| && forall j :: r <= j < |s| ==> IsSpace(s[j])
      decreases r
    {
      r := r - 1;
    }
  }

  lemma {:induction false} StripLeftTo(s: string, l: nat)
    requires l <= |s| && (l < |s| ==> !IsSpace(s[l])) && forall k :: 0 <= k < l ==> IsSpace(s[k])
    ensures StripLeft(s) == s[l..]
  {
    if l > 0 {
      StripLeftTo(s[1..], l - 1);
    }
  }

  lemma {:induction false} StripRightTo(s: string, r: nat)
    requires r <= |s| && (r > 0 ==> !IsSpace(s[r - 1])) && forall k :: r <= k < |s| ==> IsSpace(s[k])
    ensures StripRight(s) == s[..r]
    decreases |s|
  {
    if r < |s| {
      StripRightTo(s[..|s| - 1], r);
      assert s[..|s| - 1][..r] == s[..r];
    } else {
      assert s[..r] == s;
    }
  }

  lemma {:induction false} StripTo(s: string, l: nat, r: nat)
    requires Core(s, l, r)
    ensures StripLeft(s) == s[l..] && StripRight(s) == s[..r] && Strip(s) == s[l..r]
    ensures Strip(s[l..]) == Strip(s[..r]) == s[l..r]
  {
    StripLeftTo(s, l);
    StripRightTo(s, r);
    StripRightTo(s[l..], r - l);
    assert s[l..][..r - l] == s[l..r];
    StripLeftTo(s[l..], 0);
    StripLeftTo(s[..r], l);
    assert s[..r][l..] == s[l..r];
    StripRightTo(s[l..r], r - l);
  }

  lemma {:induction false} BlankStrips(s: string)
    requires IsBlank(s)
    ensures StripLeft(s) == StripRight(s) == Strip(s) == []
  {
    StripLeftTo(s, |s|);
    StripRightTo(s, 0);
  }

  // Stripping leaves a stripped string with characters of the original; it is
  // empty exactly for a blank string, and a stripped string stays as it is.
  lemma {:induction false} StripFacts(s: string)
    ensures IsStripped(Strip(s)) && (Strip(s) == [] <==> IsBlank(s))
    ensures forall c :: c in Strip(s) ==> c in s
    ensures IsStripped(s) ==> Strip(s) == s
  {
    if IsBlank(s) {
      BlankStrips(s);
    } else {
      var l, r := Edges(s);
      StripTo(s, l, r);
      assert IsStripped(s) ==> l == 0 && r == |s|;
    }
  }

  lemma {:induction false} SplitJoinOnce(a: string, b: string, sep: char)
    ensures Split(a + [sep, sep] + b, sep) == Split(a, sep) + [[]] + Split(b, sep)
  {
    assert a + [sep, sep] + b == a + [sep] + ([] + [sep] + b);
    SplitConcat(a, [] + [sep] + b, sep);
    SplitConcat([], b, sep);
  }

  lemma {:induction false} JoinSnoc(parts: seq<string>, last: string, sep: string)
    requires parts != []
    ensures Join(parts + [last], sep) == Join(parts, sep) + sep + last
  {
    if |parts| == 1 {
      assert (parts + [last])[1..] == [last];
    } else {
      assert (parts + [last])[1..] == parts[1..] + [last];
      JoinSnoc(parts[1..], last, sep);
    }
  }

  lemma {:induction false} JoinChars(parts: seq<string>, sep: string, c: char)
    requires c !in sep && forall k :: 0 <= k < |parts| ==> c !in parts[k]
    ensures c !in Join(parts, sep)
  {
    if |parts| > 1 {
      JoinChars(parts[1..], sep, c);
    }
  }

  lemma {:induction false} StripRightTail(s: string, tail: string)
    ensures IsBlank(tail) ==> StripRight(s + tail) == StripRight(s)
    ensures !IsBlank(tail) ==> StripRight(s + tail) == s + StripRight(tail)
  {
    if !IsBlank(tail) {
      var l, r := Edges(tail);
      StripTo(tail, l, r);
      StripRightTo(s + tail, |s| + r);
    } else if IsBlank(s) {
      BlankStrips(s);
      BlankStrips(s + tail);
    } else {
      var l, r := Edges(s);
      StripTo(s, l, r);
      StripRightTo(s + tail, r);
    }
  }
}
