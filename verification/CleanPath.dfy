// cleanPath of services/mapper/main.go.  A character stands for one byte.
module CleanPath {
  import opened Wrappers
  import opened Text

  function HexDigit(c: char): Option<nat> {
    if '0' <= c <= '9' then Some((c - '0') as nat)
    else if 'a' <= c <= 'f' then Some((c - 'a') as nat + 10)
    else if 'A' <= c <= 'F' then Some((c - 'A') as nat + 10)
    else None
  }

  function Unhexed(high: char, low: char): (c: Option<char>)
    ensures c.Some? ==> c.value as int < 256
  {
    var h, l := HexDigit(high), HexDigit(low);
    if h.Some? && l.Some? then Some((16 * h.value + l.value) as char) else None
  }

  // url.PathUnescape: percent-encoding of section 2.1 of RFC 3986.
  function Unescape(s: string): Option<string> {
    if s == [] then Some([])
    else if s[0] != '%' then Prepend(s[0], Unescape(s[1..]))
    else if |s| < 3 || Unhexed(s[1], s[2]).None? then None
    else Prepend(Unhexed(s[1], s[2]).value, Unescape(s[3..]))
  }

  function Prepend(c: char, rest: Option<string>): Option<string> {
    if rest.Some? then Some([c] + rest.value) else None
  }

  // The effect of one path segment on the segments kept so far.
  function Kept(stack: seq<string>, part: string): seq<string> {
    if part == "" || part == "." then stack
    else if part == ".." then if stack == [] then stack else stack[..|stack| - 1]
    else stack + [part]
  }

  function Stack(parts: seq<string>): seq<string> {
    if parts == [] then [] else Kept(Stack(parts[..|parts| - 1]), parts[|parts| - 1])
  }

  predicate EndsWithSlash(s: string) {
    s != [] && s[|s| - 1] == '/'
  }

  // The canonical spelling of a list of segments.
  function Render(segments: seq<string>, trailing: bool): string {
    "/" + Join(segments, "/") + if trailing && segments != [] then "/" else ""
  }

  // The path after unescaping.
  function Canonical(u: string): string {
    Render(Stack(Split(u, '/')), EndsWithSlash(u))
  }

  function Cleaned(path: string): string {
    if path == "" then "/"
    else match Unescape(path)
      case None => path
      case Some(u) => Canonical(u)
  }

  method CleanPath(path: string) returns (out: string)
    ensures out == Cleaned(path)
  {
    if path == "" {
      return "/";
    }
    var unescaped := Unescape(path);
    if unescaped.None? {
      return path;
    }
    var u := unescaped.value;
    var parts := Split(u, '/');
    var stack: seq<string> := [];
    for k := 0 to |parts|
      invariant stack == Stack(parts[..k])
    {
      assert parts[..k + 1][..k] == parts[..k];
      var part := parts[k];
      if part == "" || part == "." {
      } else if part == ".." {
        if |stack| > 0 {
          stack := stack[..|stack| - 1];
        }
      } else {
        stack := stack + [part];
      }
    }
    assert parts[..|parts|] == parts;
    JoinIsEmpty(stack, u);
    out := "/" + Join(stack, "/");
    if EndsWithSlash(u) && |out| > 1 {
      out := out + "/";
    }
  }

  predicate IsSegment(s: string) {
    s != "" && s != "." && s != ".." && '/' !in s
  }

  lemma {:induction false} StackKeepsSegments(parts: seq<string>)
    requires forall k :: 0 <= k < |parts| ==> '/' !in parts[k]
    ensures forall k :: 0 <= k < |Stack(parts)| ==> IsSegment(Stack(parts)[k])
  {
    if parts == [] {
    } else {
      StackKeepsSegments(parts[..|parts| - 1]);
    }
  }

  lemma {:induction false} JoinIsEmpty(segments: seq<string>, u: string)
    requires segments == Stack(Split(u, '/'))
    ensures Join(segments, "/") == "" <==> segments == []
  {
    StackKeepsSegments(Split(u, '/'));
  }

  // An independent reading of a path, from its end: every ".." cancels the
  // nearest segment before it that is not cancelled yet, and at the root nothing.
  function Survivors(parts: seq<string>, up: nat): seq<string> {
    if parts == [] then []
    else
      var init, last := parts[..|parts| - 1], parts[|parts| - 1];
      if last == "" || last == "." then Survivors(init, up)
      else if last == ".." then Survivors(init, up + 1)
      else if up > 0 then Survivors(init, up - 1)
      else Survivors(init, 0) + [last]
  }

  function DropLast(s: seq<string>, n: nat): seq<string> {
    if n >= |s| then [] else s[..|s| - n]
  }

  // The stack machine agrees with that reading.
  lemma {:induction false} StackIsSurvivors(parts: seq<string>, up: nat)
    ensures Survivors(parts, up) == DropLast(Stack(parts), up)
  {
    if parts == [] {
    } else {
      var init, last := parts[..|parts| - 1], parts[|parts| - 1];
      if last == "" || last == "." {
        StackIsSurvivors(init, up);
      } else if last == ".." {
        StackIsSurvivors(init, up + 1);
      } else {
        StackIsSurvivors(init, if up > 0 then up - 1 else 0);
      }
    }
  }

  ghost predicate IsCanonical(s: string) {
    exists segments: seq<string>, trailing: bool :: s == Render(segments, trailing) && AllSegments(segments)
  }

  ghost predicate AllSegments(segments: seq<string>) {
    forall k :: 0 <= k < |segments| ==> IsSegment(segments[k])
  }

  // The output of a path that can be unescaped: rooted, its segments those that
  // survive, none of them empty, "." or "..", and at most one slash at the end.
  lemma {:induction false} CleanedIsCanonical(path: string)
    requires Unescape(path).Some?
    ensures IsCanonical(Cleaned(path))
    ensures var u := Unescape(path).value;
            Cleaned(path) == Render(Survivors(Split(u, '/'), 0), EndsWithSlash(u))
  {
    var u := Unescape(path).value;
    var parts := Split(u, '/');
    StackKeepsSegments(parts);
    StackIsSurvivors(parts, 0);
    assert AllSegments(Stack(parts));
    assert DropLast(Stack(parts), 0) == Stack(parts);
    if path == "" {
      assert parts == [""] && Stack(parts) == [];
    }
    assert Cleaned(path) == Render(Stack(parts), EndsWithSlash(u));
  }

  lemma {:induction false} StackOfSegments(segments: seq<string>)
    requires AllSegments(segments)
    ensures Stack([""] + segments) == segments
    ensures Stack([""] + segments + [""]) == segments
  {
    var rooted := [""] + segments;
    if segments == [] {
      assert rooted[..0] == [];
    } else {
      var init := segments[..|segments| - 1];
      StackOfSegments(init);
      assert rooted[..|rooted| - 1] == [""] + init;
    }
    assert (rooted + [""])[..|rooted|] == rooted;
  }

  lemma {:induction false} SplitOfRender(segments: seq<string>, trailing: bool)
    requires AllSegments(segments) && segments != []
    ensures Split(Render(segments, trailing), '/') == [""] + segments + if trailing then [""] else []
  {
    var joined := Join(segments, "/");
    SplitJoin(segments, '/');
    SplitConcat("", joined, '/');
    assert "" + ['/'] + joined == "/" + joined;
    if trailing {
      SplitConcat("/" + joined, "", '/');
      assert ("/" + joined) + ['/'] + "" == Render(segments, true);
    } else {
      assert "/" + joined + "" == Render(segments, false);
      assert "/" + joined + "" == "/" + joined;
      assert [""] + segments + [] == [""] + segments;
    }
  }

  lemma {:induction false} JoinEndsInSegment(segments: seq<string>)
    requires AllSegments(segments) && segments != []
    ensures Join(segments, "/") != "" && !EndsWithSlash(Join(segments, "/"))
  {
    if |segments| > 1 {
      JoinEndsInSegment(segments[1..]);
    }
  }

  // A canonical path is a fixed point.
  lemma {:induction false} CanonicalIsFixed(segments: seq<string>, trailing: bool)
    requires AllSegments(segments)
    ensures Canonical(Render(segments, trailing)) == Render(segments, trailing)
  {
    var s := Render(segments, trailing);
    if segments == [] {
      assert s == "/";
      assert Split(s, '/') == ["", ""] by {
        SplitConcat("", "", '/');
        assert "" + ['/'] + "" == "/";
      }
      StackOfSegments([]);
      assert [""] + [] + [""] == ["", ""];
    } else {
      SplitOfRender(segments, trailing);
      StackOfSegments(segments);
      JoinEndsInSegment(segments);
      if trailing {
        assert s[|s| - 1] == '/';
      } else {
        assert s[|s| - 1] == Join(segments, "/")[|Join(segments, "/")| - 1];
        assert [""] + segments + [] == [""] + segments;
      }
    }
  }

  // Read back, the output is an empty part, the segments that survive, and a last empty
  // part exactly if the path ended in a slash or nothing survives.
  lemma {:induction false} CleanedReads(path: string)
    requires Unescape(path).Some?
    ensures var u := Unescape(path).value;
            var kept := Survivors(Split(u, '/'), 0);
            Split(Cleaned(path), '/')
            == [""] + kept + if kept == [] || (u != "" && u[|u| - 1] == '/') then [""] else []
  {
    var u := Unescape(path).value;
    CleanedIsCanonical(path);
    var kept := Survivors(Split(u, '/'), 0);
    StackKeepsSegments(Split(u, '/'));
    StackIsSurvivors(Split(u, '/'), 0);
    assert DropLast(Stack(Split(u, '/')), 0) == Stack(Split(u, '/'));
    hide Unescape, Survivors, Stack;
    if kept == [] {
      RootReads(EndsWithSlash(u));
      assert [""] + kept + [""] == ["", ""];
    } else {
      SplitOfRender(kept, EndsWithSlash(u));
    }
  }

  lemma {:induction false} RootReads(trailing: bool)
    ensures Split(Render([], trailing), '/') == ["", ""]
  {
    SplitConcat("", "", '/');
    assert "" + ['/'] + "" == "/" == Render([], trailing);
  }

  // Hexadecimal digits of either case.
  lemma {:induction false} HexDigitIs(c: char, n: nat)
    ensures HexDigit(c) == Some(n) <==> n < 16 && (c == "0123456789abcdef"[n] || c == "0123456789ABCDEF"[n])
  {
  }

  ghost predicate IsBadEscape(s: string, k: nat) {
    k < |s| && s[k] == '%' && !(k + 2 < |s| && HexDigit(s[k + 1]).Some? && HexDigit(s[k + 2]).Some?)
  }

  // Unescaping fails exactly when some percent sign is not followed by two hexadecimal
  // digits.
  lemma {:induction false} UnescapeFails(s: string)
    ensures Unescape(s).None? <==> exists k: nat :: IsBadEscape(s, k)
  {
    if s == [] {
    } else if s[0] != '%' {
      UnescapeFails(s[1..]);
      BadLater(s, 1);
    } else if IsBadEscape(s, 0) {
    } else {
      UnescapeFails(s[3..]);
      BadLater(s, 3);
    }
  }

  lemma {:induction false} BadLater(s: string, n: nat)
    requires 0 < n <= |s| && forall k: nat :: k < n ==> !IsBadEscape(s, k)
    ensures (exists k: nat :: IsBadEscape(s, k)) <==> exists k: nat :: IsBadEscape(s[n..], k)
  {
    if k: nat :| IsBadEscape(s, k) {
      assert IsBadEscape(s[n..], k - n);
    }
    if k: nat :| IsBadEscape(s[n..], k) {
      assert IsBadEscape(s, k + n);
    }
  }

  // Text without percent signs stands for itself.
  lemma {:induction false} UnescapePlain(s: string)
    requires '%' !in s
    ensures Unescape(s) == Some(s)
  {
    hide Unhexed;
    if s != [] {
      UnescapePlain(s[1..]);
      assert [s[0]] + s[1..] == s;
    }
  }

  // One character, as it stands or escaped.
  predicate IsCode(code: string, c: char) {
    || (|code| == 1 && code[0] == c != '%')
    || (|code| == 3 && code[0] == '%' && Unhexed(code[1], code[2]) == Some(c))
  }

  lemma {:induction false} CodeThenRest(code: string, c: char, rest: string)
    requires IsCode(code, c)
    ensures Unescape(code + rest) == Prepend(c, Unescape(rest))
  {
    hide Unhexed;
    assert (code + rest)[|code|..] == rest;
  }

  lemma {:induction false} FirstCode(s: string) returns (n: nat, c: char)
    requires s != [] && Unescape(s).Some?
    ensures 0 < n <= |s| && IsCode(s[..n], c) && Unescape(s[n..]).Some?
  {
    n := if s[0] == '%' then 3 else 1;
    c := if s[0] == '%' then Unhexed(s[1], s[2]).value else s[0];
    hide Unhexed;
  }

  // Text and escapes are read one by one.
  lemma {:induction false} UnescapeParts(a: string, b: string)
    requires Unescape(a).Some? && Unescape(b).Some?
    ensures Unescape(a + b) == Some(Unescape(a).value + Unescape(b).value)
    decreases |a|
  {
    if a == [] {
      assert a + b == b && [] + Unescape(b).value == Unescape(b).value;
    } else {
      var n, c := FirstCode(a);
      hide Unescape, IsCode;
      UnescapeParts(a[n..], b);
      CodeThenBoth(a, b, n, c);
      Regroup(c, Unescape(a[n..]).value, Unescape(b).value);
    }
  }

  lemma {:induction false} CodeThenBoth(a: string, b: string, n: nat, c: char)
    requires n <= |a| && IsCode(a[..n], c)
    ensures Unescape(a) == Prepend(c, Unescape(a[n..]))
    ensures Unescape(a + b) == Prepend(c, Unescape(a[n..] + b))
  {
    hide Unescape, IsCode, Prepend;
    CodeThenRest(a[..n], c, a[n..]);
    CodeThenRest(a[..n], c, a[n..] + b);
    assert a[..n] + a[n..] == a;
    assert a[..n] + (a[n..] + b) == a + b;
  }

  lemma {:induction false} Regroup(c: char, a: string, b: string)
    ensures [c] + (a + b) == ([c] + a) + b
  {
  }

  // The program's own case.  A URL's EscapedPath, which is all that cleanPath is
  // given, can always be unescaped; and the path of a cleaned URL, escaped again,
  // cleans to itself.
  lemma {:induction false} CleaningIsStable(path: string, escaped: string)
    requires Unescape(path).Some? && Unescape(escaped) == Some(Cleaned(path))
    ensures Cleaned(escaped) == Cleaned(path)
  {
    CleanedIsCanonical(path);
    var segments: seq<string>, trailing: bool :|
      Cleaned(path) == Render(segments, trailing) && AllSegments(segments);
    CanonicalIsFixed(segments, trailing);
  }

  // The function taken alone, on any bytes: cleaning an escaped output again
  // changes nothing exactly when the path could be unescaped or was canonical as
  // it stood.
  lemma {:induction false} CleaningAgain(path: string, escaped: string)
    requires Unescape(escaped) == Some(Cleaned(path))
    ensures Cleaned(escaped) == Cleaned(path) <==> Unescape(path).Some? || IsCanonical(path)
  {
    if Unescape(path).Some? {
      CleaningIsStable(path, escaped);
    } else if IsCanonical(path) {
      var segments: seq<string>, trailing: bool :| path == Render(segments, trailing) && AllSegments(segments);
      CanonicalIsFixed(segments, trailing);
    } else {
      CleanedIsCanonical(escaped);
    }
  }

  // The whole of a path percent-encoded: an escape that unescaping undoes.
  function Hex(n: nat): char
    requires n < 16
  {
    if n < 10 then '0' + n as char else 'A' + (n - 10) as char
  }

  function EscapeAll(s: string): string
    requires forall k :: 0 <= k < |s| ==> s[k] as int < 256
  {
    if s == [] then [] else ['%', Hex(s[0] as int / 16), Hex(s[0] as int % 16)] + EscapeAll(s[1..])
  }

  lemma {:induction false} UnhexUndoesHex(c: char)
    requires c as int < 256
    ensures Unhexed(Hex(c as int / 16), Hex(c as int % 16)) == Some(c)
  {
    assert HexDigit(Hex(c as int / 16)) == Some(c as int / 16) && HexDigit(Hex(c as int % 16)) == Some(c as int % 16);
  }

  lemma {:induction false} UnescapeUndoesEscape(s: string)
    requires forall k :: 0 <= k < |s| ==> s[k] as int < 256
    ensures Unescape(EscapeAll(s)) == Some(s)
  {
    if s == [] {
    } else {
      UnhexUndoesHex(s[0]);
      hide Unhexed, Hex;
      var code := ['%', Hex(s[0] as int / 16), Hex(s[0] as int % 16)];
      UnescapeUndoesEscape(s[1..]);
      assert (code + EscapeAll(s[1..]))[3..] == EscapeAll(s[1..]);
      assert [s[0]] + s[1..] == s;
    }
  }

  // A path that cannot be unescaped, which no caller passes, would be returned as
  // it stands, and cleaning its escaped form would give another path.
  lemma {:induction false} MalformedEscapeIsNotStable()
    ensures Cleaned("%") == "%" && Unescape("%25") == Some("%")
    ensures Cleaned("%25") == "/%" != "%"
  {
    UnescapeUndoesEscape("%");
    assert EscapeAll("%") == "%25";
    SplitWithout("%", '/');
    OneSegment("%");
  }

  lemma {:induction false} OneSegment(s: string)
    requires IsSegment(s) && Split(s, '/') == [s]
    ensures Canonical(s) == "/" + s
  {
    assert [s][..0] == [];
    assert Stack([s]) == [s];
    assert EndsWithSlash(s) ==> '/' in s;
  }
}
