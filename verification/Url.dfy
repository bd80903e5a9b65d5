/** The path of a URL: percent-encoding what a path may not hold, and resolving its dot segments with a
    stack, against the rewriting of section 5.2.4 of RFC 3986. */
module Url {
  import opened Prelude

  // ---- Encoding ----

  predicate Escaped(c: char) {
    || c == '"' || c == '<' || c == '>' || c == '`' || c == '{' || c == '}'
    || c as int <= 0x20 || c as int == 0x7F
  }

  function HexDigit(n: nat): char
    requires n < 16
  {
    if n < 10 then '0' + n as char else 'A' + (n - 10) as char
  }

  /** Every escaped character is ASCII, so it is one byte of UTF-8. */
  function Escape(c: char): string
    requires Escaped(c)
  {
    ['%', HexDigit(c as int / 16), HexDigit(c as int % 16)]
  }

  function Encode(path: string): (r: string)
    ensures path != "" && path[0] == '/' ==> r != "" && r[0] == '/'
  {
    if path == "" then ""
    else
      var last := path[|path| - 1];
      Encode(path[..|path| - 1]) + (if Escaped(last) then Escape(last) else [last])
  }

  method EncodePath(path: string) returns (r: string)
    ensures r == Encode(path)
  {
    r := "";
    assert path[..0] == "";
    for k := 0 to |path|
      invariant r == Encode(path[..k])
    {
      assert path[..k + 1][..k] == path[..k];
      if Escaped(path[k]) {
        r := r + Escape(path[k]);
      } else {
        r := r + [path[k]];
      }
    }
    assert path[..|path|] == path;
  }

  ghost predicate Clean(s: string) {
    forall k :: 0 <= k < |s| ==> !Escaped(s[k])
  }

  lemma {:induction false} EncodeIsClean(path: string)
    ensures Clean(Encode(path))
  {
    if path != "" {
      EncodeIsClean(path[..|path| - 1]);
      var last := path[|path| - 1];
      if Escaped(last) { EscapeIsClean(last); }
    }
  }

  lemma {:induction false} EscapeIsClean(c: char)
    requires Escaped(c)
    ensures Clean(Escape(c))
  {
    var a, b := HexDigit(c as int / 16), HexDigit(c as int % 16);
    HexIsClean(c as int / 16);
    HexIsClean(c as int % 16);
  }

  lemma {:induction false} HexIsClean(n: nat)
    requires n < 16
    ensures !Escaped(HexDigit(n)) && !Escaped('%')
  {
  }

  lemma {:induction false} CleanUnchanged(s: string)
    requires Clean(s)
    ensures Encode(s) == s
  {
    if s != "" {
      CleanUnchanged(s[..|s| - 1]);
      assert s == s[..|s| - 1] + [s[|s| - 1]];
    }
  }

  /** The value of an upper-case hexadecimal digit. */
  function DigitValue(c: char): Option<nat> {
    if '0' <= c <= '9' then Some(c as int - '0' as int)
    else if 'A' <= c <= 'F' then Some(c as int - 'A' as int + 10)
    else None
  }

  /** `r` spells `path` out, character by character: a quote, an angle bracket, a backquote, a brace, a space
      or a control character as the percent sign and its two digits, every other character as itself. */
  ghost predicate Spells(r: string, path: string)
    decreases |path|
  {
    if path == "" then r == ""
    else if path[0] in "\"<>`{}" || path[0] as int <= 32 || path[0] as int == 127 then
      && |r| >= 3 && r[0] == '%' && DigitValue(r[1]).Some? && DigitValue(r[2]).Some?
      && DigitValue(r[1]).value * 16 + DigitValue(r[2]).value == path[0] as int
      && Spells(r[3..], path[1..])
    else |r| >= 1 && r[0] == path[0] && Spells(r[1..], path[1..])
  }

  lemma {:induction false} SpellsAppend(a: string, p: string, b: string, q: string)
    requires Spells(a, p) && Spells(b, q)
    ensures Spells(a + b, p + q)
    decreases |p|
  {
    if p == "" {
      assert a + b == b && p + q == q;
    } else {
      assert (p + q)[1..] == p[1..] + q;
      var n := if p[0] in "\"<>`{}" || p[0] as int <= 32 || p[0] as int == 127 then 3 else 1;
      assert (a + b)[n..] == a[n..] + b;
      SpellsAppend(a[n..], p[1..], b, q);
    }
  }

  /** The encoding spells the path: decoding each escape gives its character back, in order. */
  lemma {:induction false} EncodeSpells(path: string)
    ensures Spells(Encode(path), path)
  {
    if path != "" {
      var n := |path| - 1;
      EncodeSpells(path[..n]);
      SpellsOne(path[n]);
      assert path == path[..n] + [path[n]];
      SpellsAppend(Encode(path[..n]), path[..n], if Escaped(path[n]) then Escape(path[n]) else [path[n]], [path[n]]);
    }
  }

  lemma {:induction false} SpellsOne(c: char)
    ensures Spells(if Escaped(c) then Escape(c) else [c], [c])
  {
    assert c in "\"<>`{}" <==> c == '"' || c == '<' || c == '>' || c == '`' || c == '{' || c == '}';
    if Escaped(c) {
      DigitOfValue(c as int / 16);
      DigitOfValue(c as int % 16);
    }
  }

  lemma {:induction false} DigitOfValue(n: nat)
    requires n < 16
    ensures DigitValue(HexDigit(n)) == Some(n)
  {
  }

  // ---- Segments ----

  predicate IsDot(s: string) {
    s == "." || s == "%2e" || s == "%2E"
  }

  /** Case does not matter in a percent-encoded dot. */
  predicate IsDotDot(s: string) {
    || s == ".."
    || (|s| == 4 && ((s[0] == '.' && IsDot(s[1..])) || (IsDot(s[..3]) && s[3] == '.')))
    || (|s| == 6 && IsDot(s[..3]) && IsDot(s[3..]))
  }

  /** A segment with its percent-encoded dots decoded, in either case. */
  function Undot(s: string): string {
    if s == "" then ""
    else if |s| >= 3 && s[0] == '%' && s[1] == '2' && (s[2] == 'e' || s[2] == 'E') then "." + Undot(s[3..])
    else [s[0]] + Undot(s[1..])
  }

  lemma {:induction false} DotIs(s: string)
    ensures IsDot(s) <==> Undot(s) == "."
  {
    if |s| >= 3 && s[0] == '%' && s[1] == '2' && (s[2] == 'e' || s[2] == 'E') {
      assert IsDot(s) <==> s[3..] == "" by {
        assert s == [s[0], s[1], s[2]] + s[3..];
      }
    } else if s != "" {
      assert s == [s[0]] + s[1..];
    }
  }

  /** The dot segments are exactly the spellings of one dot and of two. */
  lemma {:induction false} DotsAre(s: string)
    ensures IsDot(s) <==> Undot(s) == "."
    ensures IsDotDot(s) <==> Undot(s) == ".."
  {
    DotIs(s);
    if |s| >= 3 && s[0] == '%' && s[1] == '2' && (s[2] == 'e' || s[2] == 'E') {
      DotIs(s[3..]);
      EscapedDotFirst(s);
      TwoDots('.', Undot(s[3..]));
    } else if s != "" {
      DotIs(s[1..]);
      PlainFirst(s);
      TwoDots(s[0], Undot(s[1..]));
    }
  }

  lemma {:induction false} TwoDots(c: char, rest: string)
    ensures [c] + rest == ".." <==> c == '.' && rest == "."
  {
    assert ([c] + rest)[0] == c && ([c] + rest)[1..] == rest;
  }

  lemma {:induction false} EscapedDotFirst(s: string)
    requires |s| >= 3 && s[0] == '%' && s[1] == '2' && (s[2] == 'e' || s[2] == 'E')
    ensures IsDotDot(s) <==> IsDot(s[3..])
  {
    assert IsDot(s[..3]) by {
      assert s[..3] == [s[0], s[1], s[2]];
    }
  }

  lemma {:induction false} PlainFirst(s: string)
    requires s != "" && !(|s| >= 3 && s[0] == '%' && s[1] == '2' && (s[2] == 'e' || s[2] == 'E'))
    ensures IsDotDot(s) <==> s[0] == '.' && IsDot(s[1..])
  {
    if s[0] == '.' && s[1..] == "." {
      assert s == "..";
    }
    assert |s| >= 3 ==> s[..3][0] == s[0] && s[..3][1] == s[1] && s[..3][2] == s[2];
  }

  function SlashAt(s: string, i: nat): (r: nat)
    requires i <= |s|
    ensures i <= r <= |s| && (r < |s| ==> s[r] == '/')
    ensures forall k :: i <= k < r ==> s[k] != '/'
    decreases |s| - i
  {
    if i == |s| || s[i] == '/' then i else SlashAt(s, i + 1)
  }

  /** `path.split("/")` */
  function Split(s: string): (r: seq<string>)
    ensures |r| > 0
    decreases |s|
  {
    var k := SlashAt(s, 0);
    if k == |s| then [s] else [s[..k]] + Split(s[k + 1..])
  }

  /** Each segment from `i` on, with its slash. */
  function Slashed(segments: seq<string>, i: nat): (r: string)
    requires i <= |segments|
    ensures r == "" <==> i == |segments|
    ensures r != "" ==> r[0] == '/'
    decreases |segments| - i
  {
    if i == |segments| then "" else "/" + segments[i] + Slashed(segments, i + 1)
  }

  function Join(segments: seq<string>): string {
    if segments == [] then "" else segments[0] + Slashed(segments, 1)
  }

  // ---- The stack ----

  /** One segment: a dot is dropped, two dots pop, and either leaves an empty segment when it is the last. */
  function Push(output: seq<string>, segment: string, last: bool): seq<string> {
    var end := if last then [""] else [];
    if IsDot(segment) then output + end
    else if IsDotDot(segment) then (if |output| > 1 then output[..|output| - 1] else output) + end
    else output + [segment]
  }

  function Stack(segments: seq<string>, i: nat, output: seq<string>): seq<string>
    requires i <= |segments|
    decreases |segments| - i
  {
    if i == |segments| then output
    else Stack(segments, i + 1, Push(output, segments[i], i == |segments| - 1))
  }

  function Resolve(path: string): string {
    var result := Join(Stack(Split(path), 0, []));
    if |result| > 0 && result[0] == '/' then result else "/" + result
  }

  method JoinSegments(segments: seq<string>) returns (r: string)
    ensures r == Join(segments)
  {
    if |segments| == 0 {
      return "";
    }
    var i := |segments|;
    r := "";
    while i > 1
      invariant 1 <= i <= |segments|
      invariant r == Slashed(segments, i)
    {
      i := i - 1;
      r := "/" + segments[i] + r;
    }
    r := segments[0] + r;
  }

  /** `_remove_dot_segments` */
  method RemoveDotSegments(path: string) returns (result: string)
    ensures result == Resolve(path)
  {
    var output: seq<string> := [];
    var segments := Split(path);
    for index := 0 to |segments|
      invariant Stack(segments, index, output) == Stack(segments, 0, [])
    {
      var segment, last := segments[index], index == |segments| - 1;
      if IsDot(segment) {
        if last {
          output := output + [""];
        } else {
          assert output + [] == output;
        }
      } else if IsDotDot(segment) {
        ghost var before := output;
        if |output| > 1 {
          output := output[..|output| - 1];
        }
        assert output + [] == output;
        if last {
          output := output + [""];
        }
      } else {
        output := output + [segment];
      }
    }
    result := JoinSegments(output);
    if !(|result| > 0 && result[0] == '/') {
      result := "/" + result;
    }
  }

  // ---- Section 5.2.4 of RFC 3986 ----

  /** Step C removes the last segment and its preceding slash, if any, from the output buffer. */
  function DropLast(output: string): string {
    if output == "" then ""
    else if output[|output| - 1] == '/' then output[..|output| - 1]
    else DropLast(output[..|output| - 1])
  }

  /** Steps B, C and E on an input buffer that starts with a slash; percent-encoded dots are dots. Steps A and D
      do not apply to such a buffer. */
  function Rewrite(input: string, output: string): string
    requires input == "" || input[0] == '/'
    decreases |input|
  {
    if input == "" then output
    else
      var e := SlashAt(input, 1);
      var segment, rest := input[1..e], input[e..];
      var next := if rest == "" then "/" else rest;
      if IsDot(segment) then Rewrite(next, output)
      else if IsDotDot(segment) then Rewrite(next, DropLast(output))
      else Rewrite(rest, output + "/" + segment)
  }

  // ---- The two agree ----

  ghost predicate NoSlash(s: string) {
    forall k :: 0 <= k < |s| ==> s[k] != '/'
  }

  ghost predicate AllNoSlash(segments: seq<string>) {
    forall k :: 0 <= k < |segments| ==> NoSlash(segments[k])
  }

  lemma {:induction false} SplitJoins(s: string)
    ensures AllNoSlash(Split(s)) && Join(Split(s)) == s
    decreases |s|
  {
    var k := SlashAt(s, 0);
    if k < |s| {
      var rest := Split(s[k + 1..]);
      SplitJoins(s[k + 1..]);
      JoinCons(s[..k], rest);
      AroundSlash(s, k);
    } else {
      JoinOne(s);
    }
  }

  lemma {:induction false} AroundSlash(s: string, k: nat)
    requires k < |s| && s[k] == '/'
    ensures s == s[..k] + "/" + s[k + 1..]
  {
  }

  lemma {:induction false} JoinOne(s: string)
    ensures Join([s]) == s
  {
    assert Slashed([s], 1) == "";
  }

  lemma {:induction false} JoinCons(head: string, rest: seq<string>)
    requires |rest| > 0
    ensures Join([head] + rest) == head + "/" + Join(rest)
  {
    var all := [head] + rest;
    assert all[1..] == rest;
    SlashedShift(all, rest, 1);
    Associative("/", rest[0], Slashed(rest, 1));
    Associative(head, "/", Join(rest));
  }

  /** Dropping the first segments does not change what follows them. */
  lemma {:induction false} SlashedShift(a: seq<string>, b: seq<string>, d: nat)
    requires d <= |a| && a[d..] == b
    ensures Slashed(a, d) == Slashed(b, 0)
  {
    SlashedFrom(a, b, d, 0);
  }

  lemma {:induction false} SlashedFrom(a: seq<string>, b: seq<string>, d: nat, i: nat)
    requires d <= |a| && a[d..] == b && i <= |b|
    ensures Slashed(a, d + i) == Slashed(b, i)
    decreases |b| - i
  {
    if i < |b| {
      assert a[d..][i] == a[d + i];
      SlashedFrom(a, b, d, i + 1);
    }
  }

  lemma {:induction false} SlashedSnoc(segments: seq<string>, s: string, i: nat)
    requires i <= |segments|
    ensures Slashed(segments + [s], i) == Slashed(segments, i) + "/" + s
    decreases |segments| - i
  {
    if i < |segments| {
      SlashedSnoc(segments, s, i + 1);
      Associative("/" + segments[i], Slashed(segments, i + 1), "/" + s);
      Associative(Slashed(segments, i + 1), "/", s);
      Associative(Slashed(segments, i), "/", s);
    } else {
      assert Slashed(segments + [s], i) == "/" + s + "";
    }
  }

  lemma {:induction false} DropsSegment(output: string, s: string)
    requires NoSlash(s)
    ensures DropLast(output + "/" + s) == output
    decreases |s|
  {
    var all := output + "/" + s;
    if s == "" {
      assert all[..|all| - 1] == output;
    } else {
      assert all[..|all| - 1] == output + "/" + s[..|s| - 1];
      DropsSegment(output, s[..|s| - 1]);
    }
  }

  /** The stack starts with the empty segment before the first slash. */
  ghost predicate Rooted(output: seq<string>) {
    |output| > 0 && output[0] == "" && AllNoSlash(output)
  }

  lemma {:induction false} PushRooted(output: seq<string>, segment: string, last: bool)
    requires Rooted(output) && NoSlash(segment)
    ensures Rooted(Push(output, segment, last))
    ensures last ==> |Push(output, segment, last)| >= 2
  {
  }

  /** The buffer of a pop. */
  lemma {:induction false} PopDrops(output: seq<string>)
    requires Rooted(output)
    ensures var popped := if |output| > 1 then output[..|output| - 1] else output;
            Rooted(popped) && Slashed(popped, 1) == DropLast(Slashed(output, 1))
  {
    if |output| > 1 {
      var front, last := output[..|output| - 1], output[|output| - 1];
      assert output == front + [last];
      SlashedSnoc(front, last, 1);
      DropsSegment(Slashed(front, 1), last);
    }
  }

  lemma {:induction false} FirstSegment(segments: seq<string>, i: nat)
    requires i < |segments| && AllNoSlash(segments)
    ensures var input := Slashed(segments, i);
            && input != "" && input[0] == '/'
            && SlashAt(input, 1) == 1 + |segments[i]|
            && input[1..1 + |segments[i]|] == segments[i] && input[1 + |segments[i]|..] == Slashed(segments, i + 1)
  {
    var input, s, rest := Slashed(segments, i), segments[i], Slashed(segments, i + 1);
    assert input == "/" + s + rest;
    assert forall k :: 0 <= k < |s| ==> input[1 + k] == s[k];
    if i + 1 < |segments| { assert rest[0] == '/'; assert input[1 + |s|] == '/'; }
    forall k | 1 <= k < 1 + |s| ensures input[k] != '/' {
      assert input[1 + (k - 1)] == s[k - 1];
    }
  }

  /** From any point of the path on, the stack is the output buffer. */
  lemma {:induction false} StackRewrites(segments: seq<string>, i: nat, output: seq<string>)
    requires i <= |segments| && AllNoSlash(segments) && Rooted(output)
    ensures Rooted(Stack(segments, i, output)) && (i < |segments| ==> |Stack(segments, i, output)| >= 2)
    ensures Slashed(Stack(segments, i, output), 1) == Rewrite(Slashed(segments, i), Slashed(output, 1))
    decreases |segments| - i
  {
    if i < |segments| {
      var segment, last := segments[i], i == |segments| - 1;
      FirstSegment(segments, i);
      PushRooted(output, segment, last);
      if IsDot(segment) || IsDotDot(segment) {
        PopDrops(output);
        var kept := if IsDot(segment) then output else if |output| > 1 then output[..|output| - 1] else output;
        RewriteDots(segments, i, output, kept);
      } else {
        SlashedSnoc(output, segment, 1);
        StackRewrites(segments, i + 1, output + [segment]);
      }
    }
  }

  lemma {:induction false} RewriteDots(segments: seq<string>, i: nat, output: seq<string>, kept: seq<string>)
    requires i < |segments| && AllNoSlash(segments) && Rooted(output) && Rooted(kept)
    requires IsDot(segments[i]) ==> kept == output
    requires !IsDot(segments[i]) ==>
               && IsDotDot(segments[i]) && kept == (if |output| > 1 then output[..|output| - 1] else output)
               && Slashed(kept, 1) == DropLast(Slashed(output, 1))
    ensures Rooted(Stack(segments, i, output)) && |Stack(segments, i, output)| >= 2
    ensures Slashed(Stack(segments, i, output), 1) == Rewrite(Slashed(segments, i), Slashed(output, 1))
    decreases |segments| - i, 0
  {
    FirstSegment(segments, i);
    if i == |segments| - 1 {
      SlashedSnoc(kept, "", 1);
      assert SlashAt("/", 1) == 1;
      assert "/"[1..1] == "" && "/"[1..] == "";
      assert Rewrite("/", Slashed(kept, 1)) == Rewrite("", Slashed(kept, 1) + "/" + "");
    } else {
      assert kept + [] == kept;
      FirstSegment(segments, i + 1);
      StackRewrites(segments, i + 1, kept);
    }
  }

  /** On every path that starts with a slash, the one-pass stack is the rewriting of RFC 3986. */
  lemma {:induction false} ResolveIsRewrite(path: string)
    requires path != "" && path[0] == '/'
    ensures Resolve(path) == Rewrite(path, "")
    ensures Resolve(path)[0] == '/'
  {
    var segments := Split(path);
    SplitJoins(path);
    RootedSplit(path);
    StackRewrites(segments, 1, [""]);
    RootedStack(segments);
  }

  lemma {:induction false} RootedStack(segments: seq<string>)
    requires |segments| >= 2 && segments[0] == "" && Rooted(Stack(segments, 1, [""])) && |Stack(segments, 1, [""])| >= 2
    ensures Stack(segments, 0, []) == Stack(segments, 1, [""])
    ensures Join(Stack(segments, 0, [])) == Slashed(Stack(segments, 1, [""]), 1)
  {
    assert Push([], "", false) == [""];
  }

  lemma {:induction false} RootedSplit(path: string)
    requires path != "" && path[0] == '/'
    ensures |Split(path)| >= 2 && Split(path)[0] == "" && Slashed(Split(path), 1) == path
  {
    SplitJoins(path);
    assert SlashAt(path, 0) == 0;
    assert path[..0] == "";
  }

  // ---- No dot segment is left, and resolving again changes nothing ----

  ghost predicate NoDots(segments: seq<string>) {
    forall k :: 0 <= k < |segments| ==> !IsDot(segments[k]) && !IsDotDot(segments[k])
  }

  lemma {:induction false} StackNoDots(segments: seq<string>, i: nat, output: seq<string>)
    requires i <= |segments| && NoDots(output)
    ensures NoDots(Stack(segments, i, output))
    decreases |segments| - i
  {
    if i < |segments| {
      StackNoDots(segments, i + 1, Push(output, segments[i], i == |segments| - 1));
    }
  }

  lemma {:induction false} SplitOfJoin(segments: seq<string>)
    requires |segments| > 0 && AllNoSlash(segments)
    ensures Split(Join(segments)) == segments
    decreases |segments|
  {
    var s, head := Join(segments), segments[0];
    if |segments| == 1 {
      assert segments == [head];
      JoinOne(head);
    } else {
      var rest := segments[1..];
      assert segments == [head] + rest;
      JoinCons(head, rest);
      SplitOfJoin(rest);
      SplitHead(head, Join(rest));
    }
  }

  lemma {:induction false} SplitHead(head: string, rest: string)
    requires NoSlash(head)
    ensures Split(head + "/" + rest) == [head] + Split(rest)
  {
    var s := head + "/" + rest;
    assert forall k :: 0 <= k < |head| ==> s[k] == head[k];
    assert s[|head|] == '/';
    var k := SlashAt(s, 0);
    assert k == |head|;
    assert s[..k] == head && s[k + 1..] == rest;
  }

  /** The segments of the result are the stack, none of them a dot segment. */
  lemma {:induction false} ResolvedHasNoDots(path: string)
    requires path != "" && path[0] == '/'
    ensures Resolve(path) != "" && Resolve(path)[0] == '/' && NoDots(Split(Resolve(path)))
  {
    var segments := Split(path);
    SplitJoins(path);
    RootedSplit(path);
    StackRewrites(segments, 1, [""]);
    StackNoDots(segments, 1, [""]);
    RootedStack(segments);
    SplitOfJoin(Stack(segments, 0, []));
  }

  lemma {:induction false} StackKeepsPlain(segments: seq<string>, i: nat)
    requires i <= |segments| && NoDots(segments)
    ensures Stack(segments, i, segments[..i]) == segments
    decreases |segments| - i
  {
    if i < |segments| {
      assert segments[..i] + [segments[i]] == segments[..i + 1];
      StackKeepsPlain(segments, i + 1);
    }
  }

  lemma {:induction false} PlainUnchanged(path: string)
    requires path != "" && path[0] == '/' && NoDots(Split(path))
    ensures Resolve(path) == path
  {
    SplitJoins(path);
    assert Split(path)[..0] == [];
    StackKeepsPlain(Split(path), 0);
  }

  /** The characters of the result are those of the path, and slashes. */
  lemma {:induction false} CleanJoin(segments: seq<string>, i: nat)
    requires i <= |segments| && forall k :: 0 <= k < |segments| ==> Clean(segments[k])
    ensures Clean(Slashed(segments, i))
    decreases |segments| - i
  {
    if i < |segments| { CleanJoin(segments, i + 1); }
  }

  lemma {:induction false} CleanSplit(s: string)
    requires Clean(s)
    ensures forall k :: 0 <= k < |Split(s)| ==> Clean(Split(s)[k])
    decreases |s|
  {
    var k := SlashAt(s, 0);
    if k < |s| { CleanSplit(s[k + 1..]); }
  }

  lemma {:induction false} CleanStack(segments: seq<string>, i: nat, output: seq<string>)
    requires i <= |segments| && forall k :: 0 <= k < |segments| ==> Clean(segments[k])
    requires forall k :: 0 <= k < |output| ==> Clean(output[k])
    ensures forall k :: 0 <= k < |Stack(segments, i, output)| ==> Clean(Stack(segments, i, output)[k])
    decreases |segments| - i
  {
    if i < |segments| {
      CleanStack(segments, i + 1, Push(output, segments[i], i == |segments| - 1));
    }
  }

  lemma {:induction false} CleanResolve(path: string)
    requires Clean(path)
    ensures Clean(Resolve(path))
  {
    CleanSplit(path);
    CleanStack(Split(path), 0, []);
    var output := Stack(Split(path), 0, []);
    if |output| > 0 { CleanJoin(output, 1); }
  }

  function Normalize(path: string): string {
    Resolve(Encode(path))
  }

  method NormalizePath(path: string) returns (r: string)
    requires path != "" && path[0] == '/'
    ensures r == Rewrite(Encode(path), "")
    ensures r != "" && r[0] == '/' && NoDots(Split(r)) && Clean(r)
  {
    EncodeIsClean(path);
    ResolveIsRewrite(Encode(path));
    ResolvedHasNoDots(Encode(path));
    CleanResolve(Encode(path));
    var encoded := EncodePath(path);
    r := RemoveDotSegments(encoded);
  }

  /** Encoding and then removing dot segments is idempotent on every path that starts with a slash. */
  lemma {:induction false} NormalizeTwice(path: string)
    requires path != "" && path[0] == '/'
    ensures Normalize(Normalize(path)) == Normalize(path)
  {
    EncodeIsClean(path);
    CleanResolve(Encode(path));
    CleanUnchanged(Normalize(path));
    ResolvedHasNoDots(Encode(path));
    PlainUnchanged(Normalize(path));
  }
}
