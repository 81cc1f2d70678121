/**
 Editing the text of an env file with multi-line regular expressions: setEnvValue and envValue.

 A key matches where `^KEY=` does: at the start of the text or after a line terminator. The match runs to the next line
 terminator or to the end. Keys are names of environment variables, so they mean themselves in a pattern.
 */
module EnvTexts {
  import opened Options

  predicate IsTerminator(c: char) { c == '\n' || c == '\r' || c == '\U{2028}' || c == '\U{2029}' }

  /** The characters that trim() removes. */
  predicate IsSpace(c: char) {
    || IsTerminator(c) || '\t' <= c <= '\r' || c == ' ' || c == '\U{A0}' || c == '\U{1680}'
    || '\U{2000}' <= c <= '\U{200A}' || c == '\U{202F}' || c == '\U{205F}' || c == '\U{3000}' || c == '\U{FEFF}'
  }

  predicate LineFree(s: string) { forall i | 0 <= i < |s| :: !IsTerminator(s[i]) }

  predicate IsKey(key: string) {
    forall i | 0 <= i < |key| :: 'A' <= key[i] <= 'Z' || 'a' <= key[i] <= 'z' || '0' <= key[i] <= '9' || key[i] == '_'
  }

  function TrimEnd(s: string): (t: string)
    ensures t <= s
  {
    if s != [] && IsSpace(s[|s| - 1]) then TrimEnd(s[..|s| - 1]) else s
  }

  function TrimStart(s: string): string {
    if s != [] && IsSpace(s[0]) then TrimStart(s[1..]) else s
  }

  function Trim(s: string): string { TrimStart(TrimEnd(s)) }

  // ---- Lines ----

  /** The text up to the first line terminator. */
  function Line(s: string): (line: string)
    ensures line <= s && LineFree(line)
    ensures |line| < |s| ==> IsTerminator(s[|line|])
  {
    if s == [] || IsTerminator(s[0]) then [] else [s[0]] + Line(s[1..])
  }

  predicate Starts(s: string, key: string) { key + "=" <= Line(s) }

  /** The lines after the first one; None when the first line is the last. */
  function Rest(s: string): (rest: Option<string>)
    ensures rest.Some? ==> |rest.value| < |s|
  {
    if |Line(s)| < |s| then Some(s[|Line(s)| + 1..]) else None
  }

  /** A match of a pattern, with the text before and after it. */
  datatype Match = Match(pre: string, line: string, post: string)

  /** The leftmost match of `^KEY=.*$`. */
  function Locate(s: string, key: string): (m: Option<Match>)
    ensures m.Some? ==> key + "=" <= m.value.line
    decreases |s|
  {
    var line := Line(s);
    if Starts(s, key) then Some(Match("", line, s[|line|..]))
    else if Rest(s).None? then None
    else
      var later := Locate(Rest(s).value, key);
      if later.None? then None
      else Some(Match(line + [s[|line|]] + later.value.pre, later.value.line, later.value.post))
  }

  /** The line that matches first, if any. */
  function Search(s: string, key: string): Option<string> {
    var m := Locate(s, key);
    if m.Some? then Some(m.value.line) else None
  }

  /** envValue */
  function Get(s: string, key: string): Option<string> {
    var m := Locate(s, key);
    if m.Some? then Some(Trim(m.value.line[|key| + 1..])) else None
  }

  /** The replacement patterns of String.prototype.replace for a match without groups. */
  function Expand(text: string, before: string, matched: string, after: string): string {
    if text == [] then []
    else if |text| >= 2 && text[0] == '$' && text[1] == '$' then "$" + Expand(text[2..], before, matched, after)
    else if |text| >= 2 && text[0] == '$' && text[1] == '&' then matched + Expand(text[2..], before, matched, after)
    else if |text| >= 2 && text[0] == '$' && text[1] == '`' then before + Expand(text[2..], before, matched, after)
    else if |text| >= 2 && text[0] == '$' && text[1] == '\'' then after + Expand(text[2..], before, matched, after)
    else [text[0]] + Expand(text[1..], before, matched, after)
  }

  /** setEnvValue */
  function Set(s: string, key: string, value: string): string {
    var text := key + "=" + value;
    match Locate(s, key)
    case Some(Match(pre, line, post)) => pre + Expand(text, pre, line, post) + post
    case None => TrimEnd(s) + "\n" + text + "\n"
  }

  predicate IsPattern(c: char) { c == '$' || c == '&' || c == '`' || c == '\'' }

  /** The value holds no pattern that replace() would expand. A caller can look. */
  predicate Inert(value: string) {
    forall i | 0 <= i < |value| - 1 && value[i] == '$' :: !IsPattern(value[i + 1])
  }

  // ---- Texts, line by line ----

  lemma ConcatTail(a: string, b: string)
    requires a != []
    ensures (a + b)[0] == a[0] && (a + b)[1..] == a[1..] + b
  {
  }

  lemma LineFreeTail(a: string)
    requires a != [] && !IsTerminator(a[0])
    ensures LineFree(a) <==> LineFree(a[1..])
  {
    assert forall i | 1 <= i < |a| :: a[i] == a[1..][i - 1];
  }

  lemma {:induction false} LineOfConcat(a: string, b: string)
    ensures Line(a + b) == if LineFree(a) then a + Line(b) else Line(a)
  {
    if a == [] {
      assert a + b == b;
    } else {
      ConcatTail(a, b);
      if !IsTerminator(a[0]) {
        LineOfConcat(a[1..], b);
        LineFreeTail(a);
        if LineFree(a) { ConsAppend(a, Line(b)); }
      }
    }
  }

  lemma ConsAppend(a: string, b: string)
    requires a != []
    ensures [a[0]] + (a[1..] + b) == a + b
  {
  }

  /** A text that is not one line is a line, a terminator and the rest. */
  lemma Cut(s: string) returns (line: string, t: char, rest: string)
    ensures LineFree(line)
    ensures !LineFree(s) ==> IsTerminator(t) && s == line + [t] + rest && |rest| < |s|
    ensures LineFree(s) ==> line == s
  {
    line := Line(s);
    t, rest := '\n', "";
    if |line| < |s| { t, rest := s[|line|], s[|line| + 1..]; }
  }

  lemma LineFreeIsWhole(s: string)
    ensures LineFree(s) <==> |Line(s)| == |s|
    ensures LineFree(s) ==> Line(s) == s
  {
    LineOfConcat(s, "");
    assert s + "" == s;
  }

  lemma CutIsLine(s: string, line: string, t: char, rest: string)
    requires LineFree(line) && (s == line || (IsTerminator(t) && s == line + [t] + rest))
    ensures Line(s) == line
  {
    LineFreeIsWhole(line);
    if s != line {
      assert s == line + ([t] + rest);
      LineOfConcat(line, [t] + rest);
    }
  }

  lemma LastLine(s: string, key: string)
    requires LineFree(s)
    ensures Locate(s, key) == if key + "=" <= s then Some(Match("", s, "")) else None
  {
    LineFreeIsWhole(s);
    assert Line(s) == s && Rest(s).None? && s[|s|..] == "";
  }

  lemma FirstLine(line: string, t: char, rest: string, key: string)
    requires LineFree(line) && IsTerminator(t)
    ensures key + "=" <= line ==> Locate(line + [t] + rest, key) == Some(Match("", line, [t] + rest))
    ensures !(key + "=" <= line) ==>
              Locate(line + [t] + rest, key) ==
              match Locate(rest, key) {
                case Some(m) => Some(Match(line + [t] + m.pre, m.line, m.post))
                case None => None
              }
  {
    var s := line + [t] + rest;
    CutIsLine(s, line, t, rest);
    assert s[|line|..] == [t] + rest;
    assert s[|line| + 1..] == rest;
  }

  /** The lines of two texts joined by a terminator are searched in order. */
  lemma {:induction false} SearchConcat(a: string, t: char, b: string, key: string)
    requires IsTerminator(t)
    ensures Search(a + [t] + b, key) == if Search(a, key).Some? then Search(a, key) else Search(b, key)
    decreases |a|
  {
    var line, t', rest := Cut(a);
    if LineFree(a) {
      LastLine(a, key);
      FirstLine(a, t, b, key);
    } else {
      assert a + [t] + b == line + [t'] + (rest + [t] + b);
      FirstLine(line, t', rest, key);
      FirstLine(line, t', rest + [t] + b, key);
      SearchConcat(rest, t, b, key);
    }
  }

  // ---- The search is the regular expression's ----

  /**
   What the regular expression says of a leftmost match: the line starts the text or follows a terminator, is whole,
   starts with the key, and no line before it does.
   */
  predicate Matched(m: Match, key: string) {
    && (m.pre == [] || IsTerminator(m.pre[|m.pre| - 1]))
    && (m.post == [] || IsTerminator(m.post[0]))
    && key + "=" <= m.line && LineFree(m.line)
    && Locate(m.pre, key).None?
  }

  predicate MatchesAt(s: string, key: string, i: nat) {
    i <= |s| && (i == 0 || IsTerminator(s[i - 1])) && key + "=" <= s[i..]
  }

  lemma StartsIsMatch(s: string, line: string, key: string)
    requires IsKey(key) && line <= s && (|line| < |s| ==> IsTerminator(s[|line|]))
    ensures key + "=" <= line <==> MatchesAt(s, key, 0)
  {
    var head := key + "=";
    assert s[0..] == s;
    assert LineFree(head);
    assert head <= s ==> forall i | 0 <= i < |head| :: s[i] == head[i];
  }

  /** Nothing is found exactly when the pattern matches at no position. */
  lemma {:induction false} NothingFoundIff(s: string, key: string)
    requires IsKey(key)
    ensures Locate(s, key).None? <==> forall i: nat :: !MatchesAt(s, key, i)
    decreases |s|
  {
    var line, t, rest := Cut(s);
    CutIsLine(s, line, t, rest);
    StartsIsMatch(s, line, key);
    NoMatchInside(s, line, key);
    if LineFree(s) {
      LastLine(s, key);
    } else {
      FirstLine(line, t, rest, key);
      NothingFoundIff(rest, key);
      MatchesLater(line, t, rest, key);
    }
  }

  lemma MatchesLater(line: string, t: char, rest: string, key: string)
    requires IsTerminator(t)
    ensures var s := line + [t] + rest;
            (forall i: nat | |line| < i :: !MatchesAt(s, key, i)) <==> (forall i: nat :: !MatchesAt(rest, key, i))
  {
    var s, n := line + [t] + rest, |line| + 1;
    forall i: nat ensures MatchesAt(s, key, n + i) <==> MatchesAt(rest, key, i) { MatchShifts(line, t, rest, key, i); }
    forall i: nat | n <= i ensures MatchesAt(s, key, i) <==> MatchesAt(rest, key, i - n) {
      assert MatchesAt(s, key, n + (i - n)) <==> MatchesAt(rest, key, i - n);
    }
    if forall i: nat | |line| < i :: !MatchesAt(s, key, i) {
      forall i: nat ensures !MatchesAt(rest, key, i) { assert !MatchesAt(s, key, n + i); }
    }
  }

  lemma NoMatchInside(s: string, line: string, key: string)
    requires line <= s && LineFree(line)
    ensures forall i: nat | 0 < i <= |line| :: !MatchesAt(s, key, i)
  {
    forall i: nat | 0 < i <= |line| ensures !MatchesAt(s, key, i) { assert s[i - 1] == line[i - 1]; }
  }

  lemma MatchShifts(line: string, t: char, rest: string, key: string, j: nat)
    requires IsTerminator(t)
    ensures MatchesAt(line + [t] + rest, key, |line| + 1 + j) <==> MatchesAt(rest, key, j)
  {
    var s := line + [t] + rest;
    if j <= |rest| { assert s[|line| + 1 + j..] == rest[j..]; }
  }

  lemma JoinLater(first: string, t: char, m: Match)
    ensures first + [t] + (m.pre + m.line + m.post) == (first + [t] + m.pre) + m.line + m.post
  {
  }

  lemma MatchedLater(first: string, t: char, m: Match, key: string)
    requires LineFree(first) && IsTerminator(t) && !(key + "=" <= first) && Matched(m, key)
    ensures Matched(m.(pre := first + [t] + m.pre), key)
  {
    FirstLine(first, t, m.pre, key);
    var pre := first + [t] + m.pre;
    assert pre[|pre| - 1] == if m.pre == [] then t else m.pre[|m.pre| - 1];
  }

  /** What is located is a leftmost match. */
  lemma {:induction false} LocatedIsMatched(s: string, key: string)
    requires Locate(s, key).Some?
    ensures var m := Locate(s, key).value; s == m.pre + m.line + m.post && Matched(m, key)
    decreases |s|
  {
    var line, t, rest := Cut(s);
    LastLine("", key);
    if LineFree(s) {
      LastLine(s, key);
    } else {
      FirstLine(line, t, rest, key);
      if !(key + "=" <= line) {
        LocatedIsMatched(rest, key);
        var m := Locate(rest, key).value;
        JoinLater(line, t, m);
        MatchedLater(line, t, m, key);
      }
    }
  }

  /** A leftmost match is what is located, so there is only one. */
  lemma {:induction false} MatchedIsLocated(m: Match, key: string)
    requires Matched(m, key)
    ensures Locate(m.pre + m.line + m.post, key) == Some(m)
    decreases |m.pre|
  {
    if m.pre == [] {
      assert m.pre + m.line + m.post == m.line + m.post;
      LocateHead(m.line, m.post, key);
    } else {
      var line, t, rest := Cut(m.pre);
      assert !LineFree(m.pre);
      FirstLine(line, t, rest, key);
      var m' := m.(pre := rest);
      assert m.pre[|m.pre| - 1] == if rest == [] then t else rest[|rest| - 1];
      MatchedIsLocated(m', key);
      JoinLater(line, t, m');
      FirstLine(line, t, rest + m.line + m.post, key);
    }
  }

  lemma LocateHead(line: string, post: string, key: string)
    requires LineFree(line) && key + "=" <= line && (post == [] || IsTerminator(post[0]))
    ensures Locate(line + post, key) == Some(Match("", line, post))
  {
    if post == [] {
      LastLine(line, key);
      assert line + post == line;
    } else {
      assert line + post == line + [post[0]] + post[1..] && [post[0]] + post[1..] == post;
      FirstLine(line, post[0], post[1..], key);
    }
  }

  /** Two names cannot start the same line. */
  lemma OneKeyPerLine(line: string, key: string, other: string)
    requires IsKey(key) && IsKey(other) && key + "=" <= line && other + "=" <= line
    ensures key == other
  {
    FirstEquals(line, key);
    FirstEquals(line, other);
    assert |key| == |other|;
    assert key == line[..|key|] == other;
  }

  lemma FirstEquals(line: string, key: string)
    requires IsKey(key) && key + "=" <= line
    ensures key == line[..|key|] && line[|key|] == '=' && forall i | 0 <= i < |key| :: line[i] != '='
  {
    assert forall i | 0 <= i <= |key| :: line[i] == (key + "=")[i];
  }

  lemma OnlyOwnKey(line: string, key: string, other: string)
    requires IsKey(key) && IsKey(other) && key + "=" <= line
    ensures other + "=" <= line ==> other == key
  {
    if other + "=" <= line { OneKeyPerLine(line, key, other); }
  }

  // ---- Replacement patterns ----

  lemma {:induction false} ExpandInert(text: string, before: string, matched: string, after: string)
    requires Inert(text)
    ensures Expand(text, before, matched, after) == text
  {
    if text != [] {
      var rest := text[1..];
      assert Inert(rest) by {
        forall i | 0 <= i < |rest| - 1 && rest[i] == '$' ensures !IsPattern(rest[i + 1]) { assert text[i + 1] == '$'; }
      }
      assert |text| >= 2 && text[0] == '$' ==> !IsPattern(text[0 + 1]);
      ExpandInert(rest, before, matched, after);
    }
  }

  lemma {:induction false} ExpandPrefix(prefix: string, text: string, before: string, matched: string, after: string)
    requires '$' !in prefix
    ensures Expand(prefix + text, before, matched, after) == prefix + Expand(text, before, matched, after)
  {
    if prefix == [] {
      assert prefix + text == text;
    } else {
      assert (prefix + text)[1..] == prefix[1..] + text;
      ExpandPrefix(prefix[1..], text, before, matched, after);
    }
  }

  // ---- Trimming ----

  /** What trimEnd() at the end of a text does to a search: the found line may lose trailing spaces. */
  predicate SameButSpaces(a: Option<string>, b: Option<string>) {
    match (a, b)
    case (Some(x), Some(y)) => TrimEnd(x) == TrimEnd(y)
    case (None, None) => true
    case _ => false
  }

  lemma {:induction false} SearchIgnoresLastSpace(s: string, c: char, key: string)
    requires IsKey(key) && IsSpace(c)
    ensures SameButSpaces(Search(s + [c], key), Search(s, key))
    decreases |s|
  {
    if IsTerminator(c) {
      SearchConcat(s, c, "", key);
      LastLine("", key);
      assert s + [c] + "" == s + [c];
    } else {
      var line, t, rest := Cut(s);
      if LineFree(s) {
        assert (s + [c])[..|s|] == s;
        LastLine(s, key);
        LastLine(s + [c], key);
        HeadIgnoresLastSpace(s, c, key);
      } else {
        assert s + [c] == line + [t] + (rest + [c]);
        FirstLine(line, t, rest, key);
        FirstLine(line, t, rest + [c], key);
        SearchIgnoresLastSpace(rest, c, key);
      }
    }
  }

  lemma HeadIgnoresLastSpace(s: string, c: char, key: string)
    requires IsSpace(c)
    ensures key + "=" <= s + [c] <==> key + "=" <= s
  {
    var head := key + "=";
    assert head[|key|] == '=';
    assert head <= s + [c] ==> (s + [c])[|key|] == '=';
  }

  lemma {:induction false} SearchIgnoresTrimEnd(s: string, key: string)
    requires IsKey(key)
    ensures SameButSpaces(Search(s, key), Search(TrimEnd(s), key))
    decreases |s|
  {
    if s != [] && IsSpace(s[|s| - 1]) {
      var init := s[..|s| - 1];
      assert s == init + [s[|s| - 1]];
      SearchIgnoresLastSpace(init, s[|s| - 1], key);
      SearchIgnoresTrimEnd(init, key);
    }
  }

  lemma {:induction false} TrimEndBehindHead(head: string, tail: string)
    requires head != [] && !IsSpace(head[|head| - 1])
    ensures TrimEnd(head + tail) == head + TrimEnd(tail)
    decreases |tail|
  {
    if tail == [] {
      assert head + tail == head;
    } else {
      var init := tail[..|tail| - 1];
      assert (head + tail)[..|head + tail| - 1] == head + init;
      if IsSpace(tail[|tail| - 1]) { TrimEndBehindHead(head, init); }
    }
  }

  /** The value read is not changed by spaces at the end of its line. */
  lemma ValueIgnoresSpaces(a: string, b: string, key: string)
    requires key + "=" <= a && key + "=" <= b && TrimEnd(a) == TrimEnd(b)
    ensures Trim(a[|key| + 1..]) == Trim(b[|key| + 1..])
  {
    TrimEndOfLine(a, key);
    TrimEndOfLine(b, key);
  }

  lemma TrimEndOfLine(line: string, key: string)
    requires key + "=" <= line
    ensures |key| < |TrimEnd(line)| && TrimEnd(line[|key| + 1..]) == TrimEnd(line)[|key| + 1..]
  {
    var head, tail := key + "=", line[|key| + 1..];
    assert line == head + tail;
    TrimEndBehindHead(head, tail);
  }

  lemma GetIgnoresTrimEnd(s: string, key: string)
    requires IsKey(key)
    ensures Get(TrimEnd(s), key) == Get(s, key)
    ensures Locate(TrimEnd(s), key).Some? <==> Locate(s, key).Some?
  {
    SearchIgnoresTrimEnd(s, key);
    if Search(s, key).Some? { ValueIgnoresSpaces(Search(s, key).value, Search(TrimEnd(s), key).value, key); }
  }

  // ---- The text is a map ----

  /** What ends up behind `KEY=`: the value, with its patterns expanded when there is a line to replace. */
  function Stored(s: string, key: string, value: string): string {
    match Locate(s, key)
    case Some(Match(pre, line, post)) => Expand(value, pre, line, post)
    case None => value
  }

  /** replace() stores the value as written: no pattern in it, or nothing to replace. */
  predicate StoredAsWritten(s: string, key: string, value: string) { Inert(value) || Locate(s, key).None? }

  lemma WrittenIsStored(s: string, key: string, value: string)
    requires StoredAsWritten(s, key, value)
    ensures Stored(s, key, value) == value
  {
    if Locate(s, key).Some? {
      var m := Locate(s, key).value;
      ExpandInert(value, m.pre, m.line, m.post);
    }
  }

  lemma InertLine(key: string, value: string)
    requires IsKey(key) && Inert(value)
    ensures Inert(key + "=" + value)
  {
    var text := key + "=" + value;
    assert text[|key|] == '=' && forall i | 0 <= i < |key| :: text[i] == key[i];
    forall i | 0 <= i < |text| - 1 && text[i] == '$' ensures !IsPattern(text[i + 1]) {
      assert value[i - |key| - 1] == '$';
    }
  }

  lemma HeadAndTail(key: string, value: string)
    ensures key + "=" <= key + "=" + value && (key + "=" + value)[|key| + 1..] == value
  {
  }

  /**
   The text after a set: everything before the key's first line is kept, then comes the new line, then what came after
   the old one. A key that is absent gets a line of its own at the end of the trimmed text.
   */
  lemma SetRewritesOneLine(s: string, key: string, value: string) returns (m: Match)
    requires IsKey(key)
    ensures Set(s, key, value) == m.pre + m.line + m.post && m.line == key + "=" + Stored(s, key, value)
    ensures m.pre == [] || IsTerminator(m.pre[|m.pre| - 1])
    ensures m.post == [] || IsTerminator(m.post[0])
    ensures Locate(m.pre, key).None?
    ensures match Locate(s, key) {
              case Some(was) => s == was.pre + was.line + was.post && m.pre == was.pre && m.post == was.post
              case None => m.pre == TrimEnd(s) + "\n" && m.post == "\n"
            }
  {
    var text := key + "=" + value;
    if Locate(s, key).Some? {
      LocatedIsMatched(s, key);
      var was := Locate(s, key).value;
      ExpandPrefix(key + "=", value, was.pre, was.line, was.post);
      m := Match(was.pre, key + "=" + Stored(s, key, value), was.post);
    } else {
      m := Match(TrimEnd(s) + "\n", text, "\n");
      AbsentFromTrimmed(s, key);
    }
  }

  lemma AbsentFromTrimmed(s: string, key: string)
    requires IsKey(key) && Locate(s, key).None?
    ensures Locate(TrimEnd(s) + "\n", key).None?
  {
    GetIgnoresTrimEnd(s, key);
    LastLine("", key);
    SearchConcat(TrimEnd(s), '\n', "", key);
    assert TrimEnd(s) + ['\n'] + "" == TrimEnd(s) + "\n";
  }

  /** A new line between whole lines is located; when its value has terminators, its first line is. */
  lemma LocateNewLine(pre: string, key: string, value: string, post: string)
    requires IsKey(key) && Locate(pre, key).None?
    requires pre == [] || IsTerminator(pre[|pre| - 1])
    requires post == [] || IsTerminator(post[0])
    ensures var n := |Line(value)|;
            Locate(pre + (key + "=" + value) + post, key)
                == Some(Match(pre, key + "=" + Line(value), value[n..] + post))
  {
    var line, tail := key + "=" + Line(value), value[|Line(value)|..];
    HeadIsLineFree(key, Line(value));
    var m := Match(pre, line, tail + post);
    assert Matched(m, key);
    MatchedIsLocated(m, key);
    Regroup(pre, line, tail, post);
    SplitValue(key, value);
  }

  lemma SplitValue(key: string, value: string)
    ensures key + "=" + value == (key + "=" + Line(value)) + value[|Line(value)|..]
  {
    TakeDrop(key + "=", value, |Line(value)|);
  }

  lemma TakeDrop(head: string, value: string, n: nat)
    requires n <= |value|
    ensures head + value == (head + value[..n]) + value[n..]
  {
  }

  lemma Regroup(pre: string, a: string, b: string, post: string)
    ensures pre + (a + b) + post == pre + a + (b + post)
  {
  }

  lemma HeadIsLineFree(key: string, value: string)
    requires IsKey(key) && LineFree(value)
    ensures LineFree(key + "=" + value)
  {
    var head := key + "=";
    assert head[|key|] == '=' && forall i | 0 <= i < |key| :: head[i] == key[i];
  }

  lemma LocateAfterSet(s: string, key: string, value: string) returns (m: Match)
    requires IsKey(key)
    ensures Locate(Set(s, key, value), key) == Some(m) && m.line == key + "=" + Line(Stored(s, key, value))
    ensures var stored := Stored(s, key, value);
            exists post :: m.post == stored[|Line(stored)|..] + post
                && Set(s, key, value) == m.pre + (key + "=" + stored) + post
  {
    var stored := Stored(s, key, value);
    var new_ := SetRewritesOneLine(s, key, value);
    LocateNewLine(new_.pre, key, stored, new_.post);
    m := Match(new_.pre, key + "=" + Line(stored), stored[|Line(stored)|..] + new_.post);
  }

  lemma TrimShrinks(s: string)
    ensures |TrimStart(s)| <= |s| && |Trim(s)| <= |s|
  {
    if s != [] && IsSpace(s[0]) { TrimShrinks(s[1..]); }
    StartShrinks(TrimEnd(s));
  }

  lemma StartShrinks(s: string)
    ensures |TrimStart(s)| <= |s|
  {
  }

  /**
   envValue after setEnvValue of the same key, for every value: the first line of what was stored, trimmed. For a value
   stored as written that is the value itself exactly when it has no line terminator and no space around it.
   */
  lemma SetThenGet(s: string, key: string, value: string)
    requires IsKey(key)
    ensures Get(Set(s, key, value), key) == Some(Trim(Line(Stored(s, key, value))))
    ensures StoredAsWritten(s, key, value) ==>
              (Get(Set(s, key, value), key) == Some(value) <==> LineFree(value) && Trim(value) == value)
  {
    var m := LocateAfterSet(s, key, value);
    HeadAndTail(key, Line(Stored(s, key, value)));
    if StoredAsWritten(s, key, value) {
      WrittenIsStored(s, key, value);
      ReadsBackIff(value);
    }
  }

  lemma ReadsBackIff(value: string)
    ensures Trim(Line(value)) == value <==> LineFree(value) && Trim(value) == value
  {
    LineFreeIsWhole(value);
    TrimShrinks(Line(value));
  }

  /** Searching in whole lines followed by more text. */
  lemma SearchBehind(pre: string, x: string, key: string)
    requires pre == [] || IsTerminator(pre[|pre| - 1])
    ensures Search(pre + x, key) == if Search(pre, key).Some? then Search(pre, key) else Search(x, key)
  {
    LastLine("", key);
    if pre == [] {
      assert pre + x == x;
    } else {
      var a, t := pre[..|pre| - 1], pre[|pre| - 1];
      assert pre + x == a + [t] + x && pre == a + [t] + "";
      SearchConcat(a, t, x, key);
      SearchConcat(a, t, "", key);
    }
  }

  /** The line of one key does not count for another. */
  lemma SearchPastLine(line: string, post: string, key: string, other: string)
    requires IsKey(key) && IsKey(other) && other != key && LineFree(line) && key + "=" <= line
    requires post == [] || IsTerminator(post[0])
    ensures Search(line + post, other) == if post == [] then None else Search(post[1..], other)
  {
    OnlyOwnKey(line, key, other);
    LastLine(line, other);
    if post == [] {
      assert line + post == line;
    } else {
      assert line + post == line + [post[0]] + post[1..];
      FirstLine(line, post[0], post[1..], other);
    }
  }

  /** What a search for another key finds does not depend on the line between pre and post. */
  function Around(pre: string, post: string, other: string): Option<string> {
    if Search(pre, other).Some? then Search(pre, other) else if post == [] then None else Search(post[1..], other)
  }

  lemma SearchAround(pre: string, line: string, post: string, key: string, other: string)
    requires IsKey(key) && IsKey(other) && other != key && LineFree(line) && key + "=" <= line
    requires pre == [] || IsTerminator(pre[|pre| - 1])
    requires post == [] || IsTerminator(post[0])
    ensures Search(pre + line + post, other) == Around(pre, post, other)
  {
    assert pre + line + post == pre + (line + post);
    SearchBehind(pre, line + post, other);
    SearchPastLine(line, post, key, other);
  }

  lemma AroundEnd(s: string, other: string)
    requires IsKey(other)
    ensures Around(TrimEnd(s) + "\n", "\n", other) == Search(TrimEnd(s), other)
  {
    LastLine("", other);
    assert TrimEnd(s) + "\n" == TrimEnd(s) + ['\n'] + "";
    SearchConcat(TrimEnd(s), '\n', "", other);
  }

  /** What the lines of a value after its first one set. */
  function Injected(value: string, other: string): Option<string> {
    if Rest(value).Some? then Get(Rest(value).value, other) else None
  }

  /** A whole line, and then the rest of the stored value followed by what follows the line. */
  lemma SearchPastValue(key: string, value: string, post: string, other: string)
    requires IsKey(key) && IsKey(other) && other != key && (post == [] || IsTerminator(post[0]))
    ensures Search(key + "=" + value + post, other) ==
            if Rest(value).Some? && Search(Rest(value).value, other).Some? then Search(Rest(value).value, other)
            else if post == [] then None
            else Search(post[1..], other)
  {
    var line, t, rest := Cut(value);
    CutIsLine(value, line, t, rest);
    HeadIsLineFree(key, line);
    HeadAndTail(key, line);
    if LineFree(value) {
      SearchPastLine(key + "=" + line, post, key, other);
    } else {
      assert value[|line|..] == [t] + rest && Rest(value) == Some(rest);
      var after := [t] + (rest + post);
      assert key + "=" + value + post == (key + "=" + line) + after;
      SearchPastLine(key + "=" + line, after, key, other);
      assert after[1..] == rest + post;
      SearchTwoParts(rest, post, other);
    }
  }

  lemma SearchTwoParts(a: string, post: string, other: string)
    requires post == [] || IsTerminator(post[0])
    ensures Search(a + post, other) ==
            if Search(a, other).Some? then Search(a, other) else if post == [] then None else Search(post[1..], other)
  {
    if post == [] {
      assert a + post == a;
    } else {
      assert a + post == a + [post[0]] + post[1..];
      SearchConcat(a, post[0], post[1..], other);
    }
  }

  /**
   Every other key, for every value: its line before the rewritten one wins, then a line inside the stored value, and
   only then what the text held before.
   */
  lemma SetThenGetOther(s: string, key: string, value: string, other: string) returns (m: Match)
    requires IsKey(key) && IsKey(other) && other != key
    ensures Set(s, key, value) == m.pre + m.line + m.post && m.line == key + "=" + Stored(s, key, value)
    ensures Get(Set(s, key, value), other) ==
            if Locate(m.pre, other).Some? then Get(m.pre, other)
            else if Injected(Stored(s, key, value), other).Some? then Injected(Stored(s, key, value), other)
            else Get(s, other)
    ensures Locate(m.pre, other).Some? ==> Get(m.pre, other) == Get(s, other)
  {
    m := SetRewritesOneLine(s, key, value);
    SearchInThree(m.pre, key, Stored(s, key, value), m.post, other);
    OtherWithoutInjection(s, key, m.pre, m.post, other);
  }

  lemma SearchInThree(pre: string, key: string, stored: string, post: string, other: string)
    requires IsKey(key) && IsKey(other) && other != key
    requires pre == [] || IsTerminator(pre[|pre| - 1])
    requires post == [] || IsTerminator(post[0])
    ensures Search(pre + (key + "=" + stored) + post, other) ==
            if Search(pre, other).None? && Rest(stored).Some? && Search(Rest(stored).value, other).Some?
            then Search(Rest(stored).value, other)
            else Around(pre, post, other)
  {
    var line := key + "=" + stored;
    assert pre + line + post == pre + (line + post);
    SearchBehind(pre, line + post, other);
    SearchPastValue(key, stored, post, other);
  }

  lemma OtherWithoutInjection(s: string, key: string, pre: string, post: string, other: string)
    requires IsKey(key) && IsKey(other) && other != key
    requires match Locate(s, key) {
               case Some(was) => pre == was.pre && post == was.post
               case None => pre == TrimEnd(s) + "\n" && post == "\n"
             }
    ensures match Around(pre, post, other) {
              case Some(line) => |other| < |line| && Get(s, other) == Some(Trim(line[|other| + 1..]))
              case None => Get(s, other) == None
            }
  {
    if Locate(s, key).Some? {
      var was := Locate(s, key).value;
      LocatedIsMatched(s, key);
      SearchAround(was.pre, was.line, was.post, key, other);
    } else {
      AroundEnd(s, other);
      GetIgnoresTrimEnd(s, other);
    }
  }

  /**
   Another key keeps its value exactly when its line comes before the rewritten one, or the stored value sets no such
   key, or sets it to what it was.
   */
  lemma SetKeepsOthers(s: string, key: string, value: string, other: string) returns (m: Match)
    requires IsKey(key) && IsKey(other) && other != key
    ensures Set(s, key, value) == m.pre + m.line + m.post && m.line == key + "=" + Stored(s, key, value)
    ensures var injected := Injected(Stored(s, key, value), other);
            Get(Set(s, key, value), other) == Get(s, other)
            <==> Locate(m.pre, other).Some? || injected.None? || injected == Get(s, other)
  {
    m := SetThenGetOther(s, key, value, other);
  }

  /** In particular a value without line terminators, stored as written, leaves every other key alone. */
  lemma OneLineKeepsOthers(s: string, key: string, value: string, other: string)
    requires IsKey(key) && IsKey(other) && other != key && StoredAsWritten(s, key, value) && LineFree(value)
    ensures Get(Set(s, key, value), other) == Get(s, other)
  {
    var _ := SetKeepsOthers(s, key, value, other);
    WrittenIsStored(s, key, value);
    LineFreeIsWhole(value);
  }

  lemma StoredGrows(pre: string, key: string, value: string, tail: string, post: string)
    ensures |pre + (key + "=" + value) + (tail + post)| == |pre + (key + "=" + value) + post| + |tail|
  {
  }

  /**
   Repeating a set of a value without patterns leaves the text unchanged exactly when the value has no line
   terminator.
   */
  lemma SetIsIdempotent(s: string, key: string, value: string)
    requires IsKey(key) && Inert(value)
    ensures Set(Set(s, key, value), key, value) == Set(s, key, value) <==> LineFree(value)
  {
    WrittenIsStored(s, key, value);
    var m := LocateAfterSet(s, key, value);
    var tail := value[|Line(value)|..];
    var post :| m.post == tail + post && Set(s, key, value) == m.pre + (key + "=" + value) + post;
    InertLine(key, value);
    ExpandInert(key + "=" + value, m.pre, m.line, m.post);
    StoredGrows(m.pre, key, value, tail, post);
    LineFreeIsWhole(value);
    if LineFree(value) { assert tail + post == post; }
  }

  // ---- Any sequence of edits ----

  datatype Edit = Edit(key: string, value: string)

  predicate IsPlain(e: Edit) { IsKey(e.key) && Inert(e.value) && LineFree(e.value) && Trim(e.value) == e.value }

  function SetAll(s: string, edits: seq<Edit>): string
    decreases |edits|
  {
    if edits == [] then s else SetAll(Set(s, edits[0].key, edits[0].value), edits[1..])
  }

  function Updates(edits: seq<Edit>): map<string, string> {
    if edits == [] then map[] else map[edits[0].key := edits[0].value] + Updates(edits[1..])
  }

  /** After any sequence of edits every key reads as its last set value, and a key never set as it did at first. */
  lemma {:induction false} TextIsMap(s: string, edits: seq<Edit>, key: string)
    requires IsKey(key) && forall e | e in edits :: IsPlain(e)
    ensures Get(SetAll(s, edits), key) == if key in Updates(edits) then Some(Updates(edits)[key]) else Get(s, key)
    decreases |edits|
  {
    if edits != [] {
      var e := edits[0];
      assert IsPlain(e);
      TextIsMap(Set(s, e.key, e.value), edits[1..], key);
      if key == e.key { SetThenGet(s, key, e.value); } else { OneLineKeepsOthers(s, e.key, e.value, key); }
    }
  }

  // ---- Where it is not ----

  /** A value with a replacement pattern is not stored as written: `$&` puts the old line behind the key. */
  lemma PatternIsExpanded(key: string, was: string)
    requires IsKey(key) && LineFree(key + "=" + was)
    ensures Set(key + "=" + was, key, "$&") == key + "=" + (key + "=" + was)
  {
    var s, text := key + "=" + was, key + "=" + "$&";
    LastLine(s, key);
    ExpandPrefix(key + "=", "$&", "", s, "");
    ExpandMatched(s);
    Alone(Expand(text, "", s, ""));
  }

  lemma Alone(s: string)
    ensures "" + s + "" == s
  {
  }

  lemma ExpandMatched(line: string)
    ensures Expand("$&", "", line, "") == line
  {
    assert "$&"[2..] == "";
    assert line + "" == line;
  }

  /** And yet a value with a pattern can be read back right, by accident of the text before the key. */
  lemma PatternCanReadBack(key: string)
    requires IsKey(key)
    ensures !Inert("$`") && Get(Set("$`\n" + (key + "="), key, "$`"), key) == Some("$`")
  {
    BacktickLine(key);
    SecondLine("$`", key);
    ExpandBefore("$`\n", key + "=");
    SetThenGet("$`\n" + (key + "="), key, "$`");
  }

  lemma SecondLine(first: string, key: string)
    requires IsKey(key) && LineFree(first) && !(key + "=" <= first)
    ensures Locate(first + ['\n'] + (key + "="), key) == Some(Match(first + ['\n'], key + "=", ""))
  {
    HeadIsLineFree(key, "");
    assert key + "=" + "" == key + "=";
    LastLine(key + "=", key);
    FirstLine(first, '\n', key + "=", key);
    assert first + ['\n'] + "" == first + ['\n'];
  }

  lemma BacktickLine(key: string)
    requires IsKey(key)
    ensures "$`\n" == "$`" + ['\n'] && LineFree("$`") && !(key + "=" <= "$`") && !Inert("$`")
    ensures Line("$`\n") == "$`" && Trim("$`") == "$`"
  {
    PatternLine();
    BacktickHasNoKey(key);
    assert "$`"[0] == '$' && IsPattern("$`"[0 + 1]);
  }

  lemma BacktickHasNoKey(key: string)
    ensures !(key + "=" <= "$`")
  {
    assert (key + "=")[|key|] == '=';
    assert forall i | 0 <= i < 2 :: "$`"[i] != '=';
  }

  lemma ExpandBefore(before: string, matched: string)
    ensures Expand("$`", before, matched, "") == before
  {
    assert "$`"[2..] == "";
    assert before + "" == before;
  }

  lemma PatternLine()
    ensures Line("$`\n") == "$`" && Trim("$`") == "$`"
  {
    LineOfConcat("$`", "\n");
    assert "$`\n" == "$`" + "\n" && Line("\n") == "" && "$`" + "" == "$`";
  }

  /**
   A value with a line terminator may set another key as well: envValue then finds the injected line, unless a line of
   that key comes before the rewritten one. `x\ny` injects nothing.
   */
  lemma TerminatorInjects(s: string, key: string, other: string, value: string) returns (m: Match)
    requires IsKey(key) && IsKey(other) && key != other && Injected(Stored(s, key, value), other).Some?
    ensures Set(s, key, value) == m.pre + m.line + m.post && m.line == key + "=" + Stored(s, key, value)
    ensures Get(Set(s, key, value), other) == Injected(Stored(s, key, value), other)
            <==> Locate(m.pre, other).None? || Get(s, other) == Injected(Stored(s, key, value), other)
  {
    m := SetThenGetOther(s, key, value, other);
  }

  // ---- Patterns and spaces, character by character ----

  /** What a two-character pattern stands for: the dollar sign, the match, or the text before or after it. */
  function Substitute(pattern: char, before: string, matched: string, after: string): string
    requires IsPattern(pattern)
  {
    if pattern == '$' then "$" else if pattern == '&' then matched else if pattern == '`' then before else after
  }

  /** A value is expanded pattern by pattern, from the left; what is no pattern stays as it is. */
  lemma PatternsAreReplaced(plain: string, pattern: char, rest: string, before: string, matched: string, after: string)
    requires '$' !in plain && IsPattern(pattern)
    ensures Expand(plain + ['$', pattern] + rest, before, matched, after)
         == plain + Substitute(pattern, before, matched, after) + Expand(rest, before, matched, after)
  {
    var text := ['$', pattern] + rest;
    assert plain + ['$', pattern] + rest == plain + text;
    assert text[2..] == rest;
    ExpandPrefix(plain, text, before, matched, after);
  }

  predicate Spaces(s: string) { forall i | 0 <= i < |s| :: IsSpace(s[i]) }

  lemma {:induction false} StartIsTrimmed(s: string)
    ensures |TrimStart(s)| <= |s|
    ensures var n := |s| - |TrimStart(s)|;
            Spaces(s[..n]) && s[n..] == TrimStart(s) && (n < |s| ==> !IsSpace(s[n]))
  {
    if s != "" && IsSpace(s[0]) {
      StartIsTrimmed(s[1..]);
      var n := |s| - |TrimStart(s)|;
      assert s[..n] == [s[0]] + s[1..][..n - 1] && s[n..] == s[1..][n - 1..];
    }
  }

  lemma {:induction false} EndIsTrimmed(s: string)
    ensures var n := |TrimEnd(s)|;
            s[..n] == TrimEnd(s) && Spaces(s[n..]) && (n != 0 ==> !IsSpace(s[n - 1]))
  {
    if s != "" && IsSpace(s[|s| - 1]) {
      EndIsTrimmed(s[..|s| - 1]);
      var n := |TrimEnd(s)|;
      assert s[n..] == s[..|s| - 1][n..] + [s[|s| - 1]];
    }
  }

  /** trim() takes away exactly the spaces at both ends. */
  lemma TrimIsExact(s: string) returns (left: string, right: string)
    ensures s == left + Trim(s) + right && Spaces(left) && Spaces(right)
    ensures Trim(s) != "" ==> !IsSpace(Trim(s)[0]) && !IsSpace(Trim(s)[|Trim(s)| - 1])
  {
    var t := TrimEnd(s);
    EndIsTrimmed(s);
    StartIsTrimmed(t);
    var n := |t| - |Trim(s)|;
    left, right := t[..n], s[|t|..];
    assert Trim(s) == t[n..] && s == t + right && t == left + t[n..];
    if Trim(s) != "" { assert Trim(s)[|Trim(s)| - 1] == t[|t| - 1] == s[|t| - 1]; }
  }
}
