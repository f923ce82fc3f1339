/**
 * String helpers with JavaScript's meaning: `String(n)` for naturals, `Array.prototype.join`,
 * `startsWith`, `trim`, `indexOf("\n")`, `split`, ASCII `toLowerCase` and `includes`.
 */
module Text {

  /** The characters JavaScript's `trim` and the regular-expression class `\s` treat as white space. */
  predicate IsWhitespace(c: char) {
    c == ' ' || c == '\t' || c == '\n' || c == '\r' || c == '\U{000B}' || c == '\U{000C}'
    || c == '\U{00A0}' || c == '\U{1680}' || ('\U{2000}' <= c <= '\U{200A}')
    || c == '\U{2028}' || c == '\U{2029}' || c == '\U{202F}' || c == '\U{205F}'
    || c == '\U{3000}' || c == '\U{FEFF}'
  }

  predicate IsNewline(c: char) { c == '\n' }

  function DigitChar(d: nat): (c: char)
    requires d < 10
    ensures '0' <= c <= '9'
  {
    "0123456789"[d]
  }

  /** Decimal rendering of a natural number, as a template literal `${n}` prints it. */
  function NatToString(n: nat): (r: string)
    ensures |r| > 0
    ensures forall i :: 0 <= i < |r| ==> '0' <= r[i] <= '9'
    decreases n
  {
    if n < 10 then [DigitChar(n)] else NatToString(n / 10) + [DigitChar(n % 10)]
  }

  /** Decimal rendering of an integer, with a leading minus sign when negative. */
  function IntToString(n: int): (r: string)
    ensures |r| > 0
    ensures n >= 0 ==> r == NatToString(n)
  {
    if n >= 0 then NatToString(n) else "-" + NatToString(-n)
  }

  /** `parts.join(sep)`: the empty list gives "", one part gives itself. */
  function Join(parts: seq<string>, sep: string): string
    decreases |parts|
  {
    if |parts| == 0 then "" else if |parts| == 1 then parts[0] else parts[0] + sep + Join(parts[1..], sep)
  }

  lemma {:induction false} JoinSnoc(parts: seq<string>, x: string, sep: string)
    ensures Join(parts + [x], sep) == if parts == [] then x else Join(parts, sep) + sep + x
    decreases |parts|
  {
    if |parts| > 1 {
      assert (parts + [x])[1..] == parts[1..] + [x];
      JoinSnoc(parts[1..], x, sep);
    } else if |parts| == 1 {
      assert (parts + [x])[1..] == [x];
    }
  }

  predicate StartsWith(s: string, prefix: string) {
    |prefix| <= |s| && s[..|prefix|] == prefix
  }

  predicate EndsWith(s: string, suffix: string) {
    |suffix| <= |s| && s[|s| - |suffix|..] == suffix
  }

  /** A text begins with its first part. */
  lemma StartsWithConcat(a: string, b: string)
    ensures StartsWith(a + b, a)
  {
    assert (a + b)[..|a|] == a;
  }

  /** A suffix of the last part is a suffix of the whole. */
  lemma EndsWithConcat(a: string, b: string, e: string)
    requires EndsWith(b, e)
    ensures EndsWith(a + b, e)
  {
    assert (a + b)[|a + b| - |e|..] == b[|b| - |e|..];
  }

  /** `s.trimStart()`. */
  function TrimStart(s: string): (r: string)
    ensures |r| <= |s|
    decreases |s|
  {
    if s != [] && IsWhitespace(s[0]) then TrimStart(s[1..]) else s
  }

  /** `s.trimEnd()`. */
  function TrimEnd(s: string): (r: string)
    ensures |r| <= |s|
    decreases |s|
  {
    if s != [] && IsWhitespace(s[|s| - 1]) then TrimEnd(s[..|s| - 1]) else s
  }

  /** `trimStart` removes a run of white space and stops at the first other character. */
  lemma {:induction false} TrimStartSpec(s: string)
    ensures TrimStart(s) == s[|s| - |TrimStart(s)|..]
    ensures TrimStart(s) == [] || !IsWhitespace(TrimStart(s)[0])
    ensures forall i :: 0 <= i < |s| - |TrimStart(s)| ==> IsWhitespace(s[i])
    decreases |s|
  {
    if s != [] && IsWhitespace(s[0]) {
      TrimStartSpec(s[1..]);
    }
  }

  /** `trimEnd` removes a run of white space and stops at the last other character. */
  lemma {:induction false} TrimEndSpec(s: string)
    ensures TrimEnd(s) == s[..|TrimEnd(s)|]
    ensures TrimEnd(s) == [] || !IsWhitespace(TrimEnd(s)[|TrimEnd(s)| - 1])
    ensures forall i :: |TrimEnd(s)| <= i < |s| ==> IsWhitespace(s[i])
    decreases |s|
  {
    if s != [] && IsWhitespace(s[|s| - 1]) {
      TrimEndSpec(s[..|s| - 1]);
    }
  }

  /** `s.trim()`: white space removed at both ends. */
  function Trim(s: string): string {
    TrimEnd(TrimStart(s))
  }

  lemma {:induction false} TrimStartSnoc(p: string, c: char)
    ensures TrimStart(p + [c]) ==
            if TrimStart(p) == [] then (if IsWhitespace(c) then [] else [c]) else TrimStart(p) + [c]
    decreases |p|
  {
    if p == [] {
      assert p + [c] == [c];
      assert [c][1..] == [];
    } else {
      assert (p + [c])[1..] == p[1..] + [c];
      if IsWhitespace(p[0]) {
        TrimStartSnoc(p[1..], c);
      }
    }
  }

  /** Trailing white space does not change the trimmed text. */
  lemma TrimSnocWhitespace(p: string, c: char)
    requires IsWhitespace(c)
    ensures Trim(p + [c]) == Trim(p)
  {
    TrimStartSnoc(p, c);
    var t := TrimStart(p);
    if t != [] {
      assert (t + [c])[..|t|] == t;
    }
  }

  /** A text whose first character is not white space is not blank. */
  lemma TrimNotBlank(s: string)
    requires s != [] && !IsWhitespace(s[0])
    ensures Trim(s) != ""
  {
    assert TrimStart(s) == s;
    TrimEndSpec(s);
  }

  /** A string is blank (`s.trim() === ""`) exactly when every character is white space. */
  lemma TrimEmptyIff(s: string)
    ensures Trim(s) == "" <==> forall i :: 0 <= i < |s| ==> IsWhitespace(s[i])
  {
    var t := TrimStart(s);
    TrimStartSpec(s);
    TrimEndSpec(t);
    assert forall i :: 0 <= i < |t| ==> t[i] == s[|s| - |t| + i];
    if Trim(s) == "" {
      assert t == [];
    }
  }

  /** Trimming twice is trimming once. */
  lemma TrimIdempotent(s: string)
    ensures Trim(Trim(s)) == Trim(s)
  {
    var x := TrimStart(s);
    var t := TrimEnd(x);
    TrimStartSpec(s);
    TrimEndSpec(x);
    if t != [] {
      assert t[0] == x[0];
      assert TrimStart(t) == t;
      assert TrimEnd(t) == t;
    }
  }

  /** Trimming leaves a string without white space unchanged. */
  lemma TrimNoWhitespace(s: string)
    requires forall i :: 0 <= i < |s| ==> !IsWhitespace(s[i])
    ensures Trim(s) == s
  {
    TrimStartSpec(s);
    assert s == [] || !IsWhitespace(s[0]);
    assert TrimStart(s) == s;
    TrimEndSpec(s);
    assert s == [] || !IsWhitespace(s[|s| - 1]);
  }

  /** `s.indexOf("\n")`: the position of the first line feed, or -1 when there is none. */
  function IndexOfNewline(s: string): (r: int)
    ensures -1 <= r < |s|
    ensures r == -1 ==> (forall i :: 0 <= i < |s| ==> s[i] != '\n')
    ensures r >= 0 ==> s[r] == '\n' && forall i :: 0 <= i < r ==> s[i] != '\n'
    decreases |s|
  {
    if s == [] then -1
    else if s[0] == '\n' then 0
    else
      var k := IndexOfNewline(s[1..]);
      if k < 0 then -1 else k + 1
  }

  predicate NoNewline(s: string) {
    forall i :: 0 <= i < |s| ==> s[i] != '\n'
  }

  /** A string without line feeds has no line feed to find. */
  lemma {:induction false} IndexOfNewlineNone(s: string)
    requires NoNewline(s)
    ensures IndexOfNewline(s) == -1
    decreases |s|
  {
    if s != [] {
      IndexOfNewlineNone(s[1..]);
    }
  }

  /** A line feed at `j` is found, at `j` or before. */
  lemma {:induction false} IndexOfNewlineFound(s: string, j: nat)
    requires j < |s| && s[j] == '\n'
    ensures 0 <= IndexOfNewline(s) <= j
    decreases j
  {
    if j > 0 && s[0] != '\n' {
      IndexOfNewlineFound(s[1..], j - 1);
    }
  }

  /** In `line + "\n" + rest` with a line-feed-free `line`, the first line feed is the one after `line`. */
  lemma IndexOfNewlineAfterLine(line: string, rest: string)
    requires NoNewline(line)
    ensures IndexOfNewline(line + "\n" + rest) == |line|
    ensures (line + "\n" + rest)[..|line|] == line
    ensures (line + "\n" + rest)[|line| + 1..] == rest
  {
    var s := line + "\n" + rest;
    assert s[|line|] == '\n';
    assert forall i :: 0 <= i < |line| ==> s[i] == line[i];
  }

  /** Appending text after a line feed does not move the first line feed. */
  lemma IndexOfNewlineAppend(b: string, rest: string)
    requires IndexOfNewline(b) >= 0
    ensures IndexOfNewline(b + rest) == IndexOfNewline(b)
    ensures (b + rest)[..IndexOfNewline(b)] == b[..IndexOfNewline(b)]
    ensures (b + rest)[IndexOfNewline(b) + 1..] == b[IndexOfNewline(b) + 1..] + rest
  {
    var k := IndexOfNewline(b);
    var s := b + rest;
    assert forall i :: 0 <= i <= k ==> s[i] == b[i];
    IndexOfNewlineFirst(s, k);
  }

  /** Concatenation regroups: stated once so that callers need not fall back on extensionality. */
  lemma Assoc(a: string, b: string, c: string)
    ensures (a + b) + c == a + (b + c)
  {
  }

  /** A text with a line feed splits into its first line, that line feed and the rest. */
  lemma IndexOfNewlineSplit(s: string)
    requires IndexOfNewline(s) >= 0
    ensures s == s[..IndexOfNewline(s)] + "\n" + s[IndexOfNewline(s) + 1..]
    ensures NoNewline(s[..IndexOfNewline(s)])
  {
    var k := IndexOfNewline(s);
    assert s[k] == '\n';
    assert s == s[..k] + [s[k]] + s[k + 1..];
  }

  /** A line feed at `k` with none before it is the first one. */
  lemma {:induction false} IndexOfNewlineFirst(s: string, k: nat)
    requires k < |s| && s[k] == '\n' && forall i :: 0 <= i < k ==> s[i] != '\n'
    ensures IndexOfNewline(s) == k
    decreases k
  {
    if k > 0 {
      IndexOfNewlineFirst(s[1..], k - 1);
    }
  }

  /** The complete lines of a text, in order, without their line feeds: what a reader that cuts at
      every `indexOf("\n")` hands on. The unterminated remainder is not among them. */
  function CompleteLines(text: string): (r: seq<string>)
    decreases |text|
  {
    var k := IndexOfNewline(text);
    if k < 0 then [] else [text[..k]] + CompleteLines(text[k + 1..])
  }

  /** Text following a complete line does not change how that line is cut off. */
  lemma CompleteLinesStep(buffer: string, tail: string)
    requires IndexOfNewline(buffer) >= 0
    ensures CompleteLines(buffer + tail) ==
            [buffer[..IndexOfNewline(buffer)]] + CompleteLines(buffer[IndexOfNewline(buffer) + 1..] + tail)
  {
    IndexOfNewlineAppend(buffer, tail);
  }

  /** `line + "\n" + rest` begins with the line `line`. */
  lemma CompleteLinesOfLine(line: string, rest: string)
    requires NoNewline(line)
    ensures CompleteLines(line + "\n" + rest) == [line] + CompleteLines(rest)
  {
    IndexOfNewlineAfterLine(line, rest);
  }

  /** Text after the last line feed contributes no complete line. */
  lemma {:induction false} CompleteLinesTail(text: string, tail: string)
    requires text == "" || text[|text| - 1] == '\n'
    requires NoNewline(tail)
    ensures CompleteLines(text + tail) == CompleteLines(text)
    decreases |text|
  {
    if text == "" {
      assert text + tail == tail;
      IndexOfNewlineNone(tail);
    } else {
      IndexOfNewlineFound(text, |text| - 1);
      var k := IndexOfNewline(text);
      CompleteLinesStep(text, "");
      assert text + "" == text;
      CompleteLinesStep(text, tail);
      var rest := text[k + 1..];
      assert rest == "" || rest[|rest| - 1] == '\n';
      CompleteLinesTail(rest, tail);
    }
  }

  /** The pieces joined: `chunks.join("")`. */
  function Concat(chunks: seq<string>): string
    decreases |chunks|
  {
    if chunks == [] then "" else chunks[0] + Concat(chunks[1..])
  }

  lemma ConcatFrom(chunks: seq<string>, i: nat)
    requires i < |chunks|
    ensures Concat(chunks[i..]) == chunks[i] + Concat(chunks[i + 1..])
  {
    assert chunks[i..][1..] == chunks[i + 1..];
  }

  /** `s.split(sep)` for a separator class: pieces between separator characters, empty ones kept. */
  function SplitBy(s: string, isSep: char -> bool): (r: seq<string>)
    ensures |r| >= 1
    ensures forall i :: 0 <= i < |r| ==> NoSep(r[i], isSep)
    decreases |s|
  {
    if s == [] then [""]
    else
      var rest := SplitBy(s[1..], isSep);
      if isSep(s[0]) then [""] + rest
      else
        var head := [s[0]] + rest[0];
        assert forall j :: 1 <= j < |head| ==> head[j] == rest[0][j - 1];
        [head] + rest[1..]
  }

  predicate NoSep(w: string, isSep: char -> bool) {
    forall i :: 0 <= i < |w| ==> !isSep(w[i])
  }

  /** A string without separator characters splits into itself. */
  lemma {:induction false} SplitByNoSep(w: string, isSep: char -> bool)
    requires NoSep(w, isSep)
    ensures SplitBy(w, isSep) == [w]
    decreases |w|
  {
    if w != [] {
      SplitByNoSep(w[1..], isSep);
      assert [w[0]] + w[1..] == w;
    }
  }

  /** Splitting `w + [c] + rest` at the separator `c` after a separator-free `w`. */
  lemma {:induction false} SplitByAfterWord(w: string, c: char, rest: string, isSep: char -> bool)
    requires NoSep(w, isSep)
    requires isSep(c)
    ensures SplitBy(w + [c] + rest, isSep) == [w] + SplitBy(rest, isSep)
    decreases |w|
  {
    var s := w + [c] + rest;
    if w == [] {
      assert s[1..] == rest;
    } else {
      assert s[1..] == w[1..] + [c] + rest;
      SplitByAfterWord(w[1..], c, rest, isSep);
      assert [w[0]] + w[1..] == w;
    }
  }

  function LowerChar(c: char): char {
    if 'A' <= c <= 'Z' then (c as int + 32) as char else c
  }

  /** `s.toLowerCase()` restricted to the ASCII letters. */
  function ToLower(s: string): (r: string)
    ensures |r| == |s|
    ensures forall i :: 0 <= i < |s| ==> r[i] == LowerChar(s[i])
  {
    seq(|s|, i requires 0 <= i < |s| => LowerChar(s[i]))
  }

  predicate OccursAt(hay: string, needle: string, i: nat) {
    i + |needle| <= |hay| && hay[i..i + |needle|] == needle
  }

  /** `hay.includes(needle)`: `needle` occurs in `hay` as a contiguous piece. */
  predicate Contains(hay: string, needle: string) {
    exists i: nat :: i <= |hay| && OccursAt(hay, needle, i)
  }

  /** Every string includes the empty string. */
  lemma ContainsEmpty(hay: string)
    ensures Contains(hay, "")
  {
    assert OccursAt(hay, "", 0);
  }
}
