/** The string operations that the modelled code borrows from Python, with the
    laws about them that several components rely on. */
module Text {

  /** What str.isspace accepts, and so what strip() and split() remove. */
  predicate IsSpace(c: char) {
    var n := c as int;
    || 9 <= n <= 13 || 28 <= n <= 32 || n == 133 || n == 160 || n == 5760
    || 8192 <= n <= 8202 || n == 8232 || n == 8233 || n == 8239 || n == 8287 || n == 12288
  }

  function LStrip(s: string): string {
    if s != [] && IsSpace(s[0]) then LStrip(s[1..]) else s
  }

  function RStrip(s: string): string {
    if s != [] && IsSpace(s[|s| - 1]) then RStrip(s[..|s| - 1]) else s
  }

  function Strip(s: string): string {
    RStrip(LStrip(s))
  }

  function LowerChar(c: char): char {
    if 'A' <= c <= 'Z' then (c as int + 32) as char else c
  }

  /** str.lower() on ASCII text. */
  function Lower(s: string): string {
    seq(|s|, i requires 0 <= i < |s| => LowerChar(s[i]))
  }

  /** s[:n] */
  function Cut<T>(s: seq<T>, n: nat): seq<T> {
    if |s| <= n then s else s[..n]
  }

  /** str.split(sep) for a one-character separator. */
  function Split(s: string, sep: char): (parts: seq<string>)
    ensures |parts| >= 1
  {
    if s == [] then [""]
    else
      var rest := Split(s[1..], sep);
      if s[0] == sep then [""] + rest else [[s[0]] + rest[0]] + rest[1..]
  }

  /** sep.join(parts) for a one-character separator. */
  function Join(parts: seq<string>, sep: char): string {
    if |parts| == 0 then ""
    else if |parts| == 1 then parts[0]
    else parts[0] + [sep] + Join(parts[1..], sep)
  }

  /** [item.strip() for item in items if item.strip()] */
  function Clean(items: seq<string>): seq<string> {
    if items == [] then []
    else (if Strip(items[0]) != "" then [Strip(items[0])] else []) + Clean(items[1..])
  }

  /** needle in hay */
  predicate Contains(hay: string, needle: string) {
    exists i :: 0 <= i <= |hay| && needle <= hay[i..]
  }

  predicate EndsWith(s: string, suffix: string) {
    |suffix| <= |s| && s[|s| - |suffix|..] == suffix
  }

  /** No two items are the same. */
  predicate Distinct<T(==)>(xs: seq<T>) {
    forall i, j :: 0 <= i < j < |xs| ==> xs[i] != xs[j]
  }

  // ---------------------------------------------------------------- stripping

  predicate LeadingClean(s: string) {
    s == [] || !IsSpace(s[0])
  }

  predicate TrailingClean(s: string) {
    s == [] || !IsSpace(s[|s| - 1])
  }

  /** Exactly the fixed points of strip(). */
  predicate Stripped(s: string) {
    LeadingClean(s) && TrailingClean(s)
  }

  lemma {:induction false} LStripClean(s: string)
    ensures LeadingClean(LStrip(s))
    ensures |LStrip(s)| <= |s|
  {
    if s != [] && IsSpace(s[0]) { LStripClean(s[1..]); }
  }

  /** RStrip returns a prefix, and what it drops is blank. */
  lemma {:induction false} RStripPrefix(s: string)
    ensures RStrip(s) <= s && TrailingClean(RStrip(s))
    ensures forall i :: |RStrip(s)| <= i < |s| ==> IsSpace(s[i])
  {
    if s != [] && IsSpace(s[|s| - 1]) {
      RStripPrefix(s[..|s| - 1]);
    }
  }

  lemma StripStripped(s: string)
    ensures Stripped(Strip(s)) && |Strip(s)| <= |s|
  {
    LStripClean(s);
    RStripPrefix(LStrip(s));
  }

  lemma StripFixed(s: string)
    ensures Strip(s) == s <==> Stripped(s)
  {
    StripStripped(s);
  }

  lemma StripIdempotent(s: string)
    ensures Strip(Strip(s)) == Strip(s)
  {
    StripStripped(s);
    StripFixed(Strip(s));
  }

  lemma LowerIdempotent(s: string)
    ensures Lower(Lower(s)) == Lower(s)
  {
  }

  lemma LowerStripped(s: string)
    requires Stripped(s)
    ensures Stripped(Lower(s))
  {
  }

  /** Capital letters become small ones, and nothing else changes. */
  lemma LowerMeans(s: string, i: nat)
    requires i < |s|
    ensures |Lower(s)| == |s|
    ensures 'A' <= s[i] <= 'Z' ==> 'a' <= Lower(s)[i] <= 'z' && Lower(s)[i] as int - 'a' as int == s[i] as int - 'A' as int
    ensures !('A' <= s[i] <= 'Z') ==> Lower(s)[i] == s[i]
  {
  }

  predicate AllBlank(s: string) {
    forall i :: 0 <= i < |s| ==> IsSpace(s[i])
  }

  /** Stripping takes the blanks off both ends, and nothing else. */
  lemma {:induction false} StripMeans(a: string, core: string, b: string)
    requires AllBlank(a) && AllBlank(b) && core != "" && Stripped(core)
    ensures Strip(a + core + b) == core
    decreases |a| + |b|
  {
    var s := a + core + b;
    if a != "" {
      assert s[0] == a[0] && s[1..] == a[1..] + core + b;
      StripMeans(a[1..], core, b);
    } else if b != "" {
      var n := |b| - 1;
      assert s[0] == core[0] && s[|s| - 1] == b[n] && s[..|s| - 1] == a + core + b[..n];
      assert (a + core + b[..n])[0] == core[0];
      StripMeans(a, core, b[..n]);
      assert LStrip(s) == s && LStrip(s[..|s| - 1]) == s[..|s| - 1];
    } else {
      assert s == core;
      StripFixed(core);
    }
  }

  /** strip().lower() is idempotent. */
  lemma FoldIdempotent(s: string)
    ensures Lower(Strip(Lower(Strip(s)))) == Lower(Strip(s))
    ensures Stripped(Lower(Strip(s)))
  {
    StripStripped(s);
    LowerStripped(Strip(s));
    StripFixed(Lower(Strip(s)));
    LowerIdempotent(Strip(s));
  }

  predicate IsClean(items: seq<string>) {
    forall i :: 0 <= i < |items| ==> items[i] != "" && Stripped(items[i])
  }

  lemma {:induction false} CleanIsClean(items: seq<string>)
    ensures IsClean(Clean(items))
  {
    if items != [] {
      StripStripped(items[0]);
      CleanIsClean(items[1..]);
    }
  }

  lemma {:induction false} CleanFixed(items: seq<string>)
    requires IsClean(items)
    ensures Clean(items) == items
  {
    if items != [] {
      StripFixed(items[0]);
      CleanFixed(items[1..]);
    }
  }

  // ------------------------------------------------------------ trim, then cut

  /** str(...).strip()[:n] */
  function TrimCut(s: string, n: nat): string {
    Cut(Strip(s), n)
  }

  /** Exactly the fixed points of TrimCut. */
  predicate TrimCutFixed(s: string, n: nat) {
    Stripped(s) && |s| <= n
  }

  lemma TrimCutFixedPoint(s: string, n: nat)
    ensures TrimCut(s, n) == s <==> TrimCutFixed(s, n)
  {
    StripStripped(s);
    StripFixed(s);
  }

  /** Cutting can expose a trailing blank, so one pass is not enough; a second
      pass removes it without exposing another. */
  lemma TrimCutStabilises(s: string, n: nat)
    ensures TrimCutFixed(TrimCut(TrimCut(s, n), n), n)
    ensures TrimCut(TrimCut(TrimCut(s, n), n), n) == TrimCut(TrimCut(s, n), n)
  {
    var once := TrimCut(s, n);
    StripStripped(s);
    StripStripped(once);
    assert TrimCut(once, n) == Strip(once);
    TrimCutFixedPoint(Strip(once), n);
  }

  // ---------------------------------------------------------- splitting, joining

  lemma {:induction false} JoinSplit(s: string, sep: char)
    ensures Join(Split(s, sep), sep) == s
  {
    if s != [] {
      JoinSplit(s[1..], sep);
      var rest := Split(s[1..], sep);
      if s[0] == sep {
        assert Split(s, sep)[1..] == rest;
      } else {
        assert Split(s, sep)[1..] == rest[1..];
        assert s == [s[0]] + s[1..];
      }
    }
  }

  lemma {:induction false} SplitPlain(s: string, sep: char)
    requires sep !in s
    ensures Split(s, sep) == [s]
  {
    if s != [] {
      SplitPlain(s[1..], sep);
      assert [s[0]] + s[1..] == s;
    }
  }

  lemma {:induction false} SplitAtSep(s: string, sep: char, rest: string)
    requires sep !in s
    ensures Split(s + [sep] + rest, sep) == [s] + Split(rest, sep)
  {
    var all := s + [sep] + rest;
    if s == [] {
      assert all[1..] == rest;
    } else {
      SplitAtSep(s[1..], sep, rest);
      assert all[1..] == s[1..] + [sep] + rest;
      assert [s[0]] + s[1..] == s;
    }
  }

  /** Splitting undoes joining when no part holds the separator. */
  lemma {:induction false} SplitJoin(parts: seq<string>, sep: char)
    requires |parts| >= 1
    requires forall i :: 0 <= i < |parts| ==> sep !in parts[i]
    ensures Split(Join(parts, sep), sep) == parts
  {
    if |parts| == 1 {
      SplitPlain(parts[0], sep);
    } else {
      SplitJoin(parts[1..], sep);
      SplitAtSep(parts[0], sep, Join(parts[1..], sep));
      assert [parts[0]] + parts[1..] == parts;
    }
  }

  lemma {:induction false} SplitPartsFree(s: string, sep: char)
    ensures forall i :: 0 <= i < |Split(s, sep)| ==> sep !in Split(s, sep)[i]
  {
    if s != [] { SplitPartsFree(s[1..], sep); }
  }

  // --------------------------------------------------------------------- words

  /** str.split(): the maximal runs without white space. */
  function Words(s: string): (ws: seq<string>)
    ensures s != [] && !IsSpace(s[0]) ==> ws != []
  {
    if s == [] then []
    else if IsSpace(s[0]) then Words(s[1..])
    else if |s| == 1 || IsSpace(s[1]) then [[s[0]]] + Words(s[1..])
    else
      var rest := Words(s[1..]);
      [[s[0]] + rest[0]] + rest[1..]
  }

  predicate IsWord(w: string) {
    w != [] && forall i :: 0 <= i < |w| ==> !IsSpace(w[i])
  }

  predicate AllWords(ws: seq<string>) {
    forall i :: 0 <= i < |ws| ==> IsWord(ws[i])
  }

  lemma {:induction false} WordsAreWords(s: string)
    ensures AllWords(Words(s))
  {
    if s == [] {
    } else {
      WordsAreWords(s[1..]);
      if !IsSpace(s[0]) && !(|s| == 1 || IsSpace(s[1])) {
        var rest := Words(s[1..]);
        assert IsWord(rest[0]);
      }
    }
  }

  lemma {:induction false} JoinWordsStripped(ws: seq<string>)
    requires AllWords(ws)
    ensures Stripped(Join(ws, ' '))
    ensures ws != [] ==> Join(ws, ' ') != []
  {
    if |ws| == 0 {
    } else {
      assert IsWord(ws[0]);
      if |ws| > 1 {
        JoinWordsStripped(ws[1..]);
        var rest := Join(ws[1..], ' ');
        assert Join(ws, ' ')[|Join(ws, ' ')| - 1] == rest[|rest| - 1];
      }
    }
  }

  lemma {:induction false} WordsPrepend(w: string, rest: string)
    requires IsWord(w) && (rest == [] || IsSpace(rest[0]))
    ensures Words(w + rest) == [w] + Words(rest)
  {
    var all := w + rest;
    assert all[1..] == w[1..] + rest;
    if |w| == 1 {
      assert all[1..] == rest;
      assert [all[0]] == w;
    } else {
      WordsPrepend(w[1..], rest);
      assert [w[0]] + w[1..] == w;
      assert all[1] == w[1];
    }
  }

  /** split() undoes " ".join on words. */
  lemma {:induction false} WordsJoin(ws: seq<string>)
    requires AllWords(ws)
    ensures Words(Join(ws, ' ')) == ws
  {
    if |ws| == 0 {
    } else if |ws| == 1 {
      assert IsWord(ws[0]);
      WordsPrepend(ws[0], "");
      assert ws[0] + "" == ws[0];
    } else {
      var rest := Join(ws[1..], ' ');
      assert IsWord(ws[0]);
      WordsJoin(ws[1..]);
      WordsPrepend(ws[0], " " + rest);
      assert ws[0] + (" " + rest) == Join(ws, ' ');
      assert (" " + rest)[1..] == rest;
      assert [ws[0]] + ws[1..] == ws;
    }
  }

  /** Cutting single-spaced words leaves single-spaced words, up to one trailing blank. */
  lemma {:induction false} CutWords(ws: seq<string>, n: nat) returns (kept: seq<string>)
    requires AllWords(ws)
    ensures AllWords(kept)
    ensures ws != [] && n > 0 ==> kept != []
    ensures Cut(Join(ws, ' '), n) == Join(kept, ' ') || Cut(Join(ws, ' '), n) == Join(kept, ' ') + " "
  {
    var all := Join(ws, ' ');
    if |all| <= n {
      kept := ws;
    } else if n == 0 {
      kept := [];
    } else if n <= |ws[0]| {
      assert IsWord(ws[0]);
      kept := [ws[0][..n]];
      assert all[..n] == ws[0][..n];
    } else {
      assert IsWord(ws[0]);
      var rest := Join(ws[1..], ' ');
      assert all == ws[0] + " " + rest;
      if n == |ws[0]| + 1 {
        kept := [ws[0]];
        assert all[..n] == ws[0] + " ";
      } else {
        var m := n - |ws[0]| - 1;
        var tail := CutWords(ws[1..], m);
        kept := [ws[0]] + tail;
        assert all[..n] == ws[0] + " " + Cut(rest, m);
        assert kept[1..] == tail;
      }
    }
  }

  lemma RStripBlank(s: string)
    requires TrailingClean(s)
    ensures RStrip(s) == s && RStrip(s + " ") == s
  {
    assert (s + " ")[..|s|] == s;
  }
}
