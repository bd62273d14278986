/** Keeping secrets off the surface a bystander may read: word by word, token-shaped runs are masked. */
module Redaction {
  const MARK := "[redacted]"
  const WORKSPACE := "hx-wt"

  predicate IsWhite(c: char) {
    || '\U{0009}' <= c <= '\U{000D}' || c == ' ' || c == '\U{0085}' || c == '\U{00A0}' || c == '\U{1680}'
    || '\U{2000}' <= c <= '\U{200A}' || c == '\U{2028}' || c == '\U{2029}' || c == '\U{202F}'
    || c == '\U{205F}' || c == '\U{3000}'
  }

  predicate Alnum(c: char) {
    '0' <= c <= '9' || 'a' <= c <= 'z' || 'A' <= c <= 'Z'
  }

  predicate RunChar(c: char) {
    Alnum(c) || c == '-' || c == '_' || c == '.'
  }

  predicate AllRun(s: string) {
    forall c :: c in s ==> RunChar(c)
  }

  function CountAlnum(s: string): nat {
    if s == "" then 0 else (if Alnum(s[0]) then 1 else 0) + CountAlnum(s[1..])
  }

  predicate TokenShaped(run: string) {
    CountAlnum(run) >= 16 && AllRun(run)
  }

  predicate Contains(s: string, part: string) {
    exists i :: 0 <= i <= |s| && part <= s[i..]
  }

  /** An absolute path that does not lie in the workspace. */
  predicate OutsidePath(word: string) {
    word != "" && word[0] == '/' && !Contains(word, WORKSPACE)
  }

  predicate Leaky(word: string) {
    TokenShaped(word) || OutsidePath(word)
  }

  function Flushed(run: string): string {
    if TokenShaped(run) then MARK else run
  }

  /** The rest of a word, after `run` has been read and not yet written. */
  function MaskFrom(s: string, run: string): string {
    if s == "" then Flushed(run)
    else if RunChar(s[0]) then MaskFrom(s[1..], run + [s[0]])
    else Flushed(run) + [s[0]] + MaskFrom(s[1..], "")
  }

  function Mask(word: string): string {
    MaskFrom(word, "")
  }

  method FlushRun(run: string, out: string) returns (emptied: string, written: string)
    ensures emptied == "" && written == out + Flushed(run)
  {
    if run == "" {
      assert out + Flushed("") == out;
      return run, out;
    }
    written := out + if TokenShaped(run) then MARK else run;
    emptied := "";
  }

  lemma Regrouped(a: string, b: string, c: char, d: string)
    ensures a + (b + [c] + d) == a + b + [c] + d
  {
  }

  method MaskEmbedded(s: string) returns (out: string)
    ensures out == Mask(s)
  {
    out := "";
    var run := "";
    for i := 0 to |s|
      invariant out + MaskFrom(s[i..], run) == Mask(s)
    {
      var c := s[i];
      assert s[i..][0] == c && s[i..][1..] == s[i + 1..];
      if RunChar(c) {
        run := run + [c];
      } else {
        Regrouped(out, Flushed(run), c, MaskFrom(s[i + 1..], ""));
        run, out := FlushRun(run, out);
        out := out + [c];
      }
    }
    run, out := FlushRun(run, out);
  }

  function RedactWord(word: string): string {
    if Leaky(word) then MARK else Mask(word)
  }

  function WordsFrom(s: string, word: string): seq<string> {
    var done := if word == "" then [] else [word];
    if s == "" then done
    else if IsWhite(s[0]) then done + WordsFrom(s[1..], "")
    else WordsFrom(s[1..], word + [s[0]])
  }

  function Words(s: string): seq<string> {
    WordsFrom(s, "")
  }

  function RedactAll(words: seq<string>): (r: seq<string>)
    ensures |r| == |words|
  {
    if words == [] then [] else [RedactWord(words[0])] + RedactAll(words[1..])
  }

  function Join(words: seq<string>): string {
    if words == [] then ""
    else if |words| == 1 then words[0]
    else words[0] + " " + Join(words[1..])
  }

  function Redact(s: string): string {
    Join(RedactAll(Words(s)))
  }

  // ------------------------------------------------------------------ no token anywhere

  /** No stretch of `s`, wherever it begins and ends, is token-shaped. */
  ghost predicate Clean(s: string) {
    forall i, j :: 0 <= i <= j <= |s| ==> !TokenShaped(s[i..j])
  }

  lemma {:induction false} CountConcat(a: string, b: string)
    ensures CountAlnum(a + b) == CountAlnum(a) + CountAlnum(b)
  {
    if a == "" {
      assert a + b == b;
    } else {
      assert (a + b)[0] == a[0] && (a + b)[1..] == a[1..] + b;
      CountConcat(a[1..], b);
    }
  }

  lemma {:induction false} CountAtMost(s: string)
    ensures CountAlnum(s) <= |s|
  {
    if s != "" {
      CountAtMost(s[1..]);
    }
  }

  lemma CountOfPart(s: string, i: nat, j: nat)
    requires i <= j <= |s|
    ensures CountAlnum(s[i..j]) <= CountAlnum(s)
  {
    assert s == s[..i] + s[i..j] + s[j..];
    CountConcat(s[..i] + s[i..j], s[j..]);
    CountConcat(s[..i], s[i..j]);
  }

  lemma CleanRun(run: string)
    requires CountAlnum(run) < 16
    ensures Clean(run)
  {
    forall i, j | 0 <= i <= j <= |run| ensures !TokenShaped(run[i..j]) {
      CountOfPart(run, i, j);
    }
  }

  /** A character outside every run keeps two clean stretches apart. */
  lemma CleanAround(a: string, c: char, b: string)
    requires Clean(a) && Clean(b) && !RunChar(c)
    ensures Clean(a + [c] + b)
  {
    hide CountAlnum;
    var s := a + [c] + b;
    assert s[0..|a|] == a && s[|a|] == c && s[|a| + 1..|s|] == b;
    forall i, j | 0 <= i <= j <= |s| ensures !TokenShaped(s[i..j]) {
      if j <= |a| {
        SliceOfSlice(s, 0, |a|, i, j);
      } else if i <= |a| {
        assert s[i..j][|a| - i] == s[|a|] && s[i..j][|a| - i] in s[i..j];
      } else {
        SliceOfSlice(s, |a| + 1, |s|, i - |a| - 1, j - |a| - 1);
      }
    }
  }

  lemma SliceOfSlice(s: string, from: nat, to: nat, i: nat, j: nat)
    requires from <= to <= |s| && i <= j <= to - from
    ensures s[from..to][i..j] == s[from + i..from + j]
  {
    var a, b := s[from..to][i..j], s[from + i..from + j];
    assert |a| == |b| && forall k :: 0 <= k < |a| ==> a[k] == s[from..to][i + k] == s[from + i + k] == b[k];
  }

  lemma FlushedIsClean(run: string)
    requires AllRun(run)
    ensures Clean(Flushed(run))
  {
    CountAtMost(MARK);
    CleanRun(Flushed(run));
  }

  lemma {:induction false} MaskIsClean(s: string, run: string)
    requires AllRun(run)
    ensures Clean(MaskFrom(s, run))
    decreases |s|
  {
    if s == "" {
      FlushedIsClean(run);
    } else if RunChar(s[0]) {
      MaskIsClean(s[1..], run + [s[0]]);
    } else {
      FlushedIsClean(run);
      MaskIsClean(s[1..], "");
      CleanAround(Flushed(run), s[0], MaskFrom(s[1..], ""));
    }
  }

  lemma WordIsClean(word: string)
    ensures Clean(RedactWord(word))
  {
    CountAtMost(MARK);
    CleanRun(MARK);
    MaskIsClean(word, "");
  }

  lemma {:induction false} JoinIsClean(words: seq<string>)
    ensures Clean(Join(RedactAll(words)))
  {
    if words == [] {
      CleanRun("");
    } else {
      WordIsClean(words[0]);
      JoinIsClean(words[1..]);
      var rest := RedactAll(words[1..]);
      if rest != [] {
        assert ([RedactWord(words[0])] + rest)[1..] == rest;
        CleanAround(RedactWord(words[0]), ' ', Join(rest));
      }
    }
  }

  /** Where a stretch of a text has letters or digits. */
  ghost function LettersAndDigits(s: string, i: nat, j: nat): set<nat>
    requires i <= j <= |s|
  {
    set k: nat | i <= k < j && ('0' <= s[k] <= '9' || 'a' <= s[k] <= 'z' || 'A' <= s[k] <= 'Z')
  }

  lemma {:induction false} CountIsHowMany(s: string, i: nat, j: nat)
    requires i <= j <= |s|
    ensures CountAlnum(s[i..j]) == |LettersAndDigits(s, i, j)|
    decreases j - i
  {
    if i < j {
      CountIsHowMany(s, i + 1, j);
      assert s[i..j][0] == s[i] && s[i..j][1..] == s[i + 1..j];
      var here: set<nat> := if Alnum(s[i]) then {i} else {};
      assert LettersAndDigits(s, i, j) == here + LettersAndDigits(s, i + 1, j);
    }
  }

  /**
   * No stretch of a redacted text made only of letters, digits, dashes, underscores and dots has sixteen letters or
   * digits.
   */
  lemma RedactedTextIsClean(s: string)
    ensures var r := Redact(s);
      forall i, j | 0 <= i <= j <= |r| && |LettersAndDigits(r, i, j)| >= 16 ::
        exists k :: i <= k < j && r[k] != '-' && r[k] != '_' && r[k] != '.'
          && !('0' <= r[k] <= '9' || 'a' <= r[k] <= 'z' || 'A' <= r[k] <= 'Z')
  {
    hide Redact, LettersAndDigits, CountAlnum;
    var r := Redact(s);
    TextIsClean(s);
    forall i, j | 0 <= i <= j <= |r| && |LettersAndDigits(r, i, j)| >= 16
      ensures exists k :: i <= k < j && !RunChar(r[k])
    {
      CountIsHowMany(r, i, j);
      assert !TokenShaped(r[i..j]);
      var c :| c in r[i..j] && !RunChar(c);
      var k :| 0 <= k < j - i && r[i..j][k] == c;
      assert r[i + k] == c;
    }
  }

  lemma TextIsClean(s: string)
    ensures Clean(Redact(s))
  {
    JoinIsClean(Words(s));
  }

  // ------------------------------------------------------------------ and nothing else changed

  predicate IsWord(w: string) {
    w != "" && forall c :: c in w ==> !IsWhite(c)
  }

  lemma {:induction false} WordsAreWords(s: string, word: string)
    requires word == "" || IsWord(word)
    ensures forall w :: w in WordsFrom(s, word) ==> IsWord(w)
    decreases |s|
  {
    if s != "" {
      if IsWhite(s[0]) {
        WordsAreWords(s[1..], "");
      } else {
        WordsAreWords(s[1..], word + [s[0]]);
      }
    }
  }

  lemma {:induction false} ReadingAWord(w: string, rest: string, word: string)
    requires forall c :: c in w ==> !IsWhite(c)
    ensures WordsFrom(w + rest, word) == WordsFrom(rest, word + w)
    decreases |w|
  {
    if w == "" {
      assert w + rest == rest && word + w == word;
    } else {
      assert (w + rest)[0] == w[0] && (w + rest)[1..] == w[1..] + rest;
      assert word + w == word + [w[0]] + w[1..];
      ReadingAWord(w[1..], rest, word + [w[0]]);
    }
  }

  lemma {:induction false} WordsOfJoin(words: seq<string>)
    requires forall w :: w in words ==> IsWord(w)
    ensures Words(Join(words)) == words
  {
    if words != [] {
      var w := words[0];
      assert IsWord(w);
      if |words| == 1 {
        assert w + "" == w && "" + w == w;
        ReadingAWord(w, "", "");
        assert words == [w];
      } else {
        var tail := Join(words[1..]);
        assert w + " " + tail == w + (" " + tail) && "" + w == w;
        ReadingAWord(w, " " + tail, "");
        assert (" " + tail)[1..] == tail;
        WordsOfJoin(words[1..]);
        assert words == [w] + words[1..];
      }
    }
  }

  lemma {:induction false} MaskIsAWord(s: string, run: string)
    requires IsWord(run + s)
    ensures IsWord(MaskFrom(s, run))
    decreases |s|
  {
    if s == "" {
      assert run + s == run;
    } else if RunChar(s[0]) {
      assert run + [s[0]] + s[1..] == run + s;
      MaskIsAWord(s[1..], run + [s[0]]);
    } else {
      forall c | c in run ensures !IsWhite(c) { assert c in run + s; }
      forall c | c in s ensures !IsWhite(c) { assert c in run + s; }
      if s[1..] != "" {
        assert "" + s[1..] == s[1..];
        MaskIsAWord(s[1..], "");
      } else {
        assert MaskFrom(s[1..], "") == "";
      }
      var out, tail := MaskFrom(s, run), MaskFrom(s[1..], "");
      assert forall c :: c in out <==> c in Flushed(run) || c == s[0] || c in tail;
    }
  }

  lemma {:induction false} RedactedWordsAreWords(words: seq<string>)
    requires forall w :: w in words ==> IsWord(w)
    ensures forall w :: w in RedactAll(words) ==> IsWord(w)
  {
    if words != [] {
      assert "" + words[0] == words[0];
      MaskIsAWord(words[0], "");
      RedactedWordsAreWords(words[1..]);
    }
  }

  /** Redaction works word by word: the words of the result are the redacted words, as many and in the same order. */
  lemma RedactionIsWordByWord(s: string)
    ensures Words(Redact(s)) == RedactAll(Words(s)) && |Words(Redact(s))| == |Words(s)|
  {
    WordsAreWords(s, "");
    RedactedWordsAreWords(Words(s));
    WordsOfJoin(RedactAll(Words(s)));
  }

  lemma CleanStart(s: string, k: nat)
    requires Clean(s) && k <= |s|
    ensures !TokenShaped(s[..k])
  {
    assert s[0..k] == s[..k];
  }

  lemma CleanTail(s: string, k: nat)
    requires Clean(s) && k <= |s|
    ensures Clean(s[k..])
  {
    hide TokenShaped;
    forall i, j | 0 <= i <= j <= |s[k..]| ensures !TokenShaped(s[k..][i..j]) {
      assert s[k..][i..j] == s[k + i..k + j];
    }
  }

  lemma {:induction false} CleanIsKept(s: string, run: string)
    requires Clean(run + s)
    ensures MaskFrom(s, run) == run + s
    decreases |s|
  {
    CleanStart(run + s, |run|);
    assert (run + s)[..|run|] == run;
    hide Clean, TokenShaped;
    if s != "" {
      if RunChar(s[0]) {
        assert run + [s[0]] + s[1..] == run + s;
        CleanIsKept(s[1..], run + [s[0]]);
      } else {
        var rest := s[1..];
        assert "" + rest == (run + s)[|run| + 1..];
        CleanTail(run + s, |run| + 1);
        CleanIsKept(rest, "");
        assert run + [s[0]] + rest == run + s;
      }
    }
  }

  /** A word is reproduced exactly when it holds no token-shaped stretch and is no path outside the workspace. */
  lemma WordsAreKeptExactlyWhenSafe(w: string)
    ensures RedactWord(w) == w <==> Clean(w) && !OutsidePath(w)
  {
    WordIsClean(w);
    if Clean(w) {
      assert "" + w == w;
      CleanIsKept(w, "");
      assert w[0..|w|] == w;
    }
  }

  lemma NameSpelled(s: string, i: nat)
    requires i <= |s| && WORKSPACE <= s[i..]
    ensures i + 5 <= |s|
    ensures s[i] == 'h' && s[i + 1] == 'x' && s[i + 2] == '-' && s[i + 3] == 'w' && s[i + 4] == 't'
  {
    assert s[i..][..5] == WORKSPACE;
    assert s[i] == s[i..][0] && s[i + 1] == s[i..][1] && s[i + 2] == s[i..][2] && s[i + 3] == s[i..][3];
    assert s[i + 4] == s[i..][4];
  }

  /** A word that begins a path, and nowhere in it has the workspace's name, is masked whole. */
  lemma PathsOutsideAreMasked(s: string, n: nat)
    requires n < |Words(s)| && Words(s)[n] != "" && Words(s)[n][0] == '/'
    requires var w := Words(s)[n];
      forall i :: 0 <= i < |w| - 4 && w[i] == 'h' && w[i + 1] == 'x' && w[i + 2] == '-' && w[i + 3] == 'w'
                  ==> w[i + 4] != 't'
    ensures n < |Words(Redact(s))| && Words(Redact(s))[n] == "[redacted]"
  {
    hide Words, Redact, Join, Mask, TokenShaped;
    RedactionIsWordByWord(s);
    var w := Words(s)[n];
    forall i | 0 <= i <= |w| ensures !(WORKSPACE <= w[i..]) {
      if WORKSPACE <= w[i..] {
        NameSpelled(w, i);
      }
    }
    RedactsEach(Words(s));
  }

  // ------------------------------------------------------------------ what a second pass changes

  /** A run that cannot be made longer to either side. */
  predicate MaximalRun(w: string, i: nat, j: nat) {
    && i <= j <= |w| && AllRun(w[i..j])
    && (i > 0 ==> !RunChar(w[i - 1])) && (j < |w| ==> !RunChar(w[j]))
  }

  /** The workspace is named in a run that is no token, and so survives redaction. */
  ghost predicate NamesWorkspaceInTheOpen(w: string) {
    exists i: nat, j: nat :: MaximalRun(w, i, j) && InTheOpen(w[i..j])
  }

  predicate InTheOpen(run: string) {
    !TokenShaped(run) && Contains(run, WORKSPACE)
  }

  /** An absolute path of the workspace that names it only inside token-shaped runs. */
  ghost predicate LosesItsWorkspace(w: string) {
    !Leaky(w) && w != "" && w[0] == '/' && !NamesWorkspaceInTheOpen(w)
  }

  /** The runs of a word in order, empty ones included, after `run` has been read. */
  function Runs(s: string, run: string): seq<string> {
    if s == "" then [run]
    else if RunChar(s[0]) then Runs(s[1..], run + [s[0]])
    else [run] + Runs(s[1..], "")
  }

  lemma {:induction false} RunsAreMaximal(before: string, s: string, run: string, r: string)
    requires AllRun(run) && (before != "" ==> !RunChar(before[|before| - 1])) && r in Runs(s, run)
    ensures exists i: nat, j: nat :: MaximalRun(before + run + s, i, j) && (before + run + s)[i..j] == r
    decreases |s|
  {
    var w := before + run + s;
    if s != "" && RunChar(s[0]) {
      assert before + (run + [s[0]]) + s[1..] == w;
      RunsAreMaximal(before, s[1..], run + [s[0]], r);
    } else if r == run {
      assert MaximalRun(w, |before|, |before| + |run|) && w[|before|..|before| + |run|] == run;
    } else {
      assert before + run + [s[0]] + "" + s[1..] == w;
      RunsAreMaximal(before + run + [s[0]], s[1..], "", r);
    }
  }

  lemma RunCharsInside(w: string, i: nat, j: nat, k: nat)
    requires MaximalRun(w, i, j) && i <= k < j
    ensures RunChar(w[k])
  {
    assert w[i..j][k - i] in w[i..j];
  }

  lemma {:induction false} MaximalRunsAreRuns(before: string, s: string, run: string, i: nat, j: nat)
    requires AllRun(run) && (before != "" ==> !RunChar(before[|before| - 1]))
    requires |before| <= i < j && MaximalRun(before + run + s, i, j)
    ensures (before + run + s)[i..j] in Runs(s, run)
    decreases |s|
  {
    var w := before + run + s;
    assert forall k :: |before| <= k < |before| + |run| ==> w[k] == run[k - |before|];
    if s == "" {
      assert w[i] == w[i..j][0];
      assert i == |before| && j == |w| && w[i..j] == run;
    } else if RunChar(s[0]) {
      assert before + (run + [s[0]]) + s[1..] == w;
      MaximalRunsAreRuns(before, s[1..], run + [s[0]], i, j);
    } else {
      var at := |before| + |run|;
      assert w[at] == s[0];
      if i < at {
        if j > at {
          RunCharsInside(w, i, j, at);
        }
        assert i == |before| && j == at && w[i..j] == run;
      } else {
        assert w[i] == w[i..j][0];
        assert before + run + [s[0]] + "" + s[1..] == w;
        MaximalRunsAreRuns(before + run + [s[0]], s[1..], "", i, j);
      }
    }
  }

  lemma OpenRunsAreLong(run: string)
    ensures InTheOpen(run) ==> |run| >= |WORKSPACE|
  {
  }

  lemma OpenRuns(w: string)
    ensures NamesWorkspaceInTheOpen(w) <==> exists r :: r in Runs(w, "") && InTheOpen(r)
  {
    hide InTheOpen;
    assert "" + "" + w == w;
    if NamesWorkspaceInTheOpen(w) {
      var i: nat, j: nat :| MaximalRun(w, i, j) && InTheOpen(w[i..j]);
      OpenRunsAreLong(w[i..j]);
      MaximalRunsAreRuns("", w, "", i, j);
    }
    if r :| r in Runs(w, "") && InTheOpen(r) {
      RunsAreMaximal("", w, "", r);
      var i: nat, j: nat :| MaximalRun(w, i, j) && w[i..j] == r;
      assert InTheOpen(w[i..j]);
    }
  }

  lemma NameHasADash(s: string, i: nat)
    requires i <= |s| && WORKSPACE <= s[i..]
    ensures '-' in s
  {
    assert s[i + 2] == s[i..][2] == '-';
  }

  lemma MarkNamesNoWorkspace()
    ensures !Contains(MARK, WORKSPACE)
  {
    forall i | 0 <= i <= |MARK| ensures !(WORKSPACE <= MARK[i..]) {
      if WORKSPACE <= MARK[i..] {
        NameHasADash(MARK, i);
      }
    }
  }

  lemma NameIsOneRun(s: string, i: nat, k: nat)
    requires i <= |s| && WORKSPACE <= s[i..] && i <= k < i + |WORKSPACE|
    ensures RunChar(s[k])
  {
    assert s[k] == s[i..][k - i] == WORKSPACE[k - i];
    assert AllRun(WORKSPACE);
  }

  /** The workspace's name is one run: it lies on one side of any character outside every run. */
  lemma NameIsOnOneSide(a: string, c: char, b: string)
    requires !RunChar(c)
    ensures Contains(a + [c] + b, WORKSPACE) <==> Contains(a, WORKSPACE) || Contains(b, WORKSPACE)
  {
    var s := a + [c] + b;
    forall i | 0 <= i <= |s| && WORKSPACE <= s[i..] ensures Contains(a, WORKSPACE) || Contains(b, WORKSPACE) {
      if i + |WORKSPACE| <= |a| {
        assert WORKSPACE <= a[i..];
      } else if i > |a| {
        assert b[i - |a| - 1..] == s[i..];
      } else {
        NameIsOneRun(s, i, |a|);
      }
    }
    forall i | 0 <= i <= |a| && WORKSPACE <= a[i..] ensures Contains(s, WORKSPACE) {
      assert WORKSPACE <= s[i..];
    }
    forall i | 0 <= i <= |b| && WORKSPACE <= b[i..] ensures Contains(s, WORKSPACE) {
      assert s[|a| + 1 + i..] == b[i..];
    }
  }

  lemma FlushedName(run: string)
    ensures Contains(Flushed(run), WORKSPACE) <==> InTheOpen(run)
  {
    MarkNamesNoWorkspace();
  }

  /** A masked word names the workspace exactly when one of its runs that is no token does. */
  lemma {:induction false} MaskKeepsOpenNames(s: string, run: string)
    ensures Contains(MaskFrom(s, run), WORKSPACE) <==> exists r :: r in Runs(s, run) && InTheOpen(r)
    decreases |s|
  {
    hide Contains, InTheOpen, Flushed;
    FlushedName(run);
    if s == "" {
      assert run in Runs(s, run);
    } else if RunChar(s[0]) {
      MaskKeepsOpenNames(s[1..], run + [s[0]]);
    } else {
      MaskKeepsOpenNames(s[1..], "");
      NameIsOnOneSide(Flushed(run), s[0], MaskFrom(s[1..], ""));
      assert forall r :: r in Runs(s, run) <==> r == run || r in Runs(s[1..], "");
    }
  }

  lemma {:induction false} RunsBeginNoPath(s: string, run: string)
    requires run != "" && AllRun(run)
    ensures MaskFrom(s, run) != "" && MaskFrom(s, run)[0] != '/'
    decreases |s|
  {
    assert run[0] in run;
    if s != "" && RunChar(s[0]) {
      RunsBeginNoPath(s[1..], run + [s[0]]);
    }
  }

  lemma MaskKeepsTheSlash(w: string)
    requires w != ""
    ensures Mask(w) != "" && (Mask(w)[0] == '/' <==> w[0] == '/')
  {
    if RunChar(w[0]) {
      assert "" + [w[0]] == [w[0]];
      RunsBeginNoPath(w[1..], [w[0]]);
    } else {
      assert Flushed("") == "";
    }
  }

  /** Redacting a word again changes it exactly when it loses its workspace the first time, and then masks it whole. */
  lemma SecondPassChangesNothingUnless(w: string)
    ensures RedactWord(RedactWord(w)) != RedactWord(w) <==> LosesItsWorkspace(w)
    ensures LosesItsWorkspace(w) ==> RedactWord(RedactWord(w)) == MARK
  {
    hide NamesWorkspaceInTheOpen, Contains, Mask;
    WordIsClean(w);
    WordsAreKeptExactlyWhenSafe(RedactWord(w));
    if w != "" && !Leaky(w) {
      OpenRuns(w);
      MaskKeepsTheSlash(w);
      MaskedWord(w);
    } else {
      ShortOrMarked(w);
    }
  }

  lemma MaskedWord(w: string)
    ensures Contains(Mask(w), WORKSPACE) <==> exists r :: r in Runs(w, "") && InTheOpen(r)
  {
    MaskKeepsOpenNames(w, "");
  }

  lemma ShortOrMarked(w: string)
    requires w == "" || Leaky(w)
    ensures !OutsidePath(RedactWord(w))
  {
  }

  lemma {:induction false} RedactsEach(words: seq<string>)
    ensures forall i :: 0 <= i < |words| ==> RedactAll(words)[i] == RedactWord(words[i])
  {
    hide RedactWord;
    if words != [] {
      RedactsEach(words[1..]);
    }
  }

  /** Redacting a text again changes it exactly when one of its words loses its workspace. */
  lemma SecondRedactionChangesExactlyWhen(s: string)
    ensures Redact(Redact(s)) != Redact(s) <==> exists w :: w in Words(s) && LosesItsWorkspace(w)
  {
    hide RedactWord, LosesItsWorkspace, Join, Words;
    var words := Words(s);
    RedactionIsWordByWord(s);
    RedactionIsWordByWord(Redact(s));
    RedactsEach(words);
    RedactsEach(RedactAll(words));
    forall i | 0 <= i < |words|
      ensures RedactAll(RedactAll(words))[i] != RedactAll(words)[i] <==> LosesItsWorkspace(words[i])
    {
      SecondPassChangesNothingUnless(words[i]);
    }
    if w :| w in words && LosesItsWorkspace(w) {
      var i :| 0 <= i < |words| && words[i] == w;
      assert RedactAll(RedactAll(words))[i] != RedactAll(words)[i];
    } else {
      assert forall i :: 0 <= i < |words| ==> words[i] in words;
      assert RedactAll(RedactAll(words)) == RedactAll(words);
    }
  }

  function Repeat(c: char, n: nat): string {
    if n == 0 then "" else [c] + Repeat(c, n - 1)
  }

  lemma {:induction false} CountRepeat(n: nat)
    ensures CountAlnum(Repeat('a', n)) == n && AllRun(Repeat('a', n))
  {
    if n > 0 {
      CountRepeat(n - 1);
      assert Repeat('a', n)[1..] == Repeat('a', n - 1);
    }
  }

  lemma RunsOfARoot(run: string, i: nat, j: nat)
    requires AllRun(run) && MaximalRun("/" + run, i, j)
    ensures i == j || ("/" + run)[i..j] == run
  {
    var w := "/" + run;
    assert forall k :: 0 < k < |w| ==> w[k] == run[k - 1] && run[k - 1] in run;
    if i == 0 < j {
      RunCharsInside(w, i, j, 0);
    }
    if i < j {
      assert i == 1 && j == |w|;
    }
  }

  /** Every path that lies in the workspace only by a token-shaped first component is such a word. */
  lemma MaskedWorkspacePathReadsAsOutside(run: string)
    requires WORKSPACE <= run && TokenShaped(run)
    ensures LosesItsWorkspace("/" + run) && RedactWord(RedactWord("/" + run)) != RedactWord("/" + run)
  {
    var w := "/" + run;
    assert '/' in w && !AllRun(w);
    assert w[0] == '/' && w[1..] == run && Contains(w, WORKSPACE);
    forall i: nat, j: nat | MaximalRun(w, i, j) ensures !InTheOpen(w[i..j]) {
      OpenRunsAreLong(w[i..j]);
      RunsOfARoot(run, i, j);
    }
    SecondPassChangesNothingUnless(w);
  }

  lemma NamedRun(n: nat)
    requires n >= 16
    ensures var run := WORKSPACE + Repeat('a', n); WORKSPACE <= run && TokenShaped(run)
  {
    hide Repeat;
    CountRepeat(n);
    CountConcat(WORKSPACE, Repeat('a', n));
    assert AllRun(WORKSPACE);
  }

  /** Such texts: "/hx-wt" followed by sixteen letters or more. */
  lemma TextsThatChangeAgain(n: nat)
    requires n >= 16
    ensures var s := "/" + WORKSPACE + Repeat('a', n); Redact(Redact(s)) != Redact(s)
  {
    hide Repeat, Redact, LosesItsWorkspace, RedactWord;
    var run := WORKSPACE + Repeat('a', n);
    NamedRun(n);
    MaskedWorkspacePathReadsAsOutside(run);
    var w := "/" + run;
    assert w == "/" + WORKSPACE + Repeat('a', n);
    RunsAreNoSpace(w);
    OneWord(w);
    SecondRedactionChangesExactlyWhen(w);
  }

  lemma OneWord(w: string)
    requires w != "" && forall c :: c in w ==> !IsWhite(c)
    ensures Words(w) == [w]
  {
    ReadingAWord(w, "", "");
    assert w + "" == w && "" + w == w;
  }

  lemma RunsAreNoSpace(w: string)
    requires w != "" && w[0] == '/' && AllRun(w[1..])
    ensures forall c :: c in w ==> !IsWhite(c)
  {
    forall c | c in w ensures !IsWhite(c) {
      assert w == [w[0]] + w[1..];
    }
  }
}
