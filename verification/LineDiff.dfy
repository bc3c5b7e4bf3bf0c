/**
 The line diff of a pending checkpoint (apps/api/src/checkpoint-pending-diff.ts,
 simpleLineDiff): an LCS table filled backwards in place, then a greedy walk.
 */
module LineDiff {
  import opened Common
  import opened Strings

  const NEWLINE: char := '\n'

  /** A cell of a Uint32Array. */
  newtype Uint32 = x: int | 0 <= x < 0x1_0000_0000

  const MAX_CELLS := 2_000_000

  datatype PatchLine = Hunk(text: string) | Context(text: string) | Add(text: string) | Del(text: string)

  datatype Patch = Patch(lines: seq<PatchLine>, additions: nat, deletions: nat)

  // ---------------------------------------------------------------- text and lines

  /** Drops the empty last line that a final newline leaves behind. */
  function LinesOf(text: string): seq<string> {
    var lines := Split(text, NEWLINE);
    if lines[|lines| - 1] == "" then lines[..|lines| - 1] else lines
  }

  predicate EndsWithNewline(text: string) {
    text != [] && text[|text| - 1] == NEWLINE
  }

  lemma {:induction false} SplitEnds(text: string)
    ensures Split(text, NEWLINE)[|Split(text, NEWLINE)| - 1] == "" <==> text == "" || EndsWithNewline(text)
  {
    if text != [] {
      SplitEnds(text[1..]);
    }
  }

  lemma {:induction false} JoinDropsEmptyLast(lines: seq<string>)
    requires |lines| > 1 && lines[|lines| - 1] == ""
    ensures Join(lines, NEWLINE) == Join(lines[..|lines| - 1], NEWLINE) + [NEWLINE]
  {
    if |lines| > 2 {
      JoinDropsEmptyLast(lines[1..]);
      assert lines[1..][..|lines| - 2] == lines[..|lines| - 1][1..];
    }
  }

  /** The lines lose nothing of the text but whether it ended in a newline. */
  lemma LinesSpellText(text: string)
    ensures text == Join(LinesOf(text), NEWLINE) + if EndsWithNewline(text) then [NEWLINE] else []
  {
    JoinSplit(text, NEWLINE);
    SplitEnds(text);
    var lines := Split(text, NEWLINE);
    if lines[|lines| - 1] == "" && |lines| > 1 {
      JoinDropsEmptyLast(lines);
      assert text == Join(lines[..|lines| - 1], NEWLINE) + [NEWLINE];
      assert text[|text| - 1] == NEWLINE;
    }
  }

  function Header(n: nat, m: nat): string {
    "@@ -1," + Decimal(n) + " +1," + Decimal(m) + " @@"
  }

  /** A unified-diff header over whole files: both ranges start at line 1 and give the number of lines. */
  ghost predicate HeadsPatch(header: string, n: nat, m: nat) {
    Split(header, ' ') == ["@@", "-1," + Decimal(n), "+1," + Decimal(m), "@@"]
  }

  lemma FourWords(a: string, b: string, c: string, d: string)
    requires ' ' !in a && ' ' !in b && ' ' !in c && ' ' !in d
    ensures Split(a + [' '] + (b + [' '] + (c + [' '] + d)), ' ') == [a, b, c, d]
  {
    SplitOne(d, ' ');
    SplitAtSeparator(c, ' ', d);
    SplitAtSeparator(b, ' ', c + [' '] + d);
    SplitAtSeparator(a, ' ', b + [' '] + (c + [' '] + d));
  }

  lemma HeaderHeads(n: nat, m: nat)
    ensures HeadsPatch(Header(n, m), n, m)
  {
    DecimalIsDigits(n);
    DecimalIsDigits(m);
    var before, after := "-1," + Decimal(n), "+1," + Decimal(m);
    FourWords("@@", before, after, "@@");
    assert Header(n, m) == "@@" + [' '] + (before + [' '] + (after + [' '] + "@@"));
  }

  // ---------------------------------------------------------------- what a patch means

  /** The lines a patch removes or keeps. */
  function OldSide(lines: seq<PatchLine>): seq<string> {
    if lines == [] then []
    else OldSide(lines[..|lines| - 1]) +
         match lines[|lines| - 1] case Context(t) => [t] case Del(t) => [t] case Hunk(_) => [] case Add(_) => []
  }

  /** The lines a patch keeps or inserts. */
  function NewSide(lines: seq<PatchLine>): seq<string> {
    if lines == [] then []
    else NewSide(lines[..|lines| - 1]) +
         match lines[|lines| - 1] case Context(t) => [t] case Add(t) => [t] case Hunk(_) => [] case Del(_) => []
  }

  function Kept(lines: seq<PatchLine>): seq<string> {
    if lines == [] then []
    else Kept(lines[..|lines| - 1]) +
         match lines[|lines| - 1] case Context(t) => [t] case Hunk(_) => [] case Add(_) => [] case Del(_) => []
  }

  function Count(lines: seq<PatchLine>, want: PatchLine -> bool): nat {
    if lines == [] then 0
    else Count(lines[..|lines| - 1], want) + if want(lines[|lines| - 1]) then 1 else 0
  }

  predicate IsAdd(line: PatchLine) {
    line.Add?
  }

  predicate IsDel(line: PatchLine) {
    line.Del?
  }

  function Edits(lines: seq<PatchLine>): nat {
    Count(lines, IsAdd) + Count(lines, IsDel)
  }

  /** `lines` turns `before` into `after`. */
  ghost predicate Script(lines: seq<PatchLine>, before: seq<string>, after: seq<string>) {
    OldSide(lines) == before && NewSide(lines) == after
  }

  lemma ScriptPush(lines: seq<PatchLine>, line: PatchLine)
    ensures OldSide(lines + [line]) == OldSide(lines) + if line.Context? || line.Del? then [line.text] else []
    ensures NewSide(lines + [line]) == NewSide(lines) + if line.Context? || line.Add? then [line.text] else []
    ensures Kept(lines + [line]) == Kept(lines) + if line.Context? then [line.text] else []
    ensures Count(lines + [line], IsAdd) == Count(lines, IsAdd) + if line.Add? then 1 else 0
    ensures Count(lines + [line], IsDel) == Count(lines, IsDel) + if line.Del? then 1 else 0
  {
    assert (lines + [line])[..|lines|] == lines;
  }

  ghost predicate NoHunk(ops: seq<PatchLine>) {
    forall k :: 0 <= k < |ops| ==> !ops[k].Hunk?
  }

  /** `ops` has consumed the first `i` lines of `a` and the first `j` lines of `b`. */
  ghost predicate Progress(ops: seq<PatchLine>, a: seq<string>, i: nat, b: seq<string>, j: nat)
    requires i <= |a| && j <= |b|
  {
    Script(ops, a[..i], b[..j]) && NoHunk(ops)
  }

  lemma PushDel(ops: seq<PatchLine>, a: seq<string>, i: nat, b: seq<string>, j: nat)
    requires i < |a| && j <= |b| && Progress(ops, a, i, b, j)
    ensures Progress(ops + [Del(a[i])], a, i + 1, b, j)
    ensures Kept(ops + [Del(a[i])]) == Kept(ops)
  {
    ScriptPush(ops, Del(a[i]));
    assert a[..i + 1] == a[..i] + [a[i]];
  }

  lemma PushAdd(ops: seq<PatchLine>, a: seq<string>, i: nat, b: seq<string>, j: nat)
    requires i <= |a| && j < |b| && Progress(ops, a, i, b, j)
    ensures Progress(ops + [Add(b[j])], a, i, b, j + 1)
    ensures Kept(ops + [Add(b[j])]) == Kept(ops)
  {
    ScriptPush(ops, Add(b[j]));
    assert b[..j + 1] == b[..j] + [b[j]];
  }

  lemma PushContext(ops: seq<PatchLine>, a: seq<string>, i: nat, b: seq<string>, j: nat)
    requires i < |a| && j < |b| && a[i] == b[j] && Progress(ops, a, i, b, j)
    ensures Progress(ops + [Context(a[i])], a, i + 1, b, j + 1)
    ensures |Kept(ops + [Context(a[i])])| == |Kept(ops)| + 1
  {
    ScriptPush(ops, Context(a[i]));
    assert a[..i + 1] == a[..i] + [a[i]] && b[..j + 1] == b[..j] + [b[j]];
  }

  // ---------------------------------------------------------------- longest common subsequence

  ghost predicate Subsequence(s: seq<string>, t: seq<string>) {
    if s == [] then true
    else t != [] && ((s[0] == t[0] && Subsequence(s[1..], t[1..])) || Subsequence(s, t[1..]))
  }

  ghost predicate CommonSubsequence(s: seq<string>, a: seq<string>, b: seq<string>) {
    Subsequence(s, a) && Subsequence(s, b)
  }

  /** The recurrence the table stores, on suffixes. */
  function Lcs(a: seq<string>, b: seq<string>): nat
    decreases |a| + |b|
  {
    if a == [] || b == [] then 0
    else if a[0] == b[0] then 1 + Lcs(a[1..], b[1..])
    else if Lcs(a[1..], b) >= Lcs(a, b[1..]) then Lcs(a[1..], b) else Lcs(a, b[1..])
  }

  lemma {:induction false} SubsequenceTail(s: seq<string>, t: seq<string>)
    requires s != [] && Subsequence(s, t)
    ensures Subsequence(s[1..], t)
    ensures Subsequence(s[1..], t[1..])
    decreases |t|
  {
    if !(s[0] == t[0] && Subsequence(s[1..], t[1..])) {
      SubsequenceTail(s, t[1..]);
    } else if |s| > 1 {
      assert Subsequence(s[1..], t);
    }
  }

  /** No common subsequence is longer. */
  lemma {:induction false} LcsIsUpperBound(s: seq<string>, a: seq<string>, b: seq<string>)
    requires CommonSubsequence(s, a, b)
    ensures |s| <= Lcs(a, b)
    decreases |a| + |b|
  {
    if s != [] {
      if a[0] == b[0] {
        SubsequenceTail(s, a);
        SubsequenceTail(s, b);
        LcsIsUpperBound(s[1..], a[1..], b[1..]);
      } else if s[0] == a[0] {
        assert Subsequence(s, b[1..]);
        LcsIsUpperBound(s, a, b[1..]);
      } else {
        assert Subsequence(s, a[1..]);
        LcsIsUpperBound(s, a[1..], b);
      }
    }
  }

  /** Some common subsequence is that long. */
  lemma {:induction false} LcsIsAttained(a: seq<string>, b: seq<string>) returns (s: seq<string>)
    ensures CommonSubsequence(s, a, b) && |s| == Lcs(a, b)
    decreases |a| + |b|
  {
    if a == [] || b == [] {
      s := [];
    } else if a[0] == b[0] {
      s := LcsIsAttained(a[1..], b[1..]);
      s := [a[0]] + s;
    } else if Lcs(a[1..], b) >= Lcs(a, b[1..]) {
      s := LcsIsAttained(a[1..], b);
    } else {
      s := LcsIsAttained(a, b[1..]);
    }
  }

  lemma {:induction false} LcsBounded(a: seq<string>, b: seq<string>)
    ensures Lcs(a, b) <= |a| && Lcs(a, b) <= |b|
    decreases |a| + |b|
  {
    if a != [] && b != [] {
      LcsBounded(a[1..], b[1..]);
      LcsBounded(a[1..], b);
      LcsBounded(a, b[1..]);
    }
  }

  // ---------------------------------------------------------------- scripts against the LCS

  lemma {:induction false} SubsequencePush(s: seq<string>, t: seq<string>, x: string)
    requires Subsequence(s, t)
    ensures Subsequence(s, t + [x])
    ensures Subsequence(s + [x], t + [x])
    decreases |t|
  {
    if t == [] {
      assert s == [] && [x][1..] == [];
      assert Subsequence([], [x][1..]);
      assert (s + [x]) == [x] && t + [x] == [x];
    } else {
      assert (t + [x])[1..] == t[1..] + [x];
      if s == [] {
        SubsequencePush(s, t[1..], x);
      } else if s[0] == t[0] && Subsequence(s[1..], t[1..]) {
        SubsequencePush(s[1..], t[1..], x);
        assert (s + [x])[1..] == s[1..] + [x];
      } else {
        SubsequencePush(s, t[1..], x);
      }
    }
  }

  /** What a script keeps is common to both sides, and the rest is edited. */
  lemma {:induction false} ScriptKeepsCommon(lines: seq<PatchLine>)
    ensures CommonSubsequence(Kept(lines), OldSide(lines), NewSide(lines))
    ensures |OldSide(lines)| == |Kept(lines)| + Count(lines, IsDel)
    ensures |NewSide(lines)| == |Kept(lines)| + Count(lines, IsAdd)
  {
    if lines != [] {
      var front, last := lines[..|lines| - 1], lines[|lines| - 1];
      ScriptKeepsCommon(front);
      SubsequencePush(Kept(front), OldSide(front), last.text);
      SubsequencePush(Kept(front), NewSide(front), last.text);
      match last
      case Hunk(_) => assert OldSide(lines) == OldSide(front) && NewSide(lines) == NewSide(front) &&
        Kept(lines) == Kept(front);
      case Context(_) =>
      case Add(_) => assert OldSide(lines) == OldSide(front) && Kept(lines) == Kept(front);
      case Del(_) => assert NewSide(lines) == NewSide(front) && Kept(lines) == Kept(front);
    }
  }

  /** A script that keeps an LCS makes the fewest edits, and only such a script does. */
  lemma MinimalIffKeepsLcs(lines: seq<PatchLine>, before: seq<string>, after: seq<string>)
    requires Script(lines, before, after)
    ensures |Kept(lines)| == Lcs(before, after) <==>
            forall other :: Script(other, before, after) ==> Edits(lines) <= Edits(other)
  {
    ScriptKeepsCommon(lines);
    LcsIsUpperBound(Kept(lines), before, after);
    forall other | Script(other, before, after)
      ensures Edits(other) == |before| + |after| - 2 * |Kept(other)| && |Kept(other)| <= Lcs(before, after)
    {
      ScriptKeepsCommon(other);
      LcsIsUpperBound(Kept(other), before, after);
    }
    var best := BestScript(before, after);
  }

  lemma {:induction false} ScriptConcat(x: seq<PatchLine>, y: seq<PatchLine>)
    ensures OldSide(x + y) == OldSide(x) + OldSide(y)
    ensures NewSide(x + y) == NewSide(x) + NewSide(y)
    ensures Kept(x + y) == Kept(x) + Kept(y)
  {
    if y == [] {
      assert x + y == x;
    } else {
      var front, last := y[..|y| - 1], y[|y| - 1];
      assert y == front + [last];
      ConcatAssociates(x, front, [last]);
      ScriptConcat(x, front);
      ScriptPush(x + front, last);
      ScriptPush(front, last);
    }
  }

  lemma PushFront(line: PatchLine, rest: seq<PatchLine>)
    ensures OldSide([line] + rest) == (if line.Context? || line.Del? then [line.text] else []) + OldSide(rest)
    ensures NewSide([line] + rest) == (if line.Context? || line.Add? then [line.text] else []) + NewSide(rest)
    ensures Kept([line] + rest) == (if line.Context? then [line.text] else []) + Kept(rest)
  {
    ScriptConcat([line], rest);
    assert [line][..0] == [];
  }

  /** A script that keeps an LCS exists. */
  lemma {:induction false} BestScript(a: seq<string>, b: seq<string>) returns (lines: seq<PatchLine>)
    ensures Script(lines, a, b) && |Kept(lines)| == Lcs(a, b)
    decreases |a| + |b|
  {
    var line;
    if a == [] && b == [] {
      return [];
    } else if a != [] && b != [] && a[0] == b[0] {
      line := Context(a[0]);
      lines := BestScript(a[1..], b[1..]);
    } else if b == [] || (a != [] && Lcs(a[1..], b) >= Lcs(a, b[1..])) {
      line := Del(a[0]);
      lines := BestScript(a[1..], b);
    } else {
      line := Add(b[0]);
      lines := BestScript(a, b[1..]);
    }
    PushFront(line, lines);
    lines := [line] + lines;
  }

  // ---------------------------------------------------------------- the algorithm

  lemma SquareGrows(v: nat)
    requires v >= 1415
    ensures v * v > MAX_CELLS
  {
    assert v * v >= 1415 * v >= 1415 * 1415;
  }

  /** The cutoff bounds the shorter side, so a table cell stays far below 2^32. */
  lemma CellFits(n: nat, m: nat, v: nat)
    requires n * m <= MAX_CELLS && v <= n && v <= m
    ensures v <= 1414
  {
    assert v * v <= n * v <= n * m;
    if v > 1414 {
      SquareGrows(v);
    }
  }

  /** The recurrence of the table, by position. */
  lemma LcsAt(a: seq<string>, i: nat, b: seq<string>, j: nat)
    requires i < |a| && j < |b|
    ensures a[i] == b[j] ==> Lcs(a[i..], b[j..]) == 1 + Lcs(a[i + 1..], b[j + 1..])
    ensures a[i] != b[j] ==>
      var down, right := Lcs(a[i + 1..], b[j..]), Lcs(a[i..], b[j + 1..]);
      Lcs(a[i..], b[j..]) == if down >= right then down else right
  {
    assert a[i..][1..] == a[i + 1..] && b[j..][1..] == b[j + 1..];
  }

  lemma LcsFits(a: seq<string>, i: nat, b: seq<string>, j: nat)
    requires i <= |a| && j <= |b| && |a| * |b| <= MAX_CELLS
    ensures Lcs(a[i..], b[j..]) <= 1414
  {
    LcsBounded(a[i..], b[j..]);
    CellFits(|a|, |b|, Lcs(a[i..], b[j..]));
  }

  method FillTable(a: seq<string>, b: seq<string>) returns (dp: array2<Uint32>)
    requires |a| * |b| <= MAX_CELLS
    ensures fresh(dp) && dp.Length0 == |a| + 1 && dp.Length1 == |b| + 1
    ensures forall i, j :: 0 <= i <= |a| && 0 <= j <= |b| ==> dp[i, j] as int == Lcs(a[i..], b[j..])
  {
    var n, m := |a|, |b|;
    dp := new Uint32[n + 1, m + 1]((_, _) => 0);
    for i := n downto 0
      invariant forall r :: i <= r <= n ==> Filled(dp, a, b, r, 0)
      invariant forall r :: 0 <= r < i ==> dp[r, m] == 0
    {
      label Below:
      FillRow(a, b, dp, i);
      forall r | i < r <= n
        ensures Filled(dp, a, b, r, 0)
      {
        assert old@Below(Filled(dp, a, b, r, 0));
      }
    }
    forall i, j | 0 <= i <= n && 0 <= j <= m
      ensures dp[i, j] as int == Lcs(a[i..], b[j..])
    {
      assert Filled(dp, a, b, i, 0);
    }
  }

  /** The inner loop: row `i` from the row below it. */
  method FillRow(a: seq<string>, b: seq<string>, dp: array2<Uint32>, i: nat)
    requires dp.Length0 == |a| + 1 && dp.Length1 == |b| + 1 && |a| * |b| <= MAX_CELLS
    requires i < |a| && Filled(dp, a, b, i + 1, 0) && dp[i, |b|] == 0
    modifies dp
    ensures Filled(dp, a, b, i, 0)
    ensures forall r, c :: 0 <= r <= |a| && 0 <= c <= |b| && r != i ==> dp[r, c] == old(dp[r, c])
  {
    for j := |b| downto 0
      invariant Filled(dp, a, b, i, j)
      invariant forall r, c :: 0 <= r <= |a| && 0 <= c <= |b| && r != i ==> dp[r, c] == old(dp[r, c])
    {
      LcsAt(a, i, b, j);
      LcsFits(a, i, b, j);
      assert old(Filled(dp, a, b, i + 1, 0));
      var down, right := dp[i + 1, j], dp[i, j + 1];
      assert down as int == Lcs(a[i + 1..], b[j..]) && right as int == Lcs(a[i..], b[j + 1..]);
      assert dp[i + 1, j + 1] as int == Lcs(a[i + 1..], b[j + 1..]);
      dp[i, j] := if a[i] == b[j] then dp[i + 1, j + 1] + 1 else if down >= right then down else right;
    }
  }

  /** Row `r` of the table holds its final values from column `c` on. */
  ghost predicate Filled(dp: array2<Uint32>, a: seq<string>, b: seq<string>, r: nat, c: nat)
    requires dp.Length0 == |a| + 1 && dp.Length1 == |b| + 1 && r <= |a|
    reads dp
  {
    forall k :: c <= k <= |b| ==> dp[r, k] as int == Lcs(a[r..], b[k..])
  }

  method FullReplace(a: seq<string>, b: seq<string>) returns (ops: seq<PatchLine>)
    ensures Script(ops, a, b) && NoHunk(ops)
    ensures Count(ops, IsDel) == |a| && Count(ops, IsAdd) == |b|
  {
    ops := [];
    for i := 0 to |a|
      invariant Progress(ops, a, i, b, 0)
      invariant Count(ops, IsDel) == i && Count(ops, IsAdd) == 0
    {
      PushDel(ops, a, i, b, 0);
      ScriptPush(ops, Del(a[i]));
      ops := ops + [Del(a[i])];
    }
    for j := 0 to |b|
      invariant Progress(ops, a, |a|, b, j)
      invariant Count(ops, IsDel) == |a| && Count(ops, IsAdd) == j
    {
      PushAdd(ops, a, |a|, b, j);
      ScriptPush(ops, Add(b[j]));
      ops := ops + [Add(b[j])];
    }
    assert a[..|a|] == a && b[..|b|] == b;
  }

  /** The greedy walk over a filled table. */
  method WalkTable(a: seq<string>, b: seq<string>, dp: array2<Uint32>) returns (ops: seq<PatchLine>)
    requires dp.Length0 == |a| + 1 && dp.Length1 == |b| + 1
    requires forall i, j :: 0 <= i <= |a| && 0 <= j <= |b| ==> dp[i, j] as int == Lcs(a[i..], b[j..])
    ensures Script(ops, a, b) && NoHunk(ops)
    ensures |Kept(ops)| == Lcs(a, b)
  {
    var n, m := |a|, |b|;
    ops := [];
    var i, j := 0, 0;
    while i < n && j < m
      invariant 0 <= i <= n && 0 <= j <= m
      invariant Progress(ops, a, i, b, j)
      invariant |Kept(ops)| + Lcs(a[i..], b[j..]) == Lcs(a, b)
      decreases n - i + (m - j)
    {
      var down, right := dp[i + 1, j], dp[i, j + 1];
      LcsAt(a, i, b, j);
      if a[i] == b[j] {
        PushContext(ops, a, i, b, j);
        ops := ops + [Context(a[i])];
        i, j := i + 1, j + 1;
      } else if down >= right {
        PushDel(ops, a, i, b, j);
        ops := ops + [Del(a[i])];
        i := i + 1;
      } else {
        PushAdd(ops, a, i, b, j);
        ops := ops + [Add(b[j])];
        j := j + 1;
      }
    }
    while i < n
      invariant 0 <= i <= n && 0 <= j <= m && (i < n ==> j == m)
      invariant Progress(ops, a, i, b, j) && |Kept(ops)| == Lcs(a, b)
    {
      PushDel(ops, a, i, b, j);
      ops := ops + [Del(a[i])];
      i := i + 1;
    }
    while j < m
      invariant 0 <= j <= m
      invariant Progress(ops, a, n, b, j) && |Kept(ops)| == Lcs(a, b)
    {
      PushAdd(ops, a, n, b, j);
      ops := ops + [Add(b[j])];
      j := j + 1;
    }
    assert a[..n] == a && b[..m] == b;
  }

  method CountEdits(ops: seq<PatchLine>) returns (additions: nat, deletions: nat)
    ensures additions == Count(ops, IsAdd) && deletions == Count(ops, IsDel)
  {
    additions, deletions := 0, 0;
    for k := 0 to |ops|
      invariant additions == Count(ops[..k], IsAdd) && deletions == Count(ops[..k], IsDel)
    {
      assert ops[..k + 1] == ops[..k] + [ops[k]];
      ScriptPush(ops[..k], ops[k]);
      if ops[k].Add? {
        additions := additions + 1;
      } else if ops[k].Del? {
        deletions := deletions + 1;
      }
    }
    assert ops[..|ops|] == ops;
  }

  /** Under one header, `patch` turns `a` into `b` and counts its edits. */
  ghost predicate Faithful(patch: Patch, a: seq<string>, b: seq<string>) {
    && Script(patch.lines, a, b)
    && patch.additions == Count(patch.lines, IsAdd) && patch.deletions == Count(patch.lines, IsDel)
    && |patch.lines| > 0 && NoHunk(patch.lines[1..])
    && patch.lines[0].Hunk? && HeadsPatch(patch.lines[0].text, |a|, |b|)
  }

  ghost predicate Minimal(patch: Patch, a: seq<string>, b: seq<string>) {
    forall other :: Script(other, a, b) ==> patch.additions + patch.deletions <= Edits(other)
  }

  method SimpleLineDiff(oldText: string, newText: string) returns (patch: Patch)
    ensures Faithful(patch, LinesOf(oldText), LinesOf(newText))
    ensures |LinesOf(oldText)| * |LinesOf(newText)| <= MAX_CELLS ==>
              && |Kept(patch.lines)| == Lcs(LinesOf(oldText), LinesOf(newText))
              && Minimal(patch, LinesOf(oldText), LinesOf(newText))
    ensures |LinesOf(oldText)| * |LinesOf(newText)| > MAX_CELLS ==>
              (Minimal(patch, LinesOf(oldText), LinesOf(newText)) <==> Lcs(LinesOf(oldText), LinesOf(newText)) == 0)
  {
    var a, b := LinesOf(oldText), LinesOf(newText);
    var ops, additions, deletions;
    if |a| * |b| > MAX_CELLS {
      ops := FullReplace(a, b);
      additions, deletions := |b|, |a|;
    } else {
      var dp := FillTable(a, b);
      ops := WalkTable(a, b, dp);
      additions, deletions := CountEdits(ops);
    }
    patch := Patch([Hunk(Header(|a|, |b|))] + ops, additions, deletions);
    HeaderHeads(|a|, |b|);
    UnderHeader(Header(|a|, |b|), ops);
    assert patch.lines[1..] == ops;
    ScriptKeepsCommon(patch.lines);
    MinimalIffKeepsLcs(patch.lines, a, b);
  }

  /** The header changes neither side and is not counted. */
  lemma UnderHeader(header: string, ops: seq<PatchLine>)
    ensures var lines := [Hunk(header)] + ops;
            && OldSide(lines) == OldSide(ops) && NewSide(lines) == NewSide(ops) && Kept(lines) == Kept(ops)
            && Count(lines, IsAdd) == Count(ops, IsAdd) && Count(lines, IsDel) == Count(ops, IsDel)
  {
    PushFront(Hunk(header), ops);
    ScriptKeepsCommon([Hunk(header)] + ops);
    ScriptKeepsCommon(ops);
  }
}
