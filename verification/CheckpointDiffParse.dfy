/**
 Parsing NUL-delimited git output (apps/api/src/checkpoint-diff-parse.ts), against a printer
 of the two formats. Text is what Buffer.toString("utf8") decoded.
 */
module CheckpointDiffParse {
  import opened Common
  import opened Strings

  const NUL: char := '\0'
  const TAB: char := '\t'

  // ---------------------------------------------------------------- strings

  function NonEmpty(parts: seq<string>): seq<string> {
    if parts == [] then [] else (if parts[0] == "" then [] else [parts[0]]) + NonEmpty(parts[1..])
  }

  /** Every token followed by a NUL. */
  function Terminate(tokens: seq<string>): string {
    if tokens == [] then "" else tokens[0] + [NUL] + Terminate(tokens[1..])
  }

  lemma {:induction false} SplitTerminated(tokens: seq<string>)
    requires forall k :: 0 <= k < |tokens| ==> NUL !in tokens[k]
    ensures Split(Terminate(tokens), NUL) == tokens + [""]
  {
    if tokens != [] {
      SplitAtSeparator(tokens[0], NUL, Terminate(tokens[1..]));
      SplitTerminated(tokens[1..]);
    }
  }

  lemma {:induction false} NonEmptyKeeps(tokens: seq<string>)
    requires forall k :: 0 <= k < |tokens| ==> tokens[k] != ""
    ensures NonEmpty(tokens + [""]) == tokens
  {
    if tokens != [] {
      assert (tokens + [""])[1..] == tokens[1..] + [""];
      NonEmptyKeeps(tokens[1..]);
    }
  }

  /** parts[index] ?? "" */
  function At(parts: seq<string>, index: nat): string {
    if index < |parts| then parts[index] else ""
  }

  function Drop(parts: seq<string>, n: nat): seq<string> {
    if n < |parts| then parts[n..] else []
  }

  /** The characters String.prototype.trim and parseInt skip. */
  predicate IsSpace(c: char) {
    var n := c as int;
    || 0x09 <= n <= 0x0D || n == 0x20 || n == 0xA0 || n == 0x1680 || 0x2000 <= n <= 0x200A
    || n == 0x2028 || n == 0x2029 || n == 0x202F || n == 0x205F || n == 0x3000 || n == 0xFEFF
  }

  function TrimStart(text: string): string {
    if text != [] && IsSpace(text[0]) then TrimStart(text[1..]) else text
  }

  predicate IsDigit(c: char) {
    '0' <= c <= '9'
  }

  /** The value of the leading digits of `text`, appended to `sofar`. */
  function Digits(text: string, sofar: nat): nat {
    if text != [] && IsDigit(text[0]) then Digits(text[1..], 10 * sofar + (text[0] as int - '0' as int)) else sofar
  }

  /** Number.parseInt(text, 10), None for NaN */
  function ParseInt(text: string): Option<int> {
    var body := TrimStart(text);
    var negative := body != [] && body[0] == '-';
    var digits := if body != [] && (body[0] == '-' || body[0] == '+') then body[1..] else body;
    if digits == [] || !IsDigit(digits[0]) then None
    else
      var value: int := Digits(digits, 0);
      Some(if negative then -value else value)
  }

  lemma {:induction false} DigitsConcat(a: string, c: char, sofar: nat)
    requires (forall k :: 0 <= k < |a| ==> IsDigit(a[k])) && IsDigit(c)
    ensures Digits(a + [c], sofar) == 10 * Digits(a, sofar) + (c as int - '0' as int)
  {
    if a == [] {
      assert [] + [c] == [c] && [c][1..] == [];
    } else {
      assert (a + [c])[1..] == a[1..] + [c];
      DigitsConcat(a[1..], c, 10 * sofar + (a[0] as int - '0' as int));
    }
  }

  lemma {:induction false} DecimalDigits(n: nat)
    ensures Decimal(n) != [] && forall k :: 0 <= k < |Decimal(n)| ==> IsDigit(Decimal(n)[k])
    ensures Digits(Decimal(n), 0) == n
  {
    if n >= 10 {
      DecimalDigits(n / 10);
      DigitsConcat(Decimal(n / 10), ('0' as int + n % 10) as char, 0);
    } else {
      assert Decimal(n)[1..] == [];
    }
  }

  lemma ParseIntUndoesDecimal(n: nat)
    ensures ParseInt(Decimal(n)) == Some(n) && Decimal(n) != "-" && TAB !in Decimal(n) && NUL !in Decimal(n)
  {
    DecimalDigits(n);
    assert IsDigit(Decimal(n)[0]);
  }

  // ---------------------------------------------------------------- git diff -z --name-status

  datatype Status = Added | Modified | Deleted | Renamed | Copied | TypeChanged

  function Letter(status: Status): char {
    match status
    case Added => 'A'
    case Modified => 'M'
    case Deleted => 'D'
    case Renamed => 'R'
    case Copied => 'C'
    case TypeChanged => 'T'
  }

  datatype Change = Change(status: Status, path: string, oldPath: Option<string>)

  function ToUpper(c: char): char {
    if 'a' <= c <= 'z' then (c as int - 'a' as int + 'A' as int) as char else c
  }

  /** The first visible character of a field, upper-cased, if it is a status letter. */
  function ParseStatusCode(raw: string): Option<Status> {
    var body := TrimStart(raw);
    if body == [] then None
    else
      var code := ToUpper(body[0]);
      if code == 'A' then Some(Added)
      else if code == 'M' then Some(Modified)
      else if code == 'D' then Some(Deleted)
      else if code == 'R' then Some(Renamed)
      else if code == 'C' then Some(Copied)
      else if code == 'T' then Some(TypeChanged)
      else None
  }

  predicate IsRename(status: Status) {
    status == Renamed || status == Copied
  }

  function Named(status: Status, path: string, oldPath: string): seq<Change> {
    if path != "" then [Change(status, path, if oldPath != "" then Some(oldPath) else None)] else []
  }

  /** What one turn of the loop reads at `index`, and where the next turn starts. */
  function ReadChange(parts: seq<string>, index: nat): (read: (seq<Change>, nat))
    requires index < |parts|
    ensures read.1 > index
  {
    match ParseStatusCode(parts[index])
    case None => ([], index + 1)
    case Some(status) =>
      if IsRename(status) then (Named(status, At(parts, index + 2), At(parts, index + 1)), index + 3)
      else (Named(status, At(parts, index + 1), ""), index + 2)
  }

  /** The loop from `index` on, with the entries read so far. */
  function NameStatusFrom(parts: seq<string>, index: nat, sofar: seq<Change>): seq<Change>
    decreases |parts| - index
  {
    if index >= |parts| then sofar
    else
      var (changes, next) := ReadChange(parts, index);
      NameStatusFrom(parts, next, sofar + changes)
  }

  method ParseNameStatus(output: string) returns (files: seq<Change>)
    ensures files == NameStatusFrom(NonEmpty(Split(output, NUL)), 0, [])
  {
    var parts := NonEmpty(Split(output, NUL));
    files := [];
    var index := 0;
    while index < |parts|
      invariant NameStatusFrom(parts, index, files) == NameStatusFrom(parts, 0, [])
      decreases |parts| - index
    {
      var status := ParseStatusCode(parts[index]);
      if status.None? {
        assert files + [] == files;
        index := index + 1;
      } else if IsRename(status.value) {
        var oldPath, path := At(parts, index + 1), At(parts, index + 2);
        files := files + Named(status.value, path, oldPath);
        index := index + 3;
      } else {
        files := files + Named(status.value, At(parts, index + 1), "");
        index := index + 2;
      }
    }
  }

  // ---------------------------------------------------------------- git diff -z --numstat

  lemma DropAgain(parts: seq<string>, index: nat, n: nat)
    ensures Drop(Drop(parts, index), n) == Drop(parts, index + n)
    ensures At(Drop(parts, index), n) == At(parts, index + n)
  {
  }

  datatype Stat = Stat(additions: Option<int>, deletions: Option<int>, binary: bool)

  /** One field read as a numstat field, None for a field the loop skips; the path is empty for a rename. */
  function ParseStat(part: string): Option<(Stat, string)> {
    var tabs := Split(part, TAB);
    if part == "" || |tabs| < 3 || (tabs[0] != "-" && ParseInt(tabs[0]).None?) then None
    else
      var binary := tabs[0] == "-" || tabs[1] == "-";
      var stat := if binary then Stat(None, None, true) else Stat(ParseInt(tabs[0]), ParseInt(tabs[1]), false);
      Some((stat, Join(tabs[2..], TAB)))
  }

  function NumstatOf(parts: seq<string>, sofar: map<string, Stat>): map<string, Stat>
    decreases |parts|
  {
    if parts == [] then sofar
    else
      match ParseStat(parts[0])
      case None => NumstatOf(parts[1..], sofar)
      case Some((stat, pathField)) =>
        if pathField != "" then NumstatOf(parts[1..], sofar[pathField := stat])
        else
          var path := if At(parts, 2) != "" then At(parts, 2) else At(parts, 1);
          NumstatOf(Drop(parts, 3), if path == "" then sofar else sofar[path := stat])
  }

  method ParseNumstat(output: string) returns (stats: map<string, Stat>)
    ensures stats == NumstatOf(Split(output, NUL), map[])
  {
    stats := map[];
    var parts := Split(output, NUL);
    var index := 0;
    while index < |parts|
      invariant NumstatOf(Drop(parts, index), stats) == NumstatOf(parts, map[])
      decreases |parts| - index
    {
      DropAgain(parts, index, 1);
      DropAgain(parts, index, 2);
      DropAgain(parts, index, 3);
      assert Drop(parts, index)[1..] == Drop(parts, index + 1);
      var part := parts[index];
      if part == "" {
        index := index + 1;
        continue;
      }
      var tabs := Split(part, TAB);
      if |tabs| < 3 {
        index := index + 1;
        continue;
      }
      var addedRaw, deletedRaw := tabs[0], tabs[1];
      if addedRaw != "-" && ParseInt(addedRaw).None? {
        index := index + 1;
        continue;
      }
      var binary := addedRaw == "-" || deletedRaw == "-";
      var additions, deletions := None, None;
      if !binary {
        additions, deletions := ParseInt(addedRaw), ParseInt(deletedRaw);
      }
      var path := Join(tabs[2..], TAB);
      if path == "" {
        var oldPath, newPath := At(parts, index + 1), At(parts, index + 2);
        path := if newPath != "" then newPath else oldPath;
        index := index + 3;
      } else {
        index := index + 1;
      }
      if path == "" {
        continue;
      }
      stats := stats[path := Stat(additions, deletions, binary)];
    }
  }

  // ---------------------------------------------------------------- what git prints

  /** A change with its similarity score (renames and copies) and its line counts, None if binary. */
  datatype Printed = Printed(change: Change, score: nat, counts: Option<(nat, nat)>)

  predicate IsPath(path: string) {
    path != "" && NUL !in path
  }

  /** What git can print: proper paths, and an old path exactly for renames and copies. */
  predicate Printable(p: Printed) {
    && IsPath(p.change.path)
    && (p.change.status == Renamed || p.change.status == Copied <==> p.change.oldPath.Some?)
    && (p.change.oldPath.Some? ==> IsPath(p.change.oldPath.value))
  }

  function NameStatusTokens(p: Printed): seq<string> {
    if p.change.oldPath.Some? then [[Letter(p.change.status)] + Decimal(p.score), p.change.oldPath.value, p.change.path]
    else [[Letter(p.change.status)], p.change.path]
  }

  function CountsText(counts: Option<(nat, nat)>): string {
    match counts
    case None => "-" + [TAB] + ("-" + [TAB])
    case Some((added, deleted)) => Decimal(added) + [TAB] + (Decimal(deleted) + [TAB])
  }

  function NumstatTokens(p: Printed): seq<string> {
    if p.change.oldPath.Some? then [CountsText(p.counts), p.change.oldPath.value, p.change.path]
    else [CountsText(p.counts) + p.change.path]
  }

  function AllNameStatus(ps: seq<Printed>): seq<string> {
    if ps == [] then [] else NameStatusTokens(ps[0]) + AllNameStatus(ps[1..])
  }

  function AllNumstat(ps: seq<Printed>): seq<string> {
    if ps == [] then [] else NumstatTokens(ps[0]) + AllNumstat(ps[1..])
  }

  function Changes(ps: seq<Printed>): seq<Change> {
    if ps == [] then [] else [ps[0].change] + Changes(ps[1..])
  }

  function StatOf(p: Printed): Stat {
    match p.counts
    case None => Stat(None, None, true)
    case Some((added, deleted)) => Stat(Some(added), Some(deleted), false)
  }

  ghost predicate DistinctPaths(ps: seq<Printed>) {
    forall i, j :: 0 <= i < j < |ps| ==> ps[i].change.path != ps[j].change.path
  }

  lemma StatusTokenParses(p: Printed)
    requires Printable(p)
    ensures ParseStatusCode(NameStatusTokens(p)[0]) == Some(p.change.status)
    ensures forall k :: 0 <= k < |NameStatusTokens(p)| ==>
      NameStatusTokens(p)[k] != "" && NUL !in NameStatusTokens(p)[k]
  {
    DecimalDigits(p.score);
    ParseIntUndoesDecimal(p.score);
    assert NUL !in [Letter(p.change.status)];
  }

  /** Reading at the tokens of one entry gives that entry and moves past them. */
  lemma NameStatusReadsOne(parts: seq<string>, at: nat, p: Printed)
    requires Printable(p) && at + |NameStatusTokens(p)| <= |parts|
    requires parts[at..at + |NameStatusTokens(p)|] == NameStatusTokens(p)
    ensures ReadChange(parts, at) == ([p.change], at + |NameStatusTokens(p)|)
  {
    StatusTokenParses(p);
    var tokens := NameStatusTokens(p);
    forall k | 0 <= k < |tokens|
      ensures At(parts, at + k) == tokens[k] && parts[at + k] == tokens[k]
    {
      assert parts[at..at + |tokens|][k] == parts[at + k];
    }
    assert parts[at] == tokens[0];
    assert At(parts, at + 1) == tokens[1];
    if p.change.oldPath.Some? {
      assert At(parts, at + 2) == tokens[2];
    }
  }

  lemma {:induction false} NameStatusReadsBack(parts: seq<string>, at: nat, ps: seq<Printed>, sofar: seq<Change>)
    requires forall k :: 0 <= k < |ps| ==> Printable(ps[k])
    requires at <= |parts| && parts[at..] == AllNameStatus(ps)
    ensures NameStatusFrom(parts, at, sofar) == sofar + Changes(ps)
    decreases |ps|
  {
    if ps == [] {
      assert sofar + [] == sofar;
    } else {
      var p := ps[0];
      var next := at + |NameStatusTokens(p)|;
      assert parts[at..next] == parts[at..][..next - at] == NameStatusTokens(p);
      assert parts[next..] == parts[at..][next - at..] == AllNameStatus(ps[1..]);
      NameStatusReadsOne(parts, at, p);
      NameStatusReadsBack(parts, next, ps[1..], sofar + [p.change]);
      ConcatAssociates(sofar, [p.change], Changes(ps[1..]));
    }
  }

  lemma {:induction false} NameStatusTokensAreFields(ps: seq<Printed>)
    requires forall k :: 0 <= k < |ps| ==> Printable(ps[k])
    ensures forall k :: 0 <= k < |AllNameStatus(ps)| ==> AllNameStatus(ps)[k] != "" && NUL !in AllNameStatus(ps)[k]
  {
    if ps != [] {
      StatusTokenParses(ps[0]);
      NameStatusTokensAreFields(ps[1..]);
    }
  }

  lemma CountsParse(counts: Option<(nat, nat)>, path: string)
    ensures ParseStat(CountsText(counts) + path) ==
      Some((StatOf(Printed(Change(Modified, path, None), 0, counts)), path))
    ensures CountsText(counts) != "" && NUL !in CountsText(counts)
  {
    var a := if counts.Some? then Decimal(counts.value.0) else "-";
    var d := if counts.Some? then Decimal(counts.value.1) else "-";
    if counts.Some? {
      ParseIntUndoesDecimal(counts.value.0);
      ParseIntUndoesDecimal(counts.value.1);
    }
    assert CountsText(counts) == a + [TAB] + (d + [TAB]);
    CountsSplit(a, d, path);
    JoinSplit(path, TAB);
  }

  /** Fields without tabs come apart again, and what follows them is left whole. */
  lemma CountsSplit(a: string, d: string, path: string)
    requires TAB !in a && TAB !in d
    ensures var tabs := Split(a + [TAB] + (d + [TAB]) + path, TAB);
      |tabs| > 2 && tabs[0] == a && tabs[1] == d && tabs[2..] == Split(path, TAB)
  {
    assert a + [TAB] + (d + [TAB]) + path == a + [TAB] + (d + [TAB] + path);
    SplitAtSeparator(a, TAB, d + [TAB] + path);
    SplitAtSeparator(d, TAB, path);
    assert ([a] + ([d] + Split(path, TAB)))[2..] == Split(path, TAB);
  }

  /** The fields of one printed entry set its path and no other. */
  lemma NumstatReadsOne(p: Printed, rest: seq<string>, sofar: map<string, Stat>)
    requires Printable(p)
    ensures NumstatOf(NumstatTokens(p) + rest, sofar) == NumstatOf(rest, sofar[p.change.path := StatOf(p)])
  {
    var tokens := NumstatTokens(p);
    var parts := tokens + rest;
    CountsParse(p.counts, p.change.path);
    CountsParse(p.counts, "");
    assert CountsText(p.counts) + "" == CountsText(p.counts);
    assert Drop(parts, |tokens|) == rest && parts[0] == tokens[0];
    if p.change.oldPath.Some? {
      assert At(parts, 2) == p.change.path;
    } else {
      assert parts[1..] == rest;
    }
  }

  lemma {:induction false} NumstatReadsBack(ps: seq<Printed>, sofar: map<string, Stat>)
    requires forall k :: 0 <= k < |ps| ==> Printable(ps[k])
    requires DistinctPaths(ps)
    ensures NumstatOf(AllNumstat(ps) + [""], sofar) == WithStats(sofar, ps)
  {
    if ps == [] {
      assert AllNumstat(ps) + [""] == [""] && [""][1..] == [];
      assert ParseStat("").None?;
    } else {
      var rest := AllNumstat(ps[1..]) + [""];
      assert AllNumstat(ps) + [""] == NumstatTokens(ps[0]) + rest;
      NumstatReadsOne(ps[0], rest, sofar);
      NumstatReadsBack(ps[1..], sofar[ps[0].change.path := StatOf(ps[0])]);
    }
  }

  function WithStats(sofar: map<string, Stat>, ps: seq<Printed>): map<string, Stat>
    decreases |ps|
  {
    if ps == [] then sofar else WithStats(sofar[ps[0].change.path := StatOf(ps[0])], ps[1..])
  }

  lemma {:induction false} WithStatsFinds(sofar: map<string, Stat>, ps: seq<Printed>)
    requires DistinctPaths(ps)
    ensures WithStats(sofar, ps).Keys == sofar.Keys + Paths(ps)
    ensures forall k :: 0 <= k < |ps| ==>
      ps[k].change.path in WithStats(sofar, ps) && WithStats(sofar, ps)[ps[k].change.path] == StatOf(ps[k])
    ensures forall path :: path in sofar && path !in Paths(ps) ==> WithStats(sofar, ps)[path] == sofar[path]
    decreases |ps|
  {
    if ps != [] {
      var after := sofar[ps[0].change.path := StatOf(ps[0])];
      WithStatsFinds(after, ps[1..]);
      assert forall k :: 0 < k < |ps| ==> ps[k] == ps[1..][k - 1];
      assert Paths(ps) == {ps[0].change.path} + Paths(ps[1..]);
      assert ps[0].change.path !in Paths(ps[1..]);
    }
  }

  function Paths(ps: seq<Printed>): set<string> {
    set k | 0 <= k < |ps| :: ps[k].change.path
  }

  lemma {:induction false} NumstatTokensAreFields(ps: seq<Printed>)
    requires forall k :: 0 <= k < |ps| ==> Printable(ps[k])
    ensures forall k :: 0 <= k < |AllNumstat(ps)| ==> NUL !in AllNumstat(ps)[k]
  {
    if ps != [] {
      CountsParse(ps[0].counts, ps[0].change.path);
      NumstatTokensAreFields(ps[1..]);
    }
  }

  /**
   Reading back what git prints: the changes come back as they were, and the counts of each
   are found under its path, for a rename the new one.
   */
  lemma ParsersUndoPrinting(ps: seq<Printed>)
    requires forall k :: 0 <= k < |ps| ==> Printable(ps[k])
    requires DistinctPaths(ps)
    ensures NameStatusFrom(NonEmpty(Split(Terminate(AllNameStatus(ps)), NUL)), 0, []) == Changes(ps)
    ensures var stats := NumstatOf(Split(Terminate(AllNumstat(ps)), NUL), map[]);
      && stats.Keys == Paths(ps)
      && forall k :: 0 <= k < |ps| ==> ps[k].change.path in stats && stats[ps[k].change.path] == StatOf(ps[k])
  {
    NameStatusReadsBack(AllNameStatus(ps), 0, ps, []);
    NameStatusTokensAreFields(ps);
    SplitTerminated(AllNameStatus(ps));
    NonEmptyKeeps(AllNameStatus(ps));
    NumstatTokensAreFields(ps);
    SplitTerminated(AllNumstat(ps));
    NumstatReadsBack(ps, map[]);
    WithStatsFinds(map[], ps);
  }

  // ---------------------------------------------------------------- input that git does not print

  /** White space as ECMAScript trims it. */
  lemma SpaceIsListed(c: char)
    ensures IsSpace(c) <==> c as int in {
      9, 10, 11, 12, 13, 32, 160, 5760, 8192, 8193, 8194, 8195, 8196, 8197, 8198, 8199, 8200, 8201, 8202,
      8232, 8233, 8239, 8287, 12288, 65279}
  {
  }

  lemma {:induction false} SpaceIsTrimmed(space: string, text: string)
    requires (forall k :: 0 <= k < |space| ==> IsSpace(space[k])) && (text == [] || !IsSpace(text[0]))
    ensures TrimStart(space + text) == text
  {
    if space == [] {
      assert space + text == text;
    } else {
      assert (space + text)[1..] == space[1..] + text;
      SpaceIsTrimmed(space[1..], text);
    }
  }

  /** A field has the status of its first visible character, in either case, whatever follows. */
  lemma StatusIsFirstVisible(space: string, c: char, rest: string, status: Status)
    requires (forall k :: 0 <= k < |space| ==> IsSpace(space[k])) && !IsSpace(c)
    ensures ParseStatusCode(space + ([c] + rest)) == Some(status) <==>
      c == Letter(status) || c as int == Letter(status) as int + 32
    ensures ParseStatusCode(space) == None
  {
    SpaceIsTrimmed(space, [c] + rest);
    SpaceIsTrimmed(space, []);
    assert space + [] == space;
  }

  lemma {:induction false} DigitsStop(digits: string, rest: string, sofar: nat)
    requires (forall k :: 0 <= k < |digits| ==> IsDigit(digits[k])) && (rest == [] || !IsDigit(rest[0]))
    ensures Digits(digits + rest, sofar) == Digits(digits, sofar)
  {
    if digits == [] {
      assert digits + rest == rest;
    } else {
      assert (digits + rest)[1..] == digits[1..] + rest;
      DigitsStop(digits[1..], rest, 10 * sofar + (digits[0] as int - '0' as int));
    }
  }

  /** A number may have white space and a sign before it and anything but a digit after it. */
  lemma ParseIntReads(space: string, sign: string, n: nat, rest: string)
    requires (forall k :: 0 <= k < |space| ==> IsSpace(space[k])) && sign in {"", "+", "-"}
    requires rest == [] || !IsDigit(rest[0])
    ensures var value: int := n;
      ParseInt(space + (sign + (Decimal(n) + rest))) == Some(if sign == "-" then -value else value)
  {
    DecimalDigits(n);
    DigitsStop(Decimal(n), rest, 0);
    var number := Decimal(n) + rest;
    assert IsDigit(number[0]);
    SpaceIsTrimmed(space, sign + number);
    assert sign != [] ==> (sign + number)[1..] == number;
    assert sign == [] ==> sign + number == number;
  }

  /** Without a digit there is no number. */
  lemma ParseIntNeedsDigit(space: string, text: string)
    requires forall k :: 0 <= k < |space| ==> IsSpace(space[k])
    requires text == [] || (!IsSpace(text[0]) && !IsDigit(text[0]) && text[0] != '-' && text[0] != '+')
    ensures ParseInt(space + text) == None && ParseInt(space + ("-" + text)) == None &&
      ParseInt(space + ("+" + text)) == None
  {
    SpaceIsTrimmed(space, text);
    SpaceIsTrimmed(space, "-" + text);
    SpaceIsTrimmed(space, "+" + text);
    assert ("-" + text)[1..] == text && ("+" + text)[1..] == text;
  }

  /** A numstat field: two counts and a path, binary as soon as one count is a dash. */
  lemma StatFieldReads(a: string, d: string, path: string)
    requires TAB !in a && TAB !in d
    ensures ParseStat(a + [TAB] + (d + [TAB]) + path) ==
      if a != "-" && ParseInt(a).None? then None
      else Some((if a == "-" || d == "-" then Stat(None, None, true) else Stat(ParseInt(a), ParseInt(d), false), path))
  {
    CountsSplit(a, d, path);
    JoinSplit(path, TAB);
  }

  /** A field with fewer than two tabs is no numstat field. */
  lemma ShortFieldIsSkipped(a: string, d: string)
    requires TAB !in a && TAB !in d
    ensures ParseStat(a) == None && ParseStat(a + [TAB] + d) == None
  {
    SplitOne(a, TAB);
    SplitOne(d, TAB);
    SplitAtSeparator(a, TAB, d);
  }

  /** Name-status: what is no status is skipped alone, and an entry cut off before its path is dropped. */
  lemma NameStatusSkips(parts: seq<string>, at: nat, sofar: seq<Change>)
    requires at < |parts|
    ensures ParseStatusCode(parts[at]).None? ==>
      NameStatusFrom(parts, at, sofar) == NameStatusFrom(parts, at + 1, sofar)
    ensures var status := ParseStatusCode(parts[at]);
      status.Some? && (at + 1 == |parts| || (at + 2 == |parts| && status.value in {Renamed, Copied})) ==>
        NameStatusFrom(parts, at, sofar) == sofar
  {
    assert sofar + [] == sofar;
  }

  /**
   Numstat: what is no numstat field is skipped alone; a field without path takes the new path two
   fields on, or else the old one, and is dropped without either.
   */
  lemma NumstatSkips(part: string, rest: seq<string>, sofar: map<string, Stat>)
    ensures ParseStat(part).None? ==> NumstatOf([part] + rest, sofar) == NumstatOf(rest, sofar)
    ensures ParseStat(part).Some? && ParseStat(part).value.1 == "" ==>
      var stat := ParseStat(part).value.0;
      NumstatOf([part] + rest, sofar) ==
        if |rest| > 1 && rest[1] != "" then NumstatOf(rest[2..], sofar[rest[1] := stat])
        else if |rest| > 0 && rest[0] != "" then NumstatOf(if |rest| > 1 then rest[2..] else [], sofar[rest[0] := stat])
        else NumstatOf(if |rest| > 1 then rest[2..] else [], sofar)
  {
    assert ([part] + rest)[1..] == rest;
    assert |rest| > 1 ==> ([part] + rest)[3..] == rest[2..];
  }
}
