/**
 Batching of staged upload paths into `rm` command lines
 (apps/agent/src/sandbox-bash.ts, stagedPathBatches).
 */
module StagedPaths {

  const MAX_PATHS := 200
  const MAX_BYTES := 48 * 1024
  const PATH_OVERHEAD := 16

  function Utf8Width(c: char): nat {
    if c as int < 0x80 then 1 else if c as int < 0x800 then 2 else if c as int < 0x10000 then 3 else 4
  }

  /** Buffer.byteLength(path, "utf8") */
  function Utf8Length(s: string): nat {
    if s == [] then 0 else Utf8Width(s[0]) + Utf8Length(s[1..])
  }

  function PathBytes(path: string): nat {
    Utf8Length(path) + PATH_OVERHEAD
  }

  function TotalBytes(batch: seq<string>): nat {
    if batch == [] then 0 else TotalBytes(batch[..|batch| - 1]) + PathBytes(batch[|batch| - 1])
  }

  /** A batch that may be sent: within both limits, or one path that no split can make smaller. */
  predicate Allowed(batch: seq<string>) {
    |batch| == 1 || (1 < |batch| <= MAX_PATHS && TotalBytes(batch) <= MAX_BYTES)
  }

  function Flatten(batches: seq<seq<string>>): seq<string> {
    if batches == [] then [] else batches[0] + Flatten(batches[1..])
  }

  /** `batches` cuts `paths` into contiguous allowed batches. */
  ghost predicate IsSplit(batches: seq<seq<string>>, paths: seq<string>) {
    && Flatten(batches) == paths
    && forall i :: 0 <= i < |batches| ==> Allowed(batches[i])
  }

  /** No batch could have taken the path that opens the next one. */
  ghost predicate Greedy(batches: seq<seq<string>>) {
    forall i :: 0 <= i < |batches| - 1 && |batches[i + 1]| > 0 ==>
      !Allowed(batches[i] + batches[i + 1][..1])
  }

  ghost predicate GreedySplit(batches: seq<seq<string>>, paths: seq<string>) {
    IsSplit(batches, paths) && Greedy(batches)
  }

  /** The last batch is full, so the next path opens a new one. */
  lemma OpenBatch(batches: seq<seq<string>>, batch: seq<string>, path: string, done: seq<string>)
    requires GreedySplit(batches + [batch], done)
    requires batch != [] && !Allowed(batch + [path])
    ensures GreedySplit(batches + [batch] + [[path]], done + [path])
  {
    FlattenAppend(batches + [batch], [path]);
    assert [path][..1] == [path];
  }

  /** The last batch, possibly still empty, takes the next path. */
  lemma GrowBatch(batches: seq<seq<string>>, batch: seq<string>, path: string, done: seq<string>)
    requires if batch == [] then batches == [] && done == [] else GreedySplit(batches + [batch], done)
    requires Allowed(batch + [path])
    ensures GreedySplit(batches + [batch + [path]], done + [path])
  {
    FlattenAppend(batches, batch + [path]);
    if batch != [] {
      FlattenAppend(batches, batch);
      assert (batch + [path])[..1] == batch[..1];
      var before, after := batches + [batch], batches + [batch + [path]];
      forall i | 0 <= i < |after|
        ensures Allowed(after[i])
        ensures i < |after| - 1 && |after[i + 1]| > 0 ==> !Allowed(after[i] + after[i + 1][..1])
      {
        if i < |after| - 1 {
          assert after[i] == before[i] && Allowed(before[i]) && Allowed(before[i + 1]);
          assert after[i + 1][..1] == before[i + 1][..1];
        }
      }
    }
  }

  method StagedPathBatches(paths: seq<string>) returns (batches: seq<seq<string>>)
    ensures IsSplit(batches, paths)
    ensures forall other :: IsSplit(other, paths) ==> |batches| <= |other|
  {
    batches := [];
    var batch: seq<string> := [];
    var bytes := 0;
    for k := 0 to |paths|
      invariant bytes == TotalBytes(batch)
      invariant batch == [] ==> batches == [] && k == 0
      invariant batch != [] ==> GreedySplit(batches + [batch], paths[..k])
    {
      var path := paths[k];
      var pathBytes := PathBytes(path);
      assert paths[..k + 1] == paths[..k] + [path];
      assert (batch + [path])[..|batch|] == batch;
      if |batch| > 0 && (|batch| >= MAX_PATHS || bytes + pathBytes > MAX_BYTES) {
        OpenBatch(batches, batch, path, paths[..k]);
        batches := batches + [batch];
        batch := [];
        bytes := 0;
      } else {
        GrowBatch(batches, batch, path, paths[..k]);
      }
      batch := batch + [path];
      bytes := bytes + pathBytes;
    }
    assert paths[..|paths|] == paths;
    if |batch| > 0 {
      batches := batches + [batch];
    }
    forall other | IsSplit(other, paths)
      ensures |batches| <= |other|
    {
      GreedyIsOptimal([], batches, other);
    }
  }

  lemma FlattenAppend(batches: seq<seq<string>>, batch: seq<string>)
    ensures Flatten(batches + [batch]) == Flatten(batches) + batch
  {
    if batches == [] {
      assert Flatten([batch]) == batch + Flatten([]);
    } else {
      assert (batches + [batch])[1..] == batches[1..] + [batch];
      FlattenAppend(batches[1..], batch);
    }
  }

  lemma {:induction false} TotalBytesConcat(a: seq<string>, b: seq<string>)
    ensures TotalBytes(a + b) == TotalBytes(a) + TotalBytes(b)
  {
    if b == [] {
      assert a + b == a;
    } else {
      assert (a + b)[..|a + b| - 1] == a + b[..|b| - 1];
      TotalBytesConcat(a, b[..|b| - 1]);
    }
  }

  /** Every non-empty piece of an allowed batch is allowed. */
  lemma AllowedPiece(a: seq<string>, b: seq<string>, c: seq<string>)
    requires Allowed(a + b + c) && b != []
    ensures Allowed(b)
  {
    TotalBytesConcat(a + b, c);
    TotalBytesConcat(a, b);
  }

  /** Cutting a prefix `a` of `x + y`. */
  lemma DropFront(a: seq<string>, b: seq<string>, x: seq<string>, y: seq<string>)
    requires a + b == x + y
    ensures |a| <= |x| ==> b == x[|a|..] + y
    ensures |a| > |x| ==> a == x + a[|x|..] && y == a[|x|..] + b
  {
    assert b == (x + y)[|a|..] && a == (x + y)[..|a|];
    if |a| > |x| {
      assert y == (a + b)[|x|..];
    }
  }

  /** An allowed batch that starts `ahead` of a greedy batch ends within that batch. */
  lemma GreedyBatchReaches(ahead: seq<string>, taken: seq<string>, after: seq<string>, greedy: seq<seq<string>>)
    requires Allowed(ahead + taken) && Greedy(greedy) && greedy != []
    requires forall i :: 0 <= i < |greedy| ==> Allowed(greedy[i])
    requires taken + after == Flatten(greedy)
    ensures |taken| <= |greedy[0]|
  {
    if |taken| > |greedy[0]| {
      DropFront(taken, after, greedy[0], Flatten(greedy[1..]));
      var over := taken[|greedy[0]|..];
      assert over + after == Flatten(greedy[1..]);
      assert |greedy| > 1;
      NextPathNotTaken(ahead, greedy[0], over, after, greedy[1], Flatten(greedy[2..]));
    }
  }

  lemma NextPathNotTaken(ahead: seq<string>, batch: seq<string>, over: seq<string>, after: seq<string>,
      next: seq<string>, rest: seq<string>)
    requires over != [] && next != [] && over + after == next + rest
    requires !Allowed(batch + next[..1])
    ensures !Allowed(ahead + (batch + over))
  {
    assert over[0] == (over + after)[0] == next[0];
    var piece := batch + next[..1];
    assert over == next[..1] + over[1..];
    assert ahead + (batch + over) == ahead + piece + over[1..];
    if Allowed(ahead + (batch + over)) {
      AllowedPiece(ahead, piece, over[1..]);
    }
  }

  /**
   The greedy split stays ahead: if it has already placed the prefix `ahead` of what
   `other` must still cover, it needs no more batches than `other`.
   */
  lemma {:induction false} GreedyIsOptimal(ahead: seq<string>, greedy: seq<seq<string>>, other: seq<seq<string>>)
    requires forall i :: 0 <= i < |greedy| ==> Allowed(greedy[i])
    requires forall i :: 0 <= i < |other| ==> Allowed(other[i])
    requires Greedy(greedy)
    requires Flatten(other) == ahead + Flatten(greedy)
    ensures |greedy| <= |other|
    decreases |other|
  {
    if greedy != [] {
      assert |greedy[0]| > 0;
      var first, after := other[0], Flatten(other[1..]);
      DropFront(first, after, ahead, Flatten(greedy));
      if |first| <= |ahead| {
        GreedyIsOptimal(ahead[|first|..], greedy, other[1..]);
      } else {
        var taken := first[|ahead|..];
        GreedyBatchReaches(ahead, taken, after, greedy);
        DropFront(taken, after, greedy[0], Flatten(greedy[1..]));
        GreedyIsOptimal(greedy[0][|taken|..], greedy[1..], other[1..]);
      }
    }
  }
}
