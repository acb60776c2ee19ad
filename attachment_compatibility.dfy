/**
 * Attachment compatibility between render passes, render bundles and render pipelines:
 * the sparse colour-attachment pattern generator, the read-only parameter filter, the
 * expected validity of a pipeline's depth/stencil writes against a read-only pass or
 * bundle, slot-wise pattern equality, and the depth attachment built from a format.
 */
module AttachmentCompatibility {
  import opened Wrappers
  import opened Gpu

  /** One slot per colour attachment: true is a non-null attachment, false a null one. */
  type Pattern = seq<bool>

  // ---------------------------------------------------------------------------
  // Colour attachment counts
  // ---------------------------------------------------------------------------

  /** The counts 1, 2, ..., maxColorAttachments, in increasing order. */
  function ColorAttachmentCounts(maxColorAttachments: nat): (counts: seq<nat>)
    ensures |counts| == maxColorAttachments
    ensures forall i :: 0 <= i < |counts| ==> counts[i] == i + 1
  {
    seq(maxColorAttachments, i => i + 1)
  }

  // ---------------------------------------------------------------------------
  // Specification of the generated patterns
  // ---------------------------------------------------------------------------

  function AllNonNull(count: nat): Pattern {
    seq(count, _ => true)
  }

  /** The pattern with a null attachment at slot i only. */
  function OneNull(count: nat, i: int): Pattern {
    seq(count, k => k != i)
  }

  /** The pattern with null attachments at slots i and j only. */
  function TwoNull(count: nat, i: int, j: int): Pattern {
    seq(count, k => k != i && k != j)
  }

  /** Every one-null pattern, the null slot moving from 0 to count - 1. */
  function OneNullPatterns(count: nat): seq<Pattern> {
    seq(count, i => OneNull(count, i))
  }

  /** For a fixed first null slot i, the patterns with second null slot j = i+1 .. count-1. */
  function TwoNullRow(count: nat, i: nat): seq<Pattern>
    requires i < count
  {
    seq(count - 1 - i, k => TwoNull(count, i, i + 1 + k))
  }

  /** The rows for first null slots 0 .. rows-1, concatenated: pairs (i, j) in lexicographic order. */
  function TwoNullRows(count: nat, rows: nat): seq<Pattern>
    requires rows <= count
  {
    if rows == 0 then [] else TwoNullRows(count, rows - 1) + TwoNullRow(count, rows - 1)
  }

  function TwoNullPatterns(count: nat): seq<Pattern>
    requires count >= 1
  {
    TwoNullRows(count, count - 1)
  }

  /** The general construction: all-non-null, every one-null, and every two-null pattern up to 4 slots. */
  function GeneralPatterns(count: nat): seq<Pattern>
    requires count >= 1
  {
    [AllNonNull(count)] + OneNullPatterns(count) + (if count <= 4 then TwoNullPatterns(count) else [])
  }

  /**
   * The patterns generated for one count. Counts 1 and 2 are written out, and leave out
   * the all-null pattern that the general construction would produce.
   */
  function PatternsForCount(count: nat): seq<Pattern>
    requires count >= 1
  {
    if count == 1 then [[true]]
    else if count == 2 then [[true, true], [false, true], [true, false]]
    else GeneralPatterns(count)
  }

  /** The lists table(1), ..., table(n), concatenated in that order. */
  function Flatten(table: nat --> seq<Pattern>, n: nat): seq<Pattern>
    requires forall c :: 1 <= c <= n ==> table.requires(c)
  {
    if n == 0 then [] else Flatten(table, n - 1) + table(n)
  }

  /** The patterns of counts 1 .. maxCount, concatenated in count order. */
  function AllPatterns(maxCount: nat): seq<Pattern> {
    Flatten(PatternsForCount, maxCount)
  }

  // ---------------------------------------------------------------------------
  // The generator, as the source builds it
  // ---------------------------------------------------------------------------

  /** `new Array(count).fill(true)` with slot i then set to false. */
  method OneNullArray(count: nat, i: nat) returns (p: Pattern)
    requires i < count
    ensures p == OneNull(count, i)
  {
    var r := new bool[count](_ => true);
    r[i] := false;
    p := r[..];
  }

  /** `new Array(count).fill(true)` with slots i and j then set to false. */
  method TwoNullArray(count: nat, i: nat, j: nat) returns (p: Pattern)
    requires i < j < count
    ensures p == TwoNull(count, i, j)
  {
    var r := new bool[count](_ => true);
    r[i] := false;
    r[j] := false;
    p := r[..];
  }

  /** The patterns for one count, built by filling fresh arrays and concatenating. */
  method GenerateForCount(count: nat) returns (result: seq<Pattern>)
    requires count >= 1
    ensures result == PatternsForCount(count)
  {
    if count == 1 {
      return [[true]];
    }
    if count == 2 {
      return [[true, true], [false, true], [true, false]];
    }

    var full := new bool[count](_ => true);
    result := [full[..]];
    assert full[..] == AllNonNull(count);

    var i := 0;
    while i < count
      invariant 0 <= i <= count
      invariant result == [AllNonNull(count)] + OneNullPatterns(count)[..i]
    {
      var r := OneNullArray(count, i);
      assert OneNullPatterns(count)[..i + 1] == OneNullPatterns(count)[..i] + [r];
      result := result + [r];
      i := i + 1;
    }
    assert OneNullPatterns(count)[..count] == OneNullPatterns(count);
    ghost var prefix := result;

    if count <= 4 {
      i := 0;
      while i < count - 1
        invariant 0 <= i <= count - 1
        invariant result == prefix + TwoNullRows(count, i)
      {
        var cases: seq<Pattern> := [];
        var j := i + 1;
        while j < count
          invariant i + 1 <= j <= count
          invariant cases == TwoNullRow(count, i)[..j - i - 1]
        {
          var r := TwoNullArray(count, i, j);
          assert TwoNullRow(count, i)[..j - i] == TwoNullRow(count, i)[..j - i - 1] + [r];
          cases := cases + [r];
          j := j + 1;
        }
        assert cases == TwoNullRow(count, i);
        result := result + cases;
        i := i + 1;
      }
    }
  }

  /** kColorAttachments: the per-count pattern lists for counts 1 .. maxColorAttachments, flattened. */
  method GenerateColorAttachments(maxColorAttachments: nat) returns (all: seq<Pattern>)
    ensures all == AllPatterns(maxColorAttachments)
  {
    var counts := ColorAttachmentCounts(maxColorAttachments);
    all := [];
    var done := 0;
    while done < |counts|
      invariant done <= |counts|
      invariant all == AllPatterns(done)
    {
      var forCount := GenerateForCount(counts[done]);
      all := all + forCount;
      done := done + 1;
    }
  }

  // ---------------------------------------------------------------------------
  // Properties of the generated patterns
  // ---------------------------------------------------------------------------

  predicate SomeSlotNonNull(p: Pattern) {
    exists k :: 0 <= k < |p| && p[k]
  }

  predicate NoDuplicates(s: seq<Pattern>) {
    forall a, b :: 0 <= a < b < |s| ==> s[a] != s[b]
  }

  lemma TwoNullRowsShape(count: nat, rows: nat)
    requires rows <= count
    ensures forall p :: p in TwoNullRows(count, rows) <==>
      exists i, j :: 0 <= i < rows && i < j < count && p == TwoNull(count, i, j)
  {
    if rows > 0 {
      TwoNullRowsShape(count, rows - 1);
      var row := TwoNullRow(count, rows - 1);
      forall p | p in row
        ensures exists i, j :: 0 <= i < rows && i < j < count && p == TwoNull(count, i, j)
      {
        var k :| 0 <= k < |row| && row[k] == p;
        assert p == TwoNull(count, rows - 1, rows + k);
      }
      forall p | exists i, j :: 0 <= i < rows && i < j < count && p == TwoNull(count, i, j)
        ensures p in TwoNullRows(count, rows)
      {
        var i, j :| 0 <= i < rows && i < j < count && p == TwoNull(count, i, j);
        if i < rows - 1 {
          assert p in TwoNullRows(count, rows - 1);
        } else {
          assert row[j - rows] == p;
        }
      }
    }
  }

  lemma {:induction false} TwoNullRowsDistinct(count: nat, rows: nat)
    requires rows <= count
    ensures NoDuplicates(TwoNullRows(count, rows))
  {
    if rows > 0 {
      TwoNullRowsDistinct(count, rows - 1);
      TwoNullRowsShape(count, rows - 1);
      var prev := TwoNullRows(count, rows - 1);
      var row := TwoNullRow(count, rows - 1);
      var s := prev + row;
      forall a, b | 0 <= a < b < |s| ensures s[a] != s[b] {
        if b < |prev| {
          assert s[a] == prev[a] && s[b] == prev[b];
        } else if a < |prev| {
          // s[a] has a null slot i < rows - 1 where every pattern of the last row is non-null.
          assert s[a] in prev;
          var i, j :| 0 <= i < rows - 1 && i < j < count && s[a] == TwoNull(count, i, j);
          assert !s[a][i];
          assert s[b] == TwoNull(count, rows - 1, rows + (b - |prev|));
          assert s[b][i];
        } else {
          // Two patterns of the last row differ at the second null slot.
          var ka, kb := a - |prev|, b - |prev|;
          assert s[a] == TwoNull(count, rows - 1, rows + ka);
          assert s[b] == TwoNull(count, rows - 1, rows + kb);
          assert s[a][rows + ka] != s[b][rows + ka];
        }
      }
    }
  }

  lemma {:induction false} TwoNullRowsLength(count: nat, rows: nat)
    requires rows <= count
    ensures 2 * |TwoNullRows(count, rows)| == rows * (2 * count - rows - 1)
  {
    if rows > 0 {
      TwoNullRowsLength(count, rows - 1);
      assert |TwoNullRows(count, rows)| == |TwoNullRows(count, rows - 1)| + (count - rows);
      TriangleStep(rows, count);
    }
  }

  /** The arithmetic of one more row: (r-1)(2c-r) + 2(c-r) == r(2c-r-1). */
  lemma TriangleStep(r: int, c: int)
    ensures (r - 1) * (2 * c - r) + 2 * (c - r) == r * (2 * c - r - 1)
  {
    calc {
      (r - 1) * (2 * c - r) + 2 * (c - r);
      r * (2 * c - r) - (2 * c - r) + 2 * (c - r);
      r * (2 * c - r) - r;
      r * (2 * c - r - 1);
    }
  }

  /** Every generated pattern has `count` slots and at least one non-null slot. */
  lemma PatternsForCountShape(count: nat)
    requires count >= 1
    ensures forall p :: p in PatternsForCount(count) ==> |p| == count && SomeSlotNonNull(p)
  {
    if count >= 3 {
      var ps := PatternsForCount(count);
      assert AllNonNull(count)[0];
      forall i | 0 <= i < count ensures SomeSlotNonNull(OneNull(count, i)) {
        assert OneNull(count, i)[if i == 0 then 1 else 0];
      }
      if count <= 4 {
        TwoNullRowsShape(count, count - 1);
        forall p | p in TwoNullPatterns(count) ensures |p| == count && SomeSlotNonNull(p) {
          var i, j :| 0 <= i < count - 1 && i < j < count && p == TwoNull(count, i, j);
          var k := if i != 0 && j != 0 then 0 else if i != 1 && j != 1 then 1 else 2;
          assert p[k];
        }
      }
      forall p | p in ps ensures |p| == count && SomeSlotNonNull(p) {
        if p !in OneNullPatterns(count) && p != AllNonNull(count) {
          assert count <= 4 && p in TwoNullPatterns(count);
        } else if p in OneNullPatterns(count) {
          var k :| 0 <= k < count && OneNullPatterns(count)[k] == p;
        }
      }
    } else if count == 2 {
      var ps := PatternsForCount(count);
      assert ps[0][0] && ps[1][1] && ps[2][0];
    } else {
      assert [true][0];
    }
  }

  /** Every generated pattern has `count` slots. */
  lemma PatternsForCountLengths(count: nat)
    requires count >= 1
    ensures forall p :: p in PatternsForCount(count) ==> |p| == count
  {
    PatternsForCountShape(count);
  }

  /** Two duplicate-free lists with no pattern in common concatenate to a duplicate-free list. */
  lemma DistinctConcat(a: seq<Pattern>, b: seq<Pattern>)
    requires NoDuplicates(a) && NoDuplicates(b)
    requires forall p :: p in a ==> p !in b
    ensures NoDuplicates(a + b)
  {
    var s := a + b;
    forall x, y | 0 <= x < y < |s| ensures s[x] != s[y] {
      if y < |a| {
        assert s[x] == a[x] && s[y] == a[y];
      } else if x >= |a| {
        assert s[x] == b[x - |a|] && s[y] == b[y - |a|];
      } else {
        assert s[x] in a && s[y] in b;
      }
    }
  }

  lemma OneNullPatternsDistinct(count: nat)
    ensures NoDuplicates(OneNullPatterns(count))
  {
    var one := OneNullPatterns(count);
    forall a, b | 0 <= a < b < |one| ensures one[a] != one[b] {
      assert one[a][a] != one[b][a];
    }
  }

  /** A one-null pattern (or the all-non-null one) is never a two-null pattern. */
  lemma FewerNullsNotTwoNull(count: nat, p: Pattern, i: nat, j: nat)
    requires i < j < count
    requires p == AllNonNull(count) || exists k :: 0 <= k < count && p == OneNull(count, k)
    ensures p != TwoNull(count, i, j)
  {
    var q := TwoNull(count, i, j);
    assert !q[i] && !q[j];
    if p == AllNonNull(count) {
      assert p[i];
    } else {
      var k :| 0 <= k < count && p == OneNull(count, k);
      if k != i {
        assert p[i];
      } else {
        assert p[j];
      }
    }
  }

  /** No two patterns generated for the same count are equal. */
  lemma PatternsForCountDistinct(count: nat)
    requires count >= 1
    ensures NoDuplicates(PatternsForCount(count))
  {
    if count == 2 {
      var ps := PatternsForCount(count);
      assert ps[0][0] != ps[1][0] && ps[0][1] != ps[2][1] && ps[1][0] != ps[2][0];
    } else if count >= 3 {
      var all, one := AllNonNull(count), OneNullPatterns(count);
      OneNullPatternsDistinct(count);
      forall p | p in one ensures p != all {
        var k :| 0 <= k < count && one[k] == p;
        assert p[k] != all[k];
      }
      DistinctConcat([all], one);
      if count <= 4 {
        var two := TwoNullPatterns(count);
        TwoNullRowsDistinct(count, count - 1);
        TwoNullRowsShape(count, count - 1);
        forall p | p in [all] + one ensures p !in two {
          if p in two {
            var i, j :| 0 <= i < count - 1 && i < j < count && p == TwoNull(count, i, j);
            if p != all {
              var k :| 0 <= k < count && one[k] == p;
            }
            FewerNullsNotTwoNull(count, p, i, j);
          }
        }
        DistinctConcat([all] + one, two);
      } else {
        assert PatternsForCount(count) == [all] + one + [];
      }
    }
  }

  /**
   * How many patterns one count yields: 1 for count 1, 3 for count 2,
   * 1 + count + count*(count-1)/2 for counts 3 and 4, and 1 + count beyond.
   */
  lemma PatternsForCountSize(count: nat)
    requires count >= 1
    ensures count == 1 ==> |PatternsForCount(count)| == 1
    ensures count == 2 ==> |PatternsForCount(count)| == 3
    ensures 3 <= count <= 4 ==> |PatternsForCount(count)| == 1 + count + count * (count - 1) / 2
    ensures count > 4 ==> |PatternsForCount(count)| == 1 + count
  {
    if 3 <= count <= 4 {
      TwoNullRowsLength(count, count - 1);
    }
  }

  /**
   * Layout of the patterns for a count of at least 3: the all-non-null pattern first,
   * then the one-null pattern for slot i at position 1 + i, then (up to 4 slots) the
   * two-null patterns.
   */
  lemma PatternsForCountLayout(count: nat)
    requires count >= 3
    ensures PatternsForCount(count)[0] == AllNonNull(count)
    ensures forall i :: 0 <= i < count ==> PatternsForCount(count)[1 + i] == OneNull(count, i)
    ensures count <= 4 ==> PatternsForCount(count)[1 + count..] == TwoNullPatterns(count)
    ensures count > 4 ==> |PatternsForCount(count)| == 1 + count
  {
  }

  /** Counts 1 and 2 are the general construction without its all-null pattern. */
  lemma SpecialCountsDropOnlyAllNull(count: nat)
    requires 1 <= count <= 2
    ensures PatternsForCount(count) + [seq(count, _ => false)] == GeneralPatterns(count)
  {
    var g := GeneralPatterns(count);
    if count == 2 {
      assert AllNonNull(2) == [true, true];
      assert OneNull(2, 0) == [false, true] && OneNull(2, 1) == [true, false];
      assert OneNullPatterns(2) == [[false, true], [true, false]];
      assert TwoNullRow(2, 0) == [TwoNull(2, 0, 1)];
      assert TwoNull(2, 0, 1) == [false, false];
      assert TwoNullPatterns(2) == [[false, false]];
      assert seq(2, _ => false) == [false, false];
    } else {
      assert AllNonNull(1) == [true];
      assert OneNull(1, 0) == [false];
      assert OneNullPatterns(1) == [[false]];
      assert seq(1, _ => false) == [false];
    }
  }

  // ---------------------------------------------------------------------------
  // The flattened list and the sparse-case filter
  // ---------------------------------------------------------------------------

  /** The patterns of `s` that have exactly `count` slots, in order. */
  function WithLength(s: seq<Pattern>, count: nat): seq<Pattern> {
    if s == [] then []
    else (if |s[0]| == count then [s[0]] else []) + WithLength(s[1..], count)
  }

  /** Selection keeps exactly the patterns of `s` with `count` slots. */
  lemma {:induction false} WithLengthMembers(s: seq<Pattern>, count: nat)
    ensures forall p :: p in WithLength(s, count) <==> p in s && |p| == count
  {
    if s != [] {
      WithLengthMembers(s[1..], count);
      assert s == [s[0]] + s[1..];
    }
  }

  lemma {:induction false} WithLengthConcat(a: seq<Pattern>, b: seq<Pattern>, count: nat)
    ensures WithLength(a + b, count) == WithLength(a, count) + WithLength(b, count)
  {
    if a != [] {
      assert (a + b)[1..] == a[1..] + b;
      WithLengthConcat(a[1..], b, count);
    } else {
      assert a + b == b;
    }
  }

  lemma {:induction false} WithLengthUniform(s: seq<Pattern>, len: nat, count: nat)
    requires forall p :: p in s ==> |p| == len
    ensures WithLength(s, count) == if len == count then s else []
  {
    if s != [] {
      assert forall p :: p in s[1..] ==> p in s;
      WithLengthUniform(s[1..], len, count);
      assert s == [s[0]] + s[1..];
    }
  }

  /**
   * One step of the selection: appending a list whose patterns all have `len` slots to a
   * list whose selection for `count` is `expected` (when count < len) or empty (otherwise).
   */
  lemma SelectAppend(prev: seq<Pattern>, last: seq<Pattern>, len: nat, count: nat, expected: seq<Pattern>)
    requires forall p :: p in last ==> |p| == len
    requires WithLength(prev, count) == if count < len then expected else []
    requires count == len ==> last == expected
    ensures WithLength(prev + last, count) == if count <= len then expected else []
  {
    WithLengthConcat(prev, last, count);
    WithLengthUniform(last, len, count);
    if count < len {
      assert WithLength(prev, count) + [] == expected;
    } else if count == len {
      assert [] + last == expected;
    }
  }

  /**
   * Selecting the patterns of length `count` from a flattened table whose entry c holds
   * patterns of c slots gives back entry `count`, or nothing past the end of the table.
   */
  lemma {:induction false} FlattenSelect(table: nat --> seq<Pattern>, n: nat, count: nat)
    requires forall c :: 1 <= c <= n ==> table.requires(c)
    requires forall c, p :: 1 <= c <= n && p in table(c) ==> |p| == c
    requires 1 <= count
    ensures count <= n ==> WithLength(Flatten(table, n), count) == table(count)
    ensures count > n ==> WithLength(Flatten(table, n), count) == []
  {
    if n > 0 {
      FlattenSelect(table, n - 1, count);
      SelectAppend(Flatten(table, n - 1), table(n), n, count, if count <= n then table(count) else []);
    }
  }

  /**
   * The flattened list is the per-count lists in count order: selecting the patterns of
   * length `count` from it gives back exactly the list generated for that count.
   */
  lemma AllPatternsSelect(maxCount: nat, count: nat)
    requires 1 <= count
    ensures count <= maxCount ==> WithLength(AllPatterns(maxCount), count) == PatternsForCount(count)
    ensures count > maxCount ==> WithLength(AllPatterns(maxCount), count) == []
  {
    forall c | 1 <= c <= maxCount ensures forall p :: p in PatternsForCount(c) ==> |p| == c {
      PatternsForCountLengths(c);
    }
    FlattenSelect(PatternsForCount, maxCount, count);
  }

  /** Every pattern in the flattened list has between 1 and maxCount slots. */
  lemma {:induction false} AllPatternsLengths(maxCount: nat)
    ensures forall p :: p in AllPatterns(maxCount) ==> 1 <= |p| <= maxCount
  {
    if maxCount > 0 {
      AllPatternsLengths(maxCount - 1);
      PatternsForCountShape(maxCount);
    }
  }

  /** The sparse tests keep a (pass, bundle) or (encoder, pipeline) pair of attachmentCount slots each. */
  predicate SparseCaseFilter(attachmentCount: nat, a: Pattern, b: Pattern) {
    attachmentCount == |a| && attachmentCount == |b|
  }

  /**
   * The filter keeps exactly the pairs drawn from the list generated for attachmentCount.
   */
  lemma SparseCaseFilterSelectsCount(maxCount: nat, attachmentCount: nat, a: Pattern, b: Pattern)
    requires attachmentCount in ColorAttachmentCounts(maxCount)
    requires a in AllPatterns(maxCount) && b in AllPatterns(maxCount)
    ensures SparseCaseFilter(attachmentCount, a, b) <==>
      a in PatternsForCount(attachmentCount) && b in PatternsForCount(attachmentCount)
  {
    var counts := ColorAttachmentCounts(maxCount);
    var k :| 0 <= k < |counts| && counts[k] == attachmentCount;
    AllPatternsSelect(maxCount, attachmentCount);
    WithLengthMembers(AllPatterns(maxCount), attachmentCount);
  }

  /** Slot i of a against `b[i]`, which is `undefined` (equal to no boolean) past the end of b. */
  predicate SlotMatches(a: Pattern, b: Pattern, i: nat)
    requires i < |a|
  {
    i < |b| && a[i] == b[i]
  }

  /** `a.every((v, i) => v === b[i])`: a is a prefix of b. */
  function EverySlotMatches(a: Pattern, b: Pattern): (matches: bool)
    ensures matches <==> |a| <= |b| && a == b[..|a|]
  {
    if |a| <= |b| then
      assert (forall i :: 0 <= i < |a| ==> SlotMatches(a, b, i)) <==> a == b[..|a|] by {
        if forall i :: 0 <= i < |a| ==> SlotMatches(a, b, i) {
          forall i | 0 <= i < |a| ensures a[i] == b[..|a|][i] {
            assert SlotMatches(a, b, i);
          }
        }
      }
      forall i :: 0 <= i < |a| ==> SlotMatches(a, b, i)
    else
      assert !SlotMatches(a, b, |b|);
      forall i :: 0 <= i < |a| ==> SlotMatches(a, b, i)
  }

  /** For a pair the filter keeps, the expected outcome is plain equality of the two patterns. */
  lemma SparseExpectationIsEquality(attachmentCount: nat, a: Pattern, b: Pattern)
    requires SparseCaseFilter(attachmentCount, a, b)
    ensures EverySlotMatches(a, b) <==> a == b
  {
  }

  // ---------------------------------------------------------------------------
  // Depth/stencil read-only state against the pipeline's writes
  // ---------------------------------------------------------------------------

  /**
   * One case of the read-only test: the depth-stencil format (None for no attachment;
   * Some carries the format's table entry), the pass or bundle read-only flags, and the
   * pipeline's depth/stencil state.
   */
  datatype ReadOnlyCase = ReadOnlyCase(
    format: Option<FormatInfo>,
    depthReadOnly: bool,
    stencilReadOnly: bool,
    stencilFront: StencilFaceState,
    stencilBack: StencilFaceState,
    depthWriteEnabled: bool,
    stencilWriteMask: nat,
    cullMode: CullMode)

  /** The two stencil face states the test combines: all 'keep' and all 'zero'. */
  predicate IsTestedFaceState(face: StencilFaceState) {
    face == StencilFaceState(Keep, Keep, Keep) || face == StencilFaceState(Zero, Zero, Zero)
  }

  /** The test's parameter filter: drops combinations for which the pipeline or pass itself is invalid. */
  predicate ReadOnlyCaseFilter(p: ReadOnlyCase) {
    match p.format
    case None => true
    case Some(info) =>
      && !(info.depth && info.stencil && p.depthReadOnly != p.stencilReadOnly)
      && !(!info.depth && p.depthWriteEnabled)
      && !(!info.stencil && (p.stencilFront.failOp != Keep || p.stencilBack.failOp != Keep))
  }

  /** The pipeline writes depth when it has a depth-stencil format and depth writes are enabled. */
  predicate WritesDepth(p: ReadOnlyCase) {
    p.format.Some? && p.depthWriteEnabled
  }

  /**
   * The pipeline writes stencil when it has a depth-stencil format, a non-zero write mask,
   * and a face that is not culled and whose operations are not all 'keep'.
   */
  predicate WritesStencil(p: ReadOnlyCase) {
    && p.format.Some?
    && p.stencilWriteMask != 0
    && ((p.cullMode != CullFront && FaceMayWrite(p.stencilFront)) ||
        (p.cullMode != CullBack && FaceMayWrite(p.stencilBack)))
  }

  /** A pipeline may be used in a pass or bundle unless it writes an aspect that is read-only there. */
  predicate ReadOnlyCompatible(p: ReadOnlyCase) {
    !(WritesDepth(p) && p.depthReadOnly) && !(WritesStencil(p) && p.stencilReadOnly)
  }

  /** The test's expected outcome, computed flag by flag as the source does. */
  method ExpectedReadOnlyValidity(p: ReadOnlyCase) returns (writesDepth: bool, writesStencil: bool, isValid: bool)
    ensures writesDepth <==> WritesDepth(p)
    ensures writesStencil <==> WritesStencil(p)
    ensures isValid <==> ReadOnlyCompatible(p)
    ensures isValid <==> !(writesDepth && p.depthReadOnly) && !(writesStencil && p.stencilReadOnly)
  {
    writesDepth := false;
    writesStencil := false;
    if p.format.Some? {
      writesDepth := p.depthWriteEnabled;
      if p.stencilWriteMask != 0 {
        if p.cullMode != CullFront && FaceMayWrite(p.stencilFront) {
          writesStencil := true;
        }
        if p.cullMode != CullBack && FaceMayWrite(p.stencilBack) {
          writesStencil := true;
        }
      }
    }

    isValid := true;
    if writesDepth {
      isValid := isValid && !p.depthReadOnly;
    }
    if writesStencil {
      isValid := isValid && !p.stencilReadOnly;
    }
  }

  /** Without a depth-stencil format every combination is kept and every combination is valid. */
  lemma NoFormatAlwaysCompatible(p: ReadOnlyCase)
    requires p.format.None?
    ensures ReadOnlyCaseFilter(p) && ReadOnlyCompatible(p)
  {
  }

  /**
   * On the combinations the filter keeps (with the tested face states), a format never
   * writes an aspect it lacks, so only the aspects it has decide the outcome.
   */
  lemma FilteredCaseWritesOnlyPresentAspects(p: ReadOnlyCase)
    requires ReadOnlyCaseFilter(p) && p.format.Some?
    requires IsTestedFaceState(p.stencilFront) && IsTestedFaceState(p.stencilBack)
    ensures !p.format.value.depth ==> !WritesDepth(p)
    ensures !p.format.value.stencil ==> !WritesStencil(p)
    ensures p.format.value.depth && p.format.value.stencil ==> p.depthReadOnly == p.stencilReadOnly
  {
  }

  /** A pass or bundle that is not read-only accepts every pipeline. */
  lemma WritableAttachmentAlwaysCompatible(p: ReadOnlyCase)
    requires !p.depthReadOnly && !p.stencilReadOnly
    ensures ReadOnlyCompatible(p)
  {
  }

  /** With a zero stencil write mask, stencil read-only state never matters. */
  lemma ZeroMaskIgnoresStencilReadOnly(p: ReadOnlyCase)
    requires p.stencilWriteMask == 0
    ensures ReadOnlyCompatible(p) <==> !(WritesDepth(p) && p.depthReadOnly)
  {
  }

  // ---------------------------------------------------------------------------
  // createDepthAttachment
  // ---------------------------------------------------------------------------

  /**
   * The depth-stencil attachment for a view of a format with the aspects in `info`:
   * depth clear value 0, 'clear' and 'discard' iff the format has depth; stencil clear
   * value 1, 'clear' and 'discard' iff it has stencil. Read-only flags stay unset, so the
   * attachment satisfies the depth-stencil attachment rule for every depth-stencil format.
   */
  method CreateDepthAttachment(view: TextureView, info: FormatInfo) returns (attachment: DepthStencilAttachment)
    ensures attachment.view == view && !attachment.depthReadOnly && !attachment.stencilReadOnly
    ensures info.depth ==>
      attachment.depthClearValue == Some(0.0) && attachment.depthLoadOp == Some(Clear) &&
      attachment.depthStoreOp == Some(Discard)
    ensures !info.depth ==>
      attachment.depthClearValue.None? && attachment.depthLoadOp.None? && attachment.depthStoreOp.None?
    ensures info.stencil ==>
      attachment.stencilClearValue == Some(1) && attachment.stencilLoadOp == Some(Clear) &&
      attachment.stencilStoreOp == Some(Discard)
    ensures !info.stencil ==>
      attachment.stencilClearValue.None? && attachment.stencilLoadOp.None? && attachment.stencilStoreOp.None?
    ensures DepthStencilAttachmentValid(info, attachment)
  {
    attachment := BareDepthStencilAttachment(view);
    if info.depth {
      attachment := attachment.(depthClearValue := Some(0.0));
      attachment := attachment.(depthLoadOp := Some(Clear));
      attachment := attachment.(depthStoreOp := Some(Discard));
    }
    if info.stencil {
      attachment := attachment.(stencilClearValue := Some(1));
      attachment := attachment.(stencilLoadOp := Some(Clear));
      attachment := attachment.(stencilStoreOp := Some(Discard));
    }
  }
}
