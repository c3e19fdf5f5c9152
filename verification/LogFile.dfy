/** The rotating log file of src/logging.rs: PATH, PATH.1, ..., PATH.keep. */
module LogFile {
  import opened Common

  type Bytes = seq<bv8>

  /** Files by generation number; 0 is PATH itself. */
  type Files = map<nat, Bytes>

  function At(files: Files, k: nat): Option<Bytes> {
    if k in files then Some(files[k]) else None
  }

  function Content(files: Files, k: nat): Bytes {
    if k in files then files[k] else []
  }

  /** PATH.k ++ ... ++ PATH.1 ++ PATH, missing files being empty. */
  function Retained(files: Files, k: nat): Bytes {
    Content(files, k) + (if k == 0 then [] else Retained(files, k - 1))
  }

  function Flatten(parts: seq<Bytes>): Bytes {
    if parts == [] then [] else Flatten(parts[..|parts| - 1]) + parts[|parts| - 1]
  }

  lemma Associative(a: Bytes, b: Bytes, c: Bytes)
    ensures a + (b + c) == (a + b) + c
  {
  }

  lemma AssociativeLines(a: seq<Bytes>, b: seq<Bytes>, c: seq<Bytes>)
    ensures a + (b + c) == (a + b) + c
  {
  }

  lemma TakeOneMore(lines: seq<Bytes>, n: nat)
    requires n < |lines|
    ensures lines[..n] + [lines[n]] == lines[..n + 1]
  {
  }

  lemma FlattenPush(parts: seq<Bytes>, part: Bytes)
    ensures Flatten(parts + [part]) == Flatten(parts) + part
  {
    assert (parts + [part])[..|parts|] == parts;
  }

  lemma {:induction false} RetainedDependsOnLow(a: Files, b: Files, k: nat)
    requires forall i: nat :: i <= k ==> Content(a, i) == Content(b, i)
    ensures Retained(a, k) == Retained(b, k)
  {
    if k > 0 {
      RetainedDependsOnLow(a, b, k - 1);
    }
  }

  function Renamed(files: Files, from: nat): Files
    requires from in files
  {
    (files - {from})[from + 1 := files[from]]
  }

  lemma RenamedAt(files: Files, from: nat, k: nat)
    requires from in files
    ensures At(Renamed(files, from), k)
         == if k == from then None else if k == from + 1 then At(files, from) else At(files, k)
    ensures Content(Renamed(files, from), k)
         == if k == from then [] else if k == from + 1 then files[from] else Content(files, k)
  {
  }

  /** Shifting a file into a free slot moves no byte past another. */
  lemma {:induction false} RenameKeepsText(files: Files, from: nat, k: nat)
    requires from in files && from + 1 !in files && from + 1 <= k
    ensures Retained(Renamed(files, from), k) == Retained(files, k)
  {
    var after := Renamed(files, from);
    RenamedAt(files, from, k);
    if k == from + 1 {
      RenamedAt(files, from, from);
      if from > 0 {
        RetainedDependsOnLow(after, files, from - 1);
        assert Retained(after, from) == [] + Retained(files, from - 1) == Retained(files, from - 1);
      } else {
        assert Retained(after, from) == [];
      }
      assert Retained(files, k) == [] + Retained(files, from) == Retained(files, from);
    } else {
      RenameKeepsText(files, from, k - 1);
    }
  }

  /** Dropping the oldest file cuts the text exactly at that file's end. */
  lemma RemoveOldestCutsPrefix(files: Files, keep: nat)
    requires keep > 0 && keep in files
    ensures Retained(files, keep) == files[keep] + Retained(files - {keep}, keep)
  {
    RetainedDependsOnLow(files - {keep}, files, keep - 1);
  }

  lemma {:induction false} AppendExtendsText(files: Files, more: Bytes, k: nat)
    requires 0 in files
    ensures Retained(files[0 := files[0] + more], k) == Retained(files, k) + more
  {
    if k > 0 {
      AppendExtendsText(files, more, k - 1);
    }
  }

  /** No byte is lost or moved: the removed files, then the files on disk, are all the text there ever was. */
  ghost predicate Accounts(removed: seq<Bytes>, files: Files, keep: nat, initial: Bytes, appended: seq<Bytes>) {
    Flatten(removed) + Retained(files, keep) == initial + Flatten(appended)
  }

  /** Creating an empty PATH adds no text. */
  lemma AccountsAtStart(existing: Files, keep: nat)
    ensures Accounts([], if 0 in existing then existing else existing[0 := []], keep, Retained(existing, keep), [])
  {
    var text := Retained(existing, keep);
    RetainedDependsOnLow(if 0 in existing then existing else existing[0 := []], existing, keep);
    assert [] + text == text == text + [];
  }

  lemma AccountsAfterRemoval(removed: seq<Bytes>, files: Files, keep: nat, initial: Bytes, appended: seq<Bytes>)
    requires Accounts(removed, files, keep, initial, appended) && keep > 0 && keep in files
    ensures Accounts(removed + [files[keep]], files - {keep}, keep, initial, appended)
  {
    RemoveOldestCutsPrefix(files, keep);
    FlattenPush(removed, files[keep]);
    Associative(Flatten(removed), files[keep], Retained(files - {keep}, keep));
  }

  lemma AccountsAfterAppend(removed: seq<Bytes>, files: Files, keep: nat, initial: Bytes, appended: seq<Bytes>,
                            more: Bytes)
    requires Accounts(removed, files, keep, initial, appended) && (0 in files || more == [])
    ensures 0 in files ==> Accounts(removed, files[0 := files[0] + more], keep, initial, appended + [more])
    ensures more == [] ==> Accounts(removed, files, keep, initial, appended + [more])
  {
    FlattenPush(appended, more);
    Associative(initial, Flatten(appended), more);
    if 0 in files {
      AppendExtendsText(files, more, keep);
      Associative(Flatten(removed), Retained(files, keep), more);
    }
  }

  /** Where generation `k` came from once the ones above `index` moved one further and `index` is free. */
  ghost predicate ShiftedAt(before: Files, after: Files, keep: nat, index: nat, k: nat) {
    At(after, k) == if k == index then None else if index < k <= keep then At(before, k - 1) else At(before, k)
  }

  ghost predicate PartlyShifted(before: Files, after: Files, keep: nat, index: nat) {
    forall k: nat :: ShiftedAt(before, after, keep, index, k)
  }

  /** Every kept file one generation further, and PATH holding `content`. */
  ghost predicate Rotated(before: Files, after: Files, keep: nat, content: Bytes) {
    At(after, 0) == Some(content) && forall k: nat :: k > 0 ==> ShiftedAt(before, after, keep, 0, k)
  }

  /**
   * What a rotation that failed leaves: nothing happened, or the shift stopped at generation `i`, which is still
   * there.
   */
  ghost predicate StoppedAt(before: Files, after: Files, keep: nat, i: nat) {
    i < keep && i in after && PartlyShifted(before, after, keep, i + 1)
  }

  ghost predicate Halted(before: Files, after: Files, keep: nat) {
    after == before || exists i: nat :: StoppedAt(before, after, keep, i)
  }

  /** The rotated generations: the files PATH.lo to PATH.hi that exist. */
  function Count(files: Files, lo: nat, hi: nat): nat
    decreases hi
  {
    if hi < lo || hi == 0 then 0 else Count(files, lo, hi - 1) + (if hi in files then 1 else 0)
  }

  lemma {:induction false} CountBelow(before: Files, after: Files, keep: nat, index: nat, hi: nat)
    requires PartlyShifted(before, after, keep, index) && hi < index
    ensures Count(after, 1, hi) == Count(before, 1, hi)
  {
    if hi > 0 {
      assert ShiftedAt(before, after, keep, index, hi);
      CountBelow(before, after, keep, index, hi - 1);
    }
  }

  lemma {:induction false} CountShifted(before: Files, after: Files, keep: nat, index: nat, hi: nat)
    requires PartlyShifted(before, after, keep, index) && 1 <= index <= hi <= keep
    ensures Count(after, 1, hi) == Count(before, 1, hi - 1)
  {
    assert ShiftedAt(before, after, keep, index, hi);
    if hi == index {
      CountBelow(before, after, keep, index, hi - 1);
    } else {
      CountShifted(before, after, keep, index, hi - 1);
    }
  }

  lemma CountTop(files: Files, keep: nat)
    requires keep >= 1 && keep in files
    ensures Count(files, 1, keep) >= 1
  {
  }

  /** A rotation that stopped in the middle has one generation less exactly if there was an oldest one. */
  lemma StoppedCounts(before: Files, after: Files, keep: nat, i: nat)
    requires StoppedAt(before, after, keep, i)
    ensures Count(after, 1, keep) + (if keep in before then 1 else 0) == Count(before, 1, keep)
    ensures At(after, 0) == At(before, 0)
  {
    CountShifted(before, after, keep, i + 1, keep);
    assert ShiftedAt(before, after, keep, i + 1, 0);
  }

  /**
   * Rotations that fail again and again at generation `i` shift what is above it further up each time, so the `j`-th
   * retry removes what was PATH.(keep - j), if that was above `i`. Only one generation is lost if the others among the
   * top ones do not exist, and always when it is the first rename that fails.
   */
  lemma {:induction false} RetriesRemove(runs: seq<Files>, keep: nat, i: nat, j: nat, k: nat)
    requires j < |runs| && i < k <= keep
    requires forall n :: 0 <= n < |runs| - 1 ==> StoppedAt(runs[n], runs[n + 1], keep, i)
    ensures At(runs[j], k) == if k <= i + j then None else At(runs[0], k - j)
    ensures keep in runs[j] <==> i + j < keep && keep - j in runs[0]
    decreases j, k
  {
    if j > 0 {
      assert StoppedAt(runs[j - 1], runs[j], keep, i);
      assert ShiftedAt(runs[j - 1], runs[j], keep, i + 1, k) && ShiftedAt(runs[j - 1], runs[j], keep, i + 1, keep);
      if k > i + 1 {
        RetriesRemove(runs, keep, i, j - 1, k - 1);
      }
      if keep > i + 1 {
        RetriesRemove(runs, keep, i, j - 1, keep - 1);
      }
    }
  }

  predicate Stands(keep: nat, j: nat, k: nat) {
    k == 0 || j < k <= keep
  }

  /** PATH and the generations above `j`, all of them empty. */
  function Above(keep: nat, j: nat): Files {
    map k: nat | 0 <= k <= keep && Stands(keep, j, k) :: []
  }

  /** If moving PATH itself fails as often as there are generations, none of them is left. */
  lemma AllCanBeLost(keep: nat) returns (runs: seq<Files>)
    ensures |runs| == keep + 1 && forall n :: 0 <= n < keep ==> StoppedAt(runs[n], runs[n + 1], keep, 0)
    ensures forall k: nat :: k in runs[0] <==> k <= keep
    ensures forall k: nat :: k in runs[keep] <==> k == 0
  {
    runs := seq(keep + 1, j requires 0 <= j < keep + 1 => Above(keep, j));
    forall n | 0 <= n < keep ensures StoppedAt(runs[n], runs[n + 1], keep, 0) {
      var before, after := runs[n], runs[n + 1];
      forall k: nat ensures ShiftedAt(before, after, keep, 1, k) {
      }
    }
  }

  lemma OldestFree(before: Files, keep: nat)
    ensures PartlyShifted(before, before - {keep}, keep, keep)
  {
  }

  lemma ShiftOneMore(before: Files, mid: Files, keep: nat, index: nat)
    requires index < keep && PartlyShifted(before, mid, keep, index + 1)
    ensures index in mid ==> PartlyShifted(before, Renamed(mid, index), keep, index)
    ensures index !in mid ==> PartlyShifted(before, mid, keep, index)
  {
    var after := if index in mid then Renamed(mid, index) else mid;
    assert ShiftedAt(before, mid, keep, index + 1, index) && ShiftedAt(before, mid, keep, index + 1, index + 1);
    forall k: nat ensures ShiftedAt(before, after, keep, index, k) {
      assert ShiftedAt(before, mid, keep, index + 1, k);
      if index in mid {
        RenamedAt(mid, index, k);
      }
    }
  }

  lemma RotatedThenWritten(before: Files, free: Files, keep: nat, line: Bytes)
    requires PartlyShifted(before, free, keep, 0)
    ensures Rotated(before, free[0 := Content(free, 0) + line], keep, line)
  {
    assert ShiftedAt(before, free, keep, 0, 0);
    assert Content(free, 0) + line == line;
    var after := free[0 := Content(free, 0) + line];
    forall k: nat | k > 0 ensures ShiftedAt(before, after, keep, 0, k) {
      assert ShiftedAt(before, free, keep, 0, k);
    }
  }

  /** Text is given up only by removing the oldest file, whole, and at most once per write. */
  ghost predicate CutsOldest(removedBefore: seq<Bytes>, before: Files, removedAfter: seq<Bytes>, keep: nat) {
    removedAfter == removedBefore || (keep in before && removedAfter == removedBefore + [before[keep]])
  }

  /** Rust `u64::saturating_add`. */
  function SaturatingAdd(a: nat, b: nat): nat {
    if a + b >= U64_LIMIT then U64_LIMIT - 1 else a + b
  }

  /* ---------- Runs without errors: a greedy grouping of lines ---------- */

  /** One file of the log: what was found in it when the log was opened, then whole lines. */
  datatype Generation = Generation(base: Bytes, lines: seq<Bytes>)

  function TextOf(g: Generation): Bytes {
    g.base + Flatten(g.lines)
  }

  /** The simple rule: a line joins the last generation unless that is nonempty and would grow past `max`. */
  function Place(gens: seq<Generation>, line: Bytes, max: nat): (after: seq<Generation>)
    requires gens != []
    ensures after != []
  {
    var last := |gens| - 1;
    if |TextOf(gens[last])| > 0 && SaturatingAdd(|TextOf(gens[last])|, |line|) > max
    then gens + [Generation([], [line])]
    else gens[last := gens[last].(lines := gens[last].lines + [line])]
  }

  function Grouped(found: Bytes, lines: seq<Bytes>, max: nat): (gens: seq<Generation>)
    ensures gens != []
  {
    if lines == [] then [Generation(found, [])]
    else Place(Grouped(found, lines[..|lines| - 1], max), lines[|lines| - 1], max)
  }

  function LinesOf(gens: seq<Generation>): seq<Bytes> {
    if gens == [] then [] else LinesOf(gens[..|gens| - 1]) + gens[|gens| - 1].lines
  }

  lemma LinesOfPlace(gens: seq<Generation>, line: Bytes, max: nat)
    requires gens != []
    ensures LinesOf(Place(gens, line, max)) == LinesOf(gens) + [line]
  {
    var last, after := |gens| - 1, Place(gens, line, max);
    if |after| > |gens| {
      assert after[..|gens|] == gens;
    } else {
      assert after[..last] == gens[..last];
      AssociativeLines(LinesOf(gens[..last]), gens[last].lines, [line]);
    }
  }

  /** No line is split, lost or reordered. */
  lemma {:induction false} GroupedKeepsLines(found: Bytes, lines: seq<Bytes>, max: nat)
    ensures LinesOf(Grouped(found, lines, max)) == lines
  {
    if lines == [] {
      assert [Generation(found, [])][..0] == [];
    } else {
      var last := |lines| - 1;
      GroupedKeepsLines(found, lines[..last], max);
      LinesOfPlace(Grouped(found, lines[..last], max), lines[last], max);
      TakeOneMore(lines, last);
      assert lines[..last + 1] == lines;
    }
  }

  /** A generation within bounds: small enough, one line too long for any file, or only what was found. */
  predicate Sized(g: Generation, max: nat) {
    |TextOf(g)| <= max || g.lines == [] || TextOf(g) == g.lines[|g.lines| - 1]
  }

  lemma PlaceSized(g: Generation, line: Bytes, max: nat)
    requires max < U64_LIMIT - 1
    requires |TextOf(g)| == 0 || SaturatingAdd(|TextOf(g)|, |line|) <= max
    ensures Sized(g.(lines := g.lines + [line]), max)
  {
    FlattenPush(g.lines, line);
    Associative(g.base, Flatten(g.lines), line);
    if |TextOf(g)| == 0 {
      assert TextOf(g.(lines := g.lines + [line])) == [] + line == line;
    }
  }

  lemma SingleSized(line: Bytes, max: nat)
    ensures Sized(Generation([], [line]), max)
  {
    FlattenPush([], line);
    assert [] + [line] == [line] && [] + ([] + line) == line;
  }

  /** Within bounds, and only the first generation starts from what was found. */
  predicate GoodAt(gens: seq<Generation>, i: nat, found: Bytes, max: nat)
    requires i < |gens|
  {
    Sized(gens[i], max) && if i == 0 then gens[i].base == found else gens[i].base == [] && gens[i].lines != []
  }

  predicate AllGood(gens: seq<Generation>, found: Bytes, max: nat) {
    gens != [] && forall i :: 0 <= i < |gens| ==> GoodAt(gens, i, found, max)
  }

  lemma PlaceKeepsSizes(gens: seq<Generation>, line: Bytes, found: Bytes, max: nat)
    requires AllGood(gens, found, max) && max < U64_LIMIT - 1
    ensures AllGood(Place(gens, line, max), found, max)
  {
    var last, after := |gens| - 1, Place(gens, line, max);
    SingleSized(line, max);
    assert GoodAt(gens, last, found, max);
    if |TextOf(gens[last])| == 0 || SaturatingAdd(|TextOf(gens[last])|, |line|) <= max {
      PlaceSized(gens[last], line, max);
    }
    forall i | 0 <= i < |after| ensures GoodAt(after, i, found, max) {
      if i < last {
        assert GoodAt(gens, i, found, max) && after[i] == gens[i];
      }
    }
  }

  /** Only the first generation starts from what was found; every one is within bounds. */
  lemma {:induction false} GroupedSizes(found: Bytes, lines: seq<Bytes>, max: nat)
    requires max < U64_LIMIT - 1
    ensures AllGood(Grouped(found, lines, max), found, max)
  {
    if lines == [] {
      assert GoodAt(Grouped(found, lines, max), 0, found, max);
    } else {
      GroupedSizes(found, lines[..|lines| - 1], max);
      PlaceKeepsSizes(Grouped(found, lines[..|lines| - 1], max), lines[|lines| - 1], found, max);
    }
  }

  /** Generation `i` had text, and the first line of the next one would have taken it past `max`. */
  predicate FullAt(gens: seq<Generation>, i: nat, max: nat)
    requires i + 1 < |gens|
  {
    && TextOf(gens[i]) != [] && gens[i + 1].base == [] && gens[i + 1].lines != []
    && Min(|TextOf(gens[i])| + |gens[i + 1].lines[0]|, 0xFFFF_FFFF_FFFF_FFFF) > max
  }

  /** A new generation is begun only by a line that did not fit the one before. */
  lemma {:induction false} GroupedIsGreedy(found: Bytes, lines: seq<Bytes>, max: nat)
    ensures forall i :: 0 <= i < |Grouped(found, lines, max)| - 1 ==> FullAt(Grouped(found, lines, max), i, max)
  {
    if lines != [] {
      var gens, line := Grouped(found, lines[..|lines| - 1], max), lines[|lines| - 1];
      GroupedIsGreedy(found, lines[..|lines| - 1], max);
      var last, after := |gens| - 1, Place(gens, line, max);
      forall i | 0 <= i < |after| - 1 ensures FullAt(after, i, max) {
        if i < last {
          assert FullAt(gens, i, max);
          assert after[i] == gens[i] && after[i + 1].base == gens[i + 1].base;
          assert after[i + 1].lines[0] == gens[i + 1].lines[0];
        }
      }
    }
  }

  /** What the disk shows after those generations: the newest `keep + 1`, and behind them what was there before. */
  ghost predicate ShownAt(files: Files, existing: Files, keep: nat, gens: seq<Generation>, k: nat)
    requires gens != []
  {
    At(files, k) ==
      if k > keep then At(existing, k)
      else if k < |gens| then Some(TextOf(gens[|gens| - 1 - k]))
      else At(existing, k - (|gens| - 1))
  }

  ghost predicate Shows(files: Files, existing: Files, keep: nat, gens: seq<Generation>)
    requires gens != []
  {
    forall k: nat :: ShownAt(files, existing, keep, gens, k)
  }

  lemma ShowsAtStart(files: Files, keep: nat, max: nat)
    requires 0 in files
    ensures Shows(files, files, keep, Grouped(files[0], [], max))
  {
    assert TextOf(Generation(files[0], [])) == files[0] + [] == files[0];
    forall k: nat ensures ShownAt(files, files, keep, Grouped(files[0], [], max), k) {
    }
  }

  lemma TextOfGrown(g: Generation, line: Bytes)
    ensures TextOf(g.(lines := g.lines + [line])) == TextOf(g) + line
  {
    FlattenPush(g.lines, line);
    Associative(g.base, Flatten(g.lines), line);
  }

  lemma ShowsGrown(files: Files, existing: Files, keep: nat, gens: seq<Generation>, more: Generation)
    requires gens != [] && Shows(files, existing, keep, gens)
    ensures Shows(files[0 := TextOf(more)], existing, keep, gens[|gens| - 1 := more])
  {
    var grown, after := gens[|gens| - 1 := more], files[0 := TextOf(more)];
    forall k: nat ensures ShownAt(after, existing, keep, grown, k) {
      assert ShownAt(files, existing, keep, gens, k);
      if 0 < k < |gens| {
        assert grown[|gens| - 1 - k] == gens[|gens| - 1 - k];
      }
    }
  }

  lemma ShowsRotated(files: Files, after: Files, existing: Files, keep: nat, gens: seq<Generation>, line: Bytes)
    requires gens != [] && Shows(files, existing, keep, gens) && keep >= 1
    requires Rotated(files, after, keep, line)
    ensures Shows(after, existing, keep, gens + [Generation([], [line])])
  {
    var grown := gens + [Generation([], [line])];
    FlattenPush([], line);
    assert [] + [line] == [line] && [] + ([] + line) == line;
    forall k: nat ensures ShownAt(after, existing, keep, grown, k) {
      if 1 <= k <= keep {
        assert ShiftedAt(files, after, keep, 0, k);
        assert ShownAt(files, existing, keep, gens, k - 1);
      } else if k > keep {
        assert ShiftedAt(files, after, keep, 0, k);
        assert ShownAt(files, existing, keep, gens, k);
      }
    }
  }

  lemma {:induction false} RetainedBound(files: Files, k: nat, max: nat)
    requires forall i: nat :: i <= k ==> |Content(files, i)| <= max
    ensures |Retained(files, k)| <= (k + 1) * max
  {
    if k > 0 {
      RetainedBound(files, k - 1, max);
    }
  }

  /** When no line and no older file is larger than `max`, neither is any kept file, and the log is bounded. */
  lemma ShownSizeBound(files: Files, existing: Files, keep: nat, found: Bytes, lines: seq<Bytes>, max: nat)
    requires max < U64_LIMIT - 1 && |found| <= max
    requires forall i :: 0 <= i < |lines| ==> |lines[i]| <= max
    requires forall i: nat :: i <= keep ==> |Content(existing, i)| <= max
    requires Shows(files, existing, keep, Grouped(found, lines, max))
    ensures forall k: nat :: k <= keep ==> |Content(files, k)| <= max
    ensures |Retained(files, keep)| <= (keep + 1) * max
  {
    forall k: nat | k <= keep ensures |Content(files, k)| <= max {
      ShownFits(files, existing, keep, found, lines, max, k);
    }
    RetainedBound(files, keep, max);
  }

  lemma ShownFits(files: Files, existing: Files, keep: nat, found: Bytes, lines: seq<Bytes>, max: nat, k: nat)
    requires max < U64_LIMIT - 1 && |found| <= max && k <= keep
    requires forall i :: 0 <= i < |lines| ==> |lines[i]| <= max
    requires forall i: nat :: i <= keep ==> |Content(existing, i)| <= max
    requires ShownAt(files, existing, keep, Grouped(found, lines, max), k)
    ensures |Content(files, k)| <= max
  {
    var gens := Grouped(found, lines, max);
    if k < |gens| {
      var g := gens[|gens| - 1 - k];
      GroupedSizes(found, lines, max);
      GroupedLinesFit(found, lines, max);
      assert GoodAt(gens, |gens| - 1 - k, found, max) && LinesFit(g, max);
      if g.lines == [] {
        assert TextOf(g) == g.base + [] == g.base;
      }
    } else {
      assert |Content(existing, k - (|gens| - 1))| <= max;
    }
  }

  predicate LinesFit(g: Generation, max: nat) {
    forall j :: 0 <= j < |g.lines| ==> |g.lines[j]| <= max
  }

  predicate AllFit(gens: seq<Generation>, max: nat) {
    forall i :: 0 <= i < |gens| ==> LinesFit(gens[i], max)
  }

  lemma PlaceFits(gens: seq<Generation>, line: Bytes, max: nat)
    requires gens != [] && AllFit(gens, max) && |line| <= max
    ensures AllFit(Place(gens, line, max), max)
  {
    var last, after := |gens| - 1, Place(gens, line, max);
    assert LinesFit(gens[last], max);
    forall i | 0 <= i < |after| ensures LinesFit(after[i], max) {
      if i < last {
        assert after[i] == gens[i];
      }
    }
  }

  lemma {:induction false} GroupedLinesFit(found: Bytes, lines: seq<Bytes>, max: nat)
    requires forall i :: 0 <= i < |lines| ==> |lines[i]| <= max
    ensures AllFit(Grouped(found, lines, max), max)
  {
    if lines != [] {
      GroupedLinesFit(found, lines[..|lines| - 1], max);
      PlaceFits(Grouped(found, lines[..|lines| - 1], max), lines[|lines| - 1], max);
    }
  }

  /** One successful write is one step of the grouping. */
  lemma ShowsNext(before: Files, after: Files, existing: Files, keep: nat, max: nat, found: Bytes, lines: seq<Bytes>,
                  line: Bytes)
    requires keep >= 1 && 0 in before && Shows(before, existing, keep, Grouped(found, lines, max))
    requires if |before[0]| > 0 && SaturatingAdd(|before[0]|, |line|) > max
             then Rotated(before, after, keep, line) else after == before[0 := before[0] + line]
    ensures Shows(after, existing, keep, Grouped(found, lines + [line], max))
  {
    var gens := Grouped(found, lines, max);
    assert (lines + [line])[..|lines|] == lines;
    assert ShownAt(before, existing, keep, gens, 0);
    assert before[0] == TextOf(gens[|gens| - 1]);
    if |before[0]| > 0 && SaturatingAdd(|before[0]|, |line|) > max {
      ShowsRotated(before, after, existing, keep, gens, line);
    } else {
      var last := gens[|gens| - 1];
      TextOfGrown(last, line);
      ShowsGrown(before, existing, keep, gens, last.(lines := last.lines + [line]));
    }
  }

  class RotatingFile {
    var files: Files
    /** `self.file.is_some()`. */
    var open: bool
    var bytes: nat
    const max: nat
    const keep: nat
    /** No call into the file system fails. */
    const reliable: bool

    /** The text found when the log was opened. */
    ghost const initial: Bytes
    /** What each write appended: the whole line, or on failure some prefix of it. */
    ghost var appended: seq<Bytes>
    /** Files removed so far, oldest first. */
    ghost var removed: seq<Bytes>

    ghost predicate Valid()
      reads this
    {
      && keep >= 1
      && (open ==> 0 in files)
      && Accounts(removed, files, keep, initial, appended)
    }

    constructor (existing: Files, max: nat, keep: nat, reliable: bool)
      requires keep >= 1
      ensures Valid() && open && appended == [] && removed == []
      ensures this.max == max && this.keep == keep && this.reliable == reliable
      ensures files == (if 0 in existing then existing else existing[0 := []])
      ensures bytes == |files[0]| && initial == Retained(existing, keep)
    {
      var found := if 0 in existing then existing else existing[0 := []];
      this.files := found;
      this.open := true;
      this.bytes := |found[0]|;
      this.reliable := reliable;
      this.max := max;
      this.keep := keep;
      this.initial := Retained(existing, keep);
      this.appended := [];
      this.removed := [];
      AccountsAtStart(existing, keep);
    }

    /** Whether a call into the file system succeeds. */
    method Succeeds() returns (ok: bool)
      ensures reliable ==> ok
    {
      ok := *;
      ok := ok || reliable;
    }

    /** A rename never lands on an existing file: its target is required to be free. */
    method Rename(from: nat) returns (ok: bool)
      requires Valid() && !open
      requires from in files && from + 1 !in files && from + 1 <= keep
      modifies this`files
      ensures Valid()
      ensures files == if ok then Renamed(old(files), from) else old(files)
      ensures reliable ==> ok
    {
      ok := Succeeds();
      if ok {
        RenameKeepsText(files, from, keep);
        files := Renamed(files, from);
      }
    }

    method RemoveOldest() returns (ok: bool)
      requires Valid() && !open && keep in files
      modifies this`files, this`removed
      ensures Valid()
      ensures files == if ok then old(files) - {keep} else old(files)
      ensures removed == if ok then old(removed) + [old(files)[keep]] else old(removed)
      ensures reliable ==> ok
    {
      ok := Succeeds();
      if ok {
        AccountsAfterRemoval(removed, files, keep, initial, appended);
        removed := removed + [files[keep]];
        files := files - {keep};
      }
    }

    /** The oldest generation goes, if there is one. */
    method DropOldest() returns (ok: bool)
      requires Valid() && !open
      modifies this`files, this`removed
      ensures Valid()
      ensures if ok then files == old(files) - {keep} else files == old(files)
      ensures removed == if ok && keep in old(files) then old(removed) + [old(files)[keep]] else old(removed)
      ensures reliable ==> ok
    {
      ok := true;
      if keep in files {
        ok := RemoveOldest();
      } else {
        assert files - {keep} == files;
      }
    }

    /** The descending loop of renames, and PATH last; it stops at the first rename that fails. */
    method ShiftAll(ghost before: Files) returns (ok: bool)
      requires Valid() && !open && PartlyShifted(before, files, keep, keep)
      modifies this`files
      ensures Valid()
      ensures if ok then PartlyShifted(before, files, keep, 0) else exists i: nat :: StoppedAt(before, files, keep, i)
      ensures reliable ==> ok
    {
      ok := true;
      for index := keep downto 1
        invariant Valid() && ok && !open
        invariant PartlyShifted(before, files, keep, index)
      {
        ok := ShiftOne(before, index);
        if !ok {
          return;
        }
      }
      ok := ShiftOne(before, 0);
    }

    method ShiftOne(ghost before: Files, index: nat) returns (ok: bool)
      requires Valid() && !open && index < keep && PartlyShifted(before, files, keep, index + 1)
      modifies this`files
      ensures Valid()
      ensures if ok then PartlyShifted(before, files, keep, index) else StoppedAt(before, files, keep, index)
      ensures reliable ==> ok
    {
      ShiftOneMore(before, files, keep, index);
      assert ShiftedAt(before, files, keep, index + 1, index + 1);
      ok := true;
      if index in files {
        ok := Rename(index);
      }
    }

    /** The rotating part of `write`. */
    method Rotate() returns (ok: bool)
      requires Valid()
      modifies this`files, this`open, this`bytes, this`removed
      ensures Valid() && !open
      ensures CutsOldest(old(removed), old(files), removed, keep)
      ensures ok ==> bytes == 0 && PartlyShifted(old(files), files, keep, 0)
      ensures !ok ==> bytes == old(bytes) && Halted(old(files), files, keep) && At(files, 0) == At(old(files), 0)
      ensures !ok ==> Count(files, 1, keep) + |removed| == Count(old(files), 1, keep) + |old(removed)|
      ensures reliable ==> ok
    {
      ghost var before := files;
      ok := true;
      if open {
        open := false;
        ok := Succeeds();
      }
      if ok {
        ok := DropOldest();
        if ok {
          OldestFree(before, keep);
          ok := ShiftAll(before);
          if ok {
            bytes := 0;
          } else {
            ghost var i: nat :| StoppedAt(before, files, keep, i);
            StoppedCounts(before, files, keep, i);
          }
        }
      }
    }

    /**
     * Attempts at one rotation, given up after the last. However many of them fail, PATH is never lost, and they cost
     * at most the generations that were there.
     */
    method Retry(attempts: nat) returns (ok: bool)
      requires Valid()
      modifies this`files, this`open, this`bytes, this`removed
      ensures Valid()
      ensures |removed| - |old(removed)| <= Count(old(files), 1, keep)
      ensures !ok ==> At(files, 0) == At(old(files), 0)
      ensures !ok ==> Count(files, 1, keep) + |removed| <= Count(old(files), 1, keep) + |old(removed)|
      ensures ok ==> At(files, 1) == At(old(files), 0)
      ensures reliable && attempts > 0 ==> ok
    {
      ok := false;
      for n := 0 to attempts
        invariant Valid() && !ok && At(files, 0) == At(old(files), 0) && (reliable ==> n == 0)
        invariant Count(files, 1, keep) + |removed| <= Count(old(files), 1, keep) + |old(removed)|
      {
        ghost var before := files;
        ok := Rotate();
        if ok {
          assert ShiftedAt(before, files, keep, 0, 1);
          if keep in before {
            CountTop(before, keep);
          }
          return;
        }
      }
    }

    /** `private_file`: create PATH unless it is there, and keep it open for appending. */
    method OpenPath() returns (ok: bool)
      requires Valid()
      modifies this`files, this`open
      ensures Valid() && (ok ==> open) && (reliable ==> ok)
      ensures files == old(files) || (0 !in old(files) && files == old(files)[0 := []])
    {
      ok := open;
      if !open {
        ok := Succeeds();
        if ok {
          open := true;
          if 0 !in files {
            RetainedDependsOnLow(files, files[0 := []], keep);
            files := files[0 := []];
          }
        }
      }
    }

    /** How much of a line reaches the disk. */
    method PartOf(line: Bytes) returns (whole: bool, part: Bytes)
      ensures part <= line && (whole ==> part == line) && (reliable ==> whole)
    {
      part := line;
      whole := Succeeds();
      if !whole {
        var n :| 0 <= n <= |line|;
        part := line[..n];
      }
    }

    /** `write_all` and the byte count; a failed write may leave any part of the line behind. */
    method Append(line: Bytes) returns (ok: bool, ghost landed: Bytes)
      requires Valid() && open
      modifies this`files, this`bytes, this`appended
      ensures Valid()
      ensures landed <= line && (ok ==> landed == line) && (reliable ==> ok)
      ensures appended == old(appended) + [landed]
      ensures files == old(files)[0 := old(files)[0] + landed]
      ensures bytes == if ok then old(bytes) + |line| else old(bytes)
    {
      var part;
      ok, part := PartOf(line);
      landed := part;
      AccountsAfterAppend(removed, files, keep, initial, appended, part);
      files := files[0 := files[0] + part];
      appended := appended + [part];
      if ok {
        bytes := bytes + |line|;
      }
    }

    /** Would this line start a new generation? */
    predicate Rotates(line: Bytes)
      reads this
    {
      bytes > 0 && SaturatingAdd(bytes, |line|) > max
    }

    /** Rotate first if the line would not fit, then append it; a failure may keep some prefix of the line. */
    method Write(line: Bytes) returns (ok: bool, ghost landed: Bytes)
      requires Valid()
      modifies this
      ensures Valid()
      ensures landed <= line && (ok ==> landed == line) && (reliable ==> ok)
      ensures appended == old(appended) + [landed]
      ensures CutsOldest(old(removed), old(files), removed, keep)
      ensures ok && (old(bytes) == 0 || Min(old(bytes) + |line|, 0xFFFF_FFFF_FFFF_FFFF) <= max) ==>
        && open && bytes == old(bytes) + |line|
        && removed == old(removed) && files == old(files)[0 := Content(old(files), 0) + line]
      ensures ok && old(bytes) > 0 && Min(old(bytes) + |line|, 0xFFFF_FFFF_FFFF_FFFF) > max ==>
        open && bytes == |line| && Rotated(old(files), files, keep, line)
    {
      if Rotates(line) {
        ghost var before := files;
        ok := Rotate();
        if !ok {
          landed := LandNothing();
          return;
        }
        RotatedThenWritten(before, files, keep, line);
      }
      ok, landed := OpenAndAppend(line);
    }

    /** A write that fails before it reaches PATH leaves nothing there. */
    ghost method LandNothing() returns (landed: Bytes)
      requires Valid()
      modifies this`appended
      ensures Valid() && landed == [] && appended == old(appended) + [landed]
    {
      landed := [];
      AccountsAfterAppend(removed, files, keep, initial, appended, landed);
      appended := appended + [landed];
    }

    /** The part of `write` after the rotation. */
    method OpenAndAppend(line: Bytes) returns (ok: bool, ghost landed: Bytes)
      requires Valid()
      modifies this`files, this`open, this`bytes, this`appended
      ensures Valid()
      ensures landed <= line && (ok ==> landed == line) && (reliable ==> ok)
      ensures appended == old(appended) + [landed]
      ensures ok ==> open && bytes == old(bytes) + |line| && files == old(files)[0 := Content(old(files), 0) + line]
    {
      ok := OpenPath();
      if !ok {
        landed := LandNothing();
        return;
      }
      ok, landed := Append(line);
    }

    /** PATH is open, `bytes` is its size, and the disk is the greedy grouping of the lines so far. */
    ghost predicate Mirrors(existing: Files, found: Bytes, lines: seq<Bytes>)
      reads this
    {
      open && 0 in files && bytes == |files[0]| && Shows(files, existing, keep, Grouped(found, lines, max))
    }

    method WriteNext(ghost existing: Files, ghost found: Bytes, ghost lines: seq<Bytes>, line: Bytes) returns (ok: bool)
      requires Valid() && Mirrors(existing, found, lines)
      modifies this
      ensures Valid()
      ensures (ok ==> Mirrors(existing, found, lines + [line])) && (reliable ==> ok)
    {
      ghost var before := files;
      ghost var landed: Bytes;
      ok, landed := Write(line);
      if ok {
        ShowsNext(before, files, existing, keep, max, found, lines, line);
      }
    }

    /** As long as no write fails, the disk is the greedy grouping of all lines written. */
    method WriteAll(lines: seq<Bytes>) returns (ok: bool)
      requires Valid() && open && bytes == |files[0]|
      modifies this
      ensures Valid()
      ensures (ok ==> Mirrors(old(files), old(files)[0], lines)) && (reliable ==> ok)
    {
      ghost var existing, found := files, files[0];
      ShowsAtStart(files, keep, max);
      ok := true;
      for n := 0 to |lines|
        invariant Valid() && ok
        invariant Mirrors(existing, found, lines[..n])
      {
        assert lines[..n + 1] == lines[..n] + [lines[n]];
        ok := WriteNext(existing, found, lines[..n], lines[n]);
        if !ok {
          return;
        }
      }
      assert lines[..|lines|] == lines;
    }
  }
}
