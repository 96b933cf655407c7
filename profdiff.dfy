/**
 * The profdiff tool (profdiff.c): loads one block table per file named on
 * the command line into consecutive slots, prints every block of every
 * file, then compares each file with the next one, block by block.
 *
 * Opening a file is a lookup in `fs`, which maps each name that `fopen`
 * can open to the table `fread` gets from it. Printed lines are abstract
 * records carrying the values the format string prints.
 */
module ProfDiff {
  import opened CTypes
  import opened Prof

  /** `struct profiledata`: a file name and the table read from that file. */
  datatype ProfileData = ProfileData(name: string, blocks: Table)

  /** What an unused slot of `data[128]` holds in this model. */
  const EMPTY_SLOT: ProfileData := ProfileData("", [ZERO_BLOCK, ZERO_BLOCK, ZERO_BLOCK])

  /** The number of slots of `data` (profdiff.c:15). */
  const MAX_FILES: nat := 128

  /** The usage message written to standard error (profdiff.c:18). */
  const USAGE: string := "./profdiff START NEXT ...\n"

  /**
   * A C `float` rate: a finite value, or an infinity or NaN, which the
   * model does not tell apart.
   */
  datatype Rate = Finite(value: real) | NonFinite

  /** `1 / x` in floating point. */
  function Reciprocal(x: real): (r: Rate)
    ensures r.Finite? <==> x != 0.0
    ensures r.Finite? ==> r.value * x == 1.0
  {
    if x == 0.0 then NonFinite else Finite(1.0 / x)
  }

  /**
   * `1 / (clock / count)` in floating point (profdiff.c:68-72). A zero
   * count makes `clock / count` infinite, so the rate is zero, or NaN
   * when the clock is zero as well.
   */
  function AvgRate(clock: real, count: U32): (r: Rate)
    ensures count > 0 && clock != 0.0 ==> r == Finite(count as real / clock)
    ensures count > 0 && clock == 0.0 ==> r == NonFinite
    ensures count == 0 ==> r == if clock == 0.0 then NonFinite else Finite(0.0)
  {
    if count == 0 then (if clock == 0.0 then NonFinite else Finite(0.0))
    else Reciprocal(clock / count as real)
  }

  /** `b - a` in floating point; any infinity or NaN operand gives a non-finite result. */
  function RateDiff(a: Rate, b: Rate): (r: Rate)
    ensures r.Finite? <==> a.Finite? && b.Finite?
    ensures r.Finite? ==> a.value + r.value == b.value
  {
    if a.Finite? && b.Finite? then Finite(b.value - a.value) else NonFinite
  }

  /**
   * Comparing a block counted 100 times in 1 s with one counted 200 times
   * in 1 s gives rates 100 and 200 and a difference of 100.
   */
  lemma RateExample()
    ensures AvgRate(1.0, 100) == Finite(100.0)
    ensures AvgRate(1.0, 200) == Finite(200.0)
    ensures RateDiff(AvgRate(1.0, 100), AvgRate(1.0, 200)) == Finite(100.0)
  {
  }

  /** One line printed to standard output. */
  datatype Line =
    | FileHeader(file: nat, name: string)
    | BlockLine(file: nat, block: nat, blockName: string, countLastFrame: U32, countTotal: U32,
                lastRate: Rate, clockLastFrame: real)
    | DiffHeader(first: nat, second: nat, firstName: string, secondName: string)
    | DiffLine(first: nat, second: nat, block: nat, blockName: string, firstCount: U32, secondCount: U32,
               firstRate: Rate, secondRate: Rate, rateDiff: Rate)

  /** The report line of block `k` of file `i` (profdiff.c:44-51). */
  function BlockReport(i: nat, d: ProfileData, k: nat): Line
    requires k < PROFNAME_LAST
  {
    var pb := d.blocks[k];
    BlockLine(i, k, PROFSTR[k], pb.countLastFrame, pb.countTotal, Reciprocal(pb.clockLastFrame), pb.clockLastFrame)
  }

  /** The report lines of the first `k` blocks of file `i`, in block order. */
  function BlockLines(i: nat, d: ProfileData, k: nat): seq<Line>
    requires k <= PROFNAME_LAST
  {
    if k == 0 then [] else BlockLines(i, d, k - 1) + [BlockReport(i, d, k - 1)]
  }

  /** The report of file `i`: its name, then one line per block. */
  function FileReport(i: nat, d: ProfileData): seq<Line>
  {
    [FileHeader(i, d.name)] + BlockLines(i, d, PROFNAME_LAST)
  }

  /** The report of every loaded file, in slot order (profdiff.c:41-53). */
  function ReportLines(data: seq<ProfileData>): seq<Line>
  {
    if data == [] then []
    else ReportLines(data[..|data| - 1]) + FileReport(|data| - 1, data[|data| - 1])
  }

  /** The comparison of block `k` of file `i` with block `k` of file `i + 1` (profdiff.c:59-86). */
  function Compare(i: nat, a: ProfileData, b: ProfileData, k: nat): Line
    requires k < PROFNAME_LAST
  {
    var aRate := AvgRate(a.blocks[k].clockTotal, a.blocks[k].countTotal);
    var bRate := AvgRate(b.blocks[k].clockTotal, b.blocks[k].countTotal);
    DiffLine(i, i + 1, k, PROFSTR[k], a.blocks[k].countTotal, b.blocks[k].countTotal,
             aRate, bRate, RateDiff(aRate, bRate))
  }

  /** The comparison lines for the first `k` blocks, leaving out `PROFNAME_PIXEL`. */
  function PairRows(i: nat, a: ProfileData, b: ProfileData, k: nat): seq<Line>
    requires k <= PROFNAME_LAST
  {
    if k == 0 then []
    else PairRows(i, a, b, k - 1) + (if k - 1 == Ordinal(Pixel) then [] else [Compare(i, a, b, k - 1)])
  }

  /** The comparison of file `i` with file `i + 1`: a header, then the block lines. */
  function PairDiff(i: nat, a: ProfileData, b: ProfileData): seq<Line>
  {
    [DiffHeader(i, i + 1, a.name, b.name)] + PairRows(i, a, b, PROFNAME_LAST)
  }

  /** The comparisons of each file with the next one (profdiff.c:55-88). */
  function DiffLines(data: seq<ProfileData>): seq<Line>
  {
    if |data| <= 1 then []
    else DiffLines(data[..|data| - 1]) + PairDiff(|data| - 2, data[|data| - 2], data[|data| - 1])
  }

  /** Every file named after the program name can be opened. */
  predicate AllOpen(argv: seq<string>, fs: map<string, Table>)
  {
    forall i :: 1 <= i < |argv| ==> argv[i] in fs
  }

  /** The slot `argv[i]` is loaded into: slot `i - 1`. */
  function Slot(argv: seq<string>, fs: map<string, Table>, i: nat): ProfileData
    requires 1 <= i < |argv| && argv[i] in fs
  {
    ProfileData(argv[i], fs[argv[i]])
  }

  /** The slots filled from `argv[1..n]`, in argument order. */
  function Loaded(argv: seq<string>, fs: map<string, Table>, n: nat): (slots: seq<ProfileData>)
    requires n <= |argv|
    requires forall i :: 1 <= i < n ==> argv[i] in fs
    ensures |slots| == if n == 0 then 0 else n - 1
  {
    seq(if n == 0 then 0 else n - 1, i requires 0 <= i < n - 1 => Slot(argv, fs, i + 1))
  }

  /**
   * The report has one header per file, in slot order, each followed by
   * exactly `PROFNAME_LAST` block lines in block order, carrying the
   * block's name and the counts of that file.
   */
  lemma {:induction false} ReportAt(data: seq<ProfileData>, i: nat, k: nat)
    requires i < |data| && k < PROFNAME_LAST
    ensures |ReportLines(data)| == |data| * (1 + PROFNAME_LAST)
    ensures ReportLines(data)[i * (1 + PROFNAME_LAST)] == FileHeader(i, data[i].name)
    ensures ReportLines(data)[i * (1 + PROFNAME_LAST) + 1 + k] ==
      BlockLine(i, k, PROFSTR[k], data[i].blocks[k].countLastFrame, data[i].blocks[k].countTotal,
                Reciprocal(data[i].blocks[k].clockLastFrame), data[i].blocks[k].clockLastFrame)
  {
    var n := |data| - 1;
    var init := data[..n];
    BlockLinesAt(n, data[n], k);
    if i < n {
      ReportAt(init, i, k);
    } else {
      ReportLength(init);
    }
  }

  /** The report has `1 + PROFNAME_LAST` lines per file. */
  lemma {:induction false} ReportLength(data: seq<ProfileData>)
    ensures |ReportLines(data)| == |data| * (1 + PROFNAME_LAST)
  {
    if data != [] {
      BlockLinesAt(|data| - 1, data[|data| - 1], 0);
      ReportLength(data[..|data| - 1]);
    }
  }

  /** The block lines of a file are one per block, in block order. */
  lemma {:induction false} BlockLinesAt(i: nat, d: ProfileData, k: nat)
    requires k < PROFNAME_LAST
    ensures |BlockLines(i, d, PROFNAME_LAST)| == PROFNAME_LAST
    ensures BlockLines(i, d, PROFNAME_LAST)[k] == BlockReport(i, d, k)
  {
    assert BlockLines(i, d, 1) == [BlockReport(i, d, 0)];
    assert BlockLines(i, d, 2) == [BlockReport(i, d, 0), BlockReport(i, d, 1)];
  }

  /**
   * Within one comparison, every block except `PROFNAME_PIXEL` yields
   * exactly one line, in ascending block order, and each line compares
   * the `count_total` of that block in file `i` and in file `i + 1`.
   */
  lemma {:induction false} PairRowsShape(i: nat, a: ProfileData, b: ProfileData, k: nat)
    requires k <= PROFNAME_LAST
    ensures var rows := PairRows(i, a, b, k);
      && |rows| == (if k > Ordinal(Pixel) then k - 1 else k)
      && (forall r :: 0 <= r < |rows| ==>
            rows[r].DiffLine? && rows[r].first == i && rows[r].second == i + 1 &&
            rows[r].block < k && rows[r].block != Ordinal(Pixel) &&
            rows[r] == Compare(i, a, b, rows[r].block))
      && (forall r, r' :: 0 <= r < r' < |rows| ==> rows[r].block < rows[r'].block)
  {
    if k > 0 {
      PairRowsShape(i, a, b, k - 1);
      var prev := PairRows(i, a, b, k - 1);
      var rows := PairRows(i, a, b, k);
      assert forall r :: 0 <= r < |prev| ==> rows[r] == prev[r];
      if k - 1 != Ordinal(Pixel) {
        assert rows[|prev|].block == k - 1;
        forall r, r' | 0 <= r < r' < |rows|
          ensures rows[r].block < rows[r'].block
        {
          if r' == |prev| {
            assert rows[r].block == prev[r].block < k - 1;
          }
        }
      }
    }
  }

  /** A comparison holds exactly the lines for `loop` and `draw`. */
  lemma PairDiffLines(i: nat, a: ProfileData, b: ProfileData)
    ensures PairDiff(i, a, b) ==
      [DiffHeader(i, i + 1, a.name, b.name), Compare(i, a, b, Ordinal(Loop)), Compare(i, a, b, Ordinal(Draw))]
  {
    assert PairRows(i, a, b, 1) == [Compare(i, a, b, 0)];
    assert PairRows(i, a, b, 2) == [Compare(i, a, b, 0), Compare(i, a, b, 1)];
    assert PairRows(i, a, b, 3) == PairRows(i, a, b, 2);
  }

  /**
   * The diff compares exactly the pairs `(i, i + 1)` for
   * `0 <= i < |data| - 1`, one header and two block lines per pair, so
   * there are `|data| - 1` comparisons and none between files that are not
   * adjacent.
   */
  lemma {:induction false} DiffAt(data: seq<ProfileData>, i: nat)
    requires i + 1 < |data|
    ensures |DiffLines(data)| == (|data| - 1) * 3
    ensures DiffLines(data)[3 * i .. 3 * i + 3] == PairDiff(i, data[i], data[i + 1])
  {
    var n := |data| - 1;
    var init := data[..n];
    PairDiffLines(n - 1, data[n - 1], data[n]);
    if i + 1 < n {
      DiffAt(init, i);
      assert init[i] == data[i] && init[i + 1] == data[i + 1];
    } else {
      DiffLength(init);
    }
  }

  /** The diff has three lines per adjacent pair. */
  lemma {:induction false} DiffLength(data: seq<ProfileData>)
    ensures |DiffLines(data)| == if data == [] then 0 else (|data| - 1) * 3
  {
    if |data| > 1 {
      PairDiffLines(|data| - 2, data[|data| - 2], data[|data| - 1]);
      DiffLength(data[..|data| - 1]);
    }
  }

  /**
   * Every line of the diff is about some file `i` and its successor
   * `i + 1` in slot order; a block line is never about `PROFNAME_PIXEL`
   * and carries the two files' `count_total` of its block unchanged.
   */
  lemma {:induction false} DiffOnlyAdjacent(data: seq<ProfileData>, line: Line)
    requires line in DiffLines(data)
    ensures (line.DiffHeader? || line.DiffLine?) && line.first + 1 == line.second < |data|
    ensures line.DiffHeader? ==> line.firstName == data[line.first].name && line.secondName == data[line.second].name
    ensures line.DiffLine? ==>
      line.block < PROFNAME_LAST && line.block != Ordinal(Pixel) &&
      line.firstCount == data[line.first].blocks[line.block].countTotal &&
      line.secondCount == data[line.second].blocks[line.block].countTotal
  {
    var n := |data| - 1;
    var init := data[..n];
    if line in DiffLines(init) {
      DiffOnlyAdjacent(init, line);
    } else {
      PairDiffLines(n - 1, data[n - 1], data[n]);
    }
  }

  /**
   * The slot-filling loop of profdiff.c:22-37: `argv[i]` goes into slot
   * `i - 1`, stopping at the first file that cannot be opened. `fopened`
   * lists the names handed to `fopen`, in order; `missing` is the index of
   * the argument that could not be opened, when there is one.
   */
  method LoadFiles(argv: seq<string>, fs: map<string, Table>, data: array<ProfileData>)
    returns (ok: bool, missing: nat, fopened: seq<string>)
    requires 1 <= |argv| <= data.Length + 1
    modifies data
    ensures ok <==> AllOpen(argv, fs)
    ensures ok ==> fopened == argv[1..]
    ensures ok ==> data[..|Loaded(argv, fs, |argv|)|] == Loaded(argv, fs, |argv|)
    ensures ok ==> data[|Loaded(argv, fs, |argv|)|..] == old(data[|Loaded(argv, fs, |argv|)|..])
    ensures !ok ==> 1 <= missing < |argv| && argv[missing] !in fs && fopened == argv[1..missing + 1]
    ensures !ok ==> forall i :: 1 <= i < missing ==> argv[i] in fs
    ensures !ok ==> data[..missing - 1] == Loaded(argv, fs, missing) && data[missing - 1..] == old(data[missing - 1..])
  {
    fopened := [];
    missing := 0;
    var i := 1;
    while i < |argv|
      invariant 1 <= i <= |argv|
      invariant forall j :: 1 <= j < i ==> argv[j] in fs
      invariant fopened == argv[1..i]
      invariant forall j :: 0 <= j < i - 1 ==> data[j] == Slot(argv, fs, j + 1)
      invariant forall j :: i - 1 <= j < data.Length ==> data[j] == old(data[j])
    {
      fopened := fopened + [argv[i]];
      if argv[i] !in fs {
        ok, missing := false, i;
        assert data[..missing - 1] == Loaded(argv, fs, missing);
        assert data[missing - 1..] == old(data[missing - 1..]);
        return;
      }
      data[i - 1] := ProfileData(argv[i], fs[argv[i]]);
      i := i + 1;
    }
    ok := true;
    var n := |Loaded(argv, fs, |argv|)|;
    assert data[..n] == Loaded(argv, fs, |argv|);
    assert data[n..] == old(data[n..]);
  }

  /** The report loop of profdiff.c:41-53 over the first `count` slots. */
  method PrintReport(data: array<ProfileData>, count: nat) returns (out: seq<Line>)
    requires count <= data.Length
    ensures out == ReportLines(data[..count])
  {
    out := [];
    for i := 0 to count
      invariant out == ReportLines(data[..i])
    {
      out := out + [FileHeader(i, data[i].name)];
      for k := 0 to PROFNAME_LAST
        invariant out == ReportLines(data[..i]) + [FileHeader(i, data[i].name)] + BlockLines(i, data[i], k)
      {
        var pb := data[i].blocks[k];
        out := out + [BlockLine(i, k, PROFSTR[k], pb.countLastFrame, pb.countTotal,
                                Reciprocal(pb.clockLastFrame), pb.clockLastFrame)];
      }
      assert data[..i + 1][..i] == data[..i];
    }
  }

  /**
   * The diff loop of profdiff.c:55-88 over the first `count` slots; the
   * source needs `count >= 1`, since `count - 1` is unsigned.
   */
  method PrintDiff(data: array<ProfileData>, count: nat) returns (out: seq<Line>)
    requires 1 <= count <= data.Length
    ensures out == DiffLines(data[..count])
  {
    out := [];
    for i := 0 to count - 1
      invariant out == DiffLines(data[..i + 1])
    {
      var j := i + 1;
      out := out + [DiffHeader(i, j, data[i].name, data[j].name)];
      for k := 0 to PROFNAME_LAST
        invariant out == DiffLines(data[..i + 1]) + [DiffHeader(i, j, data[i].name, data[j].name)]
                         + PairRows(i, data[i], data[j], k)
      {
        var a, b := data[i].blocks[k], data[j].blocks[k];
        var aRate := AvgRate(a.clockTotal, a.countTotal);
        var bRate := AvgRate(b.clockTotal, b.countTotal);
        var diffRate := RateDiff(aRate, bRate);
        if k == Ordinal(Pixel) {
          continue;
        }
        out := out + [DiffLine(i, j, k, PROFSTR[k], a.countTotal, b.countTotal, aRate, bRate, diffRate)];
      }
      assert data[..i + 2][..i + 1] == data[..i + 1];
    }
  }

  /**
   * `main` of profdiff.c. Fewer than two file arguments print the usage
   * message and return 1 without opening any file; a file that cannot be
   * opened returns 1 at that point, before anything is printed; otherwise
   * every file is reported and each is compared with the next, and the
   * result is 0. At most 128 files fit in `data`.
   */
  method Run(argv: seq<string>, fs: map<string, Table>)
    returns (code: int, stdout: seq<Line>, stderr: seq<string>, fopened: seq<string>)
    requires |argv| - 1 <= MAX_FILES
    ensures |argv| < 3 ==> code == 1 && stdout == [] && stderr == [USAGE] && fopened == []
    ensures |argv| >= 3 && !AllOpen(argv, fs) ==>
      code == 1 && stdout == [] && stderr == [] &&
      exists m :: 1 <= m < |argv| && argv[m] !in fs && fopened == argv[1..m + 1] &&
        forall j :: 1 <= j < m ==> argv[j] in fs
    ensures |argv| >= 3 && AllOpen(argv, fs) ==>
      code == 0 && stderr == [] && fopened == argv[1..] &&
      stdout == ReportLines(Loaded(argv, fs, |argv|)) + DiffLines(Loaded(argv, fs, |argv|))
  {
    stdout, stderr, fopened := [], [], [];
    if |argv| < 3 {
      return 1, stdout, [USAGE], fopened;
    }
    var data := new ProfileData[MAX_FILES](_ => EMPTY_SLOT);
    var ok, missing;
    ok, missing, fopened := LoadFiles(argv, fs, data);
    if !ok {
      return 1, stdout, stderr, fopened;
    }
    var dataCount := |argv| - 1;
    var report := PrintReport(data, dataCount);
    var diff := PrintDiff(data, dataCount);
    return 0, report + diff, stderr, fopened;
  }
}
