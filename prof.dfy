/**
 * The profiling block table shared by the renderer and the profdiff tool
 * (prof.h): the closed enumeration of block names, the per-block record and
 * the table of printable names.
 */
module Prof {
  import opened CTypes

  /** `enum profname` without its sentinel `PROFNAME_LAST`. */
  datatype ProfName = Loop | Draw | Pixel

  /** `PROFNAME_LAST`: the number of real blocks, one past the last ordinal. */
  const PROFNAME_LAST: nat := 3

  /** The C ordinal of an enumerator. */
  function Ordinal(n: ProfName): (k: nat)
    ensures k < PROFNAME_LAST
    ensures n == Loop ==> k == 0
    ensures n == Draw ==> k == 1
    ensures n == Pixel ==> k == 2
  {
    match n
    case Loop => 0
    case Draw => 1
    case Pixel => 2
  }

  /** The enumerator with ordinal `k`; defined for every real block index. */
  function FromOrdinal(k: nat): (n: ProfName)
    requires k < PROFNAME_LAST
    ensures Ordinal(n) == k
  {
    if k == 0 then Loop else if k == 1 then Draw else Pixel
  }

  /** Two enumerators with the same ordinal are the same enumerator. */
  lemma OrdinalInjective(m: ProfName, n: ProfName)
    requires Ordinal(m) == Ordinal(n)
    ensures m == n
  {
  }

  /** `profstr`: the printable name of each block, indexed by ordinal. */
  const PROFSTR: seq<string> := ["loop", "draw", "pixel"]

  /**
   * `profstr` has exactly `PROFNAME_LAST` entries, and the entry at the
   * ordinal of each block names that block.
   */
  lemma NameTable()
    ensures |PROFSTR| == PROFNAME_LAST
    ensures PROFSTR[Ordinal(Loop)] == "loop"
    ensures PROFSTR[Ordinal(Draw)] == "draw"
    ensures PROFSTR[Ordinal(Pixel)] == "pixel"
  {
  }

  /** The names are pairwise distinct, so a name identifies its block. */
  lemma NamesDistinct(j: nat, k: nat)
    requires j < |PROFSTR| && k < |PROFSTR| && PROFSTR[j] == PROFSTR[k]
    ensures j == k
  {
    assert PROFSTR[j][0] == PROFSTR[k][0];
    if j == 0 || k == 0 {
      assert PROFSTR[j][1] == PROFSTR[k][1];
    }
  }

  /**
   * `struct profblock`: three counters (last frame, current frame, whole
   * run), three elapsed-time accumulators in seconds, and the `active` flag.
   * The clocks are C `float`s, represented here by their ideal real value.
   */
  datatype ProfBlock = ProfBlock(
    countLastFrame: U32,
    countCurrentFrame: U32,
    countTotal: U32,
    clockLastFrame: real,
    clockCurrentFrame: real,
    clockTotal: real,
    active: U32)

  /** A block that has never run. */
  const ZERO_BLOCK: ProfBlock := ProfBlock(0, 0, 0, 0.0, 0.0, 0.0, 0)

  /** A table holds exactly one record per block, indexed by ordinal. */
  type Table = t: seq<ProfBlock> | |t| == PROFNAME_LAST
    witness [ZERO_BLOCK, ZERO_BLOCK, ZERO_BLOCK]

  /**
   * A table read from one file holds one record per block: its length is
   * `PROFNAME_LAST`, so every block's ordinal indexes it.
   */
  lemma TableLength(t: Table, n: ProfName)
    ensures |t| == PROFNAME_LAST
    ensures Ordinal(n) < |t|
  {
  }
}
