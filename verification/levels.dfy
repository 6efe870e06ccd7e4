/** Log levels and the level mask (qlog.go lines 25-37, 123-152). */
module Levels {

  /** The six severities, in the order the source declares them with `1 << iota`. */
  datatype Level = Trace | Debug | Info | Error | Warn | Critical

  /** A Go `int` on a 64-bit platform, seen as a bit pattern. */
  type Mask = bv64

  /** Position of a level in the `iota` sequence. */
  function Ordinal(l: Level): nat
  {
    match l
    case Trace => 0
    case Debug => 1
    case Info => 2
    case Error => 3
    case Warn => 4
    case Critical => 5
  }

  /** The flag value of a level: TRACE=1, DEBUG=2, INFO=4, ERROR=8, WARN=16, CRITICAL=32. */
  function Bit(l: Level): Mask
  {
    match l
    case Trace => 1
    case Debug => 2
    case Info => 4
    case Error => 8
    case Warn => 16
    case Critical => 32
  }

  const AllLevels: seq<Level> := [Trace, Debug, Info, Error, Warn, Critical]

  /** DEFAULTLEVEL, the union of every level flag. */
  const DefaultLevel: Mask :=
    Bit(Trace) | Bit(Debug) | Bit(Info) | Bit(Error) | Bit(Warn) | Bit(Critical)

  /** The test each leveled method performs before doing anything: `L & mask == L`. */
  predicate Enabled(mask: Mask, l: Level)
    ensures Enabled(mask, l) <==> ((mask >> Ordinal(l)) & 1) == 1
  {
    (Bit(l) & mask) == Bit(l)
  }

  /** The union of the flags of a list of levels. */
  function MaskOf(ls: seq<Level>): Mask
  {
    if |ls| == 0 then 0 else MaskOf(ls[..|ls| - 1]) | Bit(ls[|ls| - 1])
  }

  /** Each level is the single bit `1 << ordinal`, and distinct levels share no bit. */
  lemma LevelsAreDistinctBits(l: Level, k: Level)
    ensures Bit(l) == (1 as bv64) << Ordinal(l)
    ensures l != k ==> (Bit(l) & Bit(k)) == 0
    ensures Ordinal(l) == Ordinal(k) ==> l == k
  {
  }

  /** The source's test `L & mask == L` agrees with the test `mask & L != 0`
      because every level is a single bit. */
  lemma EnabledIffBitSet(mask: Mask, l: Level)
    ensures Enabled(mask, l) <==> (mask & Bit(l)) != 0
  {
  }

  /** Adding one level's flag to a mask enables that level and changes nothing else. */
  lemma AddLevelEnables(m: Mask, k: Level, l: Level)
    ensures Enabled(m | Bit(k), l) <==> Enabled(m, l) || l == k
  {
    match l
    case Trace => {}
    case Debug => {}
    case Info => {}
    case Error => {}
    case Warn => {}
    case Critical => {}
  }

  /** A mask built from a list of levels enables exactly the listed levels. */
  lemma {:induction false} MaskOfEnables(ls: seq<Level>, l: Level)
    ensures Enabled(MaskOf(ls), l) <==> l in ls
    decreases |ls|
  {
    if |ls| > 0 {
      var init := ls[..|ls| - 1];
      var last := ls[|ls| - 1];
      MaskOfEnables(init, l);
      AddLevelEnables(MaskOf(init), last, l);
      assert ls == init + [last];
      assert l in ls <==> l in init || l == last;
    }
  }

  /** DEFAULTLEVEL enables every level, and it is the integer 63. */
  lemma DefaultEnablesAll(l: Level)
    ensures DefaultLevel == MaskOf(AllLevels)
    ensures DefaultLevel as int == 63
    ensures Enabled(DefaultLevel, l)
  {
    assert AllLevels[..5] == [Trace, Debug, Info, Error, Warn];
    assert AllLevels[..5][..4] == [Trace, Debug, Info, Error];
    assert AllLevels[..5][..4][..3] == [Trace, Debug, Info];
    assert AllLevels[..5][..4][..3][..2] == [Trace, Debug];
    assert AllLevels[..5][..4][..3][..2][..1] == [Trace];
    assert MaskOf([Trace]) == 1;
    assert MaskOf([Trace, Debug]) == 3;
    assert MaskOf([Trace, Debug, Info]) == 7;
    assert MaskOf([Trace, Debug, Info, Error]) == 15;
    assert MaskOf([Trace, Debug, Info, Error, Warn]) == 31;
    assert MaskOf(AllLevels) == 63;
    MaskOfEnables(AllLevels, l);
  }

  /** A mask enables every level exactly when it covers DEFAULTLEVEL; the
      configured level -1, all bits set, is one such mask. */
  lemma CoveringMaskEnablesAll(m: Mask)
    ensures (m & DefaultLevel) == DefaultLevel <==> forall l :: Enabled(m, l)
    ensures (0xFFFF_FFFF_FFFF_FFFF & DefaultLevel) == DefaultLevel
  {
    if forall l :: Enabled(m, l) {
      assert Enabled(m, Trace) && Enabled(m, Debug) && Enabled(m, Info);
      assert Enabled(m, Error) && Enabled(m, Warn) && Enabled(m, Critical);
    }
  }
}
