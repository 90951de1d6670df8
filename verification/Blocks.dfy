/** Disk blocks as the kernel sees them: BSIZE bytes, also read and written as
    little-endian 32-bit words (the log header, indirect blocks and inodes are
    all overlaid on a block's bytes this way). */
module Blocks {

  const BSIZE: nat := 1024
  const WORDS: nat := 256

  type byte = x: int | 0 <= x < 256
  type word = x: int | 0 <= x < 0x1_0000_0000
  type Block = b: seq<byte> | |b| == BSIZE witness seq(BSIZE, i => 0)

  /** The i-th 32-bit word of a block, least significant byte first. */
  function Word(b: Block, i: nat): (w: word)
    requires i < WORDS
  {
    b[4*i] as int + 0x100 * (b[4*i+1] as int) + 0x1_0000 * (b[4*i+2] as int) + 0x100_0000 * (b[4*i+3] as int)
  }

  function SetWord(b: Block, i: nat, v: word): (r: Block)
    requires i < WORDS
  {
    b[4*i := v % 0x100][4*i+1 := v / 0x100 % 0x100][4*i+2 := v / 0x1_0000 % 0x100][4*i+3 := v / 0x100_0000]
  }

  lemma WordSplit(v: word)
    ensures v % 0x100 + 0x100 * (v / 0x100 % 0x100) + 0x1_0000 * (v / 0x1_0000 % 0x100)
      + 0x100_0000 * (v / 0x100_0000) == v
    ensures 0 <= v / 0x100_0000 < 0x100
  {
    var a := v / 0x100;
    var c := a / 0x100;
    assert v / 0x1_0000 == c;
    assert v / 0x100_0000 == c / 0x100;
  }

  /** Storing a word and loading it back gives the word; the other words stay. */
  lemma SetWordGet(b: Block, i: nat, v: word, j: nat)
    requires i < WORDS && j < WORDS
    ensures Word(SetWord(b, i, v), j) == if i == j then v else Word(b, j)
  {
    WordSplit(v);
  }
}
