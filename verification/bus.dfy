/**
 * The 64 KB address space as the CPU sees it: a total map from 16-bit
 * address to byte, the little-endian reset vector, and the bulk loader the
 * test fixture uses to place a program at the default load address.
 */
module Bus {
  import opened Bits

  /** Every address holds a byte; reads have no side effects. */
  type Memory = Word -> Byte

  /** Low byte of the reset vector; the high byte follows at 0xFFFD. */
  const ResetVector: Word := 0xFFFC

  /** Where programs are loaded and where the fixture's reset vector points. */
  const DefaultLoadAddress: Word := 0x0200

  /** Writes `bytes` at consecutive addresses from `start`; every other address keeps its byte. */
  function Load(mem: Memory, start: Word, bytes: seq<Byte>): (r: Memory)
    requires start + |bytes| <= 0x1_0000
    ensures forall a: Word :: start <= a < start + |bytes| ==> r(a) == bytes[a - start]
    ensures forall a: Word :: !(start <= a < start + |bytes|) ==> r(a) == mem(a)
  {
    (a: Word) => if start <= a < start + |bytes| then bytes[a - start] else mem(a)
  }

  /** The 16-bit word stored little-endian at addr (low byte first); the high byte's address wraps. */
  function ReadWord(mem: Memory, addr: Word): Word
  {
    mem(addr) + 0x100 * mem((addr + 1) % 0x1_0000)
  }

  /** A word as the two bytes that store it: the low byte w % 256, then the high byte w / 256. */
  function WordBytes(w: Word): (bytes: seq<Byte>)
    ensures |bytes| == 2
  {
    [w % 0x100, w / 0x100]
  }

  /** Storing a word's two bytes and reading the word back gives the same word. */
  lemma WordRoundTrip(mem: Memory, addr: Word, w: Word)
    requires addr + 2 <= 0x1_0000
    ensures ReadWord(Load(mem, addr, WordBytes(w)), addr) == w
  {
    var m := Load(mem, addr, WordBytes(w));
    assert m(addr) == w % 0x100;
    assert m(addr + 1) == w / 0x100;
  }
}
