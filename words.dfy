/** 32-bit register words.

    A word is modelled as the set of the positions of its 1 bits. Every
    operation the drivers apply to a word combines it with a single-bit
    mask `1ul << pin` (or with a small constant) through `|`, `&`, `~` and
    `^`, and these become union, intersection, difference and symmetric
    difference of bit-position sets:

      `w | m`   is `w + m`      (a write to a SET alias, or `|=`)
      `w & ~m`  is `w - m`      (a write to a CLR alias, or `&= ~`)
      `w & m`   is `w * m`
      `w ^ m`   is `Xor(w, m)`  (a write to an XOR alias)
      `w & m != 0` is `w * m != {}`

    The drivers only write positions below 30 (pin numbers) and the pad and
    CTRL bit positions 0..7; nothing in the model depends on a word holding
    no position above 31. */
module Words {

  type Word = set<nat>

  /** `1ul << p`. */
  function Mask(p: nat): (m: Word)
    ensures p in m && |m| == 1
  {
    {p}
  }

  /** `w ^ m`: the positions set in exactly one of the two words. */
  function Xor(w: Word, m: Word): (x: Word)
    ensures forall i :: i in x <==> (i in w) != (i in m)
  {
    (w - m) + (m - w)
  }

  /** Bit `p` of `w` forced to `b`, every other bit kept. */
  function WithBit(w: Word, p: nat, b: bool): (v: Word)
    ensures (p in v) == b
    ensures v - {p} == w - {p}
  {
    if b then w + {p} else w - {p}
  }

  /** An XOR-alias write of a single-bit mask inverts that bit and only it. */
  lemma XorMaskInverts(w: Word, p: nat)
    ensures Xor(w, Mask(p)) == WithBit(w, p, p !in w)
  {
  }

  /** Two words that agree off bit `p` and on bit `p` are equal. */
  lemma WordExtensionality(w: Word, v: Word, p: nat)
    requires w - {p} == v - {p} && ((p in w) <==> (p in v))
    ensures w == v
  {
    assert forall i :: i in w <==> i in v by {
      forall i ensures i in w <==> i in v {
        if i != p {
          assert (i in w) == (i in w - {p});
          assert (i in v) == (i in v - {p});
        }
      }
    }
  }

  /** Two words that agree off the positions `bits` and on each of them are
      equal. */
  lemma WordsAgree(w: Word, v: Word, bits: set<nat>)
    requires w - bits == v - bits
    requires forall b :: b in bits ==> ((b in w) <==> (b in v))
    ensures w == v
  {
    assert forall i :: i in w <==> i in v by {
      forall i ensures i in w <==> i in v {
        if i !in bits {
          assert (i in w) == (i in w - bits);
          assert (i in v) == (i in v - bits);
        }
      }
    }
  }
}
