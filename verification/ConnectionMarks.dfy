/** The kernel side of an account mark: saving it on a connection and matching it on the way back. */
module ConnectionMarks {
  import opened Bits
  import opened AccountLimits

  /** 0xff000000 */
  const HIGH_OCTET: Word := set i | 24 <= i < 32

  /** 0x00ff0000, the octet that belongs to Tailscale */
  const FOREIGN_OCTET: Word := set i | 16 <= i < 24

  /** The conntrack rule: packets marked for an account store that mark, leaving the foreign octet alone. */
  function SaveMark(meta: Word, ct: Word): Word {
    if meta * HIGH_OCTET == MARK_PREFIX then (ct * FOREIGN_OCTET) + (meta * MARK_MASK) else ct
  }

  /** A `mark/mask` filter of an account's queue. */
  predicate FilterMatches(value: Word, port: Port) {
    value * MARK_MASK == AccountMark(port)
  }

  lemma AccountMarkInjective(p: Port, q: Port)
    requires AccountMark(p) == AccountMark(q)
    ensures p == q
  {
    forall i ensures i in BitsOf(p, 16) <==> i in BitsOf(q, 16) {
      assert i in AccountMark(p) <==> i in AccountMark(q);
    }
    assert Pow2(4) == 16 && Pow2(8) == 256 && Pow2(12) == 4096 && Pow2(16) == 65536;
    BitsOfInjective(p, q, 16);
  }

  /** Saving account p's mark keeps the foreign octet, and the return filter of q then matches iff q is p. */
  lemma ReturnFilterSelectsTheAccount(meta: Word, ct: Word, p: Port, q: Port)
    requires FilterMatches(meta, p)
    ensures SaveMark(meta, ct) * FOREIGN_OCTET == ct * FOREIGN_OCTET
    ensures FilterMatches(SaveMark(meta, ct), q) <==> p == q
  {
    HighOctetOfAccount(meta, p);
    assert SaveMark(meta, ct) * MARK_MASK == meta * MARK_MASK;
    if AccountMark(p) == AccountMark(q) { AccountMarkInjective(p, q); }
  }

  lemma HighOctetOfAccount(meta: Word, p: Port)
    requires FilterMatches(meta, p)
    ensures meta * HIGH_OCTET == MARK_PREFIX
  {
    forall i ensures i in meta * HIGH_OCTET <==> i in MARK_PREFIX {
      assert i in meta * MARK_MASK <==> i in AccountMark(p);
    }
  }

  /** A packet of no account never touches the stored mark and matches no account's queue. */
  lemma ForeignPacketsKeepTheMark(meta: Word, ct: Word, q: Port)
    requires meta * HIGH_OCTET != MARK_PREFIX
    ensures SaveMark(meta, ct) == ct && !FilterMatches(meta, q)
  {
    if FilterMatches(meta, q) { HighOctetOfAccount(meta, q); }
  }
}
