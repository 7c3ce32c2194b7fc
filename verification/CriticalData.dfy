/** The critical data store record and bit errors. */
module CriticalData {
  import opened HsTypes

  datatype Cds = Cds(resets: uint16, resetsNot: uint16, max: uint16, maxNot: uint16)

  /** ~x in 16 bits. */
  function Not(x: uint16): uint16 {
    0xFFFF - x
  }

  function Sealed(resets: uint16, max: uint16): Cds {
    Cds(resets, Not(resets), max, Not(max))
  }

  /** The start-up check: each value equals the complement of its inverse word. */
  predicate Consistent(r: Cds) {
    r.resets == Not(r.resetsNot) && r.max == Not(r.maxNot)
  }

  lemma SealedConsistent(resets: uint16, max: uint16)
    ensures Consistent(Sealed(resets, max))
  {
  }

  /** Exclusive or of the low n bits. */
  function Xor(n: nat, a: nat, b: nat): (x: nat) {
    if n == 0 then 0 else 2 * Xor(n - 1, a / 2, b / 2) + (if a % 2 == b % 2 then 0 else 1)
  }

  function Ones(n: nat): nat {
    if n == 0 then 0 else 2 * Ones(n - 1) + 1
  }

  lemma {:induction false} XorBound(n: nat, a: nat, b: nat)
    ensures Xor(n, a, b) <= Ones(n)
  {
    if n > 0 {
      XorBound(n - 1, a / 2, b / 2);
    }
  }

  /** Complementing an operand complements the result. */
  lemma {:induction false} XorComplement(n: nat, a: nat, b: nat)
    requires a <= Ones(n)
    ensures Xor(n, Ones(n) - a, b) == Ones(n) - Xor(n, a, b)
  {
    if n > 0 {
      assert (Ones(n) - a) / 2 == Ones(n - 1) - a / 2;
      XorComplement(n - 1, a / 2, b / 2);
    }
  }

  lemma {:induction false} XorInjective(n: nat, a: nat, b: nat, b': nat)
    requires b <= Ones(n) && b' <= Ones(n)
    ensures Xor(n, a, b) == Xor(n, a, b') <==> b == b'
  {
    if n > 0 {
      XorInjective(n - 1, a / 2, b / 2, b' / 2);
    }
  }

  lemma Ones16()
    ensures Ones(16) == 0xFFFF
  {
    assert Ones(8) == 0xFF;
  }

  /** A word after the bits set in `error` have flipped. */
  function Flip(word: uint16, error: uint16): uint16 {
    Ones16();
    XorBound(16, word, error);
    Xor(16, word, error)
  }

  lemma {:induction false} XorZero(n: nat, a: nat)
    requires a <= Ones(n)
    ensures Xor(n, a, 0) == a
  {
    if n > 0 {
      XorZero(n - 1, a / 2);
    }
  }

  lemma NoFlip(word: uint16)
    ensures Flip(word, 0) == word
  {
    Ones16();
    XorZero(16, word);
  }

  function FlipRecord(r: Cds, error: Cds): Cds {
    Cds(Flip(r.resets, error.resets), Flip(r.resetsNot, error.resetsNot),
        Flip(r.max, error.max), Flip(r.maxNot, error.maxNot))
  }

  lemma FlippedPair(word: uint16, e: uint16, e': uint16)
    ensures Flip(word, e) == Not(Flip(Not(word), e')) <==> e == e'
  {
    Ones16();
    XorComplement(16, word, e');
    XorInjective(16, word, e, e');
  }

  /** A stored pair that suffered bit errors is accepted exactly when each value and its inverse word
      were hit in the same bits. */
  lemma DetectsErrors(resets: uint16, max: uint16, error: Cds)
    ensures Consistent(FlipRecord(Sealed(resets, max), error))
            <==> error.resets == error.resetsNot && error.max == error.maxNot
  {
    FlippedPair(resets, error.resets, error.resetsNot);
    FlippedPair(max, error.max, error.maxNot);
  }
}
