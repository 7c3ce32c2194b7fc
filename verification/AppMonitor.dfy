/** One application monitor entry and its enable bit. */
module AppMonitor {
  import opened HsTypes

  /** AppMonCheckInCountdown, AppMonLastExeCount and the packed AppMonEnables. */
  datatype AppMon = AppMon(countdown: seq<uint16>, last: seq<uint32>, enables: seq<uint32>)

  function Words(apps: nat): nat
    requires apps >= 1
  {
    (apps - 1) / 32 + 1
  }

  predicate Valid(apps: nat, a: AppMon) {
    && apps >= 1
    && |a.countdown| == |a.last| == apps
    && |a.enables| == Words(apps)
  }

  function Pow2(k: nat): (p: nat)
    ensures p >= 1
  {
    if k == 0 then 1 else 2 * Pow2(k - 1)
  }

  /** w & (1 << k) != 0, read off the binary digits of w. */
  predicate HasBit(w: nat, k: nat) {
    if k == 0 then w % 2 == 1 else HasBit(w / 2, k - 1)
  }

  /** w | (1 << k): digit k becomes 1. */
  function WithBit(w: nat, k: nat): nat {
    if k == 0 then w / 2 * 2 + 1 else 2 * WithBit(w / 2, k - 1) + w % 2
  }

  /** w & ~(1 << k): digit k becomes 0. */
  function WithoutBit(w: nat, k: nat): nat {
    if k == 0 then w / 2 * 2 else 2 * WithoutBit(w / 2, k - 1) + w % 2
  }

  lemma Digits(h: nat, d: nat)
    requires d < 2
    ensures (2 * h + d) / 2 == h && (2 * h + d) % 2 == d
  {
  }

  /** Setting or clearing digit k moves the word by 0 or 2^k and stays below any power of two above it. */
  lemma {:induction false} BitArithmetic(w: nat, k: nat, n: nat)
    requires k < n && w < Pow2(n)
    ensures WithBit(w, k) == w + (if HasBit(w, k) then 0 else Pow2(k)) < Pow2(n)
    ensures WithoutBit(w, k) == w - (if HasBit(w, k) then Pow2(k) else 0) >= 0
  {
    var h, d := w / 2, w % 2;
    assert w == 2 * h + d;
    assert Pow2(n) == 2 * Pow2(n - 1) && h < Pow2(n - 1);
    if k > 0 {
      BitArithmetic(h, k - 1, n - 1);
    }
  }

  lemma {:induction false} BitEffects(w: nat, k: nat, j: nat)
    ensures HasBit(WithBit(w, k), j) <==> j == k || HasBit(w, j)
    ensures HasBit(WithoutBit(w, k), j) <==> j != k && HasBit(w, j)
  {
    var h, d := w / 2, w % 2;
    if k == 0 {
      Digits(h, 1);
      Digits(h, 0);
    } else {
      Digits(WithBit(h, k - 1), d);
      Digits(WithoutBit(h, k - 1), d);
      if j > 0 {
        BitEffects(h, k - 1, j - 1);
      }
    }
  }

  lemma {:induction false} ZeroHasNoBits(k: nat)
    ensures !HasBit(0, k)
  {
    if k > 0 {
      ZeroHasNoBits(k - 1);
    }
  }

  lemma Pow2Word()
    ensures Pow2(32) == U32
  {
    assert Pow2(8) == 0x100;
    assert Pow2(16) == 0x1_0000;
    assert Pow2(24) == 0x100_0000;
  }

  function OrBit(w: uint32, k: nat): (r: uint32)
    requires k < 32
    ensures forall j: nat {:trigger HasBit(r, j)} :: HasBit(r, j) <==> j == k || HasBit(w, j)
  {
    Pow2Word();
    BitArithmetic(w, k, 32);
    forall j: nat ensures HasBit(WithBit(w, k), j) <==> j == k || HasBit(w, j) {
      BitEffects(w, k, j);
    }
    WithBit(w, k)
  }

  function AndNotBit(w: uint32, k: nat): (r: uint32)
    requires k < 32
    ensures forall j: nat {:trigger HasBit(r, j)} :: HasBit(r, j) <==> j != k && HasBit(w, j)
  {
    Pow2Word();
    BitArithmetic(w, k, 32);
    forall j: nat ensures HasBit(WithoutBit(w, k), j) <==> j != k && HasBit(w, j) {
      BitEffects(w, k, j);
    }
    WithoutBit(w, k)
  }

  predicate BitSet(words: seq<uint32>, i: nat)
    requires i / 32 < |words|
  {
    HasBit(words[i / 32], i % 32)
  }

  function SetBit(words: seq<uint32>, i: nat): (r: seq<uint32>)
    requires i < 32 * |words|
    ensures |r| == |words|
    ensures forall j: nat | j < 32 * |words| :: BitSet(r, j) <==> j == i || BitSet(words, j)
  {
    words[i / 32 := OrBit(words[i / 32], i % 32)]
  }

  function ClearBit(words: seq<uint32>, i: nat): (r: seq<uint32>)
    requires i < 32 * |words|
    ensures |r| == |words|
    ensures forall j: nat | j < 32 * |words| :: BitSet(r, j) <==> j != i && BitSet(words, j)
  {
    words[i / 32 := AndNotBit(words[i / 32], i % 32)]
  }

  /** An entry that the refresh arms: it has an action and a positive cycle count. */
  predicate Active(e: AmtEntry) {
    e.cycleCount != 0 && e.action != ACT_NOACT
  }

  function NoBits(apps: nat): (w: seq<uint32>)
    requires apps >= 1
    ensures |w| == Words(apps)
    ensures forall i: nat | i < 32 * |w| :: !BitSet(w, i)
  {
    forall k: nat ensures !HasBit(0, k) {
      ZeroHasNoBits(k);
    }
    Copies(Words(apps), 0)
  }

  /** The enable words once the first n entries of the table have been armed. */
  function ArmedBits(amt: seq<AmtEntry>, n: nat): (w: seq<uint32>)
    requires 1 <= |amt| && n <= |amt|
    ensures |w| == Words(|amt|)
    ensures forall i: nat | i < 32 * |w| :: BitSet(w, i) <==> i < n && Active(amt[i])
  {
    if n == 0 then NoBits(|amt|) else
      var w := ArmedBits(amt, n - 1);
      if Active(amt[n - 1]) then SetBit(w, n - 1) else w
  }

  lemma ArmStep(amt: seq<AmtEntry>, n: nat)
    requires n < |amt|
    ensures ArmedBits(amt, 0) == NoBits(|amt|)
    ensures ArmedBits(amt, n + 1)
              == if Active(amt[n]) then SetBit(ArmedBits(amt, n), n) else ArmedBits(amt, n)
  {
  }

  function Refreshed(amt: seq<AmtEntry>): (a: AppMon)
    requires |amt| >= 1
    ensures Valid(|amt|, a)
  {
    AppMon(
      seq(|amt|, i requires 0 <= i < |amt| => if Active(amt[i]) then amt[i].cycleCount else 0),
      seq(|amt|, _ => 0),
      ArmedBits(amt, |amt|))
  }

  function Idle(apps: nat): (a: AppMon)
    requires apps >= 1
    ensures Valid(apps, a)
  {
    AppMon(Copies(apps, 0), Copies(apps, 0), NoBits(apps))
  }

  /** A look that finds no new execution count. */
  predicate Missed(last: uint32, x: Sighting) {
    !(x.Seen? && x.count != last)
  }

  /** The look at entry i that uses up its countdown. */
  predicate Expires(a: AppMon, i: nat, x: Sighting)
    requires i < |a.countdown| && i < |a.last|
  {
    Missed(a.last[i], x) && a.countdown[i] == 1
  }

  function Look(apps: nat, a: AppMon, e: AmtEntry, i: nat, x: Sighting): (r: AppMon)
    requires Valid(apps, a) && i < apps && a.countdown[i] != 0
    ensures Valid(apps, r)
  {
    if !Missed(a.last[i], x) then
      a.(countdown := a.countdown[i := e.cycleCount], last := a.last[i := x.count])
    else
      a.(countdown := a.countdown[i := a.countdown[i] - 1],
         enables := if a.countdown[i] == 1 then ClearBit(a.enables, i) else a.enables)
  }
}
