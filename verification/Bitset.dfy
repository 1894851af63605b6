/** The bit sets of the linearizability checker (src/porcupine/bitset.go): a
    slice of 64-bit words, bit `pos` living in word `pos / 64`.  A machine word
    is modelled by its 64 bits, least significant first.  Methods update the
    slice in place; `Members` is the set of positions that a slice stands for. */
module Bitset {

  type Word = w: seq<bool> | |w| == 64 witness seq(64, _ => false)
  type Words = seq<Word>

  const ZERO: Word := seq(64, _ => false)

  // ---- the machine operations on words ------------------------------------

  function Or(v: Word, w: Word): Word {
    seq(64, i requires 0 <= i < 64 => v[i] || w[i])
  }

  function AndNot(v: Word, w: Word): Word {
    seq(64, i requires 0 <= i < 64 => v[i] && !w[i])
  }

  function And(v: Word, w: Word): Word {
    seq(64, i requires 0 <= i < 64 => v[i] && w[i])
  }

  function Xor(v: Word, w: Word): Word {
    seq(64, i requires 0 <= i < 64 => v[i] != w[i])
  }

  function OneShifted(minor: nat): Word
    requires minor < 64
  {
    seq(64, i => i == minor)
  }

  function Pow2(n: nat): (p: nat)
    ensures p > 0
  {
    if n == 0 then 1 else 2 * Pow2(n - 1)
  }

  /** The conversion `uint64(n)`, dropping the bits above the 64th. */
  function FromNat(n: nat): Word {
    seq(64, i requires 0 <= i < 64 => n / Pow2(i) % 2 == 1)
  }

  function OnesCount(w: seq<bool>): nat {
    if w == [] then 0 else (if w[0] then 1 else 0) + OnesCount(w[1..])
  }

  // ---- what a slice of words stands for -----------------------------------

  predicate Has(b: Words, pos: nat) {
    pos / 64 < |b| && b[pos / 64][pos % 64]
  }

  ghost function Members(b: Words): set<nat> {
    MembersBelow(b, 64 * |b|)
  }

  ghost function MembersBelow(b: Words, n: nat): set<nat> {
    if n == 0 then {}
    else if Has(b, n - 1) then MembersBelow(b, n - 1) + {n - 1}
    else MembersBelow(b, n - 1)
  }

  lemma {:induction false} MembersBelowMeaning(b: Words, n: nat, pos: int)
    ensures pos in MembersBelow(b, n) <==> 0 <= pos < n && Has(b, pos)
  {
    if n > 0 {
      MembersBelowMeaning(b, n - 1, pos);
    }
  }

  /** Members are exactly the positions whose bit is set. */
  lemma {:induction false} MembersMeaning(b: Words)
    ensures forall pos {:trigger pos in Members(b)} :: pos in Members(b) <==> 0 <= pos < 64 * |b| && Has(b, pos)
  {
    forall pos: int
      ensures pos in Members(b) <==> 0 <= pos < 64 * |b| && Has(b, pos)
    {
      MembersBelowMeaning(b, 64 * |b|, pos);
    }
  }

  /** Slices of the same length that stand for the same set are identical, so
      comparing words compares sets. */
  lemma {:induction false} MembersDetermineWords(b: Words, c: Words)
    requires |b| == |c|
    requires Members(b) == Members(c)
    ensures b == c
  {
    forall i | 0 <= i < |b|
      ensures b[i] == c[i]
    {
      forall j | 0 <= j < 64
        ensures b[i][j] == c[i][j]
      {
        var pos := 64 * i + j;
        assert pos / 64 == i && pos % 64 == j;
        MembersMeaning(b);
        MembersMeaning(c);
        assert Has(b, pos) == (pos in Members(b));
        assert Has(c, pos) == (pos in Members(c));
      }
    }
  }

  /** Distinct positions live in distinct bits. */
  lemma {:induction false} PositionSplit(p: nat, q: nat)
    requires p / 64 == q / 64 && p % 64 == q % 64
    ensures p == q
  {
  }

  function PopcntOf(b: Words): nat {
    if b == [] then 0 else PopcntOf(b[..|b| - 1]) + OnesCount(b[|b| - 1])
  }

  lemma {:induction false} OnesSnoc(w: seq<bool>, x: bool)
    ensures OnesCount(w + [x]) == OnesCount(w) + if x then 1 else 0
  {
    if w == [] {
      assert w + [x] == [x];
    } else {
      OnesSnoc(w[1..], x);
      assert (w + [x])[1..] == w[1..] + [x];
    }
  }

  /** Counting the members below bit j of word k. */
  lemma {:induction false} BelowCount(b: Words, k: nat, j: nat)
    requires k < |b| && j <= 64
    ensures |MembersBelow(b, 64 * k + j)| == PopcntOf(b[..k]) + OnesCount(b[k][..j])
    decreases k, j
  {
    if j > 0 {
      var n := 64 * k + j - 1;
      BelowCount(b, k, j - 1);
      OnesSnoc(b[k][..j - 1], b[k][j - 1]);
      assert b[k][..j] == b[k][..j - 1] + [b[k][j - 1]];
      assert n / 64 == k && n % 64 == j - 1;
      MembersBelowMeaning(b, n, n);
    } else if k > 0 {
      BelowCount(b, k - 1, 64);
      assert b[..k][..k - 1] == b[..k - 1];
      assert b[k - 1][..64] == b[k - 1];
    }
  }

  /** The population count is the size of the set. */
  lemma {:induction false} PopcntCounts(b: Words)
    ensures PopcntOf(b) == |Members(b)|
  {
    if b != [] {
      var k := |b| - 1;
      BelowCount(b, k, 64);
      assert b[k][..64] == b[k];
    }
  }

  function XorAll(seed: Word, b: Words): Word {
    if b == [] then seed else Xor(XorAll(seed, b[..|b| - 1]), b[|b| - 1])
  }

  function HashOf(b: Words): Word {
    XorAll(FromNat(PopcntOf(b)), b)
  }

  /** How many words have bit j set. */
  function WordsWith(b: Words, j: nat): nat
    requires j < 64
  {
    if b == [] then 0 else WordsWith(b[..|b| - 1], j) + if b[|b| - 1][j] then 1 else 0
  }

  /** Bit j of the hash is bit j of the size of the set, flipped once for each word with
      bit j. */
  lemma {:induction false} HashBit(b: Words, j: nat)
    requires j < 64
    ensures HashOf(b)[j] <==> (FromNat(|Members(b)|)[j] != (WordsWith(b, j) % 2 == 1))
  {
    PopcntCounts(b);
    XorBit(FromNat(PopcntOf(b)), b, j);
  }

  lemma {:induction false} XorBit(seed: Word, b: Words, j: nat)
    requires j < 64
    ensures XorAll(seed, b)[j] <==> (seed[j] != (WordsWith(b, j) % 2 == 1))
  {
    if b != [] {
      XorBit(seed, b[..|b| - 1], j);
    }
  }

  // ---- the operations of the source ---------------------------------------

  method NewBitset(bits: nat) returns (b: array<Word>)
    ensures fresh(b)
    ensures forall pos: nat :: pos < bits ==> pos / 64 < b.Length
    ensures 64 * b.Length < bits + 64
    ensures Members(b[..]) == {}
  {
    var extra := if bits % 64 != 0 then 1 else 0;
    var chunks := bits / 64 + extra;
    b := new Word[chunks](_ => ZERO);
    MembersMeaning(b[..]);
    forall pos: nat | pos < bits
      ensures pos / 64 < b.Length
    {
      assert pos / 64 <= bits / 64;
    }
  }

  method Clone(b: array<Word>) returns (c: array<Word>)
    ensures fresh(c)
    ensures c[..] == b[..]
  {
    c := new Word[b.Length](i requires 0 <= i < b.Length reads b => b[i]);
  }

  method Set(b: array<Word>, pos: nat)
    requires pos / 64 < b.Length
    modifies b
    ensures Members(b[..]) == old(Members(b[..])) + {pos}
  {
    var major, minor := pos / 64, pos % 64;
    b[major] := Or(b[major], OneShifted(minor));
    ghost var was := old(b[..]);
    MembersMeaning(was);
    MembersMeaning(b[..]);
    forall q | 0 <= q < 64 * b.Length
      ensures Has(b[..], q) == (Has(was, q) || q == pos)
    {
      if q / 64 == major && q % 64 == minor {
        PositionSplit(q, pos);
      }
    }
  }

  method Clear(b: array<Word>, pos: nat)
    requires pos / 64 < b.Length
    modifies b
    ensures Members(b[..]) == old(Members(b[..])) - {pos}
  {
    var major, minor := pos / 64, pos % 64;
    b[major] := AndNot(b[major], OneShifted(minor));
    ghost var was := old(b[..]);
    MembersMeaning(was);
    MembersMeaning(b[..]);
    forall q | 0 <= q < 64 * b.Length
      ensures Has(b[..], q) == (Has(was, q) && q != pos)
    {
      if q / 64 == major && q % 64 == minor {
        PositionSplit(q, pos);
      }
    }
  }

  method Get(b: array<Word>, pos: nat) returns (r: bool)
    requires pos / 64 < b.Length
    ensures r <==> pos in Members(b[..])
  {
    var major, minor := pos / 64, pos % 64;
    var masked := And(b[major], OneShifted(minor));
    r := masked != ZERO;
    assert masked[minor] == b[major][minor];
    assert r ==> exists i :: 0 <= i < 64 && masked[i];
    assert pos < 64 * b.Length;
    MembersMeaning(b[..]);
    assert Has(b[..], pos) == b[major][minor];
  }

  method Popcnt(b: array<Word>) returns (total: nat)
    ensures total == PopcntOf(b[..]) == |Members(b[..])|
  {
    total := 0;
    for i := 0 to b.Length
      invariant total == PopcntOf(b[..i])
    {
      total := total + OnesCount(b[i]);
      assert b[..i + 1][..i] == b[..i];
    }
    assert b[..b.Length] == b[..];
    PopcntCounts(b[..]);
  }

  method Hash(b: array<Word>) returns (hash: Word)
    ensures hash == HashOf(b[..])
  {
    var count := Popcnt(b);
    hash := FromNat(count);
    for i := 0 to b.Length
      invariant hash == XorAll(FromNat(count), b[..i])
    {
      hash := Xor(hash, b[i]);
      assert b[..i + 1][..i] == b[..i];
    }
    assert b[..b.Length] == b[..];
  }

  /** Word by word comparison decides equality of the sets. */
  method Equals(b: Words, c: Words) returns (r: bool)
    ensures r <==> |b| == |c| && Members(b) == Members(c)
  {
    if |b| != |c| {
      return false;
    }
    for i := 0 to |b|
      invariant b[..i] == c[..i]
    {
      if b[i] != c[i] {
        if Members(b) == Members(c) {
          MembersDetermineWords(b, c);
        }
        return false;
      }
    }
    assert b == c;
    return true;
  }
}
