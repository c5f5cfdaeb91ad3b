/**
The packing macros of thread_safe/lockfree_queue.hpp (lines 5-14) on 64-bit words.  First the macros themselves: a
word built by them is a pair of a pointer and a count, and they act on one component and keep the other.  Then the
words of the queue's model, encoded in 64 bits: the operations on QueueModel.Word that the model uses are what the
macros do to the encoded words.
*/
module PackedWord {
  import opened Options
  import opened QueueModel
  import opened QueueInvariant
  import opened QueueFrames
  import opened QueueSteps
  import opened QueueTheorems

  const LOW: bv64 := 0x0000_FFFF_FFFF_FFFF
  const HIGH: bv64 := 0xFFFF_0000_0000_0000

  function SetPtr(cnp: bv64, p: bv64): bv64 {
    (cnp & HIGH) | p
  }

  function GetPtr(cnp: bv64): bv64 {
    cnp & !HIGH
  }

  function SetCount(cnp: bv64, c: bv64): bv64 {
    (cnp & !HIGH) | (c << 48)
  }

  function GetCount(cnp: bv64): bv64 {
    cnp >> 48
  }

  /** What a packed word stands for. */
  datatype Pair = Pair(ptr: bv64, count: bv64)

  predicate Fits(p: Pair) {
    p.ptr <= LOW && p.count <= 0xFFFF
  }

  /** Lines 140-141: both macros applied to a variable that holds `garbage`. */
  function Pack(garbage: bv64, p: Pair): bv64 {
    SetCount(SetPtr(garbage, p.ptr), p.count)
  }

  function Unpack(cnp: bv64): Pair {
    Pair(GetPtr(cnp), GetCount(cnp))
  }

  /** Every word stands for a pair that fits, and repacking the pair gives back the word. */
  lemma PackUnpack(garbage: bv64, cnp: bv64)
    ensures Fits(Unpack(cnp)) && Pack(garbage, Unpack(cnp)) == cnp
  {
  }

  /** Unpacking gives back the pair, whatever the variable held before. */
  lemma UnpackPack(garbage: bv64, p: Pair)
    requires Fits(p)
    ensures Unpack(Pack(garbage, p)) == p
  {
  }

  /** A CAS on packed words succeeds exactly when the pairs are equal. */
  lemma CasComparesPairs(g: bv64, g': bv64, p: Pair, q: Pair)
    requires Fits(p) && Fits(q)
    ensures Pack(g, p) == Pack(g', q) <==> p == q
  {
    hide Pack, Unpack;
    UnpackPack(g, p);
    UnpackPack(g', q);
    PackUnpack(g, Pack(g', q));
  }

  /** Lines 171-173: a new node's address replaces the pointer and the count stays. */
  lemma SetPtrKeepsCount(cnp: bv64, p: bv64)
    requires p <= LOW
    ensures Unpack(SetPtr(cnp, p)) == Pair(p, GetCount(cnp))
  {
  }

  /** Lines 72-74: one more reference. */
  function Incremented(cnp: bv64): bv64 {
    SetCount(cnp, GetCount(cnp) + 1)
  }

  function NextCount(c: bv64): bv64 {
    if c == 0xFFFF then 0 else c + 1
  }

  /** One more reference keeps the pointer, and the count wraps at 2^16. */
  lemma IncrementKeepsPtr(cnp: bv64)
    ensures Unpack(Incremented(cnp)) == Pair(GetPtr(cnp), NextCount(GetCount(cnp)))
  {
  }

  /** A null `next` (lines 41-42 and 152) is told from every word that holds a node: the count of such a word is at
      least 1. */
  lemma NullIsNoWord(cnp: bv64)
    requires GetCount(cnp) != 0
    ensures cnp != 0
  {
  }

  // ----- A natural number as 64 bits
  //
  // The operations on bits are named, so that a proof about numbers can leave them alone.

  function Inc(x: bv64): bv64 {
    x + 1
  }

  function Twice(x: bv64): bv64 {
    x << 1
  }

  function Half(x: bv64): bv64 {
    x >> 1
  }

  predicate Odd(x: bv64) {
    x & 1 == 1
  }

  /** Every bit of x is one of y's. */
  predicate Within(x: bv64, y: bv64) {
    x & y == x
  }

  lemma IncSame(x: bv64, y: bv64)
    requires Inc(x) == Inc(y)
    ensures x == y
  {
  }

  lemma IncFlips(x: bv64)
    ensures Odd(Inc(x)) <==> !Odd(x)
  {
  }

  lemma TwiceInc(x: bv64)
    ensures Inc(Inc(Twice(x))) == Twice(Inc(x))
  {
  }

  lemma TwiceWithin(b: bv64, x: bv64)
    requires Within(b, x)
    ensures Within(Twice(b), Twice(x))
  {
  }

  lemma WithinNotZero(b: bv64, x: bv64)
    requires Within(b, x) && b != 0
    ensures x != 0
  {
  }

  lemma OddHasOne(x: bv64)
    requires Odd(x)
    ensures Within(1, x)
  {
  }

  lemma TwiceFits(b: bv64, c: bv64)
    requires b != 0 && Within(b, Half(c))
    ensures Twice(b) != 0 && Within(Twice(b), c)
  {
  }

  lemma HalfOfFull(c: bv64)
    requires Within(Half(c), c)
    ensures Within(Half(Half(c)), Half(c))
    ensures Within(1, Half(c)) ==> Within(1, c)
  {
  }

  /** n modulo 2^64. */
  function Bits(n: nat): bv64 {
    if n == 0 then 0 else Inc(Bits(n - 1))
  }

  lemma {:induction false} BitsDouble(n: nat)
    ensures Bits(2 * n) == Twice(Bits(n))
  {
    if n > 0 {
      hide Inc, Twice;
      BitsDouble(n - 1);
      assert Bits(2 * n) == Inc(Inc(Bits(2 * (n - 1))));
      TwiceInc(Bits(n - 1));
    }
  }

  lemma {:induction false} BitsParity(n: nat)
    ensures Odd(Bits(n)) <==> n % 2 == 1
  {
    hide Inc;
    if n > 0 {
      BitsParity(n - 1);
      IncFlips(Bits(n - 1));
      hide Odd;
    }
  }

  /** x shifted left i times. */
  function Up(x: bv64, i: nat): bv64
    decreases i
  {
    if i == 0 then x else Up(Twice(x), i - 1)
  }

  lemma {:induction false} UpKeepsBits(x: bv64, b: bv64, i: nat)
    requires Within(b, x)
    ensures Within(Up(b, i), Up(x, i))
    decreases i
  {
    hide Within, Twice;
    if i > 0 {
      TwiceWithin(b, x);
      UpKeepsBits(Twice(x), Twice(b), i - 1);
    }
  }

  /** The bits that i shifts to the left do not lose. */
  function Cap(i: nat): bv64 {
    if i == 0 then 0xFFFF_FFFF_FFFF_FFFF else Half(Cap(i - 1))
  }

  lemma {:induction false} CapIsFull(i: nat)
    ensures Within(Half(Cap(i)), Cap(i))
  {
    if i > 0 {
      hide Within, Half;
      CapIsFull(i - 1);
      HalfOfFull(Cap(i - 1));
    }
  }

  lemma {:induction false} UpStays(b: bv64, i: nat)
    requires b != 0 && Within(b, Cap(i))
    ensures Up(b, i) != 0
    decreases i
  {
    hide Within, Twice, Half;
    if i > 0 {
      TwiceFits(b, Cap(i - 1));
      UpStays(Twice(b), i - 1);
    }
  }

  lemma {:induction false} OneFits(i: nat, j: nat)
    requires i <= j && Within(1, Cap(j))
    ensures Within(1, Cap(i))
    decreases j
  {
    hide Within, Half;
    if i < j {
      CapIsFull(j - 1);
      HalfOfFull(Cap(j - 1));
      OneFits(i, j - 1);
    }
  }

  lemma Cap16()
    ensures Within(1, Cap(16))
  {
    assert Cap(8) == 0x00FF_FFFF_FFFF_FFFF;
    assert Cap(16) == 0x0000_FFFF_FFFF_FFFF;
  }

  function Power(k: nat): nat {
    if k == 0 then 1 else 2 * Power(k - 1)
  }

  /** A number from 1 to 2^k - 1 does not become zero, not even shifted left 16 - k times. */
  lemma {:induction false} BitsNotZero(n: nat, k: nat)
    requires 0 < n < Power(k) && k <= 16
    ensures Up(Bits(n), 16 - k) != 0
  {
    hide Odd, Within, Twice, Bits, Cap;
    if n % 2 == 1 {
      BitsParity(n);
      OddHasOne(Bits(n));
      UpKeepsBits(Bits(n), 1, 16 - k);
      Cap16();
      OneFits(16 - k, 16);
      UpStays(1, 16 - k);
      WithinNotZero(Up(1, 16 - k), Up(Bits(n), 16 - k));
    } else {
      BitsDouble(n / 2);
      BitsNotZero(n / 2, k - 1);
    }
  }

  lemma Power16()
    ensures Power(16) == 65536
  {
    assert Power(8) == 256;
  }

  /** Different counts have different bits. */
  lemma {:induction false} BitsDiffer(n: nat, m: nat)
    requires n < m < COUNT_MOD
    ensures Bits(n) != Bits(m)
  {
    hide Inc, Power;
    if n == 0 {
      Power16();
      BitsNotZero(m, 16);
    } else {
      BitsDiffer(n - 1, m - 1);
      if Bits(n) == Bits(m) { IncSame(Bits(n - 1), Bits(m - 1)); }
    }
  }

  function Doubled(k: nat): bv64 {
    if k == 0 then 1 else Twice(Doubled(k - 1))
  }

  lemma {:induction false} BitsOfPower(k: nat)
    ensures Bits(Power(k)) == Doubled(k)
  {
    hide Twice, Inc;
    if k == 0 {
      OneBit();
    } else {
      BitsOfPower(k - 1);
      BitsDouble(Power(k - 1));
    }
  }

  lemma OneBit()
    ensures Bits(1) == 1
  {
    assert Inc(0) == 1;
  }

  lemma LastCount()
    ensures Bits(65535) == 0xFFFF
  {
    hide Power, Doubled, Inc;
    Power16();
    BitsOfPower(16);
    Doubled16();
    NextOf(0xFFFF);
    assert Bits(65536) == Inc(Bits(65535));
    IncSame(Bits(65535), 0xFFFF);
  }

  lemma Doubled16()
    ensures Doubled(16) == 0x10000
  {
    assert Doubled(8) == 0x100;
  }

  lemma NextOf(x: bv64)
    ensures Inc(x) == x + 1
    ensures x <= 0xFFFF && x != 0xFFFF ==> Inc(x) <= 0xFFFF
  {
  }

  /** A count below 2^16 fits in the field. */
  lemma {:induction false} BitsFit(n: nat)
    requires n < COUNT_MOD
    ensures Bits(n) <= 0xFFFF
  {
    hide Inc;
    if n > 0 {
      BitsFit(n - 1);
      LastCount();
      BitsDiffer(n - 1, 65535);
      NextOf(Bits(n - 1));
    }
  }

  // ----- The words of the queue

  /** Where the first k nodes are: not at null, within 48 bits, and at different places. */
  ghost predicate Addressing(addr: NodeId -> bv64, k: nat) {
    && (forall n: NodeId {:trigger addr(n)} | n < k :: 0 < addr(n) <= LOW)
    && (forall n: NodeId, m: NodeId {:trigger addr(n), addr(m)} | n < k && m < k && addr(n) == addr(m) :: n == m)
  }

  function PairOf(addr: NodeId -> bv64, w: Word): Pair {
    Pair(addr(w.ptr), Bits(w.count))
  }

  function Encode(addr: NodeId -> bv64, w: Word): bv64 {
    Pack(0, PairOf(addr, w))
  }

  /** Line 41 stores 0 for a missing successor. */
  function EncodeNext(addr: NodeId -> bv64, next: Option<Word>): bv64 {
    match next
    case None => 0
    case Some(w) => Encode(addr, w)
  }

  predicate Encodable(w: Word, k: nat) {
    w.ptr < k && w.count < COUNT_MOD
  }

  lemma PairFits(addr: NodeId -> bv64, k: nat, w: Word)
    requires Addressing(addr, k) && Encodable(w, k)
    ensures Fits(PairOf(addr, w))
  {
    hide Bits;
    BitsFit(w.count);
  }

  lemma SamePair(addr: NodeId -> bv64, k: nat, u: Word, v: Word)
    requires Addressing(addr, k) && Encodable(u, k) && Encodable(v, k)
    ensures PairOf(addr, u) == PairOf(addr, v) <==> u == v
  {
    hide Bits;
    if u.count < v.count { BitsDiffer(u.count, v.count); }
    if v.count < u.count { BitsDiffer(v.count, u.count); }
  }

  /** A CAS on encoded words succeeds exactly when the model's words are equal. */
  lemma CasComparesWords(addr: NodeId -> bv64, k: nat, u: Word, v: Word)
    requires Addressing(addr, k) && Encodable(u, k) && Encodable(v, k)
    ensures Encode(addr, u) == Encode(addr, v) <==> u == v
  {
    hide Addressing, PairOf, Pack, Fits;
    PairFits(addr, k, u);
    PairFits(addr, k, v);
    CasComparesPairs(0, 0, PairOf(addr, u), PairOf(addr, v));
    SamePair(addr, k, u, v);
  }

  /** GET_PTR on an encoded word is the node's address. */
  lemma PointerOfWord(addr: NodeId -> bv64, k: nat, w: Word)
    requires Addressing(addr, k) && Encodable(w, k)
    ensures GetPtr(Encode(addr, w)) == addr(w.ptr) && GetCount(Encode(addr, w)) == Bits(w.count)
  {
    hide Addressing, Pack, Fits, GetPtr, GetCount, Bits;
    PairFits(addr, k, w);
    UnpackPack(0, PairOf(addr, w));
  }

  /** Lines 72-74 and 79: the macros increment an encoded word exactly as Bump does, the wrap-around included. */
  lemma IncrementIsBump(addr: NodeId -> bv64, k: nat, w: Word)
    requires Addressing(addr, k) && Encodable(w, k)
    ensures Incremented(Encode(addr, w)) == Encode(addr, Bump(w))
  {
    hide Addressing, GetPtr, GetCount, Bits, Bump, Encode, Encodable, Incremented, NextCount;
    BumpIsEncodable(w, k);
    PointerOfWord(addr, k, w);
    PointerOfWord(addr, k, Bump(w));
    IncrementKeepsPtr(Encode(addr, w));
    CountOfBump(w, k);
    SameWord(Incremented(Encode(addr, w)), Encode(addr, Bump(w)));
  }

  lemma BumpIsEncodable(w: Word, k: nat)
    requires Encodable(w, k)
    ensures Encodable(Bump(w), k) && Bump(w).ptr == w.ptr
  {
  }

  lemma CountOfBump(w: Word, k: nat)
    requires Encodable(w, k)
    ensures Bits(Bump(w).count) == NextCount(Bits(w.count))
  {
    hide Bits, Inc;
    LastCount();
    if w.count == 65535 {
      assert Bits(0) == 0 by { ZeroBits(); }
    } else {
      BitsDiffer(w.count, 65535);
      NextBits(w.count);
      NextOf(Bits(w.count));
    }
  }

  lemma ZeroBits()
    ensures Bits(0) == 0
  {
  }

  lemma NextBits(n: nat)
    ensures Bits(n + 1) == Inc(Bits(n))
  {
  }

  lemma SameWord(x: bv64, y: bv64)
    requires Unpack(x) == Unpack(y)
    ensures x == y
  {
    hide Pack, Unpack;
    PackUnpack(0, x);
    PackUnpack(0, y);
  }

  /** Lines 140-141: what the macros build in a variable that held anything is the word of a new node. */
  lemma NewWord(garbage: bv64, addr: NodeId -> bv64, k: nat, n: NodeId)
    requires Addressing(addr, k) && n < k
    ensures Pack(garbage, Pair(addr(n), 1)) == Encode(addr, Word(n, 1))
  {
    hide Addressing, Pack, Fits, Bits;
    OneBit();
    PairFits(addr, k, Word(n, 1));
    CasComparesPairs(garbage, 0, PairOf(addr, Word(n, 1)), PairOf(addr, Word(n, 1)));
  }

  /** The CAS on `next` (lines 152-153 and 169-170) finds 0 exactly when the node has no successor. */
  lemma NullMeansNoSuccessor(addr: NodeId -> bv64, k: nat, next: Option<Word>)
    requires Addressing(addr, k) && (next.Some? ==> Encodable(next.value, k) && next.value.count == 1)
    ensures EncodeNext(addr, next) == 0 <==> next.None?
  {
    hide Addressing, Pack, GetPtr, GetCount, Bits, Encode;
    if next.Some? {
      OneBit();
      PointerOfWord(addr, k, next.value);
      NullIsNoWord(Encode(addr, next.value));
    }
  }

  // ----- Every word of every run

  /** Every word that a run ever stores in `head`, `tail` or a linked `next` can be encoded, so the words of the model
      and the packed words of the source go through a run in step. */
  lemma RunWordsFit(cfg: Config, run: seq<State>, i: nat, j: nat)
    requires Run(cfg, run) && i < |run| && j < |run[i].chain|
    ensures Encodable(run[i].head, |run[i].nodes|) && Encodable(run[i].tail, |run[i].nodes|)
    ensures run[i].chain[j] < |run[i].nodes|
    ensures var next := run[i].nodes[run[i].chain[j]].next;
            next.Some? ==> Encodable(next.value, |run[i].nodes|) && next.value.count == 1
  {
    hide Run, Inv, Team;
    RunInv(cfg, run, i);
    InvChained(cfg, run[i]);
    TailCountIsExact(cfg, run, i);
  }

  /** A CAS on `tail` or `head` with a word loaded at an earlier or later moment of the run: the packed words are equal
      if and only if the model's are. */
  lemma CasInARun(cfg: Config, run: seq<State>, i: nat, j: nat, addr: NodeId -> bv64, k: nat)
    requires Run(cfg, run) && i < |run| && j < |run| && Addressing(addr, k)
    requires |run[i].nodes| <= k && |run[j].nodes| <= k
    ensures Encode(addr, run[i].tail) == Encode(addr, run[j].tail) <==> run[i].tail == run[j].tail
    ensures Encode(addr, run[i].head) == Encode(addr, run[j].head) <==> run[i].head == run[j].head
  {
    hide Run, Addressing, Encode;
    SomeLink(cfg, run, i);
    SomeLink(cfg, run, j);
    CasComparesWords(addr, k, run[i].tail, run[j].tail);
    CasComparesWords(addr, k, run[i].head, run[j].head);
  }

  lemma SomeLink(cfg: Config, run: seq<State>, i: nat)
    requires Run(cfg, run) && i < |run|
    ensures Encodable(run[i].head, |run[i].nodes|) && Encodable(run[i].tail, |run[i].nodes|)
  {
    hide Run, Inv, Team;
    RunInv(cfg, run, i);
    InvChained(cfg, run[i]);
    assert 0 < |run[i].chain|;
    hide Chained;
    RunWordsFit(cfg, run, i, 0);
  }
}
