/**
  Grain ownership by rendezvous hashing: FNV-1a over name and address, murmur3's finalizer, and
  the choice of the highest score with the smaller address on a tie.
*/
module Rendezvous {
  import opened Snowflake

  type Bytes = seq<bv8>

  const TWO32 := 0x1_0000_0000

  /** A 32-bit word of hash state; arithmetic on it is modulo 2^32. */
  type Word = h: nat | h < TWO32

  const FNV_OFFSET: Word := 2166136261
  const FNV_PRIME: Word := 16777619

  // ------------------------------------------------------------------ FNV-1a

  function Val(x: bv8): nat { x as nat }

  function XorBytes(x: bv8, y: bv8): nat { (x ^ y) as nat }

  /** Exclusive or with an octet, which touches the low eight bits only. */
  function XorOctet(h: Word, b: bv8): nat { h - h % 256 + XorBytes((h % 256) as bv8, b) }

  /** One octet: xor it in, then multiply by the prime. */
  function Octet(h: Word, b: bv8): Word { XorOctet(h, b) * FNV_PRIME % TWO32 }

  /** FNV-1a of section 2 of draft-eastlake-fnv: the offset basis, then every octet in turn. */
  function Fnv1a(s: Bytes): Word {
    if s == [] then FNV_OFFSET else Octet(Fnv1a(s[..|s| - 1]), s[|s| - 1])
  }

  /** The hash resumed from a state `h`. */
  function FnvFrom(h: Word, s: Bytes): Word
    decreases s
  {
    if s == [] then h else FnvFrom(Octet(h, s[0]), s[1..])
  }

  lemma {:induction false} FnvFromConcat(h: Word, a: Bytes, b: Bytes)
    ensures FnvFrom(h, a + b) == FnvFrom(FnvFrom(h, a), b)
    decreases a
  {
    if a == [] { assert a + b == b; } else {
      assert (a + b)[1..] == a[1..] + b;
      FnvFromConcat(Octet(h, a[0]), a[1..], b);
    }
  }

  lemma {:induction false} FnvFromIsFnv1a(s: Bytes)
    ensures FnvFrom(FNV_OFFSET, s) == Fnv1a(s)
  {
    if s != [] {
      var p, last := s[..|s| - 1], [s[|s| - 1]];
      FnvFromIsFnv1a(p);
      FnvFromConcat(FNV_OFFSET, p, last);
      assert p + last == s;
      assert last[1..] == [];
    }
  }

  /** The loop of fnv32aAdd. */
  method Fnv32aAdd(h0: Word, s: Bytes) returns (h: Word)
    ensures h == FnvFrom(h0, s)
  {
    h := h0;
    for i := 0 to |s|
      invariant FnvFrom(h0, s) == FnvFrom(h, s[i..])
    {
      assert s[i..][1..] == s[i + 1..];
      h := Octet(h, s[i]);
    }
  }

  /** Hashing a prefix once and resuming it per candidate gives the hash of the concatenation. */
  method Fnv32aTwo(a: Bytes, b: Bytes) returns (h: Word)
    ensures h == Fnv1a(a + b)
  {
    h := Fnv32aAdd(FNV_OFFSET, a);
    h := Fnv32aAdd(h, b);
    FnvFromConcat(FNV_OFFSET, a, b);
    FnvFromIsFnv1a(a + b);
  }

  /** Exclusive or of two naturals, bit by bit. */
  function Xor(a: nat, b: nat): nat
    decreases a + b
  {
    if a == 0 && b == 0 then 0 else 2 * Xor(a / 2, b / 2) + (if a % 2 == b % 2 then 0 else 1)
  }

  lemma {:induction false} XorWithZero(a: nat)
    ensures Xor(a, 0) == a
  {
    if a > 0 { XorWithZero(a / 2); }
  }

  function Half(x: bv8): bv8 { x >> 1 }

  lemma HalfVal(x: bv8)
    ensures Val(Half(x)) == Val(x) / 2
  {
  }

  lemma LowVal(x: bv8)
    ensures Val(x) % 2 == (x & 1) as nat
  {
  }

  lemma XorHalves(x: bv8, y: bv8)
    ensures XorBytes(x, y) == 2 * XorBytes(Half(x), Half(y)) + ((x ^ y) & 1) as nat
  {
  }

  lemma LowDiffers(x: bv8, y: bv8)
    ensures ((x ^ y) & 1) as nat == if Val(x) % 2 == Val(y) % 2 then 0 else 1
  {
    LowVal(x);
    LowVal(y);
    assert ((x ^ y) & 1) == (if x & 1 == y & 1 then 0 else 1);
    assert (x & 1 == 0 || x & 1 == 1) && (y & 1 == 0 || y & 1 == 1);
  }

  lemma XorZeros(x: bv8, y: bv8)
    requires Val(x) == 0 && Val(y) == 0
    ensures XorBytes(x, y) == 0
  {
    assert x == 0 && y == 0;
    assert x ^ y == 0;
  }

  lemma {:induction false} XorOfOctets(x: bv8, y: bv8, a: nat, b: nat)
    requires Val(x) == a && Val(y) == b
    ensures Xor(a, b) == XorBytes(x, y)
    decreases a + b
  {
    if a == 0 && b == 0 {
      XorZeros(x, y);
    } else {
      HalfVal(x);
      HalfVal(y);
      XorHalves(x, y);
      LowDiffers(x, y);
      XorOfOctets(Half(x), Half(y), a / 2, b / 2);
    }
  }

  lemma {:induction false} XorKeepsHigh(a: nat, b: nat, k: nat)
    requires b < Pow2(k)
    ensures Xor(a, b) == a - a % Pow2(k) + Xor(a % Pow2(k), b)
    decreases k
  {
    var m := Pow2(k);
    if k == 0 {
      assert a % m == 0;
      XorWithZero(a);
    } else {
      ModStep(a, Pow2(k - 1));
      XorKeepsHigh(a / 2, b / 2, k - 1);
      var low := a % m;
      assert low / 2 == a / 2 % Pow2(k - 1) && low % 2 == a % 2;
    }
  }

  lemma OctetOfNat(x: nat)
    requires x < 256
    ensures Val(x as bv8) == x
  {
  }

  lemma XorByOctet(h: Word, b: bv8)
    ensures Xor(h, Val(b)) == XorOctet(h, b)
  {
    assert Pow2(8) == 256;
    XorKeepsHigh(h, Val(b), 8);
    OctetOfNat(h % 256);
    XorOfOctets((h % 256) as bv8, b, h % 256, Val(b));
  }

  /** What one octet does, on naturals: exclusive or, then the prime's multiple modulo 2^32. */
  lemma OctetIsXorThenMultiply(h: Word, b: bv8)
    ensures Octet(h, b) == Xor(h, Val(b)) * 16777619 % 0x1_0000_0000
  {
    XorByOctet(h, b);
  }

  /** An octet worked out: c is the low octet of h, and d the exclusive or with b. */
  lemma OctetIs(h: Word, c: bv8, b: bv8, d: nat, r: Word)
    requires Val(c) == h % 256 && XorBytes(c, b) == d && (h - h % 256 + d) * 16777619 % 0x1_0000_0000 == r
    ensures Octet(h, b) == r
  {
    assert (h % 256) as bv8 == c;
  }

  lemma FnvNext(h: Word, s: Bytes, i: nat, r: Word)
    requires i < |s| && Octet(h, s[i]) == r
    ensures FnvFrom(h, s[i..]) == FnvFrom(r, s[i + 1..])
  {
    assert s[i..][1..] == s[i + 1..];
  }

  /** The published values of the hash for "", "a" and "foobar". */
  lemma EmptyVector()
    ensures Fnv1a([]) == 0x811c9dc5
  {
  }

  lemma LetterOctet()
    ensures Octet(0x811c9dc5, 0x61) == 0xe40c292c
  {
    OctetIs(0x811c9dc5, 0xc5, 0x61, 0xa4, 0xe40c292c);
  }

  lemma LetterVector(s: Bytes)
    requires s == [0x61]
    ensures Fnv1a(s) == 0xe40c292c
  {
    FnvFromIsFnv1a(s);
    LetterOctet();
    assert s[0..] == s;
    FnvNext(0x811c9dc5, s, 0, 0xe40c292c);
  }

  lemma FirstOctets()
    ensures Octet(0x811c9dc5, 0x66) == 0xe30c2799 && Octet(0xe30c2799, 0x6f) == 0x6222e842 && Octet(0x6222e842, 0x6f) == 0xa9f37ed7
  {
    OctetIs(0x811c9dc5, 0xc5, 0x66, 0xa3, 0xe30c2799);
    OctetIs(0xe30c2799, 0x99, 0x6f, 0xf6, 0x6222e842);
    OctetIs(0x6222e842, 0x42, 0x6f, 0x2d, 0xa9f37ed7);
  }

  lemma LastOctets()
    ensures Octet(0xa9f37ed7, 0x62) == 0x3f5076ef && Octet(0x3f5076ef, 0x61) == 0x39aaa18a && Octet(0x39aaa18a, 0x72) == 0xbf9cf968
  {
    OctetIs(0xa9f37ed7, 0xd7, 0x62, 0xb5, 0x3f5076ef);
    OctetIs(0x3f5076ef, 0xef, 0x61, 0x8e, 0x39aaa18a);
    OctetIs(0x39aaa18a, 0x8a, 0x72, 0xf8, 0xbf9cf968);
  }

  lemma WordVector(s: Bytes)
    requires s == [0x66, 0x6f, 0x6f, 0x62, 0x61, 0x72]
    ensures Fnv1a(s) == 0xbf9cf968
  {
    FnvFromIsFnv1a(s);
    FirstOctets();
    LastOctets();
    assert s[0..] == s;
    FnvNext(0x811c9dc5, s, 0, 0xe30c2799);
    FnvNext(0xe30c2799, s, 1, 0x6222e842);
    FnvNext(0x6222e842, s, 2, 0xa9f37ed7);
    FnvNext(0xa9f37ed7, s, 3, 0x3f5076ef);
    FnvNext(0x3f5076ef, s, 4, 0x39aaa18a);
    FnvNext(0x39aaa18a, s, 5, 0xbf9cf968);
  }

  // ------------------------------------------------------------------ fmix32

  function Fold16(h: bv32): bv32 { h ^ (h >> 16) }
  function Fold13(h: bv32): bv32 { h ^ (h >> 13) }
  function Spread1(h: bv32): bv32 { h * 0x85ebca6b }
  function Spread2(h: bv32): bv32 { h * 0xc2b2ae35 }

  /** The five updates of murmur3's finalizer. */
  function Fmix32(h: bv32): bv32 { Fold16(Spread2(Fold13(Spread1(Fold16(h))))) }

  function Unfold13(h: bv32): bv32 { h ^ (h >> 13) ^ (h >> 26) }
  function Unspread1(h: bv32): bv32 { h * 0xa5cb9243 }
  function Unspread2(h: bv32): bv32 { h * 0x7ed1b41d }

  /** The same updates undone in reverse order. */
  function Unmix32(h: bv32): bv32 { Fold16(Unspread1(Unfold13(Unspread2(Fold16(h))))) }

  lemma FoldsUndo(h: bv32)
    ensures Fold16(Fold16(h)) == h && Unfold13(Fold13(h)) == h && Fold13(Unfold13(h)) == h
  {
    assert Fold16(h ^ (h >> 16)) == h;
    assert Unfold13(h ^ (h >> 13)) == h;
    assert Fold13(h ^ (h >> 13) ^ (h >> 26)) == h;
  }

  /** The multipliers are odd, so they have inverses modulo 2^32. */
  lemma SpreadsUndo(h: bv32)
    ensures Unspread1(Spread1(h)) == h && Spread1(Unspread1(h)) == h
    ensures Unspread2(Spread2(h)) == h && Spread2(Unspread2(h)) == h
  {
    assert Unspread1(h * 0x85ebca6b) == h && Spread1(h * 0xa5cb9243) == h;
    assert Unspread2(h * 0xc2b2ae35) == h && Spread2(h * 0x7ed1b41d) == h;
  }

  /** Values of murmur3's finalizer; that of 1 is the published hash of the empty key with seed 1. */
  lemma FmixVectors()
    ensures Fmix32(0) == 0 && Fmix32(1) == 0x514e28b7 && Fmix32(2) == 0x30f4c306
    ensures Fmix32(0x80000000) == 0x6d3c65a0 && Fmix32(0xffffffff) == 0x81f16f39
  {
  }

  lemma UnmixUndoesFmix(h: bv32)
    ensures Unmix32(Fmix32(h)) == h
  {
    var a := Fold16(h);
    var b := Spread1(a);
    var c := Fold13(b);
    var d := Spread2(c);
    FoldsUndo(d);
    SpreadsUndo(c);
    FoldsUndo(b);
    SpreadsUndo(a);
    FoldsUndo(h);
  }

  lemma FmixUndoesUnmix(h: bv32)
    ensures Fmix32(Unmix32(h)) == h
  {
    var d := Fold16(h);
    var c := Unspread2(d);
    var b := Unfold13(c);
    var a := Unspread1(b);
    FoldsUndo(a);
    SpreadsUndo(b);
    FoldsUndo(c);
    SpreadsUndo(d);
    FoldsUndo(h);
  }

  /** The finalizer is a bijection on 32-bit words, so it adds no ties: two scores are equal exactly
      when the two hashes are, and every word is a score of some hash. */
  lemma Fmix32AddsNoTies(a: bv32, b: bv32)
    ensures Fmix32(a) == Fmix32(b) <==> a == b
    ensures exists h :: Fmix32(h) == a
  {
    UnmixUndoesFmix(a);
    UnmixUndoesFmix(b);
    FmixUndoesUnmix(a);
  }

  // ------------------------------------------------------------------ order on candidates

  /** Go's order on strings: bytewise, a proper prefix first. */
  predicate Less(a: Bytes, b: Bytes) {
    if a == [] then b != []
    else b != [] && ((a[0] as nat) < (b[0] as nat) || (a[0] == b[0] && Less(a[1..], b[1..])))
  }

  lemma {:induction false} LessIrreflexive(a: Bytes)
    ensures !Less(a, a)
  {
    if a != [] { LessIrreflexive(a[1..]); }
  }

  lemma {:induction false} LessTransitive(a: Bytes, b: Bytes, c: Bytes)
    requires Less(a, b) && Less(b, c)
    ensures Less(a, c)
  {
    if a != [] && a[0] == b[0] && b[0] == c[0] { LessTransitive(a[1..], b[1..], c[1..]); }
  }

  lemma {:induction false} LessTotal(a: Bytes, b: Bytes)
    ensures a == b || Less(a, b) || Less(b, a)
  {
    if a != [] && b != [] && a[0] == b[0] {
      LessTotal(a[1..], b[1..]);
      assert a == [a[0]] + a[1..] && b == [b[0]] + b[1..];
    }
  }

  /** The finalizer on a hash, read as a number. */
  function Mixed(h: Word): nat { Fmix32(h as bv32) as nat }

  function Score(name: Bytes, addr: Bytes): nat { Mixed(Fnv1a(name + addr)) }

  /** One score worked out: hash, then finalizer. */
  lemma ScoreVector(name: Bytes, addr: Bytes)
    requires name + addr == [0x61]
    ensures Score(name, addr) == 0x1a80b1b3
  {
    LetterVector(name + addr);
  }

  /** `a` is preferred to `b`: the higher score, then the smaller address. */
  predicate Beats(name: Bytes, a: Bytes, b: Bytes) {
    Score(name, a) > Score(name, b) || (Score(name, a) == Score(name, b) && Less(a, b))
  }

  lemma BeatsIsStrictTotalOrder(name: Bytes, a: Bytes, b: Bytes, c: Bytes)
    ensures !Beats(name, a, a)
    ensures Beats(name, a, b) && Beats(name, b, c) ==> Beats(name, a, c)
    ensures a == b || Beats(name, a, b) || Beats(name, b, a)
  {
    LessIrreflexive(a);
    LessTotal(a, b);
    if Less(a, b) && Less(b, c) { LessTransitive(a, b, c); }
  }

  lemma BeatsTransitive(name: Bytes, a: Bytes, b: Bytes, c: Bytes)
    requires Beats(name, a, b) && Beats(name, b, c)
    ensures Beats(name, a, c)
  {
    BeatsIsStrictTotalOrder(name, a, b, c);
  }

  // ------------------------------------------------------------------ the choice

  datatype Node = Node(address: Bytes, kinds: seq<Bytes>)

  /** Addresses that can own a grain of this kind. */
  function Eligible(nodes: seq<Node>, kind: Bytes): set<Bytes> {
    set n | n in nodes && kind in n.kinds && n.address != [] :: n.address
  }

  /** The owner: the candidate that beats every other, or the empty address when there is none. */
  ghost predicate IsOwner(candidates: set<Bytes>, name: Bytes, addr: Bytes) {
    if candidates == {} then addr == []
    else addr in candidates && forall b :: b in candidates && b != addr ==> Beats(name, addr, b)
  }

  lemma OwnerIsUnique(candidates: set<Bytes>, name: Bytes, a: Bytes, b: Bytes)
    requires IsOwner(candidates, name, a) && IsOwner(candidates, name, b)
    ensures a == b
  {
    BeatsIsStrictTotalOrder(name, a, b, a);
  }

  /** The state of the scan: nothing chosen yet is the empty address with score 0. */
  ghost predicate ScanOk(candidates: set<Bytes>, name: Bytes, score: nat, addr: Bytes) {
    && IsOwner(candidates, name, addr)
    && (addr == [] ==> candidates == {})
    && score == if addr == [] then 0 else Score(name, addr)
  }

  lemma ScanStep(candidates: set<Bytes>, name: Bytes, score: nat, addr: Bytes, b: Bytes)
    requires ScanOk(candidates, name, score, addr) && b != []
    ensures var wins := Score(name, b) > score || (Score(name, b) == score && (addr == [] || Less(b, addr)));
            if wins then ScanOk(candidates + {b}, name, Score(name, b), b) else ScanOk(candidates + {b}, name, score, addr)
  {
    forall c ensures Beats(name, b, addr) && Beats(name, addr, c) ==> Beats(name, b, c) {
      BeatsIsStrictTotalOrder(name, b, addr, c);
    }
    BeatsIsStrictTotalOrder(name, addr, b, b);
  }

  lemma EligibleStep(nodes: seq<Node>, kind: Bytes, i: nat)
    requires i < |nodes|
    ensures var n := nodes[i];
            Eligible(nodes[..i + 1], kind)
            == Eligible(nodes[..i], kind) + (if kind in n.kinds && n.address != [] then {n.address} else {})
  {
    assert nodes[..i + 1] == nodes[..i] + [nodes[i]];
  }

  /** The score of one candidate, from the hash of the name resumed with the address. */
  method ScoreFrom(nameHash: Word, name: Bytes, address: Bytes) returns (score: nat)
    requires nameHash == FnvFrom(FNV_OFFSET, name)
    ensures score == Score(name, address)
  {
    var h := Fnv32aAdd(nameHash, address);
    FnvFromConcat(FNV_OFFSET, name, address);
    FnvFromIsFnv1a(name + address);
    score := Mixed(h);
  }

  /** The single pass of CalcAddrByKind8Name finds the owner among the eligible addresses. */
  method CalcAddrByKind8Name(nodes: seq<Node>, kind: Bytes, name: Bytes) returns (maxAddr: Bytes)
    ensures IsOwner(Eligible(nodes, kind), name, maxAddr)
  {
    var nameHash := Fnv32aAdd(FNV_OFFSET, name);
    var maxScore: nat := 0;
    maxAddr := [];
    for i := 0 to |nodes|
      invariant ScanOk(Eligible(nodes[..i], kind), name, maxScore, maxAddr)
    {
      var node := nodes[i];
      EligibleStep(nodes, kind, i);
      if kind in node.kinds && node.address != [] {
        var score := ScoreFrom(nameHash, name, node.address);
        ScanStep(Eligible(nodes[..i], kind), name, maxScore, maxAddr, node.address);
        if score > maxScore || (score == maxScore && (maxAddr == [] || Less(node.address, maxAddr))) {
          maxScore := score;
          maxAddr := node.address;
        }
      }
    }
    assert nodes[..|nodes|] == nodes;
  }

  // ------------------------------------------------------------------ what the choice promises

  lemma {:induction false} OwnerExists(candidates: set<Bytes>, name: Bytes)
    requires [] !in candidates
    ensures exists a :: IsOwner(candidates, name, a)
  {
    if candidates == {} {
      assert IsOwner(candidates, name, []);
    } else {
      var b :| b in candidates;
      var rest := candidates - {b};
      OwnerExists(rest, name);
      var a :| IsOwner(rest, name, a);
      ScanStep(rest, name, if a == [] then 0 else Score(name, a), a, b);
      assert rest + {b} == candidates;
    }
  }

  /** The owner as a function of the candidate set, and so independent of the order and of
      duplicates in the slice. */
  ghost function OwnerOf(candidates: set<Bytes>, name: Bytes): (a: Bytes)
    requires [] !in candidates
    ensures IsOwner(candidates, name, a)
  {
    OwnerExists(candidates, name);
    var a :| IsOwner(candidates, name, a);
    a
  }

  lemma OwnerBeats(candidates: set<Bytes>, name: Bytes, b: Bytes)
    requires [] !in candidates && b in candidates && b != OwnerOf(candidates, name)
    ensures Beats(name, OwnerOf(candidates, name), b)
  {
  }

  /** Two views that list the same eligible addresses, in any order and multiplicity, agree. */
  lemma SameSetSameOwner(xs: seq<Node>, ys: seq<Node>, kind: Bytes, name: Bytes, a: Bytes, b: Bytes)
    requires Eligible(xs, kind) == Eligible(ys, kind)
    requires IsOwner(Eligible(xs, kind), name, a) && IsOwner(Eligible(ys, kind), name, b)
    ensures a == b
  {
    OwnerIsUnique(Eligible(xs, kind), name, a, b);
  }

  /** Removing a node that is not the owner moves nothing. */
  lemma RemovalKeepsOwner(candidates: set<Bytes>, name: Bytes, gone: Bytes)
    requires [] !in candidates && gone != OwnerOf(candidates, name)
    ensures OwnerOf(candidates - {gone}, name) == OwnerOf(candidates, name)
  {
    var a := OwnerOf(candidates, name);
    if gone in candidates {
      assert a in candidates - {gone};
      assert IsOwner(candidates - {gone}, name, a);
    } else {
      assert candidates - {gone} == candidates;
    }
    OwnerIsUnique(candidates - {gone}, name, OwnerOf(candidates - {gone}, name), a);
  }

  /** Adding a node moves a grain only to that node. */
  lemma AdditionMovesOnlyToNewNode(candidates: set<Bytes>, name: Bytes, added: Bytes)
    requires [] !in candidates && added != []
    ensures OwnerOf(candidates + {added}, name) in {OwnerOf(candidates, name), added}
  {
    var b := OwnerOf(candidates + {added}, name);
    if b != added && added !in candidates {
      RemovalKeepsOwner(candidates + {added}, name, added);
      assert candidates + {added} - {added} == candidates;
    } else if added in candidates {
      assert candidates + {added} == candidates;
    }
  }
}
