/** Signature bytes of misc/helper.go: 32 bytes of R, 32 bytes of low S and, for the public chains,
    one recovery byte, all big endian. Low S is rule 2 of the specification of EIP-2; the recovery id
    is that of the specification of EIP-155. */
module Signature {
  import opened Common

  type byte = b: int | 0 <= b < 256

  /** The order of secp256k1. */
  const N: int := 0xFFFFFFFFFFFFFFFFFFFFFFFFFFFFFFFEBAAEDCE6AF48A03BBFD25E8CD0364141

  function Pow256(k: nat): int {
    if k == 0 then 1 else 256 * Pow256(k - 1)
  }

  /** big.Int.SetBytes. */
  function Value(s: seq<byte>): nat {
    if s == [] then 0 else 256 * Value(s[..|s| - 1]) + s[|s| - 1]
  }

  /** big.Int.Bytes: big endian without leading zeros; the empty string for zero. */
  function Bytes(n: nat): (s: seq<byte>)
    ensures Value(s) == n
    ensures s == [] || s[0] != 0
  {
    if n == 0 then []
    else
      var s := Bytes(n / 256) + [n % 256];
      assert s[..|s| - 1] == Bytes(n / 256);
      s
  }

  function Zeros(k: nat): seq<byte> {
    seq(k, _ => 0)
  }

  function Pad(s: seq<byte>, k: nat): seq<byte>
    requires |s| <= k
  {
    Zeros(k - |s|) + s
  }

  lemma {:induction false} PadValue(s: seq<byte>, z: nat)
    ensures Value(Zeros(z) + s) == Value(s)
  {
    if s == [] {
      assert Zeros(z) + s == Zeros(z);
      if z != 0 {
        assert Zeros(z)[..z - 1] == Zeros(z - 1) + [];
        PadValue([], z - 1);
      }
    } else {
      assert (Zeros(z) + s)[..z + |s| - 1] == Zeros(z) + s[..|s| - 1];
      PadValue(s[..|s| - 1], z);
    }
  }

  lemma {:induction false} ValueBound(s: seq<byte>)
    ensures Value(s) < Pow256(|s|)
    ensures s != [] && s[0] != 0 ==> Value(s) >= Pow256(|s| - 1)
  {
    if s != [] {
      ValueBound(s[..|s| - 1]);
    }
  }

  lemma {:induction false} Pow256Mono(i: nat, j: nat)
    requires i <= j
    ensures 1 <= Pow256(i) <= Pow256(j)
  {
    if j != 0 {
      if i < j {
        Pow256Mono(i, j - 1);
      } else {
        Pow256Mono(i - 1, j - 1);
      }
    }
  }

  /** A number needs at most k bytes exactly when it is below 256^k. */
  lemma BytesFit(n: nat, k: nat)
    ensures |Bytes(n)| <= k <==> n < Pow256(k)
  {
    ValueBound(Bytes(n));
    if |Bytes(n)| <= k {
      Pow256Mono(|Bytes(n)|, k);
    } else {
      Pow256Mono(k, |Bytes(n)| - 1);
    }
  }

  /** S moved to the lower half of the group. */
  function LowS(s: nat): int {
    if s > N / 2 then N - s else s
  }

  /** copy(buf[at:at+len(src)], src). */
  method Copy(buf: array<byte>, at: nat, src: seq<byte>)
    requires at + |src| <= buf.Length
    modifies buf
    ensures buf[..] == old(buf[..])[..at] + src + old(buf[..])[at + |src|..]
  {
    ghost var was := buf[..];
    for i := 0 to |src|
      invariant forall j :: 0 <= j < at ==> buf[j] == old(buf[j])
      invariant forall j :: 0 <= j < i ==> buf[at + j] == src[j]
      invariant forall j :: at + i <= j < buf.Length ==> buf[j] == old(buf[j])
    {
      buf[at + i] := src[i];
    }
    Spliced(was, buf[..], at, src);
  }

  lemma Spliced(s: seq<byte>, t: seq<byte>, at: nat, src: seq<byte>)
    requires |s| == |t| && at + |src| <= |s|
    requires forall j :: 0 <= j < at ==> t[j] == s[j]
    requires forall j :: 0 <= j < |src| ==> t[at + j] == src[j]
    requires forall j :: at + |src| <= j < |s| ==> t[j] == s[j]
    ensures t == s[..at] + src + s[at + |src|..]
  {
    forall j | 0 <= j < |t|
      ensures t[j] == (s[..at] + src + s[at + |src|..])[j]
    {
      if at <= j < at + |src| {
        assert t[at + (j - at)] == src[j - at];
      }
    }
  }

  /** Left-padded R and S, the first 64 bytes of every signature. */
  function Halves(r: nat, s: nat): seq<byte>
    requires |Bytes(r)| <= 32 && |Bytes(s)| <= 32
  {
    Pad(Bytes(r), 32) + Pad(Bytes(s), 32)
  }

  method WriteHalves(buf: array<byte>, rBytes: seq<byte>, sBytes: seq<byte>)
    requires 64 <= buf.Length <= 65 && |rBytes| <= 32 && |sBytes| <= 32
    requires buf[..] == Zeros(buf.Length)
    modifies buf
    ensures buf[..] == (Pad(rBytes, 32) + Pad(sBytes, 32)) + Zeros(buf.Length - 64)
  {
    ghost var zeros := buf[..];
    Copy(buf, 32 - |rBytes|, rBytes);
    ghost var first := buf[..];
    Copy(buf, 64 - |sBytes|, sBytes);
    BothPlaced(zeros, first, rBytes, sBytes);
  }

  lemma BothPlaced(zeros: seq<byte>, first: seq<byte>, rBytes: seq<byte>, sBytes: seq<byte>)
    requires |zeros| >= 64 && zeros == Zeros(|zeros|) && |rBytes| <= 32 && |sBytes| <= 32
    requires first == zeros[..32 - |rBytes|] + rBytes + zeros[32..]
    ensures first[..64 - |sBytes|] + sBytes + first[64..] == (Pad(rBytes, 32) + Pad(sBytes, 32)) + Zeros(|zeros| - 64)
  {
    var none: seq<byte> := [];
    assert zeros == none + Zeros(|zeros|);
    assert none + Pad(rBytes, 32) == Pad(rBytes, 32) && |Pad(rBytes, 32)| == 32;
    PadPlaced(zeros, none, rBytes, |zeros|);
    assert first == Pad(rBytes, 32) + Zeros(|zeros| - 32);
    PadPlaced(first, Pad(rBytes, 32), sBytes, |zeros| - 32);
  }

  /** Copying into zeros at the end of the next 32 places pads. */
  lemma PadPlaced(s: seq<byte>, front: seq<byte>, src: seq<byte>, z: nat)
    requires |src| <= 32 <= z && s == front + Zeros(z)
    ensures var at := |front| + 32 - |src|;
            s[..at] + src + s[at + |src|..] == front + Pad(src, 32) + Zeros(z - 32)
  {
    var at := |front| + 32 - |src|;
    assert s[..at] == front + Zeros(32 - |src|);
    assert s[at + |src|..] == Zeros(z - 32);
  }

  /** SerializeSig on the decoded numbers. The slice bounds of the copies panic when R or S needs more
      than 32 bytes, or V more than 65. */
  method SerializeSig(r: nat, s: nat, v: nat, needRecovery: bool) returns (sig: Option<seq<byte>>)
    ensures sig.Some? <==> r < Pow256(32) && Abs(LowS(s)) < Pow256(32) && (needRecovery ==> v < Pow256(65))
    ensures sig.Some? ==> |Bytes(r)| <= 32 && |Bytes(Abs(LowS(s)))| <= 32
    ensures sig.Some? && !needRecovery ==> sig.value == Halves(r, Abs(LowS(s)))
    ensures sig.Some? && needRecovery ==>
      |Bytes(v)| <= 65 && |Halves(r, Abs(LowS(s)))| == 64 && sig.value == WithRecovery(Halves(r, Abs(LowS(s))), v)
    ensures sig.Some? && needRecovery && v < 256 ==> sig.value == Halves(r, Abs(LowS(s))) + [v]
  {
    var halfOrder := N / 2;
    var low := s as int;
    if low > halfOrder {
      low := N - low;
    }
    var rBytes, sBytes, vBytes := Bytes(r), Bytes(Abs(low)), Bytes(v);
    BytesFit(r, 32);
    BytesFit(Abs(low), 32);
    BytesFit(v, 65);
    if |rBytes| > 32 || |sBytes| > 32 || (needRecovery && |vBytes| > 65) {
      return None;
    }
    var sigBytes := new byte[if needRecovery then 65 else 64](_ => 0);
    assert sigBytes[..] == Zeros(sigBytes.Length);
    WriteHalves(sigBytes, rBytes, sBytes);
    if needRecovery {
      assert Zeros(1) == [0];
      WriteRecovery(sigBytes, Halves(r, Abs(low)), v);
    } else {
      assert sigBytes[..] == Halves(r, Abs(low));
    }
    return Some(sigBytes[..]);
  }

  method WriteRecovery(buf: array<byte>, ghost halves: seq<byte>, v: nat)
    requires |halves| == 64 && buf[..] == halves + [0] && |Bytes(v)| <= 65
    modifies buf
    ensures buf[..] == WithRecovery(halves, v)
    ensures v < 256 ==> buf[..] == halves + [v]
  {
    var vBytes := Bytes(v);
    Copy(buf, 65 - |vBytes|, vBytes);
    assert buf[..] == (halves + [0])[..65 - |vBytes|] + vBytes;
    if v < 256 {
      LastByte(halves, v);
    }
  }

  /** The halves, with the recovery value written up to the end of a buffer of 65 bytes. */
  function WithRecovery(halves: seq<byte>, v: nat): seq<byte>
    requires |halves| == 64 && |Bytes(v)| <= 65
  {
    (halves + [0])[..65 - |Bytes(v)|] + Bytes(v)
  }

  lemma BytesOf(v: nat)
    requires v != 0
    ensures Bytes(v) == Bytes(v / 256) + [v % 256]
  {
  }

  lemma OneByte(v: nat)
    requires v < 256
    ensures Bytes(v) == if v == 0 then [] else [v]
  {
    if v != 0 {
      BytesOf(v);
      assert v / 256 == 0 && v % 256 == v;
      assert Bytes(0) == [];
    }
  }

  /** A recovery value of at most one byte goes to the last place. */
  lemma LastByte(halves: seq<byte>, v: nat)
    requires v < 256 && |halves| == 64
    ensures |Bytes(v)| <= 65 && WithRecovery(halves, v) == halves + [v]
  {
    OneByte(v);
  }

  lemma {:induction false} ValueConcat(a: seq<byte>, b: seq<byte>)
    ensures Value(a + b) == Value(a) * Pow256(|b|) + Value(b)
  {
    if b == [] {
      assert a + b == a;
    } else {
      var c := b[..|b| - 1];
      ValueConcat(a, c);
      assert (a + b)[..|a + b| - 1] == a + c && (a + b)[|a + b| - 1] == b[|b| - 1];
      ShiftByte(Value(a), Pow256(|c|), Value(c), b[|b| - 1]);
    }
  }

  lemma ShiftByte(a: int, p: int, c: int, d: int)
    ensures 256 * (a * p + c) + d == a * (256 * p) + (256 * c + d)
  {
  }

  lemma {:induction false} ValueInjective(a: seq<byte>, b: seq<byte>)
    requires |a| == |b|
    ensures a == b <==> Value(a) == Value(b)
  {
    if a != [] && Value(a) == Value(b) {
      ValueInjective(a[..|a| - 1], b[..|b| - 1]);
      assert a == a[..|a| - 1] + [a[|a| - 1]] && b == b[..|b| - 1] + [b[|b| - 1]];
    }
  }

  lemma LowBytes(a: seq<byte>, b: seq<byte>)
    ensures Pow256(|b|) > 0 && Value(a + b) % Pow256(|b|) == Value(b)
  {
    ValueConcat(a, b);
    ValueBound(b);
    DivisorAndRest(Value(a), Pow256(|b|), Value(b));
  }

  lemma DivisorAndRest(a: int, p: int, c: int)
    requires 0 <= c < p
    ensures (a * p + c) % p == c
  {
    var q, m := (a * p + c) / p, (a * p + c) % p;
    assert (a - q) * p == m - c;
    if a - q >= 1 {
      MulMono(1, a - q, p);
    } else if a - q <= -1 {
      MulMono(a - q, -1, p);
    }
  }

  /** A recovery value of k bytes leaves R and S readable exactly when it has one byte at most, or when
      its leading k - 1 bytes happen to be those it overwrites. */
  lemma RecoveryKeepsHalvesIff(halves: seq<byte>, v: nat)
    requires |halves| == 64 && 0 < |Bytes(v)| <= 65
    ensures Pow256(|Bytes(v)| - 1) > 0 && |WithRecovery(halves, v)| == 65
    ensures WithRecovery(halves, v)[..64] == halves <==> v / 256 == Value(halves) % Pow256(|Bytes(v)| - 1)
  {
    BytesOf(v);
    var front := 65 - |Bytes(v)|;
    var head, tail := halves[..front], halves[front..];
    assert halves == head + tail;
    assert WithRecovery(halves, v)[..64] == head + Bytes(v / 256);
    LowBytes(head, tail);
    ValueInjective(Bytes(v / 256), tail);
    if head + Bytes(v / 256) == halves {
      assert (head + Bytes(v / 256))[front..] == Bytes(v / 256);
    }
  }

  lemma HalvesDecode(r: nat, s: nat)
    requires |Bytes(r)| <= 32 && |Bytes(s)| <= 32
    ensures |Halves(r, s)| == 64
    ensures Value(Halves(r, s)[..32]) == r && Value(Halves(r, s)[32..]) == s
  {
    PadValue(Bytes(r), 32 - |Bytes(r)|);
    PadValue(Bytes(s), 32 - |Bytes(s)|);
    assert Halves(r, s)[..32] == Pad(Bytes(r), 32);
    assert Halves(r, s)[32..] == Pad(Bytes(s), 32);
  }

  /** Decoding the big-endian halves of a serialised signature gives R and the low S back, and the last
      byte is the recovery value. */
  lemma SerializedDecodes(r: nat, s: nat, v: nat, sig: seq<byte>)
    requires |Bytes(r)| <= 32 && |Bytes(s)| <= 32 && v < 256
    requires sig == Halves(r, s) || sig == Halves(r, s) + [v]
    ensures |sig| >= 64 && Value(sig[..32]) == r && Value(sig[32..64]) == s
    ensures |sig| == 65 ==> sig[64] == v
  {
    HalvesDecode(r, s);
    assert sig[..32] == Halves(r, s)[..32];
    assert sig[32..64] == Halves(r, s)[32..];
  }

  lemma LowByte(v: nat)
    ensures (v % UINT64) % 256 == v % 256
  {
  }

  /** MakeSignature on r, s and a recovery value, of which the low 8 bits are kept. */
  method MakeSignature(r: nat, s: nat, v: nat) returns (sig: Option<seq<byte>>)
    ensures sig.Some? <==> r < Pow256(32) && s < Pow256(32)
    ensures sig.Some? ==>
      |Bytes(r)| <= 32 && |Bytes(s)| <= 32 && sig.value == Halves(r, s) + [v % 256]
  {
    BytesFit(r, 32);
    BytesFit(s, 32);
    var rBytes, sBytes := Bytes(r), Bytes(s);
    if |rBytes| > 32 || |sBytes| > 32 {
      return None;
    }
    var sigBytes := new byte[65](_ => 0);
    assert sigBytes[..] == Zeros(65);
    WriteHalves(sigBytes, rBytes, sBytes);
    LowByte(v);
    sigBytes[64] := (v % UINT64) % 256;
    assert sigBytes[..] == Halves(r, s) + [(v % UINT64) % 256];
    return Some(sigBytes[..]);
  }

  /** For a signature of the curve the serialised S is the smaller of S and N - S, so it is never in
      the upper half, and it stands for the same group element up to sign. */
  lemma LowSIsMinimal(s: nat)
    requires 1 <= s < N
    ensures LowS(s) == Min(s, N - s) && 1 <= LowS(s) <= N / 2 < Pow256(32)
    ensures LowS(s) == LowS(N - s)
  {
    assert Pow256(32) > N by { Pow256Is(); }
  }

  lemma Pow256Is()
    ensures Pow256(8) == 0x1_0000_0000_0000_0000
    ensures Pow256(32) == 0x1_0000_0000_0000_0000_0000_0000_0000_0000_0000_0000_0000_0000_0000_0000_0000_0000
  {
    assert Pow256(4) == 0x1_0000_0000;
    assert Pow256(8) == 0x1_0000_0000_0000_0000;
    assert Pow256(12) == 0x1_0000_0000_0000_0000_0000_0000;
    assert Pow256(16) == 0x1_0000_0000_0000_0000_0000_0000_0000_0000;
    assert Pow256(20) == 0x1_0000_0000_0000_0000_0000_0000_0000_0000_0000_0000;
    assert Pow256(24) == 0x1_0000_0000_0000_0000_0000_0000_0000_0000_0000_0000_0000_0000;
    assert Pow256(28) == 0x1_0000_0000_0000_0000_0000_0000_0000_0000_0000_0000_0000_0000_0000_0000;
  }

  /** The bytes determine the numbers: no two (R, S) pairs share a serialisation. */
  lemma HalvesInjective(r1: nat, s1: nat, r2: nat, s2: nat)
    requires |Bytes(r1)| <= 32 && |Bytes(s1)| <= 32 && |Bytes(r2)| <= 32 && |Bytes(s2)| <= 32
    ensures Halves(r1, s1) == Halves(r2, s2) <==> r1 == r2 && s1 == s2
  {
    HalvesDecode(r1, s1);
    HalvesDecode(r2, s2);
  }

  lemma LastByteOfS(halves: seq<byte>, x: byte, y: byte)
    requires |halves| == 64
    ensures (halves[..63] + [x] + [y])[..32] == halves[..32]
    ensures (halves[..63] + [x] + [y])[32..64] == halves[32..][..31] + [x]
  {
  }

  /** So a wide value destroys S unless it agrees with it: of two bytes, the first lands on the last
      byte of S. */
  lemma WideRecoveryOverwritesS(r: nat, s: nat, v: nat)
    requires |Bytes(r)| <= 32 && |Bytes(s)| <= 32 && 256 <= v < 65536
    ensures |Halves(r, s)| == 64 && |Bytes(v)| == 2
    ensures Value(WithRecovery(Halves(r, s), v)[32..64]) == s - s % 256 + v / 256
    ensures Value(WithRecovery(Halves(r, s), v)[..32]) == r
  {
    HalvesDecode(r, s);
    BytesOf(v);
    OneByte(v / 256);
    var halves := Halves(r, s);
    var low := halves[32..];
    assert WithRecovery(halves, v) == halves[..63] + [v / 256] + [v % 256];
    LastByteOfS(halves, v / 256, v % 256);
    assert (low[..31] + [v / 256])[..31] == low[..31];
    assert s == 256 * Value(low[..31]) + low[31];
  }

  // ----- recovery id -----

  predicate IsProtectedV(v: nat) {
    v < 256 ==> v != 27 && v != 28 && v != 1 && v != 0
  }

  /** All subtractions are on 64-bit words. */
  function RecoverRecID(chainID: nat, v: nat): nat {
    var word := v % UINT64;
    if word == 0 || word == 1 then v
    else if IsProtectedV(v) then (word - 35 - 2 * chainID) % UINT64
    else (word - 27) % UINT64
  }

  /** The recovery bit of an EIP-155 signature is recovered for every 64-bit chain id, wrap-around
      included, except for the four chain ids and bits whose value 35 + 2 * chainID + y wraps to 0 or 1. */
  lemma RecoversParityIff(chainID: nat, y: nat)
    requires chainID < UINT64 && y <= 1
    ensures RecoverRecID(chainID, 35 + 2 * chainID + y) == y
            <==> !(y == 1 && chainID in {UINT64 / 2 - 18, UINT64 - 18}) && !(y == 0 && chainID in {UINT64 / 2 - 17, UINT64 - 17})
  {
    var v := 35 + 2 * chainID + y;
    var word := v % UINT64;
    assert v == UINT64 * (v / UINT64) + word;
    var k := v / UINT64;
    assert 0 <= k <= 2;
    assert word - 35 - 2 * chainID == y - UINT64 * k;
    assert (y - UINT64 * k) % UINT64 == y;
  }

  /** The recovery id undoes the offset of its kind of signature, on 64-bit words: none for a plain id, 27
      for an old signature, and 35 + 2 * chainID for one of EIP-155. */
  lemma RecoverUndoes(chainID: nat, v: nat)
    ensures v % UINT64 <= 1 ==> RecoverRecID(chainID, v) == v
    ensures v == 27 || v == 28 ==> RecoverRecID(chainID, v) + 27 == v
    ensures v % UINT64 > 1 && v != 27 && v != 28 ==>
      && 0 <= RecoverRecID(chainID, v) < UINT64
      && (RecoverRecID(chainID, v) + 35 + 2 * chainID) % UINT64 == v % UINT64
  {
    if v % UINT64 > 1 && v != 27 && v != 28 {
      AddBack(v % UINT64, 35 + 2 * chainID);
    }
  }

  lemma AddBack(word: int, offset: int)
    requires 0 <= word < UINT64
    ensures ((word - offset) % UINT64 + offset) % UINT64 == word
  {
    var q, r := (word - offset) / UINT64, (word - offset) % UINT64;
    assert r + offset == word - q * UINT64;
  }

  /** The order of the group, as its distance from 2^256. */
  lemma OrderOfTheGroup()
    ensures Pow256(32) - N == 0x1_4551_2319_50B7_5FC4_402D_A173_2FC9_BEBF
  {
    Pow256Is();
  }

  /** Signatures from before EIP-155, and plain recovery ids, give their parity too. */
  lemma RecoversUnprotected(chainID: nat, y: nat)
    requires y <= 1
    ensures RecoverRecID(chainID, 27 + y) == y && RecoverRecID(chainID, y) == y
  {
  }
}
