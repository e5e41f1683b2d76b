/**
 Access codes by rejection sampling: bytes that would favour some characters are skipped.
 */
module AccessCode {

  type Byte = b: int | 0 <= b < 256 witness 0

  const CHARSPACE := "ABCDEFGHJKMNPQRSTUVWXYZ23456789"

  /** The largest multiple of the alphabet size among the byte values. */
  function MaxValid(n: nat): nat
    requires 1 <= n <= 256
  {
    256 - 256 % n
  }

  /** The characters that a stream of bytes yields. */
  function Decode(bytes: seq<Byte>, alphabet: string): string
    requires 1 <= |alphabet| <= 256
  {
    if bytes == [] then []
    else
      var k := |bytes| - 1;
      Decode(bytes[..k], alphabet) +
      if bytes[k] < MaxValid(|alphabet|) then [alphabet[bytes[k] % |alphabet|]] else []
  }

  function Flatten(blocks: seq<seq<Byte>>): seq<Byte> {
    if blocks == [] then [] else Flatten(blocks[..|blocks| - 1]) + blocks[|blocks| - 1]
  }

  function Take(s: string, length: int): string {
    if length <= 0 then [] else if |s| <= length then s else s[..length]
  }

  lemma {:induction false} DecodeAppend(a: seq<Byte>, b: seq<Byte>, alphabet: string)
    requires 1 <= |alphabet| <= 256
    ensures Decode(a + b, alphabet) == Decode(a, alphabet) + Decode(b, alphabet)
    decreases |b|
  {
    if b == [] {
      assert a + b == a;
    } else {
      var k := |b| - 1;
      assert (a + b)[..|a + b| - 1] == a + b[..k];
      DecodeAppend(a, b[..k], alphabet);
    }
  }

  lemma {:induction false} FlattenPrefix(blocks: seq<seq<Byte>>, k: nat)
    requires k <= |blocks|
    ensures Flatten(blocks[..k]) <= Flatten(blocks)
    decreases |blocks|
  {
    if k < |blocks| {
      FlattenPrefix(blocks[..|blocks| - 1], k);
      assert blocks[..|blocks| - 1][..k] == blocks[..k];
    } else {
      assert blocks[..k] == blocks;
    }
  }

  /** What is decoded early is not changed by the bytes that follow. */
  lemma DecodePrefix(a: seq<Byte>, all: seq<Byte>, alphabet: string)
    requires 1 <= |alphabet| <= 256 && a <= all
    ensures Decode(a, alphabet) <= Decode(all, alphabet)
  {
    assert all == a + all[|a|..];
    DecodeAppend(a, all[|a|..], alphabet);
  }

  /** The inner loop: one block, read until the code is long enough. */
  method ReadBlock(out: string, block: seq<Byte>, length: int, alphabet: string) returns (after: string)
    requires 1 <= |alphabet| <= 256 && |out| < length
    ensures after == Take(out + Decode(block, alphabet), length)
  {
    after := out;
    var i := 0;
    while i < |block| && |after| < length
      invariant 0 <= i <= |block| && |after| <= length
      invariant after == out + Decode(block[..i], alphabet)
    {
      var b := block[i];
      assert block[..i + 1][..i] == block[..i];
      if b < MaxValid(|alphabet|) {
        after := after + [alphabet[b % |alphabet|]];
      }
      i := i + 1;
    }
    DecodePrefix(block[..i], block, alphabet);
    assert after <= out + Decode(block, alphabet);
    assert i == |block| ==> block[..i] == block;
  }

  /**
   The code is the first `length` characters the random stream yields, however the stream is cut into blocks;
   `complete` is false only when the given blocks do not suffice and more would be drawn.
   */
  method Generate(length: int, blocks: seq<seq<Byte>>, alphabet: string) returns (code: string, complete: bool)
    requires 1 <= |alphabet| <= 256
    ensures code == Take(Decode(Flatten(blocks), alphabet), length)
    ensures complete <==> length <= |Decode(Flatten(blocks), alphabet)|
  {
    code := [];
    var k := 0;
    while |code| < length && k < |blocks|
      invariant 0 <= k <= |blocks|
      invariant code == Take(Decode(Flatten(blocks[..k]), alphabet), length)
    {
      ghost var before := Flatten(blocks[..k]);
      code := ReadBlock(code, blocks[k], length, alphabet);
      assert blocks[..k + 1][..k] == blocks[..k];
      DecodeAppend(before, blocks[k], alphabet);
      k := k + 1;
    }
    FlattenPrefix(blocks, k);
    DecodePrefix(Flatten(blocks[..k]), Flatten(blocks), alphabet);
    assert k == |blocks| ==> blocks[..k] == blocks;
    return code, |code| >= length;
  }

  /** The alphabet of the service. */
  method AccessCode(length: int, blocks: seq<seq<Byte>>) returns (code: string, complete: bool)
    ensures code == Take(Decode(Flatten(blocks), CHARSPACE), length)
    ensures complete <==> length <= |Decode(Flatten(blocks), CHARSPACE)|
  {
    code, complete := Generate(length, blocks, CHARSPACE);
  }

  /******* No character is favoured *******/

  /** The accepted byte values that give the character at position `c`. */
  function BytesFor(n: nat, c: nat): set<int>
    requires 1 <= n <= 256
  {
    set b | 0 <= b < 256 && b < MaxValid(n) && b % n == c
  }

  lemma AtLeastOnce(d: int, n: nat)
    requires d >= 1
    ensures d * n >= n
  {
  }

  lemma DivisionIsUnique(x: int, n: nat, q: int, m: int)
    requires 0 <= m < n && x == q * n + m
    ensures x % n == m
  {
    var d := q - x / n;
    assert x == x / n * n + x % n;
    assert d * n == q * n - x / n * n;
    if d >= 1 {
      AtLeastOnce(d, n);
    } else if d <= -1 {
      AtLeastOnce(-d, n);
    }
  }

  lemma Residue(n: nat, k: nat, c: nat, b: int)
    requires c < n && k * n <= b < k * n + n
    ensures b % n == c <==> b == k * n + c
  {
    DivisionIsUnique(b, n, k, b - k * n);
  }

  lemma {:induction false} CountResidues(n: nat, k: nat, c: nat)
    requires c < n
    ensures |set b | 0 <= b < k * n && b % n == c| == k
  {
    if k > 0 {
      CountResidues(n, k - 1, c);
      var m := (k - 1) * n;
      assert k * n == m + n;
      forall b | m <= b < m + n ensures b % n == c <==> b == m + c {
        Residue(n, k - 1, c, b);
      }
      OneMoreResidue(n, m, c);
    }
  }

  lemma OneMoreResidue(n: nat, m: nat, c: nat)
    requires c < n && forall b | m <= b < m + n :: b % n == c <==> b == m + c
    ensures |set b | 0 <= b < m + n && b % n == c| == |set b | 0 <= b < m && b % n == c| + 1
  {
    var before, all := set b | 0 <= b < m && b % n == c, set b | 0 <= b < m + n && b % n == c;
    assert all == before + {m + c};
  }

  /** For every alphabet size up to 256, each position is given by exactly `256 / n` accepted byte values. */
  lemma CharactersAreEquallyLikely(n: nat, c: nat)
    requires 1 <= n <= 256 && c < n
    ensures |BytesFor(n, c)| == 256 / n
  {
    var k := 256 / n;
    assert MaxValid(n) == k * n;
    CountResidues(n, k, c);
    assert BytesFor(n, c) == set b | 0 <= b < k * n && b % n == c;
  }

  /** Of the 256 byte values, 248 are accepted, 8 for each of the 31 characters. */
  lemma EightBytesEach(c: nat)
    requires c < |CHARSPACE|
    ensures |CHARSPACE| == 31 && MaxValid(31) == 248 && |BytesFor(31, c)| == 8
    ensures forall b | b in BytesFor(31, c) :: Decode([b], CHARSPACE) == [CHARSPACE[c]]
  {
    CharactersAreEquallyLikely(31, c);
    forall b | b in BytesFor(31, c) ensures Decode([b], CHARSPACE) == [CHARSPACE[c]] {
      assert [b][..0] == [];
    }
  }

  /** A byte is skipped exactly if it gives no character at any position. */
  lemma RejectedGiveNothing(b: Byte, alphabet: string)
    requires 1 <= |alphabet| <= 256
    ensures Decode([b], alphabet) == [] <==> forall c: nat | c < |alphabet| :: b !in BytesFor(|alphabet|, c)
  {
    assert [b][..0] == [];
    var c := b % |alphabet|;
    assert b < MaxValid(|alphabet|) ==> b in BytesFor(|alphabet|, c);
  }
}
