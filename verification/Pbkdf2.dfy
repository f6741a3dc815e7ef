/** Password-based key derivation (section 5.2 of RFC 8018) over an abstract pseudorandom function
  * with 32-byte results. */
module Pbkdf2 {
  import opened Common

  type Octets = seq<Byte>

  const HASH_LEN: nat := 32
  const WORDS: nat := 0x1_0000_0000

  type Digest = d: Octets | |d| == HASH_LEN witness seq(HASH_LEN, _ => 0)

  type Prf = (Octets, Octets) -> Digest

  // ---------------------------------------------------------------- the standard

  /** A block number as four octets, the most significant first. */
  function Int4(i: nat): (r: Octets)
    requires i < WORDS
    ensures |r| == 4
  {
    [i / 0x100_0000, i / 0x1_0000 % 0x100, i / 0x100 % 0x100, i % 0x100]
  }

  /** U_j of block i. */
  function U(prf: Prf, password: Octets, salt: Octets, i: nat, j: nat): (r: Digest)
    requires i < WORDS && j > 0
    decreases j
  {
    if j == 1 then prf(password, salt + Int4(i)) else prf(password, U(prf, password, salt, i, j - 1))
  }

  function XorByte(a: Byte, b: Byte): Byte {
    ((a as bv8) ^ (b as bv8)) as int
  }

  function Xor(a: Digest, b: Digest): (r: Digest)
    ensures forall k :: 0 <= k < HASH_LEN ==> r[k] == XorByte(a[k], b[k])
  {
    seq(HASH_LEN, k requires 0 <= k < HASH_LEN => XorByte(a[k], b[k]))
  }

  /** T_i: the exclusive or of U_1 to U_c. */
  function Block(prf: Prf, password: Octets, salt: Octets, c: nat, i: nat): (r: Digest)
    requires i < WORDS && c > 0
    decreases c
  {
    if c == 1 then U(prf, password, salt, i, 1)
    else Xor(Block(prf, password, salt, c - 1, i), U(prf, password, salt, i, c))
  }

  /** T_1 to T_n, joined. */
  function Blocks(prf: Prf, password: Octets, salt: Octets, c: nat, n: nat): (r: Octets)
    requires c > 0 && n < WORDS
    ensures |r| == n * HASH_LEN
  {
    if n == 0 then [] else Blocks(prf, password, salt, c, n - 1) + Block(prf, password, salt, c, n)
  }

  /** The standard allows no longer key. */
  predicate Allowed(length: nat) {
    length <= (WORDS - 1) * HASH_LEN
  }

  function BlocksFor(length: nat): (r: nat)
    ensures r * HASH_LEN >= length && (r > 0 ==> (r - 1) * HASH_LEN < length)
  {
    (length + HASH_LEN - 1) / HASH_LEN
  }

  lemma AllowedBlocks(length: nat)
    requires Allowed(length)
    ensures BlocksFor(length) < WORDS
  {
  }

  function DerivedKey(prf: Prf, password: Octets, salt: Octets, c: nat, length: nat): (r: Octets)
    requires c > 0 && Allowed(length)
  {
    AllowedBlocks(length);
    Blocks(prf, password, salt, c, BlocksFor(length))[..length]
  }

  lemma LastBlock(n: nat, k: nat)
    requires n * HASH_LEN <= k < n * HASH_LEN + HASH_LEN
    ensures k / HASH_LEN == n && k % HASH_LEN == k - n * HASH_LEN
  {
  }

  /** Octet k of the key is octet k mod 32 of block k / 32 + 1. */
  lemma {:induction false} BlocksAt(prf: Prf, password: Octets, salt: Octets, c: nat, n: nat, k: nat)
    requires c > 0 && n < WORDS && k < n * HASH_LEN
    ensures k / HASH_LEN + 1 <= n
    ensures Blocks(prf, password, salt, c, n)[k] == Block(prf, password, salt, c, k / HASH_LEN + 1)[k % HASH_LEN]
    decreases n
  {
    hide Block;
    if k < (n - 1) * HASH_LEN {
      BlocksAt(prf, password, salt, c, n - 1, k);
    } else {
      LastBlock(n - 1, k);
    }
  }

  /** A shorter key is a prefix of a longer one. */
  lemma ShorterIsPrefix(prf: Prf, password: Octets, salt: Octets, c: nat, short: nat, long: nat)
    requires c > 0 && short <= long && Allowed(long)
    ensures DerivedKey(prf, password, salt, c, short) == DerivedKey(prf, password, salt, c, long)[..short]
  {
    hide Blocks, Block;
    var a, b := DerivedKey(prf, password, salt, c, short), DerivedKey(prf, password, salt, c, long);
    AllowedBlocks(short);
    AllowedBlocks(long);
    forall k | 0 <= k < short ensures a[k] == b[k] {
      BlocksAt(prf, password, salt, c, BlocksFor(short), k);
      BlocksAt(prf, password, salt, c, BlocksFor(long), k);
    }
  }

  function FromInt4(r: Octets): nat
    requires |r| == 4
  {
    var a: int, b: int, c: int := r[0], r[1], r[2];
    a * 0x100_0000 + b * 0x1_0000 + c * 0x100 + r[3]
  }

  /** Every block has an input of its own. */
  lemma InputsDiffer(salt: Octets, i: nat, j: nat)
    requires i < WORDS && j < WORDS
    ensures FromInt4(Int4(i)) == i
    ensures salt + Int4(i) == salt + Int4(j) <==> i == j
  {
    Int4Back(i);
    Int4Back(j);
    assert (salt + Int4(i))[|salt|..] == Int4(i);
    assert (salt + Int4(j))[|salt|..] == Int4(j);
  }

  lemma Int4Back(i: nat)
    requires i < WORDS
    ensures FromInt4(Int4(i)) == i
  {
    var a, b, c, d := i / 0x100_0000, i / 0x1_0000 % 0x100, i / 0x100 % 0x100, i % 0x100;
    assert i / 0x100 == i / 0x1_0000 * 0x100 + c && i / 0x1_0000 == a * 0x100 + b;
    assert i == a * 0x100_0000 + b * 0x1_0000 + c * 0x100 + d;
  }

  // ---------------------------------------------------------------- the implementation

  /** Writes a block number behind the salt. */
  method PutNumber(block: array<Byte>, at: nat, i: nat)
    requires block.Length == at + 4 && i < WORDS
    modifies block
    ensures block[..] == old(block[..at]) + Int4(i)
  {
    block[at] := i / 0x100_0000;
    block[at + 1] := i / 0x1_0000 % 0x100;
    block[at + 2] := i / 0x100 % 0x100;
    block[at + 3] := i % 0x100;
    assert block[..] == block[..at] + Int4(i);
  }

  /** Adds `u` to `t` in place. */
  method XorInto(t: array<Byte>, u: Digest)
    requires t.Length == HASH_LEN
    modifies t
    ensures t[..] == Xor(old(t[..]), u)
  {
    hide XorByte;
    ghost var was := t[..];
    for i := 0 to t.Length
      invariant forall k :: 0 <= k < i ==> t[k] == XorByte(was[k], u[k])
      invariant forall k :: i <= k < HASH_LEN ==> t[k] == was[k]
    {
      t[i] := XorByte(t[i], u[i]);
    }
    assert forall k :: 0 <= k < HASH_LEN ==> t[..][k] == Xor(was, u)[k];
  }

  /** One block: at least one round is made, whatever count is asked for. */
  method OneBlock(prf: Prf, password: Octets, block: array<Byte>, rounds: int, ghost salt: Octets, ghost i: nat)
    returns (out: Octets)
    requires i < WORDS && block[..] == salt + Int4(i)
    ensures out == Block(prf, password, salt, Max(1, rounds), i)
  {
    hide Xor, XorByte;
    var u := prf(password, block[..]);
    var t := new Byte[HASH_LEN](k requires 0 <= k < HASH_LEN => u[k]);
    assert t[..] == u;
    var round := 1;
    while round < rounds
      invariant 1 <= round <= Max(1, rounds)
      invariant u == U(prf, password, salt, i, round) && t[..] == Block(prf, password, salt, round, i)
      decreases rounds - round
    {
      u := prf(password, u);
      XorInto(t, u);
      round := round + 1;
    }
    out := t[..];
  }

  /** The block number after n blocks; it is kept in 32 bits. */
  function Number(n: nat): (r: nat)
    ensures r < WORDS && (n + 1 < WORDS ==> r == n + 1)
  {
    if n == 0 then 1 else (Number(n - 1) + 1) % WORDS
  }

  /** What the loops produce for any length: the block numbers repeat after 2^32. */
  function Produced(prf: Prf, password: Octets, salt: Octets, c: nat, n: nat): (r: Octets)
    requires c > 0
    ensures |r| == n * HASH_LEN
  {
    if n == 0 then [] else Produced(prf, password, salt, c, n - 1) + Block(prf, password, salt, c, Number(n - 1))
  }

  method DeriveSha256(prf: Prf, password: Octets, salt: Octets, rounds: int, length: nat) returns (key: Octets)
    ensures key == Produced(prf, password, salt, Max(1, rounds), BlocksFor(length))[..length]
    ensures Allowed(length) ==> key == DerivedKey(prf, password, salt, Max(1, rounds), length)
  {
    hide Block, Produced, Blocks, BlocksFor, DerivedKey, Int4, Number;
    var result: Octets := [];
    var block := new Byte[|salt| + 4];
    for k := 0 to |salt|
      invariant forall j :: 0 <= j < k ==> block[j] == salt[j]
    {
      block[k] := salt[k];
    }
    assert block[..|salt|] == salt;
    var blockNumber := 1;
    ghost var n: nat := 0;
    NothingProduced(prf, password, salt, Max(1, rounds));
    while |result| < length
      invariant result == Produced(prf, password, salt, Max(1, rounds), n) && blockNumber == Number(n)
      invariant block[..|salt|] == salt
      invariant n <= BlocksFor(length)
      decreases BlocksFor(length) - n
    {
      PutNumber(block, |salt|, blockNumber);
      assert block[..|salt|] == salt;
      var t := OneBlock(prf, password, block, rounds, salt, blockNumber);
      result := result + t;
      ProducedNext(prf, password, salt, Max(1, rounds), n);
      OneMoreBlock(n, length);
      blockNumber := (blockNumber + 1) % WORDS;
      n := n + 1;
    }
    EnoughBlocks(n, length);
    key := result[..length];
    if Allowed(length) {
      AllowedBlocks(length);
      WithinRange(prf, password, salt, Max(1, rounds), n);
      KeyIs(prf, password, salt, Max(1, rounds), length);
    }
  }

  lemma NothingProduced(prf: Prf, password: Octets, salt: Octets, c: nat)
    requires c > 0
    ensures Produced(prf, password, salt, c, 0) == [] && Number(0) == 1
  {
  }

  lemma ProducedNext(prf: Prf, password: Octets, salt: Octets, c: nat, n: nat)
    requires c > 0
    ensures Produced(prf, password, salt, c, n + 1) ==
            Produced(prf, password, salt, c, n) + Block(prf, password, salt, c, Number(n))
    ensures Number(n + 1) == (Number(n) + 1) % WORDS
  {
    hide Block;
  }

  lemma OneMoreBlock(n: nat, length: nat)
    requires n * HASH_LEN < length
    ensures n < BlocksFor(length)
  {
  }

  lemma EnoughBlocks(n: nat, length: nat)
    requires n <= BlocksFor(length) && n * HASH_LEN >= length
    ensures n == BlocksFor(length)
  {
  }

  lemma KeyIs(prf: Prf, password: Octets, salt: Octets, c: nat, length: nat)
    requires c > 0 && Allowed(length) && BlocksFor(length) < WORDS
    ensures DerivedKey(prf, password, salt, c, length) == Blocks(prf, password, salt, c, BlocksFor(length))[..length]
  {
  }

  /** As long as the numbers do not repeat, the loops produce the blocks of the standard. */
  lemma {:induction false} WithinRange(prf: Prf, password: Octets, salt: Octets, c: nat, n: nat)
    requires c > 0 && n < WORDS
    ensures Produced(prf, password, salt, c, n) == Blocks(prf, password, salt, c, n)
    decreases n
  {
    hide Block;
    if n > 0 {
      WithinRange(prf, password, salt, c, n - 1);
      assert Number(n - 1) == n;
    }
  }
}
