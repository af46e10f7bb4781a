/**
 Account prefixes and shards (src/utils/shard_utils.rs).

 An account is a 32-byte hash read most significant byte first. A shard carries a
 64-bit tagged prefix: the prefix bits, then a one, then zeros.
 */
module ShardUtils {
  import opened Words
  import opened Wrappers

  type Byte = x: int | 0 <= x < 256
  type Account = s: seq<Byte> | |s| == 32 witness seq(32, _ => 0)

  const SHARD_FULL: nat := 0x8000_0000_0000_0000

  datatype ShardIdent = ShardIdent(workchain: int, tagged: nat)
  type Shard = s: ShardIdent | 0 < s.tagged < U64_MODULUS witness ShardIdent(0, SHARD_FULL)

  // ---------------------------------------------------------------------------
  // Numbers behind the bytes
  // ---------------------------------------------------------------------------

  function BigEndian(s: seq<Byte>): (r: nat)
    ensures r < Pow2(8 * |s|)
  {
    if s == [] then 0
    else
      assert Pow2(8 * |s|) == 256 * Pow2(8 * (|s| - 1)) by { Pow2Add(8, 8 * (|s| - 1)); }
      256 * BigEndian(s[..|s| - 1]) + s[|s| - 1]
  }

  /** The number formed by the first `len` bits of the account. */
  function TopBits(account: Account, len: nat): nat
    requires len <= 256
  {
    Div(BigEndian(account), Pow2(256 - len))
  }

  /** Bit `i` of the account, the most significant one being bit 0. */
  function AccountBit(account: Account, i: nat): nat
    requires i < 256
  {
    Div(account[i / 8], Pow2(7 - i % 8)) % 2
  }

  lemma Pow2EightMore(n: nat)
    ensures Pow2(n + 8) == 256 * Pow2(n)
  {
    Pow2Add(8, n);
    assert Pow2(8) == 256;
  }

  lemma SplitByte(front: nat, a: nat, b: nat, p: nat, p': nat, last: nat)
    requires front == a * p + b && p' == 256 * p
    ensures 256 * front + last == a * p' + (256 * b + last)
  {
    MulSwap(256, a, p);
  }

  lemma {:induction false} BigEndianSplit(s: seq<Byte>, i: nat)
    requires i <= |s|
    ensures BigEndian(s) == BigEndian(s[..i]) * Pow2(8 * (|s| - i)) + BigEndian(s[i..])
    decreases |s|
  {
    if i == |s| {
      assert s[..i] == s;
    } else {
      var n := |s| - 1;
      var front := s[..n];
      BigEndianSplit(front, i);
      assert front[..i] == s[..i];
      assert s[i..][..|s[i..]| - 1] == front[i..];
      Pow2EightMore(8 * (n - i));
      SplitByte(BigEndian(front), BigEndian(s[..i]), BigEndian(front[i..]),
                Pow2(8 * (n - i)), Pow2(8 * (|s| - i)), s[n]);
    }
  }

  /** Whole bytes: the first 8 * i bits are the first i bytes. */
  lemma TopBytes(account: Account, i: nat)
    requires i <= 32
    ensures TopBits(account, 8 * i) == BigEndian(account[..i])
  {
    BigEndianSplit(account, i);
    assert 8 * (32 - i) == 256 - 8 * i;
    DivUnique(BigEndian(account), BigEndian(account[..i]), Pow2(256 - 8 * i), BigEndian(account[i..]));
  }

  /** Dropping bits from the top bits leaves fewer top bits. */
  lemma TopBitsShorter(account: Account, len: nat, more: nat)
    requires len + more <= 256
    ensures Div(TopBits(account, len + more), Pow2(more)) == TopBits(account, len)
  {
    var x := BigEndian(account);
    var d := Pow2(256 - len - more);
    var e := Pow2(more);
    Pow2Add(256 - len - more, more);
    assert Pow2(256 - len) == d * e;
    DivDiv(x, d, e);
  }

  lemma DivDiv(x: nat, d: nat, e: nat)
    requires d > 0 && e > 0
    ensures d * e > 0
    ensures Div(Div(x, d), e) == Div(x, d * e)
  {
    MulPositive(d, e);
    var y := Div(x, d);
    var t := DivRemainder(x, d);
    var q := Div(y, e);
    var r := DivRemainder(y, e);
    DivDivUnique(x, y, d, e, q, r, t);
  }

  lemma DivDivUnique(x: nat, y: nat, d: nat, e: nat, q: nat, r: nat, t: nat)
    requires d * e > 0
    requires x == y * d + t && t < d
    requires y == q * e + r && r < e
    ensures Div(x, d * e) == q
  {
    Regroup(q, e, r, d, t);
    DivUnique(x, q, d * e, r * d + t);
  }

  // ---------------------------------------------------------------------------
  // account_prefix
  // ---------------------------------------------------------------------------

  /** What the prefix computation promises: the top `len` bits, left-aligned in 64. */
  function AccountPrefixOf(account: Account, len: nat): (r: nat)
    requires len <= 64
  {
    TopBits(account, len) * Pow2(64 - len)
  }

  /** A value or-ed in right below the bits already collected. */
  lemma OrBelow(head: nat, r: nat, count: nat, place: nat)
    requires count + place <= 64 && place < 64 && r < Pow2(count)
    ensures Shl(r, place) == r * Pow2(place)
    ensures BitOr(head * Pow2(count + place), Shl(r, place)) == (head * Pow2(count) + r) * Pow2(place)
  {
    var p := Pow2(place);
    Pow2Add(count, place);
    MultipleStep(r, Pow2(count), p);
    Pow2Monotone(count + place, 64);
    Pow2Is64();
    OrIntoZeroBits(head, r * p, count + place);
    MulAssoc(head, Pow2(count), p);
    MulDist(head * Pow2(count), r, p);
  }

  /** The high bits of a byte, as `>>` leaves them. */
  lemma HighBits(byte: Byte, keep: nat)
    requires 0 < keep < 8
    ensures Div(byte, Pow2(8 - keep)) < Pow2(keep)
  {
    var d := Pow2(8 - keep);
    Pow2Add(keep, 8 - keep);
    assert Pow2(8) == 256;
    var q := Div(byte, d);
    var r := DivRemainder(byte, d);
    if q >= Pow2(keep) {
      MultipleStep(Pow2(keep) - 1, q, d);
      MulDist(Pow2(keep) - 1, 1, d);
    }
  }

  /** The number of the top bits when they end inside a byte. */
  lemma TopBitsInsideByte(account: Account, bytes: nat, keep: nat)
    requires bytes < 32 && 0 < keep < 8
    ensures TopBits(account, 8 * bytes + keep)
         == BigEndian(account[..bytes]) * Pow2(keep) + Div(account[bytes], Pow2(8 - keep))
  {
    var head := BigEndian(account[..bytes]);
    var b := account[bytes];
    TopBytes(account, bytes + 1);
    assert account[..bytes + 1][..bytes] == account[..bytes];
    TopBitsShorter(account, 8 * bytes + keep, 8 - keep);
    assert 8 * bytes + keep + (8 - keep) == 8 * (bytes + 1);
    DivByteNumber(head, b, keep);
  }

  lemma DivByteNumber(head: nat, b: Byte, keep: nat)
    requires keep <= 8
    ensures Div(256 * head + b, Pow2(8 - keep)) == head * Pow2(keep) + Div(b, Pow2(8 - keep))
  {
    var d := Pow2(8 - keep);
    Pow2Add(keep, 8 - keep);
    assert Pow2(8) == 256;
    MulAssoc(head, Pow2(keep), d);
    DivJoined(b, d, 256 * head, head * Pow2(keep));
  }

  /** A multiple of the divisor is divided apart. */
  lemma DivJoined(b: nat, d: nat, multiple: nat, head: nat)
    requires d > 0 && multiple == head * d
    ensures Div(multiple + b, d) == head + Div(b, d)
  {
    var r := DivRemainder(b, d);
    MulDist(head, Div(b, d), d);
    DivUnique(multiple + b, head + Div(b, d), d, r);
  }

  /** What the byte loop has collected after `i` bytes. */
  function Collected(account: Account, i: nat): nat
    requires i <= 8
  {
    BigEndian(account[..i]) * Pow2(64 - 8 * i)
  }

  /** One turn of the byte loop. */
  lemma CollectByte(account: Account, i: nat)
    requires i < 8
    ensures BitOr(Collected(account, i), Shl(account[i], 8 * (7 - i))) == Collected(account, i + 1)
  {
    assert Pow2(8) == 256;
    OrBelow(BigEndian(account[..i]), account[i], 8, 8 * (7 - i));
    assert account[..i + 1][..i] == account[..i];
  }

  /** The partly covered byte after the loop. */
  lemma CollectRemainder(account: Account, bytes: nat, remainder: nat)
    requires bytes < 8 && 0 < remainder < 8
    ensures BitOr(Collected(account, bytes),
                  Shl(Shr(account[bytes], 8 - remainder), 8 * (7 - bytes) + 8 - remainder))
         == AccountPrefixOf(account, 8 * bytes + remainder)
  {
    HighBits(account[bytes], remainder);
    TopBitsInsideByte(account, bytes, remainder);
    OrBelow(BigEndian(account[..bytes]), Div(account[bytes], Pow2(8 - remainder)),
            remainder, 8 * (7 - bytes) + 8 - remainder);
  }

  lemma CollectedIsPrefix(account: Account, bytes: nat)
    requires bytes <= 8
    ensures Collected(account, bytes) == AccountPrefixOf(account, 8 * bytes)
  {
    TopBytes(account, bytes);
  }

  method AccountPrefix(account: Account, len: nat) returns (value: nat)
    requires len <= 64
    ensures value == AccountPrefixOf(account, len)
  {
    value := 0;
    assert value == Collected(account, 0);

    var bytes := len / 8;
    for i := 0 to bytes
      invariant value == Collected(account, i)
    {
      CollectByte(account, i);
      value := BitOr(value, Shl(account[i], 8 * (7 - i)));
    }

    var remainder := len % 8;
    if remainder > 0 {
      CollectRemainder(account, bytes, remainder);
      var r := Shr(account[bytes], 8 - remainder);
      value := BitOr(value, Shl(r, 8 * (7 - bytes) + 8 - remainder));
    } else {
      CollectedIsPrefix(account, bytes);
    }
  }

  // ---------------------------------------------------------------------------
  // Shard prefixes
  // ---------------------------------------------------------------------------

  function TrailingZeros(x: nat): nat
    requires x > 0
  {
    if x % 2 == 1 then 0 else 1 + TrailingZeros(x / 2)
  }

  /** A positive number is an odd number shifted by its trailing zeros. */
  lemma {:induction false} OddTimesPower(x: nat) returns (h: nat)
    requires x > 0
    ensures x == (2 * h + 1) * Pow2(TrailingZeros(x))
  {
    if x % 2 == 1 {
      h := x / 2;
    } else {
      h := OddTimesPower(x / 2);
      MulSwap(2, 2 * h + 1, Pow2(TrailingZeros(x / 2)));
    }
  }

  lemma TagBelow64(shard: Shard)
    ensures TrailingZeros(shard.tagged) <= 63
    ensures TrailingZeros(shard.tagged) == 63 ==> shard.tagged == SHARD_FULL
  {
    var z := TrailingZeros(shard.tagged);
    var h := OddTimesPower(shard.tagged);
    Pow2Is64();
    assert Pow2(64) == 2 * Pow2(63);
    if z >= 64 {
      Pow2Monotone(64, z);
      MultipleStep(0, 2 * h + 1, Pow2(z));
    } else if z == 63 && h > 0 {
      MultipleStep(1, 2 * h + 1, Pow2(63));
    }
  }

  function PrefixLen(shard: Shard): (len: nat)
    ensures len <= 63
    ensures len == 0 ==> shard.tagged == SHARD_FULL
  {
    TagBelow64(shard);
    63 - TrailingZeros(shard.tagged)
  }

  /** The prefix itself, without the tag. */
  function PrefixBits(shard: Shard): nat {
    Div(shard.tagged, Pow2(64 - PrefixLen(shard)))
  }

  /** Bit `i` of the 64-bit tagged prefix, most significant first. */
  function ShardBit(shard: Shard, i: nat): nat
    requires i < 64
  {
    Div(shard.tagged, Pow2(63 - i)) % 2
  }

  /** A tagged prefix is the prefix bits, the tag bit, and zeros. */
  lemma TaggedShape(shard: Shard)
    ensures var len := PrefixLen(shard);
            shard.tagged == (2 * PrefixBits(shard) + 1) * Pow2(63 - len)
  {
    var z := TrailingZeros(shard.tagged);
    var h := OddTimesPower(shard.tagged);
    TagBelow64(shard);
    SplitTag(shard.tagged, h, Pow2(z), Pow2(z + 1));
    DivUnique(shard.tagged, h, Pow2(z + 1), Pow2(z));
  }

  lemma SplitTag(tagged: nat, h: nat, p: nat, p': nat)
    requires tagged == (2 * h + 1) * p && p' == 2 * p
    ensures tagged == h * p' + p
  {
    MulDist(2 * h, 1, p);
    MulSwap(2, h, p);
  }

  /** The first `len` bits of the account are those of the shard. */
  predicate BitsAgree(shard: Shard, account: Account, len: nat)
    requires len <= 64
  {
    len == 0 || (BitsAgree(shard, account, len - 1) && AccountBit(account, len - 1) == ShardBit(shard, len - 1))
  }

  /** What it means that an account belongs to a shard. */
  predicate ContainsAccount(shard: Shard, account: Account) {
    BitsAgree(shard, account, PrefixLen(shard))
  }

  /** A shard seen as a membership test. */
  type Membership = Account -> bool

  /** The check as the code makes it: by shifting the two prefixes. */
  method CheckContainsAccount(shard: Shard, account: Account) returns (contained: bool)
    ensures contained == ContainsAccount(shard, account)
  {
    if shard.tagged == SHARD_FULL {
      FullPrefixLen(shard);
      return true;
    }
    var len := PrefixLen(shard);
    var accountPrefix := AccountPrefix(account, len);
    contained := Shr(accountPrefix, 64 - len) == Shr(shard.tagged, 64 - len);
    ContainsIffTopBits(shard, account);
    var t := TopBits(account, len);
    DivUnique(t * Pow2(64 - len), t, Pow2(64 - len), 0);
  }

  lemma ContainsIffTopBits(shard: Shard, account: Account)
    ensures ContainsAccount(shard, account) <==> TopBits(account, PrefixLen(shard)) == PrefixBits(shard)
  {
    PrefixesAgreeBitwise(shard, account, PrefixLen(shard));
  }

  lemma FullPrefixLen(shard: Shard)
    requires shard.tagged == SHARD_FULL
    ensures PrefixLen(shard) == 0
  {
    Pow2Is64();
    assert Pow2(64) == 2 * (1 * Pow2(63));
    TrailingZerosOfOddMultiple(0, 63);
  }

  lemma TrailingZerosOfDouble(x: nat)
    requires x > 0
    ensures TrailingZeros(2 * x) == 1 + TrailingZeros(x)
  {
    assert 2 * x / 2 == x;
  }

  lemma {:induction false} TrailingZerosOfOddMultiple(h: nat, z: nat)
    ensures (2 * h + 1) * Pow2(z) > 0
    ensures TrailingZeros((2 * h + 1) * Pow2(z)) == z
  {
    MultipleStep(0, 2 * h + 1, Pow2(z));
    if z == 0 {
      assert (2 * h + 1) * Pow2(0) == 2 * h + 1;
      assert (2 * h + 1) % 2 == 1;
    } else {
      TrailingZerosOfOddMultiple(h, z - 1);
      MulSwap(2, 2 * h + 1, Pow2(z - 1));
      TrailingZerosOfDouble((2 * h + 1) * Pow2(z - 1));
    }
  }

  // ---------------------------------------------------------------------------
  // contains_account bit by bit
  // ---------------------------------------------------------------------------

  lemma TopBitsNext(account: Account, i: nat)
    requires i < 256
    ensures TopBits(account, i + 1) == 2 * TopBits(account, i) + AccountBit(account, i)
  {
    var n := i / 8;
    var k := i % 8;
    TopBytes(account, n + 1);
    assert account[..n + 1][..n] == account[..n];
    var t := 256 * BigEndian(account[..n]) + account[n];
    assert TopBits(account, 8 * (n + 1)) == t;
    TopBitsShorter(account, i + 1, 7 - k);
    assert TopBits(account, i + 1) == Div(t, Pow2(7 - k));
    // The bit is the parity of the number one bit longer.
    ByteParity(BigEndian(account[..n]), account[n], k + 1);
    DropLastBit(account, i);
  }

  lemma DropLastBit(account: Account, i: nat)
    requires i < 256
    ensures TopBits(account, i + 1) == 2 * TopBits(account, i) + TopBits(account, i + 1) % 2
  {
    TopBitsShorter(account, i, 1);
    assert Pow2(1) == 2;
    Halve(TopBits(account, i + 1));
  }

  lemma ByteParity(head: nat, byte: Byte, keep: nat)
    requires 0 < keep <= 8
    ensures Div(256 * head + byte, Pow2(8 - keep)) % 2 == Div(byte, Pow2(8 - keep)) % 2
  {
    DivByteNumber(head, byte, keep);
    MulSwap(head, 2, Pow2(keep - 1));
  }

  lemma ShardTopNext(shard: Shard, i: nat)
    requires i < 64
    ensures Div(shard.tagged, Pow2(63 - i)) == 2 * Div(shard.tagged, Pow2(64 - i)) + ShardBit(shard, i)
  {
    assert Pow2(64 - i) == Pow2(63 - i) * 2;
    DivDiv(shard.tagged, Pow2(63 - i), 2);
    Halve(Div(shard.tagged, Pow2(63 - i)));
  }

  lemma {:induction false} PrefixesAgreeBitwise(shard: Shard, account: Account, len: nat)
    requires len <= 64
    ensures TopBits(account, len) == Div(shard.tagged, Pow2(64 - len))
       <==> BitsAgree(shard, account, len)
  {
    if len == 0 {
      Pow2Is64();
      DivUnique(BigEndian(account), 0, Pow2(256), BigEndian(account));
      DivUnique(shard.tagged, 0, Pow2(64), shard.tagged);
    } else {
      PrefixesAgreeBitwise(shard, account, len - 1);
      TopBitsNext(account, len - 1);
      ShardTopNext(shard, len - 1);
    }
  }

  // ---------------------------------------------------------------------------
  // Splitting
  // ---------------------------------------------------------------------------

  /** Half of the lowest set bit moves the tag one place down; the branch picks the new bit. */
  function Child(shard: Shard, right: bool): (child: Shard)
    requires PrefixLen(shard) < 63
  {
    var half := Pow2(62 - PrefixLen(shard));
    ChildInRange(shard);
    ShardIdent(shard.workchain, if right then shard.tagged + half else shard.tagged - half)
  }

  lemma ChildInRange(shard: Shard)
    requires PrefixLen(shard) < 63
    ensures var half := Pow2(62 - PrefixLen(shard));
            0 < shard.tagged - half && shard.tagged + half < U64_MODULUS
  {
    var len := PrefixLen(shard);
    var tag := Pow2(63 - len);
    var odd := 2 * PrefixBits(shard) + 1;
    TaggedShape(shard);
    MultipleStep(0, odd, tag);
    assert tag == 2 * Pow2(62 - len);
    Pow2Is64();
    Pow2Add(len + 1, 63 - len);
    if odd >= Pow2(len + 1) {
      MultipleStep(Pow2(len + 1) - 1, odd, tag);
      MulDist(Pow2(len + 1) - 1, 1, tag);
    }
    MultipleStep(odd, Pow2(len + 1), tag);
  }

  lemma ChildPrefix(shard: Shard, right: bool)
    requires PrefixLen(shard) < 63
    ensures PrefixLen(Child(shard, right)) == PrefixLen(shard) + 1
    ensures PrefixBits(Child(shard, right)) == 2 * PrefixBits(shard) + (if right then 1 else 0)
  {
    var len := PrefixLen(shard);
    var p := PrefixBits(shard);
    var child := Child(shard, right);
    var half := Pow2(62 - len);
    TaggedShape(shard);
    var q := 2 * p + (if right then 1 else 0);
    MulSwap(2 * p + 1, 2, half);
    MulDist(2 * (2 * p + 1), if right then 1 else -1, half);
    MulAssoc(2, 2 * p + 1, half);
    assert child.tagged == (2 * q + 1) * half;
    TrailingZerosOfOddMultiple(q, 62 - len);
    TaggedShape(child);
    QuotientUnique(2 * q + 1, 0, 2 * PrefixBits(child) + 1, 0, half);
  }

  /** An account of a shard belongs to one of its children, never to both; no other account does. */
  lemma SplitPartitions(shard: Shard, account: Account)
    requires PrefixLen(shard) < 63
    ensures ContainsAccount(shard, account)
       <==> (ContainsAccount(Child(shard, false), account) || ContainsAccount(Child(shard, true), account))
    ensures !(ContainsAccount(Child(shard, false), account) && ContainsAccount(Child(shard, true), account))
  {
    ContainsIffTopBits(shard, account);
    ContainsIffTopBits(Child(shard, false), account);
    ContainsIffTopBits(Child(shard, true), account);
    ChildPrefix(shard, false);
    ChildPrefix(shard, true);
    TopBitsNext(account, PrefixLen(shard));
  }

  /** How a workchain was split: a history of split decisions. */
  datatype SplitTree = Leaf | Split(left: SplitTree, right: SplitTree)

  function Height(t: SplitTree): nat {
    match t
    case Leaf => 0
    case Split(l, r) => 1 + if Height(l) > Height(r) then Height(l) else Height(r)
  }

  function Leaves(t: SplitTree, root: Shard): (leaves: seq<Shard>)
    requires PrefixLen(root) + Height(t) <= 63
    decreases t
  {
    match t
    case Leaf => [root]
    case Split(l, r) =>
      ChildPrefix(root, false);
      ChildPrefix(root, true);
      Leaves(l, Child(root, false)) + Leaves(r, Child(root, true))
  }

  /** How many of the shards contain the account. */
  function Owners(shards: seq<Shard>, account: Account): nat {
    if shards == [] then 0
    else (if ContainsAccount(shards[0], account) then 1 else 0) + Owners(shards[1..], account)
  }

  lemma {:induction false} OwnersConcat(a: seq<Shard>, b: seq<Shard>, account: Account)
    ensures Owners(a + b, account) == Owners(a, account) + Owners(b, account)
  {
    if a == [] {
      assert a + b == b;
    } else {
      assert (a + b)[1..] == a[1..] + b;
      OwnersConcat(a[1..], b, account);
    }
  }

  /** The partition theorem, for every split tree below any shard. */
  lemma {:induction false} LeavesPartition(t: SplitTree, root: Shard, account: Account)
    requires PrefixLen(root) + Height(t) <= 63
    ensures Owners(Leaves(t, root), account) == if ContainsAccount(root, account) then 1 else 0
    decreases t
  {
    match t
    case Leaf =>
      assert Leaves(t, root)[1..] == [];
    case Split(l, r) =>
      ChildPrefix(root, false);
      ChildPrefix(root, true);
      LeavesPartition(l, Child(root, false), account);
      LeavesPartition(r, Child(root, true), account);
      OwnersConcat(Leaves(l, Child(root, false)), Leaves(r, Child(root, true)), account);
      SplitPartitions(root, account);
  }

  // ---------------------------------------------------------------------------
  // ShardAccountsMap::find_account
  // ---------------------------------------------------------------------------

  /** What a shard state answers for an account: the state may be unreadable,
      hold no record, hold an empty record, or hold a contract. */
  datatype AccountRecord<+C> = Unreadable | Missing | AccountNone | Contract(contract: C)

  datatype FindError = NoSuitableShard | BrokenState

  type ShardAccounts<!C> = Account -> AccountRecord<C>

  function FindInShard<C>(shard: ShardAccounts<C>, account: Account): Result<Option<C>, FindError> {
    match shard(account)
    case Unreadable => Err(BrokenState)
    case Missing => Ok(None)
    case AccountNone => Ok(None)
    case Contract(c) => Ok(Some(c))
  }

  ghost predicate Covers<C>(accounts: map<Shard, ShardAccounts<C>>, shards: seq<Shard>) {
    forall s :: s in shards ==> s in accounts
  }

  /** The first shard in iteration order that contains the account decides. */
  function FindIn<C>(order: seq<Shard>, accounts: map<Shard, ShardAccounts<C>>, account: Account)
    : Result<Option<C>, FindError>
    requires Covers(accounts, order)
  {
    if order == [] then Err(NoSuitableShard)
    else if ContainsAccount(order[0], account) then FindInShard(accounts[order[0]], account)
    else FindIn(order[1..], accounts, account)
  }

  /** The map visited in the order `order`; the order of a hash map is arbitrary. */
  method FindAccount<C>(order: seq<Shard>, accounts: map<Shard, ShardAccounts<C>>, account: Account)
    returns (r: Result<Option<C>, FindError>)
    requires Covers(accounts, order)
    ensures r == FindIn(order, accounts, account)
  {
    for i := 0 to |order|
      invariant FindIn(order, accounts, account) == FindIn(order[i..], accounts, account)
    {
      var contained := CheckContainsAccount(order[i], account);
      if contained {
        return FindInShard(accounts[order[i]], account);
      }
    }
    r := Err(NoSuitableShard);
  }

  /** The shard at `i` is the first one to contain the account. */
  ghost predicate IsFirstOwner(order: seq<Shard>, account: Account, i: nat) {
    i < |order| && ContainsAccount(order[i], account) && forall j :: 0 <= j < i ==> !ContainsAccount(order[j], account)
  }

  /** The search gives the contract that the first owner holds, nothing if that holds no record
      or an empty one, and an error if its state cannot be read, or without an owner. */
  lemma {:induction false} FoundIff<C>(order: seq<Shard>, accounts: map<Shard, ShardAccounts<C>>, account: Account)
    requires Covers(accounts, order)
    ensures FindIn(order, accounts, account) == Err(NoSuitableShard) <==>
              forall j :: 0 <= j < |order| ==> !ContainsAccount(order[j], account)
    ensures forall i: nat :: IsFirstOwner(order, account, i) ==>
              var record, found := accounts[order[i]](account), FindIn(order, accounts, account);
              && (found == Err(BrokenState) <==> record.Unreadable?)
              && (found == Ok(None) <==> record.Missing? || record.AccountNone?)
              && (forall c :: found == Ok(Some(c)) <==> record == Contract(c))
  {
    if order != [] {
      FoundIff(order[1..], accounts, account);
      if !ContainsAccount(order[0], account) {
        forall i: nat | IsFirstOwner(order, account, i) ensures i > 0 && IsFirstOwner(order[1..], account, i - 1) {
        }
      }
    }
  }

  ghost predicate Distinct(shards: seq<Shard>) {
    forall i, j :: 0 <= i < j < |shards| ==> shards[i] != shards[j]
  }

  ghost predicate IsOrderOf(order: seq<Shard>, shards: seq<Shard>) {
    multiset(order) == multiset(shards)
  }

  /** The answer does not depend on the iteration order, whatever the shard states hold. */
  ghost predicate OrderIrrelevant(shards: seq<Shard>, account: Account) {
    forall o1, o2, accounts: map<Shard, ShardAccounts<nat>> ::
      IsOrderOf(o1, shards) && IsOrderOf(o2, shards) && Covers(accounts, o1) && Covers(accounts, o2) ==>
        FindIn(o1, accounts, account) == FindIn(o2, accounts, account)
  }

  lemma {:induction false} OwnersPositive(shards: seq<Shard>, s: Shard, account: Account)
    requires s in shards && ContainsAccount(s, account)
    ensures Owners(shards, account) >= 1
  {
    if shards[0] != s {
      OwnersPositive(shards[1..], s, account);
    }
  }

  /** With owners, the search answers from one of them. */
  lemma {:induction false} FindsAnOwner<C>(order: seq<Shard>, accounts: map<Shard, ShardAccounts<C>>, account: Account)
    returns (s: Shard)
    requires Covers(accounts, order) && Owners(order, account) >= 1
    ensures s in order && ContainsAccount(s, account)
    ensures FindIn(order, accounts, account) == FindInShard(accounts[s], account)
  {
    if ContainsAccount(order[0], account) {
      s := order[0];
    } else {
      s := FindsAnOwner(order[1..], accounts, account);
    }
  }

  lemma {:induction false} NoOwnerNoAnswer<C>(order: seq<Shard>, accounts: map<Shard, ShardAccounts<C>>,
                                              account: Account)
    requires Covers(accounts, order) && Owners(order, account) == 0
    ensures FindIn(order, accounts, account) == Err(NoSuitableShard)
  {
    if order != [] {
      NoOwnerNoAnswer(order[1..], accounts, account);
    }
  }

  lemma {:induction false} TwoOwners(shards: seq<Shard>, i: nat, j: nat, account: Account)
    requires i < j < |shards|
    requires ContainsAccount(shards[i], account) && ContainsAccount(shards[j], account)
    ensures Owners(shards, account) >= 2
  {
    if i == 0 {
      OwnersPositive(shards[1..], shards[j], account);
    } else {
      TwoOwners(shards[1..], i - 1, j - 1, account);
    }
  }

  lemma OwnerIsUnique(shards: seq<Shard>, s1: Shard, s2: Shard, account: Account)
    requires s1 in shards && s2 in shards && Owners(shards, account) <= 1
    requires ContainsAccount(s1, account) && ContainsAccount(s2, account)
    ensures s1 == s2
  {
    var i :| 0 <= i < |shards| && shards[i] == s1;
    var j :| 0 <= j < |shards| && shards[j] == s2;
    if i < j {
      TwoOwners(shards, i, j, account);
    } else if j < i {
      TwoOwners(shards, j, i, account);
    }
  }

  lemma {:induction false} SecondOwner(shards: seq<Shard>, account: Account) returns (i: nat, j: nat)
    requires Owners(shards, account) >= 2
    ensures i < j < |shards|
    ensures ContainsAccount(shards[i], account) && ContainsAccount(shards[j], account)
  {
    if ContainsAccount(shards[0], account) {
      var s :| s in shards[1..] && ContainsAccount(s, account) by {
        if !(exists s :: s in shards[1..] && ContainsAccount(s, account)) {
          NoOwners(shards[1..], account);
        }
      }
      j :| 0 < j < |shards| && shards[j] == s;
      i := 0;
    } else {
      i, j := SecondOwner(shards[1..], account);
      i, j := i + 1, j + 1;
    }
  }

  lemma {:induction false} NoOwners(shards: seq<Shard>, account: Account)
    requires forall s :: s in shards ==> !ContainsAccount(s, account)
    ensures Owners(shards, account) == 0
  {
    if shards != [] {
      NoOwners(shards[1..], account);
    }
  }

  lemma SameElements(a: seq<Shard>, b: seq<Shard>)
    requires IsOrderOf(a, b)
    ensures forall s :: s in a <==> s in b
  {
    forall s ensures s in a <==> s in b {
      assert s in a <==> s in multiset(a);
      assert s in b <==> s in multiset(b);
    }
  }

  /** The shard at `i` visited first. */
  function MovedToFront(shards: seq<Shard>, i: nat): (r: seq<Shard>)
    requires i < |shards|
    ensures IsOrderOf(r, shards)
  {
    assert shards == shards[..i] + [shards[i]] + shards[i + 1..];
    [shards[i]] + shards[..i] + shards[i + 1..]
  }

  lemma OneOwnerOneAnswer(shards: seq<Shard>, o1: seq<Shard>, o2: seq<Shard>,
                          accounts: map<Shard, ShardAccounts<nat>>, account: Account)
    requires Owners(shards, account) <= 1
    requires IsOrderOf(o1, shards) && IsOrderOf(o2, shards) && Covers(accounts, o1) && Covers(accounts, o2)
    ensures FindIn(o1, accounts, account) == FindIn(o2, accounts, account)
  {
    SameElements(o1, shards);
    SameElements(o2, shards);
    if Owners(o1, account) >= 1 {
      var s1 := FindsAnOwner(o1, accounts, account);
      OwnersPositive(o2, s1, account);
      var s2 := FindsAnOwner(o2, accounts, account);
      OwnerIsUnique(shards, s1, s2, account);
    } else {
      NoOwnerNoAnswer(o1, accounts, account);
      if Owners(o2, account) >= 1 {
        var s2 := FindsAnOwner(o2, accounts, account);
        OwnersPositive(o1, s2, account);
      } else {
        NoOwnerNoAnswer(o2, accounts, account);
      }
    }
  }

  function StatesApart(shards: seq<Shard>, known: Shard): map<Shard, ShardAccounts<nat>> {
    map s: Shard | s in shards :: (_: Account) => if s == known then Contract(0) else Missing
  }

  lemma FirstOwnerAnswers<C>(order: seq<Shard>, accounts: map<Shard, ShardAccounts<C>>, account: Account)
    requires order != [] && Covers(accounts, order) && ContainsAccount(order[0], account)
    ensures FindIn(order, accounts, account) == FindInShard(accounts[order[0]], account)
  {
  }

  lemma AnswerOfMoved(shards: seq<Shard>, i: nat, known: Shard, account: Account)
    requires i < |shards| && ContainsAccount(shards[i], account)
    ensures Covers(StatesApart(shards, known), MovedToFront(shards, i))
    ensures FindIn(MovedToFront(shards, i), StatesApart(shards, known), account)
         == Ok(if shards[i] == known then Some(0) else None)
  {
    SameElements(MovedToFront(shards, i), shards);
    FirstOwnerAnswers(MovedToFront(shards, i), StatesApart(shards, known), account);
  }

  lemma TwoOwnersTwoAnswers(shards: seq<Shard>, account: Account)
    requires Distinct(shards) && Owners(shards, account) >= 2
    ensures !OrderIrrelevant(shards, account)
  {
    var i, j := SecondOwner(shards, account);
    AnswerOfMoved(shards, i, shards[i], account);
    AnswerOfMoved(shards, j, shards[i], account);
  }

  /** Exactly when at most one shard of the map contains the account is the search deterministic. */
  lemma OrderIrrelevantIffOneOwner(shards: seq<Shard>, account: Account)
    requires Distinct(shards)
    ensures OrderIrrelevant(shards, account) <==> Owners(shards, account) <= 1
  {
    if Owners(shards, account) <= 1 {
      forall o1, o2, accounts: map<Shard, ShardAccounts<nat>>
        | IsOrderOf(o1, shards) && IsOrderOf(o2, shards) && Covers(accounts, o1) && Covers(accounts, o2)
        ensures FindIn(o1, accounts, account) == FindIn(o2, accounts, account)
      {
        OneOwnerOneAnswer(shards, o1, o2, accounts, account);
      }
    } else {
      TwoOwnersTwoAnswers(shards, account);
    }
  }

  /** The shard map of a state: for every listed workchain the leaves of its split tree. */
  function ForestLeaves(forest: seq<(int, SplitTree)>): seq<Shard>
    requires forall w :: w in forest ==> Height(w.1) <= 63
  {
    if forest == [] then []
    else
      var root := ShardIdent(forest[0].0, SHARD_FULL);
      FullPrefixLen(root);
      Leaves(forest[0].1, root) + ForestLeaves(forest[1..])
  }

  /** Containment ignores the workchain, so every workchain holds exactly one owner. */
  lemma {:induction false} OneOwnerPerWorkchain(forest: seq<(int, SplitTree)>, account: Account)
    requires forall w :: w in forest ==> Height(w.1) <= 63
    ensures Owners(ForestLeaves(forest), account) == |forest|
  {
    if forest != [] {
      var root := ShardIdent(forest[0].0, SHARD_FULL);
      FullPrefixLen(root);
      LeavesPartition(forest[0].1, root, account);
      OneOwnerPerWorkchain(forest[1..], account);
      OwnersConcat(Leaves(forest[0].1, root), ForestLeaves(forest[1..]), account);
    }
  }

  /** A split stays in its workchain. */
  lemma {:induction false} LeavesKeepWorkchain(t: SplitTree, root: Shard)
    requires PrefixLen(root) + Height(t) <= 63
    ensures forall s :: s in Leaves(t, root) ==> s.workchain == root.workchain
    decreases t
  {
    match t
    case Leaf =>
    case Split(l, r) =>
      ChildPrefix(root, false);
      ChildPrefix(root, true);
      LeavesKeepWorkchain(l, Child(root, false));
      LeavesKeepWorkchain(r, Child(root, true));
  }

  predicate HasWorkchain(forest: seq<(int, SplitTree)>, workchain: int) {
    exists w :: w in forest && w.0 == workchain
  }

  lemma {:induction false} ForestKeepsWorkchains(forest: seq<(int, SplitTree)>)
    requires forall w :: w in forest ==> Height(w.1) <= 63
    ensures forall s :: s in ForestLeaves(forest) ==> HasWorkchain(forest, s.workchain)
  {
    if forest != [] {
      var root := ShardIdent(forest[0].0, SHARD_FULL);
      FullPrefixLen(root);
      LeavesKeepWorkchain(forest[0].1, root);
      ForestKeepsWorkchains(forest[1..]);
      assert forest[0] in forest;
      forall s | s in ForestLeaves(forest) ensures HasWorkchain(forest, s.workchain) {
        if s in ForestLeaves(forest[1..]) {
          var w :| w in forest[1..] && w.0 == s.workchain;
          assert w in forest;
        }
      }
    }
  }

  lemma OwnerAmong(shards: seq<Shard>, account: Account) returns (i: nat)
    requires Owners(shards, account) >= 1
    ensures i < |shards| && ContainsAccount(shards[i], account)
  {
    if forall s :: s in shards ==> !ContainsAccount(s, account) {
      NoOwners(shards, account);
    }
    i :| i < |shards| && ContainsAccount(shards[i], account);
  }

  /** The shard map of a state has one split tree for each of its workchains. */
  ghost predicate IsForest(forest: seq<(int, SplitTree)>) {
    && (forall w :: w in forest ==> Height(w.1) <= 63)
    && (forall i, j :: 0 <= i < j < |forest| ==> forest[i].0 != forest[j].0)
  }

  /** Two workchains have an owner each. */
  lemma OwnersApart(forest: seq<(int, SplitTree)>, account: Account) returns (i: nat, j: nat)
    requires IsForest(forest) && |forest| >= 2
    ensures i < j < |ForestLeaves(forest)|
    ensures ContainsAccount(ForestLeaves(forest)[i], account) && ContainsAccount(ForestLeaves(forest)[j], account)
    ensures ForestLeaves(forest)[i] != ForestLeaves(forest)[j]
  {
    var root, rest := ShardIdent(forest[0].0, SHARD_FULL), forest[1..];
    FullPrefixLen(root);
    var first, others := Leaves(forest[0].1, root), ForestLeaves(rest);
    OneOwnerPerWorkchain(rest, account);
    LeavesPartition(forest[0].1, root, account);
    ContainsIffTopBits(root, account);
    LeavesKeepWorkchain(forest[0].1, root);
    ForestKeepsWorkchains(rest);
    i := OwnerAmong(first, account);
    var k := OwnerAmong(others, account);
    j := |first| + k;
    assert HasWorkchain(rest, others[k].workchain);
    assert ForestLeaves(forest) == first + others;
  }

  /** The one visited first answers. */
  lemma TwoWorkchainsTwoAnswers(forest: seq<(int, SplitTree)>, account: Account)
    requires IsForest(forest) && |forest| >= 2
    ensures !OrderIrrelevant(ForestLeaves(forest), account)
  {
    var i, j := OwnersApart(forest, account);
    var shards := ForestLeaves(forest);
    AnswerOfMoved(shards, i, shards[i], account);
    AnswerOfMoved(shards, j, shards[i], account);
  }

  /** The search is deterministic exactly when the map holds the shards of at most one
      workchain, for every account and every way the workchains were split. */
  lemma {:induction false} OrderIrrelevantIffOneWorkchain(forest: seq<(int, SplitTree)>, account: Account)
    requires IsForest(forest)
    ensures OrderIrrelevant(ForestLeaves(forest), account) <==> |forest| <= 1
  {
    if |forest| <= 1 {
      OneOwnerPerWorkchain(forest, account);
      var shards := ForestLeaves(forest);
      forall o1, o2, accounts: map<Shard, ShardAccounts<nat>>
        | IsOrderOf(o1, shards) && IsOrderOf(o2, shards) && Covers(accounts, o1) && Covers(accounts, o2)
        ensures FindIn(o1, accounts, account) == FindIn(o2, accounts, account)
      {
        OneOwnerOneAnswer(shards, o1, o2, accounts, account);
      }
    } else {
      TwoWorkchainsTwoAnswers(forest, account);
    }
  }

  /** One workchain: every iteration order finds the one leaf that contains the account. */
  lemma SingleWorkchainFindsTheOwner<C>(tree: SplitTree, workchain: int, order: seq<Shard>,
                                        accounts: map<Shard, ShardAccounts<C>>, account: Account)
    returns (owner: Shard)
    requires Height(tree) <= 63
    requires IsOrderOf(order, ForestLeaves([(workchain, tree)])) && Covers(accounts, order)
    ensures owner in order && ContainsAccount(owner, account)
    ensures forall s :: s in order && ContainsAccount(s, account) ==> s == owner
    ensures FindIn(order, accounts, account) == FindInShard(accounts[owner], account)
  {
    var leaves := ForestLeaves([(workchain, tree)]);
    OneOwnerPerWorkchain([(workchain, tree)], account);
    SameElements(order, leaves);
    if forall s :: s in leaves ==> !ContainsAccount(s, account) {
      NoOwners(leaves, account);
    }
    var s :| s in leaves && ContainsAccount(s, account);
    OwnersPositive(order, s, account);
    owner := FindsAnOwner(order, accounts, account);
    forall t | t in order && ContainsAccount(t, account) ensures t == owner {
      OwnerIsUnique(leaves, t, owner, account);
    }
  }
}
