/**
 Reading the code hash of a serialized account without parsing it (`read_code_hash` in
 src/engine/bridge/mod.rs), against the TL-B scheme of accounts: sections 3.1 and 4.1 of
 "Telegram Open Network Blockchain".

 The primitives of `ton_block` that skip storage statistics and currencies are not in the
 repository; here they follow the same scheme.
 */
module CodeHash {
  import opened Wrappers

  type Bits = seq<bool>

  datatype Cell = Cell(hash: nat)

  datatype SliceError = CellUnderflow

  /** What is left of a cell: bits and references, each with a cursor of its own. */
  datatype Slice = Slice(bits: Bits, refs: seq<Cell>)

  type Parsed<T> = Result<(T, Slice), SliceError>

  // ---------------------------------------------------------------------------
  // Reading
  // ---------------------------------------------------------------------------

  function NextBit(s: Slice): Parsed<bool> {
    if s.bits == [] then Err(CellUnderflow) else Ok((s.bits[0], s.(bits := s.bits[1..])))
  }

  /** Big-endian. */
  function ToInt(bits: Bits): nat {
    if bits == [] then 0 else 2 * ToInt(bits[..|bits| - 1]) + (if bits[|bits| - 1] then 1 else 0)
  }

  function NextInt(s: Slice, n: nat): Parsed<nat> {
    if |s.bits| < n then Err(CellUnderflow) else Ok((ToInt(s.bits[..n]), s.(bits := s.bits[n..])))
  }

  function MoveBy(s: Slice, n: nat): Result<Slice, SliceError> {
    if |s.bits| < n then Err(CellUnderflow) else Ok(s.(bits := s.bits[n..]))
  }

  function DrainReference(s: Slice): Parsed<Cell> {
    if s.refs == [] then Err(CellUnderflow) else Ok((s.refs[0], s.(refs := s.refs[1..])))
  }

  /** A length in bytes, in so many bits, and as many bytes. */
  function SkipVarUInteger(s: Slice, lengthBits: nat): Result<Slice, SliceError> {
    var (length, rest) :- NextInt(s, lengthBits);
    MoveBy(rest, 8 * length)
  }

  const GRAMS_LENGTH_BITS: nat := 4
  const USED_LENGTH_BITS: nat := 3

  function SkipGrams(s: Slice): Result<Slice, SliceError> {
    SkipVarUInteger(s, GRAMS_LENGTH_BITS)
  }

  function SkipStorageUsed(s: Slice): Result<Slice, SliceError> {
    var cells :- SkipVarUInteger(s, USED_LENGTH_BITS);
    var bits :- SkipVarUInteger(cells, USED_LENGTH_BITS);
    SkipVarUInteger(bits, USED_LENGTH_BITS)
  }

  /** Extra currencies are a dictionary: a bit, and a reference when it is not empty. */
  function SkipCurrencies(s: Slice): Result<Slice, SliceError> {
    var grams :- SkipGrams(s);
    var (hasExtra, rest) :- NextBit(grams);
    if hasExtra then
      var (_, after) :- DrainReference(rest);
      Ok(after)
    else Ok(rest)
  }

  function SkipOptional(s: Slice, n: nat): Result<Slice, SliceError> {
    var (present, rest) :- NextBit(s);
    if present then MoveBy(rest, n) else Ok(rest)
  }

  function SkipOptionalGrams(s: Slice): Result<Slice, SliceError> {
    var (present, rest) :- NextBit(s);
    if present then SkipGrams(rest) else Ok(rest)
  }

  function SkipStorageInfo(s: Slice): Result<Slice, SliceError> {
    var used :- SkipStorageUsed(s);
    var lastPaid :- MoveBy(used, 32);
    SkipOptionalGrams(lastPaid)
  }

  function StateCodeHash(s: Slice): Result<Option<nat>, SliceError> {
    var (active, init) :- NextBit(s);
    if !active then Ok(None)
    else
      var splitDepth :- SkipOptional(init, 5);
      var special :- SkipOptional(splitDepth, 2);
      var (hasCode, rest) :- NextBit(special);
      if !hasCode then Ok(None)
      else
        var (code, _) :- DrainReference(rest);
        Ok(Some(code.hash))
  }

  function StorageCodeHash(s: Slice): Result<Option<nat>, SliceError> {
    var info :- SkipStorageInfo(s);
    var lastTransLt :- MoveBy(info, 64);
    var balance :- SkipCurrencies(lastTransLt);
    StateCodeHash(balance)
  }

  /** The code hash of a serialized account, None for an account without one. */
  function CodeHashOf(s: Slice): Result<Option<nat>, SliceError> {
    var (exists_, account) :- NextBit(s);
    if !exists_ then Ok(None)
    else
      var (tag, address) :- NextInt(account, 2);
      if tag != 2 then Ok(None)
      else
        var (anycast, plain) :- NextBit(address);
        if anycast then Ok(None)
        else
          var storage :- MoveBy(plain, 8 + 256);
          StorageCodeHash(storage)
  }

  // ---------------------------------------------------------------------------
  // The scheme
  // ---------------------------------------------------------------------------

  /** An integer of a stored length, by its bits. */
  type VarUInteger = b: Bits | |b| % 8 == 0

  datatype Anycast = Anycast(depth: nat, rewritePrefix: Bits)

  datatype Address =
    | Standard(anycast: Option<Anycast>, workchain: Bits, address: Bits)
    | Variable(anycast: Option<Anycast>, length: nat, workchain: Bits, address: Bits)

  datatype StateInit = StateInit(
    splitDepth: Option<nat>,
    special: Option<(bool, bool)>,
    code: Option<Cell>,
    data: Option<Cell>,
    library: Option<Cell>)

  datatype AccountState = Uninit | Frozen(stateHash: Bits) | Active(init: StateInit)

  datatype StorageInfo = StorageInfo(
    cells: VarUInteger, bits: VarUInteger, publicCells: VarUInteger, lastPaid: Bits, duePayment: Option<VarUInteger>)

  datatype Account =
    | AccountNone
    | Account(address: Address, info: StorageInfo, lastTransLt: Bits, grams: VarUInteger, extra: Option<Cell>,
              state: AccountState)

  /** Field widths: VarUInteger 7 has under 7 bytes, Grams under 16, and so on. */
  predicate WellFormed(a: Account) {
    a.Account? ==>
      && |a.address.workchain| == (if a.address.Standard? then 8 else 32)
      && (a.address.Standard? ==> |a.address.address| == 256)
      && |a.info.cells| < 56 && |a.info.bits| < 56 && |a.info.publicCells| < 56
      && |a.info.lastPaid| == 32 && (a.info.duePayment.Some? ==> |a.info.duePayment.value| < 128)
      && |a.lastTransLt| == 64 && |a.grams| < 128
      && (a.state.Active? && a.state.init.splitDepth.Some? ==> a.state.init.splitDepth.value < 32)
  }

  /** `n` in so many bits, big-endian. */
  function IntBits(n: nat, width: nat): (b: Bits)
    ensures |b| == width
  {
    if width == 0 then [] else IntBits(n / 2, width - 1) + [n % 2 == 1]
  }

  function Put(bits: Bits, rest: Slice): Slice {
    rest.(bits := bits + rest.bits)
  }

  function PutReference(c: Cell, rest: Slice): Slice {
    rest.(refs := [c] + rest.refs)
  }

  function PutVarUInteger(v: VarUInteger, lengthBits: nat, rest: Slice): Slice {
    Put(IntBits(|v| / 8, lengthBits), Put(v, rest))
  }

  function PutOptionalGrams(v: Option<VarUInteger>, rest: Slice): Slice {
    match v
    case None => Put([false], rest)
    case Some(grams) => Put([true], PutVarUInteger(grams, GRAMS_LENGTH_BITS, rest))
  }

  /** A bit, and a reference when there is a cell: Maybe ^Cell, and dictionaries. */
  function PutOptionalCell(c: Option<Cell>, rest: Slice): Slice {
    match c
    case None => Put([false], rest)
    case Some(cell) => Put([true], PutReference(cell, rest))
  }

  function PutAnycast(a: Option<Anycast>, rest: Slice): Slice {
    match a
    case None => Put([false], rest)
    case Some(anycast) => Put([true], Put(IntBits(anycast.depth, 5), Put(anycast.rewritePrefix, rest)))
  }

  function PutAddress(a: Address, rest: Slice): Slice {
    match a
    case Standard(anycast, workchain, address) =>
      Put([true, false], PutAnycast(anycast, Put(workchain, Put(address, rest))))
    case Variable(anycast, length, workchain, address) =>
      Put([true, true], PutAnycast(anycast, Put(IntBits(length, 9), Put(workchain, Put(address, rest)))))
  }

  function PutStorageInfo(i: StorageInfo, rest: Slice): Slice {
    PutVarUInteger(i.cells, USED_LENGTH_BITS,
      PutVarUInteger(i.bits, USED_LENGTH_BITS,
        PutVarUInteger(i.publicCells, USED_LENGTH_BITS,
          Put(i.lastPaid, PutOptionalGrams(i.duePayment, rest)))))
  }

  function PutSplitDepth(d: Option<nat>, rest: Slice): Slice {
    match d
    case None => Put([false], rest)
    case Some(depth) => Put([true], Put(IntBits(depth, 5), rest))
  }

  function PutSpecial(t: Option<(bool, bool)>, rest: Slice): Slice {
    match t
    case None => Put([false], rest)
    case Some(ticktock) => Put([true], Put([ticktock.0, ticktock.1], rest))
  }

  function PutState(state: AccountState, rest: Slice): Slice {
    match state
    case Uninit => Put([false, false], rest)
    case Frozen(stateHash) => Put([false, true], Put(stateHash, rest))
    case Active(init) =>
      Put([true], PutSplitDepth(init.splitDepth, PutSpecial(init.special,
        PutOptionalCell(init.code, PutOptionalCell(init.data, PutOptionalCell(init.library, rest))))))
  }

  /** The account, followed by anything. */
  function PutAccount(a: Account, rest: Slice): Slice {
    match a
    case AccountNone => Put([false], rest)
    case Account(address, info, lastTransLt, grams, extra, state) =>
      Put([true], PutAddress(address, PutStorageInfo(info, Put(lastTransLt,
        PutVarUInteger(grams, GRAMS_LENGTH_BITS, PutOptionalCell(extra, PutState(state, rest)))))))
  }

  /** An active account with a plain standard address, and code. */
  function ExpectedHash(a: Account): Option<nat> {
    if a.Account? && a.address.Standard? && a.address.anycast.None? && a.state.Active? && a.state.init.code.Some?
    then Some(a.state.init.code.value.hash)
    else None
  }

  // ---------------------------------------------------------------------------
  // Reading what was put
  // ---------------------------------------------------------------------------

  lemma {:induction false} IntBitsValue(n: nat, width: nat, bound: nat)
    requires n < bound && IsPower(bound, width)
    ensures ToInt(IntBits(n, width)) == n
  {
    if width > 0 {
      IntBitsValue(n / 2, width - 1, bound / 2);
      assert IntBits(n, width)[..width - 1] == IntBits(n / 2, width - 1);
    }
  }

  predicate IsPower(bound: nat, width: nat) {
    if width == 0 then bound == 1 else bound % 2 == 0 && IsPower(bound / 2, width - 1)
  }

  lemma MoveByPut(bits: Bits, rest: Slice)
    ensures MoveBy(Put(bits, rest), |bits|) == Ok(rest)
  {
    assert (bits + rest.bits)[|bits|..] == rest.bits;
  }

  lemma NextBitPut(b: bool, rest: Slice)
    ensures NextBit(Put([b], rest)) == Ok((b, rest))
  {
    assert ([b] + rest.bits)[1..] == rest.bits;
  }

  lemma NextIntPut(n: nat, width: nat, rest: Slice)
    requires exists bound :: n < bound && IsPower(bound, width)
    ensures NextInt(Put(IntBits(n, width), rest), width) == Ok((n, rest))
  {
    var bound :| n < bound && IsPower(bound, width);
    IntBitsValue(n, width, bound);
    var bits := IntBits(n, width);
    assert (bits + rest.bits)[..width] == bits && (bits + rest.bits)[width..] == rest.bits;
  }

  lemma DrainPut(c: Cell, rest: Slice)
    ensures DrainReference(PutReference(c, rest)) == Ok((c, rest))
  {
    assert ([c] + rest.refs)[1..] == rest.refs;
  }

  lemma SkipVarUIntegerPut(v: VarUInteger, lengthBits: nat, rest: Slice)
    requires exists bound :: |v| / 8 < bound && IsPower(bound, lengthBits)
    ensures SkipVarUInteger(PutVarUInteger(v, lengthBits, rest), lengthBits) == Ok(rest)
  {
    NextIntPut(|v| / 8, lengthBits, Put(v, rest));
    MoveByPut(v, rest);
  }

  lemma SkipGramsPut(v: VarUInteger, rest: Slice)
    requires |v| < 128
    ensures SkipGrams(PutVarUInteger(v, GRAMS_LENGTH_BITS, rest)) == Ok(rest)
  {
    assert |v| / 8 < 16 && IsPower(16, 4);
    SkipVarUIntegerPut(v, GRAMS_LENGTH_BITS, rest);
  }

  lemma SkipUsedPut(v: VarUInteger, rest: Slice)
    requires |v| < 56
    ensures SkipVarUInteger(PutVarUInteger(v, USED_LENGTH_BITS, rest), USED_LENGTH_BITS) == Ok(rest)
  {
    assert |v| / 8 < 8 && IsPower(8, 3);
    SkipVarUIntegerPut(v, USED_LENGTH_BITS, rest);
  }

  lemma SkipOptionalGramsPut(v: Option<VarUInteger>, rest: Slice)
    requires v.Some? ==> |v.value| < 128
    ensures SkipOptionalGrams(PutOptionalGrams(v, rest)) == Ok(rest)
  {
    match v
    case None => NextBitPut(false, rest);
    case Some(grams) =>
      NextBitPut(true, PutVarUInteger(grams, GRAMS_LENGTH_BITS, rest));
      SkipGramsPut(grams, rest);
  }

  lemma SkipStorageInfoPut(i: StorageInfo, rest: Slice)
    requires |i.cells| < 56 && |i.bits| < 56 && |i.publicCells| < 56
    requires |i.lastPaid| == 32 && (i.duePayment.Some? ==> |i.duePayment.value| < 128)
    ensures SkipStorageInfo(PutStorageInfo(i, rest)) == Ok(rest)
  {
    var due := PutOptionalGrams(i.duePayment, rest);
    var lastPaid := Put(i.lastPaid, due);
    var publicCells := PutVarUInteger(i.publicCells, USED_LENGTH_BITS, lastPaid);
    var bits := PutVarUInteger(i.bits, USED_LENGTH_BITS, publicCells);
    SkipUsedPut(i.cells, bits);
    SkipUsedPut(i.bits, publicCells);
    SkipUsedPut(i.publicCells, lastPaid);
    MoveByPut(i.lastPaid, due);
    SkipOptionalGramsPut(i.duePayment, rest);
  }

  lemma SkipCurrenciesPut(grams: VarUInteger, extra: Option<Cell>, rest: Slice)
    requires |grams| < 128
    ensures SkipCurrencies(PutVarUInteger(grams, GRAMS_LENGTH_BITS, PutOptionalCell(extra, rest))) == Ok(rest)
  {
    SkipGramsPut(grams, PutOptionalCell(extra, rest));
    match extra
    case None => NextBitPut(false, rest);
    case Some(cell) =>
      NextBitPut(true, PutReference(cell, rest));
      DrainPut(cell, rest);
  }

  lemma SkipSplitDepthPut(d: Option<nat>, rest: Slice)
    ensures SkipOptional(PutSplitDepth(d, rest), 5) == Ok(rest)
  {
    match d
    case None => NextBitPut(false, rest);
    case Some(depth) =>
      NextBitPut(true, Put(IntBits(depth, 5), rest));
      MoveByPut(IntBits(depth, 5), rest);
  }

  lemma SkipSpecialPut(t: Option<(bool, bool)>, rest: Slice)
    ensures SkipOptional(PutSpecial(t, rest), 2) == Ok(rest)
  {
    match t
    case None => NextBitPut(false, rest);
    case Some(ticktock) =>
      NextBitPut(true, Put([ticktock.0, ticktock.1], rest));
      MoveByPut([ticktock.0, ticktock.1], rest);
  }

  function CodeOf(state: AccountState): Option<nat> {
    if state.Active? && state.init.code.Some? then Some(state.init.code.value.hash) else None
  }

  lemma StateCodeHashPut(state: AccountState, rest: Slice)
    ensures StateCodeHash(PutState(state, rest)) == Ok(CodeOf(state))
  {
    match state
    case Uninit =>
    case Frozen(stateHash) =>
    case Active(init) =>
      var tail := PutOptionalCell(init.data, PutOptionalCell(init.library, rest));
      var code := PutOptionalCell(init.code, tail);
      NextBitPut(true, PutSplitDepth(init.splitDepth, PutSpecial(init.special, code)));
      SkipSplitDepthPut(init.splitDepth, PutSpecial(init.special, code));
      SkipSpecialPut(init.special, code);
      match init.code {
        case None => NextBitPut(false, tail);
        case Some(cell) =>
          NextBitPut(true, PutReference(cell, tail));
          DrainPut(cell, tail);
      }
  }

  lemma StorageCodeHashPut(a: Account, rest: Slice)
    requires a.Account? && WellFormed(a)
    ensures StorageCodeHash(PutStorageInfo(a.info, Put(a.lastTransLt,
              PutVarUInteger(a.grams, GRAMS_LENGTH_BITS, PutOptionalCell(a.extra, PutState(a.state, rest))))))
         == Ok(CodeOf(a.state))
  {
    var state := PutState(a.state, rest);
    var balance := PutVarUInteger(a.grams, GRAMS_LENGTH_BITS, PutOptionalCell(a.extra, state));
    SkipStorageInfoPut(a.info, Put(a.lastTransLt, balance));
    MoveByPut(a.lastTransLt, balance);
    SkipCurrenciesPut(a.grams, a.extra, state);
    StateCodeHashPut(a.state, rest);
  }

  lemma AddressTag(b: bool, rest: Slice)
    ensures NextInt(Put([true, b], rest), 2) == Ok((if b then 3 else 2, rest))
  {
    assert ([true, b] + rest.bits)[..2] == [true, b] && ([true, b] + rest.bits)[2..] == rest.bits;
    assert [true, b][..1] == [true] && [true][..0] == [];
    assert ToInt([true]) == 1;
  }

  /** The code hash of every well-formed account, whatever follows it: the hash of the code
      cell of an active account with a plain standard address and code, None otherwise. */
  lemma CodeHashOfAccount(a: Account, rest: Slice)
    requires WellFormed(a)
    ensures CodeHashOf(PutAccount(a, rest)) == Ok(ExpectedHash(a))
  {
    match a
    case AccountNone => NextBitPut(false, rest);
    case Account(address, info, lastTransLt, grams, extra, state) =>
      var storage := PutStorageInfo(info, Put(lastTransLt,
        PutVarUInteger(grams, GRAMS_LENGTH_BITS, PutOptionalCell(extra, PutState(state, rest)))));
      NextBitPut(true, PutAddress(address, storage));
      match address {
        case Variable(anycast, length, workchain, bits) =>
          AddressTag(true, PutAnycast(anycast, Put(IntBits(length, 9), Put(workchain, Put(bits, storage)))));
        case Standard(anycast, workchain, bits) =>
          var plain := Put(workchain, Put(bits, storage));
          AddressTag(false, PutAnycast(anycast, plain));
          match anycast {
            case Some(prefix) =>
              NextBitPut(true, Put(IntBits(prefix.depth, 5), Put(prefix.rewritePrefix, plain)));
            case None =>
              NextBitPut(false, plain);
              assert workchain + (bits + storage.bits) == (workchain + bits) + storage.bits;
              MoveByPut(workchain + bits, storage);
              StorageCodeHashPut(a, rest);
          }
      }
  }

  // ---------------------------------------------------------------------------
  // Truncated cells
  // ---------------------------------------------------------------------------

  ghost predicate IsPrefix(s: Slice, s': Slice) {
    s.bits <= s'.bits && s.refs <= s'.refs
  }

  /** More data behind what was read makes no difference. */
  ghost predicate SameStep(r: Result<Slice, SliceError>, r': Result<Slice, SliceError>) {
    r.Ok? ==> r'.Ok? && IsPrefix(r.value, r'.value)
  }

  ghost predicate SameRead<T(!new)>(r: Parsed<T>, r': Parsed<T>) {
    r.Ok? ==> r'.Ok? && r'.value.0 == r.value.0 && IsPrefix(r.value.1, r'.value.1)
  }

  lemma NextBitStable(s: Slice, s': Slice)
    requires IsPrefix(s, s')
    ensures SameRead(NextBit(s), NextBit(s'))
  {
  }

  lemma MoveByStable(s: Slice, s': Slice, n: nat)
    requires IsPrefix(s, s')
    ensures SameStep(MoveBy(s, n), MoveBy(s', n))
  {
  }

  lemma NextIntStable(s: Slice, s': Slice, n: nat)
    requires IsPrefix(s, s')
    ensures SameRead(NextInt(s, n), NextInt(s', n))
  {
    if |s.bits| >= n {
      assert s.bits[..n] == s'.bits[..n];
    }
  }

  lemma DrainStable(s: Slice, s': Slice)
    requires IsPrefix(s, s')
    ensures SameRead(DrainReference(s), DrainReference(s'))
  {
  }

  lemma SkipVarUIntegerStable(s: Slice, s': Slice, lengthBits: nat)
    requires IsPrefix(s, s')
    ensures SameStep(SkipVarUInteger(s, lengthBits), SkipVarUInteger(s', lengthBits))
  {
    NextIntStable(s, s', lengthBits);
    if NextInt(s, lengthBits).Ok? {
      var (length, rest) := NextInt(s, lengthBits).value;
      MoveByStable(rest, NextInt(s', lengthBits).value.1, 8 * length);
    }
  }

  lemma SkipStorageUsedStable(s: Slice, s': Slice)
    requires IsPrefix(s, s')
    ensures SameStep(SkipStorageUsed(s), SkipStorageUsed(s'))
  {
    SkipVarUIntegerStable(s, s', USED_LENGTH_BITS);
    var cells, cells' := SkipVarUInteger(s, USED_LENGTH_BITS), SkipVarUInteger(s', USED_LENGTH_BITS);
    if cells.Ok? {
      SkipVarUIntegerStable(cells.value, cells'.value, USED_LENGTH_BITS);
      var bits := SkipVarUInteger(cells.value, USED_LENGTH_BITS);
      var bits' := SkipVarUInteger(cells'.value, USED_LENGTH_BITS);
      if bits.Ok? {
        SkipVarUIntegerStable(bits.value, bits'.value, USED_LENGTH_BITS);
      }
    }
  }

  lemma SkipCurrenciesStable(s: Slice, s': Slice)
    requires IsPrefix(s, s')
    ensures SameStep(SkipCurrencies(s), SkipCurrencies(s'))
  {
    SkipVarUIntegerStable(s, s', GRAMS_LENGTH_BITS);
    if SkipGrams(s).Ok? {
      var grams, grams' := SkipGrams(s).value, SkipGrams(s').value;
      NextBitStable(grams, grams');
      if NextBit(grams).Ok? {
        DrainStable(NextBit(grams).value.1, NextBit(grams').value.1);
      }
    }
  }

  lemma SkipOptionalStable(s: Slice, s': Slice, n: nat)
    requires IsPrefix(s, s')
    ensures SameStep(SkipOptional(s, n), SkipOptional(s', n))
  {
    NextBitStable(s, s');
    if NextBit(s).Ok? {
      MoveByStable(NextBit(s).value.1, NextBit(s').value.1, n);
    }
  }

  lemma SkipStorageInfoStable(s: Slice, s': Slice)
    requires IsPrefix(s, s')
    ensures SameStep(SkipStorageInfo(s), SkipStorageInfo(s'))
  {
    SkipStorageUsedStable(s, s');
    if SkipStorageUsed(s).Ok? {
      var used, used' := SkipStorageUsed(s).value, SkipStorageUsed(s').value;
      MoveByStable(used, used', 32);
      if MoveBy(used, 32).Ok? {
        var paid, paid' := MoveBy(used, 32).value, MoveBy(used', 32).value;
        NextBitStable(paid, paid');
        if NextBit(paid).Ok? {
          SkipVarUIntegerStable(NextBit(paid).value.1, NextBit(paid').value.1, GRAMS_LENGTH_BITS);
        }
      }
    }
  }

  lemma StateCodeHashStable(s: Slice, s': Slice)
    requires IsPrefix(s, s')
    ensures StateCodeHash(s).Ok? ==> StateCodeHash(s') == StateCodeHash(s)
  {
    NextBitStable(s, s');
    if NextBit(s).Ok? {
      var init, init' := NextBit(s).value.1, NextBit(s').value.1;
      SkipOptionalStable(init, init', 5);
      if SkipOptional(init, 5).Ok? {
        var split, split' := SkipOptional(init, 5).value, SkipOptional(init', 5).value;
        SkipOptionalStable(split, split', 2);
        if SkipOptional(split, 2).Ok? {
          var special, special' := SkipOptional(split, 2).value, SkipOptional(split', 2).value;
          NextBitStable(special, special');
          if NextBit(special).Ok? {
            DrainStable(NextBit(special).value.1, NextBit(special').value.1);
          }
        }
      }
    }
  }

  lemma StorageCodeHashStable(s: Slice, s': Slice)
    requires IsPrefix(s, s')
    ensures StorageCodeHash(s).Ok? ==> StorageCodeHash(s') == StorageCodeHash(s)
  {
    SkipStorageInfoStable(s, s');
    if SkipStorageInfo(s).Ok? {
      var info, info' := SkipStorageInfo(s).value, SkipStorageInfo(s').value;
      MoveByStable(info, info', 64);
      if MoveBy(info, 64).Ok? {
        var lt, lt' := MoveBy(info, 64).value, MoveBy(info', 64).value;
        SkipCurrenciesStable(lt, lt');
        if SkipCurrencies(lt).Ok? {
          StateCodeHashStable(SkipCurrencies(lt).value, SkipCurrencies(lt').value);
        }
      }
    }
  }

  lemma CodeHashStable(s: Slice, s': Slice)
    requires IsPrefix(s, s')
    ensures CodeHashOf(s).Ok? ==> CodeHashOf(s') == CodeHashOf(s)
  {
    NextBitStable(s, s');
    if NextBit(s).Ok? {
      var account, account' := NextBit(s).value.1, NextBit(s').value.1;
      NextIntStable(account, account', 2);
      if NextInt(account, 2).Ok? {
        var address, address' := NextInt(account, 2).value.1, NextInt(account', 2).value.1;
        NextBitStable(address, address');
        if NextBit(address).Ok? {
          var plain, plain' := NextBit(address).value.1, NextBit(address').value.1;
          MoveByStable(plain, plain', 8 + 256);
          if MoveBy(plain, 8 + 256).Ok? {
            StorageCodeHashStable(MoveBy(plain, 8 + 256).value, MoveBy(plain', 8 + 256).value);
          }
        }
      }
    }
  }

  /** An account cut off anywhere, in bits or in references, is an error or still read
      correctly: no prefix makes up another hash. */
  lemma TruncationNeverMisleads(a: Account, rest: Slice, cut: Slice)
    requires WellFormed(a) && IsPrefix(cut, PutAccount(a, rest))
    ensures CodeHashOf(cut).Err? || CodeHashOf(cut) == Ok(ExpectedHash(a))
  {
    CodeHashOfAccount(a, rest);
    CodeHashStable(cut, PutAccount(a, rest));
  }

  // ---------------------------------------------------------------------------
  // The slice object
  // ---------------------------------------------------------------------------

  class SliceData {
    const data: Bits
    const references: seq<Cell>
    var position: nat
    var reference: nat

    ghost predicate Valid()
      reads this
    {
      position <= |data| && reference <= |references|
    }

    ghost function View(): Slice
      reads this
      requires Valid()
    {
      Slice(data[position..], references[reference..])
    }

    constructor (data: Bits, references: seq<Cell>)
      ensures Valid() && View() == Slice(data, references)
    {
      this.data := data;
      this.references := references;
      position := 0;
      reference := 0;
    }

    method GetNextBit() returns (r: Result<bool, SliceError>)
      requires Valid()
      modifies this
      ensures Valid()
      ensures r.Ok? ==> NextBit(old(View())) == Ok((r.value, View()))
      ensures r.Err? ==> NextBit(old(View())) == Err(r.error)
    {
      if position == |data| {
        return Err(CellUnderflow);
      }
      r := Ok(data[position]);
      position := position + 1;
    }

    method GetNextInt(bits: nat) returns (r: Result<nat, SliceError>)
      requires Valid()
      modifies this
      ensures Valid()
      ensures r.Ok? ==> NextInt(old(View()), bits) == Ok((r.value, View()))
      ensures r.Err? ==> NextInt(old(View()), bits) == Err(r.error)
    {
      if |data| - position < bits {
        return Err(CellUnderflow);
      }
      var value := 0;
      ghost var taken := data[position..][..bits];
      for i := 0 to bits
        invariant value == ToInt(taken[..i])
      {
        assert taken[..i + 1][..i] == taken[..i] && taken[i] == data[position + i];
        value := 2 * value + (if data[position + i] then 1 else 0);
      }
      assert taken[..bits] == taken;
      position := position + bits;
      return Ok(value);
    }

    method Advance(offset: nat) returns (r: Result<(), SliceError>)
      requires Valid()
      modifies this
      ensures Valid()
      ensures r.Ok? ==> MoveBy(old(View()), offset) == Ok(View())
      ensures r.Err? ==> MoveBy(old(View()), offset) == Err(r.error)
    {
      if |data| - position < offset {
        return Err(CellUnderflow);
      }
      position := position + offset;
      return Ok(());
    }

    method CheckedDrainReference() returns (r: Result<Cell, SliceError>)
      requires Valid()
      modifies this
      ensures Valid()
      ensures r.Ok? ==> DrainReference(old(View())) == Ok((r.value, View()))
      ensures r.Err? ==> DrainReference(old(View())) == Err(r.error)
    {
      if reference == |references| {
        return Err(CellUnderflow);
      }
      r := Ok(references[reference]);
      reference := reference + 1;
    }

    method SkipVar(lengthBits: nat) returns (r: Result<(), SliceError>)
      requires Valid()
      modifies this
      ensures Valid()
      ensures r.Ok? ==> SkipVarUInteger(old(View()), lengthBits) == Ok(View())
      ensures r.Err? ==> SkipVarUInteger(old(View()), lengthBits) == Err(r.error)
    {
      var length :- GetNextInt(lengthBits);
      r := Advance(8 * length);
    }

    method SkipUsed() returns (r: Result<(), SliceError>)
      requires Valid()
      modifies this
      ensures Valid()
      ensures r.Ok? ==> SkipStorageUsed(old(View())) == Ok(View())
      ensures r.Err? ==> SkipStorageUsed(old(View())) == Err(r.error)
    {
      var _ :- SkipVar(USED_LENGTH_BITS);
      var _ :- SkipVar(USED_LENGTH_BITS);
      r := SkipVar(USED_LENGTH_BITS);
    }

    method SkipBalance() returns (r: Result<(), SliceError>)
      requires Valid()
      modifies this
      ensures Valid()
      ensures r.Ok? ==> SkipCurrencies(old(View())) == Ok(View())
      ensures r.Err? ==> SkipCurrencies(old(View())) == Err(r.error)
    {
      var _ :- SkipVar(GRAMS_LENGTH_BITS);
      var hasExtra :- GetNextBit();
      if hasExtra {
        var _ :- CheckedDrainReference();
      }
      return Ok(());
    }

    method SkipInfo() returns (r: Result<(), SliceError>)
      requires Valid()
      modifies this
      ensures Valid()
      ensures r.Ok? ==> SkipStorageInfo(old(View())) == Ok(View())
      ensures r.Err? ==> SkipStorageInfo(old(View())) == Err(r.error)
    {
      var _ :- SkipUsed();
      var _ :- Advance(32);
      var due :- GetNextBit();
      if due {
        r := SkipVar(GRAMS_LENGTH_BITS);
      } else {
        r := Ok(());
      }
    }

    method ReadState() returns (r: Result<Option<nat>, SliceError>)
      requires Valid()
      modifies this
      ensures r == StateCodeHash(old(View()))
    {
      var active :- GetNextBit();
      if !active {
        return Ok(None);
      }
      var splitDepth :- GetNextBit();
      if splitDepth {
        var _ :- Advance(5);
      }
      var special :- GetNextBit();
      if special {
        var _ :- Advance(2);
      }
      var hasCode :- GetNextBit();
      if !hasCode {
        return Ok(None);
      }
      var code :- CheckedDrainReference();
      return Ok(Some(code.hash));
    }

    /** The cursor walk itself; what it returns is what CodeHashOfAccount is about. */
    method ReadCodeHash() returns (r: Result<Option<nat>, SliceError>)
      requires Valid()
      modifies this
      ensures r == CodeHashOf(old(View()))
    {
      var known :- GetNextBit();
      if !known {
        return Ok(None);
      }
      var tag :- GetNextInt(2);
      if tag != 2 {
        return Ok(None);
      }
      var anycast :- GetNextBit();
      if anycast {
        return Ok(None);
      }
      var _ :- Advance(8 + 256);
      var _ :- SkipInfo();
      var _ :- Advance(64);
      var _ :- SkipBalance();
      r := ReadState();
    }
  }
}
