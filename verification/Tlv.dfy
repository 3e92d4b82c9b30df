/** The walk over a Token-2022 mint's extension data, against an encoder of that data. */
module Tlv {
  import opened Types

  type Byte = x: int | 0 <= x < 256

  const ACCOUNT_TYPE_INDEX: nat := 165
  const TLV_START_INDEX: nat := 166
  const TLV_TYPE_LEN: nat := 2
  const TLV_HEADER_LEN: nat := 4
  const EXTENSION_TYPE_TRANSFER_HOOK: nat := 14
  const TRANSFER_HOOK_EXTENSION_LEN: nat := 64
  const TRANSFER_HOOK_PROGRAM_ID_OFFSET: nat := 32

  function U16(lo: Byte, hi: Byte): nat {
    lo + 256 * hi
  }

  // --- The walk as a function ---------------------------------------------------------------------

  /** Used extension data ends here: fewer bytes than a type field, or an uninitialized type. */
  predicate Terminates(data: seq<Byte>) {
    |data| < TLV_TYPE_LEN || U16(data[0], data[1]) == 0
  }

  /** An entry begins here but its header or its value is cut off. */
  predicate Malformed(data: seq<Byte>) {
    !Terminates(data) && (|data| < TLV_HEADER_LEN || |data| < TLV_HEADER_LEN + U16(data[2], data[3]))
  }

  function Find(data: seq<Byte>, target: nat): Result<Option<seq<Byte>>> {
    if Terminates(data) then Ok(None)
    else if Malformed(data) then Err(InvalidToken2022MintAccountData)
    else
      var end := TLV_HEADER_LEN + U16(data[2], data[3]);
      if U16(data[0], data[1]) == target then Ok(Some(data[TLV_HEADER_LEN..end])) else Find(data[end..], target)
  }

  /** The program's loop: terminates, reads in bounds, never overflows, and walks as `Find` does. */
  method FindExtensionValue(tlvData: seq<Byte>, target: nat) returns (r: Result<Option<seq<Byte>>>)
    requires |tlvData| <= I64_MAX
    ensures r == Find(tlvData, target)
  {
    var offset := 0;
    assert tlvData[0..] == tlvData;
    while offset < |tlvData|
      invariant 0 <= offset <= |tlvData|
      invariant Find(tlvData[offset..], target) == Find(tlvData, target)
    {
      ghost var rest := tlvData[offset..];
      if |tlvData| - offset < TLV_TYPE_LEN { return Ok(None); }
      var extType := U16(tlvData[offset], tlvData[offset + 1]);
      if extType == 0 { return Ok(None); }
      if |tlvData| - offset < TLV_HEADER_LEN { return Err(InvalidToken2022MintAccountData); }
      var length := U16(tlvData[offset + 2], tlvData[offset + 3]);
      var valueStart := offset + TLV_HEADER_LEN;
      if valueStart + length > U64_MAX { return Err(InvalidToken2022MintAccountData); }
      var valueEnd := valueStart + length;
      if valueEnd > |tlvData| { return Err(InvalidToken2022MintAccountData); }
      assert rest[TLV_HEADER_LEN..TLV_HEADER_LEN + length] == tlvData[valueStart..valueEnd];
      if extType == target { return Ok(Some(tlvData[valueStart..valueEnd])); }
      assert rest[TLV_HEADER_LEN + length..] == tlvData[valueEnd..];
      offset := valueEnd;
    }
    r := Ok(None);
  }

  // --- The encoder ----------------------------------------------------------------------------------

  /** An initialized extension: a nonzero 16-bit type and a value whose length fits 16 bits. */
  datatype Entry = Entry(kind: nat, value: seq<Byte>) {
    predicate Valid() { 0 < kind < 65536 && |value| < 65536 }
  }

  predicate AllValid(entries: seq<Entry>) {
    forall e | e in entries :: e.Valid()
  }

  predicate Lacks(entries: seq<Entry>, target: nat) {
    forall e | e in entries :: e.kind != target
  }

  function LittleEndian(n: nat): (r: seq<Byte>)
    requires n < 65536
    ensures |r| == 2 && U16(r[0], r[1]) == n
  {
    [n % 256, n / 256]
  }

  function EncodeEntry(e: Entry): (r: seq<Byte>)
    requires e.Valid()
    ensures |r| == TLV_HEADER_LEN + |e.value|
  {
    LittleEndian(e.kind) + LittleEndian(|e.value|) + e.value
  }

  function Encode(entries: seq<Entry>): seq<Byte>
    requires AllValid(entries)
  {
    if |entries| == 0 then [] else EncodeEntry(entries[0]) + Encode(entries[1..])
  }

  /** The value of the first entry of the type, if any. */
  function First(entries: seq<Entry>, target: nat): Option<seq<Byte>> {
    if |entries| == 0 then None
    else if entries[0].kind == target then Some(entries[0].value)
    else First(entries[1..], target)
  }

  // --- The search inverts the encoding ------------------------------------------------------------------

  lemma FindStep(e: Entry, tail: seq<Byte>, target: nat)
    requires e.Valid()
    ensures Find(EncodeEntry(e) + tail, target) == if e.kind == target then Ok(Some(e.value)) else Find(tail, target)
  {
    var data := EncodeEntry(e) + tail;
    assert data[0] == LittleEndian(e.kind)[0] && data[1] == LittleEndian(e.kind)[1];
    assert data[2] == LittleEndian(|e.value|)[0] && data[3] == LittleEndian(|e.value|)[1];
    assert data[TLV_HEADER_LEN..TLV_HEADER_LEN + |e.value|] == e.value;
    assert data[TLV_HEADER_LEN + |e.value|..] == tail;
  }

  lemma EncodeCons(entries: seq<Entry>, tail: seq<Byte>)
    requires |entries| > 0 && AllValid(entries)
    ensures entries[0] in entries && AllValid(entries[1..])
    ensures Encode(entries) + tail == EncodeEntry(entries[0]) + (Encode(entries[1..]) + tail)
  {
    hide EncodeEntry;
  }

  lemma EncodeNothing(entries: seq<Entry>, tail: seq<Byte>)
    requires |entries| == 0
    ensures Encode(entries) + tail == tail
  {
  }

  /** Entries of other types are walked over, whatever follows them. */
  lemma {:induction false} FindSkips(entries: seq<Entry>, tail: seq<Byte>, target: nat)
    requires AllValid(entries) && Lacks(entries, target)
    ensures Find(Encode(entries) + tail, target) == Find(tail, target)
  {
    hide Find, EncodeEntry, Encode;
    if |entries| == 0 {
      EncodeNothing(entries, tail);
    } else {
      EncodeCons(entries, tail);
      FindSkips(entries[1..], tail, target);
      FindStep(entries[0], Encode(entries[1..]) + tail, target);
    }
  }

  /** On any encoded list, followed by zero or sub-header padding, the walk returns the first match or none. */
  lemma {:induction false} FindInvertsEncode(entries: seq<Entry>, padding: seq<Byte>, target: nat)
    requires AllValid(entries) && Terminates(padding)
    ensures Find(Encode(entries) + padding, target) == Ok(First(entries, target))
  {
    hide EncodeEntry, Encode, Terminates;
    if |entries| == 0 {
      EncodeNothing(entries, padding);
    } else {
      hide Find;
      EncodeCons(entries, padding);
      FindInvertsEncode(entries[1..], padding, target);
      FindStep(entries[0], Encode(entries[1..]) + padding, target);
    }
  }

  // --- Every byte string ------------------------------------------------------------------------------------

  /** `data` is entries of other types and then `rest`. */
  ghost predicate After(data: seq<Byte>, entries: seq<Entry>, rest: seq<Byte>, target: nat) {
    AllValid(entries) && Lacks(entries, target) && data == Encode(entries) + rest
  }

  predicate MatchesAt(rest: seq<Byte>, target: nat) {
    !Terminates(rest) && !Malformed(rest) && U16(rest[0], rest[1]) == target
  }

  /** An entry that is neither cut off nor a terminator is some valid entry's encoding. */
  lemma EntryAt(data: seq<Byte>) returns (e: Entry)
    requires !Terminates(data) && !Malformed(data)
    ensures e.Valid() && e.kind == U16(data[0], data[1]) && |e.value| == U16(data[2], data[3])
    ensures data == EncodeEntry(e) + data[TLV_HEADER_LEN + |e.value|..]
  {
    var end := TLV_HEADER_LEN + U16(data[2], data[3]);
    e := Entry(U16(data[0], data[1]), data[TLV_HEADER_LEN..end]);
    assert LittleEndian(e.kind) == data[..2] && LittleEndian(|e.value|) == data[2..4];
    assert EncodeEntry(e) == data[..end];
  }

  /** Walking any byte string ends at a terminator, a malformed entry or a match. */
  lemma {:induction false} WalkEnds(data: seq<Byte>, target: nat) returns (entries: seq<Entry>, rest: seq<Byte>)
    ensures After(data, entries, rest, target)
    ensures Terminates(rest) || Malformed(rest) || MatchesAt(rest, target)
  {
    if Terminates(data) || Malformed(data) || MatchesAt(data, target) {
      entries, rest := [], data;
      assert Encode([]) + data == data;
    } else {
      var e := EntryAt(data);
      var more: seq<Entry>;
      more, rest := WalkEnds(data[TLV_HEADER_LEN + |e.value|..], target);
      entries := [e] + more;
      assert entries[1..] == more;
      assert Encode(entries) + rest == EncodeEntry(e) + (Encode(more) + rest);
    }
  }

  /** An error exactly when a malformed entry comes before any match or terminator. */
  lemma ErrorExactlyWhenMalformed(data: seq<Byte>, target: nat)
    ensures Find(data, target).Err? <==> exists entries, rest :: After(data, entries, rest, target) && Malformed(rest)
  {
    if entries, rest :| After(data, entries, rest, target) && Malformed(rest) {
      FindSkips(entries, rest, target);
    }
    var entries, rest := WalkEnds(data, target);
    FindSkips(entries, rest, target);
  }

  /** No value exactly when a terminator comes before any match or malformed entry. */
  lemma NoneExactlyWhenTerminated(data: seq<Byte>, target: nat)
    ensures Find(data, target) == Ok(None)
       <==> exists entries, rest :: After(data, entries, rest, target) && Terminates(rest)
  {
    if entries, rest :| After(data, entries, rest, target) && Terminates(rest) {
      FindSkips(entries, rest, target);
    }
    var entries, rest := WalkEnds(data, target);
    FindSkips(entries, rest, target);
  }

  /** A value exactly when an entry of the type comes before any terminator or malformed entry: the first one's. */
  lemma ValueExactlyWhenMatched(data: seq<Byte>, target: nat, v: seq<Byte>)
    ensures Find(data, target) == Ok(Some(v))
       <==> exists entries, rest :: After(data, entries, rest, target) && MatchesAt(rest, target) &&
                                    v == rest[TLV_HEADER_LEN..TLV_HEADER_LEN + U16(rest[2], rest[3])]
  {
    if entries, rest :| After(data, entries, rest, target) && MatchesAt(rest, target) &&
                        v == rest[TLV_HEADER_LEN..TLV_HEADER_LEN + U16(rest[2], rest[3])] {
      FindSkips(entries, rest, target);
    }
    var entries, rest := WalkEnds(data, target);
    FindSkips(entries, rest, target);
  }

  // --- The transfer hook of a mint -----------------------------------------------------------------------------

  predicate AllZero(s: seq<Byte>) {
    forall b | b in s :: b == 0
  }

  function HookOf(value: Option<seq<Byte>>): Result<Option<seq<Byte>>> {
    match value
    case None => Ok(None)
    case Some(v) =>
      if |v| != TRANSFER_HOOK_EXTENSION_LEN then Err(InvalidToken2022MintAccountData)
      else if AllZero(v[TRANSFER_HOOK_PROGRAM_ID_OFFSET..]) then Ok(None)
      else Ok(Some(v[TRANSFER_HOOK_PROGRAM_ID_OFFSET..]))
  }

  function HookProgram(mintData: seq<Byte>): Result<Option<seq<Byte>>> {
    if |mintData| <= ACCOUNT_TYPE_INDEX then Ok(None)
    else
      var value :- Find(mintData[TLV_START_INDEX..], EXTENSION_TYPE_TRANSFER_HOOK);
      HookOf(value)
  }

  method MintTransferHookProgramId(mintData: seq<Byte>) returns (r: Result<Option<seq<Byte>>>)
    requires |mintData| <= I64_MAX
    ensures r == HookProgram(mintData)
  {
    if |mintData| <= ACCOUNT_TYPE_INDEX { return Ok(None); }
    var value :- FindExtensionValue(mintData[TLV_START_INDEX..], EXTENSION_TYPE_TRANSFER_HOOK);
    if value == None { return Ok(None); }
    if |value.value| != TRANSFER_HOOK_EXTENSION_LEN { return Err(InvalidToken2022MintAccountData); }
    var programId := value.value[TRANSFER_HOOK_PROGRAM_ID_OFFSET..];
    var i := 0;
    while i < |programId| && programId[i] == 0
      invariant 0 <= i <= |programId|
      invariant forall k | 0 <= k < i :: programId[k] == 0
    {
      i := i + 1;
    }
    if i == |programId| { return Ok(None); }
    assert programId[i] in programId;
    r := Ok(Some(programId));
  }

  /**
   * A mint of a 165-byte base, the account type, extensions and padding: the hook program is the last 32
   * of the first type-14 entry's 64 bytes, and none without such an entry or when they are all zero; an
   * entry of any other length is an error.
   */
  lemma HookRoundTrip(base: seq<Byte>, accountType: Byte, entries: seq<Entry>, padding: seq<Byte>)
    requires |base| == 165 && AllValid(entries) && Terminates(padding)
    ensures var r := HookProgram(base + [accountType] + (Encode(entries) + padding));
            match First(entries, 14)
            case None => r == Ok(None)
            case Some(v) =>
              if |v| != 64 then r == Err(InvalidToken2022MintAccountData)
              else if forall i | 32 <= i < 64 :: v[i] == 0 then r == Ok(None)
              else r == Ok(Some(v[32..64]))
  {
    var tlv := Encode(entries) + padding;
    assert (base + [accountType] + tlv)[TLV_START_INDEX..] == tlv;
    FindInvertsEncode(entries, padding, EXTENSION_TYPE_TRANSFER_HOOK);
    var value := First(entries, 14);
    if value.Some? && |value.value| == 64 {
      var v := value.value;
      assert v[32..] == v[32..64];
      assert forall i | 32 <= i < 64 :: v[i] == v[32..][i - 32] && v[32..][i - 32] in v[32..];
    }
  }

  /** A mint without extension data has no hook. */
  lemma BaseMintHasNoHook(base: seq<Byte>)
    requires |base| <= 166
    ensures HookProgram(base) == Ok(None)
  {
  }
}
