/** The program's instruction set (`TokenInstruction`), its Borsh wire form and
    the client-side builders that pair a payload with its account list. */
module TokenInstructions {
  import opened Solana
  import opened Borsh

  /** The three requests the program accepts. Each carries one `u64` amount.
      Account layout expected by the processor, by position:
        TransferLamports: 0 from [signer, writable], 1 to [writable], 2 system program
        TransferSplToken, ApproveSplToken: 0 authority [signer], 1 source token
          account [writable], 2 destination token account [writable], 3 token program */
  datatype TokenInstruction =
    | TransferLamports(amount: U64)
    | TransferSplToken(amount: U64)
    | ApproveSplToken(amount: U64)

  /** Borsh numbers enum variants in declaration order, in one byte. */
  function VariantIndex(ti: TokenInstruction): (index: U8)
    ensures index < 3
  {
    match ti
    case TransferLamports(_) => 0
    case TransferSplToken(_) => 1
    case ApproveSplToken(_) => 2
  }

  /** The variant with index `index` carrying `amount`. */
  function FromVariantIndex(index: U8, amount: U64): (ti: TokenInstruction)
    requires index < 3
    ensures VariantIndex(ti) == index && ti.amount == amount
  {
    if index == 0 then TransferLamports(amount)
    else if index == 1 then TransferSplToken(amount)
    else ApproveSplToken(amount)
  }

  /** `try_to_vec`: the variant index, then the amount as a little-endian `u64`. */
  function Serialize(ti: TokenInstruction): (bs: seq<U8>)
    ensures |bs| == 9
    ensures bs[0] == VariantIndex(ti)
    ensures FromLittleEndian(bs[1..]) == ti.amount
  {
    assert ([VariantIndex(ti)] + EncodeU64(ti.amount))[1..] == EncodeU64(ti.amount);
    [VariantIndex(ti)] + EncodeU64(ti.amount)
  }

  /** `try_from_slice`: read the variant index, reject an unknown one, read the
      amount, and reject the buffer unless it was consumed exactly. Accepts
      precisely the 9-byte buffers with a known index, and only encodings. */
  function Deserialize(bs: seq<U8>): (r: Result<TokenInstruction, DecodeError>)
    ensures r.Ok? <==> |bs| == 9 && bs[0] < 3
    ensures r.Ok? ==> Serialize(r.value) == bs
  {
    if |bs| == 0 then Err(UnexpectedLengthOfInput)
    else if bs[0] >= 3 then Err(UnexpectedVariantIndex(bs[0]))
    else if |bs| < 9 then Err(UnexpectedLengthOfInput)
    else
      var ti := FromVariantIndex(bs[0], DecodeU64(bs[1..9]));
      if |bs| > 9 then Err(NotAllBytesRead)
      else
        assert bs == [bs[0]] + bs[1..9];
        Ok(ti)
  }

  /** Decoding undoes encoding, for every variant and every `u64` amount. */
  lemma RoundTrip(ti: TokenInstruction)
    ensures Deserialize(Serialize(ti)) == Ok(ti)
  {
    var bs := Serialize(ti);
    assert bs[1..9] == bs[1..];
    assert DecodeU64(bs[1..9]) == ti.amount;
  }

  /** Encoding is injective: two instructions with the same bytes are equal. */
  lemma {:induction false} SerializeInjective(a: TokenInstruction, b: TokenInstruction)
    requires Serialize(a) == Serialize(b)
    ensures a == b
  {
    RoundTrip(a);
    RoundTrip(b);
  }

  /** How each malformed buffer is rejected: a missing or short amount is a
      length error, an unknown first byte is reported before the length is
      looked at, and trailing bytes are refused. */
  lemma DeserializeRejects(bs: seq<U8>)
    ensures |bs| == 0 ==> Deserialize(bs) == Err(UnexpectedLengthOfInput)
    ensures |bs| > 0 && bs[0] >= 3 ==> Deserialize(bs) == Err(UnexpectedVariantIndex(bs[0]))
    ensures 0 < |bs| < 9 && bs[0] < 3 ==> Deserialize(bs) == Err(UnexpectedLengthOfInput)
    ensures |bs| > 9 && bs[0] < 3 ==> Deserialize(bs) == Err(NotAllBytesRead)
  {
  }

  /** The test vector for `TransferLamports { amount: 1_234_567 }`. */
  lemma TransferLamportsVector()
    ensures Serialize(TransferLamports(1_234_567)) == [0, 135, 214, 18, 0, 0, 0, 0, 0]
    ensures Deserialize([0, 135, 214, 18, 0, 0, 0, 0, 0]) == Ok(TransferLamports(1_234_567))
  {
    var ti, bs: seq<U8> := TransferLamports(1_234_567), [0, 135, 214, 18, 0, 0, 0, 0, 0];
    assert FromLittleEndian(bs[1..9]) == ti.amount by {
      assert bs[1..9] == [135, 214, 18, 0, 0, 0, 0, 0];
      FromLittleEndianEight(bs[1..9]);
    }
    var r := Deserialize(bs);
    assert r == Ok(ti) by {
      assert DecodeU64(bs[1..9]) == ti.amount;
    }
    assert Serialize(r.value) == bs;
  }

  /** The test vector for `TransferSplToken { amount: 1_111_111 }`. */
  lemma TransferSplTokenVector()
    ensures Serialize(TransferSplToken(1_111_111)) == [1, 71, 244, 16, 0, 0, 0, 0, 0]
    ensures Deserialize([1, 71, 244, 16, 0, 0, 0, 0, 0]) == Ok(TransferSplToken(1_111_111))
  {
    var ti, bs: seq<U8> := TransferSplToken(1_111_111), [1, 71, 244, 16, 0, 0, 0, 0, 0];
    assert FromLittleEndian(bs[1..9]) == ti.amount by {
      assert bs[1..9] == [71, 244, 16, 0, 0, 0, 0, 0];
      FromLittleEndianEight(bs[1..9]);
    }
    var r := Deserialize(bs);
    assert r == Ok(ti) by {
      assert DecodeU64(bs[1..9]) == ti.amount;
    }
    assert Serialize(r.value) == bs;
  }

  /** The test vector for `ApproveSplToken { amount: 2_222_222 }`. */
  lemma ApproveSplTokenVector()
    ensures Serialize(ApproveSplToken(2_222_222)) == [2, 142, 232, 33, 0, 0, 0, 0, 0]
    ensures Deserialize([2, 142, 232, 33, 0, 0, 0, 0, 0]) == Ok(ApproveSplToken(2_222_222))
  {
    var ti, bs: seq<U8> := ApproveSplToken(2_222_222), [2, 142, 232, 33, 0, 0, 0, 0, 0];
    assert FromLittleEndian(bs[1..9]) == ti.amount by {
      assert bs[1..9] == [142, 232, 33, 0, 0, 0, 0, 0];
      FromLittleEndianEight(bs[1..9]);
    }
    var r := Deserialize(bs);
    assert r == Ok(ti) by {
      assert DecodeU64(bs[1..9]) == ti.amount;
    }
    assert Serialize(r.value) == bs;
  }

  /** `Instruction::new_with_borsh`: address this program, carry the accounts,
      and serialize the request as the payload. */
  function NewWithBorsh(ti: TokenInstruction, accounts: seq<AccountMeta>): (ix: Instruction)
    ensures ix.programId == ProgramId && ix.accounts == accounts
    ensures Deserialize(ix.data) == Ok(ti)
  {
    RoundTrip(ti);
    Instruction(ProgramId, accounts, Serialize(ti))
  }

  /** `TokenInstruction::transfer_lamports`: `from` signs and is debited, `to`
      is credited, and the system program is listed read-only. */
  function TransferLamportsInstruction(from: Pubkey, to: Pubkey, amount: U64): (ix: Instruction)
    ensures ix.programId == ProgramId
    ensures Deserialize(ix.data) == Ok(TransferLamports(amount))
    ensures |ix.accounts| == 3
    ensures ix.accounts[0] == AccountMeta(from, true, true)
    ensures ix.accounts[1] == AccountMeta(to, false, true)
    ensures ix.accounts[2] == AccountMeta(SystemProgramId, false, false)
  {
    NewWithBorsh(TransferLamports(amount),
      [WritableMeta(from, true), WritableMeta(to, false), ReadonlyMeta(SystemProgramId, false)])
  }

  /** The account list shared by both token builders: the authority signs but
      is read-only, both token accounts are writable, and the token program is
      listed read-only. */
  function SplTokenMetas(from: Pubkey, fromSplToken: Pubkey, toSplToken: Pubkey): (metas: seq<AccountMeta>)
    ensures |metas| == 4
    ensures metas[0] == AccountMeta(from, true, false)
    ensures metas[1] == AccountMeta(fromSplToken, false, true)
    ensures metas[2] == AccountMeta(toSplToken, false, true)
    ensures metas[3] == AccountMeta(SplTokenProgramId, false, false)
  {
    [ReadonlyMeta(from, true), WritableMeta(fromSplToken, false), WritableMeta(toSplToken, false),
     ReadonlyMeta(SplTokenProgramId, false)]
  }

  /** `TokenInstruction::transfer_spl_token`. */
  function TransferSplTokenInstruction(from: Pubkey, fromSplToken: Pubkey, toSplToken: Pubkey, amount: U64)
    : (ix: Instruction)
    ensures ix.programId == ProgramId
    ensures Deserialize(ix.data) == Ok(TransferSplToken(amount))
    ensures ix.accounts == SplTokenMetas(from, fromSplToken, toSplToken)
  {
    NewWithBorsh(TransferSplToken(amount), SplTokenMetas(from, fromSplToken, toSplToken))
  }

  /** `TokenInstruction::approve_spl_token`. */
  function ApproveSplTokenInstruction(from: Pubkey, fromSplToken: Pubkey, toSplToken: Pubkey, amount: U64)
    : (ix: Instruction)
    ensures ix.programId == ProgramId
    ensures Deserialize(ix.data) == Ok(ApproveSplToken(amount))
    ensures ix.accounts == SplTokenMetas(from, fromSplToken, toSplToken)
  {
    NewWithBorsh(ApproveSplToken(amount), SplTokenMetas(from, fromSplToken, toSplToken))
  }

  /** The two token builders produce the same instruction except for the
      variant byte: 1 for a transfer, 2 for an approval. */
  lemma SplBuildersDifferOnlyInVariant(from: Pubkey, fromSplToken: Pubkey, toSplToken: Pubkey, amount: U64)
    ensures var t := TransferSplTokenInstruction(from, fromSplToken, toSplToken, amount);
            var a := ApproveSplTokenInstruction(from, fromSplToken, toSplToken, amount);
            t.programId == a.programId && t.accounts == a.accounts &&
            |t.data| == |a.data| == 9 && t.data[0] == 1 && a.data[0] == 2 && t.data[1..] == a.data[1..]
  {
  }
}
