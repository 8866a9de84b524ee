/** The parts of the Solana program interface that the token program touches:
    fixed-width integers, public keys, the runtime's `Instruction`/`AccountMeta`
    and `AccountInfo` records, and `ProgramError`. */
module Solana {

  type U8 = x: int | 0 <= x < 0x100
  type U32 = x: int | 0 <= x < 0x1_0000_0000
  type U64 = x: int | 0 <= x < 0x1_0000_0000_0000_0000

  /** Failure-compatible result, so that `:-` plays the role of Rust's `?`. */
  datatype Result<+T, +E> = Ok(value: T) | Err(error: E) {
    predicate IsFailure() { Err? }

    function PropagateFailure<U>(): Result<U, E>
      requires Err?
    {
      Err(error)
    }

    function Extract(): T
      requires Ok?
    {
      value
    }
  }

  datatype Option<+T> = None | Some(value: T)

  /** A public key. Keys are only ever compared and forwarded, so the model keeps
      the base58 text by which they are written. */
  datatype Pubkey = Pubkey(base58: string)

  /** `crate::id()`, declared in src/lib.rs. */
  const ProgramId: Pubkey := Pubkey("4ieTTSrJzX1GbW9susJJpLE3bv6kuWqguCjrzYr3jUJ1")
  /** `system_program::id()`. */
  const SystemProgramId: Pubkey := Pubkey("11111111111111111111111111111111")
  /** `spl_token::id()`. */
  const SplTokenProgramId: Pubkey := Pubkey("TokenkegQfeZyiNwAJbNbGKPFXCWuBvf9Ss623VQ5DA")

  /** One entry of an instruction's account list, as a client builds it. */
  datatype AccountMeta = AccountMeta(pubkey: Pubkey, isSigner: bool, isWritable: bool)

  /** `AccountMeta::new`: a writable account. */
  function WritableMeta(pubkey: Pubkey, isSigner: bool): (m: AccountMeta)
    ensures m.pubkey == pubkey && m.isSigner == isSigner && m.isWritable
  {
    AccountMeta(pubkey, isSigner, true)
  }

  /** `AccountMeta::new_readonly`: an account the instruction may not modify. */
  function ReadonlyMeta(pubkey: Pubkey, isSigner: bool): (m: AccountMeta)
    ensures m.pubkey == pubkey && m.isSigner == isSigner && !m.isWritable
  {
    AccountMeta(pubkey, isSigner, false)
  }

  /** A client-side instruction: the program to run, its accounts and its payload. */
  datatype Instruction = Instruction(programId: Pubkey, accounts: seq<AccountMeta>, data: seq<U8>)

  /** What a program sees of an account: its key and the two permission flags.
      Balances, owner and data live in the runtime and are not read by this program. */
  datatype AccountInfo = AccountInfo(key: Pubkey, isSigner: bool, isWritable: bool)

  /** Why the deserializer rejected a buffer (the message of Borsh's `io::Error`). */
  datatype DecodeError =
    | UnexpectedLengthOfInput
    | UnexpectedVariantIndex(index: U8)
    | NotAllBytesRead

  /** The error kinds a program result can carry. `Other` stands for every kind
      that only the runtime or a called program produces. */
  datatype ProgramError =
    | Custom(code: U32)
    | MissingRequiredSignature
    | NotEnoughAccountKeys
    | BorshIoError(reason: DecodeError)
    | Other(name: string)

  type ProgramResult = Result<(), ProgramError>

  /** `TransferError::AccountNonWritable.into()`: the program's only custom error,
      discriminant 0, so `ProgramError::Custom(0)`. */
  const AccountNonWritable: ProgramError := Custom(0)

  /** The account list the runtime hands to the program for an instruction: one
      `AccountInfo` per meta, with the flags the meta asked for. */
  function AccountInfos(metas: seq<AccountMeta>): (infos: seq<AccountInfo>)
    ensures |infos| == |metas|
    ensures forall i :: 0 <= i < |metas| ==>
      infos[i] == AccountInfo(metas[i].pubkey, metas[i].isSigner, metas[i].isWritable)
  {
    if metas == [] then []
    else [AccountInfo(metas[0].pubkey, metas[0].isSigner, metas[0].isWritable)] + AccountInfos(metas[1..])
  }
}
