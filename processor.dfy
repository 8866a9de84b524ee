/** `Processor`: decode the payload, pick the handler for its variant, fetch the
    handler's accounts, check their signer and writable flags in a fixed order,
    and only then delegate the work to the system or token program through one
    `invoke`.

    The handlers are methods over an account iterator and a `Host` that records
    every invocation. Each is specified by `HandlerOutcome`, which is written
    from the positional account schema of the instruction rather than from the
    handler's code: the schema lists, per position, whether a signature and
    write access are required, and `FirstViolation` reports the first missing
    one in position order, signature before write access. */
module Processor {
  import opened Solana
  import opened TokenInstructions

  /** The instruction a handler asks the runtime to invoke, as built by
      `system_instruction::transfer` or `spl_token::instruction::{transfer, approve}`,
      recorded by the arguments it was built from. */
  datatype CalleeInstruction =
    | SystemTransfer(from: Pubkey, to: Pubkey, lamports: U64)
    | SplTransfer(tokenProgram: Pubkey, source: Pubkey, destination: Pubkey, authority: Pubkey,
                  signers: seq<Pubkey>, amount: U64)
    | SplApprove(tokenProgram: Pubkey, source: Pubkey, delegate: Pubkey, owner: Pubkey,
                 signers: seq<Pubkey>, amount: U64)
  {
    /** The amount the called program is asked to move or approve. */
    function Amount(): U64 {
      match this
      case SystemTransfer(_, _, lamports) => lamports
      case SplTransfer(_, _, _, _, _, amount) => amount
      case SplApprove(_, _, _, _, _, amount) => amount
    }
  }

  /** One call of `invoke`: the instruction and the account infos passed with it. */
  datatype Invocation = Invocation(instruction: CalleeInstruction, accountInfos: seq<AccountInfo>)

  /** What one call of the program amounts to: its result and the invocations it issued. */
  datatype Outcome = Outcome(result: ProgramResult, invoked: seq<Invocation>)

  /** The runtime as seen from the program. Whether the token program's
      instruction builder accepts its arguments, and whether an invocation
      succeeds, are decided outside this program and given as functions. */
  class Host {
    /** Every invocation issued so far, in order. */
    var log: seq<Invocation>
    /** The verdict of `spl_token::instruction::{transfer, approve}` on its arguments. */
    const build: CalleeInstruction -> ProgramResult
    /** The verdict of `invoke`. */
    const verdict: Invocation -> ProgramResult

    constructor (build: CalleeInstruction -> ProgramResult, verdict: Invocation -> ProgramResult)
      ensures this.build == build && this.verdict == verdict && log == []
    {
      this.build := build;
      this.verdict := verdict;
      log := [];
    }

    /** `invoke`: issue the call and report the runtime's verdict on it. */
    method Invoke(call: Invocation) returns (r: ProgramResult)
      modifies this
      ensures log == old(log) + [call]
      ensures r == verdict(call)
    {
      log := log + [call];
      r := verdict(call);
    }
  }

  /** `accounts.iter()` advanced by `next_account_info`. */
  class AccountIter {
    const accounts: seq<AccountInfo>
    var position: nat

    constructor (accounts: seq<AccountInfo>)
      ensures this.accounts == accounts && position == 0
    {
      this.accounts := accounts;
      position := 0;
    }

    /** `next_account_info`: the next account, or `NotEnoughAccountKeys` once
        the list is exhausted. */
    method Next() returns (r: Result<AccountInfo, ProgramError>)
      modifies this
      ensures old(position) < |accounts| ==> r == Ok(accounts[old(position)]) && position == old(position) + 1
      ensures old(position) >= |accounts| ==> r == Err(NotEnoughAccountKeys) && position == old(position)
    {
      if position < |accounts| {
        r := Ok(accounts[position]);
        position := position + 1;
      } else {
        r := Err(NotEnoughAccountKeys);
      }
    }
  }

  // ---------------------------------------------------------------------------
  // The positional account schema and the reference outcome

  /** What one account position requires. */
  datatype Slot = Slot(signer: bool, writable: bool)

  /** The positions a handler fetches, in order, and what each requires. The
      lamports handler fetches only `from` and `to`; the token handlers fetch
      the authority, both token accounts and the token program, and require
      nothing of the authority but its signature. */
  function Schema(ti: TokenInstruction): (s: seq<Slot>)
    ensures ti.TransferLamports? ==> |s| == 2
    ensures !ti.TransferLamports? ==> |s| == 4 && !s[0].writable && s[3] == Slot(false, false)
    ensures forall i :: 0 <= i < |s| ==> (s[i].signer <==> i == 0)
  {
    match ti
    case TransferLamports(_) => [Slot(true, true), Slot(false, true)]
    case _ => [Slot(true, false), Slot(false, true), Slot(false, true), Slot(false, false)]
  }

  predicate Admits(slot: Slot, account: AccountInfo) {
    (slot.signer ==> account.isSigner) && (slot.writable ==> account.isWritable)
  }

  /** The accounts are present and carry every flag the schema requires. */
  predicate Meets(accounts: seq<AccountInfo>, schema: seq<Slot>) {
    |schema| <= |accounts| && forall i :: 0 <= i < |schema| ==> Admits(schema[i], accounts[i])
  }

  /** The error for the first unmet requirement, visiting positions in order
      and, within a position, the signature before write access. */
  function FirstViolation(accounts: seq<AccountInfo>, schema: seq<Slot>): (e: Option<ProgramError>)
    requires |schema| <= |accounts|
    ensures e == None || e == Some(MissingRequiredSignature) || e == Some(AccountNonWritable)
  {
    if schema == [] then None
    else if schema[0].signer && !accounts[0].isSigner then Some(MissingRequiredSignature)
    else if schema[0].writable && !accounts[0].isWritable then Some(AccountNonWritable)
    else FirstViolation(accounts[1..], schema[1..])
  }

  /** The checks pass exactly when every requirement of the schema is met. */
  lemma {:induction false} FirstViolationIffUnmet(accounts: seq<AccountInfo>, schema: seq<Slot>)
    requires |schema| <= |accounts|
    ensures FirstViolation(accounts, schema) == None <==> Meets(accounts, schema)
  {
    if schema != [] {
      FirstViolationIffUnmet(accounts[1..], schema[1..]);
      if Admits(schema[0], accounts[0]) && Meets(accounts[1..], schema[1..]) {
        forall i | 0 <= i < |schema| ensures Admits(schema[i], accounts[i]) {
          if i > 0 {
            assert schema[1..][i - 1] == schema[i] && accounts[1..][i - 1] == accounts[i];
          }
        }
      }
      if Meets(accounts, schema) {
        assert Admits(schema[0], accounts[0]);
        forall i | 0 <= i < |schema| - 1 ensures Admits(schema[1..][i], accounts[1..][i]) {
          assert Admits(schema[i + 1], accounts[i + 1]);
        }
      }
    }
  }

  /** Two account lists that agree on every flag the schema requires give the
      same verdict, whatever their other flags and trailing accounts. */
  lemma {:induction false} FirstViolationReadsOnlyRequiredFlags(a: seq<AccountInfo>, b: seq<AccountInfo>, schema: seq<Slot>)
    requires |schema| <= |a| && |schema| <= |b|
    requires forall i :: 0 <= i < |schema| ==>
      (schema[i].signer ==> a[i].isSigner == b[i].isSigner) && (schema[i].writable ==> a[i].isWritable == b[i].isWritable)
    ensures FirstViolation(a, schema) == FirstViolation(b, schema)
  {
    if schema != [] {
      forall i | 0 <= i < |schema| - 1
        ensures (schema[1..][i].signer ==> a[1..][i].isSigner == b[1..][i].isSigner)
             && (schema[1..][i].writable ==> a[1..][i].isWritable == b[1..][i].isWritable)
      {
        assert schema[1..][i] == schema[i + 1];
      }
      FirstViolationReadsOnlyRequiredFlags(a[1..], b[1..], schema[1..]);
    }
  }

  /** The invocation a handler issues once its checks pass: the keys of the
      fetched accounts in their roles, the decoded amount unchanged, and the
      fetched accounts themselves as the account infos. */
  function ExpectedCall(ti: TokenInstruction, accounts: seq<AccountInfo>): (call: Invocation)
    requires |Schema(ti)| <= |accounts|
    ensures call.instruction.Amount() == ti.amount
    ensures call.accountInfos == accounts[..|Schema(ti)|]
  {
    match ti
    case TransferLamports(amount) =>
      Invocation(SystemTransfer(accounts[0].key, accounts[1].key, amount), accounts[..2])
    case TransferSplToken(amount) =>
      Invocation(SplTransfer(accounts[3].key, accounts[1].key, accounts[2].key, accounts[0].key,
                             [accounts[0].key], amount), accounts[..4])
    case ApproveSplToken(amount) =>
      Invocation(SplApprove(accounts[3].key, accounts[1].key, accounts[2].key, accounts[0].key,
                            [accounts[0].key], amount), accounts[..4])
  }

  /** What the handler for `ti` does with `accounts`: too few accounts fail
      before any flag is read; otherwise the first unmet requirement fails;
      otherwise the token handlers first let the token program's builder
      accept the call, and then exactly one invocation is issued and its
      verdict is the result. */
  function HandlerOutcome(ti: TokenInstruction, accounts: seq<AccountInfo>,
                          build: CalleeInstruction -> ProgramResult,
                          verdict: Invocation -> ProgramResult): (o: Outcome)
    ensures |o.invoked| <= 1
    ensures |accounts| < |Schema(ti)| ==> o == Outcome(Err(NotEnoughAccountKeys), [])
    ensures o.invoked != [] ==>
      Meets(accounts, Schema(ti)) && o.invoked == [ExpectedCall(ti, accounts)] && o.result == verdict(o.invoked[0])
    ensures Meets(accounts, Schema(ti)) && (ti.TransferLamports? || build(ExpectedCall(ti, accounts).instruction).Ok?)
      ==> o.invoked != []
    ensures o.invoked == [] ==> o.result.Err?
  {
    var schema := Schema(ti);
    if |accounts| < |schema| then Outcome(Err(NotEnoughAccountKeys), [])
    else
      FirstViolationIffUnmet(accounts, schema);
      match FirstViolation(accounts, schema)
      case Some(e) => Outcome(Err(e), [])
      case None =>
        var call := ExpectedCall(ti, accounts);
        var built := if ti.TransferLamports? then Ok(()) else build(call.instruction);
        if built.Err? then Outcome(built, []) else Outcome(verdict(call), [call])
  }

  /** What `process` does with a payload: a malformed payload fails before any
      account is looked at; otherwise the decoded request goes to its handler. */
  function ProcessOutcome(accounts: seq<AccountInfo>, input: seq<U8>,
                          build: CalleeInstruction -> ProgramResult,
                          verdict: Invocation -> ProgramResult): (o: Outcome)
    ensures Deserialize(input).Err? ==> o == Outcome(Err(BorshIoError(Deserialize(input).error)), [])
    ensures |o.invoked| <= 1
    ensures o.invoked != [] ==>
      && Deserialize(input).Ok?
      && Meets(accounts, Schema(Deserialize(input).value))
      && o.invoked[0] == ExpectedCall(Deserialize(input).value, accounts)
    ensures o.result.Ok? ==> |o.invoked| == 1 && verdict(o.invoked[0]).Ok?
  {
    match Deserialize(input)
    case Err(e) => Outcome(Err(BorshIoError(e)), [])
    case Ok(ti) => HandlerOutcome(ti, accounts, build, verdict)
  }

  // ---------------------------------------------------------------------------
  // The check order each handler's code follows

  /** The lamports handler's checks, in schema order: `from` must sign, then
      `from` and then `to` must be writable. */
  lemma LamportsCheckOrder(ti: TokenInstruction, accounts: seq<AccountInfo>)
    requires ti.TransferLamports? && 2 <= |accounts|
    ensures FirstViolation(accounts, Schema(ti)) ==
      if !accounts[0].isSigner then Some(MissingRequiredSignature)
      else if !accounts[0].isWritable then Some(AccountNonWritable)
      else if !accounts[1].isWritable then Some(AccountNonWritable)
      else None
  {
    var s := Schema(ti);
    assert s[1..] == [Slot(false, true)] && s[1..][1..] == [];
    assert accounts[1..][0] == accounts[1];
    assert FirstViolation(accounts[1..][1..], s[1..][1..]) == None;
  }

  /** The token handlers' checks, in schema order: the authority must sign,
      then the source and then the destination token account must be
      writable. The authority's write access and the token program account's
      flags are not looked at. */
  lemma SplTokenCheckOrder(ti: TokenInstruction, accounts: seq<AccountInfo>)
    requires !ti.TransferLamports? && 4 <= |accounts|
    ensures FirstViolation(accounts, Schema(ti)) ==
      if !accounts[0].isSigner then Some(MissingRequiredSignature)
      else if !accounts[1].isWritable then Some(AccountNonWritable)
      else if !accounts[2].isWritable then Some(AccountNonWritable)
      else None
  {
    var s := Schema(ti);
    var a1, a2, a3 := accounts[1..], accounts[2..], accounts[3..];
    var s1, s2, s3 := s[1..], s[2..], s[3..];
    assert a1[0] == accounts[1] && a2[0] == accounts[2] && a1[1..] == a2 && a2[1..] == a3;
    assert s1[1..] == s2 && s2[1..] == s3 && s3[1..] == [];
    assert FirstViolation(a3, s3) == None by {
      assert FirstViolation(a3[1..], s3[1..]) == None;
    }
    assert FirstViolation(a2, s2) == if !accounts[2].isWritable then Some(AccountNonWritable) else None;
    assert FirstViolation(a1, s1) ==
      if !accounts[1].isWritable then Some(AccountNonWritable)
      else if !accounts[2].isWritable then Some(AccountNonWritable)
      else None;
  }

  // ---------------------------------------------------------------------------
  // Properties of the outcome

  /** Which error wins: with enough accounts, an authority that did not sign
      fails with `MissingRequiredSignature` whatever the other flags; a signed
      request that misses a required write access fails with
      `AccountNonWritable`; in both cases nothing is invoked. */
  lemma {:induction false} HandlerErrorPrecedence(ti: TokenInstruction, accounts: seq<AccountInfo>,
                                                  build: CalleeInstruction -> ProgramResult,
                                                  verdict: Invocation -> ProgramResult)
    requires |Schema(ti)| <= |accounts|
    ensures !accounts[0].isSigner ==>
      HandlerOutcome(ti, accounts, build, verdict) == Outcome(Err(MissingRequiredSignature), [])
    ensures accounts[0].isSigner && !Meets(accounts, Schema(ti)) ==>
      HandlerOutcome(ti, accounts, build, verdict) == Outcome(Err(AccountNonWritable), [])
  {
    FirstViolationIffUnmet(accounts, Schema(ti));
    if ti.TransferLamports? {
      LamportsCheckOrder(ti, accounts);
    } else {
      SplTokenCheckOrder(ti, accounts);
    }
  }

  /** Accounts past the ones a handler fetches are never looked at. */
  lemma {:induction false} ExtraAccountsIgnored(ti: TokenInstruction, accounts: seq<AccountInfo>, extra: seq<AccountInfo>,
                                                build: CalleeInstruction -> ProgramResult,
                                                verdict: Invocation -> ProgramResult)
    requires |Schema(ti)| <= |accounts|
    ensures HandlerOutcome(ti, accounts + extra, build, verdict) == HandlerOutcome(ti, accounts, build, verdict)
  {
    var n := |Schema(ti)|;
    var all := accounts + extra;
    assert forall i :: 0 <= i < n ==> all[i] == accounts[i];
    assert all[..n] == accounts[..n];
    FirstViolationReadsOnlyRequiredFlags(all, accounts, Schema(ti));
  }

  /** Flags the schema does not require are never checked: two account lists
      with the same keys that differ only in such flags are accepted or
      rejected alike, with the same error. (When both are accepted the
      invocations differ only in the account infos' flags.) */
  lemma {:induction false} UncheckedFlagsIgnored(ti: TokenInstruction, a: seq<AccountInfo>, b: seq<AccountInfo>,
                                                 build: CalleeInstruction -> ProgramResult,
                                                 verdict: Invocation -> ProgramResult)
    requires |a| == |b|
    requires forall i :: 0 <= i < |a| ==> a[i].key == b[i].key
    requires forall i :: 0 <= i < |Schema(ti)| && i < |a| ==>
      (Schema(ti)[i].signer ==> a[i].isSigner == b[i].isSigner) && (Schema(ti)[i].writable ==> a[i].isWritable == b[i].isWritable)
    ensures (HandlerOutcome(ti, a, build, verdict).invoked == []) == (HandlerOutcome(ti, b, build, verdict).invoked == [])
    ensures HandlerOutcome(ti, a, build, verdict).invoked == [] ==>
      HandlerOutcome(ti, a, build, verdict).result == HandlerOutcome(ti, b, build, verdict).result
    ensures HandlerOutcome(ti, a, build, verdict).invoked != [] ==>
      HandlerOutcome(ti, a, build, verdict).invoked[0].instruction == HandlerOutcome(ti, b, build, verdict).invoked[0].instruction
  {
    if |Schema(ti)| <= |a| {
      FirstViolationReadsOnlyRequiredFlags(a, b, Schema(ti));
      assert ExpectedCall(ti, a).instruction == ExpectedCall(ti, b).instruction by {
        assert a[0].key == b[0].key && a[1].key == b[1].key;
        if !ti.TransferLamports? {
          assert a[2].key == b[2].key && a[3].key == b[3].key;
        }
      }
    }
  }

  /** The lamports handler never asks `to` to sign: with `from` signing and
      writable and `to` writable, the transfer is invoked. */
  lemma DestinationNeedNotSign(amount: U64, accounts: seq<AccountInfo>,
                               build: CalleeInstruction -> ProgramResult,
                               verdict: Invocation -> ProgramResult)
    requires 2 <= |accounts| && accounts[0].isSigner && accounts[0].isWritable && accounts[1].isWritable
    ensures HandlerOutcome(TransferLamports(amount), accounts, build, verdict).invoked
         == [Invocation(SystemTransfer(accounts[0].key, accounts[1].key, amount), accounts[..2])]
  {
    assert Meets(accounts, Schema(TransferLamports(amount)));
  }

  /** The token handlers never ask the authority to be writable: with the
      authority signing and both token accounts writable, the call goes to
      the token program's builder and, if it accepts, is invoked. */
  lemma AuthorityNeedNotBeWritable(ti: TokenInstruction, accounts: seq<AccountInfo>,
                                   build: CalleeInstruction -> ProgramResult,
                                   verdict: Invocation -> ProgramResult)
    requires !ti.TransferLamports? && 4 <= |accounts|
    requires accounts[0].isSigner && accounts[1].isWritable && accounts[2].isWritable
    ensures var call := ExpectedCall(ti, accounts);
            HandlerOutcome(ti, accounts, build, verdict)
            == if build(call.instruction).Err? then Outcome(build(call.instruction), [])
               else Outcome(verdict(call), [call])
  {
    SplTokenCheckOrder(ti, accounts);
  }

  // ---------------------------------------------------------------------------
  // Instructions made by the builders pass the processor's checks

  /** A `transfer_lamports` instruction, given to the program with the flags
      its metas ask for, issues exactly the system transfer from `from` to
      `to` of `amount`, and the program's result is that transfer's. */
  lemma BuiltTransferLamportsAccepted(from: Pubkey, to: Pubkey, amount: U64,
                                      build: CalleeInstruction -> ProgramResult,
                                      verdict: Invocation -> ProgramResult)
    ensures var ix := TransferLamportsInstruction(from, to, amount);
            var call := Invocation(SystemTransfer(from, to, amount),
                                   [AccountInfo(from, true, true), AccountInfo(to, false, true)]);
            ProcessOutcome(AccountInfos(ix.accounts), ix.data, build, verdict) == Outcome(verdict(call), [call])
  {
    var ix := TransferLamportsInstruction(from, to, amount);
    var infos := AccountInfos(ix.accounts);
    assert infos[..2] == [AccountInfo(from, true, true), AccountInfo(to, false, true)];
    DestinationNeedNotSign(amount, infos, build, verdict);
  }

  /** A `transfer_spl_token` instruction passes every check; what remains is
      the token program's verdict on building and then on running the
      transfer of `amount` from `fromSplToken` to `toSplToken` signed by `from`. */
  lemma BuiltTransferSplTokenAccepted(from: Pubkey, fromSplToken: Pubkey, toSplToken: Pubkey, amount: U64,
                                      build: CalleeInstruction -> ProgramResult,
                                      verdict: Invocation -> ProgramResult)
    ensures var ix := TransferSplTokenInstruction(from, fromSplToken, toSplToken, amount);
            var transfer := SplTransfer(SplTokenProgramId, fromSplToken, toSplToken, from, [from], amount);
            var call := Invocation(transfer, AccountInfos(ix.accounts));
            ProcessOutcome(AccountInfos(ix.accounts), ix.data, build, verdict)
            == if build(transfer).Err? then Outcome(build(transfer), []) else Outcome(verdict(call), [call])
  {
    var ix := TransferSplTokenInstruction(from, fromSplToken, toSplToken, amount);
    var infos := AccountInfos(ix.accounts);
    assert infos[..4] == infos;
    AuthorityNeedNotBeWritable(TransferSplToken(amount), infos, build, verdict);
  }

  /** An `approve_spl_token` instruction passes every check; what remains is
      the token program's verdict on building and then on running the
      approval of `toSplToken` for `amount` from `fromSplToken`, signed by `from`. */
  lemma BuiltApproveSplTokenAccepted(from: Pubkey, fromSplToken: Pubkey, toSplToken: Pubkey, amount: U64,
                                     build: CalleeInstruction -> ProgramResult,
                                     verdict: Invocation -> ProgramResult)
    ensures var ix := ApproveSplTokenInstruction(from, fromSplToken, toSplToken, amount);
            var approve := SplApprove(SplTokenProgramId, fromSplToken, toSplToken, from, [from], amount);
            var call := Invocation(approve, AccountInfos(ix.accounts));
            ProcessOutcome(AccountInfos(ix.accounts), ix.data, build, verdict)
            == if build(approve).Err? then Outcome(build(approve), []) else Outcome(verdict(call), [call])
  {
    var ix := ApproveSplTokenInstruction(from, fromSplToken, toSplToken, amount);
    var infos := AccountInfos(ix.accounts);
    assert infos[..4] == infos;
    AuthorityNeedNotBeWritable(ApproveSplToken(amount), infos, build, verdict);
  }

  /** The lamports scenario end to end: the payload of `transfer_lamports`
      for 1_111_111 lamports, with `from` signing and writable, `to` writable
      and a third account of any kind. Exactly one system transfer of
      1_111_111 from `from` to `to` is invoked, and its verdict is the result. */
  lemma TransferLamportsScenario(from: AccountInfo, to: AccountInfo, third: AccountInfo,
                                 build: CalleeInstruction -> ProgramResult,
                                 verdict: Invocation -> ProgramResult)
    requires from.isSigner && from.isWritable && to.isWritable
    ensures var ix := TransferLamportsInstruction(from.key, to.key, 1_111_111);
            var call := Invocation(SystemTransfer(from.key, to.key, 1_111_111), [from, to]);
            ProcessOutcome([from, to, third], ix.data, build, verdict) == Outcome(verdict(call), [call])
  {
    var accounts := [from, to, third];
    assert accounts[..2] == [from, to];
    DestinationNeedNotSign(1_111_111, accounts, build, verdict);
  }

  // ---------------------------------------------------------------------------
  // The handlers

  /** `Processor::transfer_lamports`. */
  method ProcessTransferLamports(accounts: seq<AccountInfo>, amount: U64, host: Host) returns (r: ProgramResult)
    modifies host
    ensures r == HandlerOutcome(TransferLamports(amount), accounts, host.build, host.verdict).result
    ensures host.log == old(host.log) + HandlerOutcome(TransferLamports(amount), accounts, host.build, host.verdict).invoked
  {
    var accIter := new AccountIter(accounts);
    var fromAcc :- accIter.Next();
    var toAcc :- accIter.Next();
    LamportsCheckOrder(TransferLamports(amount), accounts);

    if !fromAcc.isSigner {
      return Err(MissingRequiredSignature);
    }
    if !fromAcc.isWritable {
      return Err(AccountNonWritable);
    }
    if !toAcc.isWritable {
      return Err(AccountNonWritable);
    }

    var transferInstr := SystemTransfer(fromAcc.key, toAcc.key, amount);
    assert [fromAcc, toAcc] == accounts[..2];
    var _ :- host.Invoke(Invocation(transferInstr, [fromAcc, toAcc]));
    return Ok(());
  }

  /** `Processor::transfer_spl_token`. */
  method ProcessTransferSplToken(accounts: seq<AccountInfo>, amount: U64, host: Host) returns (r: ProgramResult)
    modifies host
    ensures r == HandlerOutcome(TransferSplToken(amount), accounts, host.build, host.verdict).result
    ensures host.log == old(host.log) + HandlerOutcome(TransferSplToken(amount), accounts, host.build, host.verdict).invoked
  {
    var accIter := new AccountIter(accounts);
    var ownerAcc :- accIter.Next();
    var fromSplTokenAcc :- accIter.Next();
    var toSplTokenAcc :- accIter.Next();
    var splTokenAcc :- accIter.Next();
    SplTokenCheckOrder(TransferSplToken(amount), accounts);

    if !ownerAcc.isSigner {
      return Err(MissingRequiredSignature);
    }
    if !fromSplTokenAcc.isWritable {
      return Err(AccountNonWritable);
    }
    if !toSplTokenAcc.isWritable {
      return Err(AccountNonWritable);
    }

    var transferInstr := SplTransfer(splTokenAcc.key, fromSplTokenAcc.key, toSplTokenAcc.key, ownerAcc.key,
                                     [ownerAcc.key], amount);
    assert [ownerAcc, fromSplTokenAcc, toSplTokenAcc, splTokenAcc] == accounts[..4];
    var _ :- host.build(transferInstr);
    var _ :- host.Invoke(Invocation(transferInstr, [ownerAcc, fromSplTokenAcc, toSplTokenAcc, splTokenAcc]));
    return Ok(());
  }

  /** `Processor::approve_spl_token`. */
  method ProcessApproveSplToken(accounts: seq<AccountInfo>, amount: U64, host: Host) returns (r: ProgramResult)
    modifies host
    ensures r == HandlerOutcome(ApproveSplToken(amount), accounts, host.build, host.verdict).result
    ensures host.log == old(host.log) + HandlerOutcome(ApproveSplToken(amount), accounts, host.build, host.verdict).invoked
  {
    var accIter := new AccountIter(accounts);
    var ownerAcc :- accIter.Next();
    var fromSplTokenAcc :- accIter.Next();
    var toSplTokenAcc :- accIter.Next();
    var splTokenAcc :- accIter.Next();
    SplTokenCheckOrder(ApproveSplToken(amount), accounts);

    if !ownerAcc.isSigner {
      return Err(MissingRequiredSignature);
    }
    if !fromSplTokenAcc.isWritable {
      return Err(AccountNonWritable);
    }
    if !toSplTokenAcc.isWritable {
      return Err(AccountNonWritable);
    }

    var approveInstr := SplApprove(splTokenAcc.key, fromSplTokenAcc.key, toSplTokenAcc.key, ownerAcc.key,
                                   [ownerAcc.key], amount);
    assert [ownerAcc, fromSplTokenAcc, toSplTokenAcc, splTokenAcc] == accounts[..4];
    var _ :- host.build(approveInstr);
    var _ :- host.Invoke(Invocation(approveInstr, [ownerAcc, fromSplTokenAcc, toSplTokenAcc, splTokenAcc]));
    return Ok(());
  }

  /** `Processor::process`. The program id is not used. */
  method Process(programId: Pubkey, accounts: seq<AccountInfo>, input: seq<U8>, host: Host) returns (r: ProgramResult)
    modifies host
    ensures r == ProcessOutcome(accounts, input, host.build, host.verdict).result
    ensures host.log == old(host.log) + ProcessOutcome(accounts, input, host.build, host.verdict).invoked
  {
    var decoded := Deserialize(input);
    if decoded.Err? {
      return Err(BorshIoError(decoded.error));
    }
    match decoded.value
    case TransferLamports(amount) => r := ProcessTransferLamports(accounts, amount, host);
    case TransferSplToken(amount) => r := ProcessTransferSplToken(accounts, amount, host);
    case ApproveSplToken(amount) => r := ProcessApproveSplToken(accounts, amount, host);
  }
}
