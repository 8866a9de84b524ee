# solana-token: instruction codec and dispatcher, in Dafny

This project models the trust boundary of a small Solana on-chain program.

The program accepts three requests, each carrying one `u64` amount:
- move lamports between two accounts;
- transfer SPL tokens between two token accounts;
- approve a delegate on a token account.

A request arrives as a Borsh-encoded payload plus an ordered list of accounts. Each account carries a signer flag and a writable flag. The program does four things, in order:
1. It decodes the payload.
2. It fetches the accounts its handler needs, by position.
3. It checks the required signer and writable flags in a fixed order. It stops at the first failure.
4. Only then does it build exactly one call to the system program or the SPL token program, passing the amount through unchanged. It invokes that call only if the build succeeds; the token program's builder may refuse it, for instance when the fourth account is not the token program.

The model has four modules:

- `Solana` (solana.dfy) models the runtime types the program uses. These are fixed-width integers, `Pubkey`, `AccountMeta`, `Instruction`, `AccountInfo` and `ProgramError`. It also holds the program's only custom error: `AccountNonWritable`, which is `ProgramError::Custom(0)`.
- `Borsh` (borsh.dfy) models the little-endian `u64` encoding. It proves both inverse laws.
- `TokenInstructions` (instruction.dfy) models the `TokenInstruction` enum, its 9-byte wire form and the three client-side builders.
- `Processor` (processor.dfy) models `process` and the three handlers. Each handler is a method. It fetches accounts through an `AccountIter`, an iterator over the account list. It records invocations in a `Host`, a class whose `log` field holds every call issued so far.

Each handler method is proved against `HandlerOutcome`. Its checks are written from a table, not from the handler's code:
- `Schema` lists, for each account position, whether a signature and write access are required.
- `FirstViolation` reports the first unmet requirement. It visits positions in order, and within a position it checks the signature before write access.

Lemmas then prove the promised properties from that table:
- which error wins;
- that accounts past the fetched ones, and flags the schema does not require, are ignored;
- that an invocation happens exactly when every requirement is met and, for the token handlers, the token program's builder accepts the call;
- that an instruction made by a builder always passes the checks.

The call `HandlerOutcome` expects, `ExpectedCall`, is not independent of the code: it passes the keys in the argument order the handlers use (src/processor.rs:46-50, 81-88, 128-135).

Calls into code outside this program are parameters:
- `Host.build` gives the verdict of `spl_token::instruction::transfer` / `approve` on its arguments.
- `Host.verdict` gives the verdict of `invoke`.
- Keys are compared and forwarded only, so a `Pubkey` is modelled as its base58 text.

Error names follow the code. A malformed payload fails with `BorshIoError`. Too few accounts fail with `NotEnoughAccountKeys`. A missing signature fails with `MissingRequiredSignature`. A missing write access fails with `Custom(0)`. A failure from the token program's builder or from `invoke` is returned unchanged, not wrapped.

The doc comment on `TransferLamports` (src/instruction.rs:10-13) lists a third account, the system program. The handler never fetches it. The lamports schema therefore has two positions. A request with only `from` and `to` passes the handler's checks and reaches `invoke`; whether `invoke` then succeeds is the runtime's verdict, `Host.verdict`.

## Model

| member | source | states |
|---|---|---|
| `Borsh.FromLittleEndianInverts` | src/instruction.rs:8-14 | reading back the `width` little-endian bytes of any `n < 256^width` gives `n`, so the 8 amount bytes lose nothing |
| `Borsh.LittleEndianInverts` | src/instruction.rs:8-14 | every byte string is the little-endian form of the number it denotes, so the amount encoding is canonical |
| `Borsh.EncodeU64` | src/instruction.rs:8-14 | a `u64` is written as exactly 8 bytes that denote it |
| `Borsh.DecodeU64` | src/instruction.rs:8-14 | any 8 bytes decode to a `u64` whose encoding is those same bytes |
| `TokenInstructions.VariantIndex` | src/instruction.rs:8-29 | the discriminant is 0, 1 or 2, in declaration order |
| `TokenInstructions.FromVariantIndex` | src/instruction.rs:8-29 | discriminants 0, 1 and 2 select the variant with that index, carrying the given amount |
| `TokenInstructions.Serialize` | src/instruction.rs:8-29 | every encoding is 9 bytes: the discriminant, then 8 bytes denoting the amount |
| `TokenInstructions.Deserialize` | src/instruction.rs:8-29 | accepts exactly the 9-byte buffers whose first byte is below 3; whatever it accepts is the encoding of what it returns |
| `TokenInstructions.RoundTrip` | src/instruction.rs:129-139 | decoding the encoding of any instruction, of any variant and any `u64` amount, gives it back |
| `TokenInstructions.SerializeInjective` | src/instruction.rs:8-29 | distinct instructions have distinct encodings |
| `TokenInstructions.DeserializeRejects` | src/processor.rs:22 | empty or short input fails with a length error, a first byte of 3 or more fails with an unknown-variant error (checked before the length), and trailing bytes fail |
| `TokenInstructions.TransferLamportsVector` | src/instruction.rs:90-107 | `TransferLamports{1_234_567}` encodes to `[0,135,214,18,0,0,0,0,0]` and decodes back |
| `TokenInstructions.TransferSplTokenVector` | src/instruction.rs:93-117 | `TransferSplToken{1_111_111}` encodes to `[1,71,244,16,0,0,0,0,0]` and decodes back |
| `TokenInstructions.ApproveSplTokenVector` | src/instruction.rs:96-127 | `ApproveSplToken{2_222_222}` encodes to `[2,142,232,33,0,0,0,0,0]` and decodes back |
| `TokenInstructions.NewWithBorsh` | src/instruction.rs:34-42 | the built instruction addresses this program, keeps the account list, and its payload decodes to the request |
| `TokenInstructions.TransferLamportsInstruction` | src/instruction.rs:32-43 | the payload decodes to `TransferLamports{amount}`; the metas are `from` signer+writable, `to` writable non-signer, system program read-only non-signer |
| `TokenInstructions.SplTokenMetas` | src/instruction.rs:55-60 | the token metas are: authority read-only signer, both token accounts writable non-signer, token program read-only non-signer |
| `TokenInstructions.TransferSplTokenInstruction` | src/instruction.rs:45-62 | the payload decodes to `TransferSplToken{amount}`, with the token metas |
| `TokenInstructions.ApproveSplTokenInstruction` | src/instruction.rs:64-81 | the payload decodes to `ApproveSplToken{amount}`, with the token metas |
| `TokenInstructions.SplBuildersDifferOnlyInVariant` | src/instruction.rs:45-81 | the two token builders agree on program, metas and amount bytes; only the first byte differs (1 or 2) |
| `Solana.WritableMeta` | src/instruction.rs:38-39 | `AccountMeta::new` marks the account writable, with the given signer flag |
| `Solana.ReadonlyMeta` | src/instruction.rs:40 | `AccountMeta::new_readonly` marks the account read-only, with the given signer flag |
| `Processor.AccountIter.constructor` | src/processor.rs:31 | the iterator starts at the first account |
| `Processor.AccountIter.Next` | src/processor.rs:32-33 | returns the next account and advances, or fails with `NotEnoughAccountKeys` once the list is exhausted |
| `Processor.Host.Invoke` | src/processor.rs:51-54 | issuing a call appends it to the log once and returns the runtime's verdict on it |
| `Processor.Schema` | src/instruction.rs:10-28 | the lamports handler requires 2 accounts and the token handlers require 4; only position 0 must sign; the token authority need not be writable; the token program account needs nothing |
| `Processor.FirstViolation` | src/processor.rs:36-44 | the first failing check can only be `MissingRequiredSignature` or `AccountNonWritable` |
| `Processor.FirstViolationIffUnmet` | src/processor.rs:36-44 | the checks pass if and only if every position has every flag the schema requires |
| `Processor.FirstViolationReadsOnlyRequiredFlags` | src/processor.rs:71-79 | the verdict depends only on the required flags of the required positions |
| `Processor.ExpectedCall` | src/processor.rs:46-96 | the call carries the decoded amount unchanged, and the fetched accounts as its account infos |
| `Processor.HandlerOutcome` | src/processor.rs:30-153 | a handler invokes at most once; too few accounts fail with nothing invoked; it invokes only when all requirements are met, only the expected call, and then returns that call's verdict; when all requirements are met and the builder accepts, it does invoke; a handler that invokes nothing fails |
| `Processor.ProcessOutcome` | src/processor.rs:16-28 | a decode failure is returned as `BorshIoError` before any account is read; at most one invocation, only for a well-formed payload whose accounts meet its schema, with that schema's expected call; success only after a successful invoke |
| `Processor.LamportsCheckOrder` | src/processor.rs:36-44 | lamports checks run as: `from` signs, then `from` writable, then `to` writable, first failure wins |
| `Processor.SplTokenCheckOrder` | src/processor.rs:71-79 | token checks run as: authority signs, then source writable, then destination writable, first failure wins |
| `Processor.HandlerErrorPrecedence` | src/processor.rs:36-79 | an unsigned authority fails with `MissingRequiredSignature` whatever its writable flags; otherwise an unmet requirement fails with `Custom(0)`; neither invokes |
| `Processor.ExtraAccountsIgnored` | src/processor.rs:61-65 | appending accounts after the fetched ones changes nothing |
| `Processor.UncheckedFlagsIgnored` | src/processor.rs:71-79 | changing flags the schema does not require changes neither acceptance, nor the error, nor the invoked instruction |
| `Processor.DestinationNeedNotSign` | src/processor.rs:36-44 | a lamports request is invoked whatever `to`'s signer flag, passing `(from, to, amount)` over `[from, to]` |
| `Processor.AuthorityNeedNotBeWritable` | src/processor.rs:118-126 | a token request whose checks pass goes to the builder and then `invoke`, whatever the authority's writable flag |
| `Processor.BuiltTransferLamportsAccepted` | src/instruction.rs:32-43 | an instruction from `transfer_lamports` passes every check and invokes exactly `SystemTransfer(from, to, amount)` |
| `Processor.BuiltTransferSplTokenAccepted` | src/instruction.rs:45-62 | an instruction from `transfer_spl_token` passes every check; only the token program's verdicts decide the result |
| `Processor.BuiltApproveSplTokenAccepted` | src/instruction.rs:64-81 | an instruction from `approve_spl_token` passes every check; only the token program's verdicts decide the result |
| `Processor.TransferLamportsScenario` | tests/integration.rs:56-87 | accounts `[from(signer, writable), to(writable), any]` with the `transfer_lamports` payload for 1_111_111 lamports invoke exactly one transfer `(from, to, 1_111_111)` over `[from, to]`, and its verdict is the result |
| `Processor.ProcessTransferLamports` | src/processor.rs:30-58 | the method's result and its new call log are exactly those of `HandlerOutcome` for `TransferLamports` |
| `Processor.ProcessTransferSplToken` | src/processor.rs:60-103 | the method's result and its new call log are exactly those of `HandlerOutcome` for `TransferSplToken` |
| `Processor.ProcessApproveSplToken` | src/processor.rs:105-153 | the method's result and its new call log are exactly those of `HandlerOutcome` for `ApproveSplToken` |
| `Processor.Process` | src/processor.rs:16-28 | the method's result and its new call log are exactly those of `ProcessOutcome` |

## Left out

- The `msg!` logging in `process` and the handlers. It only records diagnostics and never affects control flow.
- src/lib.rs is not modelled. Its module wiring and entrypoint are out of scope. The program id it declares appears only as the constant `ProgramId`. `Process` takes the program id as a parameter and ignores it, as the source does.
- Borsh's error messages are modelled by kind (`DecodeError`), not as text. Borsh's own source is not part of this model. The order of its checks (variant index, then amount length, then leftover bytes) follows Borsh's derived deserializer.
- The internals of `system_instruction::transfer`, `spl_token::instruction::transfer` / `approve` and `invoke` are not modelled. They are foreign code. Each call is recorded by the arguments it was built from. The verdicts on building and invoking are the `Host.build` and `Host.verdict` functions.
- Balances, delegation and allowances are not modelled. They belong to the system and token programs, and the program reads none of them. `AccountInfo` keeps only the key and the two flags. Lamports, data, owner and the borrow cells are left out.
- `AccountInfo::clone` and aliasing between account infos are not modelled. Account infos are values, and duplicate keys are not checked, as in the source.
- `Solana.AccountInfos` does not model the runtime's full account loading. It gives each account exactly the flags its meta asked for, without merging duplicate keys or promoting the fee payer.
- A `Host` stands for a single call of `process`. Its `build` and `verdict` are fixed functions, so a `Host` reused across two calls would give the same verdict for the same invocation. The real `invoke` depends on ledger state, which an earlier call may change.
- tests/integration.rs is not modelled as a whole. It is an asynchronous test harness against a simulated runtime, and its assertions concern the other programs' accounting. Only its lamports scenario is stated, as `Processor.TransferLamportsScenario`.
