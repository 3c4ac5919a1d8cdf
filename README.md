# Invoice issuance on a notarised ledger: a Dafny model

This project models the core of a small ledger application. The application
records an invoice obligation between an issuer and an owner. There are three
parts:

- **The invoice record**: an immutable value with an issuer, an owner, a
  Java `int` amount and fifteen descriptive pass-through fields. Its
  participant list is always `[issuer, owner]`.
- **The invoice contract**: the transaction verifier. It is a chain of guards
  over a transaction's inputs, outputs, commands and command signers. The
  first guard that fails decides the rejection. `Transfer` and `Exit` are
  accepted without further rules.
- **The issuance flow, up to its local check**: the flow picks the first
  notary and builds one invoice output, plus one `Issue` command signed by
  the issuer's and the owner's keys. The flow fills a transaction builder in
  place and runs the contract before it opens a session or signs anything.

Files:

- `corda.dfy` (module `Corda`): values the platform supplies, with no logic
  of their own. They are keys, parties, dates and `int32` for Java `int`.
- `invoice_state.dfy` (module `InvoiceStates`): the `InvoiceState` record,
  `ContractState` (an invoice or some other contract's state) and
  `Participants`.
- `invoice_contract.dfy` (module `InvoiceContract`): the commands, the
  transaction as the contract sees it, one rejection reason per exception
  message of the source, and `Verify`. Beside it is an independent statement
  of the same rules, one at a time (`Guard`, `Violated`, `SourceOrder`). A
  proof shows that `Verify` reports exactly the first violated rule in source
  order.
- `invoice_issue_flow.dfy` (module `InvoiceIssueFlow`): the flow's
  arguments, the `TransactionBuilder` class that the flow mutates, the `Call`
  method, and `CallOutcome`, the function that specifies `Call`.

Environment inputs are parameters of `Call`:
- the network map's notary list (`notaryIdentities`);
- the node's own identity (`ourIdentity`).

The platform steps after verification appear only as entries of the step
trace that `Call` returns: opening the session, signing, collecting
signatures and finality.

Points where a reader might expect more than the code does, and what the
model states instead:

- A reader might expect issuer and owner to have to be different parties.
  The code never compares them. The verifier's participant rule is a length
  test on `[issuer, owner]`, so for the `InvoiceState` defined here it never
  fails, even when issuer and owner are the same party
  (`TwoParticipantsNeverFails`). The flow does not compare them either
  (`IssueTransactionVerifiesIff`).
- `Transfer` and `Exit` carry no rules. Their branches are empty, so a
  single `Transfer` or `Exit` command is accepted whatever the transaction
  holds (`TransferAndExitAccepted`).
- Required signers are a list, not a set. The code tests membership with
  `contains`; the model keeps a sequence and uses `in`.
- `Commands` is an open interface. No command this repository defines
  reaches the last rejection, "Unrecognised command.". A class elsewhere
  that implements `Commands` but is none of `Issue`, `Transfer` and `Exit`
  does reach it: the model represents that class as `OtherInvoiceCommand`
  (`RejectsUndefinedInvoiceCommand`). `Verify`'s contract states that it
  reports this reason exactly for such a single command.

## Model

| member | source | states |
|---|---|---|
| `InvoiceStates.Participants` | src/main/java/invoice/InvoiceState.java:130-133 | the participant list always has exactly two entries, issuer first and owner second; a party is in it exactly when it is the issuer or the owner, so issuer == owner still gives two entries |
| `InvoiceStates.GettersReturnConstructorArguments` | src/main/java/invoice/InvoiceState.java:35-126 | every getter of a freshly constructed state returns the argument passed for that field |
| `InvoiceContract.Verify` | src/main/java/invoice/InvoiceContract.java:14-55 | the guard chain; an accepted transaction has exactly one command, which is one of the contract's own; an accepted `Issue` has no inputs, one invoice output with a positive amount, and both the issuer's and the owner's keys among the signers; "Unrecognised command." is reported exactly for a single command that implements `Commands` but is none of the three |
| `InvoiceContract.Message` | src/main/java/invoice/InvoiceContract.java:19-54 | the exception text the source raises for each reason, word for word |
| `InvoiceContract.FirstViolatedIndex` | src/main/java/invoice/InvoiceContract.java:19-54 | the index of the first rule in a list that the transaction breaks: every rule before it holds, and the one at the index (if any) is broken |
| `InvoiceContract.VerifyReportsFirstViolatedGuard` | src/main/java/invoice/InvoiceContract.java:19-54 | the chain's verdict equals the reason of the first violated rule in source order, and it accepts exactly when no rule is violated |
| `InvoiceContract.EarlierViolationReported` | src/main/java/invoice/InvoiceContract.java:19-54 | when two rules are broken, the later one is never reported; the reported reason belongs to a rule at or before the earlier one |
| `InvoiceContract.ReasonInjective` | src/main/java/invoice/InvoiceContract.java:19-54 | distinct rules raise distinct reasons |
| `InvoiceContract.MessagesDistinct` | src/main/java/invoice/InvoiceContract.java:19-54 | distinct reasons carry distinct exception messages |
| `InvoiceContract.RejectsUndefinedInvoiceCommand` | src/main/java/invoice/InvoiceContract.java:50-54 | a single command that implements `Commands` but is none of `Issue`, `Transfer` and `Exit` is rejected with "Unrecognised command." |
| `InvoiceContract.RejectsUnlessOneCommand` | src/main/java/invoice/InvoiceContract.java:19 | zero commands, or two or more, are rejected with the one-command reason, whatever else the transaction holds |
| `InvoiceContract.RejectsForeignCommand` | src/main/java/invoice/InvoiceContract.java:20-21 | a single command that does not implement `Commands` is rejected before any shape rule, whatever the inputs and outputs |
| `InvoiceContract.TransferAndExitAccepted` | src/main/java/invoice/InvoiceContract.java:50-53 | a single `Transfer` or `Exit` command is accepted with no further check |
| `InvoiceContract.IssueRejectsInputs` | src/main/java/invoice/InvoiceContract.java:27 | under `Issue`, any input is rejected with the zero-inputs reason |
| `InvoiceContract.IssueRejectsOutputShape` | src/main/java/invoice/InvoiceContract.java:28-30 | under `Issue` with no inputs, any output count but one is rejected; a single output that is not an invoice gets the distinct type reason |
| `InvoiceContract.IssueAmountRule` | src/main/java/invoice/InvoiceContract.java:36-37 | under a well-shaped `Issue`, an amount of zero or less is rejected whatever the signers; a positive amount passes, and the verdict then depends only on the two signer rules |
| `InvoiceContract.TwoParticipantsNeverFails` | src/main/java/invoice/InvoiceContract.java:39-40 | the participant-count rule is never violated and its reason is never reported, for any transaction |
| `InvoiceContract.IssueSignerRules` | src/main/java/invoice/InvoiceContract.java:44-48 | a missing issuer key is reported even when the owner's key is missing too; with the issuer's key present, a missing owner key is reported |
| `InvoiceContract.IssueAcceptedIff` | src/main/java/invoice/InvoiceContract.java:25-49 | a single `Issue` is accepted if and only if there are no inputs, one invoice output with a positive amount, and both keys among the signers |
| `InvoiceIssueFlow.IssuedState` | src/main/java/invoice/InvoiceIssueFlowInitiator.java:69-78 | the state the flow builds has our own identity as issuer and takes the owner, the amount and every descriptive field unchanged from the flow's arguments |
| `InvoiceIssueFlow.TransactionBuilder.constructor` | src/main/java/invoice/InvoiceIssueFlowInitiator.java:85 | a new builder holds the chosen notary and no inputs, outputs or commands |
| `InvoiceIssueFlow.TransactionBuilder.AddOutputState` | src/main/java/invoice/InvoiceIssueFlowInitiator.java:86 | appends one output tagged with the contract and the builder's notary; inputs and commands are unchanged |
| `InvoiceIssueFlow.TransactionBuilder.AddCommand` | src/main/java/invoice/InvoiceIssueFlowInitiator.java:87 | appends one command with exactly the given signers; inputs and outputs are unchanged |
| `InvoiceIssueFlow.TransactionBuilder.VerifyContracts` | src/main/java/invoice/InvoiceIssueFlowInitiator.java:94 | returns the contract's verdict on the builder's current contents and changes nothing |
| `InvoiceIssueFlow.Call` | src/main/java/invoice/InvoiceIssueFlowInitiator.java:65-105 | the result and step trace are those of `CallOutcome`; no session or signing step occurs unless a verification step came before it, and an aborted flow takes no such step |
| `InvoiceIssueFlow.IssueTransactionShape` | src/main/java/invoice/InvoiceIssueFlowInitiator.java:67-87 | the built transaction has no inputs, one invoice output and one `Issue` command. The output has our identity as issuer, the argument owner as owner, the argument amount, and every descriptive argument unchanged. It is tagged "invoice.InvoiceContract" and guarded by the chosen notary. The signers are the issuer's key then the owner's key: two distinct signers exactly when the keys differ |
| `InvoiceIssueFlow.IssueTransactionVerifiesIff` | src/main/java/invoice/InvoiceIssueFlowInitiator.java:75-94 | the built transaction passes the contract if and only if the amount is positive, for any issuer and owner, the same party included; otherwise it is rejected for its amount |
| `InvoiceIssueFlow.CallOutcomeByAmount` | src/main/java/invoice/InvoiceIssueFlowInitiator.java:67-99 | with no notary the flow stops at once; with a notary and a positive amount it hands on the transaction it built; with a non-positive amount it stops after verification, before any session or signature |

## Left out

- Signing, signature collection, finality and the counterparty session
  (`signInitialTransaction`, `CollectSignaturesFlow`, `FinalityFlow`,
  `initiateFlow`): these are platform calls for messaging, signatures and
  notarisation. They appear only as trace entries, with no outcome of their
  own.
- The network map and identity services: the notary list and our own
  identity are parameters of `Call`.
- Notary double-spend prevention: this belongs to the platform, and
  issuance consumes no inputs.
- Fiber suspension and the progress tracker: runtime plumbing with no effect
  on the built transaction.
- The platform's internal work in `TransactionBuilder.verify`: contract
  attachment resolution, time windows, and the rules of other contracts'
  states. Only the invoice contract's `verify` is modelled.
- The platform's requirement that a command has at least one signer, and any
  deduplication of signer keys: these are platform behaviour. The flow always
  passes two keys.
- Key and signature cryptography: keys are opaque values compared by
  equality.
- `java.util.Date` semantics: the due date is an opaque pass-through value.
- Java `null` references for parties and strings: the source never checks
  for them, and the model has no null values.
- Subclasses of `InvoiceState`: the class is not final, so a subclass could
  override `getParticipants`. The model represents only the class defined
  here, so the participant rule never failing holds for that class alone.
- Party equality: the platform compares parties by owning key only. In the
  model two parties are equal when name and key both are, which assumes each
  key belongs to one legal name. Every signer rule is stated on keys.
- Exceptions as control flow: `Verify` returns a verdict instead of
  throwing. The flow's abort on a rejection is `Aborted(ContractRejected(…))`
  and not a propagated exception.
- Rules for `Transfer` and `Exit`: the source defines none.
- Repeated verification is not stated as a property: `Verify` is a function,
  so equal inputs always give equal verdicts.
