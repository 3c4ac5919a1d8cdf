/** The initiating side of the invoice issuance flow, up to and including the
    local contract check. The flow picks a notary, builds one invoice output
    and one `Issue` command in a transaction builder, and verifies the result
    before it opens any session or produces any signature. The signing,
    signature collection and finality steps that follow belong to the platform;
    here they appear only as entries of the step trace the flow returns. */
module InvoiceIssueFlow {
  import opened Corda
  import opened InvoiceStates
  import opened InvoiceContract

  /** The flow object: its constructor only stores these arguments in final
      fields, so it is a value. */
  datatype InvoiceIssueFlowInitiator = InvoiceIssueFlowInitiator(
    owner: Party,
    payTermDescription: string,
    currencyCode: string,
    invoiceTransactionType: string,
    policyNumber: int32,
    coverageCode: int32,
    coverageName: string,
    policyEventType: string,
    installmentDueDate: Date,
    invoiceNumber: int32,
    invoiceLineNumber: int32,
    financialTransactionCode: string,
    financialTransactionAmt: int32,
    apStatus: string,
    payToID: string,
    payeeName: string,
    invoiceTransactionID: string)

  /** An output as the builder records it: the state, the contract it is
      tagged with and the notary that guards it. */
  datatype TransactionState = TransactionState(data: ContractState, contract: string, notary: Party)

  /** A snapshot of a builder's contents. */
  datatype BuiltTransaction = BuiltTransaction(
    notary: Party,
    inputs: seq<ContractState>,
    outputs: seq<TransactionState>,
    commands: seq<Command>)

  /** What the contract sees of a built transaction: its states without the
      contract tags and notary. */
  function ToLedgerTransaction(b: BuiltTransaction): LedgerTransaction
  {
    LedgerTransaction(b.inputs,
      seq(|b.outputs|, i requires 0 <= i < |b.outputs| => b.outputs[i].data),
      b.commands)
  }

  /** The platform's transaction builder, filled in place by the flow. */
  class TransactionBuilder {
    const notary: Party
    var inputs: seq<ContractState>
    var outputs: seq<TransactionState>
    var commands: seq<Command>

    /** The builder's current contents. */
    function Current(): BuiltTransaction
      reads this
    {
      BuiltTransaction(notary, inputs, outputs, commands)
    }

    /** A builder for the given notary, with nothing in it yet. */
    constructor (notary: Party)
      ensures Current() == BuiltTransaction(notary, [], [], [])
    {
      this.notary := notary;
      inputs, outputs, commands := [], [], [];
    }

    /** Appends an output tagged with `contract` and guarded by the builder's notary. */
    method AddOutputState(state: ContractState, contract: string)
      modifies this
      ensures outputs == old(outputs) + [TransactionState(state, contract, notary)]
      ensures inputs == old(inputs) && commands == old(commands)
    {
      outputs := outputs + [TransactionState(state, contract, notary)];
    }

    /** Appends a command that must be signed by exactly `signers`. */
    method AddCommand(value: CommandData, signers: seq<PublicKey>)
      modifies this
      ensures commands == old(commands) + [Command(value, signers)]
      ensures inputs == old(inputs) && outputs == old(outputs)
    {
      commands := commands + [Command(value, signers)];
    }

    /** Runs the invoice contract over the builder's current contents,
        changing nothing. */
    method VerifyContracts() returns (v: Verdict)
      ensures v == Verify(ToLedgerTransaction(Current()))
      ensures v.Ok? ==> |commands| == 1 && !commands[0].value.Foreign?
    {
      v := Verify(ToLedgerTransaction(Current()));
    }
  }

  /** The invoice the flow issues: the flow's issuer as issuer, and every
      other field taken from the flow's arguments. */
  function IssuedState(flow: InvoiceIssueFlowInitiator, issuer: Party): (s: InvoiceState)
    ensures s.issuer == issuer && s.owner == flow.owner
    ensures s.financialTransactionAmt == flow.financialTransactionAmt
    ensures s.payTermDescription == flow.payTermDescription && s.currencyCode == flow.currencyCode
    ensures s.invoiceTransactionType == flow.invoiceTransactionType
    ensures s.policyNumber == flow.policyNumber && s.coverageCode == flow.coverageCode
    ensures s.coverageName == flow.coverageName && s.policyEventType == flow.policyEventType
    ensures s.installmentDueDate == flow.installmentDueDate && s.invoiceNumber == flow.invoiceNumber
    ensures s.invoiceLineNumber == flow.invoiceLineNumber
    ensures s.financialTransactionCode == flow.financialTransactionCode
    ensures s.apStatus == flow.apStatus && s.payToID == flow.payToID
    ensures s.payeeName == flow.payeeName && s.invoiceTransactionID == flow.invoiceTransactionID
  {
    InvoiceState(issuer, flow.owner, flow.payTermDescription, flow.currencyCode,
      flow.invoiceTransactionType, flow.policyNumber, flow.coverageCode, flow.coverageName,
      flow.policyEventType, flow.installmentDueDate, flow.invoiceNumber,
      flow.invoiceLineNumber, flow.financialTransactionCode, flow.financialTransactionAmt,
      flow.apStatus, flow.payToID, flow.payeeName, flow.invoiceTransactionID)
  }

  /** The transaction the flow builds for a given issuer and notary. */
  function IssueTransaction(flow: InvoiceIssueFlowInitiator, issuer: Party, notary: Party): BuiltTransaction
  {
    BuiltTransaction(notary, [],
      [TransactionState(InvoiceOut(IssuedState(flow, issuer)), ID, notary)],
      [Command(Issue, [issuer.owningKey, flow.owner.owningKey])])
  }

  /** Why the flow stopped before handing the transaction to the platform. */
  datatype FlowError =
    | NoNotaryAvailable            // the notary list was empty
    | ContractRejected(reason: Rejection)

  datatype FlowResult = Aborted(error: FlowError) | Verified(tx: BuiltTransaction)

  /** The externally visible steps of the flow, in the order they happen. */
  datatype FlowStep =
    | VerifyTransaction
    | InitiateSession(counterparty: Party)
    | SignInitialTransaction
    | CollectSignatures
    | Finality

  /** Steps that involve the counterparty or produce a signature. */
  predicate Contacts(s: FlowStep)
  {
    !s.VerifyTransaction?
  }

  /** No step contacts the counterparty or signs unless a verification step
      came before it. */
  predicate VerifiedBeforeContact(steps: seq<FlowStep>)
  {
    forall i :: 0 <= i < |steps| && Contacts(steps[i]) ==>
      exists j :: 0 <= j < i && steps[j] == VerifyTransaction
  }

  /** What the flow's `call` produces, as a function of its arguments, its
      own identity and the notaries the network knows: the first notary is
      chosen (an empty list fails, as `get(0)` does), and the transaction is
      verified before anything leaves the node. */
  function CallOutcome(flow: InvoiceIssueFlowInitiator, ourIdentity: Party, notaryIdentities: seq<Party>)
    : (FlowResult, seq<FlowStep>)
  {
    if notaryIdentities == [] then (Aborted(NoNotaryAvailable), [])
    else
      var tx := IssueTransaction(flow, ourIdentity, notaryIdentities[0]);
      match Verify(ToLedgerTransaction(tx))
      case Ok =>
        (Verified(tx), [VerifyTransaction, InitiateSession(flow.owner), SignInitialTransaction,
                        CollectSignatures, Finality])
      case Rejected(reason) => (Aborted(ContractRejected(reason)), [VerifyTransaction])
  }

  /** The flow's `call`: chooses the first notary, fills a transaction
      builder with the invoice output and the `Issue` command, and verifies
      it; only an accepted transaction goes on to the session, signing,
      collection and finality steps. */
  method Call(flow: InvoiceIssueFlowInitiator, ourIdentity: Party, notaryIdentities: seq<Party>)
    returns (result: FlowResult, steps: seq<FlowStep>)
    ensures (result, steps) == CallOutcome(flow, ourIdentity, notaryIdentities)
    ensures VerifiedBeforeContact(steps)
    ensures result.Aborted? ==> forall i :: 0 <= i < |steps| ==> !Contacts(steps[i])
  {
    if notaryIdentities == [] {
      return Aborted(NoNotaryAvailable), [];
    }
    var notary := notaryIdentities[0];
    var issuer := ourIdentity;
    var invoiceState := IssuedState(flow, issuer);

    var builder := new TransactionBuilder(notary);
    builder.AddOutputState(InvoiceOut(invoiceState), ID);
    builder.AddCommand(Issue, [issuer.owningKey, flow.owner.owningKey]);
    ghost var tx := builder.Current();
    assert tx == IssueTransaction(flow, issuer, notary);

    var verdict := builder.VerifyContracts();
    assert verdict == Verify(ToLedgerTransaction(tx));
    steps := [VerifyTransaction];
    if verdict.Rejected? {
      return Aborted(ContractRejected(verdict.reason)), steps;
    }
    steps := steps + [InitiateSession(flow.owner), SignInitialTransaction, CollectSignatures, Finality];
    assert steps[0] == VerifyTransaction;
    assert steps == [VerifyTransaction, InitiateSession(flow.owner), SignInitialTransaction,
                     CollectSignatures, Finality];
    result := Verified(builder.Current());
  }

  // ---------------------------------------------------------------------
  // Properties of the built transaction

  /** The built transaction has no inputs, one output and one command: the
      output is an invoice issued by `issuer` to the flow's owner, carrying
      every argument of the flow unchanged, tagged with the invoice contract
      and guarded by the chosen notary; the command is `Issue`, signed by the
      issuer's key and then the owner's key, two distinct signers exactly when
      the two keys differ. */
  lemma IssueTransactionShape(flow: InvoiceIssueFlowInitiator, issuer: Party, notary: Party)
    ensures var b := IssueTransaction(flow, issuer, notary);
      b.notary == notary && b.inputs == [] &&
      |b.outputs| == 1 && b.outputs[0].contract == "invoice.InvoiceContract" &&
      b.outputs[0].notary == notary && b.outputs[0].data.InvoiceOut? &&
      |b.commands| == 1 && b.commands[0].value == Issue &&
      b.commands[0].signers == [issuer.owningKey, flow.owner.owningKey] &&
      (|set k | k in b.commands[0].signers| == 2 <==> issuer.owningKey != flow.owner.owningKey)
    ensures var s := IssueTransaction(flow, issuer, notary).outputs[0].data.state;
      s.issuer == issuer && s.owner == flow.owner &&
      s.financialTransactionAmt == flow.financialTransactionAmt &&
      s.payTermDescription == flow.payTermDescription && s.currencyCode == flow.currencyCode &&
      s.invoiceTransactionType == flow.invoiceTransactionType &&
      s.policyNumber == flow.policyNumber && s.coverageCode == flow.coverageCode &&
      s.coverageName == flow.coverageName && s.policyEventType == flow.policyEventType &&
      s.installmentDueDate == flow.installmentDueDate && s.invoiceNumber == flow.invoiceNumber &&
      s.invoiceLineNumber == flow.invoiceLineNumber &&
      s.financialTransactionCode == flow.financialTransactionCode &&
      s.apStatus == flow.apStatus && s.payToID == flow.payToID &&
      s.payeeName == flow.payeeName && s.invoiceTransactionID == flow.invoiceTransactionID
  {
    var signers := [issuer.owningKey, flow.owner.owningKey];
    if issuer.owningKey == flow.owner.owningKey {
      assert (set k | k in signers) == {issuer.owningKey};
    } else {
      assert (set k | k in signers) == {issuer.owningKey, flow.owner.owningKey};
    }
  }

  /** The transaction the flow builds passes the invoice contract exactly
      when the amount is positive, whoever the issuer and owner are (the same
      party included); otherwise it is rejected for its amount. */
  lemma IssueTransactionVerifiesIff(flow: InvoiceIssueFlowInitiator, issuer: Party, notary: Party)
    ensures var v := Verify(ToLedgerTransaction(IssueTransaction(flow, issuer, notary)));
      (flow.financialTransactionAmt > 0 <==> v == Ok) &&
      (flow.financialTransactionAmt <= 0 <==> v == Rejected(AmountNotPositive))
  {
    var lt := ToLedgerTransaction(IssueTransaction(flow, issuer, notary));
    assert lt.outputs == [InvoiceOut(IssuedState(flow, issuer))];
  }

  /** With at least one notary and a positive amount, the flow reaches the
      signing steps with the transaction it built; with a non-positive amount
      it stops right after verification, before any session or signature;
      without a notary it does nothing at all. */
  lemma CallOutcomeByAmount(flow: InvoiceIssueFlowInitiator, ourIdentity: Party, notaryIdentities: seq<Party>)
    ensures notaryIdentities == [] ==> CallOutcome(flow, ourIdentity, notaryIdentities) == (Aborted(NoNotaryAvailable), [])
    ensures notaryIdentities != [] && flow.financialTransactionAmt > 0 ==>
      CallOutcome(flow, ourIdentity, notaryIdentities).0 ==
        Verified(IssueTransaction(flow, ourIdentity, notaryIdentities[0]))
    ensures notaryIdentities != [] && flow.financialTransactionAmt <= 0 ==>
      CallOutcome(flow, ourIdentity, notaryIdentities) ==
        (Aborted(ContractRejected(AmountNotPositive)), [VerifyTransaction])
  {
    if notaryIdentities != [] {
      IssueTransactionVerifiesIff(flow, ourIdentity, notaryIdentities[0]);
    }
  }
}
