/** The invoice contract: the rules every transaction touching an invoice
    must satisfy. `Verify` is the source's chain of guards, the first failing
    one deciding the outcome; `Guard`, `Violated` and `SourceOrder` restate the
    same rules one at a time, and `VerifyReportsFirstViolatedGuard` proves that
    the chain reports exactly the first violated rule in source order. */
module InvoiceContract {
  import opened Corda
  import opened InvoiceStates

  /** The contract's identifier, the name the flow tags its output with. */
  const ID: string := "invoice.InvoiceContract"

  /** The value of a command: the contract's own `Issue`, `Transfer` and
      `Exit`; `OtherInvoiceCommand`, any class defined elsewhere that also
      implements the open `Commands` interface; or `Foreign`, command data
      that does not implement `Commands` at all. */
  datatype CommandData = Issue | Transfer | Exit | OtherInvoiceCommand | Foreign

  /** A command together with the keys that must sign for it. */
  datatype Command = Command(value: CommandData, signers: seq<PublicKey>)

  /** What the contract sees of a transaction. */
  datatype LedgerTransaction = LedgerTransaction(
    inputs: seq<ContractState>,
    outputs: seq<ContractState>,
    commands: seq<Command>)

  /** One reason per rejection the contract can raise. */
  datatype Rejection =
    | NotOneCommand
    | NotAnInvoiceCommand
    | NotZeroInputs
    | NotOneOutput
    | OutputNotInvoiceState
    | AmountNotPositive
    | NotTwoParticipants
    | IssuerNotSigner
    | OwnerNotSigner
    | UnrecognisedCommand

  datatype Verdict = Ok | Rejected(reason: Rejection)

  /** The exception message the source raises for each reason. */
  function Message(r: Rejection): string
  {
    match r
    case NotOneCommand => "Tx should have one command"
    case NotAnInvoiceCommand => "Must be and instance of Commands"
    case NotZeroInputs => "Must have zero Inputs"
    case NotOneOutput => "Must have one Outputs"
    case OutputNotInvoiceState => "Output must be of type TokenState"
    case AmountNotPositive => "Amount must be greater than zero"
    case NotTwoParticipants => "There must be two participants"
    case IssuerNotSigner => "issuer must be required signer"
    case OwnerNotSigner => "owner must be required signer"
    case UnrecognisedCommand => "Unrecognised command."
  }

  /** The guard chain of the contract, in source order. Commands other than
      `Issue` that the contract defines are accepted without further rules.
      The final "Unrecognised command." rejection is reached only by a
      `Commands` implementation that none of the three defines, and by no
      command this repository defines. */
  function Verify(tx: LedgerTransaction): (v: Verdict)
    ensures v.Ok? ==> |tx.commands| == 1 && !tx.commands[0].value.Foreign?
    ensures v.Ok? && tx.commands[0].value.Issue? ==>
      tx.inputs == [] && |tx.outputs| == 1 && tx.outputs[0].InvoiceOut? &&
      tx.outputs[0].state.financialTransactionAmt > 0 &&
      tx.outputs[0].state.issuer.owningKey in tx.commands[0].signers &&
      tx.outputs[0].state.owner.owningKey in tx.commands[0].signers
    ensures v == Rejected(UnrecognisedCommand) <==>
      |tx.commands| == 1 && tx.commands[0].value.OtherInvoiceCommand?
  {
    if |tx.commands| != 1 then Rejected(NotOneCommand)
    else if tx.commands[0].value.Foreign? then Rejected(NotAnInvoiceCommand)
    else
      var command := tx.commands[0];
      if command.value.Issue? then
        if |tx.inputs| != 0 then Rejected(NotZeroInputs)
        else if |tx.outputs| != 1 then Rejected(NotOneOutput)
        else if !tx.outputs[0].InvoiceOut? then Rejected(OutputNotInvoiceState)
        else
          var s := tx.outputs[0].state;
          if !(s.financialTransactionAmt > 0) then Rejected(AmountNotPositive)
          else if |Participants(s)| != 2 then Rejected(NotTwoParticipants)
          else if s.issuer.owningKey !in command.signers then Rejected(IssuerNotSigner)
          else if s.owner.owningKey !in command.signers then Rejected(OwnerNotSigner)
          else Ok
      else if command.value.Transfer? then Ok
      else if command.value.Exit? then Ok
      else Rejected(UnrecognisedCommand)
  }

  // ---------------------------------------------------------------------
  // The same rules, one at a time

  /** The rules of the contract, one per guard. */
  datatype Guard =
    | OneCommand
    | KnownCommand
    | ZeroInputs
    | OneOutput
    | InvoiceOutput
    | PositiveAmount
    | TwoParticipants
    | IssuerSigns
    | OwnerSigns
    | DefinedCommand

  /** The guards in the order the source evaluates them. */
  const SourceOrder: seq<Guard> :=
    [OneCommand, KnownCommand, ZeroInputs, OneOutput, InvoiceOutput,
     PositiveAmount, TwoParticipants, IssuerSigns, OwnerSigns, DefinedCommand]

  /** The reason reported when a guard fails. */
  function Reason(g: Guard): Rejection
  {
    match g
    case OneCommand => NotOneCommand
    case KnownCommand => NotAnInvoiceCommand
    case ZeroInputs => NotZeroInputs
    case OneOutput => NotOneOutput
    case InvoiceOutput => OutputNotInvoiceState
    case PositiveAmount => AmountNotPositive
    case TwoParticipants => NotTwoParticipants
    case IssuerSigns => IssuerNotSigner
    case OwnerSigns => OwnerNotSigner
    case DefinedCommand => UnrecognisedCommand
  }

  /** The first command is an `Issue`: the rules after the second apply. */
  predicate IsIssue(tx: LedgerTransaction)
  {
    |tx.commands| > 0 && tx.commands[0].value.Issue?
  }

  /** The first output is an invoice: the content rules can be read off it. */
  predicate HasInvoiceOutput(tx: LedgerTransaction)
  {
    |tx.outputs| > 0 && tx.outputs[0].InvoiceOut?
  }

  /** Whether the transaction breaks rule `g`, judged by that rule alone
      (each rule reads the first command and the first output, as the source
      does once its earlier guards have passed). */
  predicate Violated(tx: LedgerTransaction, g: Guard)
  {
    match g
    case OneCommand => |tx.commands| != 1
    case KnownCommand => |tx.commands| > 0 && tx.commands[0].value.Foreign?
    case ZeroInputs => IsIssue(tx) && |tx.inputs| != 0
    case OneOutput => IsIssue(tx) && |tx.outputs| != 1
    case InvoiceOutput => IsIssue(tx) && |tx.outputs| > 0 && !tx.outputs[0].InvoiceOut?
    case PositiveAmount =>
      IsIssue(tx) && HasInvoiceOutput(tx) && tx.outputs[0].state.financialTransactionAmt <= 0
    case TwoParticipants =>
      IsIssue(tx) && HasInvoiceOutput(tx) && |Participants(tx.outputs[0].state)| != 2
    case IssuerSigns =>
      IsIssue(tx) && HasInvoiceOutput(tx) &&
      tx.outputs[0].state.issuer.owningKey !in tx.commands[0].signers
    case OwnerSigns =>
      IsIssue(tx) && HasInvoiceOutput(tx) &&
      tx.outputs[0].state.owner.owningKey !in tx.commands[0].signers
    case DefinedCommand => |tx.commands| > 0 && tx.commands[0].value.OtherInvoiceCommand?
  }

  /** The position of the first guard in `gs` that the transaction violates,
      or `|gs|` when it violates none. */
  function FirstViolatedIndex(tx: LedgerTransaction, gs: seq<Guard>): (k: nat)
    ensures k <= |gs|
    ensures forall j :: 0 <= j < k ==> !Violated(tx, gs[j])
    ensures k < |gs| ==> Violated(tx, gs[k])
  {
    if gs == [] then 0
    else if Violated(tx, gs[0]) then 0
    else 1 + FirstViolatedIndex(tx, gs[1..])
  }

  /** The verdict that reports the first violated guard of the source order. */
  function FirstFailure(tx: LedgerTransaction): Verdict
  {
    var k := FirstViolatedIndex(tx, SourceOrder);
    if k == |SourceOrder| then Ok else Rejected(Reason(SourceOrder[k]))
  }

  /** The guard chain reports exactly the first rule, in source order, that
      the transaction breaks, and accepts exactly when it breaks none. */
  lemma VerifyReportsFirstViolatedGuard(tx: LedgerTransaction)
    ensures Verify(tx) == FirstFailure(tx)
    ensures Verify(tx) == Ok <==> forall g :: !Violated(tx, g)
  {
    var k := FirstViolatedIndex(tx, SourceOrder);
    assert SourceOrder[0] == OneCommand && SourceOrder[1] == KnownCommand;
    assert SourceOrder[2] == ZeroInputs && SourceOrder[3] == OneOutput;
    assert SourceOrder[4] == InvoiceOutput && SourceOrder[5] == PositiveAmount;
    assert SourceOrder[6] == TwoParticipants && SourceOrder[7] == IssuerSigns;
    assert SourceOrder[8] == OwnerSigns && SourceOrder[9] == DefinedCommand;
    if k == |SourceOrder| {
      forall g ensures !Violated(tx, g) {
        assert SourceOrder[Rank(g)] == g;
      }
    }
  }

  /** The position of a guard in the source order. */
  function Rank(g: Guard): (i: nat)
    ensures i < |SourceOrder| && SourceOrder[i] == g
  {
    match g
    case OneCommand => 0
    case KnownCommand => 1
    case ZeroInputs => 2
    case OneOutput => 3
    case InvoiceOutput => 4
    case PositiveAmount => 5
    case TwoParticipants => 6
    case IssuerSigns => 7
    case OwnerSigns => 8
    case DefinedCommand => 9
  }

  /** Distinct guards report distinct reasons. */
  lemma ReasonInjective(g: Guard, h: Guard)
    requires g != h
    ensures Reason(g) != Reason(h)
  {
  }

  /** When a transaction breaks two rules, the earlier one in source order is
      reported and the later one is not. */
  lemma EarlierViolationReported(tx: LedgerTransaction, i: nat, j: nat)
    requires i < j < |SourceOrder|
    requires Violated(tx, SourceOrder[i]) && Violated(tx, SourceOrder[j])
    ensures Verify(tx) != Rejected(Reason(SourceOrder[j]))
    ensures exists k :: 0 <= k <= i && Verify(tx) == Rejected(Reason(SourceOrder[k]))
  {
    VerifyReportsFirstViolatedGuard(tx);
    var k := FirstViolatedIndex(tx, SourceOrder);
    assert k <= i;
    assert SourceOrder[k] != SourceOrder[j] by {
      assert Rank(SourceOrder[k]) == k && Rank(SourceOrder[j]) == j;
    }
    ReasonInjective(SourceOrder[k], SourceOrder[j]);
  }

  // ---------------------------------------------------------------------
  // The rules, one property each

  /** A single command that implements `Commands` but is none of `Issue`,
      `Transfer` and `Exit` falls through every branch and is rejected last. */
  lemma RejectsUndefinedInvoiceCommand(tx: LedgerTransaction)
    requires |tx.commands| == 1 && tx.commands[0].value.OtherInvoiceCommand?
    ensures Verify(tx) == Rejected(UnrecognisedCommand)
  {
  }

  /** Zero commands, or two or more, are rejected before anything else. */
  lemma RejectsUnlessOneCommand(tx: LedgerTransaction)
    requires |tx.commands| != 1
    ensures Verify(tx) == Rejected(NotOneCommand)
  {
  }

  /** A single command the contract does not define is rejected whatever the
      shape of the transaction. */
  lemma RejectsForeignCommand(tx: LedgerTransaction)
    requires |tx.commands| == 1 && tx.commands[0].value.Foreign?
    ensures Verify(tx) == Rejected(NotAnInvoiceCommand)
  {
  }

  /** `Transfer` and `Exit` carry no rules: one such command is always accepted. */
  lemma TransferAndExitAccepted(tx: LedgerTransaction)
    requires |tx.commands| == 1
    requires tx.commands[0].value.Transfer? || tx.commands[0].value.Exit?
    ensures Verify(tx) == Ok
  {
  }

  /** A single `Issue` command whose transaction consumes any input is rejected. */
  lemma IssueRejectsInputs(tx: LedgerTransaction)
    requires |tx.commands| == 1 && tx.commands[0].value.Issue?
    requires |tx.inputs| != 0
    ensures Verify(tx) == Rejected(NotZeroInputs)
  {
  }

  /** Under `Issue` with no inputs, any output count but one is rejected, and
      a single output that is not an invoice gets its own rejection. */
  lemma IssueRejectsOutputShape(tx: LedgerTransaction)
    requires |tx.commands| == 1 && tx.commands[0].value.Issue? && tx.inputs == []
    ensures |tx.outputs| != 1 ==> Verify(tx) == Rejected(NotOneOutput)
    ensures |tx.outputs| == 1 && tx.outputs[0].OtherState? ==>
      Verify(tx) == Rejected(OutputNotInvoiceState)
  {
  }

  /** Under `Issue` with a well-shaped transaction, an amount of zero or less
      is rejected whatever the signers are, and a positive amount passes this
      rule (the verdict is then decided by the signers alone). */
  lemma IssueAmountRule(tx: LedgerTransaction, s: InvoiceState)
    requires |tx.commands| == 1 && tx.commands[0].value.Issue?
    requires tx.inputs == [] && tx.outputs == [InvoiceOut(s)]
    ensures s.financialTransactionAmt <= 0 ==> Verify(tx) == Rejected(AmountNotPositive)
    ensures s.financialTransactionAmt > 0 ==>
      Verify(tx) != Rejected(AmountNotPositive) &&
      (Verify(tx) == Ok <==>
        s.issuer.owningKey in tx.commands[0].signers &&
        s.owner.owningKey in tx.commands[0].signers)
  {
  }

  /** The participant-count rule is a length test on a list that always holds
      two entries, so it never rejects anything, even an invoice whose issuer
      is its owner. */
  lemma TwoParticipantsNeverFails(tx: LedgerTransaction)
    ensures !Violated(tx, TwoParticipants)
    ensures Verify(tx) != Rejected(NotTwoParticipants)
  {
  }

  /** Under `Issue`, a missing issuer key is reported first, even when the
      owner's key is missing too; with the issuer's key present, a missing
      owner key is reported. */
  lemma IssueSignerRules(tx: LedgerTransaction, s: InvoiceState)
    requires |tx.commands| == 1 && tx.commands[0].value.Issue?
    requires tx.inputs == [] && tx.outputs == [InvoiceOut(s)]
    requires s.financialTransactionAmt > 0
    ensures s.issuer.owningKey !in tx.commands[0].signers ==>
      Verify(tx) == Rejected(IssuerNotSigner)
    ensures (s.issuer.owningKey in tx.commands[0].signers &&
             s.owner.owningKey !in tx.commands[0].signers) ==>
      Verify(tx) == Rejected(OwnerNotSigner)
  {
  }

  /** A single `Issue` command is accepted exactly when the transaction has no
      inputs, one invoice output with a positive amount, and the issuer's and
      owner's keys among the signers. */
  lemma IssueAcceptedIff(tx: LedgerTransaction)
    requires |tx.commands| == 1 && tx.commands[0].value.Issue?
    ensures Verify(tx) == Ok <==>
      tx.inputs == [] && |tx.outputs| == 1 && tx.outputs[0].InvoiceOut? &&
      tx.outputs[0].state.financialTransactionAmt > 0 &&
      tx.outputs[0].state.issuer.owningKey in tx.commands[0].signers &&
      tx.outputs[0].state.owner.owningKey in tx.commands[0].signers
  {
  }

  /** Every reason carries its own message. */
  lemma MessagesDistinct(r1: Rejection, r2: Rejection)
    requires r1 != r2
    ensures Message(r1) != Message(r2)
  {
  }
}
