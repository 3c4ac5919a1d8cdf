/** The invoice record kept on the ledger. Every field is final in the source,
    so the record is a plain immutable value; its getters are the datatype's
    destructors. */
module InvoiceStates {
  import opened Corda

  datatype InvoiceState = InvoiceState(
    issuer: Party,
    owner: Party,
    payTermDescription: string,
    currencyCode: string,
    invoiceTransactionType: string,
    policyNumber: int32,
    coverageCode: int32,
    coverageName: string,
    policyEventType: string,
    installmentDueDate: Date,
    invoiceNumber: int32,
    invoiceLineNumber: int32,
    financialTransactionCode: string,
    financialTransactionAmt: int32,
    apStatus: string,
    payToID: string,
    payeeName: string,
    invoiceTransactionID: string)

  /** A state appearing in a transaction: either an invoice, or some other
      contract's state (the target of the `instanceof InvoiceState` test). */
  datatype ContractState = InvoiceOut(state: InvoiceState) | OtherState

  /** The participants of an invoice: the issuer, then the owner. The list is
      built without any distinctness test, so it has two entries even when
      issuer and owner are the same party. */
  function Participants(s: InvoiceState): (ps: seq<Party>)
    ensures |ps| == 2
    ensures ps[0] == s.issuer && ps[1] == s.owner
    ensures forall p :: p in ps <==> p == s.issuer || p == s.owner
  {
    [s.issuer, s.owner]
  }

  /** Constructing a state and reading it back through its getters returns
      exactly what was passed in, field by field. */
  lemma GettersReturnConstructorArguments(
    issuer: Party, owner: Party, payTermDescription: string, currencyCode: string,
    invoiceTransactionType: string, policyNumber: int32, coverageCode: int32,
    coverageName: string, policyEventType: string, installmentDueDate: Date,
    invoiceNumber: int32, invoiceLineNumber: int32, financialTransactionCode: string,
    financialTransactionAmt: int32, apStatus: string, payToID: string,
    payeeName: string, invoiceTransactionID: string)
    ensures var s := InvoiceState(issuer, owner, payTermDescription, currencyCode,
      invoiceTransactionType, policyNumber, coverageCode, coverageName, policyEventType,
      installmentDueDate, invoiceNumber, invoiceLineNumber, financialTransactionCode,
      financialTransactionAmt, apStatus, payToID, payeeName, invoiceTransactionID);
      s.issuer == issuer && s.owner == owner && s.payTermDescription == payTermDescription &&
      s.currencyCode == currencyCode && s.invoiceTransactionType == invoiceTransactionType &&
      s.policyNumber == policyNumber && s.coverageCode == coverageCode &&
      s.coverageName == coverageName && s.policyEventType == policyEventType &&
      s.installmentDueDate == installmentDueDate && s.invoiceNumber == invoiceNumber &&
      s.invoiceLineNumber == invoiceLineNumber &&
      s.financialTransactionCode == financialTransactionCode &&
      s.financialTransactionAmt == financialTransactionAmt && s.apStatus == apStatus &&
      s.payToID == payToID && s.payeeName == payeeName &&
      s.invoiceTransactionID == invoiceTransactionID
  {
  }
}
