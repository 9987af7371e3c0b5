/** The exceptions the ledger raises to its callers.

    `LedgerException(code, message)` is the ledger's own exception class; the
    eight constants below are the instances the ledger raises.  Two other
    exceptions can escape the ledger unchanged: the `KeyError` of a posting
    without a "note" key, and the error a one-shot result handle raises when
    it is fired a second time. */
module LedgerErrors {

  datatype Error =
    | LedgerException(code: int, message: string)
    | KeyError(key: string)
    | AlreadyCalledError

  const ARGUMENT_ERROR: Error := LedgerException(100, "Posting(s) cannot be decoded.")
  const UID_MISMATCH: Error := LedgerException(101, "Batch postings must have the same UID.")
  const QUANTITY_MISMATCH: Error := LedgerException(200, "Posting quantities do not balance.")
  const TYPE_MISMATCH: Error := LedgerException(201, "Posting types do not match.")
  const COUNT_MISMATCH: Error := LedgerException(202, "Posting count is inconsistent.")
  const GROUP_TIMEOUT: Error := LedgerException(300, "Timeout exceeded waiting for postings.")
  const INTERNAL_ERROR: Error := LedgerException(998, "Invalid arguments supplied to commit.")
  const DATABASE_ERROR: Error := LedgerException(999, "Database error.")
}
