/** The `code` of a raised ledger error and the bounds shared by all ledger modules. */
module LedgerErrors {
  datatype ErrorCode =
    | Amount | Budget | Currency | Database | EntryRule | Evidence | Idempotency | Identifier
    | Integer | Integrity | Job | Limit | PeriodRule | Policy | Price | ReasonCode | Refund
    | Missing | Terminal | Source

  const MAX64: int := 0x7fff_ffff_ffff_ffff
  const MIN64: int := -0x8000_0000_0000_0000

  /** `[a-z0-9][a-z0-9._:-]{0,127}` */
  predicate LedgerIdentifier(s: string) {
    && 1 <= |s| <= 128
    && s[0] !in "._:-"
    && forall i :: 0 <= i < |s| ==> ('a' <= s[i] <= 'z' || '0' <= s[i] <= '9' || s[i] in "._:-")
  }

  /** `[A-Za-z0-9][A-Za-z0-9._:/-]{0,159}` */
  predicate EvidenceIdentifier(s: string) {
    && 1 <= |s| <= 160
    && s[0] !in "._:/-"
    && forall i :: 0 <= i < |s| ==>
      ('a' <= s[i] <= 'z' || 'A' <= s[i] <= 'Z' || '0' <= s[i] <= '9' || s[i] in "._:/-")
  }

  /** `[a-f0-9]{64}` */
  predicate Sha256(s: string) {
    |s| == 64 && forall i :: 0 <= i < |s| ==> ('a' <= s[i] <= 'f' || '0' <= s[i] <= '9')
  }
}
