/** The SteamKit2 values the dumper consumes: licenses from the license list
    and product-info entries from the PICS product-info responses. */
module Steam {
  import opened KeyValues

  /** ELicenseFlags; a license carries a set of them. */
  datatype LicenseFlag =
    | Renew | RenewalFailed | Pending | Expired | CancelledByUser | CancelledByAdmin
    | LowViolenceContent | ImportedFromSteam2 | ForceRunRestriction | RegionRestrictionExpired
    | CancelledByFriendlyFraudLock | NotActivated

  /** EPaymentMethod: only `AuthorizedDevice` (family sharing) is told apart. */
  datatype PaymentMethod = AuthorizedDevice | OtherPaymentMethod(code: nat)

  /** One entry of the license list. `timeCreated` is in seconds (UTC). */
  datatype License = License(packageId: nat, timeCreated: nat, paymentMethod: PaymentMethod, flags: set<LicenseFlag>)

  /** EBillingType.FreeOnDemand. */
  const FreeOnDemand: int := 12

  /** One app or package of a PICS product-info response. */
  datatype ProductInfo = ProductInfo(id: nat, changeNumber: nat, keyValues: KeyValue, missingToken: bool)
}
