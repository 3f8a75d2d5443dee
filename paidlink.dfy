/**
 * The payment-return check applied to the deep-link parameter of `/start`:
 * the parameter must be truthy, start with `paid_`, and the rest of it must
 * convert with `Number` to the sender's own id.
 */
module PaidLink {
  import opened Wrappers
  import opened JsText
  import opened JsNumber

  const PaidPrefix: string := "paid_"

  /** `param && param.startsWith('paid_')`, then `!isNaN(Number(param.slice(5))) && ... === userId`. */
  predicate IsPaymentReturnFor(param: Option<string>, userId: int) {
    param.Some? && param.value != "" && StartsWith(param.value, PaidPrefix) &&
    var paidUserId := StringToNumber(param.value[|PaidPrefix|..]);
    paidUserId.Some? && paidUserId.value == userId
  }

  /** The link the checkout redirects to, `paid_<id>`, is accepted for the user it names. */
  lemma OwnLinkAccepted(userId: int)
    ensures IsPaymentReturnFor(Some(PaidPrefix + ShowInt(userId)), userId)
  {
    NumberOfShowInt(userId);
    assert (PaidPrefix + ShowInt(userId))[|PaidPrefix|..] == ShowInt(userId);
  }

  /** A link naming another user is refused. */
  lemma ForeignLinkRefused(userId: int, other: int)
    requires other != userId
    ensures !IsPaymentReturnFor(Some(PaidPrefix + ShowInt(other)), userId)
  {
    NumberOfShowInt(other);
    assert (PaidPrefix + ShowInt(other))[|PaidPrefix|..] == ShowInt(other);
  }

  /**
   * The check is loose: white space around the id and leading zeros name the
   * same user, so many distinct links activate one account.
   */
  lemma PaddedLinkAccepted(userId: nat, lead: string, zeros: string, trail: string)
    requires forall i :: 0 <= i < |lead| ==> IsWhiteSpace(lead[i])
    requires forall i :: 0 <= i < |trail| ==> IsWhiteSpace(trail[i])
    requires forall i :: 0 <= i < |zeros| ==> zeros[i] == '0'
    ensures IsPaymentReturnFor(Some(PaidPrefix + lead + zeros + ShowInt(userId) + trail), userId)
  {
    var suffix := lead + zeros + ShowInt(userId) + trail;
    NumberOfPaddedDigits(lead, zeros, userId, trail);
    assert PaidPrefix + lead + zeros + ShowInt(userId) + trail == PaidPrefix + suffix;
    assert (PaidPrefix + suffix)[|PaidPrefix|..] == suffix;
  }
}
