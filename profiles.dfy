/**
 * Importing payment profiles from the gateway's customer-profile response
 * into the local payment-profile table: only ids not already stored are
 * inserted, each with the last four characters of its card number.
 */
module PaymentProfiles {
  import opened Dates

  /** The credit-card part of a gateway payment profile (the card number may be absent). */
  datatype CreditCard = CreditCard(cardNumber: Option<string>)

  /** The payment part of a gateway payment profile (the credit card may be absent). */
  datatype CimPayment = CimPayment(creditCard: Option<CreditCard>)

  /** One payment profile as the gateway reports it. */
  datatype CimPaymentProfile = CimPaymentProfile(customerPaymentProfileId: string, payment: CimPayment)

  /** The `payment_profiles` entry of a response: missing, a single profile, or a list. */
  datatype PaymentProfilesEntry = Missing | Single(profile: CimPaymentProfile) | Many(profiles: seq<CimPaymentProfile>)

  /** The gateway's answer to a customer-profile lookup. */
  datatype CustomerProfileResponse = CustomerProfileResponse(success: bool, paymentProfiles: PaymentProfilesEntry)

  /** A row of the local payment-profile table. */
  datatype PaymentProfile = PaymentProfile(
    recurringPayment: int,
    paymentProfileId: string,
    cardNum: Option<string>,
    creatorUsername: string,
    ownerUsername: string)

  /** The profiles of a response as a list: a single profile becomes a one-element list. */
  function ProfileList(entry: PaymentProfilesEntry): (ps: seq<CimPaymentProfile>)
    ensures entry.Missing? ==> ps == []
    ensures entry.Single? ==> ps == [entry.profile]
    ensures entry.Many? ==> ps == entry.profiles
  {
    match entry
    case Missing => []
    case Single(p) => [p]
    case Many(ps) => ps
  }

  /** `s[-4:]`: the last four characters, or all of `s` when it is shorter. */
  function LastFour(s: string): (r: string)
    ensures |r| == if |s| < 4 then |s| else 4
    ensures r == s[|s| - |r|..]
  {
    if |s| <= 4 then s else s[|s| - 4..]
  }

  /** The stored card number: the last four characters, when the response carries a card number. */
  function CardNum(p: CimPaymentProfile): (c: Option<string>)
    ensures c.Some? <==> p.payment.creditCard.Some? && p.payment.creditCard.value.cardNumber.Some?
    ensures c.Some? ==> |c.value| <= 4 && c.value == LastFour(p.payment.creditCard.value.cardNumber.value)
  {
    if p.payment.creditCard.Some? && p.payment.creditCard.value.cardNumber.Some?
    then Some(LastFour(p.payment.creditCard.value.cardNumber.value))
    else None
  }

  /** The row inserted for a gateway profile. */
  function NewRow(rpId: int, username: string, p: CimPaymentProfile): PaymentProfile
  {
    PaymentProfile(rpId, p.customerPaymentProfileId, CardNum(p), username, username)
  }

  /** The ids stored in a table. */
  function Ids(table: seq<PaymentProfile>): set<string>
  {
    set r <- table :: r.paymentProfileId
  }

  /** Whether some row of the table already has the id. */
  predicate Stored(table: seq<PaymentProfile>, id: string)
  {
    exists r <- table :: r.paymentProfileId == id
  }

  /** No two rows share an id. */
  ghost predicate UniqueIds(table: seq<PaymentProfile>)
  {
    forall i, j :: 0 <= i < j < |table| ==> table[i].paymentProfileId != table[j].paymentProfileId
  }

  /** One step of the import: insert the profile unless its id is stored already. */
  function Insert(table: seq<PaymentProfile>, rpId: int, username: string, p: CimPaymentProfile): seq<PaymentProfile>
  {
    if Stored(table, p.customerPaymentProfileId) then table else table + [NewRow(rpId, username, p)]
  }

  /** The table after importing the profiles `ps`, in order. */
  function Import(table: seq<PaymentProfile>, rpId: int, username: string, ps: seq<CimPaymentProfile>): seq<PaymentProfile>
    decreases |ps|
  {
    if ps == [] then table
    else Insert(Import(table, rpId, username, ps[..|ps| - 1]), rpId, username, ps[|ps| - 1])
  }

  /** The table after processing a response: unchanged when the lookup failed. */
  function Populate(table: seq<PaymentProfile>, rpId: int, username: string, response: CustomerProfileResponse): seq<PaymentProfile>
  {
    if response.success then Import(table, rpId, username, ProfileList(response.paymentProfiles)) else table
  }

  /** The ids of a response's profiles. */
  function ResponseIds(ps: seq<CimPaymentProfile>): set<string>
  {
    set p <- ps :: p.customerPaymentProfileId
  }

  /** Existing rows stay as they are, at the front of the table. */
  lemma {:induction false} ImportKeepsRows(table: seq<PaymentProfile>, rpId: int, username: string, ps: seq<CimPaymentProfile>)
    ensures |Import(table, rpId, username, ps)| >= |table|
    ensures Import(table, rpId, username, ps)[..|table|] == table
    decreases |ps|
  {
    if ps != [] {
      var before := Import(table, rpId, username, ps[..|ps| - 1]);
      ImportKeepsRows(table, rpId, username, ps[..|ps| - 1]);
      assert (before + [NewRow(rpId, username, ps[|ps| - 1])])[..|table|] == before[..|table|];
    }
  }

  /** After the import the stored ids are the old ones together with every id of the response. */
  lemma {:induction false} ImportIds(table: seq<PaymentProfile>, rpId: int, username: string, ps: seq<CimPaymentProfile>)
    ensures Ids(Import(table, rpId, username, ps)) == Ids(table) + ResponseIds(ps)
    decreases |ps|
  {
    if ps == [] {
      assert ResponseIds(ps) == {};
    } else {
      var init := ps[..|ps| - 1];
      var p := ps[|ps| - 1];
      var before := Import(table, rpId, username, init);
      ImportIds(table, rpId, username, init);
      assert ps == init + [p];
      assert ResponseIds(ps) == ResponseIds(init) + {p.customerPaymentProfileId};
      if !Stored(before, p.customerPaymentProfileId) {
        assert Ids(before + [NewRow(rpId, username, p)]) == Ids(before) + {p.customerPaymentProfileId};
      }
    }
  }

  /** Ids stay unique, even when the response repeats an id or repeats a stored one. */
  lemma {:induction false} ImportKeepsIdsUnique(table: seq<PaymentProfile>, rpId: int, username: string, ps: seq<CimPaymentProfile>)
    requires UniqueIds(table)
    ensures UniqueIds(Import(table, rpId, username, ps))
    decreases |ps|
  {
    if ps != [] {
      var p := ps[|ps| - 1];
      var before := Import(table, rpId, username, ps[..|ps| - 1]);
      ImportKeepsIdsUnique(table, rpId, username, ps[..|ps| - 1]);
      if !Stored(before, p.customerPaymentProfileId) {
        var after := before + [NewRow(rpId, username, p)];
        forall i, j | 0 <= i < j < |after|
          ensures after[i].paymentProfileId != after[j].paymentProfileId
        {
          if j == |before| {
            assert after[i] in before;
          }
        }
      }
    }
  }

  /**
   * Every inserted row belongs to the recurring payment, carries an id that
   * was not stored before, and is the row made from some profile of the
   * response.
   */
  lemma {:induction false} ImportNewRows(table: seq<PaymentProfile>, rpId: int, username: string, ps: seq<CimPaymentProfile>)
    ensures var after := Import(table, rpId, username, ps);
      forall k :: |table| <= k < |after| ==>
        && after[k].recurringPayment == rpId
        && after[k].paymentProfileId !in Ids(table)
        && exists j :: 0 <= j < |ps| && after[k] == NewRow(rpId, username, ps[j])
    decreases |ps|
  {
    ImportKeepsRows(table, rpId, username, ps);
    if ps != [] {
      var init := ps[..|ps| - 1];
      var p := ps[|ps| - 1];
      var before := Import(table, rpId, username, init);
      var after := Import(table, rpId, username, ps);
      ImportNewRows(table, rpId, username, init);
      ImportIds(table, rpId, username, init);
      ImportKeepsRows(table, rpId, username, init);
      forall k | |table| <= k < |after|
        ensures after[k].recurringPayment == rpId
        ensures after[k].paymentProfileId !in Ids(table)
        ensures exists j :: 0 <= j < |ps| && after[k] == NewRow(rpId, username, ps[j])
      {
        if k < |before| {
          assert after[k] == before[k];
          var j :| 0 <= j < |init| && before[k] == NewRow(rpId, username, init[j]);
          assert init[j] == ps[j];
        } else {
          assert !Stored(before, p.customerPaymentProfileId);
          assert after[k] == NewRow(rpId, username, p);
          assert table == before[..|table|];
        }
      }
    }
  }

  /** A single profile in the response is imported exactly as a one-element list. */
  lemma SingleIsOneElementList(table: seq<PaymentProfile>, rpId: int, username: string, p: CimPaymentProfile)
    ensures Populate(table, rpId, username, CustomerProfileResponse(true, Single(p))) ==
            Populate(table, rpId, username, CustomerProfileResponse(true, Many([p])))
    ensures Populate(table, rpId, username, CustomerProfileResponse(true, Single(p))) ==
            Insert(table, rpId, username, p)
  {
    assert [p][..0] == [];
    assert Import(table, rpId, username, [p]) == Insert(Import(table, rpId, username, []), rpId, username, p);
  }
}
