/** The payment-method picker (src/components/ui/PaymentSelector.tsx): its
    own table of methods, filtered by the user's location, with the card
    whose id equals the selected id marked. */
module PaymentSelector {
  import opened Wrappers
  import opened Types
  import Seqs

  // The icons are the text the component's source file holds: the UTF-8
  // bytes of money emoji read back as Windows-1252, four characters each.
  const Esewa := PaymentMethod("esewa", "eSewa", "\U{00F0}\U{0178}\U{2019}\U{00B8}", Nepal, "Pay using your eSewa account")
  const Khalti := PaymentMethod("khalti", "Khalti", "\U{00F0}\U{0178}\U{2019}\U{00B0}", Nepal, "Pay using your Khalti account")
  const Visa := PaymentMethod("visa", "Visa Card", "\U{00F0}\U{0178}\U{2019}\U{00B3}", International,
                              "Pay using your Visa credit or debit card")
  const Mastercard := PaymentMethod("mastercard", "Mastercard", "\U{00F0}\U{0178}\U{2019}\U{00B3}", International,
                                    "Pay using your Mastercard credit or debit card")
  const OnsiteNepal := PaymentMethod("onsite", "Pay on Site", "\U{00F0}\U{0178}\U{2019}\U{00B5}", Nepal,
                                     "Pay when you pick up the bike")
  const OnsiteInternational := PaymentMethod("onsite", "Pay on Site", "\U{00F0}\U{0178}\U{2019}\U{00B5}", International,
                                             "Pay when you pick up the bike")

  /** The component's `paymentMethods` table; "onsite" appears once per location. */
  const SelectorMethods: seq<PaymentMethod> :=
    [Esewa, Khalti, Visa, Mastercard, OnsiteNepal, OnsiteInternational]

  function OfLocation(location: UserLocation): PaymentMethod -> bool {
    (m: PaymentMethod) => m.kind == location
  }

  /** `filteredPaymentMethods`: the methods of the user's location, in table order. */
  function MethodsFor(location: UserLocation): (r: seq<PaymentMethod>)
    ensures forall m :: m in r <==> m in SelectorMethods && m.kind == location
  {
    Seqs.Filter(SelectorMethods, OfLocation(location))
  }

  /** The listed methods are an order-preserving subsequence of the table. */
  lemma MethodsForIsSubsequence(location: UserLocation)
    ensures Seqs.SubsequenceOf(MethodsFor(location), SelectorMethods)
  {
    Seqs.FilterIsSubsequence(SelectorMethods, OfLocation(location));
  }

  function Ids(ms: seq<PaymentMethod>): (ids: seq<string>)
    ensures |ids| == |ms| && forall i :: 0 <= i < |ms| ==> ids[i] == ms[i].id
  {
    seq(|ms|, i requires 0 <= i < |ms| => ms[i].id)
  }

  /** Nepal offers esewa, khalti and on-site payment. */
  lemma {:induction false} MethodsForNepal()
    ensures MethodsFor(Nepal) == [Esewa, Khalti, OnsiteNepal]
  {
    var t, n := SelectorMethods, OfLocation(Nepal);
    Seqs.FilterStep(t[5..], n);
    Seqs.FilterStep(t[4..], n);
    Seqs.FilterStep(t[3..], n);
    Seqs.FilterStep(t[2..], n);
    Seqs.FilterStep(t[1..], n);
    Seqs.FilterStep(t, n);
  }

  /** International visitors get visa, mastercard and on-site payment. */
  lemma {:induction false} MethodsForInternational()
    ensures MethodsFor(International) == [Visa, Mastercard, OnsiteInternational]
  {
    var t, x := SelectorMethods, OfLocation(International);
    assert t[6..] == [];
    assert Seqs.Filter(t[6..], x) == [];
    Seqs.FilterStep(t[5..], x);
    assert Seqs.Filter(t[5..], x) == [OnsiteInternational];
    Seqs.FilterStep(t[4..], x);
    assert Seqs.Filter(t[4..], x) == [OnsiteInternational];
    Seqs.FilterStep(t[3..], x);
    assert Seqs.Filter(t[3..], x) == [Mastercard, OnsiteInternational];
    Seqs.FilterStep(t[2..], x);
    assert Seqs.Filter(t[2..], x) == [Visa, Mastercard, OnsiteInternational];
    Seqs.FilterStep(t[1..], x);
    Seqs.FilterStep(t, x);
  }

  /** Helper for `ChosenCardNeverMarkedAsWritten`: `MethodsForNepal` and
      `MethodsForInternational` restated as id lists. */
  lemma MethodsForLocations()
    ensures Ids(MethodsFor(Nepal)) == ["esewa", "khalti", "onsite"]
    ensures Ids(MethodsFor(International)) == ["visa", "mastercard", "onsite"]
  {
    MethodsForNepal();
    MethodsForInternational();
  }

  /** Ids are unique within each location's list. */
  lemma IdsUniquePerLocation(location: UserLocation)
    ensures var ms := MethodsFor(location);
            forall i, j :: 0 <= i < j < |ms| ==> ms[i].id != ms[j].id
  {
    if location == Nepal {
      MethodsForNepal();
    } else {
      MethodsForInternational();
    }
  }

  /** The card keys `${id}-${type}` are unique across the whole table,
      although the id "onsite" alone is not. */
  lemma KeysUnique()
    ensures forall i, j :: 0 <= i < j < |SelectorMethods| ==>
              SelectorMethods[i].id != SelectorMethods[j].id
              || SelectorMethods[i].kind != SelectorMethods[j].kind
    ensures SelectorMethods[4].id == SelectorMethods[5].id
  {
  }

  /** One rendered card: whether it is marked and what a click reports. */
  datatype Card = Card(id: string, name: string, selected: bool, onClickReports: string)

  /** The cards for a location and a selected id (`null` is None). */
  function Cards(location: UserLocation, selectedPayment: Option<string>): (cs: seq<Card>)
    ensures |cs| == |MethodsFor(location)|
    ensures forall i :: 0 <= i < |cs| ==>
              && cs[i].id == MethodsFor(location)[i].id
              && (cs[i].selected <==> selectedPayment == Some(MethodsFor(location)[i].id))
              && cs[i].onClickReports == MethodsFor(location)[i].id
  {
    var ms := MethodsFor(location);
    seq(|ms|, i requires 0 <= i < |ms| =>
      Card(ms[i].id, ms[i].name, selectedPayment == Some(ms[i].id), ms[i].id))
  }

  /** Selecting a listed id marks exactly that one card. */
  lemma {:induction false} ExactlyOneMarked(location: UserLocation, k: nat)
    requires k < |MethodsFor(location)|
    ensures var cs := Cards(location, Some(MethodsFor(location)[k].id));
            forall i :: 0 <= i < |cs| ==> (cs[i].selected <==> i == k)
  {
    IdsUniquePerLocation(location);
  }

  /** As wired by the checkout page: the page passes the selection under
      the prop name `selectedPaymentMethod`, but the component reads
      `selectedPayment`, which is therefore always undefined. */
  function CheckoutCardsAsWritten(location: UserLocation, chosen: Option<string>): (cs: seq<Card>)
    ensures forall i :: 0 <= i < |cs| ==> !cs[i].selected
  {
    Cards(location, None)
  }

  /** As wired, choosing a method never marks its card. */
  lemma ChosenCardNeverMarkedAsWritten(location: UserLocation)
    ensures var cs := CheckoutCardsAsWritten(location, Some(MethodsFor(location)[0].id));
            |cs| == 3 && !cs[0].selected
  {
    MethodsForLocations();
  }

  /** With the selection passed under the prop the component reads. */
  function CheckoutCardsCorrected(location: UserLocation, chosen: Option<string>): (cs: seq<Card>)
    ensures forall i :: 0 <= i < |cs| ==> (cs[i].selected <==> chosen == Some(cs[i].id))
  {
    Cards(location, chosen)
  }

  /** Once wired correctly, choosing a listed method marks exactly its card. */
  lemma {:induction false} ChosenCardMarkedWhenCorrected(location: UserLocation, k: nat)
    requires k < |MethodsFor(location)|
    ensures var cs := CheckoutCardsCorrected(location, Some(MethodsFor(location)[k].id));
            forall i :: 0 <= i < |cs| ==> (cs[i].selected <==> i == k)
  {
    ExactlyOneMarked(location, k);
  }
}
