/**
 * Trunk (bundle) tracking: the colour a trunk's row is shown in, the query
 * the filters turn into, and the body that records a newly received trunk.
 */
module PieceTracking {
  import opened Wrappers

  const ITEM_TYPE: string := "Trunk Pieces"
  const ALL: string := "All"
  const DISPATCHED: string := "Dispatched"

  /** A trunk as the server lists it; `paymentAmount` may be absent. */
  datatype Trunk = Trunk(
    id: string,
    trunkNumber: string,
    itemType: string,
    quantity: int,
    receivedDate: string,
    isDispatched: bool,
    expectedPayment: int,
    paymentAmount: Option<int>)

  datatype RowColor = Green | Yellow | Red

  /** `paymentAmount >= expectedPayment`; false when the amount is absent. */
  predicate FullyPaid(t: Trunk)
  {
    t.paymentAmount.Some? && t.paymentAmount.value >= t.expectedPayment
  }

  /** `paymentAmount > 0 && paymentAmount < expectedPayment`; false when absent. */
  predicate PartiallyPaid(t: Trunk)
  {
    t.paymentAmount.Some? && 0 < t.paymentAmount.value < t.expectedPayment
  }

  /**
   * The row colour: green for a trunk fully paid and dispatched, yellow for a
   * partly paid one (whether dispatched or not), red for everything else,
   * an undispatched fully paid trunk included.
   */
  function ColorOf(t: Trunk): (c: RowColor)
    ensures c == Green <==> FullyPaid(t) && t.isDispatched
    ensures c == Yellow <==> PartiallyPaid(t)
    ensures c == Red <==> !PartiallyPaid(t) && !(FullyPaid(t) && t.isDispatched)
    ensures FullyPaid(t) && !t.isDispatched ==> c == Red
    ensures t.paymentAmount.None? ==> c == Red
  {
    if FullyPaid(t) && t.isDispatched then Green
    else if PartiallyPaid(t) then Yellow
    else Red
  }

  /** The two filter selections. */
  datatype Filters = Filters(isDispatched: string, paymentStatus: string)

  const DEFAULT_FILTERS: Filters := Filters(ALL, ALL)

  /** The query parameters of a fetch; an absent field is not sent. */
  datatype QueryParams = QueryParams(isDispatched: Option<bool>, paymentStatus: Option<string>)

  /** `toLowerCase` on one character, for the ASCII letters. */
  function LowerChar(c: char): char
  {
    if 'A' <= c <= 'Z' then (c as int - 'A' as int + 'a' as int) as char else c
  }

  /** `toLowerCase` on a string, character by character. */
  function LowerCase(s: string): (r: string)
    ensures |r| == |s|
  {
    if s == [] then [] else [LowerChar(s[0])] + LowerCase(s[1..])
  }

  /** Lower-casing maps each character and leaves no upper-case letter. */
  lemma {:induction false} LowerCaseLowers(s: string)
    ensures forall i :: 0 <= i < |s| ==> LowerCase(s)[i] == LowerChar(s[i])
    ensures forall i :: 0 <= i < |s| ==> !('A' <= LowerCase(s)[i] <= 'Z')
  {
    if s != [] {
      LowerCaseLowers(s[1..]);
      assert forall i :: 1 <= i < |s| ==> LowerCase(s)[i] == LowerCase(s[1..])[i - 1];
    }
  }

  /** The payment option "Completed" is sent as the status "completed". */
  lemma CompletedOptionLowerCased()
    ensures LowerCase("Completed") == "completed"
  {
    LowerCaseLowers("Completed");
  }

  /** The payment option "Partial" is sent as the status "partial". */
  lemma PartialOptionLowerCased()
    ensures LowerCase("Partial") == "partial"
  {
    LowerCaseLowers("Partial");
  }

  /** The payment option "Pending" is sent as the status "pending". */
  lemma PendingOptionLowerCased()
    ensures LowerCase("Pending") == "pending"
  {
    LowerCaseLowers("Pending");
  }

  /** A trunk number, quantity and expected payment as typed. */
  datatype Entry = Blank | Typed(n: int)

  /** `Number(...)` of a number input: the empty input is 0. */
  function ToNumber(e: Entry): int
  {
    match e
    case Blank => 0
    case Typed(n) => n
  }

  /** The add-trunk form. */
  datatype TrunkForm = TrunkForm(trunkNumber: string, quantity: Entry, expectedPayment: Entry)

  const EMPTY_FORM: TrunkForm := TrunkForm("", Blank, Blank)

  /** The body posted to record a received trunk. */
  datatype ReceivePayload = ReceivePayload(trunkNumber: string, itemType: string, quantity: int, expectedPayment: int)

  function ReceivePayloadOf(form: TrunkForm): (p: ReceivePayload)
    ensures p.itemType == ITEM_TYPE
    ensures p.trunkNumber == form.trunkNumber
    ensures form.quantity.Typed? ==> p.quantity == form.quantity.n
    ensures form.expectedPayment.Typed? ==> p.expectedPayment == form.expectedPayment.n
    ensures form.quantity.Blank? ==> p.quantity == 0
    ensures form.expectedPayment.Blank? ==> p.expectedPayment == 0
  {
    ReceivePayload(form.trunkNumber, ITEM_TYPE, ToNumber(form.quantity), ToNumber(form.expectedPayment))
  }

  /** The form a payload was built from, read back as fully typed. */
  function FormOf(p: ReceivePayload): TrunkForm
  {
    TrunkForm(p.trunkNumber, Typed(p.quantity), Typed(p.expectedPayment))
  }

  /** Nothing typed into a filled-in form is lost in the payload. */
  lemma ReceivePayloadRoundTrip(form: TrunkForm)
    requires form.quantity.Typed? && form.expectedPayment.Typed?
    ensures FormOf(ReceivePayloadOf(form)) == form
  {
  }

  /** The piece-tracking page's state. */
  class PieceTrackingView {
    var trunks: seq<Trunk>
    var filters: Filters
    var newTrunk: TrunkForm

    constructor ()
      ensures trunks == [] && filters == DEFAULT_FILTERS && newTrunk == EMPTY_FORM
    {
      trunks, filters, newTrunk := [], DEFAULT_FILTERS, EMPTY_FORM;
    }

    method SetDispatchFilter(v: string)
      modifies this
      ensures filters == old(filters).(isDispatched := v)
      ensures trunks == old(trunks) && newTrunk == old(newTrunk)
    {
      filters := filters.(isDispatched := v);
    }

    method SetPaymentFilter(v: string)
      modifies this
      ensures filters == old(filters).(paymentStatus := v)
      ensures trunks == old(trunks) && newTrunk == old(newTrunk)
    {
      filters := filters.(paymentStatus := v);
    }

    /** Typing into the add-trunk form. */
    method EditForm(form: TrunkForm)
      modifies this
      ensures newTrunk == form
      ensures trunks == old(trunks) && filters == old(filters)
    {
      newTrunk := form;
    }

    /**
     * The query a fetch sends: a filter at "All" sends nothing; the dispatch
     * filter sends whether it is "Dispatched", the payment filter its label
     * lower-cased.
     */
    method FetchParams() returns (params: QueryParams)
      ensures params.isDispatched.None? <==> filters.isDispatched == ALL
      ensures params.isDispatched.Some? ==> (params.isDispatched.value <==> filters.isDispatched == DISPATCHED)
      ensures params.paymentStatus.None? <==> filters.paymentStatus == ALL
      ensures params.paymentStatus.Some? ==> params.paymentStatus.value == LowerCase(filters.paymentStatus)
      ensures filters == DEFAULT_FILTERS ==> params == QueryParams(None, None)
    {
      params := QueryParams(None, None);
      if filters.isDispatched != ALL {
        params := params.(isDispatched := Some(filters.isDispatched == DISPATCHED));
      }
      if filters.paymentStatus != ALL {
        params := params.(paymentStatus := Some(LowerCase(filters.paymentStatus)));
      }
    }

    /** The reply to a fetch replaces the listed trunks; a failed fetch changes nothing. */
    method ReceiveTrunks(reply: Option<seq<Trunk>>)
      modifies this
      ensures reply.Some? ==> trunks == reply.value
      ensures reply.None? ==> trunks == old(trunks)
      ensures filters == old(filters) && newTrunk == old(newTrunk)
    {
      if reply.Some? {
        trunks := reply.value;
      }
    }

    /**
     * Submitting the add-trunk form: returns the body posted; the form is
     * cleared only if the post was `accepted`.
     */
    method AddTrunk(accepted: bool) returns (payload: ReceivePayload)
      modifies this
      ensures payload == ReceivePayloadOf(old(newTrunk))
      ensures accepted ==> newTrunk == EMPTY_FORM
      ensures !accepted ==> newTrunk == old(newTrunk)
      ensures trunks == old(trunks) && filters == old(filters)
    {
      payload := ReceivePayloadOf(newTrunk);
      if accepted {
        newTrunk := EMPTY_FORM;
      }
    }
  }
}
