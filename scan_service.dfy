/**
 * The manual service-entry screen: the confirmation guard chain, the record it
 * saves, the three store writes it issues, and the cancel / manual-entry
 * handlers that reset or seed the edit fields.
 *
 * The stores behind `addOrUpdateClient`, `recordService` and `addService` are
 * not part of this model: each call is appended to a write log instead.
 */
module ScanService {
  import opened Js

  /** The active billing cycle as the screen sees it: only its identifier is used. */
  datatype BillingCycle = BillingCycle(id: string)

  /** The seven edit fields of the confirmation form. */
  datatype Form = Form(
    origin: string,
    destination: string,
    company: string,
    price: string,
    date: string,
    observations: string,
    discount: string)

  /** The `extractedData` record; its presence switches the screen into the form. */
  datatype ExtractedData = ExtractedData(
    origin: string,
    destination: string,
    company: string,
    price: string,
    date: string,
    observations: string)

  /** Why a confirmation was refused, one constructor per alert of the guard chain. */
  datatype Rejection = NoActiveCycle | MissingRequiredFields | InvalidPrice | InvalidDiscount

  /** The service record handed to `addService` (its `clientId` and `clientPhone` are always undefined). */
  datatype Service = Service(
    date: string,
    origin: string,
    destination: string,
    company: string,
    price: string,
    discountPercent: string,
    observations: string,
    paymentMethod: string,
    clientName: string)

  /** One call into an external store, in the order the screen awaits them. */
  datatype StoreWrite =
    | AddOrUpdateClient(companyName: string)
    | RecordService(companyName: string, origin: string, destination: string, price: string, discountPercent: string)
    | AddService(service: Service, billingCycleId: string)

  datatype ConfirmOutcome = Rejected(reason: Rejection) | Saved | SaveFailed(failedWrite: nat)

  const PaymentSubscriber := "Abonado"

  /** Origin, destination, company and price are all non-blank. */
  predicate HasRequiredFields(f: Form) {
    Trim(f.origin) != "" && Trim(f.destination) != "" && Trim(f.company) != "" && Trim(f.price) != ""
  }

  /** The price parses to a number (not NaN) that is not negative. */
  predicate PriceAccepted(floats: FloatTable, s: string) {
    ParseFloat(floats, s).Some? && ParseFloat(floats, s).value >= 0.0
  }

  /** The discount parses to a number (not NaN) in [0, 100]. */
  predicate DiscountAccepted(floats: FloatTable, s: string) {
    ParseFloat(floats, s).Some? && 0.0 <= ParseFloat(floats, s).value <= 100.0
  }

  /**
   * The guard chain of `handleConfirm`: active cycle, then required fields,
   * then price, then discount. The first failing guard names the rejection.
   */
  function CheckConfirm(cycle: Option<BillingCycle>, f: Form, floats: FloatTable): (r: Option<Rejection>)
    ensures r == None <==>
      cycle.Some? && HasRequiredFields(f) && PriceAccepted(floats, f.price) && DiscountAccepted(floats, f.discount)
    ensures cycle == None ==> r == Some(NoActiveCycle)
    ensures r == Some(MissingRequiredFields) <==> cycle.Some? && !HasRequiredFields(f)
    ensures r == Some(InvalidPrice) <==>
      cycle.Some? && HasRequiredFields(f) && !PriceAccepted(floats, f.price)
    ensures r == Some(InvalidDiscount) <==>
      cycle.Some? && HasRequiredFields(f) && PriceAccepted(floats, f.price) && !DiscountAccepted(floats, f.discount)
  {
    if cycle.None? then Some(NoActiveCycle)
    else if !HasRequiredFields(f) then Some(MissingRequiredFields)
    else if !PriceAccepted(floats, f.price) then Some(InvalidPrice)
    else if !DiscountAccepted(floats, f.discount) then Some(InvalidDiscount)
    else None
  }

  /** The record passed to `addService`: text fields trimmed, price and discount kept as typed. */
  function SavedService(f: Form): (s: Service)
    ensures s.origin == Trim(f.origin) && s.destination == Trim(f.destination)
    ensures s.company == Trim(f.company) && s.observations == Trim(f.observations)
    ensures Trimmed(s.origin) && Trimmed(s.destination) && Trimmed(s.company) && Trimmed(s.observations)
    ensures s.price == f.price && s.discountPercent == f.discount && s.date == f.date
    ensures s.paymentMethod == PaymentSubscriber && s.clientName == s.company
  {
    Service(f.date, Trim(f.origin), Trim(f.destination), Trim(f.company), f.price, f.discount,
            Trim(f.observations), PaymentSubscriber, Trim(f.company))
  }

  /** What a record saved through this screen always satisfies. */
  predicate WellFormedService(floats: FloatTable, s: Service) {
    && Trimmed(s.origin) && s.origin != ""
    && Trimmed(s.destination) && s.destination != ""
    && Trimmed(s.company) && s.company != ""
    && Trimmed(s.observations)
    && PriceAccepted(floats, s.price)
    && DiscountAccepted(floats, s.discountPercent)
    && s.paymentMethod == PaymentSubscriber
    && s.clientName == s.company
  }

  /** The three writes of a successful confirmation, in the order they are awaited. */
  function ConfirmWrites(cycle: BillingCycle, f: Form): (w: seq<StoreWrite>)
    ensures |w| == 3
    ensures w[0].AddOrUpdateClient? && w[1].RecordService? && w[2].AddService?
    ensures w[0].companyName == w[1].companyName == w[2].service.company == w[2].service.clientName
    ensures w[1].price == w[2].service.price && w[1].discountPercent == w[2].service.discountPercent
    ensures w[1].origin == w[2].service.origin && w[1].destination == w[2].service.destination
    ensures w[2].billingCycleId == cycle.id
    ensures w[2].service == SavedService(f)
    ensures w[0].companyName == Trim(f.company)
    ensures w[1].origin == Trim(f.origin) && w[1].destination == Trim(f.destination)
    ensures w[1].price == f.price && w[1].discountPercent == f.discount
  {
    var s := SavedService(f);
    [ AddOrUpdateClient(Trim(f.company)),
      RecordService(Trim(f.company), Trim(f.origin), Trim(f.destination), f.price, f.discount),
      AddService(s, cycle.id) ]
  }

  /** How many of the three writes are attempted when write number `failAt` (0-based) throws. */
  function Attempted(failAt: Option<nat>): (n: nat)
    ensures 1 <= n <= 3
    ensures failAt.Some? && failAt.value < 3 ==> n == failAt.value + 1
    ensures (failAt.None? || failAt.value >= 3) ==> n == 3
  {
    if failAt.Some? && failAt.value < 3 then failAt.value + 1 else 3
  }

  /**
   * A confirmation that passes the guard chain saves a well-formed record: every
   * required text field is trimmed and non-empty, and price and discount are in range.
   */
  lemma AcceptedServiceWellFormed(cycle: Option<BillingCycle>, f: Form, floats: FloatTable)
    requires CheckConfirm(cycle, f, floats) == None
    ensures WellFormedService(floats, SavedService(f))
  {
    var s := SavedService(f);
    TrimIdempotent(f.origin);
    TrimIdempotent(f.destination);
    TrimIdempotent(f.company);
    assert s.origin != "" && s.destination != "" && s.company != "";
  }

  /**
   * A form the guard chain accepts always has a non-blank company, so the
   * `if (editCompany.trim())` around the first two writes never skips them.
   */
  lemma CompanyGuardAlwaysTaken(cycle: Option<BillingCycle>, f: Form, floats: FloatTable)
    requires CheckConfirm(cycle, f, floats) == None
    ensures Trim(f.company) != ""
  {
  }

  /** The screen's state: the confirm flag, the extracted record, the seven edit fields. */
  class ScanServiceScreen {
    var isProcessing: bool
    var extractedData: Option<ExtractedData>
    var isConfirming: bool
    var editOrigin: string
    var editDestination: string
    var editCompany: string
    var editPrice: string
    var editDate: string
    var editObservations: string
    var editDiscount: string
    /** Every store write the screen has issued, oldest first. */
    var writes: seq<StoreWrite>

    /** The `useState` initial values. */
    constructor ()
      ensures !isProcessing && extractedData == None && !isConfirming
      ensures EditForm() == Form("", "", "", "", "", "", "0")
      ensures writes == []
    {
      isProcessing := false;
      extractedData := None;
      isConfirming := false;
      editOrigin, editDestination, editCompany, editPrice := "", "", "", "";
      editDate, editObservations, editDiscount := "", "", "0";
      writes := [];
    }

    function EditForm(): Form
      reads this
    {
      Form(editOrigin, editDestination, editCompany, editPrice, editDate, editObservations, editDiscount)
    }

    /**
     * `handleConfirm`. `activeCycle` is what `getActiveCycle()` returns;
     * `failAt` names the write (0-based) that throws, if any. A rejected
     * confirmation changes nothing; an accepted one issues the writes of
     * `ConfirmWrites` in order up to and including the one that throws, and
     * ends with `isProcessing` cleared.
     */
    method HandleConfirm(activeCycle: Option<BillingCycle>, floats: FloatTable, failAt: Option<nat>)
      returns (outcome: ConfirmOutcome)
      modifies this
      ensures EditForm() == old(EditForm())
      ensures extractedData == old(extractedData) && isConfirming == old(isConfirming)
      ensures CheckConfirm(activeCycle, old(EditForm()), floats).Some? ==>
        && outcome == Rejected(CheckConfirm(activeCycle, old(EditForm()), floats).value)
        && writes == old(writes)
        && isProcessing == old(isProcessing)
      ensures CheckConfirm(activeCycle, old(EditForm()), floats).None? ==>
        && activeCycle.Some?
        && writes == old(writes) + ConfirmWrites(activeCycle.value, old(EditForm()))[..Attempted(failAt)]
        && !isProcessing
        && outcome == (if failAt.Some? && failAt.value < 3 then SaveFailed(failAt.value) else Saved)
    {
      var rejection := CheckConfirm(activeCycle, EditForm(), floats);
      if rejection.Some? {
        return Rejected(rejection.value);
      }
      outcome := Save(activeCycle.value, failAt);
    }

    /**
     * The `try`/`finally` part of `handleConfirm`, entered once every guard has
     * passed: the writes are awaited one after the other, a write that throws
     * ends the sequence, and `isProcessing` is cleared whatever happens.
     */
    method Save(cycle: BillingCycle, failAt: Option<nat>) returns (outcome: ConfirmOutcome)
      requires Trim(editCompany) != ""
      modifies this`writes, this`isProcessing
      ensures writes == old(writes) + ConfirmWrites(cycle, EditForm())[..Attempted(failAt)]
      ensures !isProcessing
      ensures outcome == (if failAt.Some? && failAt.value < 3 then SaveFailed(failAt.value) else Saved)
    {
      var form := EditForm();
      var payloads := ConfirmWrites(cycle, form);
      assert payloads[..1] == [payloads[0]] && payloads[..2] == [payloads[0], payloads[1]];
      assert payloads[..3] == payloads == [payloads[0], payloads[1], payloads[2]];
      isProcessing := true;
      outcome := Saved;
      if Trim(form.company) != "" {
        writes := writes + [payloads[0]];
        if failAt == Some(0) {
          outcome := SaveFailed(0);
        } else {
          writes := writes + [payloads[1]];
          if failAt == Some(1) {
            outcome := SaveFailed(1);
          }
        }
      }
      if outcome == Saved {
        writes := writes + [payloads[2]];
        if failAt == Some(2) {
          outcome := SaveFailed(2);
        }
      }
      isProcessing := false;
      assert EditForm() == form;
      if failAt == Some(0) {
        assert writes == old(writes) + payloads[..1];
      } else if failAt == Some(1) {
        assert writes == old(writes) + payloads[..2];
      } else {
        assert writes == old(writes) + payloads;
      }
    }

    /** `handleCancel`: leave the form and clear every edit field (the discount goes back to "0"). */
    method HandleCancel()
      modifies this
      ensures !isConfirming && extractedData == None
      ensures EditForm() == Form("", "", "", "", "", "", "0")
      ensures isProcessing == old(isProcessing) && writes == old(writes)
    {
      isConfirming := false;
      extractedData := None;
      editOrigin := "";
      editDestination := "";
      editCompany := "";
      editPrice := "";
      editDate := "";
      editObservations := "";
      editDiscount := "0";
    }

    /**
     * The "Entrada Manual" button: seed an empty record dated `today` (the
     * date part of the current ISO timestamp) and open the form with the same
     * fields as a cancel leaves them, except the date.
     */
    method StartManualEntry(today: string)
      modifies this
      ensures isConfirming
      ensures extractedData == Some(ExtractedData("", "", "", "", today, ""))
      ensures EditForm() == Form("", "", "", "", today, "", "0")
      ensures isProcessing == old(isProcessing) && writes == old(writes)
    {
      extractedData := Some(ExtractedData("", "", "", "", today, ""));
      editOrigin := "";
      editDestination := "";
      editCompany := "";
      editPrice := "";
      editDate := today;
      editObservations := "";
      editDiscount := "0";
      isConfirming := true;
    }
  }
}
