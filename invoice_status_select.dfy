/**
 * The status picker on an invoice row
 * (src/components/invoices/InvoiceStatusSelect.tsx): the new status is
 * shown at once and the server is asked afterwards; if the server refuses,
 * the previous status comes back. The server action itself is not part of
 * this model: its answer is an input. The status is the text the invoice
 * row holds, which need not be one of the three statuses: the validation
 * webhook writes `pending_validation`.
 */
module InvoiceStatusSelect {
  import opened Wrappers
  import opened Database
  import Constants

  datatype StatusOption = StatusOption(value: InvoiceStatus, text: string)

  const StatusOptions: seq<StatusOption> := [
    StatusOption(Generated, "Générée"),
    StatusOption(Sent, "Envoyée"),
    StatusOption(Paid, "Payée")
  ]

  /** `STATUS_OPTIONS.find(o => o.value === status)`: the first option with that value. */
  function FindOption(options: seq<StatusOption>, status: string): (r: Option<StatusOption>)
    ensures r.Some? ==> r.value in options && InvoiceStatusName(r.value.value) == status
    ensures r.None? <==> forall i :: 0 <= i < |options| ==> InvoiceStatusName(options[i].value) != status
  {
    if options == [] then None
    else if InvoiceStatusName(options[0].value) == status then Some(options[0])
    else FindOption(options[1..], status)
  }

  /**
   * `... ?? STATUS_OPTIONS[0]`: a status of the three shows its own option,
   * labelled as everywhere else in the application; any other text, such
   * as `pending_validation`, shows the first option, "Générée".
   */
  function CurrentOption(status: string): (o: StatusOption)
    ensures o in StatusOptions
    ensures ParseInvoiceStatus(status).Some? ==>
      o.value == ParseInvoiceStatus(status).value && o.text == Constants.InvoiceStatusLabel(o.value).text
    ensures ParseInvoiceStatus(status).None? ==> o == StatusOptions[0]
  {
    var found := FindOption(StatusOptions, status);
    if found.Some? then
      OptionOfStatus(status);
      found.value
    else
      OptionOfStatus(status);
      StatusOptions[0]
  }

  /** Each of the three statuses has exactly one option, labelled as the status table says. */
  lemma OptionOfStatus(status: string)
    ensures ParseInvoiceStatus(status).Some? ==>
      var found := FindOption(StatusOptions, status);
      found.Some? && found.value.value == ParseInvoiceStatus(status).value
      && found.value.text == Constants.InvoiceStatusLabel(found.value.value).text
  {
    var found := FindOption(StatusOptions, status);
    if ParseInvoiceStatus(status).Some? {
      var x := ParseInvoiceStatus(status).value;
      var i := match x case Generated => 0 case Sent => 1 case Paid => 2;
      assert InvoiceStatusName(StatusOptions[i].value) == status;
      assert found.value == StatusOptions[0] || found.value == StatusOptions[1] || found.value == StatusOptions[2];
    }
  }

  /** An invoice awaiting validation is shown as generated. */
  lemma PendingValidationShownAsGenerated()
    ensures CurrentOption("pending_validation").value == Generated
    ensures CurrentOption("pending_validation").text == "Générée"
  {
    assert ParseInvoiceStatus("pending_validation").None?;
  }

  /** An update the server has been asked for, and the status text to go back to if it fails. */
  datatype PendingUpdate = PendingUpdate(newStatus: InvoiceStatus, previousStatus: string)

  class StatusSelect {
    var status: string
    var isOpen: bool

    constructor(currentStatus: string)
      ensures status == currentStatus && !isOpen
    {
      status := currentStatus;
      isOpen := false;
    }

    /**
     * `handleSelect`, up to the server call: picking the shown status only
     * closes the menu; another one is shown at once and becomes a request.
     */
    method Select(newStatus: InvoiceStatus) returns (request: Option<PendingUpdate>)
      modifies this
      ensures !isOpen
      ensures InvoiceStatusName(newStatus) == old(status) ==> request.None? && status == old(status)
      ensures InvoiceStatusName(newStatus) != old(status) ==>
        request == Some(PendingUpdate(newStatus, old(status))) && status == InvoiceStatusName(newStatus)
    {
      if InvoiceStatusName(newStatus) == status {
        isOpen := false;
        return None;
      }
      var previousStatus := status;
      status := InvoiceStatusName(newStatus);
      isOpen := false;
      return Some(PendingUpdate(newStatus, previousStatus));
    }

    /** The server's answer: success keeps what is shown, failure restores the previous status. */
    method Settle(request: PendingUpdate, success: bool)
      modifies this
      ensures success ==> status == old(status)
      ensures !success ==> status == request.previousStatus
      ensures isOpen == old(isOpen)
    {
      if !success {
        status := request.previousStatus;
      }
    }

    /**
     * A whole selection: the server is asked only for a different status,
     * and in the end the shown status is the new one exactly when the
     * server accepted it (or nothing was asked), and the old one otherwise.
     */
    method HandleSelect(newStatus: InvoiceStatus, success: bool) returns (asked: bool)
      modifies this
      ensures asked <==> InvoiceStatusName(newStatus) != old(status)
      ensures status == (if !asked || success then InvoiceStatusName(newStatus) else old(status))
      ensures !isOpen
    {
      var request := Select(newStatus);
      asked := request.Some?;
      if request.Some? {
        Settle(request.value, success);
      }
    }
  }
}
