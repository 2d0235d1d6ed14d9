/** The payment-slip scanner screen (components/SlipScanner.tsx): the
    scanned slip, the suggested description, and the save that turns a
    slip into a reconciled room-revenue entry. The request to the slip
    endpoint is outside the model; its parsed reply is an input. */
module SlipScanner {

  import opened Types

  /** The fields the slip endpoint reads off a transfer slip. */
  datatype SlipData = SlipData(
    customerName: string,
    amount: int,
    date: string,
    time: string,
    bank: string,
    fromAccount: string,
    toAccount: string,
    reference: string)

  datatype Screen = Screen(
    imagePreview: Option<string>,
    scanned: Option<SlipData>,
    description: string)

  /** The screen with nothing chosen. */
  const Cleared := Screen(None, None, "")

  /** A successful scan keeps the slip and suggests a description naming
      the payer and the bank. */
  function ScanSucceeded(s: Screen, data: SlipData): (r: Screen)
    ensures r.imagePreview == s.imagePreview && r.scanned == Some(data)
    ensures r.description == "รับชำระค่าห้องพัก จาก " + data.customerName + " (" + data.bank + ")"
  {
    s.(scanned := Some(data), description := "รับชำระค่าห้องพัก จาก " + data.customerName + " (" + data.bank + ")")
  }

  datatype SaveResult = NotScanned | NoAmount | Saved(entry: Transaction)

  /** `handleSave`: refused without a scanned slip or with an amount that
      is zero or negative; otherwise a reconciled room-revenue entry of the
      slip's amount and date, after which the screen is cleared. An empty
      description falls back to a payment-from text naming the payer, and
      an empty preview is no image. */
  function Save(s: Screen): (r: (SaveResult, Screen))
    ensures s.scanned.None? <==> r.0.NotScanned?
    ensures r.0.NoAmount? <==> s.scanned.Some? && s.scanned.value.amount <= 0
    ensures !r.0.Saved? ==> r.1 == s
    ensures r.0.Saved? ==>
      var t := r.0.entry;
      && r.1 == Cleared
      && t.txType == Income && t.category == RoomRevenue && t.isReconciled
      && t.amount == s.scanned.value.amount && t.amount > 0 && t.date == s.scanned.value.date
      && t.description == (if s.description != "" then s.description
                           else "รับชำระเงิน จาก " + s.scanned.value.customerName)
      && t.imageUrl == (if s.imagePreview == Some("") then None else s.imagePreview)
  {
    match s.scanned
    case None => (NotScanned, s)
    case Some(d) =>
      if d.amount <= 0 then (NoAmount, s)
      else
        var description := if s.description != "" then s.description else "รับชำระเงิน จาก " + d.customerName;
        var image := if s.imagePreview == Some("") then None else s.imagePreview;
        (Saved(Draft(d.date, Income, RoomRevenue, d.amount, description, image, true)), Cleared)
  }

  /** `handleReset`. */
  function Reset(s: Screen): (r: Screen)
    ensures r.imagePreview.None? && r.scanned.None? && r.description == ""
  {
    Cleared
  }

  /** A slip saves once: after a save the screen holds nothing to save. */
  lemma SaveOnce(s: Screen)
    requires Save(s).0.Saved?
    ensures Save(Save(s).1).0.NotScanned?
  {
  }

  /** Scanning a slip with a positive amount and saving straight away
      records the suggested description. */
  lemma ScanThenSave(s: Screen, data: SlipData)
    requires data.amount > 0
    ensures var r := Save(ScanSucceeded(s, data));
      && r.0.Saved? && r.0.entry.amount == data.amount
      && r.0.entry.description == "รับชำระค่าห้องพัก จาก " + data.customerName + " (" + data.bank + ")"
  {
  }
}
