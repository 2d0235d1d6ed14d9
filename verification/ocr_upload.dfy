/** Receipt upload (components/OCRUpload.tsx): each chosen file is read and
    scanned in turn; a readable result becomes a draft ledger entry whose
    category is checked against the enumeration. Reading files and the AI
    scan are outside the model: each file arrives with its outcome. */
module OcrUpload {

  import opened Types

  /** What the AI scan reports for one receipt. The category is free text. */
  datatype ScanResult = ScanResult(
    date: string,
    amount: int,
    txType: TransactionType,
    category: string,
    description: string)

  /** One file's outcome: the scan failed with an error message (possibly
      empty), or it succeeded on the file read as a data URL. */
  datatype FileOutcome = Failed(message: string) | Scanned(dataUrl: string, result: ScanResult)

  /** The first category in `cats` whose string value is `raw`. */
  function FindLabel(cats: seq<Category>, raw: string): (r: Option<Category>)
    ensures r.Some? ==> r.value in cats && CategoryLabel(r.value) == raw
    ensures r.None? ==> forall c :: c in cats ==> CategoryLabel(c) != raw
    decreases |cats|
  {
    if |cats| == 0 then None
    else if CategoryLabel(cats[0]) == raw then Some(cats[0])
    else FindLabel(cats[1..], raw)
  }

  /** Every category string is found in the enumeration's list. */
  lemma LabelListed(raw: string)
    ensures (exists d :: CategoryLabel(d) == raw) ==> FindLabel(AllCategories, raw).Some?
  {
    if exists d :: CategoryLabel(d) == raw {
      var d :| CategoryLabel(d) == raw;
      AllCategoriesComplete(d);
    }
  }

  /** The category mapping: a valid category string is kept; anything else
      falls back to other income for an income receipt and to supplies
      otherwise. */
  function MapCategory(raw: string, ty: TransactionType): (c: Category)
    ensures (exists d :: CategoryLabel(d) == raw) ==> CategoryLabel(c) == raw
    ensures (forall d :: CategoryLabel(d) != raw) ==> c == (if ty == Income then OtherIncome else Supplies)
  {
    LabelListed(raw);
    match FindLabel(AllCategories, raw)
    case Some(c) => c
    case None => if ty == Income then OtherIncome else Supplies
  }

  /** A category's own string maps back to it, whatever the receipt type. */
  lemma MapCategoryKeeps(c: Category, ty: TransactionType)
    ensures MapCategory(CategoryLabel(c), ty) == c
  {
    CategoryLabelInjective(MapCategory(CategoryLabel(c), ty), c);
  }

  /** The draft emitted for a scanned file. */
  function Emit(dataUrl: string, r: ScanResult): (t: Transaction)
    ensures !t.isReconciled && t.imageUrl == Some(dataUrl)
    ensures t.date == r.date && t.amount == r.amount && t.txType == r.txType
    ensures t.description == r.description && t.category == MapCategory(r.category, r.txType)
  {
    Draft(r.date, r.txType, MapCategory(r.category, r.txType), r.amount, r.description, Some(dataUrl), false)
  }

  /** The drafts a run of files emits, in file order. */
  function Emitted(files: seq<FileOutcome>): seq<Transaction>
    decreases |files|
  {
    if |files| == 0 then []
    else
      Emitted(files[..|files| - 1])
        + match files[|files| - 1] case Scanned(u, r) => [Emit(u, r)] case Failed(_) => []
  }

  /** The error text shown for a failure. */
  function ErrorText(message: string): string {
    "เกิดข้อผิดพลาด: " + (if message == "" then "ไม่ทราบสาเหตุ" else message)
  }

  /** The error left by the last failure in a run of files, if any. */
  function LastError(files: seq<FileOutcome>): Option<string>
    decreases |files|
  {
    if |files| == 0 then None
    else match files[|files| - 1]
      case Failed(m) => Some(ErrorText(m))
      case Scanned(_, _) => LastError(files[..|files| - 1])
  }

  function CountScanned(files: seq<FileOutcome>): nat
    decreases |files|
  {
    if |files| == 0 then 0
    else CountScanned(files[..|files| - 1]) + if files[|files| - 1].Scanned? then 1 else 0
  }

  /** One draft per scanned file: failures do not stop later files. */
  lemma {:induction false} EmittedCount(files: seq<FileOutcome>)
    ensures |Emitted(files)| == CountScanned(files)
    ensures CountScanned(files) == 0 <==> forall i :: 0 <= i < |files| ==> files[i].Failed?
    decreases |files|
  {
    if |files| > 0 {
      var init := files[..|files| - 1];
      EmittedCount(init);
      assert forall i :: 0 <= i < |init| ==> init[i] == files[i];
    }
  }

  /** `handleFileChange`: an empty selection changes nothing; otherwise the
      error is cleared, the files are processed in order, and the error
      that remains is cleared again if any file succeeded. */
  method HandleFiles(priorError: Option<string>, files: seq<FileOutcome>) returns (drafts: seq<Transaction>, error: Option<string>)
    ensures drafts == Emitted(files)
    ensures |files| == 0 ==> error == priorError
    ensures |files| > 0 && CountScanned(files) > 0 ==> error.None?
    ensures |files| > 0 && CountScanned(files) == 0 ==> error == Some(ErrorText(files[|files| - 1].message))
  {
    drafts := [];
    if |files| == 0 {
      return drafts, priorError;
    }
    error := None;
    var successCount := 0;
    var i := 0;
    while i < |files|
      invariant 0 <= i <= |files|
      invariant drafts == Emitted(files[..i])
      invariant successCount == CountScanned(files[..i])
      invariant error == LastError(files[..i])
    {
      assert files[..i + 1][..i] == files[..i];
      match files[i] {
        case Scanned(u, r) =>
          drafts := drafts + [Emit(u, r)];
          successCount := successCount + 1;
        case Failed(m) =>
          error := Some(ErrorText(m));
      }
      i := i + 1;
    }
    assert files[..|files|] == files;
    if successCount > 0 {
      error := None;
    } else {
      EmittedCount(files);
    }
  }
}
