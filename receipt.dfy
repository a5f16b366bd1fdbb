/**
 * The frontend `ReceiptService` of `receipt.service.ts`: a photo of a
 * shop receipt is checked and handed to a simulated OCR that extracts the
 * merchant, the date and the items; the extraction, with the user's
 * adjustments, is validated before it becomes a transaction.
 *
 * The simulated OCR's random outcome is the `Scenario` parameter, the OCR
 * result `uploadReceipt` awaits is a parameter, `Date.now()` and
 * `new Date()` are `now`, the object URL of the uploaded file is a
 * parameter, and the history `retryUpload` searches is a parameter.
 */
module Receipt {
  import opened Wrappers
  import opened JsText
  import opened Collections
  import opened UploadChecks

  /** `ReceiptItem`; amounts are whole rupiah. */
  datatype Item = Item(name: string, quantity: int, unitPrice: int, totalPrice: int, category: Option<string>)

  /**
   * A JavaScript `Date`: a time in milliseconds, or the invalid date whose
   * time is `NaN`, which is truthy and compares false with every time.
   */
  datatype DateValue = At(ms: int) | InvalidDate

  /** `ExtractedReceiptData` without the tax and the total; `None` is a key left out. */
  datatype ExtractedData = ExtractedData(
    merchantName: Option<string>, merchantAddress: Option<string>, date: Option<DateValue>,
    time: Option<string>, items: seq<Item>, subtotal: int, discount: Option<int>,
    paymentMethod: Option<string>, receiptNumber: Option<string>)

  /** `Partial<ExtractedReceiptData>`: the adjustments the user makes before confirming. */
  datatype Adjustments = Adjustments(
    merchantName: Option<string>, merchantAddress: Option<string>, date: Option<DateValue>,
    time: Option<string>, items: Option<seq<Item>>, subtotal: Option<int>, discount: Option<int>,
    paymentMethod: Option<string>, receiptNumber: Option<string>)

  datatype Status = Pending | Processing | Completed | Failed

  /** `ReceiptUpload`; `uploadedAt` is in milliseconds and `confidence` is 0 to 100. */
  datatype ReceiptUpload = ReceiptUpload(
    id: string, fileName: string, fileSize: nat, fileType: string, imageUrl: string, uploadedAt: nat,
    status: Status, extractedData: Option<ExtractedData>, transactionId: Option<string>,
    errorMessage: Option<string>, confidence: Option<real>)

  /** `OCRAnalysisResult`, without the raw text and the processing time. */
  datatype OCRResult = OCRResult(
    success: bool, confidence: int, extractedData: Option<ExtractedData>, errorMessage: Option<string>)

  /** What `confirmAndAddToFinancial` resolves to. */
  datatype ConfirmReply = ConfirmReply(success: bool, transactionId: string)

  /** The three outcomes the simulated OCR draws from. */
  datatype Scenario = Success | Partial | Failure

  /** Uploads above 5 MiB are refused. */
  const MaxFileSize: nat := 5 * 1024 * 1024
  const SizeError: string := "Ukuran file terlalu besar. Maksimal 5MB."
  const FileSuggestions: seq<string> := [
    "Pastikan pencahayaan cukup dan teks terbaca dengan jelas",
    "Hindari bayangan dan pantulan cahaya",
    "Posisikan nota dalam frame dengan baik"]

  const NoItemsError: string := "Tidak ada item yang terdeteksi"
  const DateError: string := "Tanggal tidak valid"
  const TotalMismatchWarning: string := "Total item tidak sesuai dengan subtotal"
  const MerchantSuggestion: string := "Nama toko tidak terdeteksi, silakan input manual"
  const PaymentSuggestion: string := "Metode pembayaran tidak terdeteksi, silakan pilih manual"
  /** The difference between the items and the subtotal that is tolerated. */
  const Tolerance: int := 100

  const OcrError: string := "Gambar tidak jelas atau tidak terbaca. Silakan upload ulang dengan pencahayaan yang lebih baik."
  const NotFoundError: string := "Receipt not found"
  const IdPrefix: string := "RU-"
  const TransactionPrefix: string := "TRX-"

  /** `validateFile` of the receipt service. */
  function ReceiptFileValidation(file: FileInfo): Validation {
    FileValidation(file, MaxFileSize, SizeError, FileSuggestions)
  }

  /** The receipt upload check: type before size, 5 MiB, and always the same three suggestions. */
  lemma ReceiptFileValidationMeaning(file: FileInfo)
    ensures var v := ReceiptFileValidation(file);
      (v.errors != [] ==> v.errors[0] == if file.mime !in AllowedTypes then TypeError else SizeError)
      && (TypeError in v.errors <==> file.mime !in AllowedTypes)
      && (SizeError in v.errors <==> file.size > 5 * 1024 * 1024)
      && IsSubsequence(v.errors, [TypeError, SizeError])
      && (v.isValid <==> !Refused(file, MaxFileSize))
      && (SmallFileWarning in v.warnings <==> file.size < 100 * 1024)
      && |v.suggestions| == 3
  {
    assert |SizeError| != |TypeError|;
    FileValidationMeaning(file, MaxFileSize, SizeError, FileSuggestions);
  }

  function TotalPrice(item: Item): int {
    item.totalPrice
  }

  /** `items.reduce((sum, item) => sum + item.totalPrice, 0)` */
  function ItemsTotal(items: seq<Item>): int {
    SumBy(items, TotalPrice)
  }

  /** `Math.abs(calculatedTotal - data.subtotal) > 100` */
  predicate TotalMismatch(d: ExtractedData) {
    var diff := ItemsTotal(d.items) - d.subtotal;
    (if diff < 0 then -diff else diff) > Tolerance
  }

  /** `!data.date || data.date > new Date()`: an invalid date passes, since `NaN > now` is false. */
  predicate BadDate(d: ExtractedData, now: int) {
    d.date.None? || (d.date.value.At? && d.date.value.ms > now)
  }

  /** `validateExtractedData` at time `now`: the messages of the checks that fire, in the order they are made. */
  function ExtractedDataValidation(d: ExtractedData, now: int): Validation {
    Outcome(
      Checked(Checked([], |d.items| == 0, NoItemsError), BadDate(d, now), DateError),
      Checked([], TotalMismatch(d), TotalMismatchWarning),
      Checked(Checked([], !TruthyText(d.merchantName), MerchantSuggestion), !TruthyText(d.paymentMethod), PaymentSuggestion))
  }

  /** `validateExtractedData` as the service writes it, one push per check. */
  method ValidateExtractedData(d: ExtractedData, now: int) returns (v: Validation)
    ensures v == ExtractedDataValidation(d, now)
  {
    var errors: seq<string> := [];
    var warnings: seq<string> := [];
    var suggestions: seq<string> := [];
    if |d.items| == 0 {
      errors := errors + [NoItemsError];
    }
    var calculatedTotal := ItemsTotal(d.items);
    var diff := calculatedTotal - d.subtotal;
    if (if diff < 0 then -diff else diff) > Tolerance {
      warnings := warnings + [TotalMismatchWarning];
    }
    if d.date.None? || (d.date.value.At? && d.date.value.ms > now) {
      errors := errors + [DateError];
    }
    if !TruthyText(d.merchantName) {
      suggestions := suggestions + [MerchantSuggestion];
    }
    if !TruthyText(d.paymentMethod) {
      suggestions := suggestions + [PaymentSuggestion];
    }
    v := Validation(|errors| == 0, errors, warnings, suggestions);
  }

  /**
   * What `validateExtractedData` reports: each message exactly when its
   * check fails, the item error before the date error, and a valid record
   * exactly when there are items and a date that is not in the future.
   */
  lemma ExtractedDataValidationMeaning(d: ExtractedData, now: int)
    ensures var v := ExtractedDataValidation(d, now);
      (NoItemsError in v.errors <==> d.items == [])
      && (DateError in v.errors <==> d.date.None? || (d.date.value.At? && d.date.value.ms > now))
      && IsSubsequence(v.errors, [NoItemsError, DateError])
      && (v.isValid <==> d.items != [] && !BadDate(d, now))
      && (TotalMismatchWarning in v.warnings <==> ItemsTotal(d.items) - d.subtotal > 100 || d.subtotal - ItemsTotal(d.items) > 100)
      && |v.warnings| <= 1
      && (MerchantSuggestion in v.suggestions <==> !TruthyText(d.merchantName))
      && (PaymentSuggestion in v.suggestions <==> !TruthyText(d.paymentMethod))
  {
    assert |NoItemsError| != |DateError|;
    assert |MerchantSuggestion| != |PaymentSuggestion|;
    TwoChecks(NoItemsError, DateError, |d.items| == 0, BadDate(d, now));
    TwoChecks(MerchantSuggestion, PaymentSuggestion, !TruthyText(d.merchantName), !TruthyText(d.paymentMethod));
  }

  /** A date that is later than the time of the check is refused, and an invalid date is accepted. */
  lemma DateCheckEdges(d: ExtractedData, now: int)
    requires d.items != []
    ensures d.date == Some(At(now + 1)) ==> !ExtractedDataValidation(d, now).isValid
    ensures d.date == Some(At(now)) ==> ExtractedDataValidation(d, now).isValid
    ensures d.date == Some(InvalidDate) ==> ExtractedDataValidation(d, now).isValid
  {
    ExtractedDataValidationMeaning(d, now);
  }

  /** `{...data, ...adjustments}`: each key the adjustments hold wins. */
  function Merge(d: ExtractedData, a: Adjustments): (m: ExtractedData)
    ensures m.items == a.items.GetOr(d.items) && m.subtotal == a.subtotal.GetOr(d.subtotal)
    ensures m.date == Spread(d.date, a.date)
    ensures m.merchantName == Spread(d.merchantName, a.merchantName)
    ensures m.paymentMethod == Spread(d.paymentMethod, a.paymentMethod)
    ensures m.merchantAddress == Spread(d.merchantAddress, a.merchantAddress) && m.time == Spread(d.time, a.time)
    ensures m.discount == Spread(d.discount, a.discount) && m.receiptNumber == Spread(d.receiptNumber, a.receiptNumber)
  {
    ExtractedData(Spread(d.merchantName, a.merchantName), Spread(d.merchantAddress, a.merchantAddress),
      Spread(d.date, a.date), Spread(d.time, a.time), a.items.GetOr(d.items), a.subtotal.GetOr(d.subtotal),
      Spread(d.discount, a.discount), Spread(d.paymentMethod, a.paymentMethod),
      Spread(d.receiptNumber, a.receiptNumber))
  }

  /** The data `confirmAndAddToFinancial` validates. */
  function FinalData(d: ExtractedData, adjustments: Option<Adjustments>): ExtractedData {
    if adjustments.Some? then Merge(d, adjustments.value) else d
  }

  /**
   * `confirmAndAddToFinancial`: the merged data is validated at time `now`;
   * its errors joined with ", " are thrown, or a transaction id made of the
   * time is returned.
   */
  function ConfirmAndAddToFinancial(receiptId: string, d: ExtractedData, adjustments: Option<Adjustments>, now: nat): (r: Result<ConfirmReply, string>)
    ensures r.Err? <==> !ExtractedDataValidation(FinalData(d, adjustments), now).isValid
    ensures r.Err? ==> r.error == Join(ExtractedDataValidation(FinalData(d, adjustments), now).errors, ", ")
    ensures r.Ok? ==> r.value.success && r.value.transactionId == TransactionPrefix + NatToString(now)
  {
    var v := ExtractedDataValidation(FinalData(d, adjustments), now);
    if !v.isValid then Err(Join(v.errors, ", "))
    else Ok(ConfirmReply(true, TransactionPrefix + NatToString(now)))
  }

  /** A receipt without items and without a date is refused with both errors, items first. */
  lemma EmptyUndatedRefused(receiptId: string, d: ExtractedData, now: nat)
    requires d.items == [] && d.date.None?
    ensures ConfirmAndAddToFinancial(receiptId, d, None, now) == Err(NoItemsError + ", " + DateError)
  {
    var v := ExtractedDataValidation(d, now);
    assert BadDate(d, now);
    assert v.errors == [NoItemsError, DateError];
    assert v.errors[1..] == [DateError];
    assert Join(v.errors, ", ") == NoItemsError + ", " + DateError;
  }

  /** Adjustments that replace the items with a non-empty list and the date with a past one make confirming succeed. */
  lemma AdjustedReceiptAccepted(receiptId: string, d: ExtractedData, a: Adjustments, now: nat)
    requires a.items.Some? && a.items.value != [] && a.date.Some? && a.date.value.At? && a.date.value.ms <= now
    ensures ConfirmAndAddToFinancial(receiptId, d, Some(a), now).Ok?
  {
    ExtractedDataValidationMeaning(Merge(d, a), now);
  }

  /** The items the simulated OCR reads. */
  const SimulatedItems: seq<Item> := [
    Item("Mie Instan", 5, 3500, 17500, Some("Makanan")),
    Item("Kopi Sachet", 10, 2000, 20000, Some("Minuman")),
    Item("Sabun Mandi", 2, 8500, 17000, Some("Perlengkapan")),
    Item("Shampo", 1, 15000, 15000, Some("Perlengkapan"))]

  /** The extraction of the simulated OCR at time `now`; its subtotal is the sum of its items. */
  function SimulatedExtraction(now: nat): (d: ExtractedData)
    ensures d.items == SimulatedItems && d.subtotal == ItemsTotal(SimulatedItems) && d.date == Some(At(now))
  {
    ExtractedData(Some("Toko Sumber Rejeki"), Some("Jl. Raya No. 123, Jakarta"), Some(At(now)), Some("14:35:22"),
      SimulatedItems, ItemsTotal(SimulatedItems), Some(0), Some("cash"), Some("RCP" + NatToString(now)))
  }

  /** `simulateOCRAnalysis`: no data on failure; otherwise the fixed extraction, stamped with the time. */
  function SimulateOCRAnalysis(scenario: Scenario, now: nat): (r: OCRResult)
    ensures r.success <==> !scenario.Failure?
    ensures r.confidence == (match scenario case Success => 95 case Partial => 75 case Failure => 0)
    ensures !r.success ==> r.errorMessage == Some(OcrError) && r.extractedData.None?
    ensures r.success ==> r.extractedData == Some(SimulatedExtraction(now))
  {
    if scenario.Failure? then OCRResult(false, 0, None, Some(OcrError))
    else OCRResult(true, if scenario.Success? then 95 else 75, Some(SimulatedExtraction(now)), None)
  }

  /** Every simulated item is priced consistently, and together they come to 69500. */
  lemma SimulatedItemsTotal()
    ensures forall i :: 0 <= i < |SimulatedItems| ==>
      SimulatedItems[i].totalPrice == SimulatedItems[i].quantity * SimulatedItems[i].unitPrice
    ensures ItemsTotal(SimulatedItems) == 69500
  {
    var s := SimulatedItems;
    assert s[1..][1..][1..][1..] == [];
  }

  /**
   * The simulated extraction passes every check, without warning or
   * suggestion, at its own time and at any later one, and can then be
   * confirmed unchanged.
   */
  lemma SimulatedExtractionIsClean(now: nat, later: nat, receiptId: string)
    requires now <= later
    ensures var v := ExtractedDataValidation(SimulatedExtraction(now), later);
      v.isValid && v.errors == [] && v.warnings == [] && v.suggestions == []
    ensures ConfirmAndAddToFinancial(receiptId, SimulatedExtraction(now), None, later).Ok?
  {
  }

  /**
   * `uploadReceipt`: a refused file is thrown with its first error;
   * otherwise the upload record is completed or failed by the OCR answer.
   */
  function UploadReceipt(file: FileInfo, now: nat, objectUrl: string, ocr: OCRResult): (r: Result<ReceiptUpload, string>)
    ensures r.Err? <==> Refused(file, MaxFileSize)
    ensures r.Err? ==> r.error == if file.mime !in AllowedTypes then TypeError else SizeError
    ensures r.Ok? ==> var u := r.value;
      u.id == IdPrefix + NatToString(now) && u.fileName == file.name && u.fileSize == file.size
      && u.fileType == file.mime && u.imageUrl == objectUrl && u.uploadedAt == now && u.transactionId.None?
    ensures r.Ok? && !ocr.success ==> (r.value.status == Failed && r.value.confidence == Some(0.0)
      && r.value.errorMessage == ocr.errorMessage && r.value.extractedData.None?)
    ensures r.Ok? && ocr.success ==> (r.value.status == Completed && r.value.confidence == Some(ocr.confidence as real)
      && r.value.extractedData == ocr.extractedData && r.value.errorMessage.None?)
  {
    var v := ReceiptFileValidation(file);
    ReceiptFileValidationMeaning(file);
    if !v.isValid then Err(v.errors[0])
    else
      var upload := ReceiptUpload(IdPrefix + NatToString(now), file.name, file.size, file.mime, objectUrl, now,
        Processing, None, None, None, None);
      if !ocr.success then Ok(upload.(status := Failed, errorMessage := ocr.errorMessage, confidence := Some(0.0)))
      else Ok(upload.(status := Completed, extractedData := ocr.extractedData, confidence := Some(ocr.confidence as real)))
  }

  /** An accepted upload with the simulated OCR completes exactly when the scenario is not a failure, with data that can be confirmed. */
  lemma UploadBySimulatedOCR(file: FileInfo, now: nat, objectUrl: string, scenario: Scenario, receiptId: string)
    requires !Refused(file, MaxFileSize)
    ensures var r := UploadReceipt(file, now, objectUrl, SimulateOCRAnalysis(scenario, now));
      r.Ok? && (r.value.status == Completed <==> !scenario.Failure?)
      && (scenario.Success? ==> r.value.confidence == Some(95.0))
      && (scenario.Partial? ==> r.value.confidence == Some(75.0))
      && (scenario.Failure? ==> r.value.errorMessage == Some(OcrError))
      && (!scenario.Failure? ==> ConfirmAndAddToFinancial(receiptId, r.value.extractedData.value, None, now).Ok?)
  {
    if !scenario.Failure? {
      SimulatedExtractionIsClean(now, now, receiptId);
    }
  }

  /** `history.find(h => h.receipt.id === receiptId)`: the position of the first receipt with the id. */
  function FindReceipt(history: seq<ReceiptUpload>, receiptId: string): (i: int)
    ensures -1 <= i < |history|
    ensures 0 <= i ==> history[i].id == receiptId && forall j :: 0 <= j < i ==> history[j].id != receiptId
    ensures i == -1 ==> forall j :: 0 <= j < |history| ==> history[j].id != receiptId
  {
    if history == [] then -1
    else if history[0].id == receiptId then 0
    else
      var k := FindReceipt(history[1..], receiptId);
      if k == -1 then -1 else k + 1
  }

  /**
   * `retryUpload`: the receipt found in the history, completed with
   * confidence 90 and no error message; an unknown id throws.
   */
  function RetryUpload(receiptId: string, history: seq<ReceiptUpload>): (r: Result<ReceiptUpload, string>)
    ensures r.Err? <==> forall j :: 0 <= j < |history| ==> history[j].id != receiptId
    ensures r.Err? ==> r.error == NotFoundError
    ensures r.Ok? ==> var i := FindReceipt(history, receiptId);
      r.value == history[i].(status := Completed, errorMessage := None, confidence := Some(90.0))
  {
    var i := FindReceipt(history, receiptId);
    if i == -1 then Err(NotFoundError)
    else Ok(history[i].(status := Completed, errorMessage := None, confidence := Some(90.0)))
  }

  /** The history holds the receipts `RU-0` to `RU-9`: exactly those ids can be retried. */
  lemma RetryOnHistoryIds(history: seq<ReceiptUpload>, n: nat)
    requires |history| == 10 && forall i :: 0 <= i < 10 ==> history[i].id == IdPrefix + NatToString(i)
    ensures RetryUpload(IdPrefix + NatToString(n), history).Ok? <==> n < 10
  {
    if n >= 10 {
      forall j | 0 <= j < 10 ensures history[j].id != IdPrefix + NatToString(n) {
        PrefixedNatInjective(IdPrefix, j, n);
      }
    } else {
      assert history[n].id == IdPrefix + NatToString(n);
    }
  }
}
