/**
 * The frontend `PosterService` of `poster.service.ts`: a product photo is
 * checked and handed to a simulated AI that proposes poster text; the
 * proposal, with the user's adjustments, is validated before it is saved.
 *
 * The simulated AI's random outcome is the `Scenario` parameter, the AI
 * result `uploadAndGeneratePoster` awaits is a parameter, `Date.now()` and
 * `new Date()` are `now`, the object URL of the uploaded file is a
 * parameter, and the history `retryGeneration` searches is a parameter.
 */
module Poster {
  import opened Wrappers
  import opened JsText
  import opened Collections
  import opened UploadChecks

  /** `PosterEditData`: every key is optional; `None` is a key left out. */
  datatype EditData = EditData(
    title: Option<string>, description: Option<string>, price: Option<int>, discount: Option<int>,
    callToAction: Option<string>, backgroundColor: Option<string>, textColor: Option<string>,
    accentColor: Option<string>, style: Option<string>, template: Option<string>)

  datatype Status = Pending | Processing | Completed | Failed

  /** `GeneratedPoster`; `uploadedAt` is in milliseconds and `confidence` is 0 to 100. */
  datatype GeneratedPoster = GeneratedPoster(
    id: string, fileName: string, fileSize: nat, fileType: string, originalImageUrl: string,
    generatedImageUrl: string, uploadedAt: nat, status: Status, style: Option<string>,
    template: Option<string>, editedData: Option<EditData>, errorMessage: Option<string>,
    confidence: Option<real>)

  /** `AIGenerationResult`, without the metadata and the processing time. */
  datatype AIResult = AIResult(
    success: bool, confidence: int, generatedImageUrl: Option<string>, editedData: Option<EditData>,
    errorMessage: Option<string>)

  /** What `confirmAndSavePoster` resolves to. */
  datatype SaveReply = SaveReply(success: bool, downloadUrl: string)

  /** The three outcomes the simulated AI draws from. */
  datatype Scenario = Success | Partial | Failure

  /** Uploads above 10 MiB are refused. */
  const MaxFileSize: nat := 10 * 1024 * 1024
  const SizeError: string := "Ukuran file terlalu besar. Maksimal 10MB."
  const FileSuggestions: seq<string> := [
    "Pastikan gambar produk terlihat jelas dan menarik",
    "Hindari bayangan dan latar belakang yang berantakan",
    "Gunakan pencahayaan yang baik untuk hasil optimal"]

  const TitleError: string := "Judul poster tidak boleh kosong"
  const PriceError: string := "Harga tidak boleh negatif"
  const DiscountError: string := "Diskon harus antara 0-100%"
  const LongTitleWarning: string := "Judul terlalu panjang, pertimbangkan untuk mempersingkat"
  const CallToActionSuggestion: string := "Tambahkan call-to-action untuk meningkatkan konversi"
  const DescriptionSuggestion: string := "Tambahkan deskripsi produk untuk informasi lebih lengkap"
  /** Titles longer than this draw a warning. */
  const MaxTitleLength: nat := 100

  const GenerationError: string := "Gagal menghasilkan poster. Silakan coba dengan gambar yang lebih jelas."
  const NotFoundError: string := "Poster not found"
  /** The SVG data URL of the simulated poster image. */
  const GeneratedImage: string
  const IdPrefix: string := "PG-"

  /** `validateFile` of the poster service. */
  function PosterFileValidation(file: FileInfo): Validation {
    FileValidation(file, MaxFileSize, SizeError, FileSuggestions)
  }

  /** The poster upload check: type before size, 10 MiB, and always the same three suggestions. */
  lemma PosterFileValidationMeaning(file: FileInfo)
    ensures var v := PosterFileValidation(file);
      (v.errors != [] ==> v.errors[0] == if file.mime !in AllowedTypes then TypeError else SizeError) &&
      (TypeError in v.errors <==> file.mime !in AllowedTypes)
      && (SizeError in v.errors <==> file.size > 10 * 1024 * 1024)
      && IsSubsequence(v.errors, [TypeError, SizeError])
      && (v.isValid <==> !Refused(file, MaxFileSize))
      && (SmallFileWarning in v.warnings <==> file.size < 100 * 1024)
      && |v.suggestions| == 3
  {
    assert |SizeError| != |TypeError|;
    FileValidationMeaning(file, MaxFileSize, SizeError, FileSuggestions);
  }

  /** `!data.title || data.title.trim().length === 0` */
  predicate BlankTitle(d: EditData) {
    !TruthyText(d.title) || |Trim(d.title.value)| == 0
  }

  /** `data.title && data.title.length > 100` */
  predicate LongTitle(d: EditData) {
    TruthyText(d.title) && |d.title.value| > MaxTitleLength
  }

  /** `data.price && data.price < 0`: a price of 0 is falsy and passes. */
  predicate NegativePrice(d: EditData) {
    TruthyNumber(d.price) && d.price.value < 0
  }

  /** `data.discount && (data.discount < 0 || data.discount > 100)` */
  predicate DiscountOutOfRange(d: EditData) {
    TruthyNumber(d.discount) && (d.discount.value < 0 || d.discount.value > 100)
  }

  /** `validateEditedData`: the messages of the checks that fire, in the order they are made. */
  function EditedDataValidation(d: EditData): Validation {
    Outcome(
      Checked(Checked(Checked([], BlankTitle(d), TitleError), NegativePrice(d), PriceError),
        DiscountOutOfRange(d), DiscountError),
      Checked([], LongTitle(d), LongTitleWarning),
      Checked(Checked([], !TruthyText(d.callToAction), CallToActionSuggestion), !TruthyText(d.description), DescriptionSuggestion))
  }

  /** `validateEditedData` as the service writes it, one push per check. */
  method ValidateEditedData(d: EditData) returns (v: Validation)
    ensures v == EditedDataValidation(d)
  {
    var errors: seq<string> := [];
    var warnings: seq<string> := [];
    var suggestions: seq<string> := [];
    if BlankTitle(d) {
      errors := errors + [TitleError];
    }
    if LongTitle(d) {
      warnings := warnings + [LongTitleWarning];
    }
    if NegativePrice(d) {
      errors := errors + [PriceError];
    }
    if DiscountOutOfRange(d) {
      errors := errors + [DiscountError];
    }
    if !TruthyText(d.callToAction) {
      suggestions := suggestions + [CallToActionSuggestion];
    }
    if !TruthyText(d.description) {
      suggestions := suggestions + [DescriptionSuggestion];
    }
    v := Validation(|errors| == 0, errors, warnings, suggestions);
  }

  /** The distinct messages of the edit checks. */
  lemma EditMessagesDiffer()
    ensures TitleError != PriceError && TitleError != DiscountError && PriceError != DiscountError
    ensures CallToActionSuggestion != DescriptionSuggestion
  {
    assert |TitleError| == 31 && |PriceError| == 25 && |DiscountError| == 26;
    assert |CallToActionSuggestion| == 52 && |DescriptionSuggestion| == 56;
  }

  /**
   * What `validateEditedData` reports: each message exactly when its check
   * fails, the errors in the order title, price, discount, and a valid
   * record exactly when none of the three error checks fails. A title is
   * blank exactly when it is missing or all whitespace.
   */
  lemma EditedDataValidationMeaning(d: EditData)
    ensures var v := EditedDataValidation(d);
      (TitleError in v.errors <==> d.title.None? || AllSpace(d.title.value))
      && (PriceError in v.errors <==> d.price.Some? && d.price.value < 0)
      && (DiscountError in v.errors <==> d.discount.Some? && (d.discount.value < 0 || d.discount.value > 100))
      && IsSubsequence(v.errors, [TitleError, PriceError, DiscountError])
      && (v.isValid <==> !BlankTitle(d) && !NegativePrice(d) && !DiscountOutOfRange(d))
      && (LongTitleWarning in v.warnings <==> d.title.Some? && |d.title.value| > 100) && |v.warnings| <= 1
      && (CallToActionSuggestion in v.suggestions <==> !TruthyText(d.callToAction))
      && (DescriptionSuggestion in v.suggestions <==> !TruthyText(d.description))
  {
    EditMessagesDiffer();
    ThreeChecks(TitleError, PriceError, DiscountError, BlankTitle(d), NegativePrice(d), DiscountOutOfRange(d));
    TwoChecks(CallToActionSuggestion, DescriptionSuggestion, !TruthyText(d.callToAction), !TruthyText(d.description));
    if d.title.Some? {
      TrimEmptyIff(d.title.value);
    }
  }

  /** `{...data, ...adjustments}`: each key the adjustments hold wins. */
  function Merge(d: EditData, a: EditData): (m: EditData)
    ensures a.title.Some? ==> m.title == a.title
    ensures a.title.None? ==> m.title == d.title
    ensures a.price.Some? ==> m.price == a.price
    ensures a.price.None? ==> m.price == d.price
    ensures a.discount.Some? ==> m.discount == a.discount
    ensures a.discount.None? ==> m.discount == d.discount
    ensures (a.description.Some? ==> m.description == a.description) && (a.description.None? ==> m.description == d.description)
    ensures (a.callToAction.Some? ==> m.callToAction == a.callToAction) && (a.callToAction.None? ==> m.callToAction == d.callToAction)
    ensures (a.backgroundColor.Some? ==> m.backgroundColor == a.backgroundColor) && (a.backgroundColor.None? ==> m.backgroundColor == d.backgroundColor)
    ensures (a.textColor.Some? ==> m.textColor == a.textColor) && (a.textColor.None? ==> m.textColor == d.textColor)
    ensures (a.accentColor.Some? ==> m.accentColor == a.accentColor) && (a.accentColor.None? ==> m.accentColor == d.accentColor)
    ensures (a.style.Some? ==> m.style == a.style) && (a.style.None? ==> m.style == d.style)
    ensures (a.template.Some? ==> m.template == a.template) && (a.template.None? ==> m.template == d.template)
  {
    EditData(Spread(d.title, a.title), Spread(d.description, a.description), Spread(d.price, a.price),
      Spread(d.discount, a.discount), Spread(d.callToAction, a.callToAction),
      Spread(d.backgroundColor, a.backgroundColor), Spread(d.textColor, a.textColor),
      Spread(d.accentColor, a.accentColor), Spread(d.style, a.style), Spread(d.template, a.template))
  }


  /** Adjustments that hold nothing change nothing, and merging the same adjustments twice is merging them once. */
  lemma MergeLaws(d: EditData, a: EditData)
    ensures Merge(d, EditData(None, None, None, None, None, None, None, None, None, None)) == d
    ensures Merge(Merge(d, a), a) == Merge(d, a)
  {
  }

  /** The data `confirmAndSavePoster` validates. */
  function FinalData(d: EditData, adjustments: Option<EditData>): EditData {
    if adjustments.Some? then Merge(d, adjustments.value) else d
  }

  /**
   * `confirmAndSavePoster`: the merged data is validated; its errors joined
   * with ", " are thrown, or the poster is saved under a name made of the
   * poster id and the time.
   */
  function ConfirmAndSavePoster(posterId: string, d: EditData, adjustments: Option<EditData>, now: nat): (r: Result<SaveReply, string>)
    ensures r.Err? <==> !EditedDataValidation(FinalData(d, adjustments)).isValid
    ensures r.Err? ==> r.error == Join(EditedDataValidation(FinalData(d, adjustments)).errors, ", ")
    ensures r.Ok? ==> r.value.success && r.value.downloadUrl == "poster_" + posterId + "_" + NatToString(now) + ".png"
  {
    var v := EditedDataValidation(FinalData(d, adjustments));
    if !v.isValid then Err(Join(v.errors, ", "))
    else Ok(SaveReply(true, "poster_" + posterId + "_" + NatToString(now) + ".png"))
  }

  /** A blank title after the adjustments makes saving fail, and the message begins with the title error. */
  lemma BlankTitleRefusesSave(posterId: string, d: EditData, adjustments: Option<EditData>, now: nat)
    requires BlankTitle(FinalData(d, adjustments))
    ensures var r := ConfirmAndSavePoster(posterId, d, adjustments, now);
      r.Err? && StartsWith(r.error, TitleError)
  {
    var v := EditedDataValidation(FinalData(d, adjustments));
    EditMessagesDiffer();
    ThreeChecks(TitleError, PriceError, DiscountError, true,
      NegativePrice(FinalData(d, adjustments)), DiscountOutOfRange(FinalData(d, adjustments)));
    assert v.errors != [] && v.errors[0] == TitleError;
    JoinStartsWithFirst(v.errors, ", ");
  }

  /** Saving fails with exactly the price error when only the price is wrong. */
  lemma NegativePriceAloneRefusesSave(posterId: string, d: EditData, now: nat)
    requires !BlankTitle(d) && NegativePrice(d) && !DiscountOutOfRange(d)
    ensures ConfirmAndSavePoster(posterId, d, None, now) == Err(PriceError)
  {
  }

  /** `simulateAIGeneration`: no edits on failure; otherwise the fixed proposal with the given style and template. */
  function SimulateAIGeneration(scenario: Scenario, style: Option<string>, template: Option<string>): (r: AIResult)
    ensures r.success <==> !scenario.Failure?
    ensures r.confidence == (match scenario case Success => 95 case Partial => 75 case Failure => 0)
    ensures !r.success ==> r.errorMessage == Some(GenerationError) && r.editedData.None?
    ensures r.success ==> r.editedData == Some(SimulatedEdit(style, template)) && r.generatedImageUrl == Some(GeneratedImage)
  {
    if scenario.Failure? then AIResult(false, 0, None, None, Some(GenerationError))
    else AIResult(true, if scenario.Success? then 95 else 75, Some(GeneratedImage),
      Some(SimulatedEdit(style, template)), None)
  }

  /** The proposal of the simulated AI; style and template default with `||`. */
  function SimulatedEdit(style: Option<string>, template: Option<string>): (d: EditData)
    ensures d.style == Some(OrElse(style, "modern")) && d.template == Some(OrElse(template, "product"))
  {
    EditData(Some("Produk Spesial"), Some("Kualitas terbaik dengan harga terjangkau"), Some(49900), Some(20),
      Some("Pesan Sekarang"), Some("#FFFFFF"), Some("#000000"), Some("#FF6B6B"),
      Some(OrElse(style, "modern")), Some(OrElse(template, "product")))
  }

  /** The simulated proposal passes every check without warning or suggestion, so it can be saved unchanged. */
  lemma SimulatedEditIsClean(style: Option<string>, template: Option<string>, posterId: string, now: nat)
    ensures var v := EditedDataValidation(SimulatedEdit(style, template));
      v.isValid && v.errors == [] && v.warnings == [] && v.suggestions == []
    ensures ConfirmAndSavePoster(posterId, SimulatedEdit(style, template), None, now).Ok?
  {
    var d := SimulatedEdit(style, template);
    var t := "Produk Spesial";
    TrimUnpadded(t);
    assert !BlankTitle(d);
  }

  /**
   * `uploadAndGeneratePoster`: a refused file is thrown with its first
   * error; otherwise the upload record is completed or failed by the AI's
   * answer.
   */
  function UploadAndGeneratePoster(file: FileInfo, style: Option<string>, template: Option<string>, now: nat, objectUrl: string, ai: AIResult): (r: Result<GeneratedPoster, string>)
    ensures r.Err? <==> Refused(file, MaxFileSize)
    ensures r.Err? ==> r.error == if file.mime !in AllowedTypes then TypeError else SizeError
    ensures r.Ok? ==> var p := r.value;
      p.id == IdPrefix + NatToString(now) && p.fileName == file.name && p.fileSize == file.size
      && p.fileType == file.mime && p.originalImageUrl == objectUrl && p.uploadedAt == now
      && p.style == style && p.template == template
    ensures r.Ok? && !ai.success ==> (r.value.status == Failed && r.value.confidence == Some(0.0)
      && r.value.errorMessage == ai.errorMessage && r.value.generatedImageUrl == "" && r.value.editedData.None?)
    ensures r.Ok? && ai.success ==> (r.value.status == Completed && r.value.confidence == Some(ai.confidence as real)
      && r.value.editedData == ai.editedData && r.value.generatedImageUrl == OrElse(ai.generatedImageUrl, ""))
  {
    var v := PosterFileValidation(file);
    PosterFileValidationMeaning(file);
    if !v.isValid then Err(v.errors[0])
    else
      var upload := GeneratedPoster(IdPrefix + NatToString(now), file.name, file.size, file.mime, objectUrl,
        "", now, Processing, style, template, None, None, None);
      if !ai.success then Ok(upload.(status := Failed, errorMessage := ai.errorMessage, confidence := Some(0.0)))
      else Ok(upload.(status := Completed, generatedImageUrl := OrElse(ai.generatedImageUrl, ""),
        editedData := ai.editedData, confidence := Some(ai.confidence as real)))
  }

  /** A file of the wrong type is refused with the type error, whatever its size. */
  lemma WrongTypeReportedFirst(file: FileInfo, style: Option<string>, template: Option<string>, now: nat, objectUrl: string, ai: AIResult)
    requires file.mime !in AllowedTypes
    ensures UploadAndGeneratePoster(file, style, template, now, objectUrl, ai) == Err(TypeError)
  {
    assert |SizeError| != |TypeError|;
    FileValidationMeaning(file, MaxFileSize, SizeError, FileSuggestions);
  }

  /** An accepted upload with the simulated AI completes with its confidence exactly when the scenario is not a failure. */
  lemma GenerationBySimulatedAI(file: FileInfo, style: Option<string>, template: Option<string>, now: nat, objectUrl: string, scenario: Scenario)
    requires !Refused(file, MaxFileSize)
    ensures var r := UploadAndGeneratePoster(file, style, template, now, objectUrl, SimulateAIGeneration(scenario, style, template));
      r.Ok? && (r.value.status == Completed <==> !scenario.Failure?)
      && (scenario.Success? ==> r.value.confidence == Some(95.0))
      && (scenario.Partial? ==> r.value.confidence == Some(75.0))
      && (scenario.Failure? ==> r.value.errorMessage == Some(GenerationError))
      && (!scenario.Failure? ==> r.value.generatedImageUrl == GeneratedImage)
  {
  }

  /** `history.find(h => h.poster.id === posterId)`: the position of the first poster with the id. */
  function FindPoster(history: seq<GeneratedPoster>, posterId: string): (i: int)
    ensures -1 <= i < |history|
    ensures 0 <= i ==> history[i].id == posterId && forall j :: 0 <= j < i ==> history[j].id != posterId
    ensures i == -1 ==> forall j :: 0 <= j < |history| ==> history[j].id != posterId
  {
    if history == [] then -1
    else if history[0].id == posterId then 0
    else
      var k := FindPoster(history[1..], posterId);
      if k == -1 then -1 else k + 1
  }

  /**
   * `retryGeneration`: the poster found in the history, completed with
   * confidence 92 and no error message; an unknown id throws.
   */
  function RetryGeneration(posterId: string, history: seq<GeneratedPoster>): (r: Result<GeneratedPoster, string>)
    ensures r.Err? <==> forall j :: 0 <= j < |history| ==> history[j].id != posterId
    ensures r.Err? ==> r.error == NotFoundError
    ensures r.Ok? ==> var i := FindPoster(history, posterId);
      r.value == history[i].(status := Completed, errorMessage := None, confidence := Some(92.0))
  {
    var i := FindPoster(history, posterId);
    if i == -1 then Err(NotFoundError)
    else Ok(history[i].(status := Completed, errorMessage := None, confidence := Some(92.0)))
  }

  /** A retried poster keeps everything but its status, message and confidence, and retrying it again changes nothing more. */
  lemma RetryKeepsPoster(posterId: string, history: seq<GeneratedPoster>)
    requires RetryGeneration(posterId, history).Ok?
    ensures var p := RetryGeneration(posterId, history).value;
      p.id == posterId && p.status == Completed && p.errorMessage.None? && p.confidence == Some(92.0)
      && RetryGeneration(posterId, [p]) == Ok(p)
  {
  }

  /** The history holds the posters `PG-0` to `PG-7`: exactly those ids can be retried. */
  lemma RetryOnHistoryIds(history: seq<GeneratedPoster>, n: nat)
    requires |history| == 8 && forall i :: 0 <= i < 8 ==> history[i].id == IdPrefix + NatToString(i)
    ensures RetryGeneration(IdPrefix + NatToString(n), history).Ok? <==> n < 8
  {
    if n >= 8 {
      forall j | 0 <= j < 8 ensures history[j].id != IdPrefix + NatToString(n) {
        PrefixedNatInjective(IdPrefix, j, n);
      }
    } else {
      assert history[n].id == IdPrefix + NatToString(n);
    }
  }
}
