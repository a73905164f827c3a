/** Field and form validation of the storefront's forms. Each `clean_*`
    hook either returns its (already parsed) field value unchanged or raises
    a validation error; here the error is an `Err` result, and `HookRaised`
    marks the cases where the hook itself fails. A value the browser left
    out is `None`. */
module Forms {
  import opened Wrappers
  import opened Models

  datatype FormError =
    | Required
    | TooShort(minLength: nat)
    | EmailTaken
    | NegativePrice
    | NegativeStock
    | ImageTooLarge
    | NotAnImage
    | RatingOutOfRange
    | InvalidChoice
    | PasswordsDiffer
    | BelowMinimum(limit: int)
    /** The hook raised an exception other than a validation error: the
        request fails with a server error instead of redisplaying the form. */
    | HookRaised

  /** Registration (vendor and buyer forms alike): an address some account
      already uses is refused. */
  function CleanEmail(email: string, users: seq<User>): (r: Result<string, FormError>)
    ensures r.Err? <==> exists i :: 0 <= i < |users| && users[i].email == email
    ensures r.Err? ==> r.error == EmailTaken
    ensures r.Ok? ==> r.value == email
  {
    if exists i :: 0 <= i < |users| && users[i].email == email then Err(EmailTaken) else Ok(email)
  }

  ghost predicate EmailsUnique(users: seq<User>)
  {
    forall i, j :: 0 <= i < j < |users| ==> users[i].email != users[j].email
  }

  /** Registering only addresses that pass `CleanEmail` keeps the user
      table's unique-email constraint. */
  lemma RegistrationKeepsEmailsUnique(users: seq<User>, u: User)
    requires EmailsUnique(users)
    requires CleanEmail(u.email, users).Ok?
    ensures EmailsUnique(users + [u])
  {
  }

  /** `if price and price < 0`: a zero price is falsy and passes. */
  function CleanPrice(price: Option<Cents>): (r: Result<Option<Cents>, FormError>)
    ensures r.Err? <==> price.Some? && price.value < 0
    ensures r.Err? ==> r.error == NegativePrice
    ensures r.Ok? ==> r.value == price
  {
    if price.Some? && price.value != 0 && price.value < 0 then Err(NegativePrice) else Ok(price)
  }

  /** The `clean_stock_quantity` hook on its own. */
  function CleanStockQuantity(stock: Option<int>): (r: Result<Option<int>, FormError>)
    ensures r.Err? <==> stock.Some? && stock.value < 0
    ensures r.Err? ==> r.error == NegativeStock
    ensures r.Ok? ==> r.value == stock && (r.value.Some? ==> r.value.value >= 0)
  {
    if stock.Some? && stock.value < 0 then Err(NegativeStock) else Ok(stock)
  }

  /** The product form's stock field as a whole. The model column is a
      positive integer field without `blank=True`, so its form field is
      required and has a minimum of 0. Both checks run before the hook, and
      the hook runs only on a value that passed them. So a missing stock is
      refused as required, a negative one with the field's own minimum
      error, and never with the hook's. */
  function StockQuantityField(stock: Option<int>): (r: Result<Option<int>, FormError>)
    ensures r.Err? <==> stock.None? || stock.value < 0
    ensures stock.None? ==> r == Err(Required)
    ensures stock.Some? && stock.value < 0 ==> r == Err(BelowMinimum(0))
    ensures r.Ok? ==> r.value == stock && r.value.Some? && r.value.value >= 0
  {
    if stock.None? then Err(Required)
    else if stock.value < 0 then Err(BelowMinimum(0))
    else CleanStockQuantity(stock)
  }

  /** What the image field hands the `clean_image` hook. A new upload
      carries its size and the content type the image library detected from
      the file's contents (None for a format it knows no MIME type for).
      Saving the edit form of a product that has an image, without a new
      upload, hands over the stored file: it has a size but no content type. */
  datatype ImageValue =
    | Upload(size: nat, detectedType: Option<string>)
    | Stored(size: nat)

  /** 5 MiB. */
  const MAX_IMAGE_SIZE: nat := 5 * 1024 * 1024

  predicate StartsWith(s: string, prefix: string)
  {
    |prefix| <= |s| && s[..|prefix|] == prefix
  }

  /** A new upload whose detected type is an image type. */
  predicate TypedAsImage(v: ImageValue)
  {
    v.Upload? && v.detectedType.Some? && StartsWith(v.detectedType.value, "image/")
  }

  /** The hook as written. Size is checked before type, so an oversized
      file reports the size. Asking a stored file, or an upload without a
      detected type, for the start of its content type raises. */
  function CleanImage(image: Option<ImageValue>): (r: Result<Option<ImageValue>, FormError>)
    ensures r.Err? <==>
      image.Some? && (image.value.size > MAX_IMAGE_SIZE || !TypedAsImage(image.value))
    ensures r.Err? ==>
      r.error == (if image.value.size > MAX_IMAGE_SIZE then ImageTooLarge
        else if image.value.Stored? || image.value.detectedType.None? then HookRaised
        else NotAnImage)
    ensures r.Ok? ==> r.value == image
  {
    match image
    case None => Ok(image)
    case Some(v) =>
      if v.size > MAX_IMAGE_SIZE then Err(ImageTooLarge)
      else
        match v
        case Stored(_) => Err(HookRaised)
        case Upload(_, detected) =>
          if detected.None? then Err(HookRaised)
          else if !StartsWith(detected.value, "image/") then Err(NotAnImage)
          else Ok(image)
  }

  /** The check the hook evidently means: only a new upload is examined,
      and one whose type is unknown is not an image; the stored image of an
      edited product is kept. It never raises. */
  function CleanImageIntended(image: Option<ImageValue>): (r: Result<Option<ImageValue>, FormError>)
    ensures r.Err? <==>
      image.Some? && image.value.Upload? && (image.value.size > MAX_IMAGE_SIZE || !TypedAsImage(image.value))
    ensures r.Err? ==> r.error == (if image.value.size > MAX_IMAGE_SIZE then ImageTooLarge else NotAnImage)
    ensures r.Ok? ==> r.value == image
  {
    match image
    case Some(Upload(size, detected)) =>
      if size > MAX_IMAGE_SIZE then Err(ImageTooLarge)
      else if detected.None? || !StartsWith(detected.value, "image/") then Err(NotAnImage)
      else Ok(image)
    case _ => Ok(image)
  }

  /** On every new upload whose type was detected, the hook as written and
      the intended check give the same answer. */
  lemma CleanImageAgreesOnTypedUploads(size: nat, detected: string)
    ensures CleanImage(Some(Upload(size, Some(detected)))) == CleanImageIntended(Some(Upload(size, Some(detected))))
  {
  }

  /** Saving the edit form of a product with a stored image of at most
      5 MiB and no new upload: the hook as written raises, the intended
      check keeps the image. */
  lemma EditKeepingImageRaises(size: nat)
    requires size <= MAX_IMAGE_SIZE
    ensures CleanImage(Some(Stored(size))) == Err(HookRaised)
    ensures CleanImageIntended(Some(Stored(size))) == Ok(Some(Stored(size)))
  {
  }

  /** `if rating and (rating < 1 or rating > 5)`: a zero rating is falsy and
      passes this hook. */
  function CleanRating(rating: Option<int>): (r: Result<Option<int>, FormError>)
    ensures r.Err? <==> rating.Some? && (rating.value < 0 || rating.value > 5)
    ensures r.Err? ==> r.error == RatingOutOfRange
    ensures r.Ok? ==> r.value == rating
  {
    if rating.Some? && rating.value != 0 && (rating.value < 1 || rating.value > 5) then Err(RatingOutOfRange)
    else Ok(rating)
  }

  /** The review form: the rating field is required and limited to the
      model's choices 1..5 before `clean_rating` runs; the comment is a
      required text field. */
  function ReviewForm(rating: Option<int>, comment: string): (r: Result<(int, string), FormError>)
    ensures r.Ok? <==> rating.Some? && 1 <= rating.value <= 5 && comment != ""
    ensures r.Ok? ==> r.value == (rating.value, comment)
  {
    if rating.None? || comment == "" then Err(Required)
    else if !(1 <= rating.value <= 5) then Err(InvalidChoice)
    else
      match CleanRating(rating)
      case Err(e) => Err(e)
      case Ok(v) => Ok((rating.value, comment))
  }

  const PASSWORD_MIN_LENGTH: nat := 8

  /** A required password field with `min_length=8`: emptiness is reported
      as "required", never as "too short". */
  function CleanPasswordField(p: string): (r: Result<string, FormError>)
    ensures r.Ok? <==> |p| >= PASSWORD_MIN_LENGTH
    ensures r.Ok? ==> r.value == p
    ensures p == "" ==> r == Err(Required)
  {
    if p == "" then Err(Required)
    else if |p| < PASSWORD_MIN_LENGTH then Err(TooShort(PASSWORD_MIN_LENGTH))
    else Ok(p)
  }

  /** The form-wide `clean` of the reset-confirm form, over the cleaned
      values (None where a field failed its own validation). */
  function CleanPasswordPair(p1: Option<string>, p2: Option<string>): (r: Result<(), FormError>)
    ensures r.Err? <==> p1.Some? && p2.Some? && p1.value != "" && p2.value != "" && p1.value != p2.value
  {
    if p1.Some? && p1.value != "" && p2.Some? && p2.value != "" && p1.value != p2.value then Err(PasswordsDiffer)
    else Ok(())
  }

  function Cleaned(r: Result<string, FormError>): Option<string>
  {
    if r.Ok? then Some(r.value) else None
  }

  /** `PasswordResetConfirmForm(...).is_valid()`: both fields valid and no
      form-wide error. */
  function ResetConfirmFormValid(p1: string, p2: string): (ok: bool)
    ensures ok <==> |p1| >= PASSWORD_MIN_LENGTH && p1 == p2
  {
    var c1 := CleanPasswordField(p1);
    var c2 := CleanPasswordField(p2);
    c1.Ok? && c2.Ok? && CleanPasswordPair(Cleaned(c1), Cleaned(c2)).Ok?
  }
}
