/** src/components/organisms/ProductForm.jsx: the modal that adds or edits a
    product. Its state is the class's fields: the text of each input, the image
    list, the image URL being typed, and the errors. */
module ProductForm {
  import opened Wrappers
  import opened Text
  import opened Entities
  import opened FormErrors

  /** The inputs `handleInputChange` is called for. */
  datatype Field = Title | Description | Price | Inventory | Status

  /** `formData`: the text of the inputs, the image URLs and the status. */
  datatype FormData = FormData(
    title: string,
    description: string,
    price: string,
    inventory: string,
    images: seq<string>,
    status: string)

  /** The form of a new product. */
  const Blank: FormData := FormData("", "", "", "", [], "active")

  /** `productData`: what `onSubmit` receives, with the price and the inventory
      parsed and the other fields as typed. */
  datatype ProductInput = ProductInput(
    title: string,
    description: string,
    price: NumberValue,
    inventory: NumberValue,
    images: seq<string>,
    status: string)

  function Message(f: Field): string
    requires f != Status
  {
    match f
    case Title => "Title is required"
    case Description => "Description is required"
    case Price => "Valid price is required"
    case Inventory => "Valid inventory is required"
  }

  /** `!price || parseFloat(price) <= 0`: a `NaN` compares false, so text that
      does not parse passes. */
  predicate PriceRejected(price: string)
  {
    price == "" || (ParseFloat(price).Number? && ParseFloat(price).value <= 0.0)
  }

  /** `!inventory || parseInt(inventory) < 0`, with the same gap for `NaN`. */
  predicate InventoryRejected(inventory: string)
  {
    inventory == "" || (ParseInt(inventory).Number? && ParseInt(inventory).value < 0.0)
  }

  /** The form passes validation. */
  predicate Acceptable(data: FormData)
  {
    !IsBlank(data.title) && !IsBlank(data.description) &&
    !PriceRejected(data.price) && !InventoryRejected(data.inventory)
  }

  /** The errors `validateForm` collects, field by field in its order. */
  function ValidationErrors(data: FormData): map<Field, string>
  {
    var none: map<Field, string> := map[];
    var title := if IsBlank(data.title) then none[Title := Message(Title)] else none;
    var description := if IsBlank(data.description) then title[Description := Message(Description)] else title;
    var price := if PriceRejected(data.price) then description[Price := Message(Price)] else description;
    if InventoryRejected(data.inventory) then price[Inventory := Message(Inventory)] else price
  }

  /** Each of the four checked fields has an error iff it fails its check,
      with that field's message; the status never has one; and there is no
      error at all exactly when the form is acceptable. */
  lemma ValidationErrorsMeaning(data: FormData)
    ensures Title in ValidationErrors(data) <==> IsBlank(data.title)
    ensures Description in ValidationErrors(data) <==> IsBlank(data.description)
    ensures Price in ValidationErrors(data) <==> PriceRejected(data.price)
    ensures Inventory in ValidationErrors(data) <==> InventoryRejected(data.inventory)
    ensures Status !in ValidationErrors(data)
    ensures forall f :: f in ValidationErrors(data) ==> f != Status && ValidationErrors(data)[f] == Message(f)
    ensures ValidationErrors(data) == map[] <==> Acceptable(data)
  {
    var errs := ValidationErrors(data);
    if !Acceptable(data) {
      var f := if IsBlank(data.title) then Title else if IsBlank(data.description) then Description
               else if PriceRejected(data.price) then Price else Inventory;
      assert f in errs;
    }
  }

  /** `{ ...prev, [field]: value }`. */
  function WithField(data: FormData, f: Field, value: string): (r: FormData)
    ensures r.images == data.images
    ensures r.title == (if f == Title then value else data.title)
    ensures r.description == (if f == Description then value else data.description)
    ensures r.price == (if f == Price then value else data.price)
    ensures r.inventory == (if f == Inventory then value else data.inventory)
    ensures r.status == (if f == Status then value else data.status)
  {
    match f
    case Title => data.(title := value)
    case Description => data.(description := value)
    case Price => data.(price := value)
    case Inventory => data.(inventory := value)
    case Status => data.(status := value)
  }

  /** `{ ...formData, price: parseFloat(price), inventory: parseInt(inventory) }`. */
  function Converted(data: FormData): ProductInput
  {
    ProductInput(data.title, data.description, ParseFloat(data.price), ParseInt(data.inventory),
                 data.images, data.status)
  }

  /** The edit prefill. `priceText` is `product.price.toString()`, which the
      model does not compute except for whole cents (`Text.CentsToString`); a
      number's text is never empty, so `|| ""` never applies to it, nor to the
      other strings, which the model types as strings. */
  function Prefilled(p: Product, priceText: string): (data: FormData)
    ensures data.inventory == IntToString(p.inventory)
    ensures data.status == if p.status == "" then "active" else p.status
    ensures data.title == p.title && data.description == p.description && data.images == p.images
  {
    FormData(p.title, p.description, priceText, IntToString(p.inventory), p.images,
             if p.status == "" then "active" else p.status)
  }

  /** `images.filter((_, i) => i !== index)`. */
  function WithoutIndex<T>(s: seq<T>, index: int): (r: seq<T>)
    ensures 0 <= index < |s| ==> r == s[..index] + s[index + 1..]
    ensures !(0 <= index < |s|) ==> r == s
    decreases |s|
  {
    if s == [] then []
    else (if index == 0 then [] else [s[0]]) + WithoutIndex(s[1..], index - 1)
  }

  /** Editing a product whose price is a whole number of cents and saving
      without a change gives back the product's own values: the prefilled form
      passes validation and converts to the product's price and inventory. */
  lemma EditRoundTrip(p: Product, cents: nat)
    requires cents > 0 && p.price == cents as real / 100.0 && p.inventory >= 0
    requires !IsBlank(p.title) && !IsBlank(p.description)
    ensures Acceptable(Prefilled(p, CentsToString(cents)))
    ensures Converted(Prefilled(p, CentsToString(cents))) ==
      ProductInput(p.title, p.description, Number(p.price), Number(p.inventory as real), p.images,
                   if p.status == "" then "active" else p.status)
  {
    ParseFloatOfCents(cents);
    ParseIntOfIntToString(p.inventory);
  }

  /** Text that does not parse passes validation and reaches `onSubmit` as `NaN`. */
  lemma NonNumericPasses()
    ensures ParseFloat("abc") == NaN && !PriceRejected("abc")
    ensures ParseInt("abc") == NaN && !InventoryRejected("abc")
  {
    assert !IsSpace('a') && !IsDigit('a');
    assert DigitPrefix("abc") == [];
  }

  class ProductFormModal {
    var formData: FormData
    var imageUrl: string
    var errors: map<Field, string>

    constructor ()
      ensures formData == Blank && imageUrl == "" && errors == map[]
    {
      formData := Blank;
      imageUrl := "";
      errors := map[];
    }

    /** The effect that fills the form from the product being edited. */
    method Prefill(p: Product, priceText: string)
      modifies this
      ensures formData == Prefilled(p, priceText)
      ensures imageUrl == old(imageUrl) && errors == old(errors)
    {
      formData := Prefilled(p, priceText);
    }

    /** `handleInputChange`: sets one field and clears only that field's error. */
    method HandleInputChange(f: Field, value: string)
      modifies this
      ensures formData == WithField(old(formData), f, value)
      ensures errors == Cleared(old(errors), f)
      ensures imageUrl == old(imageUrl)
    {
      formData := WithField(formData, f, value);
      if Shows(errors, f) {
        errors := errors[f := ""];
      }
    }

    /** Typing into the image URL input. */
    method SetImageUrl(value: string)
      modifies this
      ensures imageUrl == value && formData == old(formData) && errors == old(errors)
    {
      imageUrl := value;
    }

    /** `handleAddImage`: a URL with something other than white space is
        appended trimmed, and the input cleared; a blank one changes nothing. */
    method HandleAddImage()
      modifies this
      ensures IsBlank(old(imageUrl)) ==> formData == old(formData) && imageUrl == old(imageUrl)
      ensures !IsBlank(old(imageUrl)) ==>
        formData == old(formData).(images := old(formData).images + [Trim(old(imageUrl))]) && imageUrl == ""
      ensures !IsBlank(old(imageUrl)) ==> !IsBlank(formData.images[|formData.images| - 1])
      ensures errors == old(errors)
    {
      BlankIffTrimEmpty(imageUrl);
      var url := Trim(imageUrl);
      if url != [] {
        assert !IsSpace(url[0]);
        formData := formData.(images := formData.images + [url]);
        imageUrl := "";
      }
    }

    /** `handleRemoveImage`: drops the image at `index`; others keep their order. */
    method HandleRemoveImage(index: int)
      modifies this
      ensures formData == old(formData).(images := WithoutIndex(old(formData).images, index))
      ensures 0 <= index < |old(formData).images| ==> |formData.images| == |old(formData).images| - 1
      ensures imageUrl == old(imageUrl) && errors == old(errors)
    {
      formData := formData.(images := WithoutIndex(formData.images, index));
    }

    /** `validateForm`: sets the errors of the fields that fail, with their
        messages; valid iff there is none (`ValidationErrors` says which). */
    method ValidateForm() returns (valid: bool)
      modifies this
      ensures errors == ValidationErrors(formData)
      ensures valid <==> errors == map[]
      ensures formData == old(formData) && imageUrl == old(imageUrl)
    {
      var data := formData;
      var newErrors: map<Field, string> := map[];
      if IsBlank(data.title) {
        newErrors := newErrors[Title := Message(Title)];
      }
      if IsBlank(data.description) {
        newErrors := newErrors[Description := Message(Description)];
      }
      if PriceRejected(data.price) {
        newErrors := newErrors[Price := Message(Price)];
      }
      if InventoryRejected(data.inventory) {
        newErrors := newErrors[Inventory := Message(Inventory)];
      }
      errors := newErrors;
      valid := newErrors == map[];
    }

    /** `handleSubmit`: `onSubmit` receives the converted form only when it
        passes validation. */
    method HandleSubmit() returns (submitted: Option<ProductInput>)
      modifies this
      ensures errors == ValidationErrors(formData)
      ensures submitted == if errors == map[] then Some(Converted(formData)) else None
      ensures formData == old(formData) && imageUrl == old(imageUrl)
    {
      var valid := ValidateForm();
      if !valid {
        return None;
      }
      submitted := Some(Converted(formData));
    }
  }
}
