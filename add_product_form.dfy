/** The craft app's product form (tribal-craft/src/components/AddProductForm.jsx).
    How JavaScript reads the price text (`isNaN(price)` and
    `parseFloat(price)`) is a parameter, `read`; the clock reading behind
    the new id is the parameter `now`; `onAdd` is the store's `addProduct`,
    and the delayed redirect is recorded in `scheduled`. */
module AddProductForm {
  import opened Wrappers
  import opened Text
  import opened Money
  import opened Catalog
  import opened Store

  datatype Field = Name | Description | Price | Image

  /** What JavaScript makes of a price text: whether `isNaN` holds for it,
      and the number `parseFloat` reads from its start. */
  datatype PriceReading = PriceReading(isNaN: bool, parsed: real)

  function ErrorMessage(f: Field): string {
    match f
    case Name => "Name is required."
    case Description => "Description is required."
    case Price => "Price must be a positive number."
    case Image => "Image URL is required."
  }

  /** The price check: empty, not a number, or not positive. */
  predicate PriceInvalid(price: string, read: string -> PriceReading) {
    price == "" || read(price).isNaN || read(price).parsed <= 0.0
  }

  /** Whether `validateForm` flags anything: a blank name, description or
      image, or an invalid price. */
  predicate AnyInvalid(name: string, description: string, price: string, image: string, read: string -> PriceReading) {
    IsBlank(name) || IsBlank(description) || PriceInvalid(price, read) || IsBlank(image)
  }

  const ArtisanPath: string := "/artisan"

  /** The product a valid form describes: a fresh id from the clock,
      the trimmed texts, the parsed price, owned by the user and pending
      approval. */
  function NewProduct(name: string, description: string, price: string, image: string,
                      now: nat, user: User, read: string -> PriceReading): (p: Product)
    ensures p.id == "p" + NatToString(now) && IsPlainSegment(p.id)
    ensures p.name == Trim(name) && p.description == Some(Trim(description)) && p.image == Some(Trim(image))
    ensures p.price == Some(read(price).parsed)
    ensures p.artisan == user.username && !p.approved
  {
    assert forall i :: 0 <= i < |NatToString(now)| ==> IsPlainChar(NatToString(now)[i]);
    Product("p" + NatToString(now), Trim(name), Some(Trim(description)), Some(read(price).parsed),
      Some(Trim(image)), user.username, false)
  }

  class ProductForm {
    var name: string
    var description: string
    var price: string
    var image: string
    var errors: map<Field, string>
    var loading: bool
    var success: bool
    /** The redirects scheduled so far. */
    var scheduled: seq<string>

    constructor()
      ensures name == "" && description == "" && price == "" && image == ""
      ensures errors == map[] && !loading && !success && scheduled == []
    {
      name := "";
      description := "";
      price := "";
      image := "";
      errors := map[];
      loading := false;
      success := false;
      scheduled := [];
    }

    /** `setForm` with every field emptied. */
    method ResetForm()
      modifies this`name, this`description, this`price, this`image
      ensures name == "" && description == "" && price == "" && image == ""
    {
      name, description, price, image := "", "", "", "";
    }

    /** `validateForm`: one message per invalid field, and no other entry. */
    method ValidateForm(read: string -> PriceReading) returns (errs: map<Field, string>)
      ensures Name in errs <==> IsBlank(name)
      ensures Description in errs <==> IsBlank(description)
      ensures Price in errs <==> PriceInvalid(price, read)
      ensures Image in errs <==> IsBlank(image)
      ensures forall f :: f in errs ==> errs[f] == ErrorMessage(f)
    {
      errs := map[];
      if Trim(name) == "" {
        errs := errs[Name := ErrorMessage(Name)];
      }
      if Trim(description) == "" {
        errs := errs[Description := ErrorMessage(Description)];
      }
      if PriceInvalid(price, read) {
        errs := errs[Price := ErrorMessage(Price)];
      }
      if Trim(image) == "" {
        errs := errs[Image := ErrorMessage(Image)];
      }
    }

    /** `handleSubmit`. With an invalid field the errors are stored and the
        store is untouched. Otherwise exactly one product, pending approval
        and owned by the user, is appended to the store, the form is
        cleared, `success` is set, `loading` ends false, and the redirect
        to the artisan dashboard is scheduled. */
    method HandleSubmit(app: AppStore, user: User, now: nat, read: string -> PriceReading)
      requires app.Valid()
      modifies this, app`products
      ensures app.Valid()
      ensures AnyInvalid(old(name), old(description), old(price), old(image), read) ==>
        && (Name in errors <==> IsBlank(old(name)))
        && (Description in errors <==> IsBlank(old(description)))
        && (Price in errors <==> PriceInvalid(old(price), read))
        && (Image in errors <==> IsBlank(old(image)))
        && (forall f :: f in errors ==> errors[f] == ErrorMessage(f))
        && app.products == old(app.products)
        && name == old(name) && description == old(description) && price == old(price) && image == old(image)
        && loading == old(loading) && success == old(success) && scheduled == old(scheduled)
      ensures !AnyInvalid(old(name), old(description), old(price), old(image), read) ==>
        && app.products == old(app.products) + [NewProduct(old(name), old(description), old(price), old(image), now, user, read)]
        && errors == map[] && success && !loading
        && name == "" && description == "" && price == "" && image == ""
        && scheduled == old(scheduled) + [ArtisanPath]
    {
      var newErrors := ValidateForm(read);
      if newErrors != map[] {
        var f :| f in newErrors;
        assert AnyInvalid(name, description, price, image, read) by {
          match f
          case Name =>
          case Description =>
          case Price =>
          case Image =>
        }
        errors := newErrors;
        return;
      }
      // The form the handler closed over: later state updates do not change it.
      var product := NewProduct(name, description, price, image, now, user, read);
      errors := map[];
      loading := true;
      app.AddProduct(product);
      success := true;
      loading := false;
      ResetForm();
      scheduled := scheduled + [ArtisanPath];
    }
  }
}
