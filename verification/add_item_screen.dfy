/** The add-item screen: a six-field form whose submit uploads the picked
    image first, then posts the item with the URL the upload returned, and
    resets the form once the item is added. */
module AddItemScreen {
  import opened Common
  import opened Records
  import opened Session

  const IncompleteForm: string := "Please fill all fields and select an image."

  /** The screen's form: five text fields and the picked image's URI (`None` for `null`). */
  datatype ItemForm = ItemForm(
    category: string,
    city: string,
    name: string,
    image: Option<string>,
    description: string,
    price: string)

  const EmptyItemForm: ItemForm := ItemForm("", "", "", None, "", "")

  /** The submit guard: every field truthy and an image picked. */
  predicate Complete(f: ItemForm): (ok: bool)
    ensures ok ==> f.image.Some? && f != EmptyItemForm
  {
    f.category != "" && f.city != "" && f.name != "" && Usable(f.image) && f.description != "" && f.price != ""
  }

  /** The values handed to `addItem`: the form's, with the hosted image URL in place of the picked URI. */
  function ItemOf(f: ItemForm, imageUrl: string): (d: ItemData)
    ensures d.imageUrl == imageUrl
    ensures ItemForm(d.category, d.city, d.name, f.image, d.description, d.price) == f
  {
    ItemData(f.category, f.city, f.name, imageUrl, f.description, f.price)
  }

  /** The submit's calls: nothing for an incomplete form; otherwise the upload,
      and only after a successful upload the item, posted with the uploaded URL. */
  function Submission(store: Store, f: ItemForm, uploadReply: Reply<UploadBody>, addReply: Reply<Item>)
    : (c: Call<Body<Item>>)
    ensures !Complete(f) ==> c == Call(Failure(Thrown(IncompleteForm)), [])
    ensures Complete(f) ==>
              var up := UploadToCloudinary(f.image.value, uploadReply);
              if up.result.Success?
              then c == Call(Session.AddItem(store, ItemOf(f, up.result.value), addReply).result,
                             up.effects + Session.AddItem(store, ItemOf(f, up.result.value), addReply).effects)
              else c == Call(Failure(up.result.error), up.effects)
    ensures c.result.Success? ==>
              && Complete(f) && uploadReply.Reply? && Ok(uploadReply.status) && uploadReply.body.Some?
              && c.effects ==
                   [ Send(UploadRequest(Upload(f.image.value, MimeType(f.image.value), UploadName(f.image.value),
                                               UploadPreset, UploadFolder))),
                     Send(AddItemRequest(FormatItem(ItemOf(f, uploadReply.body.value.data.secureUrl),
                                                    store[VendorIdKey]))) ]
    ensures ReadOnly(c.effects)
  {
    if !Complete(f) then Call(Failure(Thrown(IncompleteForm)), [])
    else
      var up := UploadToCloudinary(f.image.value, uploadReply);
      match up.result
      case Failure(e) => Call(Failure(e), up.effects)
      case Success(imageUrl) =>
        var added := Session.AddItem(store, ItemOf(f, imageUrl), addReply);
        assert imageUrl == uploadReply.body.value.data.secureUrl;
        assert added.result.Success? ==>
                 added.effects == [Send(AddItemRequest(FormatItem(ItemOf(f, imageUrl), store[VendorIdKey])))];
        assert ReadOnly(up.effects + added.effects) by {
          assert |up.effects| == 1 && up.effects[0].Send?;
        }
        Call(added.result, up.effects + added.effects)
  }

  /** The add step as written: the screen calls `.json()` on the object
      `addItem` has already decoded, which has no such method, so every
      resolved add becomes a `TypeError`; rejections pass through. */
  function AfterAddAsWritten(added: Result<Body<Item>, Failure>): (r: Result<Body<Item>, Failure>)
    ensures r.Failure?
    ensures added.Failure? ==> r == added
    ensures added.Success? ==> r == Failure(TypeError)
  {
    match added
    case Success(_) => Failure(TypeError)
    case Failure(e) => Failure(e)
  }

  /** The submit as written: the same requests as `Submission`, but no
      outcome is ever a success, so a created item is reported as an error
      and the form is never reset. */
  function SubmissionAsWritten(store: Store, f: ItemForm, uploadReply: Reply<UploadBody>, addReply: Reply<Item>)
    : (c: Call<Body<Item>>)
    ensures c.effects == Submission(store, f, uploadReply, addReply).effects
    ensures c.result.Failure?
    ensures Submission(store, f, uploadReply, addReply).result.Success? ==> c.result == Failure(TypeError)
  {
    var intended := Submission(store, f, uploadReply, addReply);
    if !Complete(f) then intended
    else
      var up := UploadToCloudinary(f.image.value, uploadReply);
      if up.result.Failure? then intended
      else Call(AfterAddAsWritten(intended.result), intended.effects)
  }

  /** A concrete submit that shows the difference: the item is posted and
      the server accepts it, yet the code as written reports a failure. */
  lemma AddedItemReportedAsFailure()
    ensures var store := map[VendorIdKey := "v1"];
            var f := ItemForm("Birthday", "Pune", "Balloons", Some("file:///a.png"), "Decor", "500");
            var uploadReply := Reply(200, "", Some(Body(None, UploadBody("https://cdn/a.png"))));
            var addReply := Reply(201, "", Some(Body(None, Item("i1", map[]))));
            && Submission(store, f, uploadReply, addReply).result == Success(Body(None, Item("i1", map[])))
            && SubmissionAsWritten(store, f, uploadReply, addReply).result == Failure(TypeError)
            && |SubmissionAsWritten(store, f, uploadReply, addReply).effects| == 2
  {
    var store := map[VendorIdKey := "v1"];
    var f := ItemForm("Birthday", "Pune", "Balloons", Some("file:///a.png"), "Decor", "500");
    var uploadReply := Reply(200, "", Some(Body(None, UploadBody("https://cdn/a.png"))));
    var addReply := Reply(201, "", Some(Body(None, Item("i1", map[]))));
    assert Complete(f);
    assert Usable(Lookup(store, VendorIdKey));
  }

  /** A reset form fails the guard: after a successful add, submitting again
      sends nothing until the vendor fills the form anew. */
  lemma ResetFormRejected(store: Store, uploadReply: Reply<UploadBody>, addReply: Reply<Item>)
    ensures Submission(store, EmptyItemForm, uploadReply, addReply) == Call(Failure(Thrown(IncompleteForm)), [])
  {
  }

  /** The add-item screen's state: the six fields and the submitting flag. */
  class AddItem {
    var category: string
    var city: string
    var name: string
    var image: Option<string>
    var description: string
    var price: string
    var isSubmitting: bool

    constructor ()
      ensures Form() == EmptyItemForm && !isSubmitting
    {
      category, city, name, image, description, price := "", "", "", None, "", "";
      isSubmitting := false;
    }

    /** The fields as one form value. */
    function Form(): ItemForm
      reads this
    {
      ItemForm(category, city, name, image, description, price)
    }

    /** An image picked from the library. */
    method PickImage(uri: string)
      modifies this
      ensures Form() == old(Form()).(image := Some(uri)) && isSubmitting == old(isSubmitting)
    {
      image := Some(uri);
    }

    /** `handleSubmit` with the add step corrected (see `AfterAddAsWritten`):
        an incomplete form changes nothing and sends nothing; otherwise the
        calls of `Submission` are made, the form is reset exactly when the
        item was added, and `isSubmitting` ends lowered. */
    method HandleSubmit(storage: Storage, uploadReply: Reply<UploadBody>, addReply: Reply<Item>)
      returns (effects: seq<Effect>, added: bool)
      modifies this
      ensures var c := Submission(storage.items, old(Form()), uploadReply, addReply);
              effects == c.effects && added == c.result.Success?
      ensures !Complete(old(Form())) ==> Form() == old(Form()) && isSubmitting == old(isSubmitting)
      ensures Complete(old(Form())) ==> !isSubmitting
      ensures Form() == if added then EmptyItemForm else old(Form())
    {
      var f := Form();
      var c := Submission(storage.items, f, uploadReply, addReply);
      effects, added := c.effects, c.result.Success?;
      if !Complete(f) {
        return;
      }
      isSubmitting := true;
      var next := f;
      if added {
        next := EmptyItemForm;
      }
      SetForm(next);
      isSubmitting := false;
    }

    /** `handleSubmit` as written: the same requests as the corrected
        handler, but its outcome is never a success, so the reset that
        follows the add step is never reached and the form keeps every value. */
    method HandleSubmitAsWritten(storage: Storage, uploadReply: Reply<UploadBody>, addReply: Reply<Item>)
      returns (effects: seq<Effect>, added: bool)
      modifies this
      ensures effects == Submission(storage.items, old(Form()), uploadReply, addReply).effects
      ensures !added && Form() == old(Form())
      ensures !Complete(old(Form())) ==> isSubmitting == old(isSubmitting)
      ensures Complete(old(Form())) ==> !isSubmitting
    {
      var f := Form();
      var c := SubmissionAsWritten(storage.items, f, uploadReply, addReply);
      effects, added := c.effects, c.result.Success?;
      if !Complete(f) {
        return;
      }
      isSubmitting := true;
      var next := f;
      if added {
        next := EmptyItemForm;
      }
      SetForm(next);
      isSubmitting := false;
    }

    /** The six setters, one per field. */
    method SetForm(g: ItemForm)
      modifies this
      ensures Form() == g && isSubmitting == old(isSubmitting)
    {
      category, city, name, image, description, price := g.category, g.city, g.name, g.image, g.description, g.price;
    }
  }
}
