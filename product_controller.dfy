/** The product endpoints (app/controllers/product_controller.py): the image-name whitelist,
    part-number uniqueness on create and update, the fields an update overwrites, and the
    guard that keeps referenced products. Saving an uploaded file is outside the model: an
    upload arrives with the path the saved file gets. */
module ProductController {
  import opened Common
  import opened Store

  const AllowedExtensions: set<string> := {"png", "jpg", "jpeg", "gif", "webp"}

  const Unauthorized := Reply(403, "Unauthorized")
  const NotFoundReply := Reply(404, "Not Found")
  const PartNumberExists := Reply(400, "Part number already exists")

  /** `allowed_file`: the name has a '.', and the text after the last one, lower-cased, is a
      whitelisted extension. */
  function AllowedFile(filename: string): (r: bool)
    ensures r <==> exists i :: 0 <= i < |filename| && filename[i] == '.'
                               && (forall j :: i < j < |filename| ==> filename[j] != '.')
                               && Lower(filename[i + 1..]) in AllowedExtensions
  {
    var dot := LastIndexOf(filename, '.', |filename|);
    if dot.None? then false
    else Lower(filename[dot.value + 1..]) in AllowedExtensions
  }

  /** The extension is compared without case, and only the last one counts. */
  lemma AllowedFileExamples()
    ensures AllowedFile("photo.PNG")
    ensures !AllowedFile("photo.png.exe")
    ensures !AllowedFile("png")
  {
    var a := "photo.PNG";
    assert a[5] == '.' && a[6] != '.' && a[7] != '.' && a[8] != '.';
    assert LastIndexOf(a, '.', |a|) == Some(5);
    assert a[6..] == "PNG";
    assert Lower("PNG") == "png" by {
      assert Lower("G") == "g";
      assert Lower("NG") == "ng";
    }
    var b := "photo.png.exe";
    assert b[9] == '.' && b[10] != '.' && b[11] != '.' && b[12] != '.';
    assert LastIndexOf(b, '.', |b|) == Some(9);
    assert b[10..] == "exe";
    assert Lower("exe") == "exe" by {
      LowerOfLowerCase("exe");
    }
    assert LastIndexOf("png", '.', 3) == None;
  }

  /** An uploaded image: the client's file name and the path the saved file is stored under. */
  datatype Upload = Upload(filename: string, storedAs: string)

  /** The image column after an upload: replaced only by a file whose name is allowed (an
      empty file name never is). */
  function ImageAfter(current: Option<string>, upload: Option<Upload>): (r: Option<string>)
    ensures upload.Some? && AllowedFile(upload.value.filename) ==> r == Some(upload.value.storedAs)
    ensures !(upload.Some? && AllowedFile(upload.value.filename)) ==> r == current
  {
    if upload.Some? && AllowedFile(upload.value.filename) then Some(upload.value.storedAs) else current
  }

  /** The fields of the multipart form; each may be missing. */
  datatype ProductForm = ProductForm(name: Option<string>, description: Option<string>, manufacturer: Option<string>,
                                     partNumber: Option<string>, category: Option<string>)

  /** `create_product`. */
  method CreateProduct(db: Db, caller: Caller, form: ProductForm, upload: Option<Upload>) returns (r: Reply)
    requires db.Valid()
    modifies db`products, db`nextProductId
    ensures db.Valid()
    ensures r.status != 201 ==> db.products == old(db.products)
    ensures caller.role != Admin ==> r == Unauthorized
    ensures caller.role == Admin && (form.name.None? || form.partNumber.None?) ==> r == Reply(400, "Missing required fields")
    ensures caller.role == Admin && form.name.Some? && form.partNumber.Some? ==>
      && (PartNumberTaken(old(db.products), form.partNumber.value, None) ==> r == PartNumberExists)
      && (!PartNumberTaken(old(db.products), form.partNumber.value, None) ==>
            && r.status == 201
            && old(db.nextProductId) !in old(db.products)
            && db.products == old(db.products)[old(db.nextProductId) :=
                 Product(form.name.value, form.description, form.manufacturer, form.partNumber.value,
                         form.category, ImageAfter(None, upload))])
  {
    if caller.role != Admin {
      return Unauthorized;
    }
    if form.name.None? || form.partNumber.None? {
      return Reply(400, "Missing required fields");
    }
    if PartNumberTaken(db.products, form.partNumber.value, None) {
      return PartNumberExists;
    }
    var id := db.nextProductId;
    db.products := db.products[id := Product(form.name.value, form.description, form.manufacturer,
                                             form.partNumber.value, form.category, ImageAfter(None, upload))];
    db.nextProductId := id + 1;
    r := Reply(201, "");
  }

  /** The product after the fields an update form carries. The image is handled inside the
      `category` branch, so an upload without a category is ignored. */
  function ProductEdited(p: Product, form: ProductForm, upload: Option<Upload>): (r: Product)
    ensures r.partNumber == (if form.partNumber.Some? then form.partNumber.value else p.partNumber)
    ensures r.name == (if form.name.Some? then form.name.value else p.name)
    ensures r.description == (if form.description.Some? then form.description else p.description)
    ensures r.manufacturer == (if form.manufacturer.Some? then form.manufacturer else p.manufacturer)
    ensures r.category == (if form.category.Some? then form.category else p.category)
    ensures form.category.None? ==> r.image == p.image
    ensures form.category.Some? ==> r.image == ImageAfter(p.image, upload)
  {
    Product(if form.name.Some? then form.name.value else p.name,
            if form.description.Some? then form.description else p.description,
            if form.manufacturer.Some? then form.manufacturer else p.manufacturer,
            if form.partNumber.Some? then form.partNumber.value else p.partNumber,
            if form.category.Some? then form.category else p.category,
            if form.category.Some? then ImageAfter(p.image, upload) else p.image)
  }

  /** A form that carries no field leaves the product as it is, whatever file comes with it. */
  lemma EmptyFormChangesNothing(p: Product, upload: Option<Upload>)
    ensures ProductEdited(p, ProductForm(None, None, None, None, None), upload) == p
  {
  }

  /** `update_product`: a part number held by a different product is refused; resubmitting
      the product's own part number skips the check. */
  method UpdateProduct(db: Db, caller: Caller, productId: int, form: ProductForm, upload: Option<Upload>) returns (r: Reply)
    requires db.Valid()
    modifies db`products
    ensures db.Valid()
    ensures r.status != 200 ==> db.products == old(db.products)
    ensures caller.role != Admin ==> r == Unauthorized
    ensures caller.role == Admin && productId !in old(db.products) ==> r == NotFoundReply
    ensures caller.role == Admin && productId in old(db.products) ==>
      var p := old(db.products[productId]);
      var clash := form.partNumber.Some? && form.partNumber.value != p.partNumber
                   && PartNumberTaken(old(db.products), form.partNumber.value, Some(productId));
      && (clash ==> r == PartNumberExists)
      && (!clash ==> r == Reply(200, "Product updated successfully")
                     && db.products == old(db.products)[productId := ProductEdited(p, form, upload)])
  {
    if caller.role != Admin {
      return Unauthorized;
    }
    if productId !in db.products {
      return NotFoundReply;
    }
    var p := db.products[productId];
    if form.partNumber.Some? && form.partNumber.value != p.partNumber
       && PartNumberTaken(db.products, form.partNumber.value, Some(productId)) {
      return PartNumberExists;
    }
    db.products := db.products[productId := ProductEdited(p, form, upload)];
    r := Reply(200, "Product updated successfully");
  }

  /** `delete_product`: refused while any quotation item or order item names the product. An
      inventory entry naming it is not checked: the commit then fails, and `auth_required`
      answers 401 with the product kept. */
  method DeleteProduct(db: Db, caller: Caller, productId: int) returns (r: Reply)
    requires db.Valid()
    modifies db`products, db`nextProductId
    ensures db.Valid()
    ensures r.status != 200 ==> db.products == old(db.products)
    ensures caller.role != Admin ==> r == Unauthorized
    ensures caller.role == Admin && productId !in old(db.products) ==> r == NotFoundReply
    ensures caller.role == Admin && productId in old(db.products) && ProductReferenced(db.quotations, db.orders, productId) ==>
      r == Reply(400, "Cannot delete product as it is referenced in quotations or orders")
    ensures caller.role == Admin && productId in old(db.products) && !ProductReferenced(db.quotations, db.orders, productId)
            && ProductHeld(db.inventory, productId) ==>
      r == Reply(401, "Authentication failed")
    ensures caller.role == Admin && productId in old(db.products) && !ProductReferenced(db.quotations, db.orders, productId)
            && !ProductHeld(db.inventory, productId) ==>
      r == Reply(200, "Product deleted successfully") && db.products == old(db.products) - {productId}
  {
    if caller.role != Admin {
      return Unauthorized;
    }
    if productId !in db.products {
      return NotFoundReply;
    }
    if ProductReferenced(db.quotations, db.orders, productId) {
      return Reply(400, "Cannot delete product as it is referenced in quotations or orders");
    }
    if ProductHeld(db.inventory, productId) {
      return Reply(401, "Authentication failed");
    }
    db.products := db.products - {productId};
    db.nextProductId := NextIdAfterDelete(db.products, db.nextProductId);
    r := Reply(200, "Product deleted successfully");
  }
}
