/**
 * The catalogue records of the ecommerce app: their string renderings, the choice set
 * for a table field's type, and the `unique_together` constraints of three tables.
 *
 * A foreign key is held as the referenced record itself, so that a rendering can reach
 * the related row's name; rows are identified by their primary key `id`, which is what
 * the database compares when it filters or enforces uniqueness on a foreign key.
 */
module EcommerceModels {
  import opened Wrappers
  import opened Text

  datatype Category = Category(id: nat, name: string)
  datatype CategoryImage = CategoryImage(id: nat, category: Category)
  datatype Product = Product(id: nat, category: Category, name: string, isNew: bool)
  datatype SubCategory = SubCategory(id: nat, product: Product, name: string)
  datatype TableField = TableField(id: nat, subcategory: SubCategory, name: string, fieldType: string)
  datatype ProductVariant = ProductVariant(id: nat, subcategory: SubCategory)

  /** A stored image: its file name (empty when no file is attached) and its public URL. */
  datatype ImageFile = ImageFile(name: string, url: string)

  datatype ProductVariantData = ProductVariantData(
    id: nat,
    variant: ProductVariant,
    field: TableField,
    valueText: Option<string>,
    valueNumber: Option<int>,
    valueImage: Option<ImageFile>)

  datatype UserExclusivePrice = UserExclusivePrice(id: nat, userId: nat, product: Product)

  /** `TableField.FIELD_TYPES`: the (stored value, label) choices of `field_type`. */
  const FieldTypes: seq<(string, string)> := [("text", "Text"), ("number", "Number"), ("image", "Image")]

  /** The stored values of the choices, in declaration order. */
  function FieldTypeKeys(): (keys: seq<string>)
    ensures keys == ["text", "number", "image"]
  {
    seq(|FieldTypes|, i requires 0 <= i < |FieldTypes| => FieldTypes[i].0)
  }

  /** A `field_type` the model's choices allow. */
  predicate IsFieldType(t: string) {
    t in FieldTypeKeys()
  }

  lemma FieldTypeChoices(t: string)
    ensures IsFieldType(t) <==> t == "text" || t == "number" || t == "image"
  {
  }

  // ---- __str__ -------------------------------------------------------------

  function CategoryStr(c: Category): (r: string)
    ensures r == c.name
  {
    c.name
  }

  function CategoryImageStr(ci: CategoryImage): (r: string)
    ensures |r| == 10 + |ci.category.name| && r[..10] == "Image for " && r[10..] == ci.category.name
  {
    "Image for " + ci.category.name
  }

  /** Two names joined by `" - "`: the prefix, the separator and the suffix are all recoverable by position. */
  predicate Dashed(r: string, left: string, right: string) {
    && |r| == |left| + 3 + |right|
    && r[..|left|] == left
    && r[|left|..|left| + 3] == " - "
    && r[|left| + 3..] == right
  }

  function ProductStr(p: Product): (r: string)
    ensures Dashed(r, p.category.name, p.name)
  {
    p.category.name + " - " + p.name
  }

  function SubCategoryStr(s: SubCategory): (r: string)
    ensures Dashed(r, s.product.name, s.name)
  {
    s.product.name + " - " + s.name
  }

  function TableFieldStr(f: TableField): (r: string)
    ensures Dashed(r, f.subcategory.name, f.name + " (" + f.fieldType + ")")
    ensures r[|r| - 1] == ')'
  {
    f.subcategory.name + " - " + f.name + " (" + f.fieldType + ")"
  }

  function ProductVariantStr(v: ProductVariant): (r: string)
    ensures |r| == 12 + |v.subcategory.name| && r[..12] == "Variant for " && r[12..] == v.subcategory.name
  {
    "Variant for " + v.subcategory.name
  }

  /** What a `ProductVariantData` row shows after its `"<variant> - <field name>: "` prefix. */
  datatype Shown = ImageUrl(url: string) | TextValue(text: string) | NumberValue(number: int) | Dash

  /** Python truthiness of a file field: a file is attached when its name is non-empty. */
  predicate HasImage(img: Option<ImageFile>) {
    img.Some? && img.value.name != ""
  }

  /**
   * The value shown for a data row: the image URL for an image field that has a file;
   * otherwise Python's `value_text or value_number or '-'`, in which an empty text and
   * the number zero are both false.
   */
  function ShownValue(d: ProductVariantData): (r: Shown)
    ensures r.ImageUrl? <==> d.field.fieldType == "image" && HasImage(d.valueImage)
    ensures r.ImageUrl? ==> r.url == d.valueImage.value.url
    ensures !r.ImageUrl? && Truthy(d.valueText) ==> r == TextValue(d.valueText.value)
    ensures !r.ImageUrl? && !Truthy(d.valueText) && d.valueNumber.Some? && d.valueNumber.value != 0
            ==> r == NumberValue(d.valueNumber.value)
    ensures r == Dash <==>
              && !(d.field.fieldType == "image" && HasImage(d.valueImage))
              && !Truthy(d.valueText)
              && (d.valueNumber.None? || d.valueNumber.value == 0)
  {
    if d.field.fieldType == "image" && HasImage(d.valueImage) then ImageUrl(d.valueImage.value.url)
    else if Truthy(d.valueText) then TextValue(d.valueText.value)
    else if d.valueNumber.Some? && d.valueNumber.value != 0 then NumberValue(d.valueNumber.value)
    else Dash
  }

  function ShownStr(s: Shown): string {
    match s
    case ImageUrl(url) => url
    case TextValue(t) => t
    case NumberValue(n) => IntToString(n)
    case Dash => "-"
  }

  function ProductVariantDataStr(d: ProductVariantData): (r: string)
    ensures var head := ProductVariantStr(d.variant) + " - " + d.field.name + ": ";
            |head| <= |r| && r[..|head|] == head && r[|head|..] == ShownStr(ShownValue(d))
  {
    ProductVariantStr(d.variant) + " - " + d.field.name + ": " + ShownStr(ShownValue(d))
  }

  /** An image stored on a text or number field is never shown. */
  lemma ImageShownOnlyForImageFields(d: ProductVariantData)
    requires d.field.fieldType != "image"
    ensures !ShownValue(d).ImageUrl?
  {
  }

  /** Empty text and the number zero fall through Python's `or` chain to the dash. */
  lemma ZeroNumberShowsDash(d: ProductVariantData)
    requires d.field.fieldType != "image"
    requires d.valueText == None || d.valueText == Some("")
    requires d.valueNumber == Some(0)
    ensures ShownValue(d) == Dash
    ensures ProductVariantDataStr(d)[|ProductVariantDataStr(d)| - 1] == '-'
  {
  }

  // ---- unique_together -----------------------------------------------------

  /** The database's collision for a `unique_together` constraint. */
  datatype IntegrityError = DuplicateKey

  /** No two distinct rows of the table share a key. */
  ghost predicate UniqueBy<R, K>(rows: set<R>, key: R -> K) {
    forall a, b :: a in rows && b in rows && key(a) == key(b) ==> a == b
  }

  /**
   * Saving a new row into a table with a `unique_together` constraint: refused exactly when
   * a stored row has the same key; otherwise the row is added and the constraint still holds.
   */
  function Insert<R, K(==)>(rows: set<R>, row: R, key: R -> K): (r: Result<set<R>, IntegrityError>)
    ensures r.Failure? <==> exists x :: x in rows && key(x) == key(row)
    ensures r.Success? ==> r.value == rows + {row}
    ensures UniqueBy(rows, key) && r.Success? ==> UniqueBy(r.value, key)
  {
    if exists x :: x in rows && key(x) == key(row) then Failure(DuplicateKey) else Success(rows + {row})
  }

  /** `unique_together = ('subcategory', 'name')`. */
  function TableFieldKey(f: TableField): (nat, string) {
    (f.subcategory.id, f.name)
  }

  /** `unique_together = ('variant', 'field')`. */
  function VariantDataKey(d: ProductVariantData): (nat, nat) {
    (d.variant.id, d.field.id)
  }

  /** `unique_together = ('user', 'product')`. */
  function ExclusivePriceKey(e: UserExclusivePrice): (nat, nat) {
    (e.userId, e.product.id)
  }

  function InsertTableField(rows: set<TableField>, f: TableField): (r: Result<set<TableField>, IntegrityError>)
    ensures r.Failure? <==> exists x :: x in rows && x.subcategory.id == f.subcategory.id && x.name == f.name
    ensures r.Success? ==> r.value == rows + {f}
    ensures UniqueBy(rows, TableFieldKey) && r.Success? ==> UniqueBy(r.value, TableFieldKey)
  {
    Insert(rows, f, TableFieldKey)
  }

  function InsertVariantData(rows: set<ProductVariantData>, d: ProductVariantData): (r: Result<set<ProductVariantData>, IntegrityError>)
    ensures r.Failure? <==> exists x :: x in rows && x.variant.id == d.variant.id && x.field.id == d.field.id
    ensures r.Success? ==> r.value == rows + {d}
    ensures UniqueBy(rows, VariantDataKey) && r.Success? ==> UniqueBy(r.value, VariantDataKey)
  {
    Insert(rows, d, VariantDataKey)
  }

  function InsertExclusivePrice(rows: set<UserExclusivePrice>, e: UserExclusivePrice): (r: Result<set<UserExclusivePrice>, IntegrityError>)
    ensures r.Failure? <==> exists x :: x in rows && x.userId == e.userId && x.product.id == e.product.id
    ensures r.Success? ==> r.value == rows + {e}
    ensures UniqueBy(rows, ExclusivePriceKey) && r.Success? ==> UniqueBy(r.value, ExclusivePriceKey)
  {
    Insert(rows, e, ExclusivePriceKey)
  }
}
