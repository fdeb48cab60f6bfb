/**
 * The two object-level `validate` hooks of the ecommerce REST serializers: the
 * `(subcategory, name)` duplicate check of table fields and the one-value-slot rule of
 * variant data.
 */
module EcommerceSerializers {
  import opened Wrappers
  import opened EcommerceModels

  // ---- TableFieldSerializer.validate ---------------------------------------

  /** Validated write data of a table field; a key left out of the request is `None`. */
  datatype TableFieldData = TableFieldData(subcategory: Option<SubCategory>, name: Option<string>, fieldType: Option<string>)

  const DuplicateTableField := "A TableField with this name already exists for the subcategory."

  /**
   * `TableField.objects.filter(subcategory=..., name=...)` matches a stored row. A `None`
   * filter value means `IS NULL`, which no row satisfies: neither column is nullable.
   */
  predicate SameKey(row: TableField, data: TableFieldData) {
    && data.subcategory.Some? && row.subcategory.id == data.subcategory.value.id
    && data.name.Some? && row.name == data.name.value
  }

  /**
   * `TableFieldSerializer.validate` as written: rejects exactly when some stored row has the
   * same subcategory and, compared exactly, the same name; otherwise returns the data as given.
   */
  function ValidateTableField(rows: set<TableField>, data: TableFieldData): (r: Result<TableFieldData, string>)
    ensures r.Failure? <==> exists x :: x in rows && SameKey(x, data)
    ensures r.Failure? ==> r.error == DuplicateTableField
    ensures r.Success? ==> r.value == data
  {
    if exists x :: x in rows && SameKey(x, data) then Failure(DuplicateTableField) else Success(data)
  }

  /** The data a full update (PUT) of a stored row sends back when it keeps every value. */
  function DataOf(f: TableField): TableFieldData {
    TableFieldData(Some(f.subcategory), Some(f.name), Some(f.fieldType))
  }

  /**
   * As written, the check also matches the row being updated: an update that keeps the
   * subcategory and the name (changing only `field_type`, say) is always rejected, although
   * storing it would keep the table free of duplicates.
   */
  lemma UpdateKeepingKeyRejected(rows: set<TableField>, f: TableField, newType: string)
    requires f in rows
    requires UniqueBy(rows, TableFieldKey)
    ensures ValidateTableField(rows, DataOf(f.(fieldType := newType))).Failure?
    ensures UniqueBy(ReplaceRow(rows, f.(fieldType := newType)), TableFieldKey)
  {
    assert SameKey(f, DataOf(f.(fieldType := newType)));
  }

  /** Saving an updated row: the stored row with its primary key is replaced by the new one. */
  function ReplaceRow(rows: set<TableField>, updated: TableField): (r: set<TableField>)
    ensures updated in r
    ensures forall x :: x in r && x != updated ==> x in rows && x.id != updated.id
    ensures forall x :: x in rows && x.id != updated.id ==> x in r
  {
    (set x | x in rows && x.id != updated.id) + {updated}
  }

  /**
   * The duplicate check the code evidently intends (enforcing `unique_together`): the row
   * being updated (`instance`, `None` on create) is left out of the search.
   */
  function ValidateTableFieldFor(rows: set<TableField>, data: TableFieldData, instance: Option<TableField>)
    : (r: Result<TableFieldData, string>)
    ensures r.Failure? <==>
              exists x :: x in rows && SameKey(x, data) && (instance.None? || x.id != instance.value.id)
    ensures r.Failure? ==> r.error == DuplicateTableField
    ensures r.Success? ==> r.value == data
  {
    if exists x :: x in rows && SameKey(x, data) && (instance.None? || x.id != instance.value.id)
    then Failure(DuplicateTableField)
    else Success(data)
  }

  /** On create the corrected check is the check as written. */
  lemma CorrectedAgreesOnCreate(rows: set<TableField>, data: TableFieldData)
    ensures ValidateTableFieldFor(rows, data, None) == ValidateTableField(rows, data)
  {
  }

  /** A created row that passes the check can be inserted under the `unique_together` constraint. */
  lemma AcceptedCreateInserts(rows: set<TableField>, f: TableField)
    requires UniqueBy(rows, TableFieldKey)
    requires ValidateTableFieldFor(rows, DataOf(f), None).Success?
    ensures InsertTableField(rows, f).Success?
    ensures UniqueBy(InsertTableField(rows, f).value, TableFieldKey)
  {
  }

  /** An update the corrected check accepts keeps the table free of duplicates once stored. */
  lemma {:induction false} CorrectedUpdateKeepsUnique(rows: set<TableField>, f: TableField)
    requires UniqueBy(rows, TableFieldKey)
    requires ValidateTableFieldFor(rows, DataOf(f), Some(f)).Success?
    ensures UniqueBy(ReplaceRow(rows, f), TableFieldKey)
  {
    forall a, b | a in ReplaceRow(rows, f) && b in ReplaceRow(rows, f) && TableFieldKey(a) == TableFieldKey(b)
      ensures a == b
    {
      if a != f && b == f {
        assert SameKey(a, DataOf(f));
      } else if a == f && b != f {
        assert SameKey(b, DataOf(f));
      }
    }
  }

  /** The corrected check accepts an update that keeps the row's own subcategory and name. */
  lemma CorrectedAcceptsUnchangedKey(rows: set<TableField>, f: TableField, newType: string)
    requires f in rows
    requires UniqueBy(rows, TableFieldKey)
    requires forall x :: x in rows && x.id == f.id ==> x == f
    ensures ValidateTableFieldFor(rows, DataOf(f.(fieldType := newType)), Some(f)).Success?
  {
  }

  // ---- ProductVariantDataSerializer.validate -------------------------------

  /** Validated write data of a variant data row; a key left out of the request is `None`. */
  datatype VariantDataInput = VariantDataInput(
    variant: Option<ProductVariant>,
    field: Option<TableField>,
    valueText: Option<string>,
    valueNumber: Option<int>,
    valueImage: Option<ImageFile>)

  /**
   * A `ValidationError` with its message, or the `AttributeError` raised by reading
   * `field_type` of a missing field (a partial update that leaves `field_id` out).
   */
  datatype DataError = ValidationError(message: string) | FieldMissing

  const TextOnly := "For a text field, only value_text should be provided."
  const NumberOnly := "For a number field, only value_number should be provided."
  const ImageOnly := "For an image field, only value_image should be provided."

  /**
   * The value slots other than the one matching the field's type must be `None`; the
   * matching slot may be `None` too, and a field type outside the three is not checked.
   */
  function ValidateVariantData(data: VariantDataInput): (r: Result<VariantDataInput, DataError>)
    ensures data.field.None? ==> r == Failure(FieldMissing)
    ensures data.field.Some? && data.field.value.fieldType == "text" ==>
              (r.Failure? <==> data.valueNumber.Some? || data.valueImage.Some?)
              && (r.Failure? ==> r.error == ValidationError(TextOnly))
    ensures data.field.Some? && data.field.value.fieldType == "number" ==>
              (r.Failure? <==> data.valueText.Some? || data.valueImage.Some?)
              && (r.Failure? ==> r.error == ValidationError(NumberOnly))
    ensures data.field.Some? && data.field.value.fieldType == "image" ==>
              (r.Failure? <==> data.valueText.Some? || data.valueNumber.Some?)
              && (r.Failure? ==> r.error == ValidationError(ImageOnly))
    ensures data.field.Some? && !IsFieldType(data.field.value.fieldType) ==> r.Success?
    ensures r.Success? ==> r.value == data
  {
    match data.field
    case None => Failure(FieldMissing)
    case Some(field) =>
      if field.fieldType == "text" then
        if data.valueNumber.Some? || data.valueImage.Some? then Failure(ValidationError(TextOnly)) else Success(data)
      else if field.fieldType == "number" then
        if data.valueText.Some? || data.valueImage.Some? then Failure(ValidationError(NumberOnly)) else Success(data)
      else if field.fieldType == "image" then
        if data.valueText.Some? || data.valueNumber.Some? then Failure(ValidationError(ImageOnly)) else Success(data)
      else Success(data)
  }

  /** No slot is mandatory: data with all three slots empty passes for any field. */
  lemma EmptySlotsPass(data: VariantDataInput)
    requires data.field.Some?
    requires data.valueText.None? && data.valueNumber.None? && data.valueImage.None?
    ensures ValidateVariantData(data) == Success(data)
  {
  }

  /** The row stored from validated data. */
  function RowOf(id: nat, variant: ProductVariant, field: TableField, data: VariantDataInput): ProductVariantData {
    ProductVariantData(id, variant, field, data.valueText, data.valueNumber, data.valueImage)
  }

  /**
   * A row that passed validation for a field of a known type shows only its own kind of
   * value, or the dash.
   */
  lemma ValidatedRowShowsItsSlot(id: nat, variant: ProductVariant, data: VariantDataInput)
    requires data.field.Some? && IsFieldType(data.field.value.fieldType)
    requires ValidateVariantData(data).Success?
    ensures var s := ShownValue(RowOf(id, variant, data.field.value, data));
            match data.field.value.fieldType
            case "text" => s.TextValue? || s == Dash
            case "number" => s.NumberValue? || s == Dash
            case _ => s.ImageUrl? || s == Dash
  {
  }
}
