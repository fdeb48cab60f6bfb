/**
 * The decision rules of the ecommerce admin site: the table-field form's name and type
 * checks, the reserved-name permission gate of the table-field inline, which inlines an
 * admin page shows, the item form's status rule, the item status computed after related
 * rows are saved, and the handler every `save_model` uses to turn a `ValidationError`
 * into one admin message per error.
 */
module EcommerceAdmin {
  import opened Wrappers
  import opened Text
  import opened EcommerceModels

  // ---- saved or not --------------------------------------------------------

  /** The object an admin page edits, seen through its primary key (`None` before the first save). */
  datatype Instance = Instance(pk: Option<int>)

  /** Python truthiness of a primary key: `None` and `0` are false. */
  predicate PkTruthy(pk: Option<int>) {
    pk.Some? && pk.value != 0
  }

  /** The negation of `obj is None or not obj.pk`. */
  predicate IsSaved(obj: Option<Instance>) {
    obj.Some? && PkTruthy(obj.value.pk)
  }

  // ---- TableFieldForm ------------------------------------------------------

  function ReservedNameMessage(name: string): string {
    "The name '" + name + "' is reserved and cannot be used."
  }

  /**
   * `clean_name`: a non-empty name whose lower-cased form is reserved is refused; any other
   * value, `None` and the empty name included, comes back unchanged.
   */
  function CleanName(name: Option<string>, reserved: set<string>): (r: Result<Option<string>, string>)
    ensures r.Failure? <==> Truthy(name) && Lower(name.value) in reserved
    ensures r.Failure? ==> r.error == ReservedNameMessage(name.value)
    ensures r.Success? ==> r.value == name
  {
    if Truthy(name) && Lower(name.value) in reserved then Failure(ReservedNameMessage(name.value)) else Success(name)
  }

  /** Case does not help: every spelling of a reserved (lower-case) name is refused. */
  lemma {:induction false} CleanNameIgnoresCase(a: string, b: string, reserved: set<string>)
    requires a != "" && |a| == |b|
    requires forall i :: 0 <= i < |a| ==> LowerChar(a[i]) == LowerChar(b[i])
    ensures CleanName(Some(a), reserved).Failure? <==> CleanName(Some(b), reserved).Failure?
  {
    assert Lower(a) == Lower(b);
  }

  function FieldTypeMessage(): (m: string)
    ensures m == "Field type must be one of: text, number, image."
  {
    "Field type must be one of: " + Join(", ", FieldTypeKeys()) + "."
  }

  /**
   * `clean_field_type`: an empty value or one of the `FIELD_TYPES` keys comes back
   * unchanged; every other non-empty value is refused.
   */
  function CleanFieldType(fieldType: Option<string>): (r: Result<Option<string>, string>)
    ensures r.Success? <==> !Truthy(fieldType) || IsFieldType(fieldType.value)
    ensures r.Success? ==> r.value == fieldType
    ensures r.Failure? ==> r.error == "Field type must be one of: text, number, image."
  {
    if Truthy(fieldType) && fieldType.value !in FieldTypeKeys() then Failure(FieldTypeMessage()) else Success(fieldType)
  }

  // ---- TableFieldInline ----------------------------------------------------

  /**
   * `has_change_permission` and `has_delete_permission` of the table-field inline, which are
   * the same rule: denied exactly when the object Django passes in has a reserved name,
   * compared case-sensitively; otherwise the answer of the base admin's hook of the same
   * name (`base`). `objName` is `None` when no object is passed.
   */
  function InlinePermission(objName: Option<string>, reserved: set<string>, base: bool): (r: bool)
    ensures !r <==> (objName.Some? && objName.value in reserved) || !base
    ensures (objName.None? || objName.value !in reserved) ==> r == base
  {
    if objName.Some? && objName.value in reserved then false else base
  }

  /**
   * The two reserved-name checks differ on case: with `"price"` reserved, the form refuses
   * the name `"Price"`, while the inline still lets an object named `"Price"` be changed
   * and deleted.
   */
  lemma PermissionGateIsCaseSensitive()
    ensures CleanName(Some("Price"), {"price"}).Failure?
    ensures InlinePermission(Some("Price"), {"price"}, true)
  {
    assert Lower("Price") == "price";
  }

  /**
   * For every name that is reserved only once lower-cased, the two checks part: the form
   * refuses the name, while the gate leaves the object to the base hook.
   */
  lemma CaseVariantPassesGate(name: string, reserved: set<string>, base: bool)
    requires name != "" && Lower(name) in reserved && name !in reserved
    ensures CleanName(Some(name), reserved).Failure?
    ensures InlinePermission(Some(name), reserved, base) == base
  {
  }

  /** For a reserved name written in lower case the two checks agree: both refuse. */
  lemma LowerCaseReservedNameRefusedByBoth(name: string, reserved: set<string>, base: bool)
    requires name != "" && IsLowerCase(name) && name in reserved
    ensures CleanName(Some(name), reserved).Failure?
    ensures !InlinePermission(Some(name), reserved, base)
  {
    LowerOfLowerCase(name);
  }

  // ---- inlines and their forms ---------------------------------------------

  datatype Inline = PricingTierInline | TableFieldInline | PricingTierDataInline | ItemImageInline | ItemDataInline

  /** `ProductVariantAdmin.get_inlines`: no inline until the variant is saved. */
  function VariantInlines(obj: Option<Instance>): (r: seq<Inline>)
    ensures !IsSaved(obj) <==> r == []
    ensures IsSaved(obj) ==> r == [PricingTierInline, TableFieldInline]
  {
    if !IsSaved(obj) then [] else [PricingTierInline, TableFieldInline]
  }

  /** `ItemAdmin.get_inlines`: no inline until the item is saved. */
  function ItemInlines(obj: Option<Instance>): (r: seq<Inline>)
    ensures !IsSaved(obj) <==> r == []
    ensures IsSaved(obj) ==> r == [PricingTierDataInline, ItemImageInline, ItemDataInline]
  {
    if !IsSaved(obj) then [] else [PricingTierDataInline, ItemImageInline, ItemDataInline]
  }

  /** The form class a table-field inline formset is built from. */
  datatype InlineForm = PlainModelForm | TableFieldFormClass

  /** `TableFieldInline.get_formset`: the plain `ModelForm` under an unsaved parent, `TableFieldForm` otherwise. */
  function TableFieldInlineForm(parent: Option<Instance>): (f: InlineForm)
    ensures f == TableFieldFormClass <==> IsSaved(parent)
  {
    if !IsSaved(parent) then PlainModelForm else TableFieldFormClass
  }

  /** The name check a table-field inline row goes through: none under the plain form. */
  function InlineCleanName(form: InlineForm, name: Option<string>, reserved: set<string>): Result<Option<string>, string> {
    match form
    case PlainModelForm => Success(name)
    case TableFieldFormClass => CleanName(name, reserved)
  }

  /**
   * The plain form skips the reserved-name check only where the inline is not shown: on
   * every variant page that shows the table-field inline, a reserved name is refused.
   */
  lemma ShownTableFieldInlineChecksNames(parent: Option<Instance>, name: Option<string>, reserved: set<string>)
    requires TableFieldInline in VariantInlines(parent)
    ensures InlineCleanName(TableFieldInlineForm(parent), name, reserved) == CleanName(name, reserved)
  {
  }

  // ---- the save_model error handler ----------------------------------------

  /** `ValidationError.error_dict`: the failing fields in order, each with its error texts in order. */
  type ErrorDict = seq<(string, seq<string>)>

  /**
   * A `ValidationError` as it is raised: built from a dict of field errors, so that it has an
   * `error_dict`, or built from a message or a list of messages, so that it has none.
   */
  datatype ValidationError = WithDict(errorDict: ErrorDict) | WithList(errorList: seq<string>)

  /**
   * What leaves the handler: the caught error raised again, or the `AttributeError` that
   * reading `error_dict` raises on an error built without a dict.
   */
  datatype Raised = Reraised(error: ValidationError) | AttributeError

  /** The messages the handler emits for an error: those of its dict, none when it has no dict. */
  function Reported(e: ValidationError): seq<string> {
    if e.WithDict? then FormatErrors(e.errorDict) else []
  }

  /** The exception the handler ends with. */
  function Outcome(e: ValidationError): Raised {
    if e.WithDict? then Reraised(e) else AttributeError
  }

  /** One admin message: `"field: error"`, or the bare error for the form-wide key `__all__`. */
  function Message(field: string, error: string): string {
    if field != "__all__" then field + ": " + error else error
  }

  function FieldMessages(field: string, errors: seq<string>): (r: seq<string>)
    ensures |r| == |errors|
    ensures forall j :: 0 <= j < |errors| ==> r[j] == Message(field, errors[j])
  {
    seq(|errors|, j requires 0 <= j < |errors| => Message(field, errors[j]))
  }

  /** The messages the handler emits for an error dict, field after field. */
  function FormatErrors(d: ErrorDict): seq<string> {
    if d == [] then [] else FormatErrors(d[..|d| - 1]) + FieldMessages(d[|d| - 1].0, d[|d| - 1].1)
  }

  /** How many error texts an error dict carries. */
  function ErrorCount(d: ErrorDict): nat {
    if d == [] then 0 else ErrorCount(d[..|d| - 1]) + |d[|d| - 1].1|
  }

  /** One message per error. */
  lemma {:induction false} FormatErrorsLength(d: ErrorDict)
    ensures |FormatErrors(d)| == ErrorCount(d)
  {
    if d != [] {
      FormatErrorsLength(d[..|d| - 1]);
    }
  }

  /**
   * The messages keep the order of the errors: error `j` of field `i` is message number
   * (errors of the fields before `i`) + `j`, and it reads `"field: error"`, or the bare
   * error under `__all__`.
   */
  lemma {:induction false} FormatErrorsAt(d: ErrorDict, i: nat, j: nat)
    requires i < |d| && j < |d[i].1|
    ensures ErrorCount(d[..i]) + j < |FormatErrors(d)|
    ensures FormatErrors(d)[ErrorCount(d[..i]) + j] == Message(d[i].0, d[i].1[j])
  {
    var n := |d| - 1;
    FormatErrorsLength(d[..n]);
    FormatErrorsLength(d);
    if i == n {
      assert d[..i] == d[..n];
    } else {
      assert d[..n][..i] == d[..i];
      FormatErrorsAt(d[..n], i, j);
    }
  }

  /** Errors under `__all__` only are reported as they are. */
  lemma FormWideErrorsReportedBare(errors: seq<string>)
    ensures FormatErrors([("__all__", errors)]) == errors
  {
    var d := [("__all__", errors)];
    assert d[..0] == [];
  }

  /** The request's message storage, which `messages.error` appends to. */
  class MessageLog {
    var messages: seq<string>

    constructor ()
      ensures messages == []
    {
      messages := [];
    }

    /** `messages.error(request, text)`. */
    method Error(text: string)
      modifies this
      ensures messages == old(messages) + [text]
    {
      messages := messages + [text];
    }

    /** The nested loops over `e.error_dict.items()`: one message per error, in order. */
    method ReportValidationError(d: ErrorDict)
      modifies this
      ensures messages == old(messages) + FormatErrors(d)
    {
      var i := 0;
      while i < |d|
        invariant 0 <= i <= |d|
        invariant messages == old(messages) + FormatErrors(d[..i])
      {
        var (field, errors) := d[i];
        var j := 0;
        while j < |errors|
          invariant 0 <= j <= |errors|
          invariant messages == old(messages) + FormatErrors(d[..i]) + FieldMessages(field, errors[..j])
        {
          Error(Message(field, errors[j]));
          assert FieldMessages(field, errors[..j + 1]) == FieldMessages(field, errors[..j]) + [Message(field, errors[j])];
          j := j + 1;
        }
        assert errors[..j] == errors;
        assert d[..i + 1][..i] == d[..i];
        i := i + 1;
      }
      assert d[..i] == d;
    }

    /**
     * The `except ValidationError` block: an error with a dict is reported message by message
     * and raised again; on an error without one, reading `error_dict` raises `AttributeError`
     * before any message is emitted.
     */
    method HandleValidationError(e: ValidationError) returns (raised: Raised)
      modifies this
      ensures e.WithDict? ==> raised == Reraised(e) && messages == old(messages) + FormatErrors(e.errorDict)
      ensures e.WithList? ==> raised == AttributeError && messages == old(messages)
    {
      match e
      case WithDict(d) =>
        ReportValidationError(d);
        raised := Reraised(e);
      case WithList(_) =>
        raised := AttributeError;
    }
  }

  /**
   * The `save_model` (and `save_related`) shared by every admin but the item admin: the
   * save either succeeds or raises `saveError`, which goes through the handler.
   */
  method SaveModel(log: MessageLog, saveError: Option<ValidationError>) returns (raised: Option<Raised>)
    modifies log
    ensures saveError.None? ==> raised.None? && log.messages == old(log.messages)
    ensures saveError.Some? && saveError.value.WithDict? ==>
              && raised == Some(Reraised(saveError.value))
              && log.messages == old(log.messages) + FormatErrors(saveError.value.errorDict)
    ensures saveError.Some? && saveError.value.WithList? ==>
              raised == Some(AttributeError) && log.messages == old(log.messages)
  {
    raised := None;
    if saveError.Some? {
      var r := log.HandleValidationError(saveError.value);
      raised := Some(r);
    }
  }

  // ---- items: ItemForm.clean, ItemAdmin.save_model / save_related ----------

  /** An item as the admin edits it: its key, its status in memory and the status stored by the last save. */
  class Item {
    var pk: Option<int>
    var status: string
    var storedStatus: string

    constructor (pk: Option<int>, status: string)
      ensures this.pk == pk && this.status == status && storedStatus == status
    {
      this.pk := pk;
      this.status := status;
      storedStatus := status;
    }

    /**
     * `obj.save()`: unless the save raises `saveError`, the current status is stored and an
     * item without a key gets the one the database assigns (`assignedPk`).
     */
    method Save(saveError: Option<ValidationError>, assignedPk: int) returns (raised: Option<ValidationError>)
      modifies this
      ensures raised == saveError
      ensures status == old(status)
      ensures pk == if saveError.None? && old(pk).None? then Some(assignedPk) else old(pk)
      ensures storedStatus == if saveError.None? then status else old(storedStatus)
    {
      if saveError.None? {
        storedStatus := status;
        if pk.None? {
          pk := Some(assignedPk);
        }
      }
      raised := saveError;
    }
  }

  /** A value of `cleaned_data`: missing (`None`), a selected row, or a text. */
  datatype FormValue = NoValue | Row(pk: int) | Chars(text: string)

  /** `cleaned_data.get('product_variant')` is truthy: a model instance always is. */
  predicate HasVariant(cleaned: map<string, FormValue>) {
    "product_variant" in cleaned && cleaned["product_variant"] != NoValue
  }

  const VariantRequired := "Please select a product variant for the item."

  class ItemForm {
    const instance: Item
    var cleanedData: map<string, FormValue>

    constructor (instance: Item, cleanedData: map<string, FormValue>)
      ensures this.instance == instance && this.cleanedData == cleanedData
    {
      this.instance := instance;
      this.cleanedData := cleanedData;
    }

    /**
     * `ItemForm.clean`: without a product variant the form fails with an error keyed
     * `product_variant` and nothing is written; otherwise `status` is set to the saved
     * instance's status, or to `'draft'` for a new item.
     */
    method Clean() returns (r: Result<map<string, FormValue>, ValidationError>)
      modifies this
      ensures !HasVariant(old(cleanedData)) ==>
                r == Failure(WithDict([("product_variant", [VariantRequired])])) && cleanedData == old(cleanedData)
      ensures HasVariant(old(cleanedData)) ==>
                && cleanedData == old(cleanedData)["status" := Chars(if PkTruthy(instance.pk) then instance.status else "draft")]
                && r == Success(cleanedData)
    {
      if !HasVariant(cleanedData) {
        return Failure(WithDict([("product_variant", [VariantRequired])]));
      }
      if PkTruthy(instance.pk) {
        cleanedData := cleanedData["status" := Chars(instance.status)];
      } else {
        cleanedData := cleanedData["status" := Chars("draft")];
      }
      r := Success(cleanedData);
    }
  }

  /**
   * The status an item gets once its related rows are saved: `'active'` exactly when every
   * pricing tier of its variant has a pricing-data row for the item, `'draft'` otherwise.
   */
  function RelatedStatus(tiers: seq<int>, priced: set<int>): (s: string)
    ensures s == "active" || s == "draft"
    ensures s == "active" <==> (set t | t in tiers) <= priced
  {
    if forall i :: 0 <= i < |tiers| ==> tiers[i] in priced then "active" else "draft"
  }

  /** A variant without pricing tiers makes every item active. */
  lemma NoTiersMeansActive(priced: set<int>)
    ensures RelatedStatus([], priced) == "active"
  {
  }

  /** Adding pricing rows never turns an active item back into a draft. */
  lemma MorePricingKeepsActive(tiers: seq<int>, priced: set<int>, more: set<int>)
    requires priced <= more
    requires RelatedStatus(tiers, priced) == "active"
    ensures RelatedStatus(tiers, more) == "active"
  {
  }

  /**
   * `ItemAdmin.save_model`: an invalid form changes nothing and reports nothing; otherwise
   * the item is saved, and a `ValidationError` from the save goes through the handler.
   */
  method ItemAdminSaveModel(
    item: Item, log: MessageLog, formValid: bool, saveError: Option<ValidationError>, assignedPk: int)
    returns (raised: Option<Raised>)
    modifies item, log
    ensures !formValid ==> raised.None? && unchanged(item) && unchanged(log)
    ensures formValid ==>
              && item.status == old(item.status)
              && item.pk == (if saveError.None? && old(item.pk).None? then Some(assignedPk) else old(item.pk))
              && item.storedStatus == (if saveError.None? then item.status else old(item.storedStatus))
    ensures formValid && saveError.None? ==> raised.None? && log.messages == old(log.messages)
    ensures formValid && saveError.Some? ==>
              raised == Some(Outcome(saveError.value)) && log.messages == old(log.messages) + Reported(saveError.value)
  {
    if !formValid {
      return None;
    }
    var e := item.Save(saveError, assignedPk);
    raised := None;
    if e.Some? {
      var r := log.HandleValidationError(e.value);
      raised := Some(r);
    }
  }

  /**
   * `ItemAdmin.save_related`: an invalid form changes nothing. Otherwise the inline rows are
   * saved (`relatedError` is what that raises, if anything); then the status is computed
   * from the variant's pricing tiers (`tiers`) and the tiers the item has pricing data for
   * (`priced`), and the item is saved again. A raised error goes through the handler.
   */
  method ItemAdminSaveRelated(
    item: Item, log: MessageLog, formValid: bool, relatedError: Option<ValidationError>,
    tiers: seq<int>, priced: set<int>, saveError: Option<ValidationError>, assignedPk: int)
    returns (raised: Option<Raised>)
    modifies item, log
    ensures !formValid ==> raised.None? && unchanged(item) && unchanged(log)
    ensures formValid && relatedError.Some? ==>
              && raised == Some(Outcome(relatedError.value)) && unchanged(item)
              && log.messages == old(log.messages) + Reported(relatedError.value)
    ensures formValid && relatedError.None? ==>
              && item.status == RelatedStatus(tiers, priced)
              && item.pk == (if saveError.None? && old(item.pk).None? then Some(assignedPk) else old(item.pk))
              && item.storedStatus == (if saveError.None? then item.status else old(item.storedStatus))
    ensures formValid && relatedError.None? && saveError.None? ==> raised.None? && log.messages == old(log.messages)
    ensures formValid && relatedError.None? && saveError.Some? ==>
              raised == Some(Outcome(saveError.value)) && log.messages == old(log.messages) + Reported(saveError.value)
  {
    if !formValid {
      return None;
    }
    if relatedError.Some? {
      var r := log.HandleValidationError(relatedError.value);
      return Some(r);
    }
    if forall i :: 0 <= i < |tiers| ==> tiers[i] in priced {
      item.status := "active";
    } else {
      item.status := "draft";
    }
    var e := item.Save(saveError, assignedPk);
    raised := None;
    if e.Some? {
      var r := log.HandleValidationError(e.value);
      raised := Some(r);
    }
  }
}
