# Praco backend: validation and decision rules

A Dafny model of the small deterministic rules under the Django REST backend of the Praco
shop (a catalogue of categories, products, subcategories, table fields, product variants
and their data rows, plus a custom e-mail user model). The framework wiring around these
rules (admin registrations, routers, views, e-mail and JWT helpers) is left out. The model
covers these rules:

- **Admin form and save rules** (`ecommerce/admin.py`, module `EcommerceAdmin`):
  - the reserved-name and field-type checks of the table-field form;
  - the reserved-name permission gate of the table-field inline;
  - the "no inlines until saved" rule of the variant and item admins;
  - the item form's `draft`/kept status rule;
  - the `draft`/`active` rule of `ItemAdmin.save_related`;
  - the error handler shared by every `save_model`, which turns a `ValidationError`'s
    error dict into one admin message per error and then raises the error again.
- **Serializer validators** (`ecommerce/serializers.py`, module `EcommerceSerializers`):
  - the value-slot rule of variant data, keyed on the field type;
  - the `(subcategory, name)` duplicate check of table fields.
- **Account serializers** (`account/serializers.py`, module `AccountSerializers`):
  - e-mail lower-casing;
  - the 8 to 20 character password fields;
  - password reset and password change, each with its ordered checks and its one password
    update;
  - the existence check of e-mail authentication;
  - the PATCH field subset of the profile serializer.
- **User records** (`account/models.py`, module `AccountModels`):
  - `create_user` and `create_superuser` on a user table held by the `UserManager` class;
  - `get_full_name`;
  - the permission predicates, which all reduce to `is_admin`.
- **Model rendering and uniqueness** (`ecommerce/models.py`, module `EcommerceModels`):
  - the `__str__` methods, including the `or` fallback chain of `ProductVariantData`;
  - the `FIELD_TYPES` choices;
  - the three `unique_together` constraints, as an insert that preserves them.
- **Permission selection** (`ecommerce/views.py`, module `EcommerceViews`): `get_permissions`.
  It is identical in all eight viewsets, so it is modelled once.

The helper modules are:

- `Wrappers`: `Option` and `Result`.
- `Text`, which states Python's string behaviour the rules rely on:
  - `str.strip` with Python's whitespace set;
  - `str.lower` on ASCII letters;
  - Python truthiness of an optional string.

The modelling choices are:

- **Abstract library pieces.**
  - A password is stored symbolically, as `Hashed(plain)` or `Unusable`, and `check_password`
    accepts exactly the plain text it was set from.
  - `normalize_email` is a function value held by the manager.
  - `TableField.RESERVED_NAMES` is not defined in `ecommerce/models.py`, so it is a parameter.
- **Absent values.** A missing request key or form value is `None`. A primary key is truthy
  when it is present and non-zero.
- **The database.** Stored rows are a `set` (for the ecommerce tables) or a `map` from e-mail
  to user.
- **Exceptions.** A `ValidationError`, `ValueError` or `IntegrityError` is a `Failure`.
  A raised error that the caller passes on is returned as an out-parameter.
- **Admin objects.** Django passes the parent object (the variant) to the inline permission
  hooks. The model takes the object's name as an `Option<string>`.
- **The admin's supporting models.** `ecommerce/admin.py` was written against models that
  `ecommerce/models.py` does not define. The model rests on these assumptions:
  - `Item`, `PricingTier` and `PricingTierData` are not defined there at all. The model keeps
    only what the admin code reads of them: an item's key and status, the ids of its
    variant's pricing tiers, and the tier ids it has pricing data for.
  - The admin's `ProductVariant` is not the one at ecommerce/models.py:83-94. That one has no
    `name`, so the inline gate would fail with `AttributeError` on it. The model assumes the
    object passed to the gate has a name.
  - The admin's `TableField.FIELD_TYPES` is assumed to be the one at ecommerce/models.py:63-67.
    The text of `EcommerceAdmin.FieldTypeMessage` and the keys `CleanFieldType` accepts rest
    on that assumption.
- **Validation errors in the admin.** A `ValidationError` is either built from a dict, and
  so has an `error_dict`, or built from a message or a list, and so has none. The admin
  handler reads `error_dict` on every caught error. For an error without one it raises
  `AttributeError`, emits no message and does not raise the original error again.

## Model

| member | source | states |
|---|---|---|
| EcommerceAdmin.CleanName | ecommerce/admin.py:163-167 | A name whose lower-cased form is reserved is refused, with the message naming it. Any other name, and an empty or missing one, comes back unchanged. |
| EcommerceAdmin.CleanNameIgnoresCase | ecommerce/admin.py:165 | Two non-empty names that lower-case to the same text are accepted or refused together. |
| EcommerceAdmin.FieldTypeMessage | ecommerce/admin.py:171-173 | The refusal message lists the three field-type keys, joined by commas, in declaration order. |
| EcommerceAdmin.CleanFieldType | ecommerce/admin.py:169-174 | An empty or missing type passes, and so does one of the `FIELD_TYPES` keys. Every other non-empty value is refused; accepted values come back unchanged. |
| EcommerceAdmin.InlinePermission | ecommerce/admin.py:188-196 | Change and delete are each denied exactly when the object's name is in the reserved set, compared exactly. Otherwise the base hook decides. |
| EcommerceAdmin.PermissionGateIsCaseSensitive | ecommerce/admin.py:188-196 | With `price` reserved, the form refuses the name `Price`, while the gate still lets an object named `Price` be changed and deleted. |
| EcommerceAdmin.CaseVariantPassesGate | ecommerce/admin.py:163-196 | Every name that is reserved only once lower-cased is refused by the form, while the gate leaves it to the base hook. |
| EcommerceAdmin.LowerCaseReservedNameRefusedByBoth | ecommerce/admin.py:163-196 | A reserved name written in lower case is refused by the form and is neither changeable nor deletable. |
| EcommerceAdmin.VariantInlines | ecommerce/admin.py:229-232 | No inlines for an unsaved variant; pricing tiers and table fields, in that order, once it is saved. |
| EcommerceAdmin.ItemInlines | ecommerce/admin.py:424-427 | No inlines for an unsaved item; pricing data, images and item data, in that order, once it is saved. |
| EcommerceAdmin.TableFieldInlineForm | ecommerce/admin.py:183-186 | An unsaved parent gets the plain model form; a saved one keeps the inline's table-field form. |
| EcommerceAdmin.ShownTableFieldInlineChecksNames | ecommerce/admin.py:183-186 | Whenever the table-field inline is shown (a saved parent), its form applies the reserved-name check. |
| EcommerceAdmin.FormatErrorsLength | ecommerce/admin.py:37-39 | The handler emits exactly one message per error of the dict. |
| EcommerceAdmin.FormatErrorsAt | ecommerce/admin.py:37-39 | The message for error `j` of entry `i` sits after all messages of the earlier entries and earlier errors. It is `field: error`, or the bare error for `__all__`. |
| EcommerceAdmin.FormWideErrorsReportedBare | ecommerce/admin.py:39 | Errors under `__all__` are reported without a field prefix. |
| EcommerceAdmin.MessageLog.Error | ecommerce/admin.py:39 | `messages.error` appends one message and changes nothing else. |
| EcommerceAdmin.MessageLog.ReportValidationError | ecommerce/admin.py:37-39 | The nested loops append exactly the formatted messages of the error dict, in order, after the messages already there. |
| EcommerceAdmin.MessageLog.HandleValidationError | ecommerce/admin.py:36-40 | An error with a dict is reported in full and raised again. An error without one emits no message and ends in `AttributeError`. |
| EcommerceAdmin.SaveModel | ecommerce/admin.py:33-40 | A successful save reports nothing and raises nothing. A failing save with an error dict reports its messages and raises the same error again. A failing save whose error has no dict emits nothing and ends in `AttributeError`. |
| EcommerceAdmin.Item.Save | ecommerce/admin.py:433 | A save that does not raise stores the current status and gives a keyless item the key the database assigns. A save that raises changes neither. The status in memory is kept either way. |
| EcommerceAdmin.ItemForm.Clean | ecommerce/admin.py:341-352 | No product variant: a dict-shaped error keyed `product_variant`, with nothing written. Otherwise `status` is the saved item's status, or `draft` for a new item. |
| EcommerceAdmin.RelatedStatus | ecommerce/admin.py:446-451 | The status is `active` exactly when every pricing tier of the variant has a pricing-data row for the item, and `draft` otherwise. |
| EcommerceAdmin.NoTiersMeansActive | ecommerce/admin.py:448 | A variant without pricing tiers yields `active`. |
| EcommerceAdmin.MorePricingKeepsActive | ecommerce/admin.py:448 | Adding pricing-data rows never turns an active item into a draft. |
| EcommerceAdmin.ItemAdminSaveModel | ecommerce/admin.py:429-438 | An invalid form changes nothing and raises nothing. Otherwise the item is saved, getting its first key if it had none. A save error then goes through the handler: reported and raised again, or `AttributeError` for an error without a dict. |
| EcommerceAdmin.ItemAdminSaveRelated | ecommerce/admin.py:440-457 | An invalid form changes nothing. An error from saving the inlines goes through the handler with the item untouched. Otherwise the status becomes the `RelatedStatus` of the variant's tiers and the item is saved again, and a save error goes through the handler. |
| EcommerceSerializers.ValidateTableField | ecommerce/serializers.py:38-44 | Refused, with the duplicate message, exactly when a stored row has the same subcategory and exactly the same name. Otherwise the data comes back unchanged. |
| EcommerceSerializers.UpdateKeepingKeyRejected | ecommerce/serializers.py:38-44 | As written, an update of a stored row that keeps its subcategory and name is refused, although storing it would keep the table unique. |
| EcommerceSerializers.ReplaceRow | ecommerce/serializers.py:38-44 | Saving an update puts the new row in place of the stored row with its id. Every row with another id stays, and nothing else is added. |
| EcommerceSerializers.ValidateTableFieldFor | ecommerce/serializers.py:39-43 | The corrected check: refused exactly when a row other than the one being updated has the same subcategory and name. |
| EcommerceSerializers.CorrectedAgreesOnCreate | ecommerce/serializers.py:38-44 | On create the corrected check and the check as written agree. |
| EcommerceSerializers.AcceptedCreateInserts | ecommerce/models.py:74 | A created row that passes the check inserts under the `(subcategory, name)` constraint and keeps the table unique. |
| EcommerceSerializers.CorrectedUpdateKeepsUnique | ecommerce/models.py:74 | An update the corrected check accepts keeps the table unique once stored. |
| EcommerceSerializers.CorrectedAcceptsUnchangedKey | ecommerce/serializers.py:38-44 | The corrected check accepts an update that keeps the row's own subcategory and name. |
| EcommerceSerializers.ValidateVariantData | ecommerce/serializers.py:69-85 | Each known type refuses exactly when a slot not its own is set: text refuses a number or image, number refuses a text or image, image refuses a text or number. Each refusal has its own message, an unknown type passes, a missing field raises, and success returns the data unchanged. |
| EcommerceSerializers.EmptySlotsPass | ecommerce/serializers.py:75-85 | The matching slot is never required: data with all three slots empty passes for any field. |
| EcommerceSerializers.ValidatedRowShowsItsSlot | ecommerce/serializers.py:75-85 | A row that passed validation for a known type renders only its own kind of value, or the dash. |
| AccountSerializers.ValidateEmail | account/serializers.py:14-15 | Every capital becomes its own small letter, and every other character is kept. The length stays the same and no capital is left. The same method appears at lines 24-25 and 84-85. |
| AccountSerializers.ValidateEmailIdempotent | account/serializers.py:84-85 | Lower-casing twice equals lower-casing once. |
| AccountSerializers.PasswordField | account/serializers.py:69-82 | A missing value gets the field's required message and a blank one its blank message. The stripped value is accepted exactly when it has 8 to 20 characters; the same field appears at lines 11 and 110-123. |
| AccountSerializers.Reset | account/serializers.py:87-101 | Mismatched passwords are refused before the lookup, and an unknown e-mail next. On success only that user's password changes, to the new one. |
| AccountSerializers.ResetOpensWithNewPassword | account/serializers.py:99-100 | After a reset, the new password and no other checks against the stored one. |
| AccountSerializers.ResetPassword | account/serializers.py:87-101 | The user table afterwards is `Reset`'s, and the attributes are returned unchanged. A refusal leaves the table as it was. |
| AccountSerializers.ChangeRefusal | account/serializers.py:131-138 | The first failing check decides: wrong current password, then mismatch, then new equals stored. None fails exactly when all three pass. |
| AccountSerializers.ChangeAcceptedIff | account/serializers.py:131-138 | A change goes through exactly when the current password is right and the new one is confirmed and differs from it. |
| AccountSerializers.ChangePassword | account/serializers.py:125-142 | Any refusal leaves the stored password untouched. Success sets it to the new password and changes nothing else in the table. |
| AccountSerializers.AuthenticateEmail | account/serializers.py:54-61 | Refused exactly when no user is stored under the lower-cased e-mail. Otherwise the attributes come back as given. |
| AccountSerializers.AuthenticateKeepsCase | account/serializers.py:54-61 | An address with capitals is accepted for its lower-cased account and returned with its capitals. |
| AccountSerializers.KeepUpdatable | account/serializers.py:40-43 | The fields kept are exactly those given and updatable. A single field is kept exactly when it is updatable, and a list of only updatable fields is kept whole. |
| AccountSerializers.KeepUpdatableKeepsOrder | account/serializers.py:40-43 | Filtering two runs of fields in sequence gives the two filtered runs in sequence, so the kept fields stay in their order. |
| AccountSerializers.GetFields | account/serializers.py:36-44 | A PATCH keeps exactly the given updatable fields; any other method keeps all. The result is always a subset of the fields given. |
| AccountSerializers.ProfilePatchFields | account/serializers.py:27-44 | On the profile serializer a PATCH sees `first_name`, `last_name` and `company_name`, and a PUT every declared field. |
| AccountModels.MakePassword | account/models.py:21 | A set password checks exactly against its plain text; `None` makes the password unusable. |
| AccountModels.HasPerm | account/models.py:65-67 | Granted exactly when the user is an admin. |
| AccountModels.HasModulePerms | account/models.py:69-71 | Granted exactly when the user is an admin. |
| AccountModels.IsStaff | account/models.py:77-80 | True exactly when the user is an admin. |
| AccountModels.PermissionsAgree | account/models.py:65-80 | The three predicates agree whatever permission, object or app is asked about. |
| AccountModels.FullName | account/models.py:73-75 | The full name is `first + " " + last` with whitespace cut from both ends, and no whitespace is left at either end. |
| Text.StripCutsWhitespace | account/models.py:75 | `strip()` returns a slice of its input with only whitespace before and after it. |
| AccountModels.FullNameOfCleanNames | account/models.py:73-75 | For non-empty names without outer whitespace the full name is `first last`. |
| AccountModels.NewUser | account/models.py:9-20 | A missing email fails first, then a missing first or last name. Otherwise the user has the normalised email, the given names, company and marketing flag, is active and not an admin, and has the given password set. |
| AccountModels.MissingEmailDecidesFirst | account/models.py:9-12 | Without an e-mail the names are never looked at. |
| AccountModels.UserManager.CreateUser | account/models.py:5-23 | Returns `NewUser`'s record, saved under its e-mail. A taken e-mail fails, any failure leaves the table unchanged, and the table stays keyed by e-mail. |
| AccountModels.UserManager.CreateSuperuser | account/models.py:25-40 | The `create_user` record with `is_admin` and `is_active` set, saved again. A failure of `create_user` is passed on unchanged. |
| AccountModels.CreateUserDefaults | account/models.py:5 | With the defaults the user has no company, no marketing consent and an unusable password. The user is active and not an admin (the column defaults at lines 52-53). |
| EcommerceModels.FieldTypeKeys | ecommerce/models.py:63-67 | The field-type keys are `text`, `number`, `image`, in that order. |
| EcommerceModels.FieldTypeChoices | ecommerce/models.py:63-70 | A field type is valid exactly when it is one of the three keys. |
| EcommerceModels.CategoryStr | ecommerce/models.py:16-17 | A category renders as its name. |
| EcommerceModels.CategoryImageStr | ecommerce/models.py:29-30 | A category image renders as `Image for ` and the category's name. |
| EcommerceModels.ProductStr | ecommerce/models.py:45-46 | A product renders as its category's name and its own, separated by ` - `. |
| EcommerceModels.SubCategoryStr | ecommerce/models.py:59-60 | A subcategory renders as its product's name and its own, separated by ` - `. |
| EcommerceModels.TableFieldStr | ecommerce/models.py:80-81 | A table field renders as the subcategory name, ` - `, its name, and its type in parentheses. |
| EcommerceModels.ProductVariantStr | ecommerce/models.py:93-94 | A variant renders as `Variant for ` and its subcategory's name. |
| EcommerceModels.ShownValue | ecommerce/models.py:111-114 | The image URL is shown exactly for an image field with an image. Otherwise the text is shown if non-empty, else the number if non-zero, else the dash. |
| EcommerceModels.ProductVariantDataStr | ecommerce/models.py:111-114 | A data row renders as the variant, ` - `, the field name, `: ` and the shown value. |
| EcommerceModels.ImageShownOnlyForImageFields | ecommerce/models.py:112-113 | A URL is shown only for a field of type `image`. |
| EcommerceModels.ZeroNumberShowsDash | ecommerce/models.py:114 | On a non-image field, empty or missing text with the number 0 shows the dash, so the rendering ends in `-`. |
| EcommerceModels.Insert | ecommerce/models.py:74 | An insert fails exactly when a stored row has the new row's key. Otherwise it adds the row and keeps the rows unique by that key. |
| EcommerceModels.InsertTableField | ecommerce/models.py:74 | A new table field is refused exactly when a stored one has its subcategory and name. Otherwise the table becomes the stored rows plus the new one, and `(subcategory, name)` stays unique. |
| EcommerceModels.InsertVariantData | ecommerce/models.py:105 | A new data row is refused exactly when a stored one has its variant and field. Otherwise the table becomes the stored rows plus the new one, and `(variant, field)` stays unique. |
| EcommerceModels.InsertExclusivePrice | ecommerce/models.py:123 | A new exclusive price is refused exactly when a stored one has its user and product. Otherwise the table becomes the stored rows plus the new one, and `(user, product)` stays unique. |
| EcommerceViews.GetPermissions | ecommerce/views.py:14-17 | Exactly one permission per action: admin exactly for `create`, `update`, `partial_update` and `destroy`, and a logged-in user otherwise. |
| EcommerceViews.AccessByAction | ecommerce/views.py:14-17 | Only admins may write, any logged-in user may read, and anonymous requests are refused. |
| EcommerceViews.ReadActions | ecommerce/views.py:17 | `list`, `retrieve` and a missing action require only a logged-in user. |

## Left out

- `account/views.py` and `administration/views.py` are not part of this model. They are
  request plumbing, e-mail sending and random verification codes, which are I/O and randomness.
- `backend_praco/utils.py` (SMTP and JWT through foreign libraries) is not part of this model.
  The same holds for `backend_praco/renderers.py`, which depends on Python's `str()` of
  framework error objects and on JSON encoding.
- `account/auth.py` and `account/admin.py` are not part of this model. They are an ORM lookup
  with the library hasher, and admin configuration.
- The administration app, the URL confs and the migration are declarative and have no rules.
  The admin `fieldsets`, `list_display` and `Media` are configuration too.
- The client-side dependent-dropdown script that the variant admin loads is not part of this
  model. It is browser code.
- Password hashing is symbolic. Salts, algorithms and timing are not modelled; only the
  check/set contract is.
- `normalize_email` is an uninterpreted function of the manager.
- AccountSerializers.ValidateEmail: lower-cases ASCII letters only. Python's `str.lower` also
  maps non-ASCII capitals, so for such addresses the model is narrower than the code.
- AccountSerializers.AuthenticateEmail: looks the address up after the same ASCII-only
  lower-casing, so an address with non-ASCII capitals is not covered.
- EcommerceAdmin.CleanName: compares with the same ASCII lower-casing, so a reserved name
  spelt with non-ASCII capitals is not covered.
- The model's error text stands for `str(error)` of each entry of `error_dict`. Every entry
  is itself a `ValidationError`, so Django renders each message, prefixed or bare, as a
  one-element list such as `['text']`. That rendering is not modelled.
- `UserExclusivePrice.__str__` reads `user.username`, which the user model does not have. It
  always fails, so it is not modelled.
- The serializer for exclusive prices uses `User`, which `ecommerce/serializers.py` never
  imports. It is not modelled.
- The keyword mismatch between `send_email`'s callers and its signature is in code outside
  this model.
- The framework's own `UniqueTogetherValidator` is left out. Django REST framework adds it to
  a model serializer and it runs before `validate`; the finding below concerns the
  hand-written check only.
- The e-mail format check of `EmailField` is left out, and so are the 255-character limits
  of the e-mail and current-password fields. Only the 8-to-20 password bounds are modelled.
- AccountSerializers.PasswordField: omits the two refusals every `CharField` adds, of a NUL
  character and of a surrogate code point. Passwords containing them are accepted by the
  model and refused by the code.
- `super().clean()`, `form.is_valid()` and `super().save_related()` are framework code. Their
  outcomes (the cleaned data, a boolean, a raised error) are parameters.
- `ecommerce/admin.py` has fifteen other handlers: twelve `save_model` and three
  `save_related`, besides lines 33-40 and the item admin's two. Each repeats the handler of
  lines 33-40 around one call (`obj.save()` or `super().save_related(...)`), and
  `EcommerceAdmin.SaveModel` covers them.
- `PricingTierInline.get_formset` swaps in the plain model form, which is already that
  inline's form, so it has no behaviour to model.
- `UserRegistrationSerializer.create` forwards the validated data to `create_user`, which is
  modelled as `AccountModels.UserManager.CreateUser`.
- The timestamps (`created_at`, `updated_at`) and the other model columns the rules never read
  are not modelled.
- A JSON `null` sent for a field is not separated from a missing key. Both are `None`.

## Findings

| source | as written | input that shows it | evidently intended | confidence | as-written member | corrected member |
|---|---|---|---|---|---|---|
| ecommerce/serializers.py:38-44 | The duplicate query also matches the row being updated. | A PUT of a stored table field that keeps its subcategory and name and changes only `field_type`. | Leave the instance being updated out of the query, so `unique_together` is enforced without blocking such updates. | medium; not executed | EcommerceSerializers.UpdateKeepingKeyRejected | EcommerceSerializers.ValidateTableFieldFor |
