/**
 * The serializer selection of `ApplicationAttrsSerializerViewMixin`.
 *
 * The view reads the optional query parameters `type` and `category` and its
 * current action, checks them against the registry's type and category keys,
 * and builds a serializer whose `attrs` field is one attributes schema. The
 * model represents that synthesized serializer by the schema it binds.
 */
module ApplicationAttrsSerializerView {
  import opened Wrappers

  /** The attributes schema bound to the serializer's `attrs` field. */
  datatype AttrsSchema =
    | TypeSchema(appType: string)           // the registry's schema for one type
    | CategorySchema(category: string)      // the registry's schema for one category
    | NoPasswordSchema                      // the default schema that omits secrets

  /** Why the request was refused. */
  datatype SelectError =
    | InvalidType(typeOptions: seq<string>)          // the message lists the type options
    | InvalidCategory(categoryOptions: seq<string>)  // the message lists the category options
    | MissingType(action: string)                    // a write action without `type`

  /** The actions that create or change an application and so need a `type`. */
  const WriteActions: seq<string> :=
    ["create", "update", "partial_update", "bulk_update", "partial_bulk_update"]

  /** A view without an `action` attribute (a plain list view) acts as `list`. */
  const DefaultAction: string := "list"

  /** Python truthiness of an optional query parameter: absent and "" are both false. */
  predicate Given(param: Option<string>) {
    param.Some? && param.value != ""
  }

  /** The parameter passes its membership check: it is not given, or it is one of the options. */
  predicate Accepted(param: Option<string>, options: seq<string>) {
    !Given(param) || param.value in options
  }

  /** `getattr(self, 'action', 'list')`: `None` stands for a view without the attribute. */
  function ActionName(action: Option<string>): (name: string)
    ensures action.None? ==> name == DefaultAction
    ensures action.Some? ==> name == action.value
    ensures action.None? ==> !IsWriteAction(name)
  {
    action.GetOr(DefaultAction)
  }

  /** The action needs a `type` query parameter. */
  predicate IsWriteAction(name: string) {
    name in WriteActions
  }

  /**
   * Validates the request and resolves the attributes schema. The checks run
   * in a fixed order (type, then category, then the write-action rule), and on
   * success the most specific schema the request names wins.
   */
  function GetSerializerClass(
    appType: Option<string>,
    appCategory: Option<string>,
    action: Option<string>,
    typeOptions: seq<string>,
    categoryOptions: seq<string>
  ): (r: Result<AttrsSchema, SelectError>)
    // An unknown type is always the first error reported.
    ensures !Accepted(appType, typeOptions) ==> r == Failure(InvalidType(typeOptions))
    ensures r == Failure(InvalidType(typeOptions)) ==> !Accepted(appType, typeOptions)
    // An unknown category is reported only once the type has passed.
    ensures Accepted(appType, typeOptions) && !Accepted(appCategory, categoryOptions) ==>
              r == Failure(InvalidCategory(categoryOptions))
    ensures r.Failure? && r.error.InvalidCategory? ==>
              Accepted(appType, typeOptions) && !Accepted(appCategory, categoryOptions)
    // A write action without a type is refused, naming the action, once both checks passed.
    ensures r.Failure? && r.error.MissingType? <==>
              && Accepted(appType, typeOptions)
              && Accepted(appCategory, categoryOptions)
              && IsWriteAction(ActionName(action))
              && !Given(appType)
    ensures r.Failure? && r.error.MissingType? ==> r.error.action == ActionName(action)
    // Success exactly when every check passes.
    ensures r.Success? <==>
              && Accepted(appType, typeOptions)
              && Accepted(appCategory, categoryOptions)
              && (IsWriteAction(ActionName(action)) ==> Given(appType))
    // Resolution precedence: type, then category, then the no-password default.
    ensures r.Success? && Given(appType) ==>
              r.value == TypeSchema(appType.value) && appType.value in typeOptions
    ensures r.Success? && !Given(appType) && Given(appCategory) ==>
              r.value == CategorySchema(appCategory.value) && appCategory.value in categoryOptions
    ensures r.Success? && !Given(appType) && !Given(appCategory) ==> r.value == NoPasswordSchema
  {
    var name := ActionName(action);
    if Given(appType) && appType.value !in typeOptions then
      Failure(InvalidType(typeOptions))
    else if Given(appCategory) && appCategory.value !in categoryOptions then
      Failure(InvalidCategory(categoryOptions))
    else if IsWriteAction(name) && !Given(appType) then
      Failure(MissingType(name))
    else if Given(appType) then
      Success(TypeSchema(appType.value))
    else if Given(appCategory) then
      Success(CategorySchema(appCategory.value))
    else
      Success(NoPasswordSchema)
  }

  /** An empty query parameter behaves exactly like a missing one. */
  lemma EmptyParameterIsAbsent(
    appCategory: Option<string>, appType: Option<string>, action: Option<string>,
    typeOptions: seq<string>, categoryOptions: seq<string>
  )
    ensures GetSerializerClass(Some(""), appCategory, action, typeOptions, categoryOptions)
         == GetSerializerClass(None, appCategory, action, typeOptions, categoryOptions)
    ensures GetSerializerClass(appType, Some(""), action, typeOptions, categoryOptions)
         == GetSerializerClass(appType, None, action, typeOptions, categoryOptions)
  {
  }

  /** Neither the type nor the category check looks at the action. */
  lemma ValidationIgnoresAction(
    appType: Option<string>, appCategory: Option<string>, a1: Option<string>, a2: Option<string>,
    typeOptions: seq<string>, categoryOptions: seq<string>
  )
    requires !Accepted(appType, typeOptions) || !Accepted(appCategory, categoryOptions) || Given(appType)
    ensures GetSerializerClass(appType, appCategory, a1, typeOptions, categoryOptions)
         == GetSerializerClass(appType, appCategory, a2, typeOptions, categoryOptions)
  {
  }

  /**
   * Every action outside the write actions resolves like a view without an
   * action (the default `list`), and never gets `MissingType`; `action := None`
   * is the instance for a view without the attribute.
   */
  lemma ReadActionsAgree(
    appType: Option<string>, appCategory: Option<string>, action: Option<string>,
    typeOptions: seq<string>, categoryOptions: seq<string>
  )
    requires !IsWriteAction(ActionName(action))
    ensures GetSerializerClass(appType, appCategory, action, typeOptions, categoryOptions)
         == GetSerializerClass(appType, appCategory, None, typeOptions, categoryOptions)
    ensures var r := GetSerializerClass(appType, appCategory, action, typeOptions, categoryOptions);
            !(r.Failure? && r.error.MissingType?)
  {
  }

  /**
   * A write action with a registered type succeeds and gets that type's schema,
   * whenever the category passes its check.
   */
  lemma WriteActionWithValidTypeSucceeds(
    t: string, appCategory: Option<string>, action: string,
    typeOptions: seq<string>, categoryOptions: seq<string>
  )
    requires t != "" && t in typeOptions
    requires IsWriteAction(action)
    requires Accepted(appCategory, categoryOptions)
    ensures GetSerializerClass(Some(t), appCategory, Some(action), typeOptions, categoryOptions)
         == Success(TypeSchema(t))
  {
  }

  /** A write action without a type never succeeds. */
  lemma WriteActionWithoutTypeFails(
    appType: Option<string>, appCategory: Option<string>, action: string,
    typeOptions: seq<string>, categoryOptions: seq<string>
  )
    requires IsWriteAction(action) && !Given(appType)
    ensures GetSerializerClass(appType, appCategory, Some(action), typeOptions, categoryOptions).Failure?
    ensures Accepted(appCategory, categoryOptions) ==>
              (GetSerializerClass(appType, appCategory, Some(action), typeOptions, categoryOptions)
                 == Failure(MissingType(action)))
  {
  }
}
