/**
 * The per-property binding descriptor of the shared library: the record of
 * FunctionParameterAttribute with its defaults, the property it decorates
 * (a reflection PropertyInfo reduced to name, type and attribute), and the
 * two lookups every binder goes through, GetParams and GetSourcePropertyName.
 */
module Descriptors {
  import opened Wrappers

  /** Where a property's value comes from (Swagger's ParameterIn). */
  datatype ParameterIn =
    | Query
    | Header
    | Body
      /** Any other member of the enumeration, by its name. */
    | OtherSource(name: string)

  /** Enum.ToString of a ParameterIn value. */
  function SourceText(source: ParameterIn): string {
    match source
    case Query => "Query"
    case Header => "Header"
    case Body => "Body"
    case OtherSource(n) => n
  }

  /**
   * The declared type of a property, as far as binding cares. `Primitive`
   * covers System.String and the value types (its name is Type.Name, for
   * example "Int32"); `ClassOf` is any other class, which the shared binder
   * treats as a nested parameter group.
   */
  datatype FieldType =
    | Primitive(name: string)
    | EnumOf(name: string)
    | ArrayOf(element: FieldType)
    | ClassOf(name: string)

  /** Type.Name, as it appears in binding error messages. */
  function TypeName(t: FieldType): string {
    match t
    case Primitive(n) => n
    case EnumOf(n) => n
    case ArrayOf(e) => TypeName(e) + "[]"
    case ClassOf(n) => n
  }

  /** The FunctionParameter attribute of the shared library. */
  datatype FunctionParameterAttribute = FunctionParameterAttribute(
    Source: ParameterIn,
    IsRequired: bool,
    Ignore: bool,
    RemoveRequiredPrefix: Option<string>,
    SourcePropertyName: Option<string>,
    SwaggerDescription: Option<string>,
    SwaggerSecurityParameter: bool)

  /** `new FunctionParameterAttribute()`: the auto-property initialisers, every string unset. */
  function DefaultAttribute(): (a: FunctionParameterAttribute)
    ensures a.Source == Query
    ensures !a.IsRequired && !a.Ignore && !a.SwaggerSecurityParameter
    ensures a.RemoveRequiredPrefix.None? && a.SourcePropertyName.None? && a.SwaggerDescription.None?
  {
    FunctionParameterAttribute(Query, false, false, None, None, None, false)
  }

  /** A public property of an argument class; `Attribute` is None when it is undecorated. */
  datatype Property = Property(Name: string, PropertyType: FieldType, Attribute: Option<FunctionParameterAttribute>)

  /** GetParams: the declared attribute, or a fresh default one; never null. */
  function GetParams(p: Property): (a: FunctionParameterAttribute)
    ensures p.Attribute.Some? ==> a == p.Attribute.value
    ensures p.Attribute.None? ==> a == DefaultAttribute()
  {
    p.Attribute.GetOr(DefaultAttribute())
  }

  /** GetSourcePropertyName: the declared SourcePropertyName whenever it is set (even ""), else the property's own name. */
  function GetSourcePropertyName(p: Property): (name: string)
    ensures GetParams(p).SourcePropertyName.Some? ==> name == GetParams(p).SourcePropertyName.value
    ensures GetParams(p).SourcePropertyName.None? ==> name == p.Name
  {
    match GetParams(p).SourcePropertyName
    case Some(n) => n
    case None => p.Name
  }

  /** An undecorated property binds under its own name, from the query, and is optional. */
  lemma UndecoratedDefaults(p: Property)
    requires p.Attribute.None?
    ensures GetSourcePropertyName(p) == p.Name
    ensures GetParams(p).Source == Query && !GetParams(p).IsRequired && !GetParams(p).Ignore
    ensures GetParams(p).RemoveRequiredPrefix.None?
  {
  }

  /** A declared SourcePropertyName replaces the property name, so the name itself is no longer used. */
  lemma RenameReplacesName(p: Property, rename: string)
    requires p.Attribute.Some? && p.Attribute.value.SourcePropertyName == Some(rename)
    ensures GetSourcePropertyName(p) == rename
  {
  }
}
