/**
 * ParseValue and the coercing half of DigestProperty, which all three binders
 * share: the required-prefix check and strip, the comma split of array
 * values, and the per-type switch that hands a string to a .NET parser.
 *
 * The .NET parsers (Enum.Parse, Guid.Parse, Int32.Parse, Double.Parse,
 * DateTime.Parse, ...) are not modelled: they are one function parameter of
 * type Parsers that gives, for a parser and a possibly-null string, the
 * parsed value or the message of the exception the parser throws.
 */
module Coercion {
  import opened Wrappers
  import opened Text
  import opened Exceptions
  import opened Descriptors

  /** A bound value: a string, whatever a .NET parser produced, or the elements of an array. */
  datatype Value =
    | Str(s: string)
    | Parsed(typeName: string, literal: string)
    | Items(elements: seq<Value>)

  /** The parser ParseValue calls: Enum.Parse(type, value, true) for an enum, `<typeName>.Parse(value)` otherwise. */
  datatype LibraryParser = EnumParse(enumName: string) | TypeParse(typeName: string)

  /** The .NET parsers: the value, or the exception message, for a string that may be null. */
  type Parsers = (LibraryParser, Option<string>) -> Result<Value, string>

  /** The type names the Shared and DotNetStandard ParseValue switch hands to a parser. */
  const CurrentParsedTypes: set<string> := {"Guid", "Char", "Byte", "Int16", "Int32", "Int64", "Double", "DateTime"}

  /** The smaller list of the DotNetFramework ParseValue. */
  const FrameworkParsedTypes: set<string> := {"Guid", "Int32", "Double", "DateTime"}

  /**
   * ParseValue(type, value): enums by case-insensitive name, "String" trimmed
   * (Trim on null throws), the names in `parsedTypes` by their parser, and
   * any other type an "Unknown type" error.
   */
  function ParseValue(t: FieldType, value: Option<string>, parsedTypes: set<string>, parse: Parsers): (r: Result<Value, string>)
    ensures TypeName(t) == "String" && !t.EnumOf? && value.Some? ==> r == Success(Str(Trim(value.value)))
    ensures !t.EnumOf? && TypeName(t) != "String" && TypeName(t) !in parsedTypes ==> r == Failure("Unknown type: " + TypeName(t))
    ensures r.Success? && r.value.Str? && TypeName(t) == "String" && !t.EnumOf? ==> IsTrimmed(r.value.s)
  {
    if t.EnumOf? then parse(EnumParse(t.name), value)
    else if TypeName(t) == "String" then
      (if value.None? then Failure(NullReferenceMessage) else Success(Str(Trim(value.value))))
    else if TypeName(t) in parsedTypes then parse(TypeParse(TypeName(t)), value)
    else Failure("Unknown type: " + TypeName(t))
  }

  /**
   * The array loop of DigestProperty: every part parsed with the element type,
   * left to right, stopping at the first exception.
   */
  function ParseAll(element: FieldType, parts: seq<string>, parsedTypes: set<string>, parse: Parsers): (r: Result<seq<Value>, string>)
    ensures r.Success? ==> |r.value| == |parts|
    ensures r.Success? ==> forall i :: 0 <= i < |parts| ==> ParseValue(element, Some(parts[i]), parsedTypes, parse) == Success(r.value[i])
    ensures r.Failure? ==> exists i :: 0 <= i < |parts| && ParseValue(element, Some(parts[i]), parsedTypes, parse) == Failure(r.error)
  {
    if parts == [] then Success([])
    else
      var init := parts[..|parts| - 1];
      match ParseAll(element, init, parsedTypes, parse)
      case Failure(m) =>
        assert forall i :: 0 <= i < |init| ==> init[i] == parts[i];
        Failure(m)
      case Success(vs) =>
        match ParseValue(element, Some(parts[|parts| - 1]), parsedTypes, parse)
        case Failure(m) => Failure(m)
        case Success(v) =>
          assert forall i :: 0 <= i < |init| ==> init[i] == parts[i];
          Success(vs + [v])
  }

  /** The whole array fails with the message of its first unparsable part. */
  lemma {:induction false} ParseAllFirstFailure(element: FieldType, parts: seq<string>, parsedTypes: set<string>, parse: Parsers, k: nat)
    requires k < |parts| && ParseValue(element, Some(parts[k]), parsedTypes, parse).Failure?
    requires forall i :: 0 <= i < k ==> ParseValue(element, Some(parts[i]), parsedTypes, parse).Success?
    ensures ParseAll(element, parts, parsedTypes, parse) == Failure(ParseValue(element, Some(parts[k]), parsedTypes, parse).error)
  {
    if k < |parts| - 1 {
      var init := parts[..|parts| - 1];
      ParseAllFirstFailure(element, init, parsedTypes, parse, k);
    } else {
      var init := parts[..|parts| - 1];
      assert forall i :: 0 <= i < |init| ==> init[i] == parts[i];
    }
  }

  /**
   * The try block of DigestProperty once the name matched, without the prefix:
   * an array type splits the value on every ',' and parses each part with the
   * element type; any other type goes to ParseValue whole. A null array value
   * fails as Split on null does.
   */
  function CoerceSpec(t: FieldType, value: Option<string>, parsedTypes: set<string>, parse: Parsers): (r: Result<Value, string>)
    ensures t.ArrayOf? && value.Some? && r.Success? ==> r.value.Items? && |r.value.elements| == |Split(value.value, ',')|
    ensures t.ArrayOf? && value.None? ==> r == Failure(NullReferenceMessage)
  {
    if t.ArrayOf? then
      if value.None? then Failure(NullReferenceMessage)
      else
        match ParseAll(t.element, Split(value.value, ','), parsedTypes, parse)
        case Success(vs) => Success(Items(vs))
        case Failure(m) => Failure(m)
    else ParseValue(t, value, parsedTypes, parse)
  }

  /** What a matched DigestProperty does: the prefix was missing, or the value was coerced (or failed to be). */
  datatype Digest = PrefixMissing(prefix: string) | Coerced(result: Result<Value, string>)

  /** True when `prefix` is neither null nor empty, so that DigestProperty checks it. */
  predicate HasPrefix(prefix: Option<string>) {
    prefix.Some? && prefix.value != ""
  }

  /**
   * The body of DigestProperty after a name match: when a prefix is set the
   * value must start with it (ordinal) and loses it before coercion; a
   * missing prefix stops there. StartsWith on a null value throws inside the
   * try, so it is caught like a parse error.
   */
  function DigestMatched(t: FieldType, value: Option<string>, prefix: Option<string>, parsedTypes: set<string>, parse: Parsers): (d: Digest)
    ensures d.PrefixMissing? <==> HasPrefix(prefix) && value.Some? && !StartsWith(value.value, prefix.value)
    ensures d.PrefixMissing? ==> d.prefix == prefix.value
    ensures HasPrefix(prefix) && value.Some? && StartsWith(value.value, prefix.value) ==>
              d == Coerced(CoerceSpec(t, Some(value.value[|prefix.value|..]), parsedTypes, parse))
    ensures !HasPrefix(prefix) ==> d == Coerced(CoerceSpec(t, value, parsedTypes, parse))
  {
    if HasPrefix(prefix) then
      if value.None? then Coerced(Failure(NullReferenceMessage))
      else if !StartsWith(value.value, prefix.value) then PrefixMissing(prefix.value)
      else Coerced(CoerceSpec(t, Some(value.value[|prefix.value|..]), parsedTypes, parse))
    else Coerced(CoerceSpec(t, value, parsedTypes, parse))
  }

  /** The array loop: `array.SetValue(ParseValue(elementType, parts[i]), i)` for each i, in order. */
  method ParseParts(element: FieldType, parts: seq<string>, parsedTypes: set<string>, parse: Parsers) returns (r: Result<seq<Value>, string>)
    ensures r == ParseAll(element, parts, parsedTypes, parse)
  {
    var values: seq<Value> := [];
    var i := 0;
    while i < |parts|
      invariant 0 <= i <= |parts|
      invariant ParseAll(element, parts[..i], parsedTypes, parse) == Success(values)
    {
      assert parts[..i + 1][..i] == parts[..i];
      var v := ParseValue(element, Some(parts[i]), parsedTypes, parse);
      if v.Failure? {
        assert ParseAll(element, parts[..i + 1], parsedTypes, parse) == Failure(v.error);
        ParseAllFailureExtends(element, parts, i + 1, parsedTypes, parse);
        return Failure(v.error);
      }
      values := values + [v.value];
      i := i + 1;
    }
    assert parts[..i] == parts;
    return Success(values);
  }

  /** Once a prefix of the parts fails, every longer prefix fails with the same message. */
  lemma {:induction false} ParseAllFailureExtends(element: FieldType, parts: seq<string>, k: nat, parsedTypes: set<string>, parse: Parsers)
    requires k <= |parts| && ParseAll(element, parts[..k], parsedTypes, parse).Failure?
    ensures ParseAll(element, parts, parsedTypes, parse) == ParseAll(element, parts[..k], parsedTypes, parse)
    decreases |parts| - k
  {
    if k < |parts| {
      assert parts[..k + 1][..k] == parts[..k];
      ParseAllFailureExtends(element, parts, k + 1, parsedTypes, parse);
    } else {
      assert parts[..k] == parts;
    }
  }

  /** DigestProperty's try block, run: the prefix step, then ParseValue or the array loop. */
  method DigestValue(t: FieldType, value: Option<string>, prefix: Option<string>, parsedTypes: set<string>, parse: Parsers) returns (d: Digest)
    ensures d == DigestMatched(t, value, prefix, parsedTypes, parse)
  {
    var v := value;
    if HasPrefix(prefix) {
      if v.None? {
        return Coerced(Failure(NullReferenceMessage));
      }
      if !StartsWith(v.value, prefix.value) {
        return PrefixMissing(prefix.value);
      }
      v := Some(v.value[|prefix.value|..]);
    }
    if t.ArrayOf? {
      if v.None? {
        return Coerced(Failure(NullReferenceMessage));
      }
      var parsed := ParseParts(t.element, Split(v.value, ','), parsedTypes, parse);
      d := if parsed.Success? then Coerced(Success(Items(parsed.value))) else Coerced(Failure(parsed.error));
    } else {
      d := Coerced(ParseValue(t, v, parsedTypes, parse));
    }
  }

  /** An array value of n comma-separated parts binds to exactly n elements, each parsed from its part. */
  lemma ArrayBindsEveryPart(t: FieldType, value: string, parsedTypes: set<string>, parse: Parsers)
    requires t.ArrayOf? && CoerceSpec(t, Some(value), parsedTypes, parse).Success?
    ensures var r := CoerceSpec(t, Some(value), parsedTypes, parse).value;
            var parts := Split(value, ',');
            r.Items? && |r.elements| == |parts| &&
            forall i :: 0 <= i < |parts| ==> ParseValue(t.element, Some(parts[i]), parsedTypes, parse) == Success(r.elements[i])
  {
  }
}
