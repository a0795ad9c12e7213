/**
 * FunctionParameterExtensions.ReadParameters<T> of the DotNetFramework
 * library: the oldest binder. Every property is a query property unless it
 * carries FunctionParameterFromHeader, FunctionParameterRequired marks it
 * required, a property answers to its own name or to that name with "__"
 * read as "$", and ParseValue knows fewer types. Nothing in the walk or the
 * matching throws; only a header without values does.
 */
module FrameworkBinder {
  import opened Wrappers
  import opened Text
  import opened Seqs
  import opened Exceptions
  import opened Descriptors
  import opened Coercion
  import opened QueryString
  import opened RequestTranslation

  /** FunctionParameterFromHeaderAttribute: the header a property comes from may need a prefix. */
  datatype FromHeaderAttribute = FromHeaderAttribute(RemoveRequiredPrefix: Option<string>)

  /** A public property: name, type, whether it carries FunctionParameterRequired, and its FromHeader attribute. */
  datatype FrameworkProperty = FrameworkProperty(Name: string, PropertyType: FieldType, Required: bool, FromHeader: Option<FromHeaderAttribute>)

  /** The lists of one run and the object being filled. */
  datatype FrameworkBinding = FrameworkBinding(
    uriProperties: seq<FrameworkProperty>,
    headerProperties: seq<FrameworkProperty>,
    requiredProperties: seq<FrameworkProperty>,
    errors: seq<string>,
    output: map<string, Value>)

  /** The state at the start: every list empty, nothing bound. */
  const Empty := FrameworkBinding([], [], [], [], map[])

  // ---------------------------------------------------------------- messages

  function Label(p: FrameworkProperty): string {
    "Error on (" + TypeName(p.PropertyType) + ") property '" + p.Name + "'"
  }

  function CoercionError(p: FrameworkProperty, message: string): string {
    Label(p) + ": " + message
  }

  function PrefixError(p: FrameworkProperty, prefix: string): string {
    Label(p) + ": Required prefix '" + prefix + "' was missing."
  }

  function UnknownLine(pair: QueryPair): string {
    "Unknown uri parameter '" + pair.Key + "'"
  }

  function MissingLine(p: FrameworkProperty): string {
    "Missing required parameter '" + p.Name + "'"
  }

  // ---------------------------------------------------------------- the walk

  /** One property: added to the query list, to the required list when required, and moved to the header list when from a header. */
  function WalkStep(b: FrameworkBinding, p: FrameworkProperty): FrameworkBinding {
    var c := b.(uriProperties := b.uriProperties + [p]);
    var d := if p.Required then c.(requiredProperties := c.requiredProperties + [p]) else c;
    if p.FromHeader.Some? then d.(uriProperties := RemoveFirst(d.uriProperties, p), headerProperties := d.headerProperties + [p])
    else d
  }

  /** The walk over GetProperties(). */
  function Walk(b: FrameworkBinding, props: seq<FrameworkProperty>): (r: FrameworkBinding)
    ensures r.errors == b.errors && r.output == b.output
    decreases |props|
  {
    if props == [] then b else Walk(WalkStep(b, props[0]), props[1..])
  }

  // ---------------------------------------------------------------- DigestProperty

  /** The property's lower-cased name with every "__" replaced by "$". */
  function DollarName(p: FrameworkProperty): string {
    ReplaceAll(Lower(p.Name), "__", "$")
  }

  /** DigestProperty's name test: the key, lower-cased, is the lower-cased name or its dollar form. */
  predicate Matches(p: FrameworkProperty, key: string) {
    Lower(p.Name) == Lower(key) || DollarName(p) == Lower(key)
  }

  /** The prefix the header loop passes: the FromHeader attribute's RemoveRequiredPrefix. */
  function HeaderPrefix(p: FrameworkProperty): Option<string> {
    if p.FromHeader.None? then None else p.FromHeader.value.RemoveRequiredPrefix
  }

  /**
   * DigestProperty once the name matched, with the DotNetFramework
   * ParseValue: a missing prefix adds its error and returns at once;
   * otherwise the value is bound or its error recorded, and in both cases the
   * property leaves the required list.
   */
  function DigestSpec(b: FrameworkBinding, p: FrameworkProperty, value: Option<string>, prefix: Option<string>, parse: Parsers): FrameworkBinding {
    match DigestMatched(p.PropertyType, value, prefix, FrameworkParsedTypes, parse)
    case PrefixMissing(px) => b.(errors := b.errors + [PrefixError(p, px)])
    case Coerced(Success(v)) =>
      b.(output := b.output[p.Name := v], requiredProperties := RemoveFirst(b.requiredProperties, p))
    case Coerced(Failure(m)) =>
      b.(errors := b.errors + [CoercionError(p, m)], requiredProperties := RemoveFirst(b.requiredProperties, p))
  }

  /** The index of the first property that answers to `key`, if any. */
  function FirstMatch(props: seq<FrameworkProperty>, key: string): (r: Option<nat>)
    ensures r.Some? ==> r.value < |props| && Matches(props[r.value], key)
    ensures r.Some? ==> forall j :: 0 <= j < r.value ==> !Matches(props[j], key)
    ensures r.None? ==> forall j :: 0 <= j < |props| ==> !Matches(props[j], key)
  {
    FirstIndex(props, p => Matches(p, key))
  }

  // ---------------------------------------------------------------- the loops

  /** One query pair: the first query property that answers digests it; none adds the unknown line at once. */
  function QueryStep(b: FrameworkBinding, pair: QueryPair, parse: Parsers): FrameworkBinding {
    match FirstMatch(b.uriProperties, pair.Key)
    case None => b.(errors := b.errors + [UnknownLine(pair)])
    case Some(i) => DigestSpec(b, b.uriProperties[i], pair.Value, None, parse)
  }

  /** The query loop, pairs in order. */
  function QueryPhase(b: FrameworkBinding, pairs: seq<QueryPair>, parse: Parsers): (r: FrameworkBinding)
    ensures r.uriProperties == b.uriProperties && r.headerProperties == b.headerProperties
    decreases |pairs|
  {
    if pairs == [] then b else QueryPhase(QueryStep(b, pairs[0], parse), pairs[1..], parse)
  }

  /**
   * One header: while there are header properties its first value is read
   * (none throws IndexOutOfRangeException); the first header property that
   * answers digests it with its prefix and stays in the list.
   */
  function HeaderStep(b: FrameworkBinding, h: Header, parse: Parsers): Result<FrameworkBinding, Exception> {
    if b.headerProperties == [] then Success(b)
    else if h.Value == [] then Failure(Thrown("IndexOutOfRangeException", IndexOutOfRangeMessage))
    else
      match FirstMatch(b.headerProperties, h.Key)
      case None => Success(b)
      case Some(i) =>
        var p := b.headerProperties[i];
        Success(DigestSpec(b, p, Some(h.Value[0]), HeaderPrefix(p), parse))
  }

  /** The header loop, headers in order, stopping at the first exception. */
  function HeaderPhase(b: FrameworkBinding, headers: seq<Header>, parse: Parsers): (r: Result<FrameworkBinding, Exception>)
    ensures r.Success? ==> r.value.uriProperties == b.uriProperties && r.value.headerProperties == b.headerProperties
    decreases |headers|
  {
    if headers == [] then Success(b)
    else
      match HeaderStep(b, headers[0], parse)
      case Failure(e) => Failure(e)
      case Success(c) => HeaderPhase(c, headers[1..], parse)
  }

  /** The collected errors, then one line per unmet requirement. */
  function ReportLines(b: FrameworkBinding): seq<string> {
    b.errors + Map(b.requiredProperties, MissingLine)
  }

  /** The end of ReadParameters<T>: the object, or every line in one BadParameter exception. */
  function Finish(b: FrameworkBinding): Result<map<string, Value>, Exception> {
    var lines := ReportLines(b);
    if |lines| > 0 then Failure(ServiceOperationException(BadParameter, Join("\r\n", lines)))
    else Success(b.output)
  }

  /** The walk, the query loop and the header loop. */
  function BindSpec(props: seq<FrameworkProperty>, pairs: seq<QueryPair>, headers: seq<Header>, parse: Parsers): Result<FrameworkBinding, Exception> {
    HeaderPhase(QueryPhase(Walk(Empty, props), pairs, parse), headers, parse)
  }

  /** ReadParameters<T>: bind the request's query pairs and headers, then report. */
  function ReadParametersSpec(props: seq<FrameworkProperty>, request: HttpRequestMessage, unescape: string -> string, parse: Parsers)
    : Result<map<string, Value>, Exception>
  {
    match BindSpec(props, QueryPairs(request.RequestUri.Query, unescape), request.Headers, parse)
    case Failure(e) => Failure(e)
    case Success(b) => Finish(b)
  }

  // ---------------------------------------------------------------- the run, as the source performs it

  /** The local function DigestProperty: false when the names differ (nothing changes), otherwise DigestSpec. */
  method DigestProperty(b: FrameworkBinding, p: FrameworkProperty, key: string, value: Option<string>, prefix: Option<string>, parse: Parsers)
    returns (matched: bool, r: FrameworkBinding)
    ensures matched <==> Matches(p, key)
    ensures matched ==> r == DigestSpec(b, p, value, prefix, parse)
    ensures !matched ==> r == b
  {
    r := b;
    var propertyName := Lower(p.Name);
    var dollarName := ReplaceAll(Lower(p.Name), "__", "$");
    var parameterName := Lower(key);
    if propertyName != parameterName && dollarName != parameterName {
      return false, r;
    }
    var d := DigestValue(p.PropertyType, value, prefix, FrameworkParsedTypes, parse);
    match d {
      case PrefixMissing(px) =>
        r := r.(errors := r.errors + [PrefixError(p, px)]);
        return true, r;
      case Coerced(Success(v)) =>
        r := r.(output := r.output[p.Name := v]);
      case Coerced(Failure(m)) =>
        r := r.(errors := r.errors + [CoercionError(p, m)]);
    }
    if p in r.requiredProperties {
      r := r.(requiredProperties := RemoveFirst(r.requiredProperties, p));
    }
    matched := true;
  }

  /** The walk: every property into the query list, then into the required list and over to the header list as its attributes say. */
  method WalkProperties(props: seq<FrameworkProperty>) returns (b: FrameworkBinding)
    ensures b == Walk(Empty, props)
  {
    b := Empty;
    var i := 0;
    while i < |props|
      invariant 0 <= i <= |props|
      invariant Walk(b, props[i..]) == Walk(Empty, props)
    {
      assert props[i..][0] == props[i] && props[i..][1..] == props[i + 1..];
      var p := props[i];
      b := b.(uriProperties := b.uriProperties + [p]);
      if p.Required {
        b := b.(requiredProperties := b.requiredProperties + [p]);
      }
      if p.FromHeader.Some? {
        b := b.(uriProperties := RemoveFirst(b.uriProperties, p));
        b := b.(headerProperties := b.headerProperties + [p]);
      }
      i := i + 1;
    }
  }

  /** One query pair: the query properties in order until one answers; none adds the unknown line. */
  method ReadQueryPair(b: FrameworkBinding, uriParameter: QueryPair, parse: Parsers) returns (r: FrameworkBinding)
    ensures r == QueryStep(b, uriParameter, parse)
  {
    var foundIt := false;
    r := b;
    var j := 0;
    while j < |b.uriProperties|
      invariant 0 <= j <= |b.uriProperties|
      invariant forall k :: 0 <= k < j ==> !Matches(b.uriProperties[k], uriParameter.Key)
      invariant !foundIt && r == b
    {
      var matched, digested := DigestProperty(b, b.uriProperties[j], uriParameter.Key, uriParameter.Value, None, parse);
      if matched {
        QueryStepAt(b, uriParameter, parse, j);
        foundIt, r := true, digested;
        break;
      }
      j := j + 1;
    }
    if !foundIt {
      QueryStepUnmatched(b, uriParameter, parse);
      r := r.(errors := r.errors + [UnknownLine(uriParameter)]);
    }
  }

  /** The query step when the j-th query property is the first to answer. */
  lemma QueryStepAt(b: FrameworkBinding, pair: QueryPair, parse: Parsers, j: nat)
    requires j < |b.uriProperties| && Matches(b.uriProperties[j], pair.Key)
    requires forall k :: 0 <= k < j ==> !Matches(b.uriProperties[k], pair.Key)
    ensures QueryStep(b, pair, parse) == DigestSpec(b, b.uriProperties[j], pair.Value, None, parse)
  {
    assert FirstMatch(b.uriProperties, pair.Key) == Some(j);
  }

  /** The query step when no query property answers: the unknown line. */
  lemma QueryStepUnmatched(b: FrameworkBinding, pair: QueryPair, parse: Parsers)
    requires forall k :: 0 <= k < |b.uriProperties| ==> !Matches(b.uriProperties[k], pair.Key)
    ensures QueryStep(b, pair, parse) == b.(errors := b.errors + [UnknownLine(pair)])
  {
    assert FirstMatch(b.uriProperties, pair.Key) == None;
  }

  /** The query loop: every pair in order. */
  method ReadQueryPairs(b0: FrameworkBinding, pairs: seq<QueryPair>, parse: Parsers) returns (b: FrameworkBinding)
    ensures b == QueryPhase(b0, pairs, parse)
  {
    b := b0;
    var i := 0;
    while i < |pairs|
      invariant 0 <= i <= |pairs|
      invariant QueryPhase(b, pairs[i..], parse) == QueryPhase(b0, pairs, parse)
    {
      assert pairs[i..][0] == pairs[i] && pairs[i..][1..] == pairs[i + 1..];
      b := ReadQueryPair(b, pairs[i], parse);
      i := i + 1;
    }
  }

  /** One header, as the source reads it: the first value on every pass, the header properties in order until one answers. */
  method ReadHeader(b: FrameworkBinding, h: Header, parse: Parsers) returns (r: Result<FrameworkBinding, Exception>)
    ensures r == HeaderStep(b, h, parse)
  {
    var headerValues := h.Value;
    var j := 0;
    while j < |b.headerProperties|
      invariant 0 <= j <= |b.headerProperties|
      invariant forall k :: 0 <= k < j ==> !Matches(b.headerProperties[k], h.Key)
      invariant j > 0 ==> headerValues != []
    {
      if |headerValues| == 0 {
        return Failure(Thrown("IndexOutOfRangeException", IndexOutOfRangeMessage));
      }
      var p := b.headerProperties[j];
      var matched, digested := DigestProperty(b, p, h.Key, Some(headerValues[0]), HeaderPrefix(p), parse);
      if matched {
        HeaderStepAt(b, h, parse, j);
        return Success(digested);
      }
      j := j + 1;
    }
    HeaderStepUnmatched(b, h, parse);
    return Success(b);
  }

  /** The header step when the j-th header property is the first to answer. */
  lemma HeaderStepAt(b: FrameworkBinding, h: Header, parse: Parsers, j: nat)
    requires j < |b.headerProperties| && h.Value != []
    requires Matches(b.headerProperties[j], h.Key)
    requires forall k :: 0 <= k < j ==> !Matches(b.headerProperties[k], h.Key)
    ensures var p := b.headerProperties[j];
            HeaderStep(b, h, parse) == Success(DigestSpec(b, p, Some(h.Value[0]), HeaderPrefix(p), parse))
  {
    assert FirstMatch(b.headerProperties, h.Key) == Some(j);
  }

  /** The header step when no header property answers, or none is left. */
  lemma HeaderStepUnmatched(b: FrameworkBinding, h: Header, parse: Parsers)
    requires b.headerProperties != [] ==> h.Value != []
    requires forall k :: 0 <= k < |b.headerProperties| ==> !Matches(b.headerProperties[k], h.Key)
    ensures HeaderStep(b, h, parse) == Success(b)
  {
    if b.headerProperties != [] {
      assert FirstMatch(b.headerProperties, h.Key) == None;
    }
  }

  /** The header loop: every header in order, stopping at the first exception. */
  method ReadHeaders(b0: FrameworkBinding, headers: seq<Header>, parse: Parsers) returns (r: Result<FrameworkBinding, Exception>)
    ensures r == HeaderPhase(b0, headers, parse)
  {
    var b := b0;
    var i := 0;
    while i < |headers|
      invariant 0 <= i <= |headers|
      invariant HeaderPhase(b, headers[i..], parse) == HeaderPhase(b0, headers, parse)
    {
      assert headers[i..][0] == headers[i] && headers[i..][1..] == headers[i + 1..];
      var step := ReadHeader(b, headers[i], parse);
      if step.Failure? {
        return Failure(step.error);
      }
      b := step.value;
      i := i + 1;
    }
    return Success(b);
  }

  /** The end of ReadParameters<T>: one line per unmet requirement after the errors, then the verdict. */
  method Report(b: FrameworkBinding) returns (r: Result<map<string, Value>, Exception>)
    ensures r == Finish(b)
  {
    var errors := b.errors;
    var i := 0;
    while i < |b.requiredProperties|
      invariant 0 <= i <= |b.requiredProperties|
      invariant errors == b.errors + Map(b.requiredProperties[..i], MissingLine)
    {
      assert Map(b.requiredProperties[..i + 1], MissingLine) == Map(b.requiredProperties[..i], MissingLine) + [MissingLine(b.requiredProperties[i])];
      errors := errors + [MissingLine(b.requiredProperties[i])];
      i := i + 1;
    }
    assert b.requiredProperties[..i] == b.requiredProperties;
    if |errors| > 0 {
      return Failure(ServiceOperationException(BadParameter, Join("\r\n", errors)));
    }
    return Success(b.output);
  }

  /** ReadParameters<T>: split the query, walk, read the pairs and the headers, report. */
  method ReadParameters(props: seq<FrameworkProperty>, request: HttpRequestMessage, unescape: string -> string, parse: Parsers)
    returns (r: Result<map<string, Value>, Exception>)
    ensures r == ReadParametersSpec(props, request, unescape, parse)
  {
    var walked := WalkProperties(props);
    var pairs := GetQueryNameValuePairs(request.RequestUri.Query, unescape);
    var queried := ReadQueryPairs(walked, pairs, parse);
    var headed := ReadHeaders(queried, request.Headers, parse);
    if headed.Failure? {
      return Failure(headed.error);
    }
    r := Report(headed.value);
  }

  // ---------------------------------------------------------------- what a run promises

  /** The walk from a state whose lists hold none of `props`: see WalkClassifies. */
  lemma {:induction false} WalkClassifiesFrom(b: FrameworkBinding, props: seq<FrameworkProperty>)
    requires NoDuplicates(props)
    requires NoDuplicates(b.uriProperties) && NoDuplicates(b.headerProperties) && NoDuplicates(b.requiredProperties)
    requires forall p :: p in props ==> p !in b.uriProperties && p !in b.headerProperties && p !in b.requiredProperties
    ensures var w := Walk(b, props);
            (forall p :: p in w.uriProperties <==> p in b.uriProperties || (p in props && p.FromHeader.None?))
            && (forall p :: p in w.headerProperties <==> p in b.headerProperties || (p in props && p.FromHeader.Some?))
            && (forall p :: p in w.requiredProperties <==> p in b.requiredProperties || (p in props && p.Required))
            && NoDuplicates(w.uriProperties) && NoDuplicates(w.headerProperties) && NoDuplicates(w.requiredProperties)
    decreases |props|
  {
    if props != [] {
      var p0 := props[0];
      var rest := props[1..];
      assert forall p :: p in props <==> p == p0 || p in rest;
      assert NoDuplicates(rest) by {
        forall i, j | 0 <= i < j < |rest| ensures rest[i] != rest[j] {
          assert rest[i] == props[i + 1] && rest[j] == props[j + 1];
        }
      }
      assert p0 !in rest by {
        forall k | 0 <= k < |rest| ensures rest[k] != p0 {
          assert rest[k] == props[k + 1];
        }
      }
      var c := WalkStep(b, p0);
      if p0.FromHeader.Some? {
        RemoveFirstSkips(b.uriProperties, p0, []);
        assert b.uriProperties + [p0] + [] == b.uriProperties + [p0];
        assert c.uriProperties == b.uriProperties;
        NoDuplicatesAppend(b.headerProperties, p0);
      } else {
        NoDuplicatesAppend(b.uriProperties, p0);
      }
      if p0.Required {
        NoDuplicatesAppend(b.requiredProperties, p0);
      }
      WalkClassifiesFrom(c, rest);
    }
  }

  /**
   * From distinct properties the walk puts every property in exactly one of
   * the query and header lists (the header list exactly when it carries
   * FunctionParameterFromHeader), in the required list exactly when it
   * carries FunctionParameterRequired, and no list holds a property twice.
   */
  lemma WalkClassifies(props: seq<FrameworkProperty>)
    requires NoDuplicates(props)
    ensures var w := Walk(Empty, props);
            (forall p :: p in w.uriProperties <==> p in props && p.FromHeader.None?)
            && (forall p :: p in w.headerProperties <==> p in props && p.FromHeader.Some?)
            && (forall p :: p in w.requiredProperties <==> p in props && p.Required)
            && NoDuplicates(w.uriProperties) && NoDuplicates(w.headerProperties) && NoDuplicates(w.requiredProperties)
  {
    WalkClassifiesFrom(Empty, props);
  }

  /**
   * A digest whose prefix was missing records one error and leaves the
   * required list as it was; a digest that coerced, successfully or not,
   * takes the property off the required list and touches nothing else there;
   * only a successful one binds.
   */
  lemma DigestDischarges(b: FrameworkBinding, p: FrameworkProperty, value: Option<string>, prefix: Option<string>, parse: Parsers)
    requires NoDuplicates(b.requiredProperties)
    ensures var d := DigestMatched(p.PropertyType, value, prefix, FrameworkParsedTypes, parse);
            var r := DigestSpec(b, p, value, prefix, parse);
            (d.PrefixMissing? ==> r.requiredProperties == b.requiredProperties && r.output == b.output
                                  && r.errors == b.errors + [PrefixError(p, d.prefix)])
            && (d.Coerced? ==> p !in r.requiredProperties && NoDuplicates(r.requiredProperties)
                               && forall q :: q != p ==> (q in r.requiredProperties <==> q in b.requiredProperties))
            && (d.Coerced? && d.result.Failure? ==> r.output == b.output && r.errors == b.errors + [CoercionError(p, d.result.error)])
            && (d.Coerced? && d.result.Success? ==> r.output == b.output[p.Name := d.result.value] && r.errors == b.errors)
  {
    RemoveFirstNoDuplicates(b.requiredProperties, p);
  }

  /** The query loop only appends to the errors, one line at most per pair. */
  lemma {:induction false} QueryPhaseAppends(b: FrameworkBinding, pairs: seq<QueryPair>, parse: Parsers)
    ensures var r := QueryPhase(b, pairs, parse);
            |b.errors| <= |r.errors| <= |b.errors| + |pairs| && r.errors[..|b.errors|] == b.errors
    decreases |pairs|
  {
    if pairs != [] {
      var c := QueryStep(b, pairs[0], parse);
      assert |b.errors| <= |c.errors| <= |b.errors| + 1 && c.errors[..|b.errors|] == b.errors;
      QueryPhaseAppends(c, pairs[1..], parse);
      var r := QueryPhase(c, pairs[1..], parse);
      assert r.errors[..|b.errors|] == r.errors[..|c.errors|][..|b.errors|];
    }
  }

  /** When no query property answers to any pair, each pair adds its unknown-parameter line, in pair order, and nothing else changes. */
  lemma {:induction false} AllPairsUnknown(b: FrameworkBinding, pairs: seq<QueryPair>, parse: Parsers)
    requires forall i :: 0 <= i < |pairs| ==> FirstMatch(b.uriProperties, pairs[i].Key).None?
    ensures QueryPhase(b, pairs, parse) == b.(errors := b.errors + Map(pairs, UnknownLine))
    decreases |pairs|
  {
    if pairs != [] {
      var c := b.(errors := b.errors + [UnknownLine(pairs[0])]);
      assert FirstMatch(b.uriProperties, pairs[0].Key).None?;
      assert QueryStep(b, pairs[0], parse) == c;
      forall i | 0 <= i < |pairs| - 1 ensures FirstMatch(c.uriProperties, pairs[1..][i].Key).None? {
        assert pairs[1..][i] == pairs[i + 1];
      }
      AllPairsUnknown(c, pairs[1..], parse);
      AppendMapFirst(b.errors, pairs, UnknownLine);
    } else {
      assert b.errors + Map(pairs, UnknownLine) == b.errors;
    }
  }

  /**
   * The report: success exactly when no error was collected and no
   * requirement is unmet, and then the object is returned; otherwise one
   * BadParameter exception whose message joins with "\r\n" the collected
   * errors, then one line per unmet requirement.
   */
  lemma FinishOutcome(b: FrameworkBinding)
    ensures Finish(b).Success? <==> b.errors == [] && b.requiredProperties == []
    ensures Finish(b).Success? ==> Finish(b).value == b.output
    ensures Finish(b).Failure? ==> Finish(b).error == ServiceOperationException(BadParameter, Join("\r\n", ReportLines(b)))
    ensures |ReportLines(b)| == |b.errors| + |b.requiredProperties|
    ensures ReportLines(b)[..|b.errors|] == b.errors
    ensures forall i :: 0 <= i < |b.requiredProperties| ==> ReportLines(b)[|b.errors| + i] == MissingLine(b.requiredProperties[i])
  {
    var lines := ReportLines(b);
    if lines == [] {
      assert |lines| == |b.errors| + |b.requiredProperties|;
    }
  }

  // ---------------------------------------------------------------- the cases the tests pin down

  /** A name with no '_' has no "__" to replace. */
  lemma {:induction false} NoUnderscores(s: string)
    requires '_' !in s
    ensures ReplaceAll(s, "__", "$") == s
  {
    if |s| >= 2 {
      assert s[..2][0] == s[0] != '_';
      NoUnderscores(s[1..]);
      assert [s[0]] + s[1..] == s;
    }
  }

  /** A name "__" + t, with no '_' in t, has the dollar form "$" + t. */
  lemma LeadingUnderscores(t: string)
    requires '_' !in t
    ensures ReplaceAll("__" + t, "__", "$") == "$" + t
  {
    NoUnderscores(t);
    var s := "__" + t;
    assert s[..2] == "__" && s[2..] == t;
  }

  lemma TopLower() ensures Lower("__Top") == "__top" {}
  lemma TopLowered() ensures Lower("__top") == "__top" {}
  lemma SkipLower() ensures Lower("__Skip") == "__skip" {}
  lemma SkipLowered() ensures Lower("$skip") == "$skip" {}

  lemma TopDollar() ensures ReplaceAll("__top", "__", "$") == "$top" {
    LeadingUnderscores("top");
    assert "__" + "top" == "__top";
  }

  lemma SkipDollar() ensures ReplaceAll("__skip", "__", "$") == "$skip" {
    LeadingUnderscores("skip");
    assert "__" + "skip" == "__skip";
  }

  /** "__top" answers to __Top by its own name; "$skip" does not. */
  lemma TopAnswers()
    ensures var top := FrameworkProperty("__Top", Primitive("Int32"), false, None);
            Matches(top, "__top") && !Matches(top, "$skip")
  {
    TopLower();
    TopLowered();
    SkipLowered();
    TopDollar();
    assert "__top"[0] != "$skip"[0];
  }

  /** "$skip" answers to __Skip by its dollar form; "__top" does not. */
  lemma SkipAnswers()
    ensures var skip := FrameworkProperty("__Skip", Primitive("Int32"), false, None);
            Matches(skip, "$skip") && !Matches(skip, "__top")
  {
    SkipLower();
    SkipLowered();
    TopLowered();
    SkipDollar();
    assert "$skip"[0] != "__top"[0];
  }

  /** "__top" answers to __Top by its own name and "$skip" to __Skip by its dollar form; neither answers to the other. */
  lemma DollarParameters()
    ensures var top := FrameworkProperty("__Top", Primitive("Int32"), false, None);
            var skip := FrameworkProperty("__Skip", Primitive("Int32"), false, None);
            Matches(top, "__top") && Matches(skip, "$skip") && !Matches(top, "$skip") && !Matches(skip, "__top")
  {
    TopAnswers();
    SkipAnswers();
  }

  /** A missing required parameter is the whole message: "Missing required parameter 'StringThing'". */
  lemma MissingRequiredMessage(parse: Parsers)
    ensures var p := FrameworkProperty("StringThing", Primitive("String"), true, None);
            BindSpec([p], [], [], parse).Success?
            && Finish(BindSpec([p], [], [], parse).value)
               == Failure(ServiceOperationException(BadParameter, "Missing required parameter 'StringThing'"))
  {
    var p := FrameworkProperty("StringThing", Primitive("String"), true, None);
    var w := Walk(Empty, [p]);
    assert w == Empty.(uriProperties := [p], requiredProperties := [p]);
    assert BindSpec([p], [], [], parse) == Success(w);
    assert ReportLines(w) == [MissingLine(p)];
    assert Join("\r\n", [MissingLine(p)]) == MissingLine(p);
    assert MissingLine(p) == "Missing required parameter 'StringThing'";
  }

  /**
   * A header answered by the first header property, whose FromHeader
   * attribute demands a prefix: a value with the prefix binds what the parser
   * makes of the rest; a value without it records the prefix error and leaves
   * the property required.
   */
  lemma HeaderPrefixStripped(b: FrameworkBinding, key: string, value: string, parse: Parsers, v: Value)
    requires b.headerProperties != [] && Matches(b.headerProperties[0], key)
    requires HeaderPrefix(b.headerProperties[0]).Some? && HeaderPrefix(b.headerProperties[0]).value != ""
    requires b.headerProperties[0].PropertyType.Primitive? && b.headerProperties[0].PropertyType.name in FrameworkParsedTypes
    requires var prefix := HeaderPrefix(b.headerProperties[0]).value;
             StartsWith(value, prefix) ==> parse(TypeParse(b.headerProperties[0].PropertyType.name), Some(value[|prefix|..])) == Success(v)
    ensures var p := b.headerProperties[0];
            var prefix := HeaderPrefix(p).value;
            (StartsWith(value, prefix) ==>
               HeaderStep(b, RequestTranslation.Header(key, [value]), parse)
               == Success(b.(output := b.output[p.Name := v], requiredProperties := RemoveFirst(b.requiredProperties, p))))
            && (!StartsWith(value, prefix) ==>
               HeaderStep(b, RequestTranslation.Header(key, [value]), parse)
               == Success(b.(errors := b.errors + [PrefixError(p, prefix)])))
  {
    var p := b.headerProperties[0];
    assert FirstMatch(b.headerProperties, key) == Some(0);
    assert TypeName(p.PropertyType) == p.PropertyType.name;
  }

  /** "zorba:99.8" is the prefix "zorba:" followed by "99.8". */
  lemma ZorbaValue()
    ensures StartsWith("zorba:99.8", "zorba:") && "zorba:99.8"[|"zorba:"|..] == "99.8"
  {
    var value := "zorba:" + "99.8";
    assert value == "zorba:99.8";
    assert value[..|"zorba:"|] == "zorba:";
  }

  lemma PrefixedLower() ensures Lower("Prefixed") == "prefixed" {}
  lemma PrefixedKeyLower() ensures Lower("PREFIxed") == "prefixed" {}

  /** The header test: "PREFIxed" names the property Prefixed, and "zorba:99.8" carries its prefix "zorba:" before "99.8". */
  lemma PrefixedHeaderMatches()
    ensures Matches(FrameworkProperty("Prefixed", Primitive("Double"), false, Some(FromHeaderAttribute(Some("zorba:")))), "PREFIxed")
    ensures StartsWith("zorba:99.8", "zorba:") && "zorba:99.8"[|"zorba:"|..] == "99.8"
  {
    PrefixedLower();
    PrefixedKeyLower();
    ZorbaValue();
  }

  /**
   * When nothing else went wrong and no query property answers to any of
   * the pairs, the report is exactly the pairs' unknown-parameter lines, in
   * query-string order.
   */
  lemma UnknownPairsReport(b: FrameworkBinding, pairs: seq<QueryPair>, parse: Parsers)
    requires b.errors == [] && b.requiredProperties == [] && pairs != []
    requires forall pair :: pair in pairs ==> FirstMatch(b.uriProperties, pair.Key).None?
    ensures Finish(QueryPhase(b, pairs, parse)) == Failure(ServiceOperationException(BadParameter, Join("\r\n", Map(pairs, UnknownLine))))
  {
    AllPairsUnknown(b, pairs, parse);
    var r := QueryPhase(b, pairs, parse);
    assert ReportLines(r) == Map(pairs, UnknownLine);
  }

  /** The query "turtLE=blah&NotAParameter=1", when neither key is known, gives the two-line message of the unknown-parameter test. */
  lemma UnknownParametersMessage()
    ensures Join("\r\n", Map([QueryPair("turtLE", Some("blah")), QueryPair("NotAParameter", Some("1"))], UnknownLine))
            == "Unknown uri parameter 'turtLE'" + "\r\n" + "Unknown uri parameter 'NotAParameter'"
  {
    var pairs := [QueryPair("turtLE", Some("blah")), QueryPair("NotAParameter", Some("1"))];
    var lines := [UnknownLine(pairs[0]), UnknownLine(pairs[1])];
    assert Map(pairs, UnknownLine) == lines;
    assert Join("\r\n", lines) == lines[0] + "\r\n" + lines[1];
  }
}
