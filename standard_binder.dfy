/**
 * Vehicle.ReadParameters<T> of the DotNetStandard library: the older binder.
 * Properties come only from the query or the headers, a property's match name
 * is its own name optionally rewritten by FixPropertyName ("find,replace"),
 * unknown query parameters are reported as they are met, and every problem
 * that is not a binding error (an unsupported source, a malformed
 * FixPropertyName, a header without values) is thrown at once.
 */
module StandardBinder {
  import opened Wrappers
  import opened Text
  import opened Seqs
  import opened Exceptions
  import opened Descriptors
  import opened Coercion
  import opened QueryString
  import opened RequestTranslation

  /** The FunctionParameter attribute of the DotNetStandard library. */
  datatype StandardAttribute = StandardAttribute(
    Source: ParameterIn,
    IsRequired: bool,
    RemoveRequiredPrefix: Option<string>,
    FixPropertyName: Option<string>,
    SwaggerDescription: Option<string>,
    SwaggerSecurityParameter: bool)

  /** `new FunctionParameterAttribute()`: from the query, optional, no prefix, no rename. */
  function DefaultStandardAttribute(): (a: StandardAttribute)
    ensures a.Source == Query && !a.IsRequired && !a.SwaggerSecurityParameter
    ensures a.RemoveRequiredPrefix.None? && a.FixPropertyName.None? && a.SwaggerDescription.None?
  {
    StandardAttribute(Query, false, None, None, None, false)
  }

  /** A public property: its name, type and the attribute declared on it, if any. */
  datatype StandardProperty = StandardProperty(Name: string, PropertyType: FieldType, Attribute: Option<StandardAttribute>)

  /** The declared attribute or a fresh default one, as the walk reads it. */
  function Params(p: StandardProperty): StandardAttribute {
    p.Attribute.GetOr(DefaultStandardAttribute())
  }

  /** The lists of one run and the object being filled. */
  datatype StandardBinding = StandardBinding(
    queryProperties: seq<StandardProperty>,
    headerProperties: seq<StandardProperty>,
    requiredProperties: seq<StandardProperty>,
    errors: seq<string>,
    output: map<string, Value>)

  // ---------------------------------------------------------------- messages

  function Label(p: StandardProperty): string {
    "Error on (" + TypeName(p.PropertyType) + ") property '" + p.Name + "'"
  }

  function UnknownLine(pair: QueryPair): string {
    "Unknown uri parameter '" + pair.Key + "'"
  }

  function MissingLine(p: StandardProperty): string {
    "Missing required parameter '" + p.Name + "'"
  }

  function CoercionError(p: StandardProperty, message: string): string {
    Label(p) + ": " + message
  }

  function PrefixError(p: StandardProperty, prefix: string): string {
    Label(p) + ": Required prefix '" + prefix + "' was missing."
  }

  function SourceMessage(source: ParameterIn): string {
    "Can't get parameters from " + SourceText(source)
  }

  function BadFixMessage(p: StandardProperty, fix: string): string {
    "Bad 'FixPropertyName' value on FunctionParameter '" + Lower(p.Name) + "': " + fix
  }

  /** The message of String.Replace called with an empty search text. */
  const EmptyReplaceMessage := "String cannot be of zero length."

  // ---------------------------------------------------------------- the walk

  /** The state at the start: every list empty, nothing bound. */
  const Empty := StandardBinding([], [], [], [], map[])

  /** A source this binder can read: the query or the headers. */
  predicate Supported(p: StandardProperty) {
    Params(p).Source == Query || Params(p).Source == ParameterIn.Header
  }

  /** One property: filed as required, then by source; any source but Query and Header throws. */
  function WalkStep(b: StandardBinding, p: StandardProperty): Result<StandardBinding, Exception> {
    var a := Params(p);
    var c := if a.IsRequired then b.(requiredProperties := b.requiredProperties + [p]) else b;
    match a.Source
    case Query => Success(c.(queryProperties := c.queryProperties + [p]))
    case Header => Success(c.(headerProperties := c.headerProperties + [p]))
    case _ => Failure(Thrown("ApplicationException", SourceMessage(a.Source)))
  }

  /** The walk over GetProperties(), stopping at the first unsupported source. */
  function Walk(b: StandardBinding, props: seq<StandardProperty>): Result<StandardBinding, Exception>
    decreases |props|
  {
    if props == [] then Success(b)
    else
      match WalkStep(b, props[0])
      case Failure(e) => Failure(e)
      case Success(c) => Walk(c, props[1..])
  }

  // ---------------------------------------------------------------- DigestProperty

  /**
   * The name a property answers to, lower-cased: its own name, or, with a
   * declared FixPropertyName "find,replace", its name with every `find`
   * replaced. A FixPropertyName without a comma, or with nothing before it,
   * throws ArgumentException.
   */
  function MatchName(p: StandardProperty): Result<string, Exception> {
    if p.Attribute.None? || p.Attribute.value.FixPropertyName.None? then Success(Lower(p.Name))
    else
      var fix := p.Attribute.value.FixPropertyName.value;
      var (find, replace) := SplitFirst(fix, ',');
      if replace.None? then Failure(Thrown("ArgumentException", BadFixMessage(p, fix)))
      else if find == "" then Failure(Thrown("ArgumentException", EmptyReplaceMessage))
      else Success(Lower(ReplaceAll(p.Name, find, replace.value)))
  }

  /** The prefix the header loop passes: the declared attribute's RemoveRequiredPrefix, none without an attribute. */
  function HeaderPrefix(p: StandardProperty): Option<string> {
    if p.Attribute.None? then None else p.Attribute.value.RemoveRequiredPrefix
  }

  /**
   * DigestProperty after a name match: a missing prefix adds its error and
   * returns at once; otherwise the value is bound or its error recorded, and
   * in both cases the property leaves the required list.
   */
  function DigestSpec(b: StandardBinding, p: StandardProperty, value: Option<string>, prefix: Option<string>, parse: Parsers): StandardBinding {
    match DigestMatched(p.PropertyType, value, prefix, CurrentParsedTypes, parse)
    case PrefixMissing(px) => b.(errors := b.errors + [PrefixError(p, px)])
    case Coerced(Success(v)) =>
      b.(output := b.output[p.Name := v], requiredProperties := RemoveFirst(b.requiredProperties, p))
    case Coerced(Failure(m)) =>
      b.(errors := b.errors + [CoercionError(p, m)], requiredProperties := RemoveFirst(b.requiredProperties, p))
  }

  /** The prefix a property is digested with: none from the query, its HeaderPrefix from a header. */
  function PrefixFor(p: StandardProperty, fromHeader: bool): Option<string> {
    if fromHeader then HeaderPrefix(p) else None
  }

  /** No property of `props` answers to `key`, and none of them throws on the way. */
  predicate Unclaimed(props: seq<StandardProperty>, key: string) {
    forall q :: q in props ==> MatchName(q).Success? && MatchName(q).value != Lower(key)
  }

  /** `c` is what one of `props`, whose match name is the parameter's, makes of `b` by digesting the value. */
  ghost predicate DigestedByOne(b: StandardBinding, props: seq<StandardProperty>, rawName: string, value: Option<string>, fromHeader: bool, parse: Parsers, c: StandardBinding) {
    exists k :: 0 <= k < |props| && MatchName(props[k]) == Success(Lower(rawName))
                && c == DigestSpec(b, props[k], value, PrefixFor(props[k], fromHeader), parse)
  }

  /**
   * An inner loop: the properties in order, each asked to digest the
   * parameter, until one matches; a malformed FixPropertyName throws when its
   * property's turn comes.
   */
  function Search(b: StandardBinding, props: seq<StandardProperty>, rawName: string, value: Option<string>, fromHeader: bool, parse: Parsers)
    : (r: Result<(bool, StandardBinding), Exception>)
    ensures r.Success? && !r.value.0 ==> r.value.1 == b && Unclaimed(props, rawName)
    ensures r.Success? && r.value.0 ==> DigestedByOne(b, props, rawName, value, fromHeader, parse, r.value.1)
    ensures r.Success? ==> (r.value.0 <==> !Unclaimed(props, rawName))
    ensures Unclaimed(props, rawName) ==> r == Success((false, b))
  {
    if props == [] then Success((false, b))
    else
      match MatchName(props[0])
      case Failure(e) => Failure(e)
      case Success(name) =>
        if name == Lower(rawName) then
          Success((true, DigestSpec(b, props[0], value, PrefixFor(props[0], fromHeader), parse)))
        else
          var rest := Search(b, props[1..], rawName, value, fromHeader, parse);
          assert forall q :: q in props ==> q == props[0] || q in props[1..];
          assert rest.Success? && rest.value.0 ==> DigestedByOne(b, props, rawName, value, fromHeader, parse, rest.value.1) by {
            if rest.Success? && rest.value.0 {
              var k :| 0 <= k < |props[1..]| && MatchName(props[1..][k]) == Success(Lower(rawName))
                       && rest.value.1 == DigestSpec(b, props[1..][k], value, PrefixFor(props[1..][k], fromHeader), parse);
              assert props[1..][k] == props[k + 1];
              assert props[k + 1] in props;
            }
          }
          rest
  }

  // ---------------------------------------------------------------- the loops

  /**
   * One query pair: the query properties search it; no match adds the
   * unknown line at once, and otherwise the property that answered digests it.
   */
  function QueryStep(b: StandardBinding, pair: QueryPair, parse: Parsers): (r: Result<StandardBinding, Exception>)
    ensures Unclaimed(b.queryProperties, pair.Key) ==> r == Success(b.(errors := b.errors + [UnknownLine(pair)]))
    ensures r.Success? && !Unclaimed(b.queryProperties, pair.Key) ==> DigestedByOne(b, b.queryProperties, pair.Key, pair.Value, false, parse, r.value)
  {
    match Search(b, b.queryProperties, pair.Key, pair.Value, false, parse)
    case Failure(e) => Failure(e)
    case Success((found, c)) => Success(if found then c else c.(errors := c.errors + [UnknownLine(pair)]))
  }

  /** The query loop, pairs in order, stopping at the first exception. */
  function QueryPhase(b: StandardBinding, pairs: seq<QueryPair>, parse: Parsers): (r: Result<StandardBinding, Exception>)
    decreases |pairs|
  {
    if pairs == [] then Success(b)
    else
      match QueryStep(b, pairs[0], parse)
      case Failure(e) => Failure(e)
      case Success(c) => QueryPhase(c, pairs[1..], parse)
  }

  /**
   * One header: while there are header properties its first value is read
   * (none throws IndexOutOfRangeException) and the header properties search
   * it; the one that matches digests it and stays in the list.
   */
  function HeaderStep(b: StandardBinding, h: Header, parse: Parsers): (r: Result<StandardBinding, Exception>)
  {
    if b.headerProperties == [] then Success(b)
    else if h.Value == [] then Failure(Thrown("IndexOutOfRangeException", IndexOutOfRangeMessage))
    else
      match Search(b, b.headerProperties, h.Key, Some(h.Value[0]), true, parse)
      case Failure(e) => Failure(e)
      case Success((_, c)) => Success(c)
  }

  /** The header loop, headers in order, stopping at the first exception. */
  function HeaderPhase(b: StandardBinding, headers: seq<Header>, parse: Parsers): (r: Result<StandardBinding, Exception>)
    decreases |headers|
  {
    if headers == [] then Success(b)
    else
      match HeaderStep(b, headers[0], parse)
      case Failure(e) => Failure(e)
      case Success(c) => HeaderPhase(c, headers[1..], parse)
  }

  /** The collected errors, then one line per unmet requirement. */
  function ReportLines(b: StandardBinding): seq<string> {
    b.errors + Map(b.requiredProperties, MissingLine)
  }

  /** The end of ReadParameters<T>: the object, or every line in one BadParameter exception. */
  function Finish(b: StandardBinding): Result<map<string, Value>, Exception> {
    var lines := ReportLines(b);
    if |lines| > 0 then Failure(ServiceOperationException(BadParameter, Join("\r\n", lines)))
    else Success(b.output)
  }

  /** The walk, the query loop and the header loop. */
  function BindSpec(props: seq<StandardProperty>, pairs: seq<QueryPair>, headers: seq<Header>, parse: Parsers): Result<StandardBinding, Exception> {
    match Walk(Empty, props)
    case Failure(e) => Failure(e)
    case Success(w) =>
      match QueryPhase(w, pairs, parse)
      case Failure(e) => Failure(e)
      case Success(q) => HeaderPhase(q, headers, parse)
  }

  /** ReadParameters<T>: bind the request's query pairs and headers, then report. */
  function ReadParametersSpec(props: seq<StandardProperty>, request: HttpRequestMessage, unescape: string -> string, parse: Parsers)
    : Result<map<string, Value>, Exception>
  {
    match BindSpec(props, QueryPairs(request.RequestUri.Query, unescape), request.Headers, parse)
    case Failure(e) => Failure(e)
    case Success(b) => Finish(b)
  }

  // ---------------------------------------------------------------- the run, as the source performs it

  /**
   * The local function DigestProperty: the match name first (a malformed
   * FixPropertyName throws), false when it differs from the parameter's
   * name, and otherwise the prefix check and coercion of DigestSpec.
   */
  method DigestProperty(b: StandardBinding, p: StandardProperty, rawParameterName: string, value: Option<string>, prefix: Option<string>, parse: Parsers)
    returns (r: Result<(bool, StandardBinding), Exception>)
    ensures MatchName(p).Failure? ==> r == Failure(MatchName(p).error)
    ensures MatchName(p).Success? ==> r.Success? && (r.value.0 <==> MatchName(p).value == Lower(rawParameterName))
    ensures r.Success? && r.value.0 ==> r.value.1 == DigestSpec(b, p, value, prefix, parse)
    ensures r.Success? && !r.value.0 ==> r.value.1 == b
  {
    var propertyName := Lower(p.Name);
    if p.Attribute.Some? && p.Attribute.value.FixPropertyName.Some? {
      var fix := p.Attribute.value.FixPropertyName.value;
      var parts := SplitFirst(fix, ',');
      if parts.1.None? {
        return Failure(Thrown("ArgumentException", BadFixMessage(p, fix)));
      }
      if parts.0 == "" {
        return Failure(Thrown("ArgumentException", EmptyReplaceMessage));
      }
      propertyName := Lower(ReplaceAll(p.Name, parts.0, parts.1.value));
    }
    var parameterName := Lower(rawParameterName);
    if propertyName != parameterName {
      return Success((false, b));
    }
    var c := b;
    var d := DigestValue(p.PropertyType, value, prefix, CurrentParsedTypes, parse);
    match d {
      case PrefixMissing(px) =>
        return Success((true, c.(errors := c.errors + [PrefixError(p, px)])));
      case Coerced(Success(v)) =>
        c := c.(output := c.output[p.Name := v]);
      case Coerced(Failure(m)) =>
        c := c.(errors := c.errors + [CoercionError(p, m)]);
    }
    if p in c.requiredProperties {
      c := c.(requiredProperties := RemoveFirst(c.requiredProperties, p));
    }
    return Success((true, c));
  }

  /** The inner query loop: the query properties in order until one answers; none adds the unknown line. */
  method ReadQueryPair(b: StandardBinding, pair: QueryPair, parse: Parsers) returns (r: Result<StandardBinding, Exception>)
    ensures r == QueryStep(b, pair, parse)
  {
    var props := b.queryProperties;
    var j := 0;
    while j < |props|
      invariant 0 <= j <= |props|
      invariant Search(b, props[j..], pair.Key, pair.Value, false, parse) == Search(b, props, pair.Key, pair.Value, false, parse)
    {
      assert props[j..][0] == props[j] && props[j..][1..] == props[j + 1..];
      var step := DigestProperty(b, props[j], pair.Key, pair.Value, None, parse);
      if step.Failure? {
        return Failure(step.error);
      }
      if step.value.0 {
        return Success(step.value.1);
      }
      j := j + 1;
    }
    return Success(b.(errors := b.errors + [UnknownLine(pair)]));
  }

  /**
   * The inner header loop: the first value is read on every pass, and the
   * first header property that answers digests it; no property is removed.
   */
  method ReadHeader(b: StandardBinding, h: Header, parse: Parsers) returns (r: Result<StandardBinding, Exception>)
    ensures r == HeaderStep(b, h, parse)
  {
    var headerValues := h.Value;
    var props := b.headerProperties;
    var j := 0;
    while j < |props|
      invariant 0 <= j <= |props|
      invariant j > 0 ==> headerValues != []
      invariant headerValues != [] ==>
        Search(b, props[j..], h.Key, Some(headerValues[0]), true, parse) == Search(b, props, h.Key, Some(headerValues[0]), true, parse)
    {
      if |headerValues| == 0 {
        return Failure(Thrown("IndexOutOfRangeException", IndexOutOfRangeMessage));
      }
      assert props[j..][0] == props[j] && props[j..][1..] == props[j + 1..];
      var step := DigestProperty(b, props[j], h.Key, Some(headerValues[0]), HeaderPrefix(props[j]), parse);
      if step.Failure? {
        return Failure(step.error);
      }
      if step.value.0 {
        return Success(step.value.1);
      }
      j := j + 1;
    }
    return Success(b);
  }

  /** The walk over GetProperties(): each property filed as required and by source; an unsupported source throws. */
  method WalkProperties(props: seq<StandardProperty>) returns (r: Result<StandardBinding, Exception>)
    ensures r == Walk(Empty, props)
  {
    var b := Empty;
    var i := 0;
    while i < |props|
      invariant 0 <= i <= |props|
      invariant Walk(b, props[i..]) == Walk(Empty, props)
    {
      assert props[i..][0] == props[i] && props[i..][1..] == props[i + 1..];
      var p := props[i];
      var a := Params(p);
      if a.IsRequired {
        b := b.(requiredProperties := b.requiredProperties + [p]);
      }
      match a.Source {
        case Query => b := b.(queryProperties := b.queryProperties + [p]);
        case Header => b := b.(headerProperties := b.headerProperties + [p]);
        case _ => return Failure(Thrown("ApplicationException", SourceMessage(a.Source)));
      }
      i := i + 1;
    }
    return Success(b);
  }

  /** The query loop: every pair in order, stopping at the first exception. */
  method ReadQueryPairs(b0: StandardBinding, pairs: seq<QueryPair>, parse: Parsers) returns (r: Result<StandardBinding, Exception>)
    ensures r == QueryPhase(b0, pairs, parse)
  {
    var b := b0;
    var i := 0;
    while i < |pairs|
      invariant 0 <= i <= |pairs|
      invariant QueryPhase(b, pairs[i..], parse) == QueryPhase(b0, pairs, parse)
    {
      assert pairs[i..][0] == pairs[i] && pairs[i..][1..] == pairs[i + 1..];
      var step := ReadQueryPair(b, pairs[i], parse);
      if step.Failure? {
        return Failure(step.error);
      }
      b := step.value;
      i := i + 1;
    }
    return Success(b);
  }

  /**
   * The header loop: every header in order, stopping at the first
   * exception. The DotNetFramework binder's loop is a copy of this one in
   * the library, and is modelled by its own copy.
   */
  method ReadHeaders(b0: StandardBinding, headers: seq<Header>, parse: Parsers) returns (r: Result<StandardBinding, Exception>)
    ensures r == HeaderPhase(b0, headers, parse)
  {
    var b := b0;
    var i := 0;
    while i < |headers|
      invariant 0 <= i <= |headers|
      invariant HeaderPhase(b, headers[i..], parse) == HeaderPhase(b0, headers, parse)
    {
      assert headers[i..][0] == headers[i] && headers[i..][1..] == headers[i + 1..];
      var step := ReadHeader(b, headers[i], parse);
      if step.Failure? {
        return Failure(step.error);
      }
      b := step.value;
      i := i + 1;
    }
    return Success(b);
  }

  /** The walk, the query loop and the header loop over the shared lists. */
  method Bind(props: seq<StandardProperty>, pairs: seq<QueryPair>, headers: seq<Header>, parse: Parsers)
    returns (r: Result<StandardBinding, Exception>)
    ensures r == BindSpec(props, pairs, headers, parse)
  {
    var walked := WalkProperties(props);
    if walked.Failure? {
      return Failure(walked.error);
    }
    var queried := ReadQueryPairs(walked.value, pairs, parse);
    if queried.Failure? {
      return Failure(queried.error);
    }
    r := ReadHeaders(queried.value, headers, parse);
  }

  /**
   * The end of ReadParameters<T>: one line per unmet requirement after the
   * errors, then the verdict. The DotNetFramework binder ends with the same
   * code, copied in the library, and is modelled by its own copy.
   */
  method Report(b: StandardBinding) returns (r: Result<map<string, Value>, Exception>)
    ensures r == Finish(b)
  {
    var errors := b.errors;
    var i := 0;
    while i < |b.requiredProperties|
      invariant 0 <= i <= |b.requiredProperties|
      invariant errors == b.errors + Map(b.requiredProperties[..i], MissingLine)
    {
      assert Map(b.requiredProperties[..i + 1], MissingLine) == Map(b.requiredProperties[..i], MissingLine) + [MissingLine(b.requiredProperties[i])];
      errors := errors + [MissingLine(b.requiredProperties[i])];
      i := i + 1;
    }
    assert b.requiredProperties[..i] == b.requiredProperties;
    if |errors| > 0 {
      return Failure(ServiceOperationException(BadParameter, Join("\r\n", errors)));
    }
    return Success(b.output);
  }

  /** ReadParameters<T>: split the query, bind, report. */
  method ReadParameters(props: seq<StandardProperty>, request: HttpRequestMessage, unescape: string -> string, parse: Parsers)
    returns (r: Result<map<string, Value>, Exception>)
    ensures r == ReadParametersSpec(props, request, unescape, parse)
  {
    var pairs := GetQueryNameValuePairs(request.RequestUri.Query, unescape);
    var bound := Bind(props, pairs, request.Headers, parse);
    if bound.Failure? {
      return Failure(bound.error);
    }
    r := Report(bound.value);
  }

  // ---------------------------------------------------------------- what a run promises

  /**
   * The walk throws exactly when some property declares a source other than
   * Query or Header, and then with the ApplicationException of the first such
   * property; otherwise it files every property under its source, and under
   * required when it is required, and changes nothing else.
   */
  lemma {:induction false} WalkOutcome(b: StandardBinding, props: seq<StandardProperty>)
    ensures Walk(b, props).Success? <==> forall p :: p in props ==> Supported(p)
    ensures Walk(b, props).Failure? ==>
              exists i :: 0 <= i < |props| && !Supported(props[i]) && (forall j :: 0 <= j < i ==> Supported(props[j]))
                          && Walk(b, props).error == Thrown("ApplicationException", SourceMessage(Params(props[i]).Source))
    ensures Walk(b, props).Success? ==>
              var w := Walk(b, props).value;
              w.errors == b.errors && w.output == b.output
              && (forall p :: p in w.queryProperties <==> p in b.queryProperties || (p in props && Params(p).Source == Query))
              && (forall p :: p in w.headerProperties <==> p in b.headerProperties || (p in props && Params(p).Source == ParameterIn.Header))
              && (forall p :: p in w.requiredProperties <==> p in b.requiredProperties || (p in props && Params(p).IsRequired))
  {
    WalkSucceeds(b, props);
    if Walk(b, props).Success? {
      WalkFiles(b, props);
    } else {
      WalkFailure(b, props);
    }
  }

  /** The walk succeeds exactly when every source is supported. */
  lemma {:induction false} WalkSucceeds(b: StandardBinding, props: seq<StandardProperty>)
    ensures Walk(b, props).Success? <==> forall p :: p in props ==> Supported(p)
    decreases |props|
  {
    if props != [] {
      var p0 := props[0];
      var rest := props[1..];
      assert forall p :: p in props <==> p == p0 || p in rest;
      if Supported(p0) {
        WalkSucceeds(WalkStep(b, p0).value, rest);
      }
    }
  }

  /** A walk that fails fails on the first property with an unsupported source. */
  lemma {:induction false} WalkFailure(b: StandardBinding, props: seq<StandardProperty>)
    requires Walk(b, props).Failure?
    ensures exists i :: 0 <= i < |props| && !Supported(props[i]) && (forall j :: 0 <= j < i ==> Supported(props[j]))
                        && Walk(b, props).error == Thrown("ApplicationException", SourceMessage(Params(props[i]).Source))
    decreases |props|
  {
    var p0 := props[0];
    var rest := props[1..];
    if Supported(p0) {
      var c := WalkStep(b, p0).value;
      WalkFailure(c, rest);
      var i :| 0 <= i < |rest| && !Supported(rest[i]) && (forall j :: 0 <= j < i ==> Supported(rest[j]))
               && Walk(c, rest).error == Thrown("ApplicationException", SourceMessage(Params(rest[i]).Source));
      assert rest[i] == props[i + 1];
      assert forall j :: 1 <= j < i + 1 ==> props[j] == rest[j - 1];
    } else {
      assert !Supported(props[0]);
    }
  }

  /** A walk that succeeds files every property under its source, and under required when it is required. */
  lemma {:induction false} WalkFiles(b: StandardBinding, props: seq<StandardProperty>)
    requires Walk(b, props).Success?
    ensures var w := Walk(b, props).value;
              w.errors == b.errors && w.output == b.output
              && (forall p :: p in w.queryProperties <==> p in b.queryProperties || (p in props && Params(p).Source == Query))
              && (forall p :: p in w.headerProperties <==> p in b.headerProperties || (p in props && Params(p).Source == ParameterIn.Header))
              && (forall p :: p in w.requiredProperties <==> p in b.requiredProperties || (p in props && Params(p).IsRequired))
    decreases |props|
  {
    if props != [] {
      var p0 := props[0];
      var rest := props[1..];
      assert forall p :: p in props <==> p == p0 || p in rest;
      var c := WalkStep(b, p0).value;
      WalkFiles(c, rest);
    }
  }

  /** A property with an unsupported source makes ReadParameters<T> throw that ApplicationException, not BadParameter. */
  lemma UnsupportedSourceIsFatal(props: seq<StandardProperty>, request: HttpRequestMessage, unescape: string -> string, parse: Parsers)
    requires exists p :: p in props && !Supported(p)
    ensures ReadParametersSpec(props, request, unescape, parse).Failure?
    ensures ReadParametersSpec(props, request, unescape, parse).error.Kind == SystemError("ApplicationException")
  {
    WalkOutcome(Empty, props);
  }

  /**
   * With FixPropertyName "find,replace" (the first comma separates them), the
   * property answers to its name with every `find` replaced, lower-cased; an
   * empty `find` throws ArgumentException.
   */
  lemma FixPropertyNameSplit(p: StandardProperty, find: string, replace: string)
    requires p.Attribute.Some? && p.Attribute.value.FixPropertyName == Some(find + "," + replace)
    requires ',' !in find
    ensures find != "" ==> MatchName(p) == Success(Lower(ReplaceAll(p.Name, find, replace)))
    ensures find == "" ==> MatchName(p) == Failure(Thrown("ArgumentException", EmptyReplaceMessage))
  {
    SplitFirstAt(find, replace, ',');
  }

  /**
   * Without a declared FixPropertyName a property answers to its own name;
   * a FixPropertyName with no comma throws ArgumentException naming the
   * property and the bad value.
   */
  lemma MatchNameWithoutFix(p: StandardProperty)
    ensures p.Attribute.None? || p.Attribute.value.FixPropertyName.None? ==> MatchName(p) == Success(Lower(p.Name))
    ensures p.Attribute.Some? && p.Attribute.value.FixPropertyName.Some? && ',' !in p.Attribute.value.FixPropertyName.value ==>
              MatchName(p) == Failure(Thrown("ArgumentException", BadFixMessage(p, p.Attribute.value.FixPropertyName.value)))
  {
  }

  /** "Query_Top".Replace("Query_", "$"), lower-cased, is "$top". */
  lemma ReplaceQueryPrefix()
    ensures Lower(ReplaceAll("Query_Top", "Query_", "$")) == "$top"
  {
    var name := "Query_Top";
    assert name[..6] == "Query_";
    assert name[6..] == "Top";
    assert ReplaceAll("Top", "Query_", "$") == "Top";
    assert ReplaceAll(name, "Query_", "$") == "$Top";
    assert Lower("$Top") == "$top";
  }

  /** `FixPropertyName = "Query_,$"` on Query_Top: the key "$top" binds it, its own name does not. */
  lemma QueryTopRename()
    ensures var p := StandardProperty("Query_Top", Primitive("Int32"), Some(DefaultStandardAttribute().(FixPropertyName := Some("Query_,$"))));
            MatchName(p) == Success("$top") && Lower(p.Name) != "$top"
  {
    var p := StandardProperty("Query_Top", Primitive("Int32"), Some(DefaultStandardAttribute().(FixPropertyName := Some("Query_,$"))));
    assert "Query_,$" == "Query_" + "," + "$";
    FixPropertyNameSplit(p, "Query_", "$");
    ReplaceQueryPrefix();
    OwnNameLowered();
  }

  /** Lower-cased, the name Query_Top starts with 'q', so it is not "$top". */
  lemma OwnNameLowered()
    ensures Lower("Query_Top") != "$top"
  {
    assert Lower("Query_Top")[0] == 'q';
  }

  /**
   * A digest whose prefix was missing records one error and leaves the
   * required list as it was; a digest that coerced, successfully or not,
   * takes the property off the required list and touches nothing else there;
   * only a successful one binds, under the property's own name.
   */
  lemma DigestDischarges(b: StandardBinding, p: StandardProperty, value: Option<string>, prefix: Option<string>, parse: Parsers)
    requires NoDuplicates(b.requiredProperties)
    ensures var d := DigestMatched(p.PropertyType, value, prefix, CurrentParsedTypes, parse);
            var r := DigestSpec(b, p, value, prefix, parse);
            (d.PrefixMissing? ==> r.requiredProperties == b.requiredProperties && r.output == b.output
                                  && r.errors == b.errors + [PrefixError(p, d.prefix)])
            && (d.Coerced? ==> p !in r.requiredProperties && NoDuplicates(r.requiredProperties)
                               && forall q :: q != p ==> (q in r.requiredProperties <==> q in b.requiredProperties))
            && (d.Coerced? && d.result.Failure? ==> r.output == b.output && r.errors == b.errors + [CoercionError(p, d.result.error)])
            && (d.Coerced? && d.result.Success? ==> r.output == b.output[p.Name := d.result.value] && r.errors == b.errors)
            && r.queryProperties == b.queryProperties && r.headerProperties == b.headerProperties
  {
    RemoveFirstNoDuplicates(b.requiredProperties, p);
  }

  /** One query pair keeps both property lists and appends at most one line to the errors. */
  lemma QueryStepAppends(b: StandardBinding, pair: QueryPair, parse: Parsers)
    requires QueryStep(b, pair, parse).Success?
    ensures var c := QueryStep(b, pair, parse).value;
            c.queryProperties == b.queryProperties && c.headerProperties == b.headerProperties
            && |b.errors| <= |c.errors| <= |b.errors| + 1 && c.errors[..|b.errors|] == b.errors
  {
    var c := QueryStep(b, pair, parse).value;
    if !Unclaimed(b.queryProperties, pair.Key) {
      var k :| 0 <= k < |b.queryProperties| && MatchName(b.queryProperties[k]) == Success(Lower(pair.Key))
               && c == DigestSpec(b, b.queryProperties[k], pair.Value, PrefixFor(b.queryProperties[k], false), parse);
      DigestAppends(b, b.queryProperties[k], pair.Value, PrefixFor(b.queryProperties[k], false), parse);
    }
  }

  /** A digest keeps both property lists and appends at most one line to the errors. */
  lemma DigestAppends(b: StandardBinding, p: StandardProperty, value: Option<string>, prefix: Option<string>, parse: Parsers)
    ensures var c := DigestSpec(b, p, value, prefix, parse);
            c.queryProperties == b.queryProperties && c.headerProperties == b.headerProperties
            && |b.errors| <= |c.errors| <= |b.errors| + 1 && c.errors[..|b.errors|] == b.errors
  {
  }

  /**
   * The query loop keeps both property lists and only appends to the errors,
   * at most one line per pair: one unknown-parameter line for a pair nobody
   * claims, at most one digest error for a pair that is claimed.
   */
  lemma {:induction false} QueryPhaseAppends(b: StandardBinding, pairs: seq<QueryPair>, parse: Parsers)
    requires QueryPhase(b, pairs, parse).Success?
    ensures var r := QueryPhase(b, pairs, parse).value;
            r.queryProperties == b.queryProperties && r.headerProperties == b.headerProperties
            && |b.errors| <= |r.errors| <= |b.errors| + |pairs| && r.errors[..|b.errors|] == b.errors
    decreases |pairs|
  {
    if pairs != [] {
      var c := QueryStep(b, pairs[0], parse).value;
      QueryStepAppends(b, pairs[0], parse);
      QueryPhaseAppends(c, pairs[1..], parse);
      var r := QueryPhase(c, pairs[1..], parse).value;
      assert r.errors[..|b.errors|] == r.errors[..|c.errors|][..|b.errors|];
    }
  }

  /** When no query property claims any pair, each pair adds its unknown-parameter line, in pair order, and nothing else changes. */
  lemma {:induction false} AllPairsUnknown(b: StandardBinding, pairs: seq<QueryPair>, parse: Parsers)
    requires forall i :: 0 <= i < |pairs| ==> Unclaimed(b.queryProperties, pairs[i].Key)
    ensures QueryPhase(b, pairs, parse) == Success(b.(errors := b.errors + Map(pairs, UnknownLine)))
    decreases |pairs|
  {
    if pairs != [] {
      var c := b.(errors := b.errors + [UnknownLine(pairs[0])]);
      assert Unclaimed(b.queryProperties, pairs[0].Key);
      assert QueryStep(b, pairs[0], parse) == Success(c);
      forall i | 0 <= i < |pairs| - 1 ensures Unclaimed(c.queryProperties, pairs[1..][i].Key) {
        assert pairs[1..][i] == pairs[i + 1];
      }
      AllPairsUnknown(c, pairs[1..], parse);
      AppendMapFirst(b.errors, pairs, UnknownLine);
    } else {
      assert b.errors + Map(pairs, UnknownLine) == b.errors;
    }
  }

  /**
   * The header loop keeps both property lists: a header property that has
   * digested one header is still there for the next header of the same name.
   */
  lemma {:induction false} HeaderPhaseKeepsProperties(b: StandardBinding, headers: seq<Header>, parse: Parsers)
    requires HeaderPhase(b, headers, parse).Success?
    ensures HeaderPhase(b, headers, parse).value.headerProperties == b.headerProperties
    ensures HeaderPhase(b, headers, parse).value.queryProperties == b.queryProperties
    decreases |headers|
  {
    if headers != [] {
      var c := HeaderStep(b, headers[0], parse).value;
      HeaderStepKeepsProperties(b, headers[0], parse);
      HeaderPhaseKeepsProperties(c, headers[1..], parse);
    }
  }

  /** One header keeps both property lists. */
  lemma HeaderStepKeepsProperties(b: StandardBinding, h: Header, parse: Parsers)
    requires HeaderStep(b, h, parse).Success?
    ensures HeaderStep(b, h, parse).value.headerProperties == b.headerProperties
    ensures HeaderStep(b, h, parse).value.queryProperties == b.queryProperties
  {
    if b.headerProperties != [] && h.Value != [] {
      var s := Search(b, b.headerProperties, h.Key, Some(h.Value[0]), true, parse);
      if s.value.0 {
        var k :| 0 <= k < |b.headerProperties| && MatchName(b.headerProperties[k]) == Success(Lower(h.Key))
                 && s.value.1 == DigestSpec(b, b.headerProperties[k], Some(h.Value[0]), PrefixFor(b.headerProperties[k], true), parse);
        DigestAppends(b, b.headerProperties[k], Some(h.Value[0]), PrefixFor(b.headerProperties[k], true), parse);
      }
    }
  }

  /**
   * The report: success exactly when no error was collected and no
   * requirement is unmet, and then the object is returned; otherwise one
   * BadParameter exception whose message joins with "\r\n" the collected
   * errors, then one line per unmet requirement.
   */
  lemma FinishOutcome(b: StandardBinding)
    ensures Finish(b).Success? <==> b.errors == [] && b.requiredProperties == []
    ensures Finish(b).Success? ==> Finish(b).value == b.output
    ensures Finish(b).Failure? ==> Finish(b).error == ServiceOperationException(BadParameter, Join("\r\n", ReportLines(b)))
    ensures |ReportLines(b)| == |b.errors| + |b.requiredProperties|
    ensures ReportLines(b)[..|b.errors|] == b.errors
    ensures forall i :: 0 <= i < |b.requiredProperties| ==> ReportLines(b)[|b.errors| + i] == MissingLine(b.requiredProperties[i])
  {
    var lines := ReportLines(b);
    if lines == [] {
      assert |lines| == |b.errors| + |b.requiredProperties|;
    }
  }
}
