/**
 * Vehicle.ReadParameters<T> of the shared library: the binder that fills an
 * argument object from a request's query pairs, headers and body, collects
 * every binding error on the way and throws them as one BadParameter
 * exception at the end.
 *
 * The argument type is its list of properties (what GetProperties returns);
 * the object being filled is a map from property name to bound value. A
 * property is identified by its descriptor, which stands for the
 * PropertyInfo: a class cannot declare two properties with the same name.
 *
 * The state of one run is the set of lists the source threads through the
 * private ReadParameters<T>; each phase of the run is a function from that
 * state to the next, and the methods that mutate the lists in loops are
 * proved to compute those functions.
 */
module SharedBinder {
  import opened Wrappers
  import opened Text
  import opened Seqs
  import opened Exceptions
  import opened Descriptors
  import opened Coercion
  import opened QueryString
  import opened RequestTranslation

  /** The lists of one binding run and the object being filled. */
  datatype Binding = Binding(
    uriPairs: seq<QueryPair>,
    queryProperties: seq<Property>,
    headerProperties: seq<Property>,
    requiredProperties: seq<Property>,
    bodyProperties: seq<Property>,
    errors: seq<string>,
    output: map<string, Value>)

  /** The state at the start: every query pair pending, every list empty, nothing bound. */
  function Start(pairs: seq<QueryPair>): Binding {
    Binding(pairs, [], [], [], [], [], map[])
  }

  /** A class-typed property other than String and arrays: read as a nested parameter group. */
  predicate IsGroup(t: FieldType) {
    t.ClassOf? && t.name != "String"
  }

  /** A property the binder collects into its lists: not ignored and not a group. */
  predicate Bindable(p: Property) {
    !GetParams(p).Ignore && !IsGroup(p.PropertyType)
  }

  /** DigestProperty's name test: the source name and the parameter name, both lower-cased. */
  predicate Matches(p: Property, rawParameterName: string) {
    Lower(GetSourcePropertyName(p)) == Lower(rawParameterName)
  }

  // ---------------------------------------------------------------- messages

  function Label(p: Property): string {
    "Error on (" + TypeName(p.PropertyType) + ") property '" + GetSourcePropertyName(p) + "'"
  }

  function CoercionError(p: Property, message: string): string {
    Label(p) + ": " + message
  }

  function PrefixError(p: Property, prefix: string): string {
    Label(p) + ": Required prefix '" + prefix + "' was missing."
  }

  function SourceError(p: Property): string {
    Label(p) + ":  Can't get parameters from " + SourceText(GetParams(p).Source)
  }

  function GroupError(p: Property, message: string): string {
    "Error on property group '" + p.Name + "': " + message
  }

  function UnknownLine(pair: QueryPair): string {
    "Unknown URI parameter:  '" + pair.Key + "'"
  }

  function MissingLine(p: Property): string {
    "Missing required parameter '" + GetSourcePropertyName(p) + "'"
  }

  function PropertyName(p: Property): string {
    p.Name
  }

  const BodyCountText := "There can be only parameter that comes from the body.  Body parameters: "

  function BodyCountError(bodyProperties: seq<Property>): string {
    BodyCountText + Join(",", Map(bodyProperties, PropertyName))
  }

  // ------------------------------------------------------ the property walk

  /** One property of the walk: skipped, a group error, or filed as required and by source. */
  function WalkStep(b: Binding, p: Property, groupMessage: string): Binding {
    var a := GetParams(p);
    if a.Ignore then b
    else if IsGroup(p.PropertyType) then b.(errors := b.errors + [GroupError(p, groupMessage)])
    else
      var c := if a.IsRequired then b.(requiredProperties := b.requiredProperties + [p]) else b;
      match a.Source
      case Query => c.(queryProperties := c.queryProperties + [p])
      case Header => c.(headerProperties := c.headerProperties + [p])
      case Body => c.(bodyProperties := c.bodyProperties + [p])
      case OtherSource(_) => c.(errors := c.errors + [SourceError(p)])
  }

  /**
   * The walk over GetProperties(). `groupMessage` is the message of the
   * exception that reading a nested group throws.
   */
  function Walk(b: Binding, props: seq<Property>, groupMessage: string): (r: Binding)
    ensures r.uriPairs == b.uriPairs && r.output == b.output
  {
    if props == [] then b
    else WalkStep(Walk(b, props[..|props| - 1], groupMessage), props[|props| - 1], groupMessage)
  }

  // ------------------------------------------------------ DigestProperty

  /**
   * DigestProperty once the name matched: a missing prefix adds its error and
   * returns at once; otherwise the value is bound or its error recorded, and
   * in both cases the property leaves the required list.
   */
  function DigestSpec(b: Binding, p: Property, value: Option<string>, prefix: Option<string>, parse: Parsers): Binding {
    match DigestMatched(p.PropertyType, value, prefix, CurrentParsedTypes, parse)
    case PrefixMissing(px) => b.(errors := b.errors + [PrefixError(p, px)])
    case Coerced(Success(v)) =>
      b.(output := b.output[p.Name := v], requiredProperties := RemoveFirst(b.requiredProperties, p))
    case Coerced(Failure(m)) =>
      b.(errors := b.errors + [CoercionError(p, m)], requiredProperties := RemoveFirst(b.requiredProperties, p))
  }

  /**
   * The index of the first property that matches `key`, if any. The
   * DotNetFramework binder has its own copy of this search, as the library
   * does, so the two modules each define it.
   */
  function FirstMatch(props: seq<Property>, key: string): (r: Option<nat>)
    ensures r.Some? ==> r.value < |props| && Matches(props[r.value], key)
    ensures r.Some? ==> forall j :: 0 <= j < r.value ==> !Matches(props[j], key)
    ensures r.None? ==> forall j :: 0 <= j < |props| ==> !Matches(props[j], key)
  {
    FirstIndex(props, p => Matches(p, key))
  }

  // ------------------------------------------------------ the query phase

  /** One pending query pair: the first matching query property digests it, and the pair leaves the pool. */
  function QueryStep(b: Binding, pair: QueryPair, parse: Parsers): Binding {
    match FirstMatch(b.queryProperties, pair.Key)
    case None => b
    case Some(i) =>
      var c := DigestSpec(b, b.queryProperties[i], pair.Value, None, parse);
      c.(uriPairs := RemoveFirst(c.uriPairs, pair))
  }

  /** The query loop over a snapshot of the pending pairs. */
  function QueryPhase(b: Binding, pairs: seq<QueryPair>, parse: Parsers): (r: Binding)
    ensures r.queryProperties == b.queryProperties && r.headerProperties == b.headerProperties
    ensures r.bodyProperties == b.bodyProperties
  {
    if pairs == [] then b
    else QueryStep(QueryPhase(b, pairs[..|pairs| - 1], parse), pairs[|pairs| - 1], parse)
  }

  // ------------------------------------------------------ the header phase

  /**
   * One header: while header properties remain, its first value is read
   * (an empty value list throws IndexOutOfRangeException); the first matching
   * header property digests it with its required prefix and is removed.
   */
  function HeaderStep(b: Binding, h: Header, parse: Parsers): (r: Result<Binding, Exception>)
    ensures r.Success? ==> r.value.uriPairs == b.uriPairs && r.value.bodyProperties == b.bodyProperties
  {
    if b.headerProperties == [] then Success(b)
    else if h.Value == [] then Failure(Thrown("IndexOutOfRangeException", IndexOutOfRangeMessage))
    else
      match FirstMatch(b.headerProperties, h.Key)
      case None => Success(b)
      case Some(i) =>
        var p := b.headerProperties[i];
        var c := DigestSpec(b, p, Some(h.Value[0]), GetParams(p).RemoveRequiredPrefix, parse);
        Success(c.(headerProperties := RemoveFirst(c.headerProperties, p)))
  }

  /** The header loop: headers in order, stopping at the first exception. */
  function HeaderPhase(b: Binding, headers: seq<Header>, parse: Parsers): (r: Result<Binding, Exception>)
    ensures r.Success? ==> r.value.uriPairs == b.uriPairs && r.value.bodyProperties == b.bodyProperties
  {
    if headers == [] then Success(b)
    else
      match HeaderPhase(b, headers[..|headers| - 1], parse)
      case Failure(e) => Failure(e)
      case Success(c) => HeaderStep(c, headers[|headers| - 1], parse)
  }

  // ------------------------------------------------------ the body

  /** The message SetValue gives when a string is stored in a property of another type. */
  function ConversionMessage(t: FieldType): string {
    ConversionText + TypeName(t) + "'."
  }

  const ConversionText := "Object of type 'System.String' cannot be converted to type '"

  /**
   * The body step: several body properties are one error; a single one gets
   * the body text as it is (no content object throws NullReferenceException, a
   * non-string property ArgumentException) and leaves the required list.
   */
  function BodyPhase(b: Binding, content: Option<string>): (r: Result<Binding, Exception>)
    ensures r.Success? ==> r.value.uriPairs == b.uriPairs
  {
    if |b.bodyProperties| > 1 then Success(b.(errors := b.errors + [BodyCountError(b.bodyProperties)]))
    else if |b.bodyProperties| == 1 then
      var p := b.bodyProperties[0];
      if content.None? then Failure(Thrown("NullReferenceException", NullReferenceMessage))
      else if p.PropertyType != Primitive("String") then Failure(Thrown("ArgumentException", ConversionMessage(p.PropertyType)))
      else Success(b.(output := b.output[p.Name := Str(content.value)], requiredProperties := RemoveFirst(b.requiredProperties, p)))
    else Success(b)
  }

  // ------------------------------------------------------ the whole run

  /** The private ReadParameters<T>: the walk, the query loop, the header loop and the body. */
  function BindSpec(request: HttpRequestMessage, pairs: seq<QueryPair>, props: seq<Property>, parse: Parsers, groupMessage: string): Result<Binding, Exception> {
    var walked := Walk(Start(pairs), props, groupMessage);
    match HeaderPhase(QueryPhase(walked, pairs, parse), request.Headers, parse)
    case Failure(e) => Failure(e)
    case Success(c) => BodyPhase(c, request.Content)
  }

  /** Every line of the final report: the collected errors, one per pending pair, one per unmet requirement. */
  function ReportLines(b: Binding): seq<string> {
    b.errors + Map(b.uriPairs, UnknownLine) + Map(b.requiredProperties, MissingLine)
  }

  /** The end of the public ReadParameters<T>: the object, or every line in one BadParameter exception. */
  function Finish(b: Binding): Result<map<string, Value>, Exception> {
    var lines := ReportLines(b);
    if |lines| > 0 then Failure(ServiceOperationException(BadParameter, Join("\r\n", lines)))
    else Success(b.output)
  }

  /** The public ReadParameters<T>. */
  function ReadParametersSpec(props: seq<Property>, request: HttpRequestMessage, unescape: string -> string, parse: Parsers, groupMessage: string): Result<map<string, Value>, Exception> {
    match BindSpec(request, QueryPairs(request.RequestUri.Query, unescape), props, parse, groupMessage)
    case Failure(e) => Failure(e)
    case Success(b) => Finish(b)
  }

  // ------------------------------------------------------ the run, as the source performs it

  /**
   * The local function DigestProperty: false when the names differ (nothing
   * changes), otherwise the prefix check and coercion of DigestSpec.
   */
  method DigestProperty(b: Binding, p: Property, rawParameterName: string, parameterValue: Option<string>, prefix: Option<string>, parse: Parsers)
    returns (matched: bool, r: Binding)
    ensures matched <==> Matches(p, rawParameterName)
    ensures matched ==> r == DigestSpec(b, p, parameterValue, prefix, parse)
    ensures !matched ==> r == b
  {
    r := b;
    var propertyName := Lower(GetSourcePropertyName(p));
    var parameterName := Lower(rawParameterName);
    if propertyName != parameterName {
      return false, r;
    }
    var d := DigestValue(p.PropertyType, parameterValue, prefix, CurrentParsedTypes, parse);
    match d {
      case PrefixMissing(px) =>
        r := r.(errors := r.errors + [PrefixError(p, px)]);
        return true, r;
      case Coerced(Success(v)) =>
        r := r.(output := r.output[p.Name := v]);
      case Coerced(Failure(m)) =>
        r := r.(errors := r.errors + [CoercionError(p, m)]);
    }
    if p in r.requiredProperties {
      r := r.(requiredProperties := RemoveFirst(r.requiredProperties, p));
    }
    matched := true;
  }

  /** The inner query loop: the properties in order until one digests the pair, which then leaves the pool. */
  method ReadQueryPair(b: Binding, pair: QueryPair, parse: Parsers) returns (r: Binding)
    ensures r == QueryStep(b, pair, parse)
  {
    r := b;
    var j := 0;
    while j < |b.queryProperties|
      invariant 0 <= j <= |b.queryProperties|
      invariant forall k :: 0 <= k < j ==> !Matches(b.queryProperties[k], pair.Key)
    {
      var matched, digested := DigestProperty(b, b.queryProperties[j], pair.Key, pair.Value, None, parse);
      if matched {
        QueryStepAt(b, pair, parse, j);
        return digested.(uriPairs := RemoveFirst(digested.uriPairs, pair));
      }
      j := j + 1;
    }
    QueryStepUnmatched(b, pair, parse);
  }

  /** The query step when the j-th query property is the first to match. */
  lemma QueryStepAt(b: Binding, pair: QueryPair, parse: Parsers, j: nat)
    requires j < |b.queryProperties| && Matches(b.queryProperties[j], pair.Key)
    requires forall k :: 0 <= k < j ==> !Matches(b.queryProperties[k], pair.Key)
    ensures var c := DigestSpec(b, b.queryProperties[j], pair.Value, None, parse);
            QueryStep(b, pair, parse) == c.(uriPairs := RemoveFirst(c.uriPairs, pair))
  {
    assert FirstMatch(b.queryProperties, pair.Key) == Some(j);
  }

  /** The query step when no query property matches: nothing changes. */
  lemma QueryStepUnmatched(b: Binding, pair: QueryPair, parse: Parsers)
    requires forall k :: 0 <= k < |b.queryProperties| ==> !Matches(b.queryProperties[k], pair.Key)
    ensures QueryStep(b, pair, parse) == b
  {
    assert FirstMatch(b.queryProperties, pair.Key) == None;
  }

  /**
   * The inner header loop over a snapshot of the header properties: the first
   * value is read on every pass, and the property that digests the header is
   * removed from the list.
   */
  method ReadHeader(b: Binding, h: Header, parse: Parsers) returns (r: Result<Binding, Exception>)
    ensures r == HeaderStep(b, h, parse)
  {
    var snapshot := b.headerProperties;
    var j := 0;
    while j < |snapshot|
      invariant 0 <= j <= |snapshot|
      invariant forall k :: 0 <= k < j ==> !Matches(snapshot[k], h.Key)
      invariant j > 0 ==> h.Value != []
    {
      if |h.Value| == 0 {
        return Failure(Thrown("IndexOutOfRangeException", IndexOutOfRangeMessage));
      }
      var p := snapshot[j];
      var matched, digested := DigestProperty(b, p, h.Key, Some(h.Value[0]), GetParams(p).RemoveRequiredPrefix, parse);
      if matched {
        HeaderStepAt(b, h, parse, j);
        return Success(digested.(headerProperties := RemoveFirst(digested.headerProperties, p)));
      }
      j := j + 1;
    }
    HeaderStepUnmatched(b, h, parse);
    return Success(b);
  }

  /** The header step when the j-th header property is the first to answer. */
  lemma HeaderStepAt(b: Binding, h: Header, parse: Parsers, j: nat)
    requires j < |b.headerProperties| && h.Value != []
    requires Matches(b.headerProperties[j], h.Key)
    requires forall k :: 0 <= k < j ==> !Matches(b.headerProperties[k], h.Key)
    ensures var p := b.headerProperties[j];
            var c := DigestSpec(b, p, Some(h.Value[0]), GetParams(p).RemoveRequiredPrefix, parse);
            HeaderStep(b, h, parse) == Success(c.(headerProperties := RemoveFirst(c.headerProperties, p)))
  {
    assert FirstMatch(b.headerProperties, h.Key) == Some(j);
  }

  /** The header step when no header property answers, or none is left. */
  lemma HeaderStepUnmatched(b: Binding, h: Header, parse: Parsers)
    requires b.headerProperties != [] ==> h.Value != []
    requires forall k :: 0 <= k < |b.headerProperties| ==> !Matches(b.headerProperties[k], h.Key)
    ensures HeaderStep(b, h, parse) == Success(b)
  {
    if b.headerProperties != [] {
      assert FirstMatch(b.headerProperties, h.Key) == None;
    }
  }

  /** The body step, as the source performs it. */
  method ReadBody(b: Binding, content: Option<string>) returns (r: Result<Binding, Exception>)
    ensures r == BodyPhase(b, content)
  {
    if |b.bodyProperties| > 1 {
      return Success(b.(errors := b.errors + [BodyCountError(b.bodyProperties)]));
    } else if |b.bodyProperties| == 1 {
      if content.None? {
        return Failure(Thrown("NullReferenceException", NullReferenceMessage));
      }
      var bodyText := content.value;
      var p := b.bodyProperties[0];
      if p.PropertyType != Primitive("String") {
        return Failure(Thrown("ArgumentException", ConversionMessage(p.PropertyType)));
      }
      var c := b.(output := b.output[p.Name := Str(bodyText)]);
      if p in c.requiredProperties {
        c := c.(requiredProperties := RemoveFirst(c.requiredProperties, p));
      }
      return Success(c);
    }
    return Success(b);
  }

  /** Once the header loop has thrown, later headers change nothing. */
  lemma {:induction false} HeaderPhaseFailureExtends(b: Binding, headers: seq<Header>, k: nat, parse: Parsers)
    requires k <= |headers| && HeaderPhase(b, headers[..k], parse).Failure?
    ensures HeaderPhase(b, headers, parse) == HeaderPhase(b, headers[..k], parse)
    decreases |headers| - k
  {
    if k < |headers| {
      assert headers[..k + 1][..k] == headers[..k];
      HeaderPhaseFailureExtends(b, headers, k + 1, parse);
    } else {
      assert headers[..k] == headers;
    }
  }

  /** The walk over GetProperties(): each property sorted into the lists, or its error recorded. */
  method WalkProperties(pairs: seq<QueryPair>, props: seq<Property>, groupMessage: string) returns (b: Binding)
    ensures b == Walk(Start(pairs), props, groupMessage)
  {
    b := Start(pairs);
    var i := 0;
    while i < |props|
      invariant 0 <= i <= |props|
      invariant b == Walk(Start(pairs), props[..i], groupMessage)
    {
      assert props[..i + 1][..i] == props[..i];
      var p := props[i];
      var a := GetParams(p);
      if !a.Ignore {
        if IsGroup(p.PropertyType) {
          b := b.(errors := b.errors + [GroupError(p, groupMessage)]);
        } else {
          if a.IsRequired {
            b := b.(requiredProperties := b.requiredProperties + [p]);
          }
          match a.Source {
            case Query => b := b.(queryProperties := b.queryProperties + [p]);
            case Header => b := b.(headerProperties := b.headerProperties + [p]);
            case Body => b := b.(bodyProperties := b.bodyProperties + [p]);
            case OtherSource(_) => b := b.(errors := b.errors + [SourceError(p)]);
          }
        }
      }
      i := i + 1;
    }
    assert props[..i] == props;
  }

  /** The query loop over a snapshot of the pending pairs. */
  method ReadQueryPairs(walked: Binding, snapshot: seq<QueryPair>, parse: Parsers) returns (b: Binding)
    ensures b == QueryPhase(walked, snapshot, parse)
  {
    b := walked;
    var i := 0;
    while i < |snapshot|
      invariant 0 <= i <= |snapshot|
      invariant b == QueryPhase(walked, snapshot[..i], parse)
    {
      assert snapshot[..i + 1][..i] == snapshot[..i];
      b := ReadQueryPair(b, snapshot[i], parse);
      i := i + 1;
    }
    assert snapshot[..i] == snapshot;
  }

  /** The header loop: headers in order, stopping at the first exception. */
  method ReadHeaders(queried: Binding, headers: seq<Header>, parse: Parsers) returns (r: Result<Binding, Exception>)
    ensures r == HeaderPhase(queried, headers, parse)
  {
    var b := queried;
    var i := 0;
    while i < |headers|
      invariant 0 <= i <= |headers|
      invariant HeaderPhase(queried, headers[..i], parse) == Success(b)
    {
      assert headers[..i + 1][..i] == headers[..i];
      var step := ReadHeader(b, headers[i], parse);
      if step.Failure? {
        HeaderPhaseFailureExtends(queried, headers, i + 1, parse);
        return Failure(step.error);
      }
      b := step.value;
      i := i + 1;
    }
    assert headers[..i] == headers;
    return Success(b);
  }

  /** The private ReadParameters<T>: the walk, then the query, header and body loops over the shared lists. */
  method Bind(request: HttpRequestMessage, pairs: seq<QueryPair>, props: seq<Property>, parse: Parsers, groupMessage: string)
    returns (r: Result<Binding, Exception>)
    ensures r == BindSpec(request, pairs, props, parse, groupMessage)
  {
    var walked := WalkProperties(pairs, props, groupMessage);
    var queried := ReadQueryPairs(walked, walked.uriPairs, parse);
    var headed := ReadHeaders(queried, request.Headers, parse);
    if headed.Failure? {
      return Failure(headed.error);
    }
    r := ReadBody(headed.value, request.Content);
  }

  /** The end of the public ReadParameters<T>: one line per pending pair, then per unmet requirement, then the verdict. */
  method Report(b: Binding) returns (r: Result<map<string, Value>, Exception>)
    ensures r == Finish(b)
  {
    var errors := b.errors;
    var i := 0;
    while i < |b.uriPairs|
      invariant 0 <= i <= |b.uriPairs|
      invariant errors == b.errors + Map(b.uriPairs[..i], UnknownLine)
    {
      assert Map(b.uriPairs[..i + 1], UnknownLine) == Map(b.uriPairs[..i], UnknownLine) + [UnknownLine(b.uriPairs[i])];
      errors := errors + [UnknownLine(b.uriPairs[i])];
      i := i + 1;
    }
    assert b.uriPairs[..i] == b.uriPairs;
    i := 0;
    while i < |b.requiredProperties|
      invariant 0 <= i <= |b.requiredProperties|
      invariant errors == b.errors + Map(b.uriPairs, UnknownLine) + Map(b.requiredProperties[..i], MissingLine)
    {
      assert Map(b.requiredProperties[..i + 1], MissingLine) == Map(b.requiredProperties[..i], MissingLine) + [MissingLine(b.requiredProperties[i])];
      errors := errors + [MissingLine(b.requiredProperties[i])];
      i := i + 1;
    }
    assert b.requiredProperties[..i] == b.requiredProperties;
    if |errors| > 0 {
      return Failure(ServiceOperationException(BadParameter, Join("\r\n", errors)));
    }
    return Success(b.output);
  }

  /** The public ReadParameters<T>: split the query, bind, then report what is left over. */
  method ReadParameters(props: seq<Property>, request: HttpRequestMessage, unescape: string -> string, parse: Parsers, groupMessage: string)
    returns (r: Result<map<string, Value>, Exception>)
    ensures r == ReadParametersSpec(props, request, unescape, parse, groupMessage)
  {
    var uriPairs := GetQueryNameValuePairs(request.RequestUri.Query, unescape);
    var bound := Bind(request, uriPairs, props, parse, groupMessage);
    if bound.Failure? {
      return Failure(bound.error);
    }
    r := Report(bound.value);
  }

  // ------------------------------------------------------ what a run promises

  /** The pairs no query property claims, in their original order. */
  function UnmatchedPairs(queryProperties: seq<Property>, pairs: seq<QueryPair>): (r: seq<QueryPair>)
    ensures forall y :: y in r ==> y in pairs && FirstMatch(queryProperties, y.Key).None?
  {
    if pairs == [] then []
    else
      var init := UnmatchedPairs(queryProperties, pairs[..|pairs| - 1]);
      assert forall y :: y in pairs[..|pairs| - 1] ==> y in pairs;
      if FirstMatch(queryProperties, pairs[|pairs| - 1].Key).None? then init + [pairs[|pairs| - 1]] else init
  }

  /**
   * The walk files a property in the query, header or body list exactly when
   * it is bindable and declares that source, and in the required list exactly
   * when it is bindable and required; from a list of distinct properties every
   * list it builds is free of duplicates.
   */
  lemma WalkClassifies(pairs: seq<QueryPair>, props: seq<Property>, groupMessage: string)
    requires NoDuplicates(props)
    ensures var w := Walk(Start(pairs), props, groupMessage);
            (forall p :: p in w.queryProperties <==> p in props && Bindable(p) && GetParams(p).Source == Query)
            && (forall p :: p in w.headerProperties <==> p in props && Bindable(p) && GetParams(p).Source == ParameterIn.Header)
            && (forall p :: p in w.bodyProperties <==> p in props && Bindable(p) && GetParams(p).Source == Body)
            && (forall p :: p in w.requiredProperties <==> p in props && Bindable(p) && GetParams(p).IsRequired)
            && NoDuplicates(w.queryProperties) && NoDuplicates(w.headerProperties)
            && NoDuplicates(w.bodyProperties) && NoDuplicates(w.requiredProperties)
  {
    WalkFiles(pairs, props, groupMessage);
    WalkNoDuplicates(pairs, props, groupMessage);
  }

  /** The walk files a property under a list exactly when it is bindable and declares that source, or is required. */
  lemma {:induction false} WalkFiles(pairs: seq<QueryPair>, props: seq<Property>, groupMessage: string)
    ensures var w := Walk(Start(pairs), props, groupMessage);
            (forall p :: p in w.queryProperties <==> p in props && Bindable(p) && GetParams(p).Source == Query)
            && (forall p :: p in w.headerProperties <==> p in props && Bindable(p) && GetParams(p).Source == ParameterIn.Header)
            && (forall p :: p in w.bodyProperties <==> p in props && Bindable(p) && GetParams(p).Source == Body)
            && (forall p :: p in w.requiredProperties <==> p in props && Bindable(p) && GetParams(p).IsRequired)
  {
    if props != [] {
      var n := |props| - 1;
      var init := props[..n];
      assert forall p :: p in props <==> p in init || p == props[n];
      WalkFiles(pairs, init, groupMessage);
      WalkStepFiles(Walk(Start(pairs), init, groupMessage), props[n], groupMessage);
    }
  }

  /** One step of the walk adds the property to exactly the lists it belongs in. */
  lemma WalkStepFiles(b: Binding, p: Property, groupMessage: string)
    ensures var c := WalkStep(b, p, groupMessage);
            (forall q :: q in c.queryProperties <==> q in b.queryProperties || (q == p && Bindable(p) && GetParams(p).Source == Query))
            && (forall q :: q in c.headerProperties <==> q in b.headerProperties || (q == p && Bindable(p) && GetParams(p).Source == ParameterIn.Header))
            && (forall q :: q in c.bodyProperties <==> q in b.bodyProperties || (q == p && Bindable(p) && GetParams(p).Source == Body))
            && (forall q :: q in c.requiredProperties <==> q in b.requiredProperties || (q == p && Bindable(p) && GetParams(p).IsRequired))
  {
  }

  /** From distinct properties the walk builds lists without duplicates. */
  lemma {:induction false} WalkNoDuplicates(pairs: seq<QueryPair>, props: seq<Property>, groupMessage: string)
    requires NoDuplicates(props)
    ensures var w := Walk(Start(pairs), props, groupMessage);
            NoDuplicates(w.queryProperties) && NoDuplicates(w.headerProperties)
            && NoDuplicates(w.bodyProperties) && NoDuplicates(w.requiredProperties)
  {
    if props != [] {
      var n := |props| - 1;
      var init := props[..n];
      var last := props[n];
      assert NoDuplicates(init) by {
        forall i, j | 0 <= i < j < |init| ensures init[i] != init[j] {
          assert init[i] == props[i] && init[j] == props[j];
        }
      }
      assert last !in init by {
        forall k | 0 <= k < |init| ensures init[k] != last {
          assert init[k] == props[k];
        }
      }
      assert props == init + [last];
      WalkNoDuplicates(pairs, init, groupMessage);
      WalkFiles(pairs, init, groupMessage);
      var w := Walk(Start(pairs), init, groupMessage);
      if Bindable(last) {
        if GetParams(last).IsRequired {
          NoDuplicatesAppend(w.requiredProperties, last);
        }
        match GetParams(last).Source {
          case Query => NoDuplicatesAppend(w.queryProperties, last);
          case Header => NoDuplicatesAppend(w.headerProperties, last);
          case Body => NoDuplicatesAppend(w.bodyProperties, last);
          case OtherSource(_) =>
        }
      }
    }
  }

  /** During the query loop the pairs not yet visited stay pending behind the unmatched ones already visited. */
  lemma {:induction false} QueryPhasePendingFrom(b: Binding, xs: seq<QueryPair>, rest: seq<QueryPair>, parse: Parsers)
    requires b.uriPairs == xs + rest
    ensures QueryPhase(b, xs, parse).uriPairs == UnmatchedPairs(b.queryProperties, xs) + rest
  {
    if xs != [] {
      var n := |xs| - 1;
      var init := xs[..n];
      var last := xs[n];
      assert xs == init + [last];
      assert b.uriPairs == init + ([last] + rest);
      QueryPhasePendingFrom(b, init, [last] + rest, parse);
      var c := QueryPhase(b, init, parse);
      var unmatched := UnmatchedPairs(b.queryProperties, init);
      assert c.uriPairs == unmatched + [last] + rest;
      match FirstMatch(b.queryProperties, last.Key) {
        case None =>
        case Some(i) =>
          assert last !in unmatched;
          RemoveFirstSkips(unmatched, last, rest);
          assert DigestSpec(c, c.queryProperties[i], last.Value, None, parse).uriPairs == c.uriPairs;
      }
    }
  }

  /**
   * After the query loop the pending pool holds exactly the pairs that no
   * query property claimed, in their original order; a pair is pending if and
   * only if no bindable Query property of the type matches its key, so a value
   * given for an ignored property is reported as unknown.
   */
  lemma PendingPairsAreUnclaimed(pairs: seq<QueryPair>, props: seq<Property>, groupMessage: string, parse: Parsers)
    ensures var w := Walk(Start(pairs), props, groupMessage);
            QueryPhase(w, pairs, parse).uriPairs == UnmatchedPairs(w.queryProperties, pairs)
    ensures var w := Walk(Start(pairs), props, groupMessage);
            forall y :: y in QueryPhase(w, pairs, parse).uriPairs <==>
              y in pairs && forall p :: p in props && Bindable(p) && GetParams(p).Source == Query ==> !Matches(p, y.Key)
  {
    var w := Walk(Start(pairs), props, groupMessage);
    assert w.uriPairs == pairs + [];
    QueryPhasePendingFrom(w, pairs, [], parse);
    assert UnmatchedPairs(w.queryProperties, pairs) + [] == UnmatchedPairs(w.queryProperties, pairs);
    WalkFiles(pairs, props, groupMessage);
    forall y | y in pairs && (forall p :: p in props && Bindable(p) && GetParams(p).Source == Query ==> !Matches(p, y.Key))
      ensures y in UnmatchedPairs(w.queryProperties, pairs)
    {
      UnmatchedPairsComplete(w.queryProperties, pairs, y);
    }
    forall y | y in UnmatchedPairs(w.queryProperties, pairs)
      ensures forall p :: p in props && Bindable(p) && GetParams(p).Source == Query ==> !Matches(p, y.Key)
    {
      forall p | p in props && Bindable(p) && GetParams(p).Source == Query ensures !Matches(p, y.Key) {
        var k :| 0 <= k < |w.queryProperties| && w.queryProperties[k] == p;
      }
    }
  }

  /** A pair that no query property matches is kept among the unmatched ones. */
  lemma {:induction false} UnmatchedPairsComplete(queryProperties: seq<Property>, pairs: seq<QueryPair>, y: QueryPair)
    requires y in pairs && forall p :: p in queryProperties ==> !Matches(p, y.Key)
    ensures y in UnmatchedPairs(queryProperties, pairs)
  {
    var n := |pairs| - 1;
    assert pairs == pairs[..n] + [pairs[n]];
    if y != pairs[n] {
      assert y in pairs[..n];
      UnmatchedPairsComplete(queryProperties, pairs[..n], y);
    } else {
      forall i | 0 <= i < |queryProperties| ensures !Matches(queryProperties[i], y.Key) {
        assert queryProperties[i] in queryProperties;
      }
    }
  }

  /**
   * A digest whose prefix was missing records one error and leaves the
   * required list as it was (the property is then also reported missing); a
   * digest that coerced, successfully or not, takes the property off the
   * required list and touches nothing else there; only a successful one binds.
   */
  lemma DigestDischarges(b: Binding, p: Property, value: Option<string>, prefix: Option<string>, parse: Parsers)
    requires NoDuplicates(b.requiredProperties)
    ensures var d := DigestMatched(p.PropertyType, value, prefix, CurrentParsedTypes, parse);
            var r := DigestSpec(b, p, value, prefix, parse);
            (d.PrefixMissing? ==> r.requiredProperties == b.requiredProperties && r.output == b.output
                                  && r.errors == b.errors + [PrefixError(p, d.prefix)])
            && (d.Coerced? ==> p !in r.requiredProperties && NoDuplicates(r.requiredProperties)
                               && forall q :: q != p ==> (q in r.requiredProperties <==> q in b.requiredProperties))
            && (d.Coerced? && d.result.Failure? ==> r.output == b.output && r.errors == b.errors + [CoercionError(p, d.result.error)])
            && (d.Coerced? && d.result.Success? ==> r.output == b.output[p.Name := d.result.value] && r.errors == b.errors)
  {
    RemoveFirstNoDuplicates(b.requiredProperties, p);
  }

  /**
   * A header is digested by at most one header property, which then leaves the
   * list; the list only ever shrinks and stays free of duplicates, so a
   * property bound by one header is never bound again.
   */
  lemma HeaderStepConsumes(b: Binding, h: Header, parse: Parsers)
    requires NoDuplicates(b.headerProperties) && HeaderStep(b, h, parse).Success?
    ensures var r := HeaderStep(b, h, parse).value;
            NoDuplicates(r.headerProperties)
            && (forall q :: q in r.headerProperties ==> q in b.headerProperties)
            && (b.headerProperties != [] && FirstMatch(b.headerProperties, h.Key).Some? ==>
                  b.headerProperties[FirstMatch(b.headerProperties, h.Key).value] !in r.headerProperties)
  {
    if b.headerProperties != [] && FirstMatch(b.headerProperties, h.Key).Some? {
      var p := b.headerProperties[FirstMatch(b.headerProperties, h.Key).value];
      var c := DigestSpec(b, p, Some(h.Value[0]), GetParams(p).RemoveRequiredPrefix, parse);
      assert c.headerProperties == b.headerProperties;
      RemoveFirstNoDuplicates(b.headerProperties, p);
    }
  }

  /** Over the whole header loop the header list only shrinks and stays free of duplicates. */
  lemma {:induction false} HeaderPhaseShrinks(b: Binding, headers: seq<Header>, parse: Parsers)
    requires NoDuplicates(b.headerProperties) && HeaderPhase(b, headers, parse).Success?
    ensures NoDuplicates(HeaderPhase(b, headers, parse).value.headerProperties)
    ensures forall q :: q in HeaderPhase(b, headers, parse).value.headerProperties ==> q in b.headerProperties
  {
    if headers != [] {
      var init := headers[..|headers| - 1];
      HeaderPhaseShrinks(b, init, parse);
      HeaderStepConsumes(HeaderPhase(b, init, parse).value, headers[|headers| - 1], parse);
    }
  }

  /**
   * The report: success exactly when no error was collected, no pair is
   * pending and no requirement is unmet, and then the object is returned;
   * otherwise a single BadParameter exception whose message joins with "\r\n"
   * the collected errors, then one line per pending pair, then one line per
   * unmet requirement, in that order.
   */
  lemma FinishOutcome(b: Binding)
    ensures Finish(b).Success? <==> b.errors == [] && b.uriPairs == [] && b.requiredProperties == []
    ensures Finish(b).Success? ==> Finish(b).value == b.output
    ensures Finish(b).Failure? ==> Finish(b).error == ServiceOperationException(BadParameter, Join("\r\n", ReportLines(b)))
    ensures |ReportLines(b)| == |b.errors| + |b.uriPairs| + |b.requiredProperties|
    ensures ReportLines(b)[..|b.errors|] == b.errors
    ensures forall i :: 0 <= i < |b.uriPairs| ==> ReportLines(b)[|b.errors| + i] == UnknownLine(b.uriPairs[i])
    ensures forall i :: 0 <= i < |b.requiredProperties| ==>
              ReportLines(b)[|b.errors| + |b.uriPairs| + i] == MissingLine(b.requiredProperties[i])
  {
    var lines := ReportLines(b);
    if lines == [] {
      assert |lines| == |b.errors| + |b.uriPairs| + |b.requiredProperties|;
    }
  }

  /**
   * When binding gets as far as the report, the unknown-parameter lines name
   * exactly the query pairs that no bindable Query property claimed, in
   * query-string order.
   */
  lemma ReportedUnknownPairs(props: seq<Property>, request: HttpRequestMessage, unescape: string -> string, parse: Parsers, groupMessage: string)
    requires NoDuplicates(props)
    requires BindSpec(request, QueryPairs(request.RequestUri.Query, unescape), props, parse, groupMessage).Success?
    ensures var pairs := QueryPairs(request.RequestUri.Query, unescape);
            var b := BindSpec(request, pairs, props, parse, groupMessage).value;
            b.uriPairs == UnmatchedPairs(Walk(Start(pairs), props, groupMessage).queryProperties, pairs)
            && ReadParametersSpec(props, request, unescape, parse, groupMessage) == Finish(b)
  {
    var pairs := QueryPairs(request.RequestUri.Query, unescape);
    PendingPairsAreUnclaimed(pairs, props, groupMessage, parse);
  }

  /**
   * What the body step does in each case: several body properties add the one
   * count error and change nothing else, none changes nothing, and a single
   * one throws without a content object or when its type is not String.
   */
  lemma BodyPhaseCases(b: Binding, content: Option<string>)
    ensures |b.bodyProperties| > 1 ==>
      BodyPhase(b, content) == Success(b.(errors := b.errors + [BodyCountError(b.bodyProperties)]))
    ensures |b.bodyProperties| == 0 ==> BodyPhase(b, content) == Success(b)
    ensures |b.bodyProperties| == 1 && content.None? ==>
      BodyPhase(b, content) == Failure(Thrown("NullReferenceException", NullReferenceMessage))
    ensures |b.bodyProperties| == 1 && content.Some? && b.bodyProperties[0].PropertyType != Primitive("String") ==>
      BodyPhase(b, content) == Failure(Thrown("ArgumentException", ConversionMessage(b.bodyProperties[0].PropertyType)))
  {
  }

  /**
   * A single String body property receives the body text and is no longer
   * required; every other bound value, every other requirement, the errors
   * and the other lists stay as they were.
   */
  lemma BodySingleBinds(b: Binding, content: Option<string>)
    requires |b.bodyProperties| == 1 && content.Some?
    requires b.bodyProperties[0].PropertyType == Primitive("String")
    requires NoDuplicates(b.requiredProperties)
    ensures var r := BodyPhase(b, content);
            var p := b.bodyProperties[0];
            r.Success?
            && p.Name in r.value.output && r.value.output[p.Name] == Str(content.value)
            && (forall k :: k != p.Name ==> (k in r.value.output <==> k in b.output))
            && (forall k :: k != p.Name && k in b.output ==> r.value.output[k] == b.output[k])
            && p !in r.value.requiredProperties
            && (forall q :: q != p ==> (q in r.value.requiredProperties <==> q in b.requiredProperties))
            && NoDuplicates(r.value.requiredProperties)
            && r.value.errors == b.errors
            && r.value.uriPairs == b.uriPairs
            && r.value.queryProperties == b.queryProperties
            && r.value.headerProperties == b.headerProperties
            && r.value.bodyProperties == b.bodyProperties
  {
    RemoveFirstNoDuplicates(b.requiredProperties, b.bodyProperties[0]);
  }

  /** When property names have no comma, the body error's list gives back the body properties' names. */
  lemma BodyCountErrorNames(bodyProperties: seq<Property>)
    requires |bodyProperties| >= 1
    requires forall p :: p in bodyProperties ==> ',' !in p.Name
    ensures |BodyCountText| <= |BodyCountError(bodyProperties)|
    ensures BodyCountError(bodyProperties)[..|BodyCountText|] == BodyCountText
    ensures Split(BodyCountError(bodyProperties)[|BodyCountText|..], ',') == Map(bodyProperties, PropertyName)
  {
    var names := Map(bodyProperties, PropertyName);
    forall n | n in names ensures ',' !in n {
      var i :| 0 <= i < |names| && names[i] == n;
      assert bodyProperties[i] in bodyProperties;
    }
    assert BodyCountError(bodyProperties)[|BodyCountText|..] == Join([','], names);
    SplitJoin(names, ',');
  }

  // ------------------------------------------------------ the cases the tests pin down

  /** `$Skip` renames Query_Skip: the key "$skip" binds it, the property's own name "Query_skip" does not. */
  lemma DollarSkipRename()
    ensures var p := Property("Query_Skip", Primitive("Int32"), Some(DefaultAttribute().(SourcePropertyName := Some("$Skip"))));
            Matches(p, "$skip") && !Matches(p, "Query_skip")
  {
    var p := Property("Query_Skip", Primitive("Int32"), Some(DefaultAttribute().(SourcePropertyName := Some("$Skip"))));
    assert Lower("$Skip") == "$skip";
    assert Lower("Query_skip")[0] == 'q';
  }

  /** An Int32 property given a value its parser rejects reports the parser's message under the property's type and name. */
  lemma UnparsableIntMessage(b: Binding, value: string, parse: Parsers, message: string)
    requires parse(TypeParse("Int32"), Some(value)) == Failure(message)
    ensures var p := Property("IntThing", Primitive("Int32"), None);
            DigestSpec(b, p, Some(value), None, parse).errors == b.errors + ["Error on (Int32) property 'IntThing': " + message]
  {
    var p := Property("IntThing", Primitive("Int32"), None);
    assert "Int32" in CurrentParsedTypes;
    assert ParseValue(p.PropertyType, Some(value), CurrentParsedTypes, parse) == Failure(message);
    assert DigestMatched(p.PropertyType, Some(value), None, CurrentParsedTypes, parse) == Coerced(Failure(message));
    assert GetSourcePropertyName(p) == "IntThing";
    assert Label(p) == "Error on (Int32) property 'IntThing'";
    assert CoercionError(p, message) == "Error on (Int32) property 'IntThing': " + message;
  }

  /** Two unknown keys and nothing else give the two-line message of the unknown-parameter test. */
  lemma UnknownParametersMessage(output: map<string, Value>, bodyProperties: seq<Property>)
    ensures var b := Binding([QueryPair("turtLE", Some("blah")), QueryPair("NotAParameter", Some("1"))], [], [], [], bodyProperties, [], output);
            Finish(b) == Failure(ServiceOperationException(BadParameter,
              "Unknown URI parameter:  'turtLE'" + "\r\n" + "Unknown URI parameter:  'NotAParameter'"))
  {
    var b := Binding([QueryPair("turtLE", Some("blah")), QueryPair("NotAParameter", Some("1"))], [], [], [], bodyProperties, [], output);
    var lines := ReportLines(b);
    assert lines == [UnknownLine(b.uriPairs[0]), UnknownLine(b.uriPairs[1])];
    assert Join("\r\n", lines) == lines[0] + "\r\n" + lines[1];
    assert lines[0] == "Unknown URI parameter:  'turtLE'";
    assert lines[1] == "Unknown URI parameter:  'NotAParameter'";
  }
}
