# Request binding and dispatch in Azure Functions RocketScience

RocketScience connects an HTTP-triggered Azure function to a plain C#
handler object. A trigger calls `LaunchPad.ExecuteHttpTrigger`. The launch pad
finds or creates a `Vehicle` for the route. The vehicle checks the handler
method's parameters once, then on every call builds the arguments:

- the argument class, filled from the request by the binder `ReadParameters<T>`;
- the logger;
- in the shared library, the trigger's extra arguments.

It then invokes the method through reflection. `SafelyTry` turns the result,
or the exception, into an HTTP response that carries a `ServiceResponse`
envelope.

This project models that core in Dafny for all three copies of the library:

- **Shared library** (`AFRocketScienceShared`):
  - the binder: nested parameter groups, `SourcePropertyName`, header prefixes, the body parameter;
  - `RSHttpRequestMessage` with its lazily computed parts;
  - the vehicle with extra arguments;
  - the launch pad, keyed by method and full URI, with an `Error` that unwraps `TargetInvocationException`.
- **DotNetStandard library**:
  - the binder with `FixPropertyName`;
  - the two-argument vehicle;
  - the launch pad, keyed by path.
- **DotNetFramework library**:
  - the extension-method binder with `FunctionParameterRequired`, `FunctionParameterFromHeader` and `__`-to-`$` names;
  - `ControllerHandlerBase`.

Pure computations are datatypes and functions. The binders' loops, the query
splitter and the argument loops are methods, each proved equal to a
specification function. Objects whose fields change are classes:

- `RSHttpRequestMessage`, with its `Lazy<>` fields;
- `Vehicle`, with its cached parameter definitions;
- `LaunchPad`, with its vehicle dictionary;
- `ServiceResponse`;
- the logger.

The .NET parsers (`Int32.Parse`, `Enum.Parse`, …) and `Uri.UnescapeDataString`
are function parameters. The handler method's behaviour is a function from
argument lists to a value or an exception. The calling function that the
source finds on the call stack is a parameter, and so is the log key that it
takes from the clock.

## Model

| member | source | states |
|---|---|---|
| Descriptors.DefaultAttribute | src/AFRocketScienceShared/FunctionParameter/FunctionParameterAttributes.cs:11-58 | a fresh attribute reads from the query, is optional and not ignored, and has no prefix, rename or description |
| Descriptors.GetParams | src/DotNetStandardLibrary/FunctionParameter/FunctionParameterExtensions.cs:14-18 | the declared attribute when there is one, otherwise the default attribute; never null |
| Descriptors.GetSourcePropertyName | src/DotNetStandardLibrary/FunctionParameter/FunctionParameterExtensions.cs:20-24 | a declared SourcePropertyName whenever it is set (even empty), otherwise the property's own name |
| Descriptors.UndecoratedDefaults | src/AFRocketScienceShared/FunctionParameter/FunctionParameterAttributes.cs:16-28 | an undecorated property binds under its own name, from the query, optional, with no prefix |
| Descriptors.RenameReplacesName | src/AFRocketScienceShared/FunctionParameter/FunctionParameterAttributes.cs:37-42 | a declared SourcePropertyName is the name the property answers to |
| Exceptions.ErrorCodeNamesDistinct | src/AFRocketScienceShared/Service/ServiceOperationError.cs:8-15 | in the shared enum two codes with the same name are the same code |
| Coercion.ParseValue | src/AFRocketScienceShared/Service/Vehicle.cs:321-341 | a String is trimmed (the result has no surrounding white space); a type outside the switch fails with "Unknown type: <name>" |
| Coercion.ParseAll | src/AFRocketScienceShared/Service/Vehicle.cs:244-251 | on success one element per part, each what ParseValue makes of its part; on failure the message of some part's parse |
| Coercion.ParseAllFirstFailure | src/AFRocketScienceShared/Service/Vehicle.cs:247-250 | an array fails with the message of its first unparsable part |
| Coercion.ParseAllFailureExtends | src/AFRocketScienceShared/Service/Vehicle.cs:247-250 | once a prefix of the parts fails, every longer list fails the same way |
| Coercion.CoerceSpec | src/AFRocketScienceShared/Service/Vehicle.cs:242-256 | an array value binds one element per comma-separated part; a null array value fails as Split on null does |
| Coercion.DigestMatched | src/AFRocketScienceShared/Service/Vehicle.cs:230-257 | the prefix is missing exactly when one is set and the value does not start with it; otherwise the value, without the prefix, is coerced |
| Coercion.ParseParts | src/AFRocketScienceShared/Service/Vehicle.cs:244-251 | the array loop computes ParseAll |
| Coercion.DigestValue | src/AFRocketScienceShared/Service/Vehicle.cs:230-256 | the try block of DigestProperty computes DigestMatched |
| Coercion.ArrayBindsEveryPart | src/AFRocketScienceShared/Service/Vehicle.cs:244-251 | a bound array has exactly as many elements as the value has parts, element i parsed from part i |
| QueryString.PartToPair | src/AFRocketScienceShared/Service/Vehicle.cs:115-118 | a part gives no pair exactly when it is blank after trimming |
| QueryString.PartToPairWellFormed | src/AFRocketScienceShared/Service/Vehicle.cs:115-118 | the key has no '=', the value is trimmed, and the value is null exactly when the trimmed part has no '=' (the key is then the whole part) |
| QueryString.PairsOfWellFormed | src/AFRocketScienceShared/Service/Vehicle.cs:113-119 | every pair from '&'-free parts is well formed |
| QueryString.QueryPairsWellFormed | src/AFRocketScienceShared/Service/Vehicle.cs:109-122 | every pair of a query string has a key without '&' or '=', a trimmed value, and a non-blank key when the value is null |
| QueryString.GetQueryNameValuePairs | src/AFRocketScienceShared/Service/Vehicle.cs:109-122 | the splitter loop computes QueryPairs: one pair per non-blank part, in order |
| QueryString.PairRoundTrip | src/AFRocketScienceShared/Service/Vehicle.cs:115-118 | a well-formed pair written as `key=value` is read back as the same pair |
| QueryString.QueryRoundTrip | src/AFRocketScienceShared/Service/Vehicle.cs:109-122 | splitting the query string built from well-formed pairs gives back the same pairs in order |
| RequestTranslation.Concat | src/AFRocketScienceShared/HttpRequestTranslation/RSHttpRequestMessage.cs:49 | a header with one value flattens to that value |
| RequestTranslation.ConcatIsJoin | src/AFRocketScienceShared/HttpRequestTranslation/RSHttpRequestMessage.cs:49 | concatenating the values is String.Join with the empty separator |
| RequestTranslation.HeaderPairsFlatten | src/AFRocketScienceShared/HttpRequestTranslation/RSHttpRequestMessage.cs:43-52 | one pair per header, in order, under the header's name, with its values joined by "" |
| RequestTranslation.RSHttpRequestMessage.constructor | src/AFRocketScienceShared/HttpRequestTranslation/RSHttpRequestMessage.cs:29-36 | wraps the request with nothing computed yet |
| RequestTranslation.RSHttpRequestMessage.Key | src/AFRocketScienceShared/HttpRequestTranslation/RSHttpRequestMessage.cs:13 | the key reads back as the method, then '>' at the method's length, then the full URI |
| RequestTranslation.RSHttpRequestMessage.ConstructHeaderParts | src/AFRocketScienceShared/HttpRequestTranslation/RSHttpRequestMessage.cs:43-52 | the header loop computes HeaderPairs |
| RequestTranslation.RSHttpRequestMessage.ConstructQueryParts | src/AFRocketScienceShared/HttpRequestTranslation/RSHttpRequestMessage.cs:61-76 | the same splitter as the vehicles' GetQueryNameValuePairs |
| RequestTranslation.RSHttpRequestMessage.QueryParts | src/AFRocketScienceShared/HttpRequestTranslation/RSHttpRequestMessage.cs:15-18 | the split query, computed on the first read only and then kept; the other fields are untouched |
| RequestTranslation.RSHttpRequestMessage.Headers | src/AFRocketScienceShared/HttpRequestTranslation/RSHttpRequestMessage.cs:16-19 | the flattened headers, computed on the first read only and then kept |
| RequestTranslation.RSHttpRequestMessage.Content | src/AFRocketScienceShared/HttpRequestTranslation/RSHttpRequestMessage.cs:34 | the body text, null without a content object, read once and kept |
| RequestTranslation.ReadQueryPartsTwice | src/AFRocketScienceShared/HttpRequestTranslation/RSHttpRequestMessage.cs:15-18 | two reads give the same pairs and run the splitter once |
| Responses.GetObjectArrayFromObject | src/AFRocketScienceShared/Service/StandardResponse.cs:54-75 | null gives no values; a sequence gives its elements; any other object gives itself; an unboxed value-type array (and only that) throws the boxing ArgumentException |
| Responses.ValuesAreStable | src/AFRocketScienceShared/Service/StandardResponse.cs:54-75 | converting the values again gives the same values |
| Responses.SingleValue | src/AFRocketScienceShared/Service/StandardResponse.cs:68-71 | a non-null scalar or response gives exactly one value, itself |
| Responses.ServiceResponse.constructor | src/AFRocketScienceShared/Service/StandardResponse.cs:43-47 | Count is the number of values and no error is set |
| Responses.NewServiceResponse | src/AFRocketScienceShared/Service/StandardResponse.cs:43-47 | a fresh envelope with the converted values and their count, or the conversion's exception |
| Responses.EnvelopeOf | src/AFRocketScienceShared/Service/StandardResponse.cs:43-47 | the envelope's Count equals its number of values, with no error code or message |
| Responses.OkResponse | src/DotNetFrameworkLibrary/Service/ControllerHandlerBase.cs:78-85 | status OK with the envelope of the output, failing exactly for an unboxed value-type array |
| Responses.Ok | src/DotNetFrameworkLibrary/Service/ControllerHandlerBase.cs:78-85 | builds the OkResponse |
| Responses.Attempt | src/DotNetFrameworkLibrary/Service/ControllerHandlerBase.cs:59-64 | a returned HttpResponseMessage passes unchanged, another value goes through Ok, and an exception propagates to the catch |
| Responses.AttemptFails | src/DotNetFrameworkLibrary/Service/ControllerHandlerBase.cs:59-68 | the try block fails exactly when the call throws or returns an unboxed value-type array; otherwise an OK envelope with no error |
| Responses.ServiceLogger.Error | src/AFRocketScienceShared/Service/IServiceLogger.cs:13 | one call appends exactly one entry with the message and the exception |
| Responses.SafelyTryJob | src/DotNetFrameworkLibrary/Service/ControllerHandlerBase.cs:37-48 | never throws; logs nothing when the job succeeds and exactly one "Fatal Error" entry when it throws |
| Responses.ClassifiedResponseShape | src/DotNetFrameworkLibrary/Service/ControllerHandlerBase.cs:97-115 | BadRequest exactly for a ServiceOperationException (its code name, its message then the log key), otherwise InternalServerError, FatalError and the fatal message ending with the hint; never any values |
| Controller.AliasedCodeNames | src/DotNetFrameworkLibrary/Service/ServiceOperationError.cs:12-13 | BadParameter and AuthorizationError get the same name, so one of them is reported under the other's name |
| Controller.UnaliasedCodeNames | src/DotNetFrameworkLibrary/Service/ServiceOperationError.cs:10-14 | every other code is reported under its own name |
| Controller.Error | src/DotNetFrameworkLibrary/Service/ControllerHandlerBase.cs:92-116 | logs one "Service Error" entry, then answers the classified response |
| Controller.SafelyTry | src/DotNetFrameworkLibrary/Service/ControllerHandlerBase.cs:57-69 | answers the call's result and logs exactly when the try block failed |
| Controller.SafelyTryOutcomes | src/DotNetFrameworkLibrary/Service/ControllerHandlerBase.cs:57-69 | a returned response is passed through; other values are OK with their values; a thrown error is BadRequest exactly for a ServiceOperationException, otherwise a fatal 500 |
| Controller.UnboxedArrayIsFatal | src/DotNetFrameworkLibrary/Service/ControllerHandlerBase.cs:59-68 | returning a value-type array gives the fatal boxing error, not OK |
| Controller.FatalErrorNamesFrame | src/DotNetFrameworkLibrary/Service/ControllerHandlerBase.cs:105-110 | a fatal error's message starts with the preamble and log key and ends with "Debug hint: <message> (<file>:line N)" |
| ExceptionHints.DigitRun | src/DotNetFrameworkLibrary/Service/ControllerHandlerBase.cs:26 | `[0-9]+` takes every digit up to the first non-digit |
| ExceptionHints.LastMark | src/DotNetFrameworkLibrary/Service/ControllerHandlerBase.cs:26 | the backtracking `[^\\]*` settles on the last ":line N" mark of its run |
| ExceptionHints.FirstMatch | src/DotNetFrameworkLibrary/Service/ControllerHandlerBase.cs:26 | the scan finds the leftmost backslash that starts a match, and none before it does |
| ExceptionHints.MarkOfMatch | src/DotNetFrameworkLibrary/Service/ControllerHandlerBase.cs:26 | a match's group runs from after its backslash to the end of the digits of a mark in that backslash-free run |
| ExceptionHints.MatchIff | src/DotNetFrameworkLibrary/Service/ControllerHandlerBase.cs:26 | the pattern matches exactly when some backslash is followed, with no backslash between, by ":line " and a digit |
| ExceptionHints.MatchLeftmost | src/DotNetFrameworkLibrary/Service/ControllerHandlerBase.cs:26 | no backslash before the match is followed by a mark in its run |
| ExceptionHints.MatchShape | src/DotNetFrameworkLibrary/Service/ControllerHandlerBase.cs:26 | the group holds no backslash and ends with ":line " and digits |
| ExceptionHints.HintNamesFirstFrame | tests/TestsForAFRocketScienceFramework/ControllerHandlerBaseTests.cs:43-55 | for a trace like `Abba\Dabba\foobar:line 232` followed by more frames, the group is "foobar:line 232" |
| ExceptionHints.FrameHint | src/DotNetFrameworkLibrary/Service/ControllerHandlerBase.cs:22-30 | an exception whose trace runs through `...\file:line N` gets the hint "Debug hint: ", its message, then " (file:line N)" |
| ExceptionHints.LocationShape | src/DotNetFrameworkLibrary/Service/ControllerHandlerBase.cs:24-27 | the location is parenthesised, and it is " (Unknown location)" exactly when no frame of the stack trace matches the pattern |
| ExceptionHints.HintShape | src/DotNetFrameworkLibrary/Service/ControllerHandlerBase.cs:22-30 | every hint is "Debug hint: " and the message, then a parenthesised location; it ends with the unknown location exactly when no frame matches |
| ExceptionHints.NoStackTraceHint | src/DotNetFrameworkLibrary/Service/ControllerHandlerBase.cs:24-27 | a null stack trace gives the unknown location |
| Reflection.FindTarget | src/AFRocketScienceShared/Service/Vehicle.cs:38-44 | succeeds exactly when the handler type has a method of the caller's name, and then gives that method; otherwise an ApplicationException |
| Reflection.Invoke | src/AFRocketScienceShared/Service/Vehicle.cs:100 | a wrong argument count throws TargetParameterCountException; a throwing method's exception comes out wrapped in TargetInvocationException; a value comes back unchanged |
| Reflection.Discover | src/DotNetStandardLibrary/Service/LaunchPad.cs:42-53 | no static Handler property gives the missing-handler ApplicationException; otherwise FindTarget's result |
| SharedBinder.Walk | src/AFRocketScienceShared/Service/Vehicle.cs:173-221 | the walk leaves the pending pairs and the bound object alone |
| SharedBinder.FirstMatch | src/AFRocketScienceShared/Service/Vehicle.cs:275-282 | the index of the first property whose source name matches case-insensitively, none before it matching; None when none matches |
| SharedBinder.QueryPhase | src/AFRocketScienceShared/Service/Vehicle.cs:273-283 | the query loop keeps the query, header and body lists |
| SharedBinder.HeaderStep | src/AFRocketScienceShared/Service/Vehicle.cs:287-298 | one header keeps the pending pairs and the body list |
| SharedBinder.HeaderPhase | src/AFRocketScienceShared/Service/Vehicle.cs:285-299 | the header loop keeps the pending pairs and the body list |
| SharedBinder.BodyPhase | src/AFRocketScienceShared/Service/Vehicle.cs:301-310 | the body step keeps the pending pairs; what it binds, adds or throws is stated by SharedBinder.BodySingleBinds and SharedBinder.BodyPhaseCases |
| SharedBinder.BodySingleBinds | src/AFRocketScienceShared/Service/Vehicle.cs:305-309 | with exactly one String body property and a content object, that property is bound to the body text and leaves the required list, while every other bound value, requirement, error and list stays as it was |
| SharedBinder.BodyPhaseCases | src/AFRocketScienceShared/Service/Vehicle.cs:301-310 | several body properties add exactly one count error and change nothing else; none changes nothing; a single one throws NullReferenceException without a content object and ArgumentException when its type is not String |
| SharedBinder.DigestProperty | src/AFRocketScienceShared/Service/Vehicle.cs:224-271 | true exactly when the names match case-insensitively, then the prefix check and coercion; nothing changes otherwise |
| SharedBinder.ReadQueryPair | src/AFRocketScienceShared/Service/Vehicle.cs:275-282 | the inner query loop computes QueryStep |
| SharedBinder.ReadHeader | src/AFRocketScienceShared/Service/Vehicle.cs:287-298 | the inner header loop computes HeaderStep |
| SharedBinder.ReadBody | src/AFRocketScienceShared/Service/Vehicle.cs:301-310 | the body step computes BodyPhase, so it binds a single String body property to the body text and discharges it (BodySingleBinds) and reports several in one error (BodyPhaseCases) |
| SharedBinder.WalkProperties | src/AFRocketScienceShared/Service/Vehicle.cs:173-221 | the property loop computes Walk |
| SharedBinder.ReadQueryPairs | src/AFRocketScienceShared/Service/Vehicle.cs:273-283 | the query loop computes QueryPhase |
| SharedBinder.ReadHeaders | src/AFRocketScienceShared/Service/Vehicle.cs:285-299 | the header loop computes HeaderPhase |
| SharedBinder.HeaderPhaseFailureExtends | src/AFRocketScienceShared/Service/Vehicle.cs:285-299 | once a header throws, later headers change nothing |
| SharedBinder.Bind | src/AFRocketScienceShared/Service/Vehicle.cs:160-314 | the private ReadParameters<T> computes BindSpec: the walk, then the query, header and body phases |
| SharedBinder.Report | src/AFRocketScienceShared/Service/Vehicle.cs:142-153 | the reporting loops compute Finish |
| SharedBinder.ReadParameters | src/AFRocketScienceShared/Service/Vehicle.cs:129-154 | the public ReadParameters<T> computes ReadParametersSpec |
| SharedBinder.UnmatchedPairs | src/AFRocketScienceShared/Service/Vehicle.cs:273-283 | every kept pair is one of the input pairs and no query property matches it |
| SharedBinder.WalkClassifies | src/AFRocketScienceShared/Service/Vehicle.cs:173-221 | a property is in the query, header or body list exactly when it is bindable and declares that source, and in the required list exactly when it is bindable and required; no list has duplicates |
| SharedBinder.QueryPhasePendingFrom | src/AFRocketScienceShared/Service/Vehicle.cs:273-283 | pairs not yet visited stay pending behind the unmatched ones already visited |
| SharedBinder.PendingPairsAreUnclaimed | src/AFRocketScienceShared/Service/Vehicle.cs:273-283 | after the query loop a pair is pending exactly when no bindable Query property matches its key, in query order; an ignored property's value counts as unknown |
| SharedBinder.UnmatchedPairsComplete | src/AFRocketScienceShared/Service/Vehicle.cs:273-283 | a pair that no query property matches is kept |
| SharedBinder.DigestDischarges | src/AFRocketScienceShared/Service/Vehicle.cs:224-268 | a missing prefix adds one error and keeps the property required; a coercion, good or bad, takes exactly that property off the required list; only a successful one binds |
| SharedBinder.HeaderStepConsumes | src/AFRocketScienceShared/Service/Vehicle.cs:289-297 | the header property that digests a header leaves the list; the list only shrinks and has no duplicates |
| SharedBinder.HeaderPhaseShrinks | src/AFRocketScienceShared/Service/Vehicle.cs:285-299 | over all headers the header list only shrinks and has no duplicates |
| SharedBinder.FinishOutcome | src/AFRocketScienceShared/Service/Vehicle.cs:142-153 | success exactly when there are no errors, no pending pairs and no unmet requirements; otherwise one BadParameter exception listing the errors, then the unknown pairs, then the missing ones, joined by "\r\n" |
| SharedBinder.ReportedUnknownPairs | src/AFRocketScienceShared/Service/Vehicle.cs:138-145 | the unknown-parameter lines name exactly the pairs no bindable Query property claimed, in query order |
| SharedBinder.BodyCountErrorNames | src/AFRocketScienceShared/Service/Vehicle.cs:301-304 | the several-body-parameters error lists the body properties' names, comma separated |
| SharedBinder.DollarSkipRename | tests/TestsForAFRocketScienceFramework/VehicleTests.cs:172-179 | a property renamed "$Skip" answers to "$skip" and no longer to its own name |
| SharedBinder.UnparsableIntMessage | tests/TestsForAFRocketScienceFramework/VehicleTests.cs:78-81 | an unparsable Int32 reports "Error on (Int32) property 'IntThing': " and the parser's message |
| SharedBinder.UnknownParametersMessage | tests/TestsForAFRocketScienceFramework/VehicleTests.cs:158-163 | two unknown keys give the two "Unknown URI parameter:" lines joined by "\r\n" |
| StandardBinder.DefaultStandardAttribute | src/DotNetStandardLibrary/FunctionParameter/FunctionParameterAttributes.cs:11-51 | a fresh attribute reads from the query, is optional, and has no prefix or rename |
| StandardBinder.Search | src/DotNetStandardLibrary/Service/Vehicle.cs:207-214 | the properties in order until one matches: no match leaves everything unchanged and reports false; a match is digested by a property that matches the name |
| StandardBinder.QueryStep | src/DotNetStandardLibrary/Service/Vehicle.cs:204-216 | an unclaimed pair adds its unknown line at once; a claimed one is digested by a matching property |
| StandardBinder.DigestProperty | src/DotNetStandardLibrary/Service/Vehicle.cs:149-202 | a malformed FixPropertyName throws; otherwise true exactly when the match name equals the lower-cased key, then the prefix check and coercion |
| StandardBinder.ReadQueryPair | src/DotNetStandardLibrary/Service/Vehicle.cs:206-215 | the inner query loop computes QueryStep |
| StandardBinder.ReadHeader | src/DotNetStandardLibrary/Service/Vehicle.cs:220-230 | the inner header loop computes HeaderStep |
| StandardBinder.WalkProperties | src/DotNetStandardLibrary/Service/Vehicle.cs:127-146 | the property loop computes Walk |
| StandardBinder.ReadQueryPairs | src/DotNetStandardLibrary/Service/Vehicle.cs:204-216 | the query loop computes QueryPhase |
| StandardBinder.ReadHeaders | src/DotNetStandardLibrary/Service/Vehicle.cs:218-231 | the header loop computes HeaderPhase |
| StandardBinder.Bind | src/DotNetStandardLibrary/Service/Vehicle.cs:127-231 | the walk, query loop and header loop compute BindSpec |
| StandardBinder.Report | src/DotNetStandardLibrary/Service/Vehicle.cs:233-239 | the reporting loop computes Finish |
| StandardBinder.ReadParameters | src/DotNetStandardLibrary/Service/Vehicle.cs:119-240 | ReadParameters<T> computes ReadParametersSpec |
| StandardBinder.WalkOutcome | src/DotNetStandardLibrary/Service/Vehicle.cs:127-146 | the walk throws exactly when some property's source is neither Query nor Header (the first such property's ApplicationException); otherwise it files each property by source and requirement |
| StandardBinder.UnsupportedSourceIsFatal | src/DotNetStandardLibrary/Service/Vehicle.cs:144 | a Body-sourced property makes ReadParameters<T> throw ApplicationException rather than BadParameter |
| StandardBinder.FixPropertyNameSplit | src/DotNetStandardLibrary/Service/Vehicle.cs:153-161 | "find,replace" makes the property answer to its name with every find replaced, lower-cased; an empty find throws ArgumentException |
| StandardBinder.MatchNameWithoutFix | src/DotNetStandardLibrary/Service/Vehicle.cs:151-161 | without FixPropertyName the property answers to its own name; a value with no comma throws ArgumentException naming it |
| StandardBinder.QueryTopRename | src/DotNetStandardLibrary/FunctionParameter/FunctionParameterAttributes.cs:30-35 | "Query_,$" on Query_Top makes it answer to "$top" and not to its own name |
| StandardBinder.DigestDischarges | src/DotNetStandardLibrary/Service/Vehicle.cs:163-198 | a missing prefix adds one error and keeps the property required; a coercion takes exactly that property off the required list; only a success binds; the property lists are unchanged |
| StandardBinder.QueryPhaseAppends | src/DotNetStandardLibrary/Service/Vehicle.cs:204-216 | the query loop keeps the property lists and appends at most one error per pair |
| StandardBinder.AllPairsUnknown | src/DotNetStandardLibrary/Service/Vehicle.cs:204-216 | when nobody claims any pair, each adds its unknown line in order and nothing else changes |
| StandardBinder.HeaderPhaseKeepsProperties | src/DotNetStandardLibrary/Service/Vehicle.cs:218-231 | no header property is removed, so a repeated header is digested again |
| StandardBinder.FinishOutcome | src/DotNetStandardLibrary/Service/Vehicle.cs:233-239 | success exactly when there are no errors and no unmet requirements; otherwise one BadParameter exception with the errors, then the missing lines |
| FrameworkBinder.Walk | src/DotNetFrameworkLibrary/FunctionParameter/FunctionParameterExtensions.cs:51-66 | the walk adds no error and binds nothing |
| FrameworkBinder.FirstMatch | src/DotNetFrameworkLibrary/FunctionParameter/FunctionParameterExtensions.cs:118-125 | the first property that answers to the key by name or dollar name, none before it answering; None when none does |
| FrameworkBinder.QueryPhase | src/DotNetFrameworkLibrary/FunctionParameter/FunctionParameterExtensions.cs:115-127 | the query loop keeps both property lists |
| FrameworkBinder.HeaderPhase | src/DotNetFrameworkLibrary/FunctionParameter/FunctionParameterExtensions.cs:129-142 | the header loop keeps both property lists |
| FrameworkBinder.DigestProperty | src/DotNetFrameworkLibrary/FunctionParameter/FunctionParameterExtensions.cs:69-113 | true exactly when the lower-cased name or its `__`-to-`$` form equals the lower-cased key, then the prefix check and coercion; nothing changes otherwise |
| FrameworkBinder.WalkProperties | src/DotNetFrameworkLibrary/FunctionParameter/FunctionParameterExtensions.cs:51-66 | the property loop computes Walk |
| FrameworkBinder.ReadQueryPair | src/DotNetFrameworkLibrary/FunctionParameter/FunctionParameterExtensions.cs:117-126 | the inner query loop computes QueryStep |
| FrameworkBinder.ReadQueryPairs | src/DotNetFrameworkLibrary/FunctionParameter/FunctionParameterExtensions.cs:115-127 | the query loop computes QueryPhase |
| FrameworkBinder.ReadHeader | src/DotNetFrameworkLibrary/FunctionParameter/FunctionParameterExtensions.cs:131-141 | the inner header loop computes HeaderStep |
| FrameworkBinder.ReadHeaders | src/DotNetFrameworkLibrary/FunctionParameter/FunctionParameterExtensions.cs:129-142 | the header loop computes HeaderPhase |
| FrameworkBinder.Report | src/DotNetFrameworkLibrary/FunctionParameter/FunctionParameterExtensions.cs:144-150 | the reporting loop computes Finish |
| FrameworkBinder.ReadParameters | src/DotNetFrameworkLibrary/FunctionParameter/FunctionParameterExtensions.cs:43-151 | ReadParameters<T> computes ReadParametersSpec |
| FrameworkBinder.WalkClassifies | src/DotNetFrameworkLibrary/FunctionParameter/FunctionParameterExtensions.cs:51-66 | every property is in exactly one of the query and header lists (the header list exactly when it carries FromHeader), and in the required list exactly when marked required; no duplicates |
| FrameworkBinder.DigestDischarges | src/DotNetFrameworkLibrary/FunctionParameter/FunctionParameterExtensions.cs:74-109 | a missing prefix adds one error and keeps the property required; a coercion takes exactly that property off the required list; only a success binds |
| FrameworkBinder.QueryPhaseAppends | src/DotNetFrameworkLibrary/FunctionParameter/FunctionParameterExtensions.cs:115-127 | the query loop only appends to the errors, at most one line per pair |
| FrameworkBinder.AllPairsUnknown | src/DotNetFrameworkLibrary/FunctionParameter/FunctionParameterExtensions.cs:115-127 | when nobody answers any pair, each adds its unknown line in order and nothing else changes |
| FrameworkBinder.FinishOutcome | src/DotNetFrameworkLibrary/FunctionParameter/FunctionParameterExtensions.cs:144-150 | success exactly when there are no errors and no unmet requirements; otherwise one BadParameter exception with the errors, then the missing lines |
| FrameworkBinder.DollarParameters | tests/TestsForAFRocketScienceFramework/FunctionParameterExtensionsTests.cs:127-134 | "__top" binds __Top by its name and "$skip" binds __Skip by its dollar name, and neither binds the other |
| FrameworkBinder.MissingRequiredMessage | tests/TestsForAFRocketScienceFramework/FunctionParameterExtensionsTests.cs:88-105 | an absent required StringThing gives exactly "Missing required parameter 'StringThing'" |
| FrameworkBinder.HeaderPrefixStripped | src/DotNetFrameworkLibrary/FunctionParameter/FunctionParameterExtensions.cs:78-86 | a header value with the prefix binds what follows it; without the prefix it records the prefix error |
| FrameworkBinder.PrefixedHeaderMatches | tests/TestsForAFRocketScienceFramework/FunctionParameterExtensionsTests.cs:138-155 | the header "PREFIxed" matches the Prefixed property and "zorba:99.8" carries its prefix |
| FrameworkBinder.UnknownPairsReport | src/DotNetFrameworkLibrary/FunctionParameter/FunctionParameterExtensions.cs:115-150 | with nothing else wrong and no pair claimed, the report is exactly the unknown lines in query order |
| FrameworkBinder.UnknownParametersMessage | tests/TestsForAFRocketScienceFramework/FunctionParameterExtensionsTests.cs:113-119 | the two unknown keys give the two "Unknown uri parameter" lines joined by "\r\n" |
| StandardVehicle.DefinitionsChecks | src/DotNetStandardLibrary/Service/Vehicle.cs:56-81 | definitions are built exactly for at least two parameters whose first is not the logger and meets the `new()` constraint of ReadParameters<T>: the argument class, then the logger; otherwise, in that order, the too-few error, the logger-first error, or the ArgumentException of MakeGenericMethod |
| StandardVehicle.Definitions | src/DotNetStandardLibrary/Service/Vehicle.cs:56-81 | a refused method throws an ApplicationException or an ArgumentException, never a ServiceOperationException, so the launch pad answers it as a fatal error |
| StandardVehicle.GenerateBoundThenLogger | src/DotNetStandardLibrary/Service/Vehicle.cs:75-87 | the arguments are the bound object then the logger, or the binding error wrapped by Invoke |
| StandardVehicle.ExecuteOutcomes | src/DotNetStandardLibrary/Service/Vehicle.cs:51-91 | a binding failure comes out wrapped; otherwise the method gets the bound object and the logger, and more than two parameters fails the count check |
| StandardVehicle.Vehicle.constructor | src/DotNetStandardLibrary/Service/Vehicle.cs:38-44 | nothing built yet |
| StandardVehicle.Vehicle.GenerateParameters | src/DotNetStandardLibrary/Service/Vehicle.cs:84-87 | the argument loop computes Generate |
| StandardVehicle.Vehicle.CreateArgument | src/DotNetStandardLibrary/Service/Vehicle.cs:76-81 | one definition's Create: the bound argument object, a binder exception wrapped as TargetInvocationException, or the logger |
| StandardVehicle.Vehicle.ExecuteHttpRequest | src/DotNetStandardLibrary/Service/Vehicle.cs:51-91 | answers ExecuteHttpRequestSpec; the definitions are built once, kept, and present exactly when the checks pass |
| StandardVehicle.ExecuteTwice | src/DotNetStandardLibrary/Service/Vehicle.cs:56-81 | two runs build the definitions once and each answers the specification |
| SharedVehicle.ExtraDefinitions | src/AFRocketScienceShared/Service/Vehicle.cs:85-89 | one definition per extra, extra k for position k |
| SharedVehicle.DefinitionsChecks | src/AFRocketScienceShared/Service/Vehicle.cs:56-91 | built exactly when there are two more parameters than extras, the first meets the `new()` constraint of ReadParameters<T> and the second is the logger: the argument class, the logger, then extra k for parameter k+2; otherwise, in that order, the count error naming both numbers, the ArgumentException of MakeGenericMethod, or the second-parameter error |
| SharedVehicle.Definitions | src/AFRocketScienceShared/Service/Vehicle.cs:56-91 | a method that passes the checks gets one definition per parameter, two more than the extras, the argument class then the logger first; a refused one throws an ApplicationException or an ArgumentException, never a ServiceOperationException |
| SharedVehicle.ExtraArguments | src/AFRocketScienceShared/Service/Vehicle.cs:88 | extra arguments k are the run's extras in order |
| SharedVehicle.GenerateExtras | src/AFRocketScienceShared/Service/Vehicle.cs:94-97 | the extra arguments are all made when there are enough; a null extras array throws NullReferenceException and a short one IndexOutOfRangeException |
| SharedVehicle.ExecuteOutcomes | src/AFRocketScienceShared/Service/Vehicle.cs:51-101 | a binding failure comes out wrapped; a missing or short extras array throws before the method is reached; otherwise the method gets the bound object, the logger and the first n extras |
| SharedVehicle.FirstRunOutcomes | src/AFRocketScienceShared/Service/Vehicle.cs:56-100 | on the first run a count mismatch gives the count error; otherwise the method gets the bound object, the logger and every extra |
| SharedVehicle.Vehicle.constructor | src/AFRocketScienceShared/Service/Vehicle.cs:38-44 | nothing built yet |
| SharedVehicle.Vehicle.GenerateParameters | src/AFRocketScienceShared/Service/Vehicle.cs:94-97 | the argument loop computes Generate |
| SharedVehicle.Vehicle.CreateArgument | src/AFRocketScienceShared/Service/Vehicle.cs:75-90 | one definition's Create: the bound argument object, a binder exception wrapped as TargetInvocationException, the logger, or the extra argument at its index, with NullReferenceException when there are no extras and IndexOutOfRangeException past their end |
| SharedVehicle.Vehicle.ExecuteHttpRequest | src/AFRocketScienceShared/Service/Vehicle.cs:51-101 | answers RunOutcome for the cached definitions; definitions built on the first run are kept and present exactly when that run's checks passed |
| StandardLaunchPad.Error | src/DotNetStandardLibrary/Service/LaunchPad.cs:136-160 | logs one "Service Error" entry, then answers the classification of the exception as caught |
| StandardLaunchPad.Logged | src/DotNetStandardLibrary/Service/LaunchPad.cs:101-113 | at most one entry, and none exactly when the try block succeeded |
| StandardLaunchPad.SafelyTry | src/DotNetStandardLibrary/Service/LaunchPad.cs:101-113 | answers SafelyTrySpec and logs exactly Logged |
| StandardLaunchPad.WrappedServiceErrorIsFatal | src/DotNetStandardLibrary/Service/LaunchPad.cs:143-153 | a wrapped ServiceOperationException gets 500, FatalError and the hint of the wrapper's message |
| StandardLaunchPad.BindingServiceErrorIsFatal | src/DotNetStandardLibrary/Service/Vehicle.cs:75-79 | a ServiceOperationException from the binder reaches the client as 500 |
| StandardLaunchPad.HandlerServiceErrorIsFatal | src/DotNetStandardLibrary/Service/Vehicle.cs:90 | a ServiceOperationException from the service method reaches the client as 500 |
| StandardLaunchPad.LaunchPad.constructor | src/DotNetStandardLibrary/Service/LaunchPad.cs:26-28 | starts with no vehicles |
| StandardLaunchPad.LaunchPad.RunRoute | src/DotNetStandardLibrary/Service/LaunchPad.cs:40-57 | runs the cached vehicle or a newly discovered one; adds exactly one fresh entry under the path only when the path is new and discovery succeeds |
| StandardLaunchPad.RouteOutcome | src/DotNetStandardLibrary/Service/LaunchPad.cs:38-57 | a new path whose handler or method is missing fails with an ApplicationException, and so does a target method with fewer than two parameters |
| StandardLaunchPad.LaunchPad.RunCached | src/DotNetStandardLibrary/Service/LaunchPad.cs:40-57 | reruns the cached vehicle and leaves the cache unchanged |
| StandardLaunchPad.LaunchPad.RunNew | src/DotNetStandardLibrary/Service/LaunchPad.cs:53-57 | caches one fresh vehicle for the method under the path, then runs it |
| StandardLaunchPad.LaunchPad.ExecuteHttpTrigger | src/DotNetStandardLibrary/Service/LaunchPad.cs:36-59 | answers SafelyTry of the route's run, logs exactly its failure, and changes the cache only for a new path with a discovered handler |
| StandardLaunchPad.CallTwice | src/DotNetStandardLibrary/Service/LaunchPad.cs:40-54 | two calls on one path cache one vehicle, and the second answers as that method's run |
| SharedLaunchPad.Error | src/AFRocketScienceShared/Service/LaunchPad.cs:446-472 | unwraps a TargetInvocationException, logs the unwrapped exception's text once, then answers its classification |
| SharedLaunchPad.WrappedServiceErrorIsBadRequest | src/AFRocketScienceShared/Service/LaunchPad.cs:448-460 | a ServiceOperationException answers the same bare or wrapped: BadRequest, its code's name, its message then the log key |
| SharedLaunchPad.ReleaseBuildHidesHint | src/AFRocketScienceShared/Service/LaunchPad.cs:373-385 | outside DEBUG a fatal message ends with the log-key line and an empty hint |
| SharedLaunchPad.Logged | src/AFRocketScienceShared/Service/LaunchPad.cs:411-423 | at most one entry, and none exactly when the try block succeeded |
| SharedLaunchPad.SafelyTry | src/AFRocketScienceShared/Service/LaunchPad.cs:411-423 | answers SafelyTrySpec and logs exactly Logged |
| SharedLaunchPad.BindingServiceErrorIsBadRequest | src/AFRocketScienceShared/Service/LaunchPad.cs:448-460 | a ServiceOperationException from the binder reaches the client as BadRequest with its own code and message |
| SharedLaunchPad.HandlerServiceErrorIsBadRequest | src/AFRocketScienceShared/Service/LaunchPad.cs:448-460 | for any number n of extras the method takes and any extras array with at least n entries, a ServiceOperationException from the service method reaches the client as BadRequest with its own code name and its message followed by the log key |
| SharedLaunchPad.KeysSeparateUris | src/AFRocketScienceShared/HttpRequestTranslation/RSHttpRequestMessage.cs:13 | for methods without '>', two wrapped requests have the same Key exactly when they have the same method and full URI |
| SharedLaunchPad.RequestKey | src/AFRocketScienceShared/Service/LaunchPad.cs:337-345 | the key of the wrapped request is the method, '>', then the full URI |
| SharedLaunchPad.LaunchPad.constructor | src/AFRocketScienceShared/Service/LaunchPad.cs:327 | starts with no vehicles |
| SharedLaunchPad.LaunchPad.RunCached | src/AFRocketScienceShared/Service/LaunchPad.cs:348-364 | reruns the cached vehicle with its cached definitions and leaves the cache unchanged |
| SharedLaunchPad.LaunchPad.RunNew | src/AFRocketScienceShared/Service/LaunchPad.cs:360-364 | caches one fresh vehicle under the key, then runs it for the first time |
| SharedLaunchPad.LaunchPad.RunRoute | src/AFRocketScienceShared/Service/LaunchPad.cs:346-365 | runs the cached vehicle or a newly discovered one; adds exactly one fresh entry only for a new key with a discovered handler |
| SharedLaunchPad.RouteOutcome | src/AFRocketScienceShared/Service/LaunchPad.cs:338-362 | a new key whose handler or method is missing fails with an ApplicationException, and so does a newly found method whose parameter count is not two more than the extras |
| SharedLaunchPad.LaunchPad.ExecuteHttpTrigger | src/AFRocketScienceShared/Service/LaunchPad.cs:335-366 | answers SafelyTry of the run under the request's key, logs exactly its failure, and changes the cache only for a new key with a discovered handler |

## Left out

- JSON serialisation: a response carries the ServiceResponse envelope record itself, not its serialised text.
- The clock: the log key (`CurrentLogKey`) is a parameter.
- The call stack: the calling Azure function (`StackTrace.GetFrame(7)`, `GetCallingAzureFunction`) is a parameter. GetCallingAzureFunction is not part of this model.
- Exception.ToString: it is modelled without inner-exception and stack-trace lines.
- Stack traces: exceptions raised by the model carry no stack trace, so their debug hint reads "(Unknown location)".
- The .NET parsers, `Uri.UnescapeDataString` and `Enum.ToString` of an aliased value are function parameters. Their own behaviour, such as number formats, is not modelled.
- `String.ToLower` is modelled for ASCII letters only. Other case mappings are not modelled.
- Coercion.DigestMatched: the prefix test is ordinal (`Text.StartsWith`), while the binders call `String.StartsWith(prefix)` without a StringComparison, which compares by the current culture. Culture rules, such as ignorable characters before the prefix, and the different slice `Substring(prefix.Length)` then cuts are not modelled.
- Reflection.Invoke: the handler instance is not modelled. A null `Handler` property value makes `MethodInfo.Invoke` throw TargetException for an instance method, and the model does not produce that exception.
- Reflection.FindTarget: a handler type's methods are a map by name, so overloads cannot be expressed. `Type.GetMethod(name)` throws AmbiguousMatchException for an overloaded name, and the model does not produce that exception.
- .NET library message texts are approximate where the runtime supplies them. This covers SetValue's conversion message, which names the type by its short name rather than its full name (`Int32`, not `System.Int32`), the ArgumentException of `String.Replace` with an empty search string, and MakeGenericMethod's constraint message.
- MethodInfo.Invoke's conversion of arguments to parameter types is not modelled. Only the argument count is checked.
- Nested parameter groups (shared binder): reading a group runs a reflective call whose arguments do not fit the private ReadParameters<T>, so it always throws. Its message is the parameter `groupMessage`, and the group's own fields are not bound.
- Concurrency: the static `_vehicles` dictionary and the lazily created singleton become one `LaunchPad` object. Races between concurrent triggers are not modelled.
- Swagger and API-documentation generation in the shared LaunchPad, the Host and LocalPath properties of RSHttpRequestMessage, and RSHttpRequest (the HttpRequest adapter) are not part of this model.
- The shared ExecuteHttpTrigger hands its IRocketScienceRequest to `Vehicle.ExecuteHttpRequest`, whose signature takes an HttpRequestMessage. The model passes the underlying HttpRequestMessage.
- ILogger in the shared library and IServiceLogger elsewhere are both modelled by one recording logger (`ServiceLogger`). `Info` is never called by the core.
- Ok and SafelyTryJob are identical in ControllerHandlerBase and both LaunchPads, so each is modelled once in `Responses`.
- The DotNetStandard library's ServiceOperationError is taken to be the shared enum with five distinct values. Its file is not part of this model.
- The DotNetFramework attribute classes (FunctionParameterRequired, FunctionParameterFromHeader) are not part of this model. Their use in the binder is modelled as two fields of a property.
- The vehicles set `_constructParameters` before the second-parameter check. A failed check therefore leaves that field set, but it is never read without definitions, so the model does not keep it.
- Vehicle.GetQueryNameValuePairs in each library and ConstructQueryParts are one splitter, modelled once in `QueryString`.
- Integer width is not modelled: counts are unbounded naturals.

## Findings

| source | as written | input that shows it | evidently intended | confidence | as-written member | corrected member |
|---|---|---|---|---|---|---|
| src/DotNetStandardLibrary/Service/LaunchPad.cs:136-160 | Error classifies the caught exception as it is; the binder and the service method run through MethodInfo.Invoke (src/DotNetStandardLibrary/Service/Vehicle.cs:78, :90), so every ServiceOperationException arrives wrapped in a TargetInvocationException | a request missing a required parameter: the binder throws BadParameter, the client gets 500 FatalError whose hint carries the wrapper's message "Exception has been thrown by the target of an invocation." | unwrap first, as the shared Error does at src/AFRocketScienceShared/Service/LaunchPad.cs:448, so the client gets 400 BadRequest with the BadParameter code and the binder's message | high (not executed) | StandardLaunchPad.BindingServiceErrorIsFatal | SharedLaunchPad.BindingServiceErrorIsBadRequest |
| src/DotNetFrameworkLibrary/Service/ServiceOperationError.cs:12-13 | AuthorizationError and BadParameter both have the value 2 | a ServiceOperationException(BadParameter, …) and one with AuthorizationError carry the same ErrorCode name, so one of them reports the other's name | five distinct values, as in src/AFRocketScienceShared/Service/ServiceOperationError.cs:8-15 | high (not executed) | Controller.AliasedCodeNames | Exceptions.ErrorCodeNamesDistinct |
