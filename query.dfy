/**
 * GetQueryNameValuePairs: the hand-written query-string splitter. The same
 * code appears in the Shared and DotNetStandard Vehicle, in the
 * DotNetFramework FunctionParameterExtensions and in
 * RSHttpRequestMessage.ConstructQueryParts; it is modelled once here.
 *
 * Uri.UnescapeDataString is a parameter: it never throws on a non-null
 * string, so it is a total function on strings.
 */
module QueryString {
  import opened Wrappers
  import opened Text
  import opened Seqs

  /** KeyValuePair<string, string>; a null value is None. */
  datatype QueryPair = QueryPair(Key: string, Value: Option<string>)

  /**
   * One '&'-separated part: trimmed, skipped when blank, otherwise split at
   * its first '='. The key is kept as it is; the value is unescaped and
   * trimmed, or null when the part has no '='.
   */
  function PartToPair(part: string, unescape: string -> string): (r: Option<QueryPair>)
    ensures r.None? <==> Trim(part) == ""
  {
    var trimmed := Trim(part);
    if trimmed == "" then None
    else
      var (key, rest) := SplitFirst(trimmed, '=');
      Some(QueryPair(key, if rest.None? then None else Some(Trim(unescape(rest.value)))))
  }

  /** The pairs of a list of parts, in order, blank parts left out. */
  function PairsOf(parts: seq<string>, unescape: string -> string): seq<QueryPair> {
    FilterMap(parts, part => PartToPair(part, unescape))
  }

  /** The pairs of `RequestUri.Query`: leading '?' dropped, split on every '&'. */
  function QueryPairs(query: string, unescape: string -> string): seq<QueryPair> {
    PairsOf(Split(TrimStartChar(query, '?'), '&'), unescape)
  }

  /** A pair that one part can give: keys without '&' or '=', trimmed values, a null value only beside a non-blank trimmed key. */
  predicate WellFormedPair(p: QueryPair) {
    '&' !in p.Key && '=' !in p.Key
    && (p.Value.Some? ==> IsTrimmed(p.Value.value))
    && (p.Value.None? ==> p.Key != "" && IsTrimmed(p.Key))
  }

  /** The characters of Trim(s) all come from s. */
  lemma TrimIsInside(s: string)
    ensures forall c :: c in Trim(s) ==> c in s
  {
    var t := TrimStart(s);
    assert forall c :: c in t ==> c in s;
    assert forall c :: c in TrimEnd(t) ==> c in t;
  }

  /**
   * A part gives a key without '=' (nor '&' when the part has none); the value
   * is null exactly when the trimmed part has no '=', and then the key is the
   * whole trimmed part; a value is always trimmed.
   */
  lemma PartToPairWellFormed(part: string, unescape: string -> string)
    requires '&' !in part && PartToPair(part, unescape).Some?
    ensures WellFormedPair(PartToPair(part, unescape).value)
    ensures PartToPair(part, unescape).value.Value.None? <==> '=' !in Trim(part)
    ensures PartToPair(part, unescape).value.Value.None? ==> PartToPair(part, unescape).value.Key == Trim(part)
  {
    TrimIsInside(part);
    var (key, rest) := SplitFirst(Trim(part), '=');
    if rest.Some? {
      assert Trim(part) == key + ['='] + rest.value;
      assert forall c :: c in key ==> c in Trim(part);
    }
  }

  lemma {:induction false} PairsOfWellFormed(parts: seq<string>, unescape: string -> string)
    requires forall part :: part in parts ==> '&' !in part
    ensures forall p :: p in PairsOf(parts, unescape) ==> WellFormedPair(p)
  {
    if parts != [] {
      var n := |parts| - 1;
      assert parts[n] in parts;
      assert forall part :: part in parts[..n] ==> part in parts;
      PairsOfWellFormed(parts[..n], unescape);
      FilterMapStep(parts, n, part => PartToPair(part, unescape));
      assert parts[..n + 1] == parts;
      if PartToPair(parts[n], unescape).Some? {
        PartToPairWellFormed(parts[n], unescape);
      }
    }
  }

  /**
   * Every pair of a query string has a key without '&' or '=', a trimmed
   * value, and, when the value is null, a non-blank trimmed key.
   */
  lemma QueryPairsWellFormed(query: string, unescape: string -> string)
    ensures forall p :: p in QueryPairs(query, unescape) ==> WellFormedPair(p)
  {
    PairsOfWellFormed(Split(TrimStartChar(query, '?'), '&'), unescape);
  }

  /** The loop of GetQueryNameValuePairs, appending one pair per non-blank part. */
  method GetQueryNameValuePairs(query: string, unescape: string -> string) returns (output: seq<QueryPair>)
    ensures output == QueryPairs(query, unescape)
  {
    var queryParts := Split(TrimStartChar(query, '?'), '&');
    output := [];
    var i := 0;
    while i < |queryParts|
      invariant 0 <= i <= |queryParts|
      invariant output == PairsOf(queryParts[..i], unescape)
    {
      FilterMapStep(queryParts, i, part => PartToPair(part, unescape));
      var trimmed := Trim(queryParts[i]);
      if trimmed != "" {
        var subParts := SplitFirst(trimmed, '=');
        output := output + [QueryPair(subParts.0, if subParts.1.Some? then Some(Trim(unescape(subParts.1.value))) else None)];
      }
      i := i + 1;
    }
    assert queryParts[..i] == queryParts;
  }

  /** The text of one pair in a query string: `key=value`, or the bare key for a null value. */
  function EncodePair(p: QueryPair): string {
    match p.Value
    case None => p.Key
    case Some(v) => p.Key + "=" + v
  }

  /** A query string for `pairs`: '?' then the pairs joined with '&'. */
  function EncodeQuery(pairs: seq<QueryPair>): string {
    "?" + Join("&", Map(pairs, EncodePair))
  }

  /**
   * A pair that survives a round trip: a non-empty key with neither '&' nor
   * '=' and no white space or '?' in front, a value without '&' that is
   * already trimmed and unescaped, and, for a null value, a key without
   * trailing white space.
   */
  predicate RoundTrips(p: QueryPair, unescape: string -> string) {
    p.Key != "" && '&' !in p.Key && '=' !in p.Key && !IsWhiteSpace(p.Key[0]) && p.Key[0] != '?'
    && (p.Value.None? ==> !IsWhiteSpace(p.Key[|p.Key| - 1]))
    && (p.Value.Some? ==> '&' !in p.Value.value && IsTrimmed(p.Value.value) && unescape(p.Value.value) == p.Value.value)
  }

  lemma {:induction false} PairRoundTrip(p: QueryPair, unescape: string -> string)
    requires RoundTrips(p, unescape)
    ensures PartToPair(EncodePair(p), unescape) == Some(p)
    ensures '&' !in EncodePair(p)
  {
    var text := EncodePair(p);
    match p.Value
    case None =>
      TrimOfTrimmed(text);
    case Some(v) =>
      assert text == p.Key + ['='] + v;
      assert text[0] == p.Key[0];
      assert text[|text| - 1] == if v == [] then '=' else v[|v| - 1];
      TrimOfTrimmed(text);
      SplitFirstAt(p.Key, v, '=');
      TrimOfTrimmed(v);
  }

  /** With its '?' dropped, the query string of non-empty pairs is their texts joined with '&'. */
  lemma EncodeQueryBody(pairs: seq<QueryPair>, unescape: string -> string)
    requires pairs != [] && RoundTrips(pairs[0], unescape)
    ensures TrimStartChar(EncodeQuery(pairs), '?') == Join("&", Map(pairs, EncodePair))
  {
    var parts := Map(pairs, EncodePair);
    var body := Join("&", parts);
    JoinStartsWithFirst("&", parts);
    assert body[0] == parts[0][0] == pairs[0].Key[0];
    assert EncodeQuery(pairs)[1..] == body;
  }

  /** Every text of round-tripping pairs is free of '&' and reads back as its pair. */
  lemma EncodedPartsRoundTrip(pairs: seq<QueryPair>, unescape: string -> string)
    requires forall p :: p in pairs ==> RoundTrips(p, unescape)
    ensures forall i :: 0 <= i < |pairs| ==> PartToPair(EncodePair(pairs[i]), unescape) == Some(pairs[i])
    ensures forall s :: s in Map(pairs, EncodePair) ==> '&' !in s
  {
    forall i | 0 <= i < |pairs|
      ensures PartToPair(EncodePair(pairs[i]), unescape) == Some(pairs[i]) && '&' !in EncodePair(pairs[i])
    {
      assert pairs[i] in pairs;
      PairRoundTrip(pairs[i], unescape);
    }
  }

  /** Splitting the query string built from well-formed pairs gives the same pairs back, in order. */
  lemma {:induction false} QueryRoundTrip(pairs: seq<QueryPair>, unescape: string -> string)
    requires forall p :: p in pairs ==> RoundTrips(p, unescape)
    ensures QueryPairs(EncodeQuery(pairs), unescape) == pairs
  {
    if pairs == [] {
      assert TrimStartChar(EncodeQuery(pairs), '?') == "";
    } else {
      assert pairs[0] in pairs;
      EncodeQueryBody(pairs, unescape);
      EncodedPartsRoundTrip(pairs, unescape);
      SplitJoin(Map(pairs, EncodePair), '&');
      FilterMapInverse(pairs, EncodePair, part => PartToPair(part, unescape));
    }
  }
}
