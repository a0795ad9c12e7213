/**
 * The request as the binders see it (an HttpRequestMessage reduced to its
 * method, URI, headers and body text) and RSHttpRequestMessage, the adapter
 * that presents it as an IRocketScienceRequest: a route key, flattened query
 * and header pairs and the body text, each computed on first use and kept.
 */
module RequestTranslation {
  import opened Wrappers
  import opened Text
  import opened Seqs
  import opened QueryString

  /** System.Uri: its ToString() text, LocalPath and Query (with the leading '?'). */
  datatype Uri = Uri(Text: string, LocalPath: string, Query: string)

  /** One entry of HttpRequestHeaders: a name and the values sent under it. */
  datatype Header = Header(Key: string, Value: seq<string>)

  /**
   * HttpRequestMessage: `Content` is None when the request carries no content
   * object at all, and otherwise the text ReadAsStringAsync gives.
   */
  datatype HttpRequestMessage = HttpRequestMessage(Method: string, RequestUri: Uri, Headers: seq<Header>, Content: Option<string>)

  /** KeyValuePair<string, string> of a flattened header. */
  datatype HeaderPair = HeaderPair(Key: string, Value: string)

  /** string.Join("", values): the values run together with no separator. */
  function Concat(values: seq<string>): (r: string)
    ensures |values| == 1 ==> r == values[0]
  {
    if values == [] then "" else values[0] + Concat(values[1..])
  }

  /** Concatenation with no separator is the same as String.Join with the empty separator. */
  lemma {:induction false} ConcatIsJoin(values: seq<string>)
    ensures Concat(values) == Join("", values)
  {
    if |values| > 1 {
      ConcatIsJoin(values[1..]);
      assert values[0] + "" + Join("", values[1..]) == values[0] + Join("", values[1..]);
    }
  }

  function FlattenHeader(h: Header): HeaderPair {
    HeaderPair(h.Key, Concat(h.Value))
  }

  /** The header pairs of a request. */
  function HeaderPairs(headers: seq<Header>): seq<HeaderPair> {
    Map(headers, FlattenHeader)
  }

  /** One pair per header entry, in order, under the header's name, its values joined with "". */
  lemma HeaderPairsFlatten(headers: seq<Header>)
    ensures |HeaderPairs(headers)| == |headers|
    ensures forall i :: 0 <= i < |headers| ==>
              HeaderPairs(headers)[i].Key == headers[i].Key && HeaderPairs(headers)[i].Value == Join("", headers[i].Value)
  {
    forall i | 0 <= i < |headers| ensures Concat(headers[i].Value) == Join("", headers[i].Value) {
      ConcatIsJoin(headers[i].Value);
    }
  }

  /** RSHttpRequestMessage: an HttpRequestMessage behind three Lazy<> fields. */
  class RSHttpRequestMessage {
    const request: HttpRequestMessage
    /** Uri.UnescapeDataString, which ConstructQueryParts applies to each value. */
    const unescape: string -> string

    /** What ConstructQueryParts gives for this request. */
    ghost const expectedQuery: seq<QueryPair>

    /** What ConstructHeaderParts gives for this request. */
    ghost const expectedHeaders: seq<HeaderPair>

    /** What the two factories compute: `expectedQuery` is the split query string, `expectedHeaders` the flattened headers. */
    ghost predicate Factories() {
      expectedQuery == QueryPairs(request.RequestUri.Query, unescape)
      && expectedHeaders == HeaderPairs(request.Headers)
    }

    /** The Lazy<> fields: None until first read. */
    var queryParts: Option<seq<QueryPair>>
    var headerParts: Option<seq<HeaderPair>>
    var content: Option<Option<string>>

    /** How many times each factory has run. */
    ghost var queryRuns: nat
    ghost var headerRuns: nat
    ghost var contentRuns: nat

    /** The cached pairs, once present, are the splitter's result, and the splitter ran at most once. */
    ghost predicate QueryValid()
      reads this`queryParts, this`queryRuns
    {
      (queryParts.Some? ==> queryParts.value == expectedQuery)
      && queryRuns == (if queryParts.Some? then 1 else 0)
    }

    /** The cached header pairs, once present, are the flattened headers, computed at most once. */
    ghost predicate HeaderValid()
      reads this`headerParts, this`headerRuns
    {
      (headerParts.Some? ==> headerParts.value == expectedHeaders)
      && headerRuns == (if headerParts.Some? then 1 else 0)
    }

    /** The cached body, once present, is the request's content, read at most once. */
    ghost predicate ContentValid()
      reads this`content, this`contentRuns
    {
      (content.Some? ==> content.value == request.Content)
      && contentRuns == (if content.Some? then 1 else 0)
    }

    /** Each cached value, once present, is what its factory computes, and each factory ran at most once. */
    ghost predicate Valid()
      reads this
    {
      QueryValid() && HeaderValid() && ContentValid()
    }

    /**
     * The constructor: the request wrapped, nothing computed yet. The ghost
     * parameters name what the factories will compute; the caller shows
     * Factories() from them.
     */
    constructor (request: HttpRequestMessage, unescape: string -> string,
                 ghost expectedQuery: seq<QueryPair>, ghost expectedHeaders: seq<HeaderPair>)
      ensures Valid()
      ensures this.request == request && this.unescape == unescape
      ensures this.expectedQuery == expectedQuery && this.expectedHeaders == expectedHeaders
      ensures queryParts.None? && headerParts.None? && content.None?
    {
      this.request := request;
      this.unescape := unescape;
      this.expectedQuery := expectedQuery;
      this.expectedHeaders := expectedHeaders;
      queryParts, headerParts, content := None, None, None;
      queryRuns, headerRuns, contentRuns := 0, 0, 0;
    }

    /**
     * Key: the HTTP method, '>' and the full request URI. The key reads back
     * as the method, the separator at the method's length, and the URI.
     */
    function Key(): (k: string)
      ensures |k| == |request.Method| + 1 + |request.RequestUri.Text|
      ensures k[..|request.Method|] == request.Method && k[|request.Method|] == '>'
      ensures k[|request.Method| + 1..] == request.RequestUri.Text
    {
      request.Method + ">" + request.RequestUri.Text
    }

    /** ConstructHeaderParts: one pair per header, its values joined with "". */
    method ConstructHeaderParts() returns (outputParts: seq<HeaderPair>)
      ensures outputParts == HeaderPairs(request.Headers)
    {
      var headers := request.Headers;
      outputParts := [];
      var i := 0;
      while i < |headers|
        invariant 0 <= i <= |headers|
        invariant |outputParts| == i
        invariant forall k :: 0 <= k < i ==> outputParts[k] == FlattenHeader(headers[k])
      {
        outputParts := outputParts + [HeaderPair(headers[i].Key, Concat(headers[i].Value))];
        i := i + 1;
      }
    }

    /** ConstructQueryParts: the query-string splitter applied to this request's URI. */
    method ConstructQueryParts() returns (outputParts: seq<QueryPair>)
      ensures outputParts == QueryPairs(request.RequestUri.Query, unescape)
    {
      outputParts := GetQueryNameValuePairs(request.RequestUri.Query, unescape);
    }

    /** QueryParts: the cached pairs, computed by ConstructQueryParts on the first read only. */
    method QueryParts() returns (parts: seq<QueryPair>)
      requires Valid() && Factories()
      modifies this`queryParts, this`queryRuns
      ensures Valid()
      ensures parts == expectedQuery && queryParts == Some(parts)
      ensures queryRuns == 1 && queryRuns - old(queryRuns) == (if old(queryParts).None? then 1 else 0)
      ensures headerParts == old(headerParts) && content == old(content)
      ensures headerRuns == old(headerRuns) && contentRuns == old(contentRuns)
    {
      if queryParts.None? {
        var computed := ConstructQueryParts();
        assert computed == expectedQuery;
        queryParts := Some(computed);
        queryRuns := 1;
      }
      parts := queryParts.value;
    }

    /** Headers: the cached header pairs, computed by ConstructHeaderParts on the first read only. */
    method Headers() returns (parts: seq<HeaderPair>)
      requires Valid() && Factories()
      modifies this`headerParts, this`headerRuns
      ensures Valid()
      ensures parts == HeaderPairs(request.Headers) && headerParts == Some(parts)
      ensures headerRuns == 1 && headerRuns - old(headerRuns) == (if old(headerParts).None? then 1 else 0)
      ensures queryParts == old(queryParts) && content == old(content)
      ensures queryRuns == old(queryRuns) && contentRuns == old(contentRuns)
    {
      if headerParts.None? {
        var computed := ConstructHeaderParts();
        headerParts := Some(computed);
        headerRuns := headerRuns + 1;
      }
      parts := headerParts.value;
    }

    /**
     * Content: the body text read once and kept; null (None) when the request
     * has no content object, which an empty body ("") is not.
     */
    method Content() returns (body: Option<string>)
      requires Valid()
      modifies this`content, this`contentRuns
      ensures Valid()
      ensures body == request.Content && content == Some(body)
      ensures contentRuns == 1 && contentRuns - old(contentRuns) == (if old(content).None? then 1 else 0)
      ensures queryParts == old(queryParts) && headerParts == old(headerParts)
      ensures queryRuns == old(queryRuns) && headerRuns == old(headerRuns)
    {
      if content.None? {
        content := Some(request.Content);
        contentRuns := contentRuns + 1;
      }
      body := content.value;
    }
  }

  /** Reading the query parts twice runs the splitter once and returns the same pairs both times. */
  method ReadQueryPartsTwice(message: RSHttpRequestMessage) returns (first: seq<QueryPair>, second: seq<QueryPair>)
    requires message.Valid() && message.Factories() && message.queryParts.None?
    modifies message
    ensures first == second
    ensures message.queryRuns == 1
  {
    first := message.QueryParts();
    second := message.QueryParts();
  }
}
