/**
 * The JSON layout for access events. It takes the map of fields the base
 * access layout builds, adds the request's user agent, the response's content
 * length and the response headers when switched on, and then formats the map
 * as the event layout does.
 */
module AccessLayout {
  import opened Wrappers
  import opened Json
  import opened JsonReader
  import opened Document
  import opened Formatter
  import opened LayoutBase

  /** What the layout reads from an access event itself; absent headers are None. */
  datatype AccessEvent = AccessEvent(
    requestUserAgent: Option<string>,
    responseContentLength: Option<string>,
    responseHeaderMap: Option<seq<(string, string)>>)

  const USER_AGENT: string := "userAgent"
  const CONTENT_LENGTH: string := "contentLength"
  const RESPONSE_HEADERS: string := "responseHeaders"

  /** The only keys the layout itself may add or replace. */
  predicate OwnKey(k: string) {
    k == USER_AGENT || k == CONTENT_LENGTH || k == RESPONSE_HEADERS
  }

  /** The sixteen switches of the base access layout that the factory sets, in the order it sets them. */
  datatype AccessToggles = AccessToggles(
    remoteAddr: bool,
    requestContent: bool,
    requestHeaders: bool,
    requestParameters: bool,
    requestTime: bool,
    requestURI: bool,
    requestURL: bool,
    remoteUser: bool,
    contentLength: bool,
    localPort: bool,
    requestMethod: bool,
    protocol: bool,
    remoteHost: bool,
    responseContent: bool,
    serverName: bool,
    statusCode: bool)

  /** The base layout's add: the value goes in under fieldName when its switch is on and the value exists. */
  function Add(fieldName: string, field: bool, value: Option<string>, m: Document): Document {
    if field && value.Some? then Put(m, fieldName, JString(value.value)) else m
  }

  function StringEntries(pairs: seq<(string, string)>): (es: Document)
    ensures |es| == |pairs|
    ensures forall i | 0 <= i < |pairs| :: es[i] == (pairs[i].0, JString(pairs[i].1))
  {
    if pairs == [] then [] else [(pairs[0].0, JString(pairs[0].1))] + StringEntries(pairs[1..])
  }

  /** The base layout's addMap: the map goes in under key, as an object, when its switch is on and it is non-empty. */
  function AddMap(key: string, field: bool, mapValue: Option<seq<(string, string)>>, m: Document): Document {
    if field && mapValue.Some? && mapValue.value != [] then Put(m, key, JObject(StringEntries(mapValue.value))) else m
  }

  /** One add or addMap step on the map, in terms of Put. */
  predicate PutOrKeep(before: Document, after: Document, key: string, value: Option<Json>) {
    after == (if value.Some? then Put(before, key, value.value) else before)
  }

  /** What a put or nothing does to the shape of the map: base entries stay in place, only `key` can be appended. */
  lemma StepShape(before: Document, after: Document, key: string, value: Option<Json>)
    requires PutOrKeep(before, after, key, value)
    ensures |before| <= |after| <= |before| + 1
    ensures forall i | 0 <= i < |before| :: after[i].0 == before[i].0
    ensures forall i | 0 <= i < |before| && before[i].0 != key :: after[i] == before[i]
    ensures forall i | |before| <= i < |after| :: after[i].0 == key
  {
    if value.Some? {
      assert Keys(after) == Keys(before) || Keys(after) == Keys(before) + [key];
      assert forall i | 0 <= i < |before| :: after[i].0 == Keys(after)[i] == Keys(before)[i];
    }
  }

  /** What a put or nothing does to the value of a key. */
  lemma StepLookup(before: Document, after: Document, key: string, value: Option<Json>, k: string)
    requires PutOrKeep(before, after, key, value)
    ensures Lookup(after, k) == if k == key && value.Some? then value else Lookup(before, k)
  {
    if value.Some? {
      PutLookup(before, key, value.value, k);
    }
  }

  lemma StepUnique(before: Document, after: Document, key: string, value: Option<Json>)
    requires PutOrKeep(before, after, key, value)
    requires UniqueKeys(before)
    ensures UniqueKeys(after)
  {
    if value.Some? {
      PutUnique(before, key, value.value);
    }
  }

  /** The positions and keys after three steps: base entries stay in place, only the three keys are appended. */
  lemma ChainPositions(base: Document, m1: Document, m2: Document, m3: Document,
                       v1: Option<Json>, v2: Option<Json>, v3: Option<Json>)
    requires PutOrKeep(base, m1, USER_AGENT, v1)
    requires PutOrKeep(m1, m2, CONTENT_LENGTH, v2)
    requires PutOrKeep(m2, m3, RESPONSE_HEADERS, v3)
    ensures |base| <= |m3| <= |base| + 3
    ensures forall i | 0 <= i < |base| :: m3[i].0 == base[i].0
    ensures forall i | 0 <= i < |base| && !OwnKey(base[i].0) :: m3[i] == base[i]
    ensures forall i | |base| <= i < |m3| :: OwnKey(m3[i].0)
  {
    StepShape(base, m1, USER_AGENT, v1);
    StepShape(m1, m2, CONTENT_LENGTH, v2);
    StepShape(m2, m3, RESPONSE_HEADERS, v3);
    forall i | |base| <= i < |m3| ensures OwnKey(m3[i].0) {
      if i < |m1| {
        assert m3[i].0 == m2[i].0 == m1[i].0 == USER_AGENT;
      } else if i < |m2| {
        assert m3[i].0 == m2[i].0 == CONTENT_LENGTH;
      }
    }
  }

  /** The order in which the layout adds its own keys: user agent, then content length, then response headers. */
  function OwnRank(k: string): nat {
    if k == USER_AGENT then 0 else if k == CONTENT_LENGTH then 1 else 2
  }

  /** The keys the three steps append come in the order of the steps. */
  lemma ChainOrder(base: Document, m1: Document, m2: Document, m3: Document,
                   v1: Option<Json>, v2: Option<Json>, v3: Option<Json>)
    requires PutOrKeep(base, m1, USER_AGENT, v1)
    requires PutOrKeep(m1, m2, CONTENT_LENGTH, v2)
    requires PutOrKeep(m2, m3, RESPONSE_HEADERS, v3)
    ensures forall i, j | |base| <= i < j < |m3| :: OwnRank(m3[i].0) < OwnRank(m3[j].0)
  {
    StepShape(base, m1, USER_AGENT, v1);
    StepShape(m1, m2, CONTENT_LENGTH, v2);
    StepShape(m2, m3, RESPONSE_HEADERS, v3);
    forall i | |base| <= i < |m3| ensures OwnRank(m3[i].0) == if i < |m1| then 0 else if i < |m2| then 1 else 2 {
      if i < |m1| {
        assert m3[i].0 == m2[i].0 == m1[i].0 == USER_AGENT;
      } else if i < |m2| {
        assert m3[i].0 == m2[i].0 == CONTENT_LENGTH;
      } else {
        assert m3[i].0 == RESPONSE_HEADERS;
      }
    }
  }

  /** The values after three steps: the last step that sets a key decides its value. */
  lemma ChainLookup(base: Document, m1: Document, m2: Document, m3: Document,
                    v1: Option<Json>, v2: Option<Json>, v3: Option<Json>, k: string)
    requires PutOrKeep(base, m1, USER_AGENT, v1)
    requires PutOrKeep(m1, m2, CONTENT_LENGTH, v2)
    requires PutOrKeep(m2, m3, RESPONSE_HEADERS, v3)
    ensures Lookup(m3, k) ==
      if k == USER_AGENT && v1.Some? then v1
      else if k == CONTENT_LENGTH && v2.Some? then v2
      else if k == RESPONSE_HEADERS && v3.Some? then v3
      else Lookup(base, k)
  {
    StepLookup(base, m1, USER_AGENT, v1, k);
    StepLookup(m1, m2, CONTENT_LENGTH, v2, k);
    StepLookup(m2, m3, RESPONSE_HEADERS, v3, k);
  }

  lemma ChainUnique(base: Document, m1: Document, m2: Document, m3: Document,
                    v1: Option<Json>, v2: Option<Json>, v3: Option<Json>)
    requires PutOrKeep(base, m1, USER_AGENT, v1)
    requires PutOrKeep(m1, m2, CONTENT_LENGTH, v2)
    requires PutOrKeep(m2, m3, RESPONSE_HEADERS, v3)
    ensures UniqueKeys(base) ==> UniqueKeys(m3)
  {
    if UniqueKeys(base) {
      StepUnique(base, m1, USER_AGENT, v1);
      StepUnique(m1, m2, CONTENT_LENGTH, v2);
      StepUnique(m2, m3, RESPONSE_HEADERS, v3);
    }
  }

  /** Everything a factory sets on an access layout after constructing it. */
  datatype AccessLayoutOptions = AccessLayoutOptions(
    includeTimestamp: bool,
    timestampFormat: Option<string>,
    timestampFormatTimezoneId: Option<string>,
    appendLineSeparator: bool,
    toggles: AccessToggles)

  class AccessJsonLayout {
    const formatter: DropwizardJsonFormatter
    const includeUserAgent: bool
    const includeResponseHeaders: bool

    // Options of the base access layout, set through its setters.
    var includeTimestamp: bool
    var timestampFormat: Option<string>
    var timestampFormatTimezoneId: Option<string>
    var appendLineSeparator: bool
    var includeRemoteAddr: bool
    var includeRequestContent: bool
    var includeRequestHeader: bool
    var includeRequestParameter: bool
    var includeRequestTime: bool
    var includeRequestURI: bool
    var includeRequestURL: bool
    var includeRemoteUser: bool
    var includeContentLength: bool
    var includeLocalPort: bool
    var includeMethod: bool
    var includeProtocol: bool
    var includeRemoteHost: bool
    var includeResponseContent: bool
    var includeServerName: bool
    var includeStatusCode: bool

    constructor(formatter: DropwizardJsonFormatter, includeUserAgent: bool, includeResponseHeaders: bool)
      ensures this.formatter == formatter
      ensures this.includeUserAgent == includeUserAgent
      ensures this.includeResponseHeaders == includeResponseHeaders
      ensures includeTimestamp == LAYOUT_INCLUDE_TIMESTAMP
    {
      this.formatter := formatter;
      this.includeUserAgent := includeUserAgent;
      this.includeResponseHeaders := includeResponseHeaders;
      includeTimestamp := LAYOUT_INCLUDE_TIMESTAMP;
    }

    ghost function Options(): AccessLayoutOptions
      reads this
    {
      AccessLayoutOptions(includeTimestamp, timestampFormat, timestampFormatTimezoneId, appendLineSeparator,
                          AccessToggles(includeRemoteAddr, includeRequestContent, includeRequestHeader, includeRequestParameter,
                                        includeRequestTime, includeRequestURI, includeRequestURL, includeRemoteUser,
                                        includeContentLength, includeLocalPort, includeMethod, includeProtocol,
                                        includeRemoteHost, includeResponseContent, includeServerName, includeStatusCode))
    }

    // The base layout's setters, through which the factory configures the layout.

    method SetTimestampFormat(v: Option<string>)
      modifies this`timestampFormat
      ensures timestampFormat == v
    {
      timestampFormat := v;
    }

    method SetTimestampFormatTimezoneId(v: Option<string>)
      modifies this`timestampFormatTimezoneId
      ensures timestampFormatTimezoneId == v
    {
      timestampFormatTimezoneId := v;
    }

    method SetAppendLineSeparator(v: bool)
      modifies this`appendLineSeparator
      ensures appendLineSeparator == v
    {
      appendLineSeparator := v;
    }

    method SetIncludeRemoteAddr(v: bool)
      modifies this`includeRemoteAddr
      ensures includeRemoteAddr == v
    {
      includeRemoteAddr := v;
    }

    method SetIncludeRequestContent(v: bool)
      modifies this`includeRequestContent
      ensures includeRequestContent == v
    {
      includeRequestContent := v;
    }

    method SetIncludeRequestHeader(v: bool)
      modifies this`includeRequestHeader
      ensures includeRequestHeader == v
    {
      includeRequestHeader := v;
    }

    method SetIncludeRequestParameter(v: bool)
      modifies this`includeRequestParameter
      ensures includeRequestParameter == v
    {
      includeRequestParameter := v;
    }

    method SetIncludeRequestTime(v: bool)
      modifies this`includeRequestTime
      ensures includeRequestTime == v
    {
      includeRequestTime := v;
    }

    method SetIncludeRequestURI(v: bool)
      modifies this`includeRequestURI
      ensures includeRequestURI == v
    {
      includeRequestURI := v;
    }

    method SetIncludeRequestURL(v: bool)
      modifies this`includeRequestURL
      ensures includeRequestURL == v
    {
      includeRequestURL := v;
    }

    method SetIncludeRemoteUser(v: bool)
      modifies this`includeRemoteUser
      ensures includeRemoteUser == v
    {
      includeRemoteUser := v;
    }

    method SetIncludeContentLength(v: bool)
      modifies this`includeContentLength
      ensures includeContentLength == v
    {
      includeContentLength := v;
    }

    method SetIncludeLocalPort(v: bool)
      modifies this`includeLocalPort
      ensures includeLocalPort == v
    {
      includeLocalPort := v;
    }

    method SetIncludeMethod(v: bool)
      modifies this`includeMethod
      ensures includeMethod == v
    {
      includeMethod := v;
    }

    method SetIncludeProtocol(v: bool)
      modifies this`includeProtocol
      ensures includeProtocol == v
    {
      includeProtocol := v;
    }

    method SetIncludeRemoteHost(v: bool)
      modifies this`includeRemoteHost
      ensures includeRemoteHost == v
    {
      includeRemoteHost := v;
    }

    method SetIncludeResponseContent(v: bool)
      modifies this`includeResponseContent
      ensures includeResponseContent == v
    {
      includeResponseContent := v;
    }

    method SetIncludeServerName(v: bool)
      modifies this`includeServerName
      ensures includeServerName == v
    {
      includeServerName := v;
    }

    method SetIncludeStatusCode(v: bool)
      modifies this`includeStatusCode
      ensures includeStatusCode == v
    {
      includeStatusCode := v;
    }

    /** The value the layout's own steps give a key, or None when they leave it as the base map has it. */
    function OwnValue(k: string, event: AccessEvent): Option<Json>
      reads this
    {
      if k == USER_AGENT then
        (if includeUserAgent && event.requestUserAgent.Some? then Some(JString(event.requestUserAgent.value)) else None)
      else if k == CONTENT_LENGTH then
        (if includeContentLength && event.responseContentLength.Some? then Some(JString(event.responseContentLength.value)) else None)
      else if k == RESPONSE_HEADERS then
        (if includeResponseHeaders && event.responseHeaderMap.Some? && event.responseHeaderMap.value != []
         then Some(JObject(StringEntries(event.responseHeaderMap.value))) else None)
      else None
    }

    /**
     * The map the layout formats for an event whose base map is `base`. Every
     * base entry keeps its position and key, and keeps its value unless its key
     * is one of the layout's own; only those keys can be appended, in the
     * order the layout adds them (OwnRank); each of them
     * holds the event's value when switched on and present, and the base value
     * otherwise; every other key maps as in the base map.
     */
    function JsonMap(base: Document, event: AccessEvent): (m: Document)
      reads this
      ensures |base| <= |m| <= |base| + 3
      ensures forall i | 0 <= i < |base| :: m[i].0 == base[i].0
      ensures forall i | 0 <= i < |base| && !OwnKey(base[i].0) :: m[i] == base[i]
      ensures forall i | |base| <= i < |m| :: OwnKey(m[i].0)
      ensures forall i, j | |base| <= i < j < |m| :: OwnRank(m[i].0) < OwnRank(m[j].0)
      ensures forall k :: Lookup(m, k) == if OwnValue(k, event).Some? then OwnValue(k, event) else Lookup(base, k)
      ensures UniqueKeys(base) ==> UniqueKeys(m)
    {
      var m1 := Add(USER_AGENT, includeUserAgent, event.requestUserAgent, base);
      var m2 := Add(CONTENT_LENGTH, includeContentLength, event.responseContentLength, m1);
      var m3 := AddMap(RESPONSE_HEADERS, includeResponseHeaders, event.responseHeaderMap, m2);
      var v1, v2, v3 := OwnValue(USER_AGENT, event), OwnValue(CONTENT_LENGTH, event), OwnValue(RESPONSE_HEADERS, event);
      assert PutOrKeep(base, m1, USER_AGENT, v1) && PutOrKeep(m1, m2, CONTENT_LENGTH, v2) && PutOrKeep(m2, m3, RESPONSE_HEADERS, v3);
      ChainPositions(base, m1, m2, m3, v1, v2, v3);
      ChainOrder(base, m1, m2, m3, v1, v2, v3);
      assert forall k :: Lookup(m3, k) == if OwnValue(k, event).Some? then OwnValue(k, event) else Lookup(base, k) by {
        forall k ensures Lookup(m3, k) == if OwnValue(k, event).Some? then OwnValue(k, event) else Lookup(base, k) {
          ChainLookup(base, m1, m2, m3, v1, v2, v3, k);
        }
      }
      ChainUnique(base, m1, m2, m3, v1, v2, v3);
      m3
    }

    /** The in-place form of JsonMap: extends the base map with the layout's three additions, one step at a time. */
    method ToJsonMap(base: Document, event: AccessEvent) returns (m: Document)
      ensures m == JsonMap(base, event)
    {
      m := base;
      m := Add(USER_AGENT, includeUserAgent, event.requestUserAgent, m);
      m := Add(CONTENT_LENGTH, includeContentLength, event.responseContentLength, m);
      m := AddMap(RESPONSE_HEADERS, includeResponseHeaders, event.responseHeaderMap, m);
    }

    /**
     * The text for an access event: nothing when its map is empty, and
     * otherwise exactly what the formatter writes for the map, its failure included.
     */
    method DoLayout(base: Document, event: AccessEvent) returns (r: Result<Option<string>, FormatError>)
      ensures r == Success(None) <==> JsonMap(base, event) == []
      ensures JsonMap(base, event) != [] ==> r == LayoutOutcome(formatter.Output(JsonMap(base, event)))
      ensures r.Success? && r.value.Some? ==> Parse(r.value.value) == Some(JObject(JsonMap(base, event)))
    {
      var m := ToJsonMap(base, event);
      if m == [] {
        return Success(None);
      }
      var text := formatter.ToJson(m);
      r := LayoutOutcome(text);
    }
  }
}
