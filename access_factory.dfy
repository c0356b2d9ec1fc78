/**
 * The factory behind the "access-json" layout type: the shared options plus
 * the eighteen switches of the access layout, and the build that puts them
 * together.
 */
module AccessFactory {
  import opened Wrappers
  import opened Formatter
  import opened LayoutBase
  import opened AccessLayout
  import opened BaseFactory

  /** The factory's switches: the sixteen it sets on the layout and the two it passes to the layout's constructor. */
  datatype AccessSwitches = AccessSwitches(toggles: AccessToggles, userAgent: bool, responseHeaders: bool)

  /**
   * Remote address, remote user, request time, URI, status code, method,
   * protocol, content length, request parameters and user agent are on; the
   * rest are off.
   */
  const DEFAULT_ACCESS_SWITCHES := AccessSwitches(
    AccessToggles(
      remoteAddr := true, requestContent := false, requestHeaders := false, requestParameters := true,
      requestTime := true, requestURI := true, requestURL := false, remoteUser := true,
      contentLength := true, localPort := false, requestMethod := true, protocol := true,
      remoteHost := false, responseContent := false, serverName := false, statusCode := true),
    userAgent := true, responseHeaders := false)

  class AccessJsonLayoutBaseFactory {
    /** The options this factory inherits from the shared base factory. */
    const common: AbstractJsonLayoutBaseFactory

    var includeRemoteAddr: bool
    var includeRemoteUser: bool
    var includeRequestTime: bool
    var includeRequestURI: bool
    var includeStatusCode: bool
    var includeMethod: bool
    var includeProtocol: bool
    var includeContentLength: bool
    var includeRequestURL: bool
    var includeRemoteHost: bool
    var includeServerName: bool
    var includeRequestHeaders: bool
    var includeRequestParameters: bool
    var includeUserAgent: bool
    var includeResponseHeaders: bool
    var includeLocalPort: bool
    var includeRequestContent: bool
    var includeResponseContent: bool

    constructor()
      ensures fresh(common)
      ensures common.Options() == DEFAULT_COMMON_OPTIONS
      ensures Switches() == DEFAULT_ACCESS_SWITCHES
    {
      common := new AbstractJsonLayoutBaseFactory();
      includeRemoteAddr := true;
      includeRemoteUser := true;
      includeRequestTime := true;
      includeRequestURI := true;
      includeStatusCode := true;
      includeMethod := true;
      includeProtocol := true;
      includeContentLength := true;
      includeRequestURL := false;
      includeRemoteHost := false;
      includeServerName := false;
      includeRequestHeaders := false;
      includeRequestParameters := true;
      includeUserAgent := true;
      includeResponseHeaders := false;
      includeLocalPort := false;
      includeRequestContent := false;
      includeResponseContent := false;
    }

    ghost function Switches(): AccessSwitches
      reads this
    {
      AccessSwitches(
        AccessToggles(includeRemoteAddr, includeRequestContent, includeRequestHeaders, includeRequestParameters,
                      includeRequestTime, includeRequestURI, includeRequestURL, includeRemoteUser,
                      includeContentLength, includeLocalPort, includeMethod, includeProtocol,
                      includeRemoteHost, includeResponseContent, includeServerName, includeStatusCode),
        includeUserAgent, includeResponseHeaders)
    }

    method SetIncludeRemoteAddr(b: bool)
      modifies this
      ensures Switches() == old(Switches()).(toggles := old(Switches()).toggles.(remoteAddr := b))
    {
      includeRemoteAddr := b;
    }

    method SetIncludeRemoteUser(b: bool)
      modifies this
      ensures Switches() == old(Switches()).(toggles := old(Switches()).toggles.(remoteUser := b))
    {
      includeRemoteUser := b;
    }

    method SetIncludeRequestTime(b: bool)
      modifies this
      ensures Switches() == old(Switches()).(toggles := old(Switches()).toggles.(requestTime := b))
    {
      includeRequestTime := b;
    }

    method SetIncludeRequestURI(b: bool)
      modifies this
      ensures Switches() == old(Switches()).(toggles := old(Switches()).toggles.(requestURI := b))
    {
      includeRequestURI := b;
    }

    method SetIncludeStatusCode(b: bool)
      modifies this
      ensures Switches() == old(Switches()).(toggles := old(Switches()).toggles.(statusCode := b))
    {
      includeStatusCode := b;
    }

    method SetIncludeMethod(b: bool)
      modifies this
      ensures Switches() == old(Switches()).(toggles := old(Switches()).toggles.(requestMethod := b))
    {
      includeMethod := b;
    }

    method SetIncludeProtocol(b: bool)
      modifies this
      ensures Switches() == old(Switches()).(toggles := old(Switches()).toggles.(protocol := b))
    {
      includeProtocol := b;
    }

    method SetIncludeContentLength(b: bool)
      modifies this
      ensures Switches() == old(Switches()).(toggles := old(Switches()).toggles.(contentLength := b))
    {
      includeContentLength := b;
    }

    method SetIncludeRequestURL(b: bool)
      modifies this
      ensures Switches() == old(Switches()).(toggles := old(Switches()).toggles.(requestURL := b))
    {
      includeRequestURL := b;
    }

    method SetIncludeRemoteHost(b: bool)
      modifies this
      ensures Switches() == old(Switches()).(toggles := old(Switches()).toggles.(remoteHost := b))
    {
      includeRemoteHost := b;
    }

    method SetIncludeServerName(b: bool)
      modifies this
      ensures Switches() == old(Switches()).(toggles := old(Switches()).toggles.(serverName := b))
    {
      includeServerName := b;
    }

    method SetIncludeRequestHeaders(b: bool)
      modifies this
      ensures Switches() == old(Switches()).(toggles := old(Switches()).toggles.(requestHeaders := b))
    {
      includeRequestHeaders := b;
    }

    method SetIncludeRequestParameters(b: bool)
      modifies this
      ensures Switches() == old(Switches()).(toggles := old(Switches()).toggles.(requestParameters := b))
    {
      includeRequestParameters := b;
    }

    method SetIncludeLocalPort(b: bool)
      modifies this
      ensures Switches() == old(Switches()).(toggles := old(Switches()).toggles.(localPort := b))
    {
      includeLocalPort := b;
    }

    method SetIncludeRequestContent(b: bool)
      modifies this
      ensures Switches() == old(Switches()).(toggles := old(Switches()).toggles.(requestContent := b))
    {
      includeRequestContent := b;
    }

    method SetIncludeResponseContent(b: bool)
      modifies this
      ensures Switches() == old(Switches()).(toggles := old(Switches()).toggles.(responseContent := b))
    {
      includeResponseContent := b;
    }

    method SetIncludeUserAgent(b: bool)
      modifies this
      ensures Switches() == old(Switches()).(userAgent := b)
    {
      includeUserAgent := b;
    }

    method SetIncludeResponseHeaders(b: bool)
      modifies this
      ensures Switches() == old(Switches()).(responseHeaders := b)
    {
      includeResponseHeaders := b;
    }

    /**
     * A new access layout for the given time zone. It writes with a new
     * formatter that follows the shared indentation and separator options,
     * receives the user-agent and response-headers switches at construction,
     * and takes the shared timestamp format and the other sixteen switches
     * (request headers and parameters under the layout's singular names). The
     * shared includeTimestamp option is not passed on: the layout keeps its own
     * default.
     */
    method Build(timeZoneId: string) returns (layout: AccessJsonLayout)
      ensures fresh(layout) && fresh(layout.formatter)
      ensures layout.formatter.prettyPrint == common.prettyPrint
      ensures layout.formatter.doesAppendLineSeparator == common.appendLineSeparator
      ensures layout.formatter.bufferSize == DEFAULT_BUFFER_SIZE
      ensures layout.includeUserAgent == includeUserAgent
      ensures layout.includeResponseHeaders == includeResponseHeaders
      ensures layout.Options() == AccessLayoutOptions(LAYOUT_INCLUDE_TIMESTAMP, common.timestampFormat, Some(timeZoneId),
                                                      common.appendLineSeparator, Switches().toggles)
    {
      var formatter := common.CreateDropwizardJsonFormatter();
      var timestampFormat, appendLineSeparator := common.timestampFormat, common.appendLineSeparator;
      var t := AccessToggles(includeRemoteAddr, includeRequestContent, includeRequestHeaders, includeRequestParameters,
                             includeRequestTime, includeRequestURI, includeRequestURL, includeRemoteUser,
                             includeContentLength, includeLocalPort, includeMethod, includeProtocol,
                             includeRemoteHost, includeResponseContent, includeServerName, includeStatusCode);
      layout := new AccessJsonLayout(formatter, includeUserAgent, includeResponseHeaders);
      SetBaseOptions(layout, timestampFormat, Some(timeZoneId), appendLineSeparator);
      SetSwitches(layout, t);
    }

    /** The build's sixteen switch setters, in its order. */
    method SetSwitches(layout: AccessJsonLayout, t: AccessToggles)
      modifies layout
      ensures layout.Options() == old(layout.Options()).(toggles := t)
    {
      CopyFirstSwitches(layout, t);
      CopyLastSwitches(layout, t);
    }

    /** The build's setters for the shared options: timestamp format, time zone and line separator. */
    method SetBaseOptions(layout: AccessJsonLayout, timestampFormat: Option<string>, timeZoneId: Option<string>,
                          appendLineSeparator: bool)
      modifies layout
      ensures layout.Options() == old(layout.Options()).(timestampFormat := timestampFormat,
        timestampFormatTimezoneId := timeZoneId, appendLineSeparator := appendLineSeparator)
    {
      layout.SetTimestampFormat(timestampFormat);
      layout.SetTimestampFormatTimezoneId(timeZoneId);
      layout.SetAppendLineSeparator(appendLineSeparator);
    }

    /** The first half of the build's switch setters, in its order: remote address through remote user. */
    method CopyFirstSwitches(layout: AccessJsonLayout, t: AccessToggles)
      modifies layout`includeRemoteAddr, layout`includeRequestContent, layout`includeRequestHeader, layout`includeRequestParameter, layout`includeRequestTime, layout`includeRequestURI, layout`includeRequestURL, layout`includeRemoteUser
      ensures layout.includeRemoteAddr == t.remoteAddr
      ensures layout.includeRequestContent == t.requestContent
      ensures layout.includeRequestHeader == t.requestHeaders
      ensures layout.includeRequestParameter == t.requestParameters
      ensures layout.includeRequestTime == t.requestTime
      ensures layout.includeRequestURI == t.requestURI
      ensures layout.includeRequestURL == t.requestURL
      ensures layout.includeRemoteUser == t.remoteUser
    {
      layout.SetIncludeRemoteAddr(t.remoteAddr);
      layout.SetIncludeRequestContent(t.requestContent);
      layout.SetIncludeRequestHeader(t.requestHeaders);
      layout.SetIncludeRequestParameter(t.requestParameters);
      layout.SetIncludeRequestTime(t.requestTime);
      layout.SetIncludeRequestURI(t.requestURI);
      layout.SetIncludeRequestURL(t.requestURL);
      layout.SetIncludeRemoteUser(t.remoteUser);
    }

    /** The second half of the build's switch setters, in its order: content length through status code. */
    method CopyLastSwitches(layout: AccessJsonLayout, t: AccessToggles)
      modifies layout`includeContentLength, layout`includeLocalPort, layout`includeMethod, layout`includeProtocol, layout`includeRemoteHost, layout`includeResponseContent, layout`includeServerName, layout`includeStatusCode
      ensures layout.includeContentLength == t.contentLength
      ensures layout.includeLocalPort == t.localPort
      ensures layout.includeMethod == t.requestMethod
      ensures layout.includeProtocol == t.protocol
      ensures layout.includeRemoteHost == t.remoteHost
      ensures layout.includeResponseContent == t.responseContent
      ensures layout.includeServerName == t.serverName
      ensures layout.includeStatusCode == t.statusCode
    {
      layout.SetIncludeContentLength(t.contentLength);
      layout.SetIncludeLocalPort(t.localPort);
      layout.SetIncludeMethod(t.requestMethod);
      layout.SetIncludeProtocol(t.protocol);
      layout.SetIncludeRemoteHost(t.remoteHost);
      layout.SetIncludeResponseContent(t.responseContent);
      layout.SetIncludeServerName(t.serverName);
      layout.SetIncludeStatusCode(t.statusCode);
    }
  }
}
