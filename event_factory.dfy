/**
 * The factory behind the "json" layout type: the shared options plus the
 * eight switches of the event layout, and the build that puts them together.
 */
module EventFactory {
  import opened Wrappers
  import opened Formatter
  import opened LayoutBase
  import opened EventLayout
  import opened BaseFactory

  /** Level, thread, MDC, logger, formatted message and exception are on; the raw message and the context name are off. */
  const DEFAULT_EVENT_TOGGLES := EventToggles(true, true, true, true, true, false, true, false)

  class EventJsonLayoutBaseFactory {
    /** The options this factory inherits from the shared base factory. */
    const common: AbstractJsonLayoutBaseFactory

    var includeLevel: bool
    var includeThreadName: bool
    var includeMDC: bool
    var includeLoggerName: bool
    var includeFormattedMessage: bool
    var includeMessage: bool
    var includeException: bool
    var includeContextName: bool

    constructor()
      ensures fresh(common)
      ensures common.Options() == DEFAULT_COMMON_OPTIONS
      ensures Toggles() == DEFAULT_EVENT_TOGGLES
    {
      common := new AbstractJsonLayoutBaseFactory();
      includeLevel := true;
      includeThreadName := true;
      includeMDC := true;
      includeLoggerName := true;
      includeFormattedMessage := true;
      includeMessage := false;
      includeException := true;
      includeContextName := false;
    }

    ghost function Toggles(): EventToggles
      reads this
    {
      EventToggles(includeLevel, includeThreadName, includeMDC, includeLoggerName,
                   includeFormattedMessage, includeMessage, includeException, includeContextName)
    }

    method SetIncludeLevel(b: bool)
      modifies this
      ensures Toggles() == old(Toggles()).(level := b)
    {
      includeLevel := b;
    }

    method SetIncludeThreadName(b: bool)
      modifies this
      ensures Toggles() == old(Toggles()).(threadName := b)
    {
      includeThreadName := b;
    }

    method SetIncludeMDC(b: bool)
      modifies this
      ensures Toggles() == old(Toggles()).(mdc := b)
    {
      includeMDC := b;
    }

    method SetIncludeLoggerName(b: bool)
      modifies this
      ensures Toggles() == old(Toggles()).(loggerName := b)
    {
      includeLoggerName := b;
    }

    method SetIncludeFormattedMessage(b: bool)
      modifies this
      ensures Toggles() == old(Toggles()).(formattedMessage := b)
    {
      includeFormattedMessage := b;
    }

    method SetIncludeMessage(b: bool)
      modifies this
      ensures Toggles() == old(Toggles()).(message := b)
    {
      includeMessage := b;
    }

    method SetIncludeException(b: bool)
      modifies this
      ensures Toggles() == old(Toggles()).(exception := b)
    {
      includeException := b;
    }

    method SetIncludeContextName(b: bool)
      modifies this
      ensures Toggles() == old(Toggles()).(contextName := b)
    {
      includeContextName := b;
    }

    /**
     * A new event layout for the given time zone. It writes with a new
     * formatter that follows the shared indentation and separator options, takes
     * the shared timestamp format and this factory's eight switches, and renders
     * throwables root cause first. The shared includeTimestamp option is not
     * passed on: the layout keeps its own default.
     */
    method Build(timeZoneId: string) returns (layout: EventJsonLayout)
      ensures fresh(layout) && fresh(layout.formatter)
      ensures layout.formatter.prettyPrint == common.prettyPrint
      ensures layout.formatter.doesAppendLineSeparator == common.appendLineSeparator
      ensures layout.formatter.bufferSize == DEFAULT_BUFFER_SIZE
      ensures layout.Options() == EventLayoutOptions(LAYOUT_INCLUDE_TIMESTAMP, common.timestampFormat, Some(timeZoneId),
                                                     common.appendLineSeparator, RootCauseFirstConverter, Toggles())
    {
      var formatter := common.CreateDropwizardJsonFormatter();
      var timestampFormat, appendLineSeparator := common.timestampFormat, common.appendLineSeparator;
      var t := EventToggles(includeLevel, includeThreadName, includeMDC, includeLoggerName,
                            includeFormattedMessage, includeMessage, includeException, includeContextName);
      layout := new EventJsonLayout(formatter);
      layout.SetTimestampFormat(timestampFormat);
      layout.SetTimestampFormatTimezoneId(Some(timeZoneId));
      layout.SetAppendLineSeparator(appendLineSeparator);
      layout.SetThrowableProxyConverter(CreateThrowableProxyConverter());
      CopyToggles(layout, t);
    }

    /** The build's eight switch setters, in its order. */
    method CopyToggles(layout: EventJsonLayout, t: EventToggles)
      modifies layout`includeLevel, layout`includeThreadName, layout`includeMDC, layout`includeLoggerName
      modifies layout`includeFormattedMessage, layout`includeMessage, layout`includeException, layout`includeContextName
      ensures layout.Options().toggles == t
    {
      layout.SetIncludeLevel(t.level);
      layout.SetIncludeThreadName(t.threadName);
      layout.SetIncludeMDC(t.mdc);
      layout.SetIncludeLoggerName(t.loggerName);
      layout.SetIncludeFormattedMessage(t.formattedMessage);
      layout.SetIncludeMessage(t.message);
      layout.SetIncludeException(t.exception);
      layout.SetIncludeContextName(t.contextName);
    }

    /** The converter every built layout gets: root cause first, not the standard order. */
    function CreateThrowableProxyConverter(): (c: ThrowableConverter)
      ensures c.RootCauseFirstConverter? && c != StandardConverter
    {
      RootCauseFirstConverter
    }
  }
}
