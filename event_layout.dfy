/**
 * The JSON layout for log events. Its map of fields comes from the base JSON
 * layout it extends; it suppresses an absent or empty map and hands any other
 * map to its formatter.
 */
module EventLayout {
  import opened Wrappers
  import opened Json
  import opened JsonReader
  import opened Document
  import opened Formatter
  import opened LayoutBase

  /** How a layout renders the throwable of an event. */
  datatype ThrowableConverter = StandardConverter | RootCauseFirstConverter

  /** The eight switches of the event layout, in the order its factory sets them. */
  datatype EventToggles = EventToggles(
    level: bool,
    threadName: bool,
    mdc: bool,
    loggerName: bool,
    formattedMessage: bool,
    message: bool,
    exception: bool,
    contextName: bool)

  /** Everything a factory sets on an event layout. */
  datatype EventLayoutOptions = EventLayoutOptions(
    includeTimestamp: bool,
    timestampFormat: Option<string>,
    timestampFormatTimezoneId: Option<string>,
    appendLineSeparator: bool,
    throwableProxyConverter: ThrowableConverter,
    toggles: EventToggles)

  class EventJsonLayout {
    const formatter: DropwizardJsonFormatter

    // Options of the base JSON layout, set through its setters.
    var includeTimestamp: bool
    var timestampFormat: Option<string>
    var timestampFormatTimezoneId: Option<string>
    var appendLineSeparator: bool
    var throwableProxyConverter: ThrowableConverter
    var includeLevel: bool
    var includeThreadName: bool
    var includeMDC: bool
    var includeLoggerName: bool
    var includeFormattedMessage: bool
    var includeMessage: bool
    var includeException: bool
    var includeContextName: bool

    constructor(formatter: DropwizardJsonFormatter)
      ensures this.formatter == formatter
      ensures includeTimestamp == LAYOUT_INCLUDE_TIMESTAMP
    {
      this.formatter := formatter;
      includeTimestamp := LAYOUT_INCLUDE_TIMESTAMP;
    }

    ghost function Options(): EventLayoutOptions
      reads this
    {
      EventLayoutOptions(includeTimestamp, timestampFormat, timestampFormatTimezoneId, appendLineSeparator,
                         throwableProxyConverter,
                         EventToggles(includeLevel, includeThreadName, includeMDC, includeLoggerName,
                                      includeFormattedMessage, includeMessage, includeException, includeContextName))
    }

    // The base layout's setters, through which the factory configures the layout.

    method SetTimestampFormat(v: Option<string>)
      modifies this`timestampFormat
      ensures timestampFormat == v
    {
      timestampFormat := v;
    }

    method SetTimestampFormatTimezoneId(v: Option<string>)
      modifies this`timestampFormatTimezoneId
      ensures timestampFormatTimezoneId == v
    {
      timestampFormatTimezoneId := v;
    }

    method SetAppendLineSeparator(v: bool)
      modifies this`appendLineSeparator
      ensures appendLineSeparator == v
    {
      appendLineSeparator := v;
    }

    method SetThrowableProxyConverter(v: ThrowableConverter)
      modifies this`throwableProxyConverter
      ensures throwableProxyConverter == v
    {
      throwableProxyConverter := v;
    }

    method SetIncludeLevel(v: bool)
      modifies this`includeLevel
      ensures includeLevel == v
    {
      includeLevel := v;
    }

    method SetIncludeThreadName(v: bool)
      modifies this`includeThreadName
      ensures includeThreadName == v
    {
      includeThreadName := v;
    }

    method SetIncludeMDC(v: bool)
      modifies this`includeMDC
      ensures includeMDC == v
    {
      includeMDC := v;
    }

    method SetIncludeLoggerName(v: bool)
      modifies this`includeLoggerName
      ensures includeLoggerName == v
    {
      includeLoggerName := v;
    }

    method SetIncludeFormattedMessage(v: bool)
      modifies this`includeFormattedMessage
      ensures includeFormattedMessage == v
    {
      includeFormattedMessage := v;
    }

    method SetIncludeMessage(v: bool)
      modifies this`includeMessage
      ensures includeMessage == v
    {
      includeMessage := v;
    }

    method SetIncludeException(v: bool)
      modifies this`includeException
      ensures includeException == v
    {
      includeException := v;
    }

    method SetIncludeContextName(v: bool)
      modifies this`includeContextName
      ensures includeContextName == v
    {
      includeContextName := v;
    }

    /**
     * The text for an event whose field map is `fields` (absent when the base
     * layout gives none): nothing for an absent or empty map, and otherwise
     * exactly what the formatter writes for it, its failure included.
     */
    method DoLayout(fields: Option<Document>) returns (r: Result<Option<string>, FormatError>)
      ensures r == Success(None) <==> fields.None? || fields.value == []
      ensures fields.Some? && fields.value != [] ==> r == LayoutOutcome(formatter.Output(fields.value))
      ensures r.Success? && r.value.Some? ==> fields.Some? && Parse(r.value.value) == Some(JObject(fields.value))
    {
      if fields.None? || fields.value == [] {
        return Success(None);
      }
      var text := formatter.ToJson(fields.value);
      r := LayoutOutcome(text);
    }
  }
}
