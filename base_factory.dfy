/**
 * The options that both JSON layout factories share: whether to include the
 * timestamp and how to format it, whether to indent the JSON and whether to end
 * each record with a line separator. The factory turns the last two into the
 * formatter its layouts write with.
 */
module BaseFactory {
  import opened Wrappers
  import opened Formatter

  datatype CommonOptions = CommonOptions(
    includeTimestamp: bool,
    timestampFormat: Option<string>,
    prettyPrint: bool,
    appendLineSeparator: bool)

  /** A factory as configuration creates it when it sets none of the shared options. */
  const DEFAULT_COMMON_OPTIONS := CommonOptions(true, None, false, true)

  class AbstractJsonLayoutBaseFactory {
    var includeTimestamp: bool
    /** The timestamp pattern; None when unset, and then the layout's own default applies. */
    var timestampFormat: Option<string>
    var prettyPrint: bool
    var appendLineSeparator: bool

    constructor()
      ensures Options() == DEFAULT_COMMON_OPTIONS
    {
      includeTimestamp := true;
      timestampFormat := None;
      prettyPrint := false;
      appendLineSeparator := true;
    }

    ghost function Options(): CommonOptions
      reads this
    {
      CommonOptions(includeTimestamp, timestampFormat, prettyPrint, appendLineSeparator)
    }

    method SetTimestampFormat(timestampFormat: Option<string>)
      modifies this
      ensures Options() == old(Options()).(timestampFormat := timestampFormat)
    {
      this.timestampFormat := timestampFormat;
    }

    method SetPrettyPrint(prettyPrint: bool)
      modifies this
      ensures Options() == old(Options()).(prettyPrint := prettyPrint)
    {
      this.prettyPrint := prettyPrint;
    }

    method SetIncludeTimestamp(includeTimestamp: bool)
      modifies this
      ensures Options() == old(Options()).(includeTimestamp := includeTimestamp)
    {
      this.includeTimestamp := includeTimestamp;
    }

    method SetAppendLineSeparator(appendLineSeparator: bool)
      modifies this
      ensures Options() == old(Options()).(appendLineSeparator := appendLineSeparator)
    {
      this.appendLineSeparator := appendLineSeparator;
    }

    /**
     * A new formatter with this factory's indentation and line-separator
     * choices and the default buffer size. That size is not negative, so by
     * BufferSizeIsOnlyCapacity the formatter writes every map exactly as Format does.
     */
    method CreateDropwizardJsonFormatter() returns (f: DropwizardJsonFormatter)
      ensures fresh(f)
      ensures f.prettyPrint == prettyPrint && f.doesAppendLineSeparator == appendLineSeparator
      ensures f.bufferSize == DEFAULT_BUFFER_SIZE
    {
      f := new DropwizardJsonFormatter.WithDefaultBufferSize(prettyPrint, appendLineSeparator);
    }
  }
}
