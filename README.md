# Dropwizard JSON logging, modelled in Dafny

This project models the core of Dropwizard's JSON logging module: the
formatter that turns a layout's map of fields into JSON text, the two JSON
layouts (one for log events, one for HTTP access events), and the three
factories that configuration creates and that build those layouts.

- `wrappers.dfy` defines `Option` and `Result`.
- `json.dfy` defines the JSON values that the layouts put into their maps.
  It also gives the text Jackson's object mapper writes for them, in compact
  form and in indented form. Strings are escaped as section 7 of RFC 8259
  requires. A value the mapper cannot serialize is `JOpaque`.
- `json_reader.dfy` is an independent reference parser for that text.
  `json_roundtrip.dfy` proves that everything the mapper writes parses back
  to the value that was written. This is the partner of the formatter: the
  formatter's output is specified by what it reads back as, not by how it
  is built.
- `document.dfy` models the layouts' map as an insertion-ordered list of
  entries, the way a linked hash map behaves. `Put` replaces the value of
  a present key where it stands and appends a new key at the end.
- `formatter.dfy` models `DropwizardJsonFormatter` as a class. `ToJson`
  writes into a fresh buffer, fails as the string writer or the mapper
  would, and appends the line separator when configured. `Format` is the
  function it is proved against. The test-suite's four expected outputs
  are proved as lemmas over any map of the same shape.
- `event_layout.dfy` and `access_layout.dfy` model the two layouts. Each
  is a class with its options and its setters. `DoLayout` returns nothing
  for an empty map, and the event layout's also for an absent one.
  Otherwise it returns exactly what the formatter returns. The access layout first extends the base map with `userAgent`,
  `contentLength` and `responseHeaders`. `JsonMap` states what that does
  to the map's order and to every key.
- `base_factory.dfy`, `event_factory.dfy` and `access_factory.dfy` model
  the factories as classes. The abstract factory holds the shared options,
  with their defaults and setters, and creates the formatter. The event and
  access factories add their own switches, defaults and setters, and a
  `Build` that is proved to hand the new layout every option the source
  passes it. Java inheritance from the abstract factory becomes
  composition: a concrete factory holds its shared options in `common`.

Where a documentation comment and the code disagree, the model follows
the code:
- The event factory's table documents `includeMessage` as on by default.
  The field is initialised to `false`.
- The access factory's table documents `includeRequestHeaders` as on by
  default. The field is initialised to `false`.

Two consequences of the code are kept as they are:
- The shared `includeTimestamp` option is stored by the factory but never
  passed to either layout. The built layout keeps the base layout's own
  default, `LAYOUT_INCLUDE_TIMESTAMP`.
- The factory's `includeRequestHeaders` and `includeRequestParameters` go
  to the layout's singular `includeRequestHeader` and
  `includeRequestParameter`.

## Model

| member | source | states |
|---|---|---|
| Formatter.Format | dropwizard-json-logging/src/main/java/io/dropwizard/logging/json/layout/DropwizardJsonFormatter.java:39-50 | the write succeeds exactly when every value in the map is serializable; otherwise it fails with an IllegalArgumentException whose message is "Unable to format map as a JSON"; on success the text parses back to the map, entries in insertion order |
| Formatter.SeparatorLaw | dropwizard-json-logging/src/main/java/io/dropwizard/logging/json/layout/DropwizardJsonFormatter.java:46-48 | switching on the line separator never changes whether the write succeeds; output with the separator is the output without it plus exactly one separator |
| Formatter.CompactIsOneLine | dropwizard-json-logging/src/main/java/io/dropwizard/logging/json/layout/DropwizardJsonFormatter.java:24 | without indentation the output holds no line break before its last character; it ends in a line break exactly when the separator is switched on |
| Formatter.EndsWithSeparator | dropwizard-json-logging/src/main/java/io/dropwizard/logging/json/layout/DropwizardJsonFormatter.java:46-48 | in both forms the text ends with the closing brace, followed by one line separator when it is switched on and by nothing otherwise |
| Formatter.DropwizardJsonFormatter.constructor | dropwizard-json-logging/src/main/java/io/dropwizard/logging/json/layout/DropwizardJsonFormatter.java:22-27 | the formatter keeps the indentation choice, the separator choice and the buffer size it is given |
| Formatter.DropwizardJsonFormatter.WithDefaultBufferSize | dropwizard-json-logging/src/main/java/io/dropwizard/logging/json/layout/DropwizardJsonFormatter.java:29-31 | as the full constructor, with the buffer size set to 512 |
| Formatter.DropwizardJsonFormatter.ToJson | dropwizard-json-logging/src/main/java/io/dropwizard/logging/json/layout/DropwizardJsonFormatter.java:39-50 | a negative buffer size fails with "Negative buffer size" before anything is written; otherwise the result is Format for the formatter's choices, and a successful result parses back to the map |
| Formatter.BufferSizeIsOnlyCapacity | dropwizard-json-logging/src/main/java/io/dropwizard/logging/json/layout/DropwizardJsonFormatter.java:40 | two formatters that differ only in a non-negative buffer size write the same result, and that result is Format's |
| Formatter.CompactExample | dropwizard-json-logging/src/test/java/io/dropwizard/logging/json/layout/DropwizardJsonFormatterTest.java:20-33 | for the test map shape, the compact output has no whitespace, keys in insertion order, and one trailing line feed when the separator is on |
| Formatter.PrettyExample | dropwizard-json-logging/src/test/java/io/dropwizard/logging/json/layout/DropwizardJsonFormatterTest.java:35-53 | for the test map shape, the indented output has one entry per line indented two spaces, " : " after keys, "[ a, b, c ]" for the list, and the brace on its own line, plus the line feed when configured |
| JsonRoundTrip.ReadBack | dropwizard-json-logging/src/main/java/io/dropwizard/logging/json/layout/DropwizardJsonFormatter.java:42 | the text the mapper writes for any serializable value, compact or indented and followed by any whitespace, parses back to that value |
| Json.EscapeVerbatim | dropwizard-json-logging/src/main/java/io/dropwizard/logging/json/layout/DropwizardJsonFormatter.java:42 | a string is written unchanged between quotation marks exactly when none of its characters needs an escape |
| Json.CompactSingleLine | dropwizard-json-logging/src/main/java/io/dropwizard/logging/json/layout/DropwizardJsonFormatter.java:24 | the compact form of any serializable value holds no control character, so no line break |
| Document.Put | dropwizard-json-logging/src/main/java/io/dropwizard/logging/json/layout/AccessJsonLayout.java:29-31 | putting a new key appends it; putting a present key keeps the key order; every entry under another key keeps its position and value |
| Document.PutLookup | dropwizard-json-logging/src/main/java/io/dropwizard/logging/json/layout/AccessJsonLayout.java:29-31 | after a put the key maps to the new value and every other key maps as before |
| Document.PutUnique | dropwizard-json-logging/src/main/java/io/dropwizard/logging/json/layout/AccessJsonLayout.java:29-31 | a put keeps the keys of the map unique |
| EventLayout.EventJsonLayout.constructor | dropwizard-json-logging/src/main/java/io/dropwizard/logging/json/layout/EventJsonLayout.java:16-18 | the layout keeps the formatter it is given; its timestamp switch has the base layout's default |
| EventLayout.EventJsonLayout.DoLayout | dropwizard-json-logging/src/main/java/io/dropwizard/logging/json/layout/EventJsonLayout.java:22-28 | no text exactly when the map is absent or empty; otherwise exactly the formatter's outcome for the map, failure included; successful text parses back to the map |
| EventLayout.EventJsonLayout.SetTimestampFormat | dropwizard-json-logging/src/main/java/io/dropwizard/logging/json/EventJsonLayoutBaseFactory.java:165 | the base layout setter the build calls stores the value in its option and changes nothing else |
| EventLayout.EventJsonLayout.SetTimestampFormatTimezoneId | dropwizard-json-logging/src/main/java/io/dropwizard/logging/json/EventJsonLayoutBaseFactory.java:166 | the base layout setter the build calls stores the value in its option and changes nothing else |
| EventLayout.EventJsonLayout.SetAppendLineSeparator | dropwizard-json-logging/src/main/java/io/dropwizard/logging/json/EventJsonLayoutBaseFactory.java:167 | the base layout setter the build calls stores the value in its option and changes nothing else |
| EventLayout.EventJsonLayout.SetThrowableProxyConverter | dropwizard-json-logging/src/main/java/io/dropwizard/logging/json/EventJsonLayoutBaseFactory.java:168 | the base layout setter the build calls stores the value in its option and changes nothing else |
| EventLayout.EventJsonLayout.SetIncludeLevel | dropwizard-json-logging/src/main/java/io/dropwizard/logging/json/EventJsonLayoutBaseFactory.java:170 | the base layout setter the build calls stores the value in its option and changes nothing else |
| EventLayout.EventJsonLayout.SetIncludeThreadName | dropwizard-json-logging/src/main/java/io/dropwizard/logging/json/EventJsonLayoutBaseFactory.java:171 | the base layout setter the build calls stores the value in its option and changes nothing else |
| EventLayout.EventJsonLayout.SetIncludeMDC | dropwizard-json-logging/src/main/java/io/dropwizard/logging/json/EventJsonLayoutBaseFactory.java:172 | the base layout setter the build calls stores the value in its option and changes nothing else |
| EventLayout.EventJsonLayout.SetIncludeLoggerName | dropwizard-json-logging/src/main/java/io/dropwizard/logging/json/EventJsonLayoutBaseFactory.java:173 | the base layout setter the build calls stores the value in its option and changes nothing else |
| EventLayout.EventJsonLayout.SetIncludeFormattedMessage | dropwizard-json-logging/src/main/java/io/dropwizard/logging/json/EventJsonLayoutBaseFactory.java:174 | the base layout setter the build calls stores the value in its option and changes nothing else |
| EventLayout.EventJsonLayout.SetIncludeMessage | dropwizard-json-logging/src/main/java/io/dropwizard/logging/json/EventJsonLayoutBaseFactory.java:175 | the base layout setter the build calls stores the value in its option and changes nothing else |
| EventLayout.EventJsonLayout.SetIncludeException | dropwizard-json-logging/src/main/java/io/dropwizard/logging/json/EventJsonLayoutBaseFactory.java:176 | the base layout setter the build calls stores the value in its option and changes nothing else |
| EventLayout.EventJsonLayout.SetIncludeContextName | dropwizard-json-logging/src/main/java/io/dropwizard/logging/json/EventJsonLayoutBaseFactory.java:177 | the base layout setter the build calls stores the value in its option and changes nothing else |
| AccessLayout.AccessJsonLayout.constructor | dropwizard-json-logging/src/main/java/io/dropwizard/logging/json/layout/AccessJsonLayout.java:19-23 | the layout keeps the formatter and the user-agent and response-headers switches it is given; its timestamp switch has the base layout's default |
| AccessLayout.AccessJsonLayout.JsonMap | dropwizard-json-logging/src/main/java/io/dropwizard/logging/json/layout/AccessJsonLayout.java:27-33 | base entries keep their position and key, and their value unless the key is userAgent, contentLength or responseHeaders; only those keys can be appended (at most three), and in the order the layout adds them: userAgent, contentLength, responseHeaders; each maps to the event's value when switched on and present, else as in the base map; unique keys stay unique |
| AccessLayout.AccessJsonLayout.ToJsonMap | dropwizard-json-logging/src/main/java/io/dropwizard/logging/json/layout/AccessJsonLayout.java:27-33 | the three add steps applied to the base map give JsonMap |
| AccessLayout.AccessJsonLayout.DoLayout | dropwizard-json-logging/src/main/java/io/dropwizard/logging/json/layout/AccessJsonLayout.java:38-45 | no text exactly when the extended map is empty; otherwise exactly the formatter's outcome for it, failure included; successful text parses back to the map |
| AccessLayout.StepShape | dropwizard-json-logging/src/main/java/io/dropwizard/logging/json/layout/AccessJsonLayout.java:29 | one add step keeps every base key in place and the other keys' entries, and appends at most its own key |
| AccessLayout.StepLookup | dropwizard-json-logging/src/main/java/io/dropwizard/logging/json/layout/AccessJsonLayout.java:29 | after one add step its key maps to the added value when there is one, and every other key as before |
| AccessLayout.StepUnique | dropwizard-json-logging/src/main/java/io/dropwizard/logging/json/layout/AccessJsonLayout.java:29 | one add step keeps keys unique |
| AccessLayout.ChainPositions | dropwizard-json-logging/src/main/java/io/dropwizard/logging/json/layout/AccessJsonLayout.java:29-31 | the three steps together keep base keys in place, leave other entries alone and append only the layout's own keys |
| AccessLayout.ChainLookup | dropwizard-json-logging/src/main/java/io/dropwizard/logging/json/layout/AccessJsonLayout.java:29-31 | after the three steps each own key maps to its added value when there is one, and every other key as in the base map |
| AccessLayout.ChainUnique | dropwizard-json-logging/src/main/java/io/dropwizard/logging/json/layout/AccessJsonLayout.java:29-31 | the three steps keep keys unique |
| AccessLayout.ChainOrder | dropwizard-json-logging/src/main/java/io/dropwizard/logging/json/layout/AccessJsonLayout.java:29-31 | the keys the three steps append follow the order of the steps: user agent, then content length, then response headers |
| AccessLayout.AccessJsonLayout.SetTimestampFormat | dropwizard-json-logging/src/main/java/io/dropwizard/logging/json/AccessJsonLayoutBaseFactory.java:319 | the base access layout setter the build calls stores the value in its option and changes nothing else |
| AccessLayout.AccessJsonLayout.SetTimestampFormatTimezoneId | dropwizard-json-logging/src/main/java/io/dropwizard/logging/json/AccessJsonLayoutBaseFactory.java:320 | the base access layout setter the build calls stores the value in its option and changes nothing else |
| AccessLayout.AccessJsonLayout.SetAppendLineSeparator | dropwizard-json-logging/src/main/java/io/dropwizard/logging/json/AccessJsonLayoutBaseFactory.java:321 | the base access layout setter the build calls stores the value in its option and changes nothing else |
| AccessLayout.AccessJsonLayout.SetIncludeRemoteAddr | dropwizard-json-logging/src/main/java/io/dropwizard/logging/json/AccessJsonLayoutBaseFactory.java:323 | the base access layout setter the build calls stores the value in its option and changes nothing else |
| AccessLayout.AccessJsonLayout.SetIncludeRequestContent | dropwizard-json-logging/src/main/java/io/dropwizard/logging/json/AccessJsonLayoutBaseFactory.java:324 | the base access layout setter the build calls stores the value in its option and changes nothing else |
| AccessLayout.AccessJsonLayout.SetIncludeRequestHeader | dropwizard-json-logging/src/main/java/io/dropwizard/logging/json/AccessJsonLayoutBaseFactory.java:325 | the base access layout setter the build calls stores the value in its option and changes nothing else |
| AccessLayout.AccessJsonLayout.SetIncludeRequestParameter | dropwizard-json-logging/src/main/java/io/dropwizard/logging/json/AccessJsonLayoutBaseFactory.java:326 | the base access layout setter the build calls stores the value in its option and changes nothing else |
| AccessLayout.AccessJsonLayout.SetIncludeRequestTime | dropwizard-json-logging/src/main/java/io/dropwizard/logging/json/AccessJsonLayoutBaseFactory.java:327 | the base access layout setter the build calls stores the value in its option and changes nothing else |
| AccessLayout.AccessJsonLayout.SetIncludeRequestURI | dropwizard-json-logging/src/main/java/io/dropwizard/logging/json/AccessJsonLayoutBaseFactory.java:328 | the base access layout setter the build calls stores the value in its option and changes nothing else |
| AccessLayout.AccessJsonLayout.SetIncludeRequestURL | dropwizard-json-logging/src/main/java/io/dropwizard/logging/json/AccessJsonLayoutBaseFactory.java:329 | the base access layout setter the build calls stores the value in its option and changes nothing else |
| AccessLayout.AccessJsonLayout.SetIncludeRemoteUser | dropwizard-json-logging/src/main/java/io/dropwizard/logging/json/AccessJsonLayoutBaseFactory.java:330 | the base access layout setter the build calls stores the value in its option and changes nothing else |
| AccessLayout.AccessJsonLayout.SetIncludeContentLength | dropwizard-json-logging/src/main/java/io/dropwizard/logging/json/AccessJsonLayoutBaseFactory.java:331 | the base access layout setter the build calls stores the value in its option and changes nothing else |
| AccessLayout.AccessJsonLayout.SetIncludeLocalPort | dropwizard-json-logging/src/main/java/io/dropwizard/logging/json/AccessJsonLayoutBaseFactory.java:332 | the base access layout setter the build calls stores the value in its option and changes nothing else |
| AccessLayout.AccessJsonLayout.SetIncludeMethod | dropwizard-json-logging/src/main/java/io/dropwizard/logging/json/AccessJsonLayoutBaseFactory.java:333 | the base access layout setter the build calls stores the value in its option and changes nothing else |
| AccessLayout.AccessJsonLayout.SetIncludeProtocol | dropwizard-json-logging/src/main/java/io/dropwizard/logging/json/AccessJsonLayoutBaseFactory.java:334 | the base access layout setter the build calls stores the value in its option and changes nothing else |
| AccessLayout.AccessJsonLayout.SetIncludeRemoteHost | dropwizard-json-logging/src/main/java/io/dropwizard/logging/json/AccessJsonLayoutBaseFactory.java:335 | the base access layout setter the build calls stores the value in its option and changes nothing else |
| AccessLayout.AccessJsonLayout.SetIncludeResponseContent | dropwizard-json-logging/src/main/java/io/dropwizard/logging/json/AccessJsonLayoutBaseFactory.java:336 | the base access layout setter the build calls stores the value in its option and changes nothing else |
| AccessLayout.AccessJsonLayout.SetIncludeServerName | dropwizard-json-logging/src/main/java/io/dropwizard/logging/json/AccessJsonLayoutBaseFactory.java:337 | the base access layout setter the build calls stores the value in its option and changes nothing else |
| AccessLayout.AccessJsonLayout.SetIncludeStatusCode | dropwizard-json-logging/src/main/java/io/dropwizard/logging/json/AccessJsonLayoutBaseFactory.java:338 | the base access layout setter the build calls stores the value in its option and changes nothing else |
| BaseFactory.AbstractJsonLayoutBaseFactory.constructor | dropwizard-json-logging/src/main/java/io/dropwizard/logging/json/AbstractJsonLayoutBaseFactory.java:44-50 | a fresh factory includes the timestamp, has no timestamp format, does not indent and appends the line separator |
| BaseFactory.AbstractJsonLayoutBaseFactory.SetTimestampFormat | dropwizard-json-logging/src/main/java/io/dropwizard/logging/json/AbstractJsonLayoutBaseFactory.java:59-61 | the option takes the new value and the other shared options are unchanged |
| BaseFactory.AbstractJsonLayoutBaseFactory.SetPrettyPrint | dropwizard-json-logging/src/main/java/io/dropwizard/logging/json/AbstractJsonLayoutBaseFactory.java:69-71 | the option takes the new value and the other shared options are unchanged |
| BaseFactory.AbstractJsonLayoutBaseFactory.SetIncludeTimestamp | dropwizard-json-logging/src/main/java/io/dropwizard/logging/json/AbstractJsonLayoutBaseFactory.java:79-81 | the option takes the new value and the other shared options are unchanged |
| BaseFactory.AbstractJsonLayoutBaseFactory.SetAppendLineSeparator | dropwizard-json-logging/src/main/java/io/dropwizard/logging/json/AbstractJsonLayoutBaseFactory.java:89-91 | the option takes the new value and the other shared options are unchanged |
| BaseFactory.AbstractJsonLayoutBaseFactory.CreateDropwizardJsonFormatter | dropwizard-json-logging/src/main/java/io/dropwizard/logging/json/AbstractJsonLayoutBaseFactory.java:93-95 | a new formatter with the factory's indentation and separator choices and the default buffer size |
| EventFactory.EventJsonLayoutBaseFactory.constructor | dropwizard-json-logging/src/main/java/io/dropwizard/logging/json/EventJsonLayoutBaseFactory.java:71-78 | level, thread name, MDC, logger name, formatted message and exception are on; message and context name are off; the shared options have their defaults |
| EventFactory.EventJsonLayoutBaseFactory.SetIncludeLevel | dropwizard-json-logging/src/main/java/io/dropwizard/logging/json/EventJsonLayoutBaseFactory.java:86-88 | that switch takes the new value and the other seven are unchanged |
| EventFactory.EventJsonLayoutBaseFactory.SetIncludeThreadName | dropwizard-json-logging/src/main/java/io/dropwizard/logging/json/EventJsonLayoutBaseFactory.java:96-98 | that switch takes the new value and the other seven are unchanged |
| EventFactory.EventJsonLayoutBaseFactory.SetIncludeMDC | dropwizard-json-logging/src/main/java/io/dropwizard/logging/json/EventJsonLayoutBaseFactory.java:106-108 | that switch takes the new value and the other seven are unchanged |
| EventFactory.EventJsonLayoutBaseFactory.SetIncludeLoggerName | dropwizard-json-logging/src/main/java/io/dropwizard/logging/json/EventJsonLayoutBaseFactory.java:116-118 | that switch takes the new value and the other seven are unchanged |
| EventFactory.EventJsonLayoutBaseFactory.SetIncludeFormattedMessage | dropwizard-json-logging/src/main/java/io/dropwizard/logging/json/EventJsonLayoutBaseFactory.java:126-128 | that switch takes the new value and the other seven are unchanged |
| EventFactory.EventJsonLayoutBaseFactory.SetIncludeMessage | dropwizard-json-logging/src/main/java/io/dropwizard/logging/json/EventJsonLayoutBaseFactory.java:136-138 | that switch takes the new value and the other seven are unchanged |
| EventFactory.EventJsonLayoutBaseFactory.SetIncludeException | dropwizard-json-logging/src/main/java/io/dropwizard/logging/json/EventJsonLayoutBaseFactory.java:146-148 | that switch takes the new value and the other seven are unchanged |
| EventFactory.EventJsonLayoutBaseFactory.SetIncludeContextName | dropwizard-json-logging/src/main/java/io/dropwizard/logging/json/EventJsonLayoutBaseFactory.java:156-158 | that switch takes the new value and the other seven are unchanged |
| EventFactory.EventJsonLayoutBaseFactory.Build | dropwizard-json-logging/src/main/java/io/dropwizard/logging/json/EventJsonLayoutBaseFactory.java:162-179 | a new layout with a new formatter that follows the shared indentation and separator options; the layout gets the shared timestamp format, the given time zone, the shared separator option, the root-cause-first converter and all eight switches; its timestamp switch stays at the layout default |
| EventFactory.EventJsonLayoutBaseFactory.CopyToggles | dropwizard-json-logging/src/main/java/io/dropwizard/logging/json/EventJsonLayoutBaseFactory.java:170-177 | the build's eight switch setters copy the factory's switches onto the layout |
| EventFactory.EventJsonLayoutBaseFactory.CreateThrowableProxyConverter | dropwizard-json-logging/src/main/java/io/dropwizard/logging/json/EventJsonLayoutBaseFactory.java:181-183 | the converter handed to the layout renders throwables root cause first, not in the standard order |
| AccessFactory.AccessJsonLayoutBaseFactory.constructor | dropwizard-json-logging/src/main/java/io/dropwizard/logging/json/AccessJsonLayoutBaseFactory.java:119-136 | remote address, remote user, request time, URI, status code, method, protocol, content length, request parameters and user agent are on; the other eight are off; the shared options have their defaults |
| AccessFactory.AccessJsonLayoutBaseFactory.SetIncludeRemoteAddr | dropwizard-json-logging/src/main/java/io/dropwizard/logging/json/AccessJsonLayoutBaseFactory.java:144-146 | that switch takes the new value and the other seventeen are unchanged |
| AccessFactory.AccessJsonLayoutBaseFactory.SetIncludeRemoteUser | dropwizard-json-logging/src/main/java/io/dropwizard/logging/json/AccessJsonLayoutBaseFactory.java:154-156 | that switch takes the new value and the other seventeen are unchanged |
| AccessFactory.AccessJsonLayoutBaseFactory.SetIncludeRequestTime | dropwizard-json-logging/src/main/java/io/dropwizard/logging/json/AccessJsonLayoutBaseFactory.java:164-166 | that switch takes the new value and the other seventeen are unchanged |
| AccessFactory.AccessJsonLayoutBaseFactory.SetIncludeRequestURI | dropwizard-json-logging/src/main/java/io/dropwizard/logging/json/AccessJsonLayoutBaseFactory.java:174-176 | that switch takes the new value and the other seventeen are unchanged |
| AccessFactory.AccessJsonLayoutBaseFactory.SetIncludeStatusCode | dropwizard-json-logging/src/main/java/io/dropwizard/logging/json/AccessJsonLayoutBaseFactory.java:184-186 | that switch takes the new value and the other seventeen are unchanged |
| AccessFactory.AccessJsonLayoutBaseFactory.SetIncludeMethod | dropwizard-json-logging/src/main/java/io/dropwizard/logging/json/AccessJsonLayoutBaseFactory.java:194-196 | that switch takes the new value and the other seventeen are unchanged |
| AccessFactory.AccessJsonLayoutBaseFactory.SetIncludeProtocol | dropwizard-json-logging/src/main/java/io/dropwizard/logging/json/AccessJsonLayoutBaseFactory.java:204-206 | that switch takes the new value and the other seventeen are unchanged |
| AccessFactory.AccessJsonLayoutBaseFactory.SetIncludeContentLength | dropwizard-json-logging/src/main/java/io/dropwizard/logging/json/AccessJsonLayoutBaseFactory.java:214-216 | that switch takes the new value and the other seventeen are unchanged |
| AccessFactory.AccessJsonLayoutBaseFactory.SetIncludeRequestURL | dropwizard-json-logging/src/main/java/io/dropwizard/logging/json/AccessJsonLayoutBaseFactory.java:224-226 | that switch takes the new value and the other seventeen are unchanged |
| AccessFactory.AccessJsonLayoutBaseFactory.SetIncludeRemoteHost | dropwizard-json-logging/src/main/java/io/dropwizard/logging/json/AccessJsonLayoutBaseFactory.java:234-236 | that switch takes the new value and the other seventeen are unchanged |
| AccessFactory.AccessJsonLayoutBaseFactory.SetIncludeServerName | dropwizard-json-logging/src/main/java/io/dropwizard/logging/json/AccessJsonLayoutBaseFactory.java:244-246 | that switch takes the new value and the other seventeen are unchanged |
| AccessFactory.AccessJsonLayoutBaseFactory.SetIncludeRequestHeaders | dropwizard-json-logging/src/main/java/io/dropwizard/logging/json/AccessJsonLayoutBaseFactory.java:254-256 | that switch takes the new value and the other seventeen are unchanged |
| AccessFactory.AccessJsonLayoutBaseFactory.SetIncludeRequestParameters | dropwizard-json-logging/src/main/java/io/dropwizard/logging/json/AccessJsonLayoutBaseFactory.java:264-266 | that switch takes the new value and the other seventeen are unchanged |
| AccessFactory.AccessJsonLayoutBaseFactory.SetIncludeLocalPort | dropwizard-json-logging/src/main/java/io/dropwizard/logging/json/AccessJsonLayoutBaseFactory.java:274-276 | that switch takes the new value and the other seventeen are unchanged |
| AccessFactory.AccessJsonLayoutBaseFactory.SetIncludeRequestContent | dropwizard-json-logging/src/main/java/io/dropwizard/logging/json/AccessJsonLayoutBaseFactory.java:284-286 | that switch takes the new value and the other seventeen are unchanged |
| AccessFactory.AccessJsonLayoutBaseFactory.SetIncludeResponseContent | dropwizard-json-logging/src/main/java/io/dropwizard/logging/json/AccessJsonLayoutBaseFactory.java:294-296 | that switch takes the new value and the other seventeen are unchanged |
| AccessFactory.AccessJsonLayoutBaseFactory.SetIncludeUserAgent | dropwizard-json-logging/src/main/java/io/dropwizard/logging/json/AccessJsonLayoutBaseFactory.java:302-304 | that switch takes the new value and the other seventeen are unchanged |
| AccessFactory.AccessJsonLayoutBaseFactory.SetIncludeResponseHeaders | dropwizard-json-logging/src/main/java/io/dropwizard/logging/json/AccessJsonLayoutBaseFactory.java:310-312 | that switch takes the new value and the other seventeen are unchanged |
| AccessFactory.AccessJsonLayoutBaseFactory.Build | dropwizard-json-logging/src/main/java/io/dropwizard/logging/json/AccessJsonLayoutBaseFactory.java:315-340 | a new layout with a new formatter that follows the shared indentation and separator options, the factory's user-agent and response-headers switches, the shared timestamp format, the given time zone, the shared separator option and the other sixteen switches; its timestamp switch stays at the layout default |
| AccessFactory.AccessJsonLayoutBaseFactory.SetBaseOptions | dropwizard-json-logging/src/main/java/io/dropwizard/logging/json/AccessJsonLayoutBaseFactory.java:319-321 | the layout gets the timestamp format, time zone and separator option, and nothing else changes |
| AccessFactory.AccessJsonLayoutBaseFactory.SetSwitches | dropwizard-json-logging/src/main/java/io/dropwizard/logging/json/AccessJsonLayoutBaseFactory.java:323-338 | the layout gets all sixteen switches, and its other options are unchanged |
| AccessFactory.AccessJsonLayoutBaseFactory.CopyFirstSwitches | dropwizard-json-logging/src/main/java/io/dropwizard/logging/json/AccessJsonLayoutBaseFactory.java:323-330 | the first eight setters copy remote address through remote user, with request headers and parameters going to the layout's singular options |
| AccessFactory.AccessJsonLayoutBaseFactory.CopyLastSwitches | dropwizard-json-logging/src/main/java/io/dropwizard/logging/json/AccessJsonLayoutBaseFactory.java:331-338 | the last eight setters copy content length through status code |

## Left out

- The base layouts' own `toJsonMap` (logback-contrib's `JsonLayout` and the access `JsonLayout`) is not part of this model. That is the catalogue of timestamp, level, thread, MDC, request and response fields. The map it returns is an input to `DoLayout` and `JsonMap`. Its `add` and `addMap` are modelled by `Add` and `AddMap`: a value is put only when its switch is on and it is present, and a map only when it is also non-empty.
- `AccessLayout.AccessJsonLayout.DoLayout`: the base access layout is taken to build a new map for every event and always return it. Its source is not part of this model. So the base map is always present, and the null branch of the map test at `AccessJsonLayout.java:40` is not modelled; only the empty-map branch is. On a null map, any of the layout's own adds that fires would fail before that test. `JsonMap` and `ToJsonMap` likewise take the base map as present.
- `LAYOUT_INCLUDE_TIMESTAMP`: the base layouts' own default for the timestamp switch is taken to be `true`. The base layouts' source is not part of this model, so this value is assumed. The layout constructors and both `Build` contracts depend on it.
- The base layouts' setters are modelled as plain field updates of the options they set. Their getters are field reads and have no members of their own.
- Jackson's object mapper is modelled by `Render` for strings, integers, lists of strings and nested objects. Other Java types, and the number and date serializers, are out. A value it cannot serialize is `JOpaque`, and writing it fails. The shared `ObjectMapper`, and the fact that enabling indentation changes it in place, are out.
- Non-ASCII characters are written as they are, and surrogate pairs are not treated specially.
- `LINE_SEPARATOR` is the platform's line separator, taken to be a line feed. Jackson's indenter likewise is taken to use a line feed.
- Timestamp formatting, time zones as time, throwable rendering and the throwable converter's output are out. The converter is recorded only as which converter the layout gets.
- The logger context (`setContext`), YAML and Jackson deserialization of the factories, and discovery are out. So are the appender runtime and layout start/stop.
- The access event's header accessors are taken to return a value or nothing. A substitute such as "-" for a missing header would arrive here as a present value.
- `Formatter.CompactExample`, `Formatter.PrettyExample`: stated for any map whose keys and words need no escape, with the shape of the test map. They are not stated for the literal words. `Formatter.ExampleWordsArePlain` shows those words qualify.
- `AccessFactory.AccessJsonLayoutBaseFactory.Build`, `EventFactory.EventJsonLayoutBaseFactory.Build`: the build's setter calls are split over helper methods (`SetBaseOptions`, `SetSwitches`, `CopyFirstSwitches`, `CopyLastSwitches`, `CopyToggles`). The calls are the same, in the same order.
