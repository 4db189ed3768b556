# SonarQube scanner configuration: multi-value parsing and declared-style warnings

This project models the scanner's `DefaultConfiguration`: the object a plugin
queries for the value of an analysis property. The behaviour is the one that
`DefaultConfigurationTest` pins down.

A configuration is built from three things:

- the declared properties, each with a multi-valued flag and an optional
  default;
- a secret codec;
- the raw key → value store.

It answers two queries:

- `get(key)` returns the stored value, or else the declared default, unsplit.
- `getStringArray(key)` resolves the value the same way and splits it into
  fields with a subset of CSV:
  - the empty value has no fields;
  - unquoted fields are trimmed;
  - quoted fields are kept verbatim, commas and spaces included;
  - a quote that is never closed is an error. Its message names the property
    and quotes the raw value:
    `Property: 'multi' doesn't contain a valid CSV value: '"a ,b'`.

A query whose style contradicts the declaration still answers, and logs a
WARN line:

- `get` of a multi-valued property;
- `getStringArray` of a single-valued property.

A property that was never declared never warns.

Files:

- `wrappers.dfy`: `Option` and `Result`.
- `multi_value.dfy`: module `MultiValue`, the pure parser. It is a
  left-to-right scan over a five-mode machine (`Scan`, `Parse`). It comes with
  two partners, each tied to `Parse` by lemmas that hold for all inputs:
  - a reference split-and-trim definition (`SplitOnCommas`, `TrimEach`) for
    quote-free values;
  - a quoting encoder (`Encode`), for the round trip.

  A composition lemma (`PrefixFields`) lets the malformed-value lemmas hold
  after any prefix of complete fields, bare or quoted.
- `configuration.dfy`: module `Configuration`.
  - The specification functions: `Resolve`, `ResolveArray`, `ParseAsCsv`,
    `GetWarnings`, `GetStringArrayWarnings`.
  - The class `DefaultConfiguration`. Its three fixed fields are the
    declarations, the codec and the store. Its one mutable field is the log
    of warnings. Each query method is proved equal to its specification
    function, with the log extended by exactly that query's warnings.
- `configuration_tests.dfy`: module `ConfigurationTests`. The three test
  scenarios are replayed on the class as methods. Each promises the values
  the test expects and the exact WARN lines it finds in the log.

## Model

| member | source | states |
|---|---|---|
| MultiValue.TrimStartRemovesLeadingWhitespace | sonar-scanner-engine/src/test/java/org/sonar/scanner/config/DefaultConfigurationTest.java:91 | trimming the front drops exactly a whitespace prefix: the rest is a suffix of the input that is empty or starts with a non-whitespace character |
| MultiValue.TrimEndRemovesTrailingWhitespace | sonar-scanner-engine/src/test/java/org/sonar/scanner/config/DefaultConfigurationTest.java:91 | trimming the back drops exactly a whitespace suffix: the rest is a prefix of the input that is empty or ends with a non-whitespace character |
| MultiValue.TrimKeepsInterior | sonar-scanner-engine/src/test/java/org/sonar/scanner/config/DefaultConfigurationTest.java:90 | a value with no whitespace at either end is unchanged by trimming, whatever it holds inside |
| MultiValue.Scan | sonar-scanner-engine/src/test/java/org/sonar/scanner/config/DefaultConfigurationTest.java:87-88 | a scan that succeeds always yields at least one field, even for an input that is only commas |
| MultiValue.QuoteFreeParse | sonar-scanner-engine/src/test/java/org/sonar/scanner/config/DefaultConfigurationTest.java:86-91 | a non-empty value without quotes parses to its comma-separated pieces, each trimmed, in order |
| MultiValue.QuoteFreeFieldCount | sonar-scanner-engine/src/test/java/org/sonar/scanner/config/DefaultConfigurationTest.java:87-88 | a non-empty quote-free value always parses, to one more field than it has commas |
| MultiValue.SingleField | sonar-scanner-engine/src/test/java/org/sonar/scanner/config/DefaultConfigurationTest.java:89-90 | a value with no comma and no quote is one field, the trimmed value |
| MultiValue.PlainFieldsRoundTrip | sonar-scanner-engine/src/test/java/org/sonar/scanner/config/DefaultConfigurationTest.java:86-91 | fields free of commas, quotes and edge whitespace, joined by commas, parse back to exactly those fields |
| MultiValue.OnlyCommas | sonar-scanner-engine/src/test/java/org/sonar/scanner/config/DefaultConfigurationTest.java:87-88 | from the start of a field, n commas scan to n + 1 empty fields |
| MultiValue.CommasOnlyParse | sonar-scanner-engine/src/test/java/org/sonar/scanner/config/DefaultConfigurationTest.java:86-88 | a value of n commas has no fields when n is 0 and n + 1 empty fields otherwise |
| MultiValue.RoundTrip | sonar-scanner-engine/src/test/java/org/sonar/scanner/config/DefaultConfigurationTest.java:92-93 | any non-empty list of fields, each quoted with doubled inner quotes and joined by commas, parses back to exactly that list, commas, spaces and quotes included |
| MultiValue.PrefixFields | sonar-scanner-engine/src/test/java/org/sonar/scanner/config/DefaultConfigurationTest.java:86-93 | complete fields, bare (trimmed) or quoted (verbatim), each followed by a comma, read as their values, and what follows them is read as if it stood alone |
| MultiValue.UnterminatedQuoteFails | sonar-scanner-engine/src/test/java/org/sonar/scanner/config/DefaultConfigurationTest.java:94-99 | after any complete fields (bare or quoted, each with its comma) and any whitespace, a quote whose body never closes it, escaped quotes included, makes the whole parse fail with an unterminated quote |
| MultiValue.CharacterAfterQuoteFails | sonar-scanner-engine/src/test/java/org/sonar/scanner/config/DefaultConfigurationTest.java:92-93 | after any complete fields, a quoted field ends at its closing quote: anything but whitespace before the next comma or the end makes the parse fail |
| MultiValue.EmptyAndCommaExamples | sonar-scanner-engine/src/test/java/org/sonar/scanner/config/DefaultConfigurationTest.java:86-88 | "" has no fields; "," has two empty fields; ",," has three |
| MultiValue.SingleLetterExample | sonar-scanner-engine/src/test/java/org/sonar/scanner/config/DefaultConfigurationTest.java:89 | "a" is the one field "a" |
| MultiValue.InnerSpaceExample | sonar-scanner-engine/src/test/java/org/sonar/scanner/config/DefaultConfigurationTest.java:90 | "a b" is the one field "a b": inner spaces are kept |
| MultiValue.TrimmedFieldsExample | sonar-scanner-engine/src/test/java/org/sonar/scanner/config/DefaultConfigurationTest.java:91 | "a , b" is the fields "a" and "b" |
| MultiValue.QuotedSpacesExample | sonar-scanner-engine/src/test/java/org/sonar/scanner/config/DefaultConfigurationTest.java:92 | quoted fields keep their spaces: the fields are "a " and " b" |
| MultiValue.QuotedCommaExample | sonar-scanner-engine/src/test/java/org/sonar/scanner/config/DefaultConfigurationTest.java:93 | a comma inside quotes belongs to the field: the fields are "a,b" and "c" |
| MultiValue.UnterminatedExample | sonar-scanner-engine/src/test/java/org/sonar/scanner/config/DefaultConfigurationTest.java:94-95 | a value with an unclosed quote fails to parse |
| MultiValue.UnterminatedAfterBareExample | sonar-scanner-engine/src/test/java/org/sonar/scanner/config/DefaultConfigurationTest.java:94-95 | an unclosed quote after a bare field also fails: a,"b fails as an unterminated quote |
| MultiValue.UnterminatedEscapedExample | sonar-scanner-engine/src/test/java/org/sonar/scanner/config/DefaultConfigurationTest.java:94-95 | an escaped quote does not close a field: "a""b fails as an unterminated quote |
| MultiValue.CharacterAfterSecondQuoteExample | sonar-scanner-engine/src/test/java/org/sonar/scanner/config/DefaultConfigurationTest.java:92-93 | a character right after the closing quote of a later field fails: x,"a"y fails at y |
| Configuration.TextIdentifiesWarning | sonar-scanner-engine/src/test/java/org/sonar/scanner/config/DefaultConfigurationTest.java:53-54 | two warning entries with the same text are the same warning about the same property, so a WARN line tells which check fired and for which key |
| Configuration.TextsIdentifyWarnings | sonar-scanner-engine/src/test/java/org/sonar/scanner/config/DefaultConfigurationTest.java:59-60 | the logged WARN texts determine the sequence of warnings behind them, in order |
| Configuration.DefaultConfiguration.constructor | sonar-scanner-engine/src/test/java/org/sonar/scanner/config/DefaultConfigurationTest.java:45-50 | a new configuration holds the given declarations, codec and store, and no warnings |
| Configuration.DefaultConfiguration.Get | sonar-scanner-engine/src/test/java/org/sonar/scanner/config/DefaultConfigurationTest.java:52-54 | the answer is the resolved value, unsplit; the log grows by exactly the warning for a multi-valued declaration, and by nothing otherwise |
| Configuration.DefaultConfiguration.GetStringArray | sonar-scanner-engine/src/test/java/org/sonar/scanner/config/DefaultConfigurationTest.java:58-60 | the answer is the parse of the resolved value, or an error naming the key and value; the log grows by exactly the warning for a single-valued declaration, and by nothing otherwise |
| Configuration.DefaultConfiguration.ClearWarnings | sonar-scanner-engine/src/test/java/org/sonar/scanner/config/DefaultConfigurationTest.java:56 | after clearing, the log is empty |
| Configuration.StoredValueWins | sonar-scanner-engine/src/test/java/org/sonar/scanner/config/DefaultConfigurationTest.java:64-65 | a stored plain value is what get returns, unsplit, and what getStringArray parses |
| Configuration.StoredSecretIsDecrypted | sonar-scanner-engine/src/test/java/org/sonar/scanner/config/DefaultConfigurationTest.java:47 | a stored value the codec recognises is replaced by its plain text before both queries, or both fail naming the key |
| Configuration.DefaultWhenNotStored | sonar-scanner-engine/src/test/java/org/sonar/scanner/config/DefaultConfigurationTest.java:78-81 | with no stored value, get returns the declared default as it is, and getStringArray parses it |
| Configuration.ParseAsCsvOutcome | sonar-scanner-engine/src/test/java/org/sonar/scanner/config/DefaultConfigurationTest.java:94-99 | getStringArray's fields come from the parse exactly when it succeeds; otherwise the error carries the key and the raw value, and its message is "Property: '<key>' doesn't contain a valid CSV value: '<value>'" |
| Configuration.MultiValuedDeclarationWarnings | sonar-scanner-engine/src/test/java/org/sonar/scanner/config/DefaultConfigurationTest.java:52-54 | a multi-valued property warns once when read with get and never when read with getStringArray |
| Configuration.SingleValuedDeclarationWarnings | sonar-scanner-engine/src/test/java/org/sonar/scanner/config/DefaultConfigurationTest.java:58-60 | a single-valued property warns once when read with getStringArray and never when read with get |
| Configuration.UndeclaredNeverWarns | sonar-scanner-engine/src/test/java/org/sonar/scanner/config/DefaultConfigurationTest.java:64-66 | an undeclared key logs nothing, whichever query reads it |
| ConfigurationTests.TestValuesParse | sonar-scanner-engine/src/test/java/org/sonar/scanner/config/DefaultConfigurationTest.java:79-81 | "foo", "c,d", "foo,bar" and "default" parse to the fields the tests expect |
| ConfigurationTests.MultiAWarningText | sonar-scanner-engine/src/test/java/org/sonar/scanner/config/DefaultConfigurationTest.java:53-54 | the warning for a single-value read of "multiA" renders as exactly the line the test looks for |
| ConfigurationTests.SingleWarningText | sonar-scanner-engine/src/test/java/org/sonar/scanner/config/DefaultConfigurationTest.java:59-60 | the warning for a fields read of "single" renders as exactly the line the test looks for |
| ConfigurationTests.AccessingMultiValuedPropertiesShouldBeConsistentWithDeclaration | sonar-scanner-engine/src/test/java/org/sonar/scanner/config/DefaultConfigurationTest.java:44-67 | get("multiA") is "a,b" and the log is then exactly the test's multi-valued WARN line; getStringArray("single") is ["foo"] and the log is then exactly the test's single-valued WARN line; the undeclared key reads as "c,d" and ["c", "d"] with nothing logged |
| ConfigurationTests.GetDefaultValues | sonar-scanner-engine/src/test/java/org/sonar/scanner/config/DefaultConfigurationTest.java:70-82 | with an empty store, both queries answer from the defaults: "foo,bar" and ["foo", "bar"], "default" and ["default"] |
| ConfigurationTests.GetStringArrayOfMulti | sonar-scanner-engine/src/test/java/org/sonar/scanner/config/DefaultConfigurationTest.java:102-108 | reading a stored value of a multi-valued property as fields gives its parse, or the invalid-value error for that key and value; nothing is logged |
| ConfigurationTests.GetTwice | sonar-scanner-engine/src/test/java/org/sonar/scanner/config/DefaultConfigurationTest.java:52-54 | two get reads of one key answer the same, and each logs its own warning |
| ConfigurationTests.GetStringArrayTwice | sonar-scanner-engine/src/test/java/org/sonar/scanner/config/DefaultConfigurationTest.java:58-60 | two getStringArray reads of one key answer the same, and each logs its own warning |
| ConfigurationTests.ParsingMultiValues | sonar-scanner-engine/src/test/java/org/sonar/scanner/config/DefaultConfigurationTest.java:85-100 | each value of the parsing test gives, through the configuration, exactly the expected fields, and the unclosed quote gives the invalid-value error for "multi" |
| ConfigurationTests.UnterminatedValueMessage | sonar-scanner-engine/src/test/java/org/sonar/scanner/config/DefaultConfigurationTest.java:98 | the error for the unclosed quote has exactly the message the test expects |

## Left out

- The model follows the behaviour DefaultConfigurationTest asserts. What no test pins down is listed below.
- The CSV library's own parser is modelled only on the cases here: one record, commas as delimiters, double quotes as quote characters. A line break is treated as ordinary whitespace, because record splitting is not modelled.
- Whitespace is Java 8's `Character.isWhitespace` set, which includes U+180E. From Java 9 on that character is not whitespace.
- Secret decryption is modelled as a lookup table from encrypted value to optional plain text, because the cipher is a foreign call. The real codec recognises encrypted values by their form even without a key, so the empty table is not the codec itself. All the values in the test are plain, and for those the empty table stands for `new Encryption(null)`. Defaults are not decrypted.
- The analysis mode is left out, because no test exercises it: the test passes a mock that is never consulted.
- Configuration.DefaultConfiguration.Get: for an undeclared, unstored key the model returns None. No lemma or scenario promises this, because no test asserts it.
- Configuration.MultiValuedDeclarationWarnings: warnings are computed from the declaration alone. So a read answered from a default warns like a read of a stored value. No scenario promises anything about warnings on default reads, because the default-values test asserts none.
- Configuration.DefaultConfiguration.GetStringArray: both kinds of CSV failure (an unclosed quote, a character after a closing quote) give the one error with the fixed message. The model does not carry the CSV library's own exception as a cause.
- The logging framework's levels and other loggers are not modelled: the log holds only the WARN lines of this class.
- Key aliasing (deprecated keys), property sets and the organisation search web service are not part of this model.
