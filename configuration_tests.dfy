/**
 * The resolver's known behaviour, replayed on the model: each method builds a
 * configuration the way the scanner's tests do, queries it, and promises the
 * values and log entries those tests expect.
 */
module ConfigurationTests {
  import opened Wrappers
  import MultiValue
  import opened Configuration

  /** A single-valued "single" and a multi-valued "multiA", with the given defaults. */
  function TestDefinitions(singleDefault: Option<string>, multiDefault: Option<string>): PropertyDefinitions {
    map["single" := PropertyDefinition(false, singleDefault), "multiA" := PropertyDefinition(true, multiDefault)]
  }

  /** Plain values the tests read as fields. */
  lemma TestValuesParse()
    ensures MultiValue.Parse("foo") == Success(["foo"])
    ensures MultiValue.Parse("c,d") == Success(["c", "d"])
    ensures MultiValue.Parse("foo,bar") == Success(["foo", "bar"])
    ensures MultiValue.Parse("default") == Success(["default"])
  {
    MultiValue.PlainFieldsRoundTrip(["foo"]);
    MultiValue.PlainFieldsRoundTrip(["c", "d"]);
    assert MultiValue.JoinCommas(["c", "d"]) == "c,d";
    MultiValue.PlainFieldsRoundTrip(["foo", "bar"]);
    assert MultiValue.JoinCommas(["foo", "bar"]) == "foo,bar";
    MultiValue.PlainFieldsRoundTrip(["default"]);
  }

  /**
   * Reading each property in the declared style or against it: the answers
   * are the stored values, and only the mismatched reads of declared
   * properties log a WARN line.
   */
  method AccessingMultiValuedPropertiesShouldBeConsistentWithDeclaration()
    returns (multiA: Result<Option<string>, ConfigError>, logsAfterMultiA: seq<string>,
             single: Result<seq<string>, ConfigError>, logsAfterSingle: seq<string>,
             notDeclared: Result<Option<string>, ConfigError>,
             notDeclaredFields: Result<seq<string>, ConfigError>, logsAfterNotDeclared: seq<string>)
    ensures multiA == Success(Some("a,b"))
    ensures logsAfterMultiA
         == ["Access to the multi-valued property 'multiA' should be made using 'getStringArray' method. The SonarQube plugin using this property should be updated."]
    ensures single == Success(["foo"])
    ensures logsAfterSingle
         == ["Property 'single' is not declared as multi-valued but was read using 'getStringArray' method. The SonarQube plugin declaring this property should be updated."]
    ensures notDeclared == Success(Some("c,d"))
    ensures notDeclaredFields == Success(["c", "d"])
    ensures logsAfterNotDeclared == []
  {
    var config := new DefaultConfiguration(TestDefinitions(None, None), PlainEncryption(),
      map["single" := "foo", "multiA" := "a,b", "notDeclared" := "c,d"]);
    TestValuesParse();

    multiA := config.Get("multiA");
    assert config.warnings == [MultiValuedReadAsSingle("multiA")];
    logsAfterMultiA := config.Logs();
    MultiALog();
    config.ClearWarnings();

    single := config.GetStringArray("single");
    assert config.warnings == [SingleValuedReadAsArray("single")];
    logsAfterSingle := config.Logs();
    SingleLog();
    config.ClearWarnings();

    notDeclared := config.Get("notDeclared");
    notDeclaredFields := config.GetStringArray("notDeclared");
    logsAfterNotDeclared := config.Logs();
  }

  /** The log holding only the warning about "multiA", as text. */
  lemma MultiALog()
    ensures Texts([MultiValuedReadAsSingle("multiA")])
         == ["Access to the multi-valued property 'multiA' should be made using 'getStringArray' method. The SonarQube plugin using this property should be updated."]
  {
    MultiAWarningText();
  }

  /** The log holding only the warning about "single", as text. */
  lemma SingleLog()
    ensures Texts([SingleValuedReadAsArray("single")])
         == ["Property 'single' is not declared as multi-valued but was read using 'getStringArray' method. The SonarQube plugin declaring this property should be updated."]
  {
    SingleWarningText();
  }

  /** Reading a key twice answers the same both times, and each read logs its own warning. */
  method GetTwice(config: DefaultConfiguration, key: string)
    returns (first: Result<Option<string>, ConfigError>, second: Result<Option<string>, ConfigError>)
    modifies config`warnings
    ensures first == second
    ensures config.warnings
         == old(config.warnings) + GetWarnings(config.definitions, key) + GetWarnings(config.definitions, key)
  {
    first := config.Get(key);
    second := config.Get(key);
  }

  /** Reading a key's fields twice answers the same both times, and each read logs its own warning. */
  method GetStringArrayTwice(config: DefaultConfiguration, key: string)
    returns (first: Result<seq<string>, ConfigError>, second: Result<seq<string>, ConfigError>)
    modifies config`warnings
    ensures first == second
    ensures config.warnings
         == old(config.warnings) + GetStringArrayWarnings(config.definitions, key)
            + GetStringArrayWarnings(config.definitions, key)
  {
    first := config.GetStringArray(key);
    second := config.GetStringArray(key);
  }

  /** With nothing stored, both queries answer from the declared defaults. */
  method GetDefaultValues()
    returns (multiA: Result<Option<string>, ConfigError>, multiAFields: Result<seq<string>, ConfigError>,
             single: Result<Option<string>, ConfigError>, singleFields: Result<seq<string>, ConfigError>)
    ensures multiA == Success(Some("foo,bar"))
    ensures multiAFields == Success(["foo", "bar"])
    ensures single == Success(Some("default"))
    ensures singleFields == Success(["default"])
  {
    var config := new DefaultConfiguration(TestDefinitions(Some("default"), Some("foo,bar")), PlainEncryption(), map[]);
    TestValuesParse();
    multiA := config.Get("multiA");
    multiAFields := config.GetStringArray("multiA");
    single := config.Get("single");
    singleFields := config.GetStringArray("single");
  }

  /** Reads value as the fields of a property "multi" declared multi-valued; nothing is logged. */
  method GetStringArrayOfMulti(value: string) returns (r: Result<seq<string>, ConfigError>, warned: seq<Warning>)
    ensures MultiValue.Parse(value).Success? ==> r == Success(MultiValue.Parse(value).value)
    ensures MultiValue.Parse(value).Failure? ==> r == Failure(InvalidCsvValue("multi", value))
    ensures warned == []
  {
    var config := new DefaultConfiguration(map["multi" := PropertyDefinition(true, None)], PlainEncryption(),
      map["multi" := value]);
    r := config.GetStringArray("multi");
    warned := config.warnings;
  }

  /** The multi-value parsing cases, read through the resolver. */
  method ParsingMultiValues()
    returns (empty: Result<seq<string>, ConfigError>, comma: Result<seq<string>, ConfigError>,
             twoCommas: Result<seq<string>, ConfigError>, letter: Result<seq<string>, ConfigError>,
             innerSpace: Result<seq<string>, ConfigError>, spaced: Result<seq<string>, ConfigError>,
             quotedSpaces: Result<seq<string>, ConfigError>, quotedComma: Result<seq<string>, ConfigError>,
             unterminated: Result<seq<string>, ConfigError>)
    ensures empty == Success([])
    ensures comma == Success(["", ""])
    ensures twoCommas == Success(["", "", ""])
    ensures letter == Success(["a"])
    ensures innerSpace == Success(["a b"])
    ensures spaced == Success(["a", "b"])
    ensures quotedSpaces == Success(["a ", " b"])
    ensures quotedComma == Success(["a,b", "c"])
    ensures unterminated.Failure? && unterminated.error == InvalidCsvValue("multi", "\"a ,b")
  {
    MultiValue.EmptyAndCommaExamples();
    MultiValue.SingleLetterExample();
    MultiValue.InnerSpaceExample();
    MultiValue.TrimmedFieldsExample();
    MultiValue.QuotedSpacesExample();
    MultiValue.QuotedCommaExample();
    MultiValue.UnterminatedExample();
    var warned;
    empty, warned := GetStringArrayOfMulti("");
    comma, warned := GetStringArrayOfMulti(",");
    twoCommas, warned := GetStringArrayOfMulti(",,");
    letter, warned := GetStringArrayOfMulti("a");
    innerSpace, warned := GetStringArrayOfMulti("a b");
    spaced, warned := GetStringArrayOfMulti("a , b");
    quotedSpaces, warned := GetStringArrayOfMulti("\"a \",\" b\"");
    quotedComma, warned := GetStringArrayOfMulti("\"a,b\",c");
    unterminated, warned := GetStringArrayOfMulti("\"a ,b");
  }

  /** The exact message of the error for the unterminated value. */
  lemma UnterminatedValueMessage()
    ensures InvalidCsvValue("multi", "\"a ,b").Message()
         == "Property: 'multi' doesn't contain a valid CSV value: '\"a ,b'"
  {
    MessagePrefix();
    MessageMiddle();
    MessageEnd();
  }

  lemma MessagePrefix()
    ensures "Property: '" + "multi" == "Property: 'multi"
  {
  }

  lemma MessageMiddle()
    ensures "Property: 'multi" + "' doesn't contain a valid CSV value: '"
         == "Property: 'multi' doesn't contain a valid CSV value: '"
  {
  }

  lemma MessageEnd()
    ensures "Property: 'multi' doesn't contain a valid CSV value: '" + "\"a ,b" + "'"
         == "Property: 'multi' doesn't contain a valid CSV value: '\"a ,b'"
  {
  }

  /** The WARN line of a single-value read of "multiA", exactly as the scanner logs it. */
  lemma MultiAWarningText()
    ensures MultiValuedReadAsSingle("multiA").Text()
         == "Access to the multi-valued property 'multiA' should be made using 'getStringArray' method. The SonarQube plugin using this property should be updated."
  {
    MultiAWarningKey();
    MultiAWarningSuffix1();
    MultiAWarningSuffix2();
    MultiAWarningSuffix3();
    MultiAWarningSuffix4();
    MultiAWarningLine0();
    MultiAWarningLine1();
    MultiAWarningLine2();
    MultiAWarningLine3();
    MultiAWarningLine4();
    ConcatAssoc("Access to the multi-valued property 'multiA", "' should be made using 'g", "etStringArray' method. Th");
    ConcatAssoc("Access to the multi-valued property 'multiA", "' should be made using 'getStringArray' method. Th", "e SonarQube plugin using ");
    ConcatAssoc("Access to the multi-valued property 'multiA", "' should be made using 'getStringArray' method. The SonarQube plugin using ", "this property should be u");
    ConcatAssoc("Access to the multi-valued property 'multiA", "' should be made using 'getStringArray' method. The SonarQube plugin using this property should be u", "pdated.");
  }

  /** The WARN line of a fields read of "single", exactly as the scanner logs it. */
  lemma SingleWarningText()
    ensures SingleValuedReadAsArray("single").Text()
         == "Property 'single' is not declared as multi-valued but was read using 'getStringArray' method. The SonarQube plugin declaring this property should be updated."
  {
    SingleWarningKey();
    SingleWarningSuffix1();
    SingleWarningSuffix2();
    SingleWarningSuffix3();
    SingleWarningSuffix4();
    SingleWarningSuffix5();
    SingleWarningLine0();
    SingleWarningLine1();
    SingleWarningLine2();
    SingleWarningLine3();
    SingleWarningLine4();
    SingleWarningLine5();
    ConcatAssoc("Property 'single", "' is not declared as mult", "i-valued but was read usi");
    ConcatAssoc("Property 'single", "' is not declared as multi-valued but was read usi", "ng 'getStringArray' metho");
    ConcatAssoc("Property 'single", "' is not declared as multi-valued but was read using 'getStringArray' metho", "d. The SonarQube plugin d");
    ConcatAssoc("Property 'single", "' is not declared as multi-valued but was read using 'getStringArray' method. The SonarQube plugin d", "eclaring this property sh");
    ConcatAssoc("Property 'single", "' is not declared as multi-valued but was read using 'getStringArray' method. The SonarQube plugin declaring this property sh", "ould be updated.");
  }

  // The two lines above, built up from short literal pieces.

  lemma MultiAWarningKey()
    ensures "Access to the multi-valued property '" + "multiA" == "Access to the multi-valued property 'multiA"
  {
  }

  lemma MultiAWarningSuffix1()
    ensures "' should be made using 'g" + "etStringArray' method. Th"
         == "' should be made using 'getStringArray' method. Th"
  {
  }

  lemma MultiAWarningSuffix2()
    ensures "' should be made using 'getStringArray' method. Th" + "e SonarQube plugin using "
         == "' should be made using 'getStringArray' method. The SonarQube plugin using "
  {
  }

  lemma MultiAWarningSuffix3()
    ensures "' should be made using 'getStringArray' method. The SonarQube plugin using " + "this property should be u"
         == "' should be made using 'getStringArray' method. The SonarQube plugin using this property should be u"
  {
  }

  lemma MultiAWarningSuffix4()
    ensures "' should be made using 'getStringArray' method. The SonarQube plugin using this property should be u" + "pdated."
         == "' should be made using 'getStringArray' method. The SonarQube plugin using this property should be updated."
  {
  }

  lemma MultiAWarningLine0()
    ensures "Access to the multi-valued property 'multiA" + "' should be made using 'g"
         == "Access to the multi-valued property 'multiA' should be made using 'g"
  {
  }

  lemma MultiAWarningLine1()
    ensures "Access to the multi-valued property 'multiA' should be made using 'g" + "etStringArray' method. Th"
         == "Access to the multi-valued property 'multiA' should be made using 'getStringArray' method. Th"
  {
  }

  lemma MultiAWarningLine2()
    ensures "Access to the multi-valued property 'multiA' should be made using 'getStringArray' method. Th" + "e SonarQube plugin using "
         == "Access to the multi-valued property 'multiA' should be made using 'getStringArray' method. The SonarQube plugin using "
  {
  }

  lemma MultiAWarningLine3()
    ensures "Access to the multi-valued property 'multiA' should be made using 'getStringArray' method. The SonarQube plugin using " + "this property should be u"
         == "Access to the multi-valued property 'multiA' should be made using 'getStringArray' method. The SonarQube plugin using this property should be u"
  {
  }

  lemma MultiAWarningLine4()
    ensures "Access to the multi-valued property 'multiA' should be made using 'getStringArray' method. The SonarQube plugin using this property should be u" + "pdated."
         == "Access to the multi-valued property 'multiA' should be made using 'getStringArray' method. The SonarQube plugin using this property should be updated."
  {
  }

  lemma SingleWarningKey()
    ensures "Property '" + "single" == "Property 'single"
  {
  }

  lemma SingleWarningSuffix1()
    ensures "' is not declared as mult" + "i-valued but was read usi"
         == "' is not declared as multi-valued but was read usi"
  {
  }

  lemma SingleWarningSuffix2()
    ensures "' is not declared as multi-valued but was read usi" + "ng 'getStringArray' metho"
         == "' is not declared as multi-valued but was read using 'getStringArray' metho"
  {
  }

  lemma SingleWarningSuffix3()
    ensures "' is not declared as multi-valued but was read using 'getStringArray' metho" + "d. The SonarQube plugin d"
         == "' is not declared as multi-valued but was read using 'getStringArray' method. The SonarQube plugin d"
  {
  }

  lemma SingleWarningSuffix4()
    ensures "' is not declared as multi-valued but was read using 'getStringArray' method. The SonarQube plugin d" + "eclaring this property sh"
         == "' is not declared as multi-valued but was read using 'getStringArray' method. The SonarQube plugin declaring this property sh"
  {
  }

  lemma SingleWarningSuffix5()
    ensures "' is not declared as multi-valued but was read using 'getStringArray' method. The SonarQube plugin declaring this property sh" + "ould be updated."
         == "' is not declared as multi-valued but was read using 'getStringArray' method. The SonarQube plugin declaring this property should be updated."
  {
  }

  lemma SingleWarningLine0()
    ensures "Property 'single" + "' is not declared as mult"
         == "Property 'single' is not declared as mult"
  {
  }

  lemma SingleWarningLine1()
    ensures "Property 'single' is not declared as mult" + "i-valued but was read usi"
         == "Property 'single' is not declared as multi-valued but was read usi"
  {
  }

  lemma SingleWarningLine2()
    ensures "Property 'single' is not declared as multi-valued but was read usi" + "ng 'getStringArray' metho"
         == "Property 'single' is not declared as multi-valued but was read using 'getStringArray' metho"
  {
  }

  lemma SingleWarningLine3()
    ensures "Property 'single' is not declared as multi-valued but was read using 'getStringArray' metho" + "d. The SonarQube plugin d"
         == "Property 'single' is not declared as multi-valued but was read using 'getStringArray' method. The SonarQube plugin d"
  {
  }

  lemma SingleWarningLine4()
    ensures "Property 'single' is not declared as multi-valued but was read using 'getStringArray' method. The SonarQube plugin d" + "eclaring this property sh"
         == "Property 'single' is not declared as multi-valued but was read using 'getStringArray' method. The SonarQube plugin declaring this property sh"
  {
  }

  lemma SingleWarningLine5()
    ensures "Property 'single' is not declared as multi-valued but was read using 'getStringArray' method. The SonarQube plugin declaring this property sh" + "ould be updated."
         == "Property 'single' is not declared as multi-valued but was read using 'getStringArray' method. The SonarQube plugin declaring this property should be updated."
  {
  }

  lemma ConcatAssoc(a: string, b: string, c: string)
    ensures a + (b + c) == a + b + c
  {
  }
}
