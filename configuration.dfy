/**
 * The scanner's configuration resolver.
 *
 * A configuration is built from the declared properties (key -> multi-valued
 * flag and optional default), a secret codec and the raw key -> value store.
 * Two queries read it: Get returns one value unsplit, GetStringArray returns
 * the value's fields. A query whose style contradicts the declaration logs a
 * WARN message and still answers; an undeclared key never warns.
 */
module Configuration {
  import opened Wrappers
  import MultiValue

  /** What a plugin declares about one property. */
  datatype PropertyDefinition = PropertyDefinition(multiValues: bool, defaultValue: Option<string>)

  type PropertyDefinitions = map<string, PropertyDefinition>

  /**
   * The secret codec, as a table: a value among its keys is recognised as
   * encrypted and maps to its plain text, or to None when it cannot be
   * decrypted. The empty table recognises nothing and is the identity.
   */
  datatype Encryption = Encryption(ciphertexts: map<string, Option<string>>) {
    predicate IsEncrypted(value: string) {
      value in ciphertexts
    }
  }

  /** The codec the scanner has without a secret key: it changes no plain value. */
  function PlainEncryption(): Encryption {
    Encryption(map[])
  }

  /** Why a query fails. */
  datatype ConfigError =
    | InvalidCsvValue(key: string, value: string)   // a multi-value that does not parse
    | DecryptionFailure(key: string)                // an encrypted value the codec cannot decrypt
  {
    /** The message of the error raised for a value that does not parse. */
    function Message(): string
      requires InvalidCsvValue?
    {
      InvalidCsvMessage(key, value)
    }
  }

  function InvalidCsvMessage(key: string, value: string): string {
    "Property: '" + key + "' doesn't contain a valid CSV value: '" + value + "'"
  }

  /** A WARN entry: a property read in the style its declaration does not have. */
  datatype Warning =
    | MultiValuedReadAsSingle(key: string)   // a multi-valued property read with Get
    | SingleValuedReadAsArray(key: string)   // a single-valued property read with GetStringArray
  {
    /** The text the entry is logged with. */
    function Text(): string {
      match this
      case MultiValuedReadAsSingle(k) =>
        "Access to the multi-valued property '" + k
        + "' should be made using 'getStringArray' method. The SonarQube plugin using this property should be updated."
      case SingleValuedReadAsArray(k) =>
        "Property '" + k
        + "' is not declared as multi-valued but was read using 'getStringArray' method. The SonarQube plugin declaring this property should be updated."
    }
  }

  /** The texts of a sequence of warnings, in order. */
  function Texts(ws: seq<Warning>): (r: seq<string>)
    ensures |r| == |ws|
  {
    if ws == [] then [] else [ws[0].Text()] + Texts(ws[1..])
  }

  /** Two different warnings never share a text: a log line names its warning and property. */
  lemma {:induction false} TextIdentifiesWarning(w1: Warning, w2: Warning)
    requires w1.Text() == w2.Text()
    ensures w1 == w2
  {
    if w1.MultiValuedReadAsSingle? != w2.MultiValuedReadAsSingle? {
      if w1.MultiValuedReadAsSingle? {
        KindsDiffer(w1.key, w2.key);
      } else {
        KindsDiffer(w2.key, w1.key);
      }
    } else if w1.MultiValuedReadAsSingle? {
      CancelAffixes("Access to the multi-valued property '", w1.key, w2.key,
        "' should be made using 'getStringArray' method. The SonarQube plugin using this property should be updated.");
    } else {
      CancelAffixes("Property '", w1.key, w2.key,
        "' is not declared as multi-valued but was read using 'getStringArray' method. The SonarQube plugin declaring this property should be updated.");
    }
  }

  /** The logged texts determine the warnings behind them, in order. */
  lemma {:induction false} TextsIdentifyWarnings(ws1: seq<Warning>, ws2: seq<Warning>)
    requires Texts(ws1) == Texts(ws2)
    ensures ws1 == ws2
    decreases |ws1|
  {
    if ws1 != [] {
      TextsUnfold(ws1);
      TextsUnfold(ws2);
      var t1, t2 := Texts(ws1), Texts(ws2);
      assert t1[0] == t2[0];
      assert t1[1..] == t2[1..];
      TextIdentifiesWarning(ws1[0], ws2[0]);
      TextsIdentifyWarnings(ws1[1..], ws2[1..]);
    }
  }

  lemma TextsUnfold(ws: seq<Warning>)
    requires ws != []
    ensures Texts(ws)[0] == ws[0].Text() && Texts(ws)[1..] == Texts(ws[1..])
  {
  }

  lemma KindsDiffer(k1: string, k2: string)
    ensures MultiValuedReadAsSingle(k1).Text() != SingleValuedReadAsArray(k2).Text()
  {
    var t1, t2 := MultiValuedReadAsSingle(k1).Text(), SingleValuedReadAsArray(k2).Text();
    var p1, p2 := "Access to the multi-valued property '", "Property '";
    HeadOfConcat(p1 + k1, t1[|p1 + k1|..]);
    HeadOfConcat(p1, k1);
    HeadOfConcat(p2 + k2, t2[|p2 + k2|..]);
    HeadOfConcat(p2, k2);
    assert t1[0] == 'A' && t2[0] == 'P';
  }

  lemma HeadOfConcat(p: string, s: string)
    requires p != []
    ensures (p + s)[0] == p[0]
  {
  }

  lemma CancelAffixes(p: string, a: string, b: string, s: string)
    requires p + a + s == p + b + s
    ensures a == b
  {
    assert |a| == |b|;
    assert a == (p + a + s)[|p|..|p| + |a|];
    assert b == (p + b + s)[|p|..|p| + |b|];
  }

  predicate IsMultiValued(definitions: PropertyDefinitions, key: string) {
    key in definitions && definitions[key].multiValues
  }

  predicate IsSingleValued(definitions: PropertyDefinitions, key: string) {
    key in definitions && !definitions[key].multiValues
  }

  function DefaultValue(definitions: PropertyDefinitions, key: string): Option<string> {
    if key in definitions then definitions[key].defaultValue else None
  }

  /**
   * The value a key resolves to: the stored value, decrypted when the codec
   * recognises it; else the declared default as it is; else nothing.
   */
  function Resolve(definitions: PropertyDefinitions, encryption: Encryption,
                   properties: map<string, string>, key: string): Result<Option<string>, ConfigError>
  {
    if key in properties then
      var raw := properties[key];
      if encryption.IsEncrypted(raw) then
        match encryption.ciphertexts[raw]
        case Some(plain) => Success(Some(plain))
        case None => Failure(DecryptionFailure(key))
      else Success(Some(raw))
    else Success(DefaultValue(definitions, key))
  }

  /** The fields of the value of key; a value that does not parse is an error naming both. */
  function ParseAsCsv(key: string, value: string): Result<seq<string>, ConfigError> {
    match MultiValue.Parse(value)
    case Success(fields) => Success(fields)
    case Failure(_) => Failure(InvalidCsvValue(key, value))
  }

  /** The fields a key resolves to: none for no value, else the parsed value. */
  function ResolveArray(definitions: PropertyDefinitions, encryption: Encryption,
                        properties: map<string, string>, key: string): Result<seq<string>, ConfigError>
  {
    match Resolve(definitions, encryption, properties, key)
    case Failure(e) => Failure(e)
    case Success(None) => Success([])
    case Success(Some(value)) => ParseAsCsv(key, value)
  }

  /** The warnings a Get of key logs. */
  function GetWarnings(definitions: PropertyDefinitions, key: string): seq<Warning> {
    if IsMultiValued(definitions, key) then [MultiValuedReadAsSingle(key)] else []
  }

  /** The warnings a GetStringArray of key logs. */
  function GetStringArrayWarnings(definitions: PropertyDefinitions, key: string): seq<Warning> {
    if IsSingleValued(definitions, key) then [SingleValuedReadAsArray(key)] else []
  }

  class DefaultConfiguration {
    const definitions: PropertyDefinitions
    const encryption: Encryption
    const properties: map<string, string>
    /** The WARN entries logged so far, oldest first. */
    var warnings: seq<Warning>

    /** The WARN messages logged so far, as text. */
    function Logs(): seq<string>
      reads this
    {
      Texts(warnings)
    }

    constructor (definitions: PropertyDefinitions, encryption: Encryption, properties: map<string, string>)
      ensures this.definitions == definitions && this.encryption == encryption && this.properties == properties
      ensures warnings == []
    {
      this.definitions := definitions;
      this.encryption := encryption;
      this.properties := properties;
      warnings := [];
    }

    /** Reads key as a single value, warning when it is declared multi-valued. */
    method Get(key: string) returns (r: Result<Option<string>, ConfigError>)
      modifies this`warnings
      ensures r == Resolve(definitions, encryption, properties, key)
      ensures warnings == old(warnings) + GetWarnings(definitions, key)
    {
      if IsMultiValued(definitions, key) {
        warnings := warnings + [MultiValuedReadAsSingle(key)];
      }
      r := Resolve(definitions, encryption, properties, key);
    }

    /** Reads key as fields, warning when it is declared single-valued. */
    method GetStringArray(key: string) returns (r: Result<seq<string>, ConfigError>)
      modifies this`warnings
      ensures r == ResolveArray(definitions, encryption, properties, key)
      ensures warnings == old(warnings) + GetStringArrayWarnings(definitions, key)
    {
      if IsSingleValued(definitions, key) {
        warnings := warnings + [SingleValuedReadAsArray(key)];
      }
      var value := Resolve(definitions, encryption, properties, key);
      if value.Failure? {
        r := Failure(value.error);
      } else if value.value.None? {
        r := Success([]);
      } else {
        r := ParseAsCsv(key, value.value.value);
      }
    }

    /** Forgets the warnings logged so far. */
    method ClearWarnings()
      modifies this`warnings
      ensures warnings == []
    {
      warnings := [];
    }
  }

  // ---------------------------------------------------------------------
  // Resolution order.

  /** A stored value the codec does not recognise is returned as it is, unsplit. */
  lemma StoredValueWins(definitions: PropertyDefinitions, encryption: Encryption,
                        properties: map<string, string>, key: string)
    requires key in properties && !encryption.IsEncrypted(properties[key])
    ensures Resolve(definitions, encryption, properties, key) == Success(Some(properties[key]))
    ensures ResolveArray(definitions, encryption, properties, key) == ParseAsCsv(key, properties[key])
  {
  }

  /** A stored value the codec recognises is replaced by its plain text, or the query fails. */
  lemma StoredSecretIsDecrypted(definitions: PropertyDefinitions, encryption: Encryption,
                                properties: map<string, string>, key: string)
    requires key in properties && encryption.IsEncrypted(properties[key])
    ensures var plain := encryption.ciphertexts[properties[key]];
      && (plain.Some? ==> Resolve(definitions, encryption, properties, key) == Success(Some(plain.value)))
      && (plain.Some? ==> ResolveArray(definitions, encryption, properties, key) == ParseAsCsv(key, plain.value))
      && (plain.None? ==> Resolve(definitions, encryption, properties, key) == Failure(DecryptionFailure(key)))
      && (plain.None? ==> ResolveArray(definitions, encryption, properties, key) == Failure(DecryptionFailure(key)))
  {
  }

  /** Without a stored value, a declared default is returned as it is, and its fields are parsed from it. */
  lemma DefaultWhenNotStored(definitions: PropertyDefinitions, encryption: Encryption,
                             properties: map<string, string>, key: string)
    requires key !in properties && key in definitions && definitions[key].defaultValue.Some?
    ensures Resolve(definitions, encryption, properties, key) == Success(definitions[key].defaultValue)
    ensures ResolveArray(definitions, encryption, properties, key)
         == ParseAsCsv(key, definitions[key].defaultValue.value)
  {
  }

  /** The fields of a value are its parse; a value that does not parse fails with its key and raw text. */
  lemma ParseAsCsvOutcome(key: string, value: string)
    ensures ParseAsCsv(key, value).Success? <==> MultiValue.Parse(value).Success?
    ensures ParseAsCsv(key, value).Success? ==> ParseAsCsv(key, value).value == MultiValue.Parse(value).value
    ensures ParseAsCsv(key, value).Failure? ==>
      ParseAsCsv(key, value).error == InvalidCsvValue(key, value)
      && ParseAsCsv(key, value).error.Message()
         == "Property: '" + key + "' doesn't contain a valid CSV value: '" + value + "'"
  {
  }

  // ---------------------------------------------------------------------
  // Warnings.

  /** Reading a multi-valued property as a single value warns once; reading it as fields does not. */
  lemma MultiValuedDeclarationWarnings(definitions: PropertyDefinitions, key: string)
    requires IsMultiValued(definitions, key)
    ensures GetWarnings(definitions, key) == [MultiValuedReadAsSingle(key)]
    ensures GetStringArrayWarnings(definitions, key) == []
  {
  }

  /** Reading a single-valued property as fields warns once; reading it as a single value does not. */
  lemma SingleValuedDeclarationWarnings(definitions: PropertyDefinitions, key: string)
    requires IsSingleValued(definitions, key)
    ensures GetStringArrayWarnings(definitions, key) == [SingleValuedReadAsArray(key)]
    ensures GetWarnings(definitions, key) == []
  {
  }

  /** An undeclared key never warns, whichever way it is read. */
  lemma UndeclaredNeverWarns(definitions: PropertyDefinitions, key: string)
    requires key !in definitions
    ensures GetWarnings(definitions, key) == [] && GetStringArrayWarnings(definitions, key) == []
  {
  }
}
