/**
 * The multi-value parser: turns one raw property value into its ordered
 * fields, following a comma-delimited subset of CSV.
 *
 *  - the empty string has no fields at all;
 *  - a field not starting with a double quote is read up to the next comma
 *    and trimmed of surrounding whitespace;
 *  - a field starting with a double quote (after any leading whitespace) is
 *    kept verbatim up to the closing quote, commas and spaces included; a
 *    doubled quote stands for one literal quote; after the closing quote only
 *    whitespace may come before the next comma or the end;
 *  - a quote that is never closed, or a character after a closing quote, is
 *    an error.
 *
 * The parser is a single left-to-right scan driven by a small mode machine.
 */
module MultiValue {
  import opened Wrappers

  /**
   * Whitespace as Java 8's Character.isWhitespace defines it (Unicode 6.2):
   * the space separators other than the no-break ones, the line and
   * paragraph separators, and the ASCII controls TAB to CR and FS to US.
   * From Java 9 on U+180E is no longer whitespace.
   */
  predicate IsWhitespace(c: char) {
    c == ' ' || ('\t' <= c <= '\r') || ('\U{1C}' <= c <= '\U{1F}')
    || c == '\U{1680}' || c == '\U{180E}' || ('\U{2000}' <= c <= '\U{2006}') || ('\U{2008}' <= c <= '\U{200A}')
    || c == '\U{2028}' || c == '\U{2029}' || c == '\U{205F}' || c == '\U{3000}'
  }

  predicate AllWhitespace(s: string) {
    forall i :: 0 <= i < |s| ==> IsWhitespace(s[i])
  }

  /** Drops leading whitespace. */
  function TrimStart(s: string): string
    decreases |s|
  {
    if |s| > 0 && IsWhitespace(s[0]) then TrimStart(s[1..]) else s
  }

  /** Drops trailing whitespace. */
  function TrimEnd(s: string): string
    decreases |s|
  {
    if |s| > 0 && IsWhitespace(s[|s| - 1]) then TrimEnd(s[..|s| - 1]) else s
  }

  /** TrimStart removes exactly the leading run of whitespace. */
  lemma {:induction false} TrimStartRemovesLeadingWhitespace(s: string)
    ensures var r := TrimStart(s);
      |r| <= |s| && r == s[|s| - |r|..] && AllWhitespace(s[..|s| - |r|]) && (r == [] || !IsWhitespace(r[0]))
    decreases |s|
  {
    if |s| > 0 && IsWhitespace(s[0]) {
      TrimStartRemovesLeadingWhitespace(s[1..]);
      var r := TrimStart(s);
      assert s[1..][|s| - 1 - |r|..] == s[|s| - |r|..];
      var lead := s[..|s| - |r|];
      assert AllWhitespace(lead) by {
        forall i | 0 <= i < |lead| ensures IsWhitespace(lead[i]) {
          if i > 0 {
            assert lead[i] == s[1..][..|s| - 1 - |r|][i - 1];
          }
        }
      }
    }
  }

  /** TrimEnd removes exactly the trailing run of whitespace. */
  lemma {:induction false} TrimEndRemovesTrailingWhitespace(s: string)
    ensures var r := TrimEnd(s);
      |r| <= |s| && r == s[..|r|] && AllWhitespace(s[|r|..]) && (r == [] || !IsWhitespace(r[|r| - 1]))
    decreases |s|
  {
    if |s| > 0 && IsWhitespace(s[|s| - 1]) {
      var s' := s[..|s| - 1];
      TrimEndRemovesTrailingWhitespace(s');
      var r := TrimEnd(s);
      assert s'[..|r|] == s[..|r|];
      var trail := s[|r|..];
      assert AllWhitespace(trail) by {
        forall i | 0 <= i < |trail| ensures IsWhitespace(trail[i]) {
          if i < |s| - 1 - |r| {
            assert trail[i] == s'[|r|..][i];
          }
        }
      }
    }
  }

  function Trim(s: string): string {
    TrimEnd(TrimStart(s))
  }

  /** Why a raw value is not a valid multi-value. */
  datatype CsvError =
    | UnterminatedQuote                  // end of input inside a quoted field
    | CharacterAfterQuote(c: char)       // something other than whitespace or ',' after a closing quote

  /** Where the scan stands within the current field. */
  datatype Mode =
    | FieldStart      // only whitespace read so far in this field
    | Unquoted        // inside an unquoted field
    | Quoted          // inside a quoted field
    | QuoteInQuoted   // just read a quote inside a quoted field: a close, or the first half of ""
    | AfterQuote      // after a closing quote and some whitespace

  /** Puts a finished field in front of the fields that follow it. */
  function Cons(f: string, rest: Result<seq<string>, CsvError>): Result<seq<string>, CsvError> {
    match rest
    case Success(fs) => Success([f] + fs)
    case Failure(e) => Failure(e)
  }

  /**
   * Scans s in the given mode, with `field` the part of the current field
   * read so far, and yields the current field followed by all later ones.
   */
  function Scan(s: string, mode: Mode, field: string): (r: Result<seq<string>, CsvError>)
    ensures r.Success? ==> |r.value| >= 1
    decreases |s|
  {
    if s == [] then
      match mode
      case FieldStart => Success([""])
      case Unquoted => Success([TrimEnd(field)])
      case Quoted => Failure(UnterminatedQuote)
      case QuoteInQuoted => Success([field])
      case AfterQuote => Success([field])
    else
      var c := s[0];
      var rest := s[1..];
      match mode
      case FieldStart =>
        if c == ',' then Cons("", Scan(rest, FieldStart, ""))
        else if c == '"' then Scan(rest, Quoted, "")
        else if IsWhitespace(c) then Scan(rest, FieldStart, "")
        else Scan(rest, Unquoted, [c])
      case Unquoted =>
        if c == ',' then Cons(TrimEnd(field), Scan(rest, FieldStart, ""))
        else Scan(rest, Unquoted, field + [c])
      case Quoted =>
        if c == '"' then Scan(rest, QuoteInQuoted, field)
        else Scan(rest, Quoted, field + [c])
      case QuoteInQuoted =>
        if c == '"' then Scan(rest, Quoted, field + ['"'])
        else if c == ',' then Cons(field, Scan(rest, FieldStart, ""))
        else if IsWhitespace(c) then Scan(rest, AfterQuote, field)
        else Failure(CharacterAfterQuote(c))
      case AfterQuote =>
        if c == ',' then Cons(field, Scan(rest, FieldStart, ""))
        else if IsWhitespace(c) then Scan(rest, AfterQuote, field)
        else Failure(CharacterAfterQuote(c))
  }

  /** Parses a raw multi-value into its fields. */
  function Parse(s: string): Result<seq<string>, CsvError> {
    if s == [] then Success([]) else Scan(s, FieldStart, "")
  }

  // ---------------------------------------------------------------------
  // Reference definition for quote-free input: split on every comma, trim.

  function CommaCount(s: string): nat {
    if s == [] then 0 else (if s[0] == ',' then 1 else 0) + CommaCount(s[1..])
  }

  /** Joins parts with one comma between neighbours. */
  function JoinCommas(parts: seq<string>): string
    requires |parts| >= 1
  {
    if |parts| == 1 then parts[0] else parts[0] + "," + JoinCommas(parts[1..])
  }

  /** Splits s at every comma. */
  function SplitOnCommas(s: string): (r: seq<string>)
    ensures |r| == CommaCount(s) + 1
    decreases |s|
  {
    if s == [] then [""]
    else
      var r := SplitOnCommas(s[1..]);
      if s[0] == ',' then [""] + r else [[s[0]] + r[0]] + r[1..]
  }

  /** The pieces of a split hold no comma and join back to the input. */
  lemma {:induction false} SplitPieces(s: string)
    ensures forall i :: 0 <= i < |SplitOnCommas(s)| ==> ',' !in SplitOnCommas(s)[i]
    ensures JoinCommas(SplitOnCommas(s)) == s
    decreases |s|
  {
    if s != [] {
      SplitPieces(s[1..]);
      var r := SplitOnCommas(s[1..]);
      if s[0] == ',' {
        assert ([""] + r)[1..] == r;
        assert s == "," + s[1..];
      } else {
        var r' := [[s[0]] + r[0]] + r[1..];
        assert r'[1..] == r[1..];
        assert ',' !in [s[0]] + r[0];
        assert JoinCommas(r') == [s[0]] + JoinCommas(r);
        assert s == [s[0]] + s[1..];
      }
    }
  }

  /** Without a comma, the split is the input alone. */
  lemma {:induction false} SplitNoComma(s: string)
    requires ',' !in s
    ensures SplitOnCommas(s) == [s]
    decreases |s|
  {
    if s != [] {
      assert ',' !in s[1..] by { assert forall i :: 0 <= i < |s[1..]| ==> s[1..][i] == s[i + 1]; }
      SplitNoComma(s[1..]);
      assert [s[0]] + s[1..] == s;
    }
  }

  function TrimEach(parts: seq<string>): (r: seq<string>)
    ensures |r| == |parts|
  {
    if parts == [] then [] else [Trim(parts[0])] + TrimEach(parts[1..])
  }

  // ---------------------------------------------------------------------
  // Quoting: the inverse direction, used to state the round trip.

  /** Doubles every quote of x. */
  function Escape(x: string): string {
    if x == [] then [] else (if x[0] == '"' then "\"\"" else [x[0]]) + Escape(x[1..])
  }

  function Quote(x: string): string {
    "\"" + Escape(x) + "\""
  }

  /** Writes each field quoted, separated by commas; no fields is the empty string. */
  function Encode(fields: seq<string>): string {
    if |fields| == 0 then ""
    else if |fields| == 1 then Quote(fields[0])
    else Quote(fields[0]) + "," + Encode(fields[1..])
  }

  /** Puts several finished fields in front of the fields that follow them. */
  function Prepend(fs: seq<string>, rest: Result<seq<string>, CsvError>): Result<seq<string>, CsvError> {
    match rest
    case Success(gs) => Success(fs + gs)
    case Failure(e) => Failure(e)
  }

  // ---------------------------------------------------------------------
  // Lemmas about the scan.

  /** Inside quotes, an escaped body is taken verbatim and the next quote is seen as a close. */
  lemma {:induction false} QuotedBody(x: string, t: string, acc: string)
    ensures Scan(Escape(x) + "\"" + t, Quoted, acc) == Scan(t, QuoteInQuoted, acc + x)
    decreases |x|
  {
    if x == [] {
      assert Escape(x) + "\"" + t == "\"" + t;
      assert acc + x == acc;
    } else {
      var s := Escape(x) + "\"" + t;
      var tail := Escape(x[1..]) + "\"" + t;
      if x[0] == '"' {
        assert s == "\"\"" + tail;
        assert s[1..] == "\"" + tail;
        assert s[1..][1..] == tail;
        QuotedBody(x[1..], t, acc + ['"']);
        assert (acc + ['"']) + x[1..] == acc + x;
      } else {
        assert s == [x[0]] + tail;
        assert s[1..] == tail;
        QuotedBody(x[1..], t, acc + [x[0]]);
        assert (acc + [x[0]]) + x[1..] == acc + x;
      }
    }
  }

  /** A quoted field that meets no further quote is never closed. */
  lemma {:induction false} QuotedUnterminated(t: string, acc: string)
    requires '"' !in t
    ensures Scan(t, Quoted, acc) == Failure(UnterminatedQuote)
    decreases |t|
  {
    if t != [] {
      assert t[0] != '"';
      assert forall i :: 0 <= i < |t[1..]| ==> t[1..][i] == t[i + 1];
      QuotedUnterminated(t[1..], acc + [t[0]]);
    }
  }

  /** Whitespace at the start of a field is skipped. */
  lemma {:induction false} LeadingWhitespace(w: string, u: string)
    requires AllWhitespace(w)
    ensures Scan(w + u, FieldStart, "") == Scan(u, FieldStart, "")
    decreases |w|
  {
    if w != [] {
      assert (w + u)[0] == w[0];
      assert IsWhitespace(w[0]);
      assert w[0] != ',' && w[0] != '"';
      assert (w + u)[1..] == w[1..] + u;
      assert AllWhitespace(w[1..]) by {
        forall i | 0 <= i < |w[1..]| ensures IsWhitespace(w[1..][i]) {
          assert w[1..][i] == w[i + 1];
        }
      }
      LeadingWhitespace(w[1..], u);
    } else {
      assert w + u == u;
    }
  }

  /** A quoted field followed by a comma is read as that field, then the scan starts afresh. */
  lemma QuotedFieldThenComma(f: string, t: string)
    requires t != [] && t[0] == ','
    ensures Scan(Quote(f) + t, FieldStart, "") == Cons(f, Scan(t[1..], FieldStart, ""))
  {
    var s := Quote(f) + t;
    assert s[0] == '"';
    assert s[1..] == Escape(f) + "\"" + t;
    QuotedBody(f, t, "");
    assert "" + f == f;
  }

  /** The scan of some quoted fields and a comma yields those fields, then whatever follows. */
  lemma {:induction false} EncodedPrefix(fields: seq<string>, u: string)
    requires |fields| >= 1
    ensures Scan(Encode(fields) + "," + u, FieldStart, "") == Prepend(fields, Scan(u, FieldStart, ""))
    decreases |fields|
  {
    var f := fields[0];
    if |fields| == 1 {
      assert Encode(fields) + "," + u == Quote(f) + ("," + u);
      QuotedFieldThenComma(f, "," + u);
      assert ("," + u)[1..] == u;
      match Scan(u, FieldStart, "")
      case Success(gs) => assert [f] + gs == fields + gs;
      case Failure(_) =>
    } else {
      var e := Encode(fields[1..]);
      var t := "," + e + "," + u;
      assert Encode(fields) + "," + u == Quote(f) + t;
      QuotedFieldThenComma(f, t);
      assert t[1..] == e + "," + u;
      EncodedPrefix(fields[1..], u);
      match Scan(u, FieldStart, "")
      case Success(gs) => assert [f] + (fields[1..] + gs) == fields + gs;
      case Failure(_) =>
    }
  }

  /** Quoting is the inverse of parsing: the encoded fields parse back to themselves. */
  lemma {:induction false} RoundTrip(fields: seq<string>)
    ensures Parse(Encode(fields)) == Success(fields)
    decreases |fields|
  {
    if |fields| == 1 {
      var f := fields[0];
      var s := Quote(f);
      assert Encode(fields) == s && s != [] && s[0] == '"';
      assert s[1..] == Escape(f) + "\"" + "";
      QuotedBody(f, "", "");
      assert "" + f == f;
      assert fields == [f];
    } else if |fields| > 1 {
      var f := fields[0];
      var e := Encode(fields[1..]);
      assert Encode(fields) == Quote(f) + ("," + e);
      QuotedFieldThenComma(f, "," + e);
      assert ("," + e)[1..] == e;
      RoundTrip(fields[1..]);
      assert e != [];
      assert [f] + fields[1..] == fields;
    }
  }

  // ---------------------------------------------------------------------
  // Quote-free input: the scan agrees with splitting on commas and trimming.

  lemma {:induction false} SplitPrefix(f: string, s: string)
    requires ',' !in f
    ensures SplitOnCommas(f + s) == [f + SplitOnCommas(s)[0]] + SplitOnCommas(s)[1..]
    decreases |f|
  {
    var r := SplitOnCommas(s);
    if f == [] {
      assert f + s == s;
      assert f + r[0] == r[0];
      assert [f + r[0]] + r[1..] == r;
    } else {
      assert (f + s)[0] == f[0];
      assert (f + s)[1..] == f[1..] + s;
      SplitPrefix(f[1..], s);
      assert [f[0]] + (f[1..] + r[0]) == f + r[0];
    }
  }

  lemma TrimNoLeadingWhitespace(f: string)
    requires f != [] && !IsWhitespace(f[0])
    ensures Trim(f) == TrimEnd(f)
  {
  }

  lemma TrimSkipsWhitespace(c: char, y: string)
    requires IsWhitespace(c)
    ensures Trim([c] + y) == Trim(y)
  {
    assert ([c] + y)[1..] == y;
  }

  lemma ScanUnquotedStep(c: char, rest: string, f: string)
    ensures Scan([c] + rest, Unquoted, f)
         == if c == ',' then Cons(TrimEnd(f), Scan(rest, FieldStart, "")) else Scan(rest, Unquoted, f + [c])
  {
    assert ([c] + rest)[0] == c && ([c] + rest)[1..] == rest;
  }

  lemma SplitStep(c: char, rest: string)
    ensures SplitOnCommas([c] + rest)
         == if c == ',' then [""] + SplitOnCommas(rest)
            else [[c] + SplitOnCommas(rest)[0]] + SplitOnCommas(rest)[1..]
  {
    assert ([c] + rest)[0] == c && ([c] + rest)[1..] == rest;
  }

  lemma TrimEachCons(x: string, xs: seq<string>)
    ensures TrimEach([x] + xs) == [Trim(x)] + TrimEach(xs)
  {
    assert ([x] + xs)[1..] == xs;
  }

  lemma QuoteFreeTail(c: char, rest: string)
    requires '"' !in [c] + rest
    ensures c != '"' && '"' !in rest
  {
    assert forall i :: 0 <= i < |rest| ==> rest[i] == ([c] + rest)[i + 1];
  }

  /** An unquoted field ends at a comma, trimmed at its end. */
  lemma {:induction false} UnquotedThenComma(f: string, rest: string)
    requires '"' !in rest && ',' !in f && f != [] && !IsWhitespace(f[0])
    ensures Scan([','] + rest, Unquoted, f) == Success(TrimEach(SplitOnCommas(f + ([','] + rest))))
    decreases |rest| + 1, 1
  {
    ScanUnquotedStep(',', rest, f);
    SplitPrefix(f, [','] + rest);
    SplitStep(',', rest);
    TrimNoLeadingWhitespace(f);
    FieldStartFields(rest);
    TrimEachCons(f, SplitOnCommas(rest));
    assert f + "" == f;
  }

  lemma AppendAssoc(f: string, c: char, rest: string)
    ensures f + [c] + rest == f + ([c] + rest)
  {
  }

  /** In an unquoted field that began with f, the rest of a quote-free input splits and trims. */
  lemma {:induction false} UnquotedFields(s: string, f: string)
    requires '"' !in s && ',' !in f && f != [] && !IsWhitespace(f[0])
    ensures Scan(s, Unquoted, f) == Success(TrimEach(SplitOnCommas(f + s)))
    decreases |s|, 2
  {
    if s == [] {
      SplitPrefix(f, s);
      TrimNoLeadingWhitespace(f);
      assert f + s == f;
      assert SplitOnCommas(f + s) == [f];
      assert TrimEach([f]) == [Trim(f)];
    } else {
      var c, rest := s[0], s[1..];
      assert s == [c] + rest;
      QuoteFreeTail(c, rest);
      ScanUnquotedStep(c, rest, f);
      if c == ',' {
        UnquotedThenComma(f, rest);
      } else {
        var f' := f + [c];
        assert ',' !in f' by {
          assert forall i :: 0 <= i < |f'| ==> f'[i] == if i < |f| then f[i] else c;
        }
        assert f'[0] == f[0];
        UnquotedFields(rest, f');
        AppendAssoc(f, c, rest);
      }
    }
  }

  lemma ScanFieldStartStep(c: char, rest: string)
    ensures Scan([c] + rest, FieldStart, "")
         == if c == ',' then Cons("", Scan(rest, FieldStart, ""))
            else if c == '"' then Scan(rest, Quoted, "")
            else if IsWhitespace(c) then Scan(rest, FieldStart, "")
            else Scan(rest, Unquoted, [c])
  {
    assert ([c] + rest)[0] == c && ([c] + rest)[1..] == rest;
  }

  /** From the start of a field, a quote-free input splits at every comma and each piece is trimmed. */
  lemma {:induction false} FieldStartFields(s: string)
    requires '"' !in s
    ensures Scan(s, FieldStart, "") == Success(TrimEach(SplitOnCommas(s)))
    decreases |s|, 2
  {
    if s == [] {
      assert TrimEach([""]) == [Trim("")];
    } else {
      var c, rest := s[0], s[1..];
      assert s == [c] + rest;
      QuoteFreeTail(c, rest);
      ScanFieldStartStep(c, rest);
      SplitStep(c, rest);
      var r := SplitOnCommas(rest);
      if c == ',' {
        FieldStartFields(rest);
        TrimEachCons("", r);
      } else if IsWhitespace(c) {
        FieldStartFields(rest);
        TrimSkipsWhitespace(c, r[0]);
        TrimEachCons([c] + r[0], r[1..]);
        TrimEachCons(r[0], r[1..]);
        assert [r[0]] + r[1..] == r;
      } else {
        UnquotedFields(rest, [c]);
      }
    }
  }

  /** Without quotes, parsing is splitting on every comma and trimming each piece. */
  lemma QuoteFreeParse(s: string)
    requires s != [] && '"' !in s
    ensures Parse(s) == Success(TrimEach(SplitOnCommas(s)))
  {
    FieldStartFields(s);
  }

  /** Without quotes, there is exactly one field more than there are commas. */
  lemma QuoteFreeFieldCount(s: string)
    requires s != [] && '"' !in s
    ensures Parse(s).Success? && |Parse(s).value| == CommaCount(s) + 1
  {
    QuoteFreeParse(s);
  }

  /** A non-empty value with neither comma nor quote is one field, the value trimmed. */
  lemma SingleField(s: string)
    requires s != [] && '"' !in s && ',' !in s
    ensures Parse(s) == Success([Trim(s)])
  {
    QuoteFreeParse(s);
    SplitNoComma(s);
    assert TrimEach([s]) == [Trim(s)];
  }

  /** Trimming keeps a value whose ends are not whitespace, interior whitespace included. */
  lemma TrimKeepsInterior(s: string)
    requires s != [] && !IsWhitespace(s[0]) && !IsWhitespace(s[|s| - 1])
    ensures Trim(s) == s
  {
  }

  // ---------------------------------------------------------------------
  // Prefixes of complete fields: whatever follows them is scanned afresh.

  /** How one complete field is written: bare (read up to the comma, then trimmed) or enclosed in quotes. */
  datatype FieldText = Bare(text: string) | Enclosed(content: string)

  /** A bare text is a field on its own only without commas and quotes. */
  predicate WellFormedField(p: FieldText) {
    p.Bare? ==> ',' !in p.text && '"' !in p.text
  }

  predicate WellFormedFields(pieces: seq<FieldText>) {
    forall i :: 0 <= i < |pieces| ==> WellFormedField(pieces[i])
  }

  function Written(p: FieldText): string {
    match p
    case Bare(t) => t
    case Enclosed(x) => Quote(x)
  }

  /** The field a written field reads as. */
  function FieldValue(p: FieldText): string {
    match p
    case Bare(t) => Trim(t)
    case Enclosed(x) => x
  }

  /** The fields written one after another, each followed by a comma. */
  function Delimited(pieces: seq<FieldText>): string {
    if pieces == [] then "" else Written(pieces[0]) + "," + Delimited(pieces[1..])
  }

  function FieldValues(pieces: seq<FieldText>): (r: seq<string>)
    ensures |r| == |pieces|
  {
    if pieces == [] then [] else [FieldValue(pieces[0])] + FieldValues(pieces[1..])
  }

  /** An unquoted field runs to the next comma and is trimmed at its end. */
  lemma {:induction false} UnquotedToComma(q: string, u: string, f: string)
    requires ',' !in q
    ensures Scan(q + "," + u, Unquoted, f) == Cons(TrimEnd(f + q), Scan(u, FieldStart, ""))
    decreases |q|
  {
    if q == [] {
      assert q + "," + u == [','] + u;
      ScanUnquotedStep(',', u, f);
      assert f + q == f;
    } else {
      var rest := q[1..] + "," + u;
      assert q + "," + u == [q[0]] + rest;
      ScanUnquotedStep(q[0], rest, f);
      assert q[0] in q;
      assert forall i :: 0 <= i < |q[1..]| ==> q[1..][i] == q[i + 1];
      UnquotedToComma(q[1..], u, f + [q[0]]);
      assert (f + [q[0]]) + q[1..] == f + q;
    }
  }

  /** A bare field and its comma read as the field trimmed, then the scan starts afresh. */
  lemma {:induction false} BareFieldThenComma(t: string, u: string)
    requires ',' !in t && '"' !in t
    ensures Scan(t + "," + u, FieldStart, "") == Cons(Trim(t), Scan(u, FieldStart, ""))
    decreases |t|
  {
    if t == [] {
      assert t + "," + u == [','] + u;
      ScanFieldStartStep(',', u);
    } else {
      var c, rest := t[0], t[1..] + "," + u;
      assert t + "," + u == [c] + rest;
      assert t == [c] + t[1..];
      ScanFieldStartStep(c, rest);
      assert c in t;
      assert forall i :: 0 <= i < |t[1..]| ==> t[1..][i] == t[i + 1];
      if IsWhitespace(c) {
        BareFieldThenComma(t[1..], u);
        TrimSkipsWhitespace(c, t[1..]);
      } else {
        UnquotedToComma(t[1..], u, [c]);
        TrimNoLeadingWhitespace(t);
      }
    }
  }

  lemma FieldThenComma(p: FieldText, u: string)
    requires WellFormedField(p)
    ensures Scan(Written(p) + "," + u, FieldStart, "") == Cons(FieldValue(p), Scan(u, FieldStart, ""))
  {
    match p
    case Bare(t) =>
      BareFieldThenComma(t, u);
    case Enclosed(x) =>
      assert Written(p) + "," + u == Quote(x) + ("," + u);
      QuotedFieldThenComma(x, "," + u);
      assert ("," + u)[1..] == u;
  }

  /** Complete fields, each with its comma, read as their values, followed by whatever the rest reads as. */
  lemma {:induction false} PrefixFields(pieces: seq<FieldText>, u: string)
    requires WellFormedFields(pieces)
    ensures Scan(Delimited(pieces) + u, FieldStart, "") == Prepend(FieldValues(pieces), Scan(u, FieldStart, ""))
    decreases |pieces|
  {
    if pieces == [] {
      assert Delimited(pieces) + u == u;
      match Scan(u, FieldStart, "")
      case Success(gs) => assert FieldValues(pieces) + gs == gs;
      case Failure(_) =>
    } else {
      var p := pieces[0];
      var rest := Delimited(pieces[1..]) + u;
      assert Delimited(pieces) + u == Written(p) + "," + rest;
      assert WellFormedField(pieces[0]);
      FieldThenComma(p, rest);
      assert WellFormedFields(pieces[1..]) by {
        forall i | 0 <= i < |pieces[1..]| ensures WellFormedField(pieces[1..][i]) {
          assert pieces[1..][i] == pieces[i + 1];
        }
      }
      PrefixFields(pieces[1..], u);
      match Scan(u, FieldStart, "")
      case Success(gs) =>
        assert [FieldValue(p)] + (FieldValues(pieces[1..]) + gs) == FieldValues(pieces) + gs;
      case Failure(_) =>
    }
  }

  // ---------------------------------------------------------------------
  // Malformed values.

  /** Inside quotes, a body whose quotes all come in doubled pairs never closes the field. */
  lemma {:induction false} EscapedUnterminated(y: string, acc: string)
    ensures Scan(Escape(y), Quoted, acc) == Failure(UnterminatedQuote)
    decreases |y|
  {
    if y != [] {
      var e := Escape(y[1..]);
      if y[0] == '"' {
        assert Escape(y) == "\"\"" + e;
        assert Escape(y)[1..] == "\"" + e;
        assert Escape(y)[1..][1..] == e;
        EscapedUnterminated(y[1..], acc + ['"']);
      } else {
        assert Escape(y) == [y[0]] + e;
        assert Escape(y)[1..] == e;
        EscapedUnterminated(y[1..], acc + [y[0]]);
      }
    }
  }

  /** From the start of a field, scanning skips whitespace, then an open quote never closed fails. */
  lemma OpenQuoteAtFieldStart(w: string, y: string)
    requires AllWhitespace(w)
    ensures Scan(w + "\"" + Escape(y), FieldStart, "") == Failure(UnterminatedQuote)
  {
    LeadingWhitespace(w, "\"" + Escape(y));
    assert w + "\"" + Escape(y) == w + ("\"" + Escape(y));
    assert ("\"" + Escape(y))[0] == '"' && ("\"" + Escape(y))[1..] == Escape(y);
    EscapedUnterminated(y, "");
  }

  /**
   * A field opened by a quote that is never closed makes the whole value
   * invalid, whatever complete fields precede it; the body may hold escaped quotes.
   */
  lemma UnterminatedQuoteFails(pieces: seq<FieldText>, w: string, y: string)
    requires WellFormedFields(pieces) && AllWhitespace(w)
    ensures Parse(Delimited(pieces) + w + "\"" + Escape(y)) == Failure(UnterminatedQuote)
  {
    var u := w + "\"" + Escape(y);
    OpenQuoteAtFieldStart(w, y);
    PrefixFields(pieces, u);
    assert Delimited(pieces) + w + "\"" + Escape(y) == Delimited(pieces) + u;
    assert (Delimited(pieces) + u)[|Delimited(pieces) + w|] == '"';
  }

  lemma {:induction false} AfterQuoteRejects(w: string, c: char, t: string, field: string)
    requires AllWhitespace(w) && !IsWhitespace(c) && c != ','
    ensures Scan(w + [c] + t, AfterQuote, field) == Failure(CharacterAfterQuote(c))
    decreases |w|
  {
    if w == [] {
      assert w + [c] + t == [c] + t;
    } else {
      assert (w + [c] + t)[0] == w[0];
      assert (w + [c] + t)[1..] == w[1..] + [c] + t;
      assert AllWhitespace(w[1..]) by {
        forall i | 0 <= i < |w[1..]| ensures IsWhitespace(w[1..][i]) {
          assert w[1..][i] == w[i + 1];
        }
      }
      AfterQuoteRejects(w[1..], c, t, field);
    }
  }

  /** From the start of a field: a quoted field, whitespace, then a character other than a comma fails. */
  lemma QuotedFieldThenJunk(w: string, x: string, w': string, c: char, t: string)
    requires AllWhitespace(w) && AllWhitespace(w') && !IsWhitespace(c) && c != ',' && c != '"'
    ensures Scan(w + Quote(x) + w' + [c] + t, FieldStart, "") == Failure(CharacterAfterQuote(c))
  {
    var after := w' + [c] + t;
    LeadingWhitespace(w, Quote(x) + after);
    assert w + Quote(x) + w' + [c] + t == w + (Quote(x) + after);
    assert (Quote(x) + after)[1..] == Escape(x) + "\"" + after;
    QuotedBody(x, after, "");
    assert "" + x == x;
    if w' == [] {
      assert after == [c] + t;
    } else {
      assert after[0] == w'[0] && after[1..] == w'[1..] + [c] + t;
      assert AllWhitespace(w'[1..]) by {
        forall i | 0 <= i < |w'[1..]| ensures IsWhitespace(w'[1..][i]) {
          assert w'[1..][i] == w'[i + 1];
        }
      }
      AfterQuoteRejects(w'[1..], c, t, x);
    }
  }

  /**
   * After a closing quote and any whitespace, a character other than a comma
   * makes the value invalid, whatever complete fields precede the quoted one.
   */
  lemma CharacterAfterQuoteFails(pieces: seq<FieldText>, w: string, x: string, w': string, c: char, t: string)
    requires WellFormedFields(pieces) && AllWhitespace(w) && AllWhitespace(w')
    requires !IsWhitespace(c) && c != ',' && c != '"'
    ensures Parse(Delimited(pieces) + w + Quote(x) + w' + [c] + t) == Failure(CharacterAfterQuote(c))
  {
    var u := w + Quote(x) + w' + [c] + t;
    QuotedFieldThenJunk(w, x, w', c, t);
    PrefixFields(pieces, u);
    assert Delimited(pieces) + w + Quote(x) + w' + [c] + t == Delimited(pieces) + u;
    assert |Delimited(pieces) + u| > 0 by { assert |Quote(x)| >= 2; }
  }

  // ---------------------------------------------------------------------
  // Plain fields: joined with commas, they parse back to themselves.

  /** A field that reads back unchanged without quoting: no comma, no quote, no surrounding whitespace. */
  predicate PlainField(f: string) {
    ',' !in f && '"' !in f && (f == [] || (!IsWhitespace(f[0]) && !IsWhitespace(f[|f| - 1])))
  }

  lemma {:induction false} JoinQuoteFree(fields: seq<string>)
    requires |fields| >= 1 && forall i :: 0 <= i < |fields| ==> PlainField(fields[i])
    ensures '"' !in JoinCommas(fields)
    decreases |fields|
  {
    if |fields| > 1 {
      assert PlainField(fields[0]);
      JoinQuoteFree(fields[1..]) by {
        assert forall i :: 0 <= i < |fields[1..]| ==> fields[1..][i] == fields[i + 1];
      }
    }
  }

  lemma {:induction false} SplitJoin(fields: seq<string>)
    requires |fields| >= 1 && forall i :: 0 <= i < |fields| ==> ',' !in fields[i]
    ensures SplitOnCommas(JoinCommas(fields)) == fields
    decreases |fields|
  {
    var f := fields[0];
    if |fields| == 1 {
      SplitNoComma(f);
    } else {
      var rest := fields[1..];
      var j := JoinCommas(rest);
      assert JoinCommas(fields) == f + ([','] + j);
      SplitPrefix(f, [','] + j);
      SplitStep(',', j);
      SplitJoin(rest) by {
        assert forall i :: 0 <= i < |rest| ==> rest[i] == fields[i + 1];
      }
      assert f + "" == f;
      assert [f] + rest == fields;
    }
  }

  lemma {:induction false} TrimEachPlain(fields: seq<string>)
    requires forall i :: 0 <= i < |fields| ==> PlainField(fields[i])
    ensures TrimEach(fields) == fields
    decreases |fields|
  {
    if fields != [] {
      var f := fields[0];
      assert PlainField(f);
      if f != [] {
        TrimKeepsInterior(f);
      }
      TrimEachPlain(fields[1..]) by {
        assert forall i :: 0 <= i < |fields[1..]| ==> fields[1..][i] == fields[i + 1];
      }
      TrimEachCons(f, fields[1..]);
      assert [f] + fields[1..] == fields;
    }
  }

  /** Plain fields joined with commas parse back to the same fields. */
  lemma PlainFieldsRoundTrip(fields: seq<string>)
    requires |fields| >= 1 && forall i :: 0 <= i < |fields| ==> PlainField(fields[i])
    requires JoinCommas(fields) != []
    ensures Parse(JoinCommas(fields)) == Success(fields)
  {
    JoinQuoteFree(fields);
    QuoteFreeParse(JoinCommas(fields));
    SplitJoin(fields);
    TrimEachPlain(fields);
  }

  // ---------------------------------------------------------------------
  // Only commas.

  /** n commas and nothing else give n + 1 empty fields. */
  lemma {:induction false} OnlyCommas(n: nat)
    ensures Scan(seq(n, _ => ','), FieldStart, "") == Success(seq(n + 1, _ => ""))
  {
    if n > 0 {
      var s := seq(n, _ => ',');
      assert s == [','] + seq(n - 1, _ => ',');
      ScanFieldStartStep(',', seq(n - 1, _ => ','));
      OnlyCommas(n - 1);
      assert seq(n + 1, _ => "") == [""] + seq(n, _ => "");
    } else {
      assert seq(0, _ => ',') == [];
      assert seq(1, _ => "") == [""];
    }
  }

  /** A value of n commas has no fields when n is 0, and n + 1 empty fields otherwise. */
  lemma CommasOnlyParse(n: nat)
    ensures Parse(seq(n, _ => ',')) == if n == 0 then Success([]) else Success(seq(n + 1, _ => ""))
  {
    OnlyCommas(n);
    if n == 0 {
      assert seq(0, _ => ',') == [];
    }
  }

  /** Concrete values: empty input and commas only. */
  lemma EmptyAndCommaExamples()
    ensures Parse("") == Success([])
    ensures Parse(",") == Success(["", ""])
    ensures Parse(",,") == Success(["", "", ""])
  {
    OnlyCommas(1);
    assert seq(1, _ => ',') == ",";
    assert seq(2, _ => "") == ["", ""];
    OnlyCommas(2);
    assert seq(2, _ => ',') == ",,";
    assert seq(3, _ => "") == ["", "", ""];
  }

  /** Concrete value: one unquoted field. */
  lemma SingleLetterExample()
    ensures Parse("a") == Success(["a"])
  {
    assert "a"[0] == 'a' && |"a"| == 1 && !IsWhitespace('a');
    SingleField("a");
    TrimKeepsInterior("a");
  }

  /** Concrete value: one unquoted field keeps its inner whitespace. */
  lemma InnerSpaceExample()
    ensures Parse("a b") == Success(["a b"])
  {
    SingleField("a b");
    TrimKeepsInterior("a b");
  }

  lemma SplitExample()
    ensures SplitOnCommas("a , b") == ["a ", " b"]
  {
    SplitPrefix("a ", ", b");
    assert "a " + ", b" == "a , b";
    SplitStep(',', " b");
    assert [','] + " b" == ", b";
    SplitNoComma(" b");
    SplitNoComma("a ");
  }

  lemma TrimExamples()
    ensures Trim("a ") == "a" && Trim(" b") == "b"
  {
    assert !IsWhitespace('a') && !IsWhitespace('b') && IsWhitespace(' ');
    assert TrimStart("a ") == "a " && "a "[..1] == "a" && TrimEnd("a") == "a";
    assert " b"[1..] == "b" && TrimStart("b") == "b" && TrimEnd("b") == "b";
  }

  lemma TrimEachPair(x: string, y: string)
    ensures TrimEach([x, y]) == [Trim(x), Trim(y)]
  {
    TrimEachCons(x, [y]);
    TrimEachCons(y, []);
    assert [x] + [y] == [x, y];
  }

  /** Concrete value: unquoted fields are trimmed. */
  lemma TrimmedFieldsExample()
    ensures Parse("a , b") == Success(["a", "b"])
  {
    QuoteFreeParse("a , b");
    SplitExample();
    TrimExamples();
    TrimEachPair("a ", " b");
  }

  /** Concrete value: quoted fields keep their spaces. */
  lemma QuotedSpacesExample()
    ensures Parse("\"a \",\" b\"") == Success(["a ", " b"])
  {
    RoundTrip(["a ", " b"]);
    assert Escape("a ") == "a ";
    assert Escape(" b") == " b";
    assert Encode(["a ", " b"]) == "\"a \",\" b\"";
  }

  /** Concrete value: a comma inside quotes does not split. */
  lemma QuotedCommaExample()
    ensures Parse("\"a,b\",c") == Success(["a,b", "c"])
  {
    EncodedPrefix(["a,b"], "c");
    assert Escape("a,b") == "a,b";
    assert Encode(["a,b"]) + "," + "c" == "\"a,b\",c";
    ScanFieldStartStep('c', "");
    assert [ 'c' ] + "" == "c";
    assert TrimEnd("c") == "c";
    assert Scan("c", FieldStart, "") == Success(["c"]);
    assert ["a,b"] + ["c"] == ["a,b", "c"];
  }

  /** Concrete value: a quote opened and never closed. */
  lemma UnterminatedExample()
    ensures Parse("\"a ,b") == Failure(UnterminatedQuote)
  {
    ScanFieldStartStep('"', "a ,b");
    assert "\"a ,b" == ['"'] + "a ,b";
    QuotedUnterminated("a ,b", "");
  }

  /** Concrete values: an unclosed quote after a bare field, and one whose body holds an escaped quote. */
  lemma UnterminatedAfterBareExample()
    ensures Parse("a,\"b") == Failure(UnterminatedQuote)
  {
    UnterminatedQuoteFails([Bare("a")], "", "b");
    assert Delimited([Bare("a")]) == "a,";
    assert Escape("b") == "b";
  }

  lemma UnterminatedEscapedExample()
    ensures Parse("\"a\"\"b") == Failure(UnterminatedQuote)
  {
    UnterminatedQuoteFails([], "", "a\"b");
    assert Escape("b") == "b";
    assert Escape("\"b") == "\"\"b";
    assert Escape("a\"b") == "a\"\"b";
  }

  /** Concrete value: a character straight after the closing quote of a second field. */
  lemma CharacterAfterSecondQuoteExample()
    ensures Parse("x,\"a\"y") == Failure(CharacterAfterQuote('y'))
  {
    CharacterAfterQuoteFails([Bare("x")], "", "a", "", 'y', "");
    assert Delimited([Bare("x")]) == "x,";
    assert Quote("a") == "\"a\"";
  }
}
