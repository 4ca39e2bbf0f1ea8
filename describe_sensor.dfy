/**
 * The format negotiation and the decision logic of the DescribeSensor data
 * access object: which spellings of a procedure description format are
 * accepted, which stored formats may answer a request, when a description
 * must be converted, and how the descriptions of a procedure are collected
 * from the store (one per valid procedure time, or a single one).
 *
 * The store queries and the description factory are parameters (function
 * values); character handling is ASCII only.
 */
module DescribeSensorDao {
  import opened Results

  // ---------------------------------------------------------------------------
  // Characters and format names
  // ---------------------------------------------------------------------------

  /** The characters a regular-expression `\s` matches: space, tab, line feed, vertical tab, form feed, carriage return. */
  predicate IsWhitespace(c: char)
  {
    c == ' ' || c == '\t' || c == '\n' || c as int == 0x0B || c as int == 0x0C || c == '\r'
  }

  predicate IsUpper(c: char)
  {
    'A' <= c <= 'Z'
  }

  /** ASCII lower-casing of one character. */
  function ToLower(c: char): (d: char)
    ensures !IsUpper(d)
    ensures IsUpper(c) ==> 'a' <= d <= 'z' && d as int - 'a' as int == c as int - 'A' as int
    ensures !IsUpper(c) ==> d == c
    ensures IsWhitespace(d) <==> IsWhitespace(c)
  {
    if IsUpper(c) then (c as int + 32) as char else c
  }

  function LowerCase(s: string): string
  {
    seq(|s|, i requires 0 <= i < |s| => ToLower(s[i]))
  }

  /** `s` with every whitespace character removed, the others kept in order. */
  function RemoveWhitespace(s: string): (r: string)
    ensures |r| <= |s|
    ensures forall c :: c in r <==> c in s && !IsWhitespace(c)
  {
    if s == [] then []
    else if IsWhitespace(s[0]) then RemoveWhitespace(s[1..])
    else [s[0]] + RemoveWhitespace(s[1..])
  }

  /** The form two format names are compared in: lower case, whitespace removed. */
  function MatchingString(format: string): (m: string)
    ensures forall c :: c in m ==> !IsWhitespace(c) && !IsUpper(c)
  {
    RemoveWhitespace(LowerCase(format))
  }

  /** Two strings are equal when ASCII case is ignored. */
  predicate EqualsIgnoreCase(a: string, b: string)
  {
    |a| == |b| && forall i :: 0 <= i < |a| ==> ToLower(a[i]) == ToLower(b[i])
  }

  lemma LowerCaseFixed(s: string)
    requires forall c :: c in s ==> !IsUpper(c)
    ensures LowerCase(s) == s
  {
    assert forall i :: 0 <= i < |s| ==> s[i] in s;
  }

  lemma {:induction false} RemoveWhitespaceFixed(s: string)
    requires forall c :: c in s ==> !IsWhitespace(c)
    ensures RemoveWhitespace(s) == s
  {
    if s != [] {
      assert s[0] in s;
      assert forall c :: c in s[1..] ==> c in s;
      RemoveWhitespaceFixed(s[1..]);
      assert s == [s[0]] + s[1..];
    }
  }

  /** Removing whitespace keeps the order of what remains: it works piece by piece. */
  lemma {:induction false} RemoveWhitespaceConcat(a: string, b: string)
    ensures RemoveWhitespace(a + b) == RemoveWhitespace(a) + RemoveWhitespace(b)
  {
    if a != [] {
      assert (a + b)[0] == a[0];
      assert (a + b)[1..] == a[1..] + b;
      RemoveWhitespaceConcat(a[1..], b);
    } else {
      assert a + b == b;
    }
  }

  /** A name without whitespace and capitals is its own matching string. */
  lemma MatchingStringFixed(format: string)
    requires forall c :: c in format ==> !IsWhitespace(c) && !IsUpper(c)
    ensures MatchingString(format) == format
  {
    LowerCaseFixed(format);
    RemoveWhitespaceFixed(format);
  }

  /** Normalising a normalised format name changes nothing. */
  lemma MatchingStringIdempotent(format: string)
    ensures MatchingString(MatchingString(format)) == MatchingString(format)
  {
    var m := MatchingString(format);
    LowerCaseFixed(m);
    RemoveWhitespaceFixed(m);
  }

  /** Names that differ only in case have the same matching string. */
  lemma MatchingIgnoresCase(a: string, b: string)
    requires EqualsIgnoreCase(a, b)
    ensures MatchingString(a) == MatchingString(b)
  {
    assert LowerCase(a) == LowerCase(b);
  }

  lemma {:induction false} RemoveWhitespaceSplit(s: string, i: int)
    requires 0 <= i < |s| && IsWhitespace(s[i])
    ensures RemoveWhitespace(s[..i] + s[i + 1..]) == RemoveWhitespace(s)
  {
    if i > 0 {
      var t := s[..i] + s[i + 1..];
      RemoveWhitespaceSplit(s[1..], i - 1);
      assert t[0] == s[0];
      assert t[1..] == s[1..][..i - 1] + s[1..][i..];
    } else {
      assert s[..i] + s[i + 1..] == s[1..];
    }
  }

  /** Removing one whitespace character from a name does not change its matching string. */
  lemma MatchingIgnoresWhitespace(format: string, i: int)
    requires 0 <= i < |format| && IsWhitespace(format[i])
    ensures MatchingString(format[..i] + format[i + 1..]) == MatchingString(format)
  {
    var l := LowerCase(format);
    assert LowerCase(format[..i] + format[i + 1..]) == l[..i] + l[i + 1..];
    RemoveWhitespaceSplit(l, i);
  }

  // ---------------------------------------------------------------------------
  // Accepted spellings and possible formats
  // ---------------------------------------------------------------------------

  /** The MIME-type and URL spellings of the SensorML output format. */
  datatype SensorMlFormats = SensorMlFormats(mimeType: string, url: string)

  /**
   * The format itself, plus the other SensorML spelling when the format is
   * one of them (the MIME type is checked first).
   */
  function AcceptedSpellings(sensorMl: SensorMlFormats, format: string): (r: set<string>)
    ensures format in r
    ensures r <= {format, sensorMl.mimeType, sensorMl.url}
    ensures sensorMl.url in r <==> format == sensorMl.url || EqualsIgnoreCase(sensorMl.mimeType, format)
    ensures !EqualsIgnoreCase(sensorMl.mimeType, format) && EqualsIgnoreCase(sensorMl.url, format) ==> sensorMl.mimeType in r
    ensures sensorMl.mimeType in r ==> format == sensorMl.mimeType || EqualsIgnoreCase(sensorMl.url, format)
    ensures !EqualsIgnoreCase(sensorMl.mimeType, format) && !EqualsIgnoreCase(sensorMl.url, format) ==> r == {format}
  {
    if EqualsIgnoreCase(sensorMl.mimeType, format) then {format, sensorMl.url}
    else if EqualsIgnoreCase(sensorMl.url, format) then {format, sensorMl.mimeType}
    else {format}
  }

  /** Builds the accepted spellings of `format` one insertion at a time. */
  method CheckForUrlVsMimeType(sensorMl: SensorMlFormats, format: string) returns (possible: set<string>)
    ensures possible == AcceptedSpellings(sensorMl, format)
  {
    possible := {};
    possible := possible + {format};
    if EqualsIgnoreCase(sensorMl.mimeType, format) {
      possible := possible + {sensorMl.url};
    } else if EqualsIgnoreCase(sensorMl.url, format) {
      possible := possible + {sensorMl.mimeType};
    }
  }

  /** When the two SensorML spellings differ, each accepts the other. */
  lemma SpellingsArePaired(sensorMl: SensorMlFormats)
    requires !EqualsIgnoreCase(sensorMl.mimeType, sensorMl.url)
    ensures AcceptedSpellings(sensorMl, sensorMl.mimeType) == {sensorMl.mimeType, sensorMl.url}
    ensures AcceptedSpellings(sensorMl, sensorMl.url) == {sensorMl.url, sensorMl.mimeType}
  {
    assert EqualsIgnoreCase(sensorMl.mimeType, sensorMl.mimeType);
    assert EqualsIgnoreCase(sensorMl.url, sensorMl.url);
    assert !EqualsIgnoreCase(sensorMl.url, sensorMl.mimeType);
  }

  /** Every format of every registry entry, the entries given in iteration order. */
  function Flatten(registry: seq<set<string>>): set<string>
  {
    if registry == [] then {} else Flatten(registry[..|registry| - 1]) + registry[|registry| - 1]
  }

  lemma {:induction false} FlattenMembers(registry: seq<set<string>>, f: string)
    ensures f in Flatten(registry) <==> exists i :: 0 <= i < |registry| && f in registry[i]
  {
    if registry != [] {
      var init := registry[..|registry| - 1];
      FlattenMembers(init, f);
      if f in Flatten(registry) && f !in registry[|registry| - 1] {
        var i :| 0 <= i < |init| && f in init[i];
        assert registry[i] == init[i];
      }
      if exists i :: 0 <= i < |registry| && f in registry[i] {
        var i :| 0 <= i < |registry| && f in registry[i];
        if i < |init| {
          assert init[i] == registry[i];
        }
      }
    }
  }

  /** The formats among `formats` whose matching string is `matching`. */
  function Matches(formats: set<string>, matching: string): set<string>
  {
    set f | f in formats && MatchingString(f) == matching
  }

  /** The source formats of the converters that produce `target`. */
  function ConverterSources<C>(converters: map<(string, string), C>, target: string): set<string>
  {
    set k | k in converters && k.1 == target :: k.0
  }

  /** A procedure description document in one description format; the document itself is opaque. */
  datatype ProcedureDescription = ProcedureDescription(procedure: string, descriptionFormat: string, document: string)

  /** Turns a description of one format into another, or fails with a cause. */
  datatype Converter = Converter(convert: ProcedureDescription -> Result<ProcedureDescription, string>)

  /** The configuration the format negotiation consults. */
  datatype Formats = Formats(sensorMl: SensorMlFormats, registry: seq<set<string>>, converters: map<(string, string), Converter>)

  /**
   * The formats a stored description may have to answer a request for
   * `format`: its accepted spellings, every registered format with the same
   * matching string, and every format a converter turns into `format`.
   */
  function PossibleFormats(formats: Formats, format: string): (r: set<string>)
    ensures format in r
    ensures forall f :: f in r <==>
      || f in AcceptedSpellings(formats.sensorMl, format)
      || (f in Flatten(formats.registry) && MatchingString(f) == MatchingString(format))
      || (f, format) in formats.converters
  {
    var r := AcceptedSpellings(formats.sensorMl, format)
      + Matches(Flatten(formats.registry), MatchingString(format))
      + ConverterSources(formats.converters, format);
    assert forall f :: (f, format) in formats.converters ==> f in ConverterSources(formats.converters, format);
    r
  }

  lemma FlattenStep(registry: seq<set<string>>, i: int)
    requires 0 <= i < |registry|
    ensures Flatten(registry[..i + 1]) == Flatten(registry[..i]) + registry[i]
  {
    assert registry[..i + 1][..i] == registry[..i];
  }

  lemma MatchesStep(entry: set<string>, seen: set<string>, rest: set<string>, pdf: string, matching: string)
    requires pdf in rest && seen + rest == entry && seen !! rest
    ensures (seen + {pdf}) + (rest - {pdf}) == entry && (seen + {pdf}) !! (rest - {pdf})
    ensures Matches(seen + {pdf}, matching) == Matches(seen, matching) + (if MatchingString(pdf) == matching then {pdf} else {})
  {
  }

  lemma MatchesUnion(a: set<string>, b: set<string>, matching: string)
    ensures Matches(a + b, matching) == Matches(a, matching) + Matches(b, matching)
  {
  }

  /** Adds to `possible` each format of `entry` whose matching string is `matching`. */
  method AddMatching(possible: set<string>, entry: set<string>, matching: string) returns (r: set<string>)
    ensures r == possible + Matches(entry, matching)
  {
    r := possible;
    var rest := entry;
    ghost var seen: set<string> := {};
    while rest != {}
      invariant seen + rest == entry && seen !! rest
      invariant r == possible + Matches(seen, matching)
      decreases rest
    {
      var pdf :| pdf in rest;
      MatchesStep(entry, seen, rest, pdf, matching);
      if matching == MatchingString(pdf) {
        r := r + {pdf};
      }
      rest := rest - {pdf};
      seen := seen + {pdf};
    }
  }

  /** Collects the possible formats for a request for `format`, entry by entry. */
  method GetPossibleProcedureDescriptionFormats(formats: Formats, format: string) returns (possible: set<string>)
    ensures possible == PossibleFormats(formats, format)
  {
    possible := CheckForUrlVsMimeType(formats.sensorMl, format);
    var matching := MatchingString(format);
    var i := 0;
    while i < |formats.registry|
      invariant 0 <= i <= |formats.registry|
      invariant possible == AcceptedSpellings(formats.sensorMl, format) + Matches(Flatten(formats.registry[..i]), matching)
    {
      possible := AddMatching(possible, formats.registry[i], matching);
      FlattenStep(formats.registry, i);
      MatchesUnion(Flatten(formats.registry[..i]), formats.registry[i], matching);
      i := i + 1;
    }
    assert formats.registry[..i] == formats.registry;
    possible := possible + ConverterSources(formats.converters, format);
  }

  // ---------------------------------------------------------------------------
  // Conversion
  // ---------------------------------------------------------------------------

  /** Why a DescribeSensor request could not be answered. */
  datatype DescribeSensorError =
    | ProcedureIsNull
    | DescriptionFailed(cause: string)
    | ConversionFailed(cause: string)
    | NoConverterFound(source: string, target: string)

  /**
   * The description in the requested format: unchanged when the requested
   * format is an accepted spelling of the description's own format, else
   * converted by the converter for that pair of formats.
   */
  function ConvertProcedureDescription(formats: Formats, description: ProcedureDescription, requested: string)
    : (r: Result<ProcedureDescription, DescribeSensorError>)
    ensures requested in AcceptedSpellings(formats.sensorMl, description.descriptionFormat) ==> r == Ok(description)
    ensures r == Err(NoConverterFound(description.descriptionFormat, requested)) <==>
      requested !in AcceptedSpellings(formats.sensorMl, description.descriptionFormat)
      && (description.descriptionFormat, requested) !in formats.converters
    ensures r.Err? && r.error.ConversionFailed? ==>
      (description.descriptionFormat, requested) in formats.converters
      && formats.converters[(description.descriptionFormat, requested)].convert(description) == Err(r.error.cause)
    ensures (requested !in AcceptedSpellings(formats.sensorMl, description.descriptionFormat)
             && (description.descriptionFormat, requested) in formats.converters) ==>
      var converted := formats.converters[(description.descriptionFormat, requested)].convert(description);
      && (r.Ok? <==> converted.Ok?)
      && (converted.Ok? ==> r == Ok(converted.value))
      && (converted.Err? ==> r == Err(ConversionFailed(converted.error)))
  {
    var source := description.descriptionFormat;
    if requested in AcceptedSpellings(formats.sensorMl, source) then
      Ok(description)
    else if (source, requested) in formats.converters then
      match formats.converters[(source, requested)].convert(description)
      case Ok(converted) => Ok(converted)
      case Err(cause) => Err(ConversionFailed(cause))
    else
      Err(NoConverterFound(source, requested))
  }

  /**
   * A description stored in a format that a converter turns into the
   * requested one is never refused for want of a converter.
   */
  lemma ConverterSourcesConvert(formats: Formats, description: ProcedureDescription, requested: string)
    requires description.descriptionFormat in ConverterSources(formats.converters, requested)
    ensures !ConvertProcedureDescription(formats, description, requested).Err?
      || !ConvertProcedureDescription(formats, description, requested).error.NoConverterFound?
  {
    var k :| k in formats.converters && k.1 == requested && k.0 == description.descriptionFormat;
    assert (description.descriptionFormat, requested) == k;
  }

  /**
   * A registered format that only matches the request after normalisation is
   * one of the possible formats, yet a description stored in it is refused
   * when no converter covers the pair: "S L" answers a request for "sl"
   * through the registry but cannot be converted to it.
   */
  lemma RegisteredSpellingMayNeedConverter()
    ensures var formats := Formats(SensorMlFormats("m", "u"), [{"S L"}], map[]);
      && "S L" in PossibleFormats(formats, "sl")
      && ConvertProcedureDescription(formats, ProcedureDescription("p", "S L", ""), "sl") == Err(NoConverterFound("S L", "sl"))
  {
    var formats := Formats(SensorMlFormats("m", "u"), [{"S L"}], map[]);
    assert Flatten(formats.registry) == {"S L"} by {
      assert formats.registry[..0] == [];
    }
    ExampleMatchingStrings();
    assert "sl" !in AcceptedSpellings(formats.sensorMl, "S L");
  }

  lemma ExampleMatchingStrings()
    ensures MatchingString("S L") == "sl" && MatchingString("sl") == "sl"
  {
    assert LowerCase("S L") == "s l";
    assert RemoveWhitespace("s l") == "sl";
    assert LowerCase("sl") == "sl";
    assert RemoveWhitespace("sl") == "sl";
  }

  // ---------------------------------------------------------------------------
  // Collecting the descriptions of a procedure
  // ---------------------------------------------------------------------------

  /** A time filter of the request; its contents only matter to the store. */
  datatype TimeFilter = TimeFilter(begin: int, end: int)

  datatype DescribeSensorRequest = DescribeSensorRequest(procedure: string, procedureDescriptionFormat: string, validTime: Option<TimeFilter>)

  datatype Procedure = Procedure(identifier: string)

  /** One period in which a stored description of a procedure was valid. */
  datatype ValidProcedureTime = ValidProcedureTime(startTime: int, endTime: Option<int>, descriptionFormat: string)

  /** The store queries, as functions of their arguments. */
  datatype Store = Store(
    procedureForIdentifier: string -> Option<Procedure>,
    tProcedureForIdentifier: (string, set<string>, Option<TimeFilter>) -> Option<Procedure>,
    validProcedureTimes: (Procedure, set<string>, Option<TimeFilter>) -> seq<ValidProcedureTime>)

  /** The description factory: it may produce no description, or fail with a cause. */
  datatype DescriptionFactory = DescriptionFactory(
    create: (Procedure, string) -> Result<Option<ProcedureDescription>, string>,
    createFromValidProcedureTime: (Procedure, string, ValidProcedureTime) -> Result<ProcedureDescription, string>)

  datatype Environment = Environment(formats: Formats, store: Store, factory: DescriptionFactory)

  /**
   * The single description of the requested procedure: refused when no
   * procedure has the identifier, otherwise what the factory makes of it,
   * possibly nothing.
   */
  function GetProcedureDescription(env: Environment, request: DescribeSensorRequest)
    : (r: Result<Option<ProcedureDescription>, DescribeSensorError>)
    ensures r == Err(ProcedureIsNull) <==> env.store.procedureForIdentifier(request.procedure).None?
    ensures env.store.procedureForIdentifier(request.procedure).Some? ==>
      var created := env.factory.create(env.store.procedureForIdentifier(request.procedure).value, request.procedureDescriptionFormat);
      && (created.Ok? ==> r == Ok(created.value))
      && (created.Err? ==> r == Err(DescriptionFailed(created.error)))
    ensures r.Ok? ==>
      && env.store.procedureForIdentifier(request.procedure).Some?
      && env.factory.create(env.store.procedureForIdentifier(request.procedure).value, request.procedureDescriptionFormat) == Ok(r.value)
    ensures r.Err? && r.error != ProcedureIsNull ==> r.error.DescriptionFailed?
  {
    match env.store.procedureForIdentifier(request.procedure)
    case None => Err(ProcedureIsNull)
    case Some(procedure) =>
      match env.factory.create(procedure, request.procedureDescriptionFormat)
      case Ok(description) => Ok(description)
      case Err(cause) => Err(DescriptionFailed(cause))
  }

  /** The description valid in `time`, converted to the requested format. */
  function DescribeAt(env: Environment, procedure: Procedure, request: DescribeSensorRequest, time: ValidProcedureTime)
    : Result<ProcedureDescription, DescribeSensorError>
  {
    match env.factory.createFromValidProcedureTime(procedure, request.procedureDescriptionFormat, time)
    case Err(cause) => Err(DescriptionFailed(cause))
    case Ok(description) => ConvertProcedureDescription(env.formats, description, request.procedureDescriptionFormat)
  }

  /** The descriptions for `times` in order; the first failure ends the whole request. */
  function DescribeEach(env: Environment, procedure: Procedure, request: DescribeSensorRequest, times: seq<ValidProcedureTime>)
    : Result<seq<ProcedureDescription>, DescribeSensorError>
  {
    if times == [] then Ok([])
    else
      match DescribeEach(env, procedure, request, times[..|times| - 1])
      case Err(e) => Err(e)
      case Ok(descriptions) =>
        match DescribeAt(env, procedure, request, times[|times| - 1])
        case Err(e) => Err(e)
        case Ok(description) => Ok(descriptions + [description])
  }

  /**
   * The descriptions a request yields where valid procedure times exist:
   * one per valid time of the stored procedure, or, when no procedure is
   * stored in a possible format, the single description, none if a valid
   * time was requested, and a refusal otherwise.
   */
  function ProcedureDescriptions(env: Environment, request: DescribeSensorRequest): Result<seq<ProcedureDescription>, DescribeSensorError>
  {
    var possible := PossibleFormats(env.formats, request.procedureDescriptionFormat);
    match env.store.tProcedureForIdentifier(request.procedure, possible, request.validTime)
    case Some(procedure) =>
      DescribeEach(env, procedure, request, env.store.validProcedureTimes(procedure, possible, request.validTime))
    case None =>
      match GetProcedureDescription(env, request)
      case Err(e) => Err(e)
      case Ok(Some(description)) => Ok([description])
      case Ok(None) => if request.validTime.None? then Err(ProcedureIsNull) else Ok([])
  }

  /** Once a prefix of the valid times fails, the whole sequence fails the same way. */
  lemma {:induction false} FailureIsFinal(env: Environment, procedure: Procedure, request: DescribeSensorRequest,
                                          times: seq<ValidProcedureTime>, k: int)
    requires 0 <= k <= |times| && DescribeEach(env, procedure, request, times[..k]).Err?
    ensures DescribeEach(env, procedure, request, times) == DescribeEach(env, procedure, request, times[..k])
    decreases |times| - k
  {
    if k < |times| {
      assert times[..k + 1][..k] == times[..k];
      FailureIsFinal(env, procedure, request, times, k + 1);
    } else {
      assert times[..k] == times;
    }
  }

  lemma DescribeEachStep(env: Environment, procedure: Procedure, request: DescribeSensorRequest,
                         times: seq<ValidProcedureTime>, i: int)
    requires 0 <= i < |times|
    ensures DescribeEach(env, procedure, request, times[..i + 1]) ==
      match DescribeEach(env, procedure, request, times[..i])
      case Err(e) => Err(e)
      case Ok(descriptions) =>
        match DescribeAt(env, procedure, request, times[i])
        case Err(e) => Err(e)
        case Ok(description) => Ok(descriptions + [description])
  {
    assert times[..i + 1][..i] == times[..i];
  }

  /** A successful run yields one description per valid time, each the one for that time, in order. */
  lemma {:induction false} DescribeEachInOrder(env: Environment, procedure: Procedure, request: DescribeSensorRequest,
                                               times: seq<ValidProcedureTime>)
    ensures DescribeEach(env, procedure, request, times).Ok? <==>
      forall i :: 0 <= i < |times| ==> DescribeAt(env, procedure, request, times[i]).Ok?
    ensures DescribeEach(env, procedure, request, times).Ok? ==>
      var descriptions := DescribeEach(env, procedure, request, times).value;
      |descriptions| == |times| &&
      forall i :: 0 <= i < |times| ==> DescribeAt(env, procedure, request, times[i]) == Ok(descriptions[i])
  {
    if times != [] {
      var init := times[..|times| - 1];
      DescribeEachInOrder(env, procedure, request, init);
      assert forall i :: 0 <= i < |init| ==> init[i] == times[i];
    }
  }

  /** A failed run fails with the error of the first valid time that could not be described. */
  lemma {:induction false} DescribeEachFirstFailure(env: Environment, procedure: Procedure, request: DescribeSensorRequest,
                                                    times: seq<ValidProcedureTime>)
    requires DescribeEach(env, procedure, request, times).Err?
    ensures exists i ::
      && 0 <= i < |times|
      && DescribeAt(env, procedure, request, times[i]) == Err(DescribeEach(env, procedure, request, times).error)
      && forall j :: 0 <= j < i ==> DescribeAt(env, procedure, request, times[j]).Ok?
  {
    var init := times[..|times| - 1];
    var last := |times| - 1;
    assert forall i :: 0 <= i < |init| ==> init[i] == times[i];
    if DescribeEach(env, procedure, request, init).Err? {
      DescribeEachFirstFailure(env, procedure, request, init);
      var i :| 0 <= i < |init|
        && DescribeAt(env, procedure, request, init[i]) == Err(DescribeEach(env, procedure, request, init).error)
        && forall j :: 0 <= j < i ==> DescribeAt(env, procedure, request, init[j]).Ok?;
      assert DescribeAt(env, procedure, request, times[i]) == Err(DescribeEach(env, procedure, request, times).error);
    } else {
      DescribeEachInOrder(env, procedure, request, init);
      assert DescribeAt(env, procedure, request, times[last]) == Err(DescribeEach(env, procedure, request, times).error);
    }
  }

  /** Describes the procedure at each of its valid times, stopping at the first failure. */
  method DescribeValidTimes(env: Environment, procedure: Procedure, request: DescribeSensorRequest, times: seq<ValidProcedureTime>)
    returns (r: Result<seq<ProcedureDescription>, DescribeSensorError>)
    ensures r == DescribeEach(env, procedure, request, times)
  {
    var list := [];
    var i := 0;
    while i < |times|
      invariant 0 <= i <= |times|
      invariant DescribeEach(env, procedure, request, times[..i]) == Ok(list)
    {
      DescribeEachStep(env, procedure, request, times, i);
      var created := env.factory.createFromValidProcedureTime(procedure, request.procedureDescriptionFormat, times[i]);
      if created.Err? {
        FailureIsFinal(env, procedure, request, times, i + 1);
        return Err(DescriptionFailed(created.error));
      }
      var converted := ConvertProcedureDescription(env.formats, created.value, request.procedureDescriptionFormat);
      if converted.Err? {
        FailureIsFinal(env, procedure, request, times, i + 1);
        return Err(converted.error);
      }
      list := list + [converted.value];
      i := i + 1;
    }
    assert times[..i] == times;
    return Ok(list);
  }

  /** The descriptions of the requested procedure where valid procedure times exist. */
  method GetProcedureDescriptions(env: Environment, request: DescribeSensorRequest)
    returns (r: Result<seq<ProcedureDescription>, DescribeSensorError>)
    ensures r == ProcedureDescriptions(env, request)
  {
    var possible := GetPossibleProcedureDescriptionFormats(env.formats, request.procedureDescriptionFormat);
    var procedure := env.store.tProcedureForIdentifier(request.procedure, possible, request.validTime);
    if procedure.Some? {
      var times := env.store.validProcedureTimes(procedure.value, possible, request.validTime);
      r := DescribeValidTimes(env, procedure.value, request, times);
    } else {
      var description := GetProcedureDescription(env, request);
      if description.Err? {
        r := Err(description.error);
      } else if description.value.Some? {
        r := Ok([description.value.value]);
      } else if request.validTime.None? {
        r := Err(ProcedureIsNull);
      } else {
        r := Ok([]);
      }
    }
  }

  /**
   * The answer to a DescribeSensor request: every description over the valid
   * procedure times when the store keeps them, otherwise exactly one,
   * possibly absent, description.
   */
  function QueryDescriptions(env: Environment, request: DescribeSensorRequest, validProcedureTimeSupported: bool)
    : (r: Result<seq<Option<ProcedureDescription>>, DescribeSensorError>)
    ensures !validProcedureTimeSupported ==>
      (r.Ok? ==> |r.value| == 1) && (r.Err? <==> GetProcedureDescription(env, request).Err?)
    ensures !validProcedureTimeSupported && r.Ok? ==> r.value == [GetProcedureDescription(env, request).value]
    ensures !validProcedureTimeSupported && r.Err? ==> r.error == GetProcedureDescription(env, request).error
    ensures validProcedureTimeSupported ==> (r.Ok? <==> ProcedureDescriptions(env, request).Ok?)
    ensures validProcedureTimeSupported && r.Err? ==> r.error == ProcedureDescriptions(env, request).error
    ensures validProcedureTimeSupported && r.Ok? ==>
      && |r.value| == |ProcedureDescriptions(env, request).value|
      && forall i :: 0 <= i < |r.value| ==> r.value[i] == Some(ProcedureDescriptions(env, request).value[i])
  {
    if validProcedureTimeSupported then
      match ProcedureDescriptions(env, request)
      case Err(e) => Err(e)
      case Ok(descriptions) => Ok(seq(|descriptions|, i requires 0 <= i < |descriptions| => Some(descriptions[i])))
    else
      match GetProcedureDescription(env, request)
      case Err(e) => Err(e)
      case Ok(description) => Ok([description])
  }

  /**
   * When a procedure is stored in a possible format, the answer is one
   * description per valid procedure time the store lists, in that order.
   */
  lemma FoundProcedureDescriptions(env: Environment, request: DescribeSensorRequest)
    requires var possible := PossibleFormats(env.formats, request.procedureDescriptionFormat);
      env.store.tProcedureForIdentifier(request.procedure, possible, request.validTime).Some?
    requires ProcedureDescriptions(env, request).Ok?
    ensures var possible := PossibleFormats(env.formats, request.procedureDescriptionFormat);
      var procedure := env.store.tProcedureForIdentifier(request.procedure, possible, request.validTime).value;
      var times := env.store.validProcedureTimes(procedure, possible, request.validTime);
      var descriptions := ProcedureDescriptions(env, request).value;
      |descriptions| == |times| &&
      forall i :: 0 <= i < |times| ==> DescribeAt(env, procedure, request, times[i]) == Ok(descriptions[i])
  {
    var possible := PossibleFormats(env.formats, request.procedureDescriptionFormat);
    var procedure := env.store.tProcedureForIdentifier(request.procedure, possible, request.validTime).value;
    DescribeEachInOrder(env, procedure, request, env.store.validProcedureTimes(procedure, possible, request.validTime));
  }

  /**
   * When no procedure is stored in a possible format, an unknown procedure is
   * refused, and a known one without a description is refused unless a
   * valid time was requested, in which case the answer is empty.
   */
  lemma NotFoundProcedureDescriptions(env: Environment, request: DescribeSensorRequest)
    requires var possible := PossibleFormats(env.formats, request.procedureDescriptionFormat);
      env.store.tProcedureForIdentifier(request.procedure, possible, request.validTime).None?
    ensures env.store.procedureForIdentifier(request.procedure).None? ==>
      ProcedureDescriptions(env, request) == Err(ProcedureIsNull)
    ensures GetProcedureDescription(env, request) == Ok(None) ==>
      ProcedureDescriptions(env, request) == (if request.validTime.None? then Err(ProcedureIsNull) else Ok([]))
    ensures forall d :: GetProcedureDescription(env, request) == Ok(Some(d)) ==> ProcedureDescriptions(env, request) == Ok([d])
  {
  }
}
