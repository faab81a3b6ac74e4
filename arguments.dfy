/**
 * The command-line argument parsers of scale_pyramid.py: parse_chunk reads one
 * level (a bare integer or a comma-separated vector), parse_scales a
 * semicolon-separated list of levels.
 */
module Arguments {
  import opened Wrappers
  import opened Errors
  import opened Text

  /** One level as parse_chunk returns it: an int, or a list of ints. */
  datatype Level = Scalar(value: int) | PerAxis(values: seq<int>)

  /** [int(c.strip()) for c in parts], failing at the first piece int() refuses. */
  function ParseInts(parts: seq<string>): (r: Result<seq<int>, Error>)
    ensures r.Ok? <==> forall i :: 0 <= i < |parts| ==> PyInt(Strip(parts[i])).Some?
    ensures r.Err? ==> r.error.NotAnInteger?
    ensures r.Ok? ==> (|r.value| == |parts| &&
      forall i :: 0 <= i < |parts| ==> r.value[i] == PyInt(Strip(parts[i])).value)
    decreases |parts|
  {
    if parts == [] then Ok([])
    else
      var first := PyInt(Strip(parts[0]));
      var rest := ParseInts(parts[1..]);
      if first.None? then Err(NotAnInteger(Strip(parts[0])))
      else if rest.Err? then rest
      else
        assert forall i :: 1 <= i < |parts| ==> parts[1..][i - 1] == parts[i];
        Ok([first.value] + rest.value)
  }

  /** parse_chunk(s): a scalar exactly when int() accepts the whole text; otherwise
      one integer per comma-separated piece, in order, or an error if any piece
      is not an integer. */
  function ParseChunk(s: string): (r: Result<Level, Error>)
    ensures PyInt(s).Some? ==> r == Ok(Scalar(PyInt(s).value))
    ensures r.Err? ==> r.error.NotAnInteger?
    ensures PyInt(s).None? ==>
      (r.Ok? <==> forall i :: 0 <= i < |Split(s, ',')| ==> PyInt(Strip(Split(s, ',')[i])).Some?)
    ensures PyInt(s).None? && r.Ok? ==> r.value.PerAxis?
    ensures r.Ok? && r.value.PerAxis? ==> (PyInt(s).None? &&
      |r.value.values| == |Split(s, ',')| &&
      forall i :: 0 <= i < |Split(s, ',')| ==> r.value.values[i] == PyInt(Strip(Split(s, ',')[i])).value)
  {
    match PyInt(s)
    case Some(n) => Ok(Scalar(n))
    case None =>
      match ParseInts(Split(s, ','))
      case Err(e) =>
        assert exists i :: 0 <= i < |Split(s, ',')| && PyInt(Strip(Split(s, ',')[i])).None?;
        Err(e)
      case Ok(values) => Ok(PerAxis(values))
  }

  /** [parse_chunk(p) for p in parts], failing at the first piece that fails. */
  function ParseLevels(parts: seq<string>): (r: Result<seq<Level>, Error>)
    ensures r.Ok? <==> forall i :: 0 <= i < |parts| ==> ParseChunk(parts[i]).Ok?
    ensures r.Err? ==> r.error.NotAnInteger?
    ensures r.Ok? ==> (|r.value| == |parts| &&
      forall i :: 0 <= i < |parts| ==> r.value[i] == ParseChunk(parts[i]).value)
    decreases |parts|
  {
    if parts == [] then Ok([])
    else
      var first := ParseChunk(parts[0]);
      var rest := ParseLevels(parts[1..]);
      if first.Err? then Err(first.error)
      else if rest.Err? then rest
      else
        assert forall i :: 1 <= i < |parts| ==> parts[1..][i - 1] == parts[i];
        Ok([first.value] + rest.value)
  }

  /** parse_scales(s): exactly one level per semicolon-separated segment, in order. */
  function ParseScales(s: string): (r: Result<seq<Level>, Error>)
    ensures r.Ok? <==> forall i :: 0 <= i < |Split(s, ';')| ==> ParseChunk(Split(s, ';')[i]).Ok?
    ensures r.Err? ==> r.error.NotAnInteger?
    ensures r.Ok? ==> (|r.value| == |Split(s, ';')| &&
      forall i :: 0 <= i < |r.value| ==> r.value[i] == ParseChunk(Split(s, ';')[i]).value)
  {
    var segments := Split(s, ';');
    var r := ParseLevels(segments);
    assert r.Ok? <==> forall i :: 0 <= i < |segments| ==> ParseChunk(segments[i]).Ok?;
    assert segments == Split(s, ';');
    r
  }

  /** The text a user writes for a level: str(n), or the integers joined by commas. */
  function RenderLevel(level: Level): string {
    match level
    case Scalar(n) => IntToString(n)
    case PerAxis(values) => Join(RenderInts(values), ',')
  }

  function RenderInts(values: seq<int>): (r: seq<string>)
    ensures |r| == |values| && forall i :: 0 <= i < |values| ==> r[i] == IntToString(values[i])
  {
    seq(|values|, i requires 0 <= i < |values| => IntToString(values[i]))
  }

  /** The levels joined by semicolons. */
  function RenderScales(levels: seq<Level>): string {
    Join(seq(|levels|, i requires 0 <= i < |levels| => RenderLevel(levels[i])), ';')
  }

  /** Levels whose rendering parse_chunk reads back as the same level: a vector of
      one integer is written like a scalar, and an empty vector as empty text. */
  predicate Canonical(level: Level) {
    level.Scalar? || |level.values| >= 2
  }

  /** Levels that str() can write: no integer has more digits than the limit. */
  predicate Writable(level: Level) {
    match level
    case Scalar(n) => WithinDigitLimit(n)
    case PerAxis(values) => forall i :: 0 <= i < |values| ==> WithinDigitLimit(values[i])
  }

  lemma NoSeparatorInIntToString(n: int, c: char)
    requires !IsDigit(c) && c != '-'
    ensures c !in IntToString(n)
  {
    var r := IntToString(n);
    assert forall i :: 0 <= i < |r| ==> r[i] != c;
  }

  /** Re-parsing a rendered level gives the level back. */
  lemma ParseRenderedLevel(level: Level)
    requires Canonical(level) && Writable(level)
    ensures ParseChunk(RenderLevel(level)) == Ok(level)
  {
    match level
    case Scalar(n) =>
      PyIntOfIntToString(n);
    case PerAxis(values) =>
      ParseRenderedVector(values);
  }

  lemma ParseRenderedVector(values: seq<int>)
    requires |values| >= 2
    requires forall i :: 0 <= i < |values| ==> WithinDigitLimit(values[i])
    ensures ParseChunk(Join(RenderInts(values), ',')) == Ok(PerAxis(values))
  {
    var pieces := RenderInts(values);
    var text := Join(pieces, ',');
    forall i | 0 <= i < |pieces| ensures ',' !in pieces[i] {
      NoSeparatorInIntToString(values[i], ',');
    }
    CommaDefeatsInt(pieces);
    SplitJoin(pieces, ',');
    forall i | 0 <= i < |pieces| ensures PyInt(Strip(pieces[i])) == Some(values[i]) {
      StripOfIntToString(values[i]);
      PyIntOfIntToString(values[i]);
    }
    var parsed := ParseInts(pieces);
    assert parsed.Ok?;
    assert parsed.value == values;
  }

  /** The comma between the first two pieces keeps int() from reading the text whole. */
  lemma CommaDefeatsInt(pieces: seq<string>)
    requires |pieces| >= 2
    ensures PyInt(Join(pieces, ',')).None?
  {
    var text := Join(pieces, ',');
    assert text == pieces[0] + [','] + Join(pieces[1..], ',');
    assert text[|pieces[0]|] == ',';
    if PyInt(text).Some? {
      AcceptedCharacters(text);
      assert false;
    }
  }

  /** int() refuses an information separator that strip() removes, so such text
      is read through the vector branch: parse_chunk("\x1c5") is [5], not 5. */
  lemma SeparatorReadsAsVector()
    ensures PyInt("\U{1C}5").None?
    ensures ParseChunk("\U{1C}5") == Ok(PerAxis([5]))
  {
    var text := "\U{1C}5";
    SeparatorIsNotIntSpace();
    assert Split(text, ',') == [text] by {
      SplitNoSeparator(text, ',');
    }
    var parsed := ParseInts([text]);
    assert PyInt(Strip([text][0])) == Some(5);
    assert parsed.Ok? && |parsed.value| == 1 && parsed.value[0] == 5;
    assert parsed.value == [5];
  }

  /** A numeral of more digits than int() accepts is refused whole and again as the
      only piece of the vector branch: parse_chunk("1" * 4301) raises ValueError. */
  lemma ParseChunkRefusesLongNumeral(s: string)
    requires AllDigits(s) && |s| > MaxStrDigits
    ensures ParseChunk(s) == Err(NotAnInteger(s))
  {
    PyIntRefusesLongNumerals(s);
    assert ',' !in s by {
      assert forall i :: 0 <= i < |s| ==> s[i] != ',';
    }
    SplitNoSeparator(s, ',');
    StripUnchanged(s, StrBlanks);
  }

  /** A one-element vector renders as a bare integer and is read back as a scalar. */
  lemma SingletonReadsAsScalar(n: int)
    requires WithinDigitLimit(n)
    ensures ParseChunk(RenderLevel(PerAxis([n]))) == Ok(Scalar(n))
  {
    assert RenderInts([n]) == [IntToString(n)];
    PyIntOfIntToString(n);
  }

  lemma NoSemicolonInLevel(level: Level)
    ensures ';' !in RenderLevel(level)
  {
    match level
    case Scalar(n) =>
      NoSeparatorInIntToString(n, ';');
    case PerAxis(values) =>
      var pieces := RenderInts(values);
      forall i | 0 <= i < |pieces| ensures ';' !in pieces[i] {
        NoSeparatorInIntToString(values[i], ';');
      }
      AbsentFromJoin(pieces, ',', ';');
  }

  /** Rendering a non-empty list of levels and parsing it with parse_scales gives
      the same levels back. */
  lemma ParseRenderedScales(levels: seq<Level>)
    requires |levels| >= 1
    requires forall i :: 0 <= i < |levels| ==> Canonical(levels[i]) && Writable(levels[i])
    ensures ParseScales(RenderScales(levels)) == Ok(levels)
  {
    var pieces := seq(|levels|, i requires 0 <= i < |levels| => RenderLevel(levels[i]));
    forall i | 0 <= i < |pieces| ensures ';' !in pieces[i] && ParseChunk(pieces[i]) == Ok(levels[i]) {
      NoSemicolonInLevel(levels[i]);
      ParseRenderedLevel(levels[i]);
    }
    SplitJoin(pieces, ';');
    var parsed := ParseLevels(pieces);
    assert parsed.Ok?;
    assert parsed.value == levels;
  }
}
