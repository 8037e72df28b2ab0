/**
 * Dash patterns (`process_custom_linestyle`, `getLineStyle`): the three
 * named styles come from the preferences unscaled; any other value is read
 * as a comma-separated list of numbers and divided by the drawing scale.
 */
module LineStyle {
  import opened Errors
  import opened Strings
  import opened DraftParams

  /** The `linestyle` argument: `None` or another falsy value, a string, or a truthy non-string. */
  datatype StyleArg = NoStyle | StyleText(s: string) | NotAString

  /** The `scale` argument: a number, or a value a float cannot be divided by. */
  datatype Scale = Factor(k: real) | NotANumber

  /** What `float(field)` gives for one field. */
  datatype Parsed = Number(value: real) | NaN | Infinity | Unparsable

  /** No field makes `float` raise `ValueError`. */
  predicate AllParse(fields: seq<string>, parse: string -> Parsed)
  {
    forall i :: 0 <= i < |fields| ==> !parse(fields[i]).Unparsable?
  }

  /** Every field parses to a finite number. */
  predicate AllFinite(fields: seq<string>, parse: string -> Parsed)
  {
    forall i :: 0 <= i < |fields| ==> parse(fields[i]).Number?
  }

  /** The parsed numbers of the fields, in order. */
  function Values(fields: seq<string>, parse: string -> Parsed): (r: seq<real>)
    requires AllFinite(fields, parse)
    ensures |r| == |fields|
  {
    seq(|fields|, i requires 0 <= i < |fields| => parse(fields[i]).value)
  }

  /** `[str(dash / scale) for dash in dashes]`. */
  function ScaledTexts(values: seq<real>, k: real, fmt: real -> string): (r: seq<string>)
    requires k != 0.0
    ensures |r| == |values|
  {
    seq(|values|, i requires 0 <= i < |values| => fmt(values[i] / k))
  }

  /** The case in which a custom style is actually scaled rather than replaced by `none`. */
  predicate WellFormed(s: string, scale: Scale, parse: string -> Parsed)
  {
    ',' in s && AllFinite(Split(s, ','), parse) && scale.Factor? && scale.k != 0.0
  }

  function ProcessCustomLinestyle(linestyle: StyleArg, scale: Scale, parse: string -> Parsed,
                                  fmt: real -> string): (r: Result<string>)
    ensures r.Err? <==> linestyle.NotAString?
    ensures r.Err? ==> r.error == TypeError
    ensures linestyle.NoStyle? || linestyle == StyleText("") ==> r == Ok("none")
    ensures linestyle.StyleText? && ',' !in linestyle.s ==> r == Ok("none")
    ensures linestyle.StyleText? && !AllFinite(Split(linestyle.s, ','), parse) ==> r == Ok("none")
    ensures linestyle.StyleText? && (scale == NotANumber || scale == Factor(0.0)) ==> r == Ok("none")
    ensures linestyle.StyleText? && WellFormed(linestyle.s, scale, parse) ==>
              r == Ok(Join(ScaledTexts(Values(Split(linestyle.s, ','), parse), scale.k, fmt), ','))
  {
    match linestyle
    case NoStyle => Ok("none")
    case NotAString => Err(TypeError)   // `"," in linestyle` raises outside the try block
    case StyleText(s) =>
      if s == "" || ',' !in s then Ok("none")
      else
        var fields := Split(s, ',');
        var dashes := seq(|fields|, i requires 0 <= i < |fields| => parse(fields[i]));
        if exists i :: 0 <= i < |dashes| && dashes[i].Unparsable? then
          Ok("none")   // `float` raised ValueError
        else if (exists i :: 0 <= i < |dashes| && dashes[i].NaN?)
             || (exists i :: 0 <= i < |dashes| && dashes[i].Infinity?) then
          Ok("none")   // "Not a number in line style"
        else
          match scale
          case NotANumber => Ok("none")   // the division raised TypeError
          case Factor(k) =>
            if k == 0.0 then Ok("none")   // ZeroDivisionError
            else
              assert AllFinite(fields, parse) by {
                forall i | 0 <= i < |fields| ensures parse(fields[i]).Number? {
                  assert dashes[i] == parse(fields[i]);
                }
              }
              Ok(Join(ScaledTexts(Values(fields, parse), k, fmt), ','))
  }

  /**
   * Reading a scaled style back: it has as many fields as the input, in
   * order, each the input's number divided by the scale.
   */
  lemma ScaledFields(s: string, scale: Scale, parse: string -> Parsed, fmt: real -> string)
    requires WellFormed(s, scale, parse)
    requires forall x: real :: ',' !in fmt(x)
    ensures ProcessCustomLinestyle(StyleText(s), scale, parse, fmt).Ok?
    ensures var out := Split(ProcessCustomLinestyle(StyleText(s), scale, parse, fmt).value, ',');
            var fields := Split(s, ',');
            && |out| == |fields|
            && forall i :: 0 <= i < |fields| ==> out[i] == fmt(parse(fields[i]).value / scale.k)
  {
    var texts := ScaledTexts(Values(Split(s, ','), parse), scale.k, fmt);
    SplitJoin(texts, ',');
  }

  /** The styles `getLineStyle` looks up by name rather than parsing. */
  predicate IsNamed(linestyle: StyleArg)
  {
    linestyle == StyleText("Dashed") || linestyle == StyleText("Dashdot") || linestyle == StyleText("Dotted")
  }

  /** The preference a named style is read from, and the default kept when it is not stored. */
  function NamedParam(linestyle: StyleArg): (string, string)
    requires IsNamed(linestyle)
  {
    if linestyle == StyleText("Dashed") then ("svgDashedLine", "0.09,0.05")
    else if linestyle == StyleText("Dashdot") then ("svgDashdotLine", "0.09,0.05,0.02,0.05")
    else ("svgDottedLine", "0.02,0.02")
  }

  function GetLineStyle(linestyle: StyleArg, scale: Scale, prefs: Prefs, parse: string -> Parsed,
                        fmt: real -> string): (r: Result<string>)
    ensures IsNamed(linestyle) ==>
              var (param, default) := NamedParam(linestyle);
              r == Ok(if param in prefs.strings then prefs.strings[param] else default)
    ensures !IsNamed(linestyle) ==> r == ProcessCustomLinestyle(linestyle, scale, parse, fmt)
  {
    if IsNamed(linestyle) then
      var (param, default) := NamedParam(linestyle);
      var value := GetDraftParam(prefs, param, StringValue(default));
      Ok(value.value.s)
    else
      ProcessCustomLinestyle(linestyle, scale, parse, fmt)
  }

  /** A named style does not depend on the scale: named patterns are never divided. */
  lemma NamedStyleIgnoresScale(linestyle: StyleArg, a: Scale, b: Scale, prefs: Prefs,
                               parse: string -> Parsed, fmt: real -> string)
    requires IsNamed(linestyle)
    ensures GetLineStyle(linestyle, a, prefs, parse, fmt) == GetLineStyle(linestyle, b, prefs, parse, fmt)
  {
  }
}
