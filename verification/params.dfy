/** `getDraftParam`: the four Draft preferences the SVG export reads. */
module DraftParams {
  import opened Errors

  /** The stored preferences of the Draft module: string-valued and float-valued entries. */
  datatype Prefs = Prefs(strings: map<string, string>, floats: map<string, real>)

  /** A preference value or a default: a string or a float. */
  datatype ParamValue = StringValue(s: string) | FloatValue(r: real)

  /** The three dash-pattern preferences, read as strings. */
  const DashParams: set<string> := {"svgDashedLine", "svgDottedLine", "svgDashdotLine"}

  /** The maximum segment length of a discretised curve, read as a float. */
  const Discretization: string := "svgDiscretization"

  /** `GetString(name, default)`: the stored string, else the default. */
  function GetString(prefs: Prefs, name: string, default: ParamValue): ParamValue
  {
    if name in prefs.strings then StringValue(prefs.strings[name]) else default
  }

  /** `GetFloat(name, default)`: the stored float, else the default. */
  function GetFloat(prefs: Prefs, name: string, default: ParamValue): ParamValue
  {
    if name in prefs.floats then FloatValue(prefs.floats[name]) else default
  }

  function GetDraftParam(prefs: Prefs, name: string, default: ParamValue): (r: Result<ParamValue>)
    ensures r.Err? <==> name !in DashParams && name != Discretization
    ensures r.Err? ==> r.error == ValueError("Unknown parameter name " + name)
    ensures name in DashParams && default.StringValue? ==> r.Ok? && r.value.StringValue?
    ensures name in DashParams && name in prefs.strings ==> r == Ok(StringValue(prefs.strings[name]))
    ensures name in DashParams && name !in prefs.strings ==> r == Ok(default)
    ensures name == Discretization && default.FloatValue? ==> r.Ok? && r.value.FloatValue?
    ensures name == Discretization && default != FloatValue(0.0) ==> r.Ok? && r.value != FloatValue(0.0)
    ensures name == Discretization && name in prefs.floats && prefs.floats[name] != 0.0 ==> r == Ok(FloatValue(prefs.floats[name]))
    ensures name == Discretization && (name !in prefs.floats || prefs.floats[name] == 0.0) ==> r == Ok(default)
  {
    if name in DashParams then
      Ok(GetString(prefs, name, default))
    else if name == Discretization then
      var value := GetFloat(prefs, Discretization, default);
      if value == FloatValue(0.0) then Ok(default) else Ok(value)
    else
      Err(ValueError("Unknown parameter name " + name))
  }
}
