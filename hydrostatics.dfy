/** Hydrostatic lookups by draft: Interpolator.interpolate_hydrostatic and
    Interpolator.get_all_hydrostatic_properties. */
module Hydrostatics {
  import opened Numeric
  import opened Outcomes

  /** The hydrostatic table: one column of values per property name, all indexed by the
      "Draft" column. */
  datatype HydroTable = HydroTable(columns: map<string, seq<real>>)

  const DRAFT: string := "Draft"

  /** The properties get_all_hydrostatic_properties looks up, in its order. */
  const PropertyNames: seq<string> := ["Displacement", "TPC", "MTC", "LCB", "LCF", "KB", "TKM"]

  /** What the loader hands over: a "Draft" column, sorted and without duplicates, and
      every column as long as it. */
  predicate ValidTable(t: HydroTable) {
    && DRAFT in t.columns
    && StrictlyIncreasing(t.columns[DRAFT])
    && forall name :: name in t.columns ==> |t.columns[name]| == |t.columns[DRAFT]|
  }

  function Drafts(t: HydroTable): seq<real>
    requires ValidTable(t)
  {
    t.columns[DRAFT]
  }

  /** The draft lies in [min draft, max draft] of a non-empty table. */
  predicate DraftInRange(t: HydroTable, draft: real)
    requires ValidTable(t)
  {
    |Drafts(t)| > 0 && Drafts(t)[0] <= draft <= Drafts(t)[|Drafts(t)| - 1]
  }

  /** The failure the range check raises: min() of an empty column, or the range error. */
  function RangeError(t: HydroTable, draft: real): Error
    requires ValidTable(t)
  {
    if |Drafts(t)| == 0 then EmptyData else DraftOutOfRange(draft)
  }

  /** interpolate_hydrostatic: the value of one property at a draft. */
  function InterpolateHydrostatic(data: Option<HydroTable>, draft: real, name: string): (r: Result<real>)
    requires data.Some? ==> ValidTable(data.value)
    ensures r.Ok? <==> data.Some? && name in data.value.columns && DraftInRange(data.value, draft)
    ensures r == Err(NotLoaded) <==> data.None?
    ensures data.Some? && name !in data.value.columns ==> r == Err(MissingProperty(name))
    ensures data.Some? && name in data.value.columns && !DraftInRange(data.value, draft) ==>
              r == Err(RangeError(data.value, draft))
  {
    if data.None? then Err(NotLoaded)
    else
      var t := data.value;
      if name !in t.columns then Err(MissingProperty(name))
      else if !DraftInRange(t, draft) then Err(RangeError(t, draft))
      else Ok(Interp(Drafts(t), t.columns[name], draft))
  }

  /** At a tabulated draft the lookup returns that row's value exactly. */
  lemma HydrostaticAtRow(t: HydroTable, name: string, k: nat)
    requires ValidTable(t) && name in t.columns && k < |Drafts(t)|
    ensures InterpolateHydrostatic(Some(t), Drafts(t)[k], name) == Ok(t.columns[name][k])
  {
    InterpAtKnot(Drafts(t), t.columns[name], k);
  }

  /** Between two adjacent rows the result lies between the two rows' values. */
  lemma HydrostaticBetweenRows(t: HydroTable, name: string, k: nat, draft: real)
    requires ValidTable(t) && name in t.columns && k + 1 < |Drafts(t)|
    requires Drafts(t)[k] <= draft <= Drafts(t)[k + 1]
    ensures InterpolateHydrostatic(Some(t), draft, name).Ok?
    ensures var v := InterpolateHydrostatic(Some(t), draft, name).value;
            Min(t.columns[name][k], t.columns[name][k + 1]) <= v <= Max(t.columns[name][k], t.columns[name][k + 1])
  {
    InterpBetween(Drafts(t), t.columns[name], k, draft);
  }

  /** The listed properties whose column the table has. */
  function Listed(t: HydroTable): set<string> {
    set n | n in PropertyNames && n in t.columns
  }

  /** The KM rule: KM = KB + TKM when both are present. */
  function WithKm(props: map<string, real>): map<string, real> {
    if "KB" in props && "TKM" in props then props["KM" := props["KB"] + props["TKM"]] else props
  }

  /** What get_all_hydrostatic_properties returns, stated over the set of listed columns:
      every listed property the table has, interpolated at the draft, plus KM. */
  function AllPropertiesOf(data: Option<HydroTable>, draft: real): (r: Result<map<string, real>>)
    requires data.Some? ==> ValidTable(data.value)
    ensures r.Ok? ==> ("KM" in r.value <==> "KB" in r.value && "TKM" in r.value)
    ensures r.Ok? && "KM" in r.value ==> r.value["KM"] == r.value["KB"] + r.value["TKM"]
  {
    if data.None? then Err(NotLoaded)
    else
      var t := data.value;
      if Listed(t) == {} then Ok(map[])
      else if !DraftInRange(t, draft) then Err(RangeError(t, draft))
      else Ok(WithKm(map n | n in Listed(t) :: Interp(Drafts(t), t.columns[n], draft)))
  }

  /** get_all_hydrostatic_properties holds exactly the listed properties the table has, each
      equal to interpolate_hydrostatic's value, and KM exactly when both KB and TKM are there.
      It fails only when the table is missing, or when some listed property is present and
      the draft is out of range. */
  lemma AllPropertiesContents(data: Option<HydroTable>, draft: real)
    requires data.Some? ==> ValidTable(data.value)
    ensures var r := AllPropertiesOf(data, draft);
            r.Ok? <==> data.Some? && (Listed(data.value) == {} || DraftInRange(data.value, draft))
    ensures var r := AllPropertiesOf(data, draft);
            r.Ok? ==> && r.value.Keys == Listed(data.value) + (if "KB" in Listed(data.value) && "TKM" in Listed(data.value) then {"KM"} else {})
                      && forall n :: n in Listed(data.value) ==> InterpolateHydrostatic(data, draft, n) == Ok(r.value[n])
  {
  }

  /** The listed properties among the first names of PropertyNames that the table has. */
  function ListedIn(t: HydroTable, names: seq<string>): set<string> {
    set n | n in names && n in t.columns
  }

  lemma ListedInSnoc(t: HydroTable, names: seq<string>, x: string)
    ensures ListedIn(t, names + [x]) == ListedIn(t, names) + (if x in t.columns then {x} else {})
  {
  }

  /** Once every listed name has been visited, the collected lookups are the specified map. */
  lemma CollectedMatchesSpec(t: HydroTable, draft: real, properties: map<string, real>)
    requires ValidTable(t)
    requires properties.Keys == ListedIn(t, PropertyNames)
    requires forall n :: n in properties ==>
               n in t.columns && DraftInRange(t, draft) && properties[n] == Interp(Drafts(t), t.columns[n], draft)
    ensures Ok(WithKm(properties)) == AllPropertiesOf(Some(t), draft)
  {
    if Listed(t) != {} {
      var n :| n in Listed(t);
      assert n in properties;
      assert properties == map n | n in Listed(t) :: Interp(Drafts(t), t.columns[n], draft);
    }
  }

  /** get_all_hydrostatic_properties: one lookup per listed property present, then KM. */
  method GetAllHydrostaticProperties(data: Option<HydroTable>, draft: real) returns (r: Result<map<string, real>>)
    requires data.Some? ==> ValidTable(data.value)
    ensures r == AllPropertiesOf(data, draft)
  {
    if data.None? {
      return Err(NotLoaded);
    }
    var t := data.value;
    var properties: map<string, real> := map[];
    var i := 0;
    while i < |PropertyNames|
      invariant 0 <= i <= |PropertyNames|
      invariant properties.Keys == ListedIn(t, PropertyNames[..i])
      invariant forall n :: n in properties ==>
                  n in t.columns && DraftInRange(t, draft) && properties[n] == Interp(Drafts(t), t.columns[n], draft)
    {
      var name := PropertyNames[i];
      assert PropertyNames[..i + 1] == PropertyNames[..i] + [name];
      ListedInSnoc(t, PropertyNames[..i], name);
      if name in t.columns {
        var v := InterpolateHydrostatic(data, draft, name);
        if v.Err? {
          assert name in Listed(t);
          return Err(v.error);
        }
        properties := properties[name := v.value];
      }
      i := i + 1;
    }
    assert PropertyNames[..i] == PropertyNames;
    CollectedMatchesSpec(t, draft, properties);
    if "KB" in properties && "TKM" in properties {
      properties := properties["KM" := properties["KB"] + properties["TKM"]];
    }
    return Ok(properties);
  }
}
