/** The generated procedure schema (`procedure_data_structure.py`): one
    datatype per class, `from_dict` as a decoder from JSON that can fail,
    and `to_dict` as an encoder that omits optional fields holding `None`.
    A `type` field is called `kind` here. */
module ProcedureSchema {
  import opened Wrappers
  import opened Json
  import opened Convert

  // ---------------------------------------------------------------------
  // Enumerations

  datatype AmountUnit =
    | Bar | Celsius | Centilitre | Centimeter | Day | Decilitre | Dimensionless | Gram | Hour
    | Item | Kelvin | Kilogram | Litre | Meter | Microgram | Microlitre | Micromole | Milligram
    | Millilitre | Millimeter | Millimole | Millisecond | Minute | Mole | Ohm | Pascal | Second
    | Ton | Week

  function AmountUnitValue(u: AmountUnit): string
  {
    match u
    case Bar => "bar"
    case Celsius => "celsius"
    case Centilitre => "centilitre"
    case Centimeter => "centimeter"
    case Day => "day"
    case Decilitre => "decilitre"
    case Dimensionless => "dimensionless"
    case Gram => "gram"
    case Hour => "hour"
    case Item => "item"
    case Kelvin => "kelvin"
    case Kilogram => "kilogram"
    case Litre => "litre"
    case Meter => "meter"
    case Microgram => "microgram"
    case Microlitre => "microlitre"
    case Micromole => "micromole"
    case Milligram => "milligram"
    case Millilitre => "millilitre"
    case Millimeter => "millimeter"
    case Millimole => "millimole"
    case Millisecond => "millisecond"
    case Minute => "minute"
    case Mole => "mole"
    case Ohm => "ohm"
    case Pascal => "pascal"
    case Second => "second"
    case Ton => "ton"
    case Week => "week"
  }

  /** `AmountUnit(s)`: the member with value `s`, looked up among the
      values of the same length. */
  function AmountUnitOf(s: string): Option<AmountUnit>
  {
    match |s|
    case 3 =>
      if s == "bar" then Some(Bar)
      else if s == "day" then Some(Day)
      else if s == "ohm" then Some(Ohm)
      else if s == "ton" then Some(Ton)
      else None
    case 4 =>
      if s == "gram" then Some(Gram)
      else if s == "hour" then Some(Hour)
      else if s == "item" then Some(Item)
      else if s == "mole" then Some(Mole)
      else if s == "week" then Some(Week)
      else None
    case 5 =>
      if s == "litre" then Some(Litre)
      else if s == "meter" then Some(Meter)
      else None
    case 6 =>
      if s == "kelvin" then Some(Kelvin)
      else if s == "minute" then Some(Minute)
      else if s == "pascal" then Some(Pascal)
      else if s == "second" then Some(Second)
      else None
    case 7 =>
      if s == "celsius" then Some(Celsius)
      else None
    case 8 =>
      if s == "kilogram" then Some(Kilogram)
      else None
    case 9 =>
      if s == "decilitre" then Some(Decilitre)
      else if s == "microgram" then Some(Microgram)
      else if s == "micromole" then Some(Micromole)
      else if s == "milligram" then Some(Milligram)
      else if s == "millimole" then Some(Millimole)
      else None
    case 10 =>
      if s == "centilitre" then Some(Centilitre)
      else if s == "centimeter" then Some(Centimeter)
      else if s == "microlitre" then Some(Microlitre)
      else if s == "millilitre" then Some(Millilitre)
      else if s == "millimeter" then Some(Millimeter)
      else None
    case 11 =>
      if s == "millisecond" then Some(Millisecond)
      else None
    case 13 =>
      if s == "dimensionless" then Some(Dimensionless)
      else None
    case _ => None
  }

  lemma AmountUnitRoundTrip(u: AmountUnit)
    ensures AmountUnitOf(AmountUnitValue(u)) == Some(u)
  {
  }

  datatype Gas = Ar
  function GasValue(g: Gas): string { "Ar" }
  function GasOf(s: string): (r: Option<Gas>)
    ensures r.Some? <==> s == GasValue(Ar)
  {
    if s == "Ar" then Some(Ar) else None
  }

  lemma GasRoundTrip(u: Gas)
    ensures GasOf(GasValue(u)) == Some(u)
  {
  }

  datatype PressureUnit = PressurePascal
  function PressureUnitValue(u: PressureUnit): string { "pascal" }
  function PressureUnitOf(s: string): (r: Option<PressureUnit>)
    ensures r.Some? <==> s == PressureUnitValue(PressurePascal)
  {
    if s == "pascal" then Some(PressurePascal) else None
  }

  lemma PressureUnitRoundTrip(u: PressureUnit)
    ensures PressureUnitOf(PressureUnitValue(u)) == Some(u)
  {
  }

  datatype TempUnit = TempCelsius
  function TempUnitValue(u: TempUnit): string { "celsius" }
  function TempUnitOf(s: string): (r: Option<TempUnit>)
    ensures r.Some? <==> s == TempUnitValue(TempCelsius)
  {
    if s == "celsius" then Some(TempCelsius) else None
  }

  lemma TempUnitRoundTrip(u: TempUnit)
    ensures TempUnitOf(TempUnitValue(u)) == Some(u)
  {
  }

  datatype Solvent = Acetone | ChCl3 | Dmf | Et3N | EtOH | MeCN | MeOH | MeOHScCO2 | NaClAq | ScCO2

  function SolventValue(s: Solvent): string
  {
    match s
    case Acetone => "acetone"
    case ChCl3 => "CHCl3"
    case Dmf => "DMF"
    case Et3N => "Et3N"
    case EtOH => "EtOH"
    case MeCN => "MeCN"
    case MeOH => "MeOH"
    case MeOHScCO2 => "MeOH+scCO2"
    case NaClAq => "NaCl aq"
    case ScCO2 => "scCO2"
  }

  /** `Solvent(s)`. */
  function SolventOf(s: string): (r: Option<Solvent>)
    ensures r.Some? ==> SolventValue(r.value) == s
  {
    if s == "acetone" then Some(Acetone)
    else if s == "CHCl3" then Some(ChCl3)
    else if s == "DMF" then Some(Dmf)
    else if s == "Et3N" then Some(Et3N)
    else if s == "EtOH" then Some(EtOH)
    else if s == "MeCN" then Some(MeCN)
    else if s == "MeOH" then Some(MeOH)
    else if s == "MeOH+scCO2" then Some(MeOHScCO2)
    else if s == "NaCl aq" then Some(NaClAq)
    else if s == "scCO2" then Some(ScCO2)
    else None
  }

  lemma SolventRoundTrip(s: Solvent)
    ensures SolventOf(SolventValue(s)) == Some(s)
  {
  }

  datatype XmlType = Add | Dry | EvacuateAndRefill | HeatChill | Sonicate | Wait | WashSolid

  function XmlTypeValue(t: XmlType): string
  {
    match t
    case Add => "Add"
    case Dry => "Dry"
    case EvacuateAndRefill => "EvacuateAndRefill"
    case HeatChill => "HeatChill"
    case Sonicate => "Sonicate"
    case Wait => "Wait"
    case WashSolid => "WashSolid"
  }

  /** `XMLType(s)`. */
  function XmlTypeOf(s: string): (r: Option<XmlType>)
    ensures r.Some? ==> XmlTypeValue(r.value) == s
  {
    if s == "Add" then Some(Add)
    else if s == "Dry" then Some(Dry)
    else if s == "EvacuateAndRefill" then Some(EvacuateAndRefill)
    else if s == "HeatChill" then Some(HeatChill)
    else if s == "Sonicate" then Some(Sonicate)
    else if s == "Wait" then Some(Wait)
    else if s == "WashSolid" then Some(WashSolid)
    else None
  }

  lemma XmlTypeRoundTrip(t: XmlType)
    ensures XmlTypeOf(XmlTypeValue(t)) == Some(t)
  {
  }

  datatype Role = Acid | ActivatingAgent | Base | Catalyst | Ligand | QuenchingAgent | Reagent | SolventRole | Substrate

  function RoleValue(r: Role): string
  {
    match r
    case Acid => "acid"
    case ActivatingAgent => "activating-agent"
    case Base => "base"
    case Catalyst => "catalyst"
    case Ligand => "ligand"
    case QuenchingAgent => "quenching-agent"
    case Reagent => "reagent"
    case SolventRole => "solvent"
    case Substrate => "substrate"
  }

  /** `Role(s)`. */
  function RoleOf(s: string): (r: Option<Role>)
    ensures r.Some? ==> RoleValue(r.value) == s
  {
    if s == "acid" then Some(Acid)
    else if s == "activating-agent" then Some(ActivatingAgent)
    else if s == "base" then Some(Base)
    else if s == "catalyst" then Some(Catalyst)
    else if s == "ligand" then Some(Ligand)
    else if s == "quenching-agent" then Some(QuenchingAgent)
    else if s == "reagent" then Some(Reagent)
    else if s == "solvent" then Some(SolventRole)
    else if s == "substrate" then Some(Substrate)
    else None
  }

  lemma RoleRoundTrip(r: Role)
    ensures RoleOf(RoleValue(r)) == Some(r)
  {
  }

  function StrJson(s: string): Json { Str(s) }

  /** The decoder of an optional string field, `from_union([from_str, from_none])`. */
  function OptStr(x: Json): Result<Option<string>>
  {
    FromOptional(FromStr, x)
  }

  lemma OptStrSpec(x: Json)
    ensures OptStr(x) == if x.Str? then Ok(Some(x.s)) else if x == Null then Ok(None) else Err(AssertionError)
  {
    FromOptionalSpec(FromStr, x);
  }

  lemma OptStrRoundTrip(o: Option<string>)
    ensures OptStr(MapOption(o, StrJson).GetOr(Null)) == Ok(o)
  {
    OptionalRoundTrip(FromStr, StrJson, o);
  }

  // ---------------------------------------------------------------------
  // Hardware and metadata

  datatype ComponentElement = ComponentElement(chemical: Option<string>, comment: Option<string>, id: string, kind: Option<string>)

  function ComponentFromJson(x: Json): Result<ComponentElement>
  {
    if !x.Obj? then Err(AssertionError)
    else
      var chemical :- OptStr(Get(x.fields, "_chemical"));
      var comment :- OptStr(Get(x.fields, "_comment"));
      var id :- FromStr(Get(x.fields, "_id"));
      var kind :- OptStr(Get(x.fields, "_type"));
      Ok(ComponentElement(chemical, comment, id, kind))
  }

  const ComponentKeys: set<string> := {"_chemical", "_comment", "_id", "_type"}

  function ComponentField(c: ComponentElement, key: string): Option<Json>
  {
    if key == "_chemical" then MapOption(c.chemical, StrJson)
    else if key == "_comment" then MapOption(c.comment, StrJson)
    else if key == "_id" then Some(Str(c.id))
    else if key == "_type" then MapOption(c.kind, StrJson)
    else None
  }

  /** `ComponentElement.to_dict`: `_id` always, the others when not `None`. */
  function ComponentToJson(c: ComponentElement): (r: Json)
    ensures r.Obj? && "_id" in r.fields && r.fields["_id"] == Str(c.id)
    ensures "_chemical" in r.fields <==> c.chemical.Some?
    ensures "_comment" in r.fields <==> c.comment.Some?
    ensures "_type" in r.fields <==> c.kind.Some?
  {
    Obj(Present(ComponentKeys, ComponentField, c))
  }

  lemma ComponentRoundTrip(c: ComponentElement)
    ensures ComponentFromJson(ComponentToJson(c)) == Ok(c)
  {
    var m := ComponentToJson(c).fields;
    assert OptStr(Get(m, "_chemical")) == Ok(c.chemical) by {
      GetPresent(ComponentKeys, ComponentField, c, "_chemical");
      OptStrRoundTrip(c.chemical);
    }
    assert OptStr(Get(m, "_comment")) == Ok(c.comment) by {
      GetPresent(ComponentKeys, ComponentField, c, "_comment");
      OptStrRoundTrip(c.comment);
    }
    assert OptStr(Get(m, "_type")) == Ok(c.kind) by {
      GetPresent(ComponentKeys, ComponentField, c, "_type");
      OptStrRoundTrip(c.kind);
    }
  }

  datatype Hardware = Hardware(component: Option<seq<ComponentElement>>)

  function ComponentsFromJson(x: Json): Result<seq<ComponentElement>> { FromList(ComponentFromJson, x) }
  function ComponentsJson(cs: seq<ComponentElement>): Json { Arr(EncodeAll(ComponentToJson, cs)) }

  function HardwareFromJson(x: Json): Result<Hardware>
  {
    if !x.Obj? then Err(AssertionError)
    else
      var component :- FromOptional(ComponentsFromJson, Get(x.fields, "Component"));
      Ok(Hardware(component))
  }

  function HardwareField(h: Hardware, key: string): Option<Json>
  {
    if key == "Component" then MapOption(h.component, ComponentsJson) else None
  }

  function HardwareToJson(h: Hardware): (r: Json)
    ensures r.Obj? && ("Component" in r.fields <==> h.component.Some?)
  {
    Obj(Present({"Component"}, HardwareField, h))
  }

  lemma HardwareRoundTrip(h: Hardware)
    ensures HardwareFromJson(HardwareToJson(h)) == Ok(h)
  {
    GetPresent({"Component"}, HardwareField, h, "Component");
    if h.component.Some? {
      var cs := h.component.value;
      forall i | 0 <= i < |cs| ensures ComponentFromJson(ComponentToJson(cs[i])) == Ok(cs[i]) {
        ComponentRoundTrip(cs[i]);
      }
      ListRoundTrip(ComponentFromJson, ComponentToJson, cs);
    }
    OptionalRoundTrip(ComponentsFromJson, ComponentsJson, h.component);
  }

  datatype Metadata = Metadata(description: string, product: Option<string>, productInchi: Option<string>)

  function MetadataFromJson(x: Json): Result<Metadata>
  {
    if !x.Obj? then Err(AssertionError)
    else
      var description :- FromStr(Get(x.fields, "_description"));
      var product :- OptStr(Get(x.fields, "_product"));
      var productInchi :- OptStr(Get(x.fields, "_product_inchi"));
      Ok(Metadata(description, product, productInchi))
  }

  const MetadataKeys: set<string> := {"_description", "_product", "_product_inchi"}

  function MetadataField(d: Metadata, key: string): Option<Json>
  {
    if key == "_description" then Some(Str(d.description))
    else if key == "_product" then MapOption(d.product, StrJson)
    else if key == "_product_inchi" then MapOption(d.productInchi, StrJson)
    else None
  }

  function MetadataToJson(d: Metadata): (r: Json)
    ensures r.Obj? && "_description" in r.fields
    ensures "_product" in r.fields <==> d.product.Some?
    ensures "_product_inchi" in r.fields <==> d.productInchi.Some?
  {
    Obj(Present(MetadataKeys, MetadataField, d))
  }

  lemma MetadataRoundTrip(d: Metadata)
    ensures MetadataFromJson(MetadataToJson(d)) == Ok(d)
  {
    var m := MetadataToJson(d).fields;
    GetPresent(MetadataKeys, MetadataField, d, "_description");
    assert OptStr(Get(m, "_product")) == Ok(d.product) by {
      GetPresent(MetadataKeys, MetadataField, d, "_product");
      OptStrRoundTrip(d.product);
    }
    assert OptStr(Get(m, "_product_inchi")) == Ok(d.productInchi) by {
      GetPresent(MetadataKeys, MetadataField, d, "_product_inchi");
      OptStrRoundTrip(d.productInchi);
    }
  }

  // ---------------------------------------------------------------------
  // Quantities

  /** The template every quantity-like class appends for the XML writer. */
  const XmlAppend: string := "${Value} ${Unit}"

  const MeasureKeys: set<string> := {"Unit", "Value", "$xml_append"}

  /** The dict of a quantity-like class: the value, the unit when it is
      not `None`, and the `$xml_append` template. */
  function MeasureField(m: (Option<Json>, real), key: string): Option<Json>
  {
    if key == "Unit" then m.0
    else if key == "Value" then Some(Float(m.1))
    else if key == "$xml_append" then Some(Str(XmlAppend))
    else None
  }

  function MeasureToJson(unit: Option<Json>, value: real): (r: Json)
    ensures r.Obj? && "$xml_append" in r.fields && r.fields["$xml_append"] == Str(XmlAppend)
    ensures "Value" in r.fields && r.fields["Value"] == Float(value)
    ensures "Unit" in r.fields <==> unit.Some?
    ensures Get(r.fields, "Unit") == unit.GetOr(Null)
  {
    GetPresent(MeasureKeys, MeasureField, (unit, value), "Unit");
    Obj(Present(MeasureKeys, MeasureField, (unit, value)))
  }

  datatype Quantity = Quantity(unit: Option<AmountUnit>, value: real)

  function AmountUnitFromJson(x: Json): Result<AmountUnit> { FromEnum(AmountUnitOf, x) }
  function AmountUnitJson(u: AmountUnit): Json { Str(AmountUnitValue(u)) }

  lemma AmountUnitOptional(u: Option<AmountUnit>)
    ensures FromOptional(AmountUnitFromJson, MapOption(u, AmountUnitJson).GetOr(Null)) == Ok(u)
  {
    if u.Some? {
      AmountUnitRoundTrip(u.value);
    }
    OptionalRoundTrip(AmountUnitFromJson, AmountUnitJson, u);
  }

  function QuantityFromJson(x: Json): Result<Quantity>
  {
    if !x.Obj? then Err(AssertionError)
    else
      var unit :- FromOptional(AmountUnitFromJson, Get(x.fields, "Unit"));
      var value :- FromFloat(Get(x.fields, "Value"));
      Ok(Quantity(unit, value))
  }

  /** `Quantity.to_dict`: the value, the unit when present, and always the
      `$xml_append` template. */
  function QuantityToJson(q: Quantity): (r: Json)
    ensures r.Obj? && "$xml_append" in r.fields && r.fields["$xml_append"] == Str(XmlAppend)
    ensures "Value" in r.fields && r.fields["Value"] == Float(q.value)
    ensures "Unit" in r.fields <==> q.unit.Some?
  {
    MeasureToJson(MapOption(q.unit, AmountUnitJson), q.value)
  }

  lemma QuantityRoundTrip(q: Quantity)
    ensures QuantityFromJson(QuantityToJson(q)) == Ok(q)
  {
    AmountUnitOptional(q.unit);
  }

  datatype Pressure = Pressure(unit: Option<PressureUnit>, value: real)

  function PressureUnitFromJson(x: Json): Result<PressureUnit> { FromEnum(PressureUnitOf, x) }
  function PressureUnitJson(u: PressureUnit): Json { Str(PressureUnitValue(u)) }

  function PressureFromJson(x: Json): Result<Pressure>
  {
    if !x.Obj? then Err(AssertionError)
    else
      var unit :- FromOptional(PressureUnitFromJson, Get(x.fields, "Unit"));
      var value :- FromFloat(Get(x.fields, "Value"));
      Ok(Pressure(unit, value))
  }

  function PressureToJson(p: Pressure): (r: Json)
    ensures r.Obj? && "$xml_append" in r.fields && r.fields["$xml_append"] == Str(XmlAppend)
    ensures "Unit" in r.fields <==> p.unit.Some?
  {
    MeasureToJson(MapOption(p.unit, PressureUnitJson), p.value)
  }

  lemma PressureRoundTrip(p: Pressure)
    ensures PressureFromJson(PressureToJson(p)) == Ok(p)
  {
    if p.unit.Some? {
      PressureUnitRoundTrip(p.unit.value);
    }
    OptionalRoundTrip(PressureUnitFromJson, PressureUnitJson, p.unit);
  }

  datatype Temperature = Temperature(unit: Option<TempUnit>, value: real)

  function TempUnitFromJson(x: Json): Result<TempUnit> { FromEnum(TempUnitOf, x) }
  function TempUnitJson(u: TempUnit): Json { Str(TempUnitValue(u)) }

  function TemperatureFromJson(x: Json): Result<Temperature>
  {
    if !x.Obj? then Err(AssertionError)
    else
      var unit :- FromOptional(TempUnitFromJson, Get(x.fields, "Unit"));
      var value :- FromFloat(Get(x.fields, "Value"));
      Ok(Temperature(unit, value))
  }

  function TemperatureToJson(t: Temperature): (r: Json)
    ensures r.Obj? && "$xml_append" in r.fields && r.fields["$xml_append"] == Str(XmlAppend)
    ensures "Unit" in r.fields <==> t.unit.Some?
  {
    MeasureToJson(MapOption(t.unit, TempUnitJson), t.value)
  }

  lemma TemperatureRoundTrip(t: Temperature)
    ensures TemperatureFromJson(TemperatureToJson(t)) == Ok(t)
  {
    if t.unit.Some? {
      TempUnitRoundTrip(t.unit.value);
    }
    OptionalRoundTrip(TempUnitFromJson, TempUnitJson, t.unit);
  }

  datatype Time = Time(value: real, unit: Option<AmountUnit>)

  function TimeFromJson(x: Json): Result<Time>
  {
    if !x.Obj? then Err(AssertionError)
    else
      var value :- FromFloat(Get(x.fields, "Value"));
      var unit :- FromOptional(AmountUnitFromJson, Get(x.fields, "Unit"));
      Ok(Time(value, unit))
  }

  function TimeToJson(t: Time): (r: Json)
    ensures r.Obj? && "$xml_append" in r.fields && r.fields["$xml_append"] == Str(XmlAppend)
    ensures "Unit" in r.fields <==> t.unit.Some?
  {
    MeasureToJson(MapOption(t.unit, AmountUnitJson), t.value)
  }

  lemma TimeRoundTrip(t: Time)
    ensures TimeFromJson(TimeToJson(t)) == Ok(t)
  {
    AmountUnitOptional(t.unit);
  }

  // ---------------------------------------------------------------------
  // Steps

  function GasFromJson(x: Json): Result<Gas> { FromEnum(GasOf, x) }
  function GasJson(g: Gas): Json { Str(GasValue(g)) }
  function SolventFromJson(x: Json): Result<Solvent> { FromEnum(SolventOf, x) }
  function SolventJson(s: Solvent): Json { Str(SolventValue(s)) }

  datatype StepEntry = StepEntry(
    comment: Option<string>, vessel: Option<string>, xmlType: XmlType, amount: Option<Quantity>,
    reagent: Option<string>, temp: Option<Temperature>, time: Option<Time>, gas: Option<Gas>,
    solvent: Option<Solvent>, pressure: Option<Pressure>)

  /** `StepEntryClass.from_dict`: a missing or unknown `$xml_type` is a
      `ValueError`. */
  function StepEntryFromJson(x: Json): Result<StepEntry>
  {
    if !x.Obj? then Err(AssertionError)
    else
      var comment :- OptStr(Get(x.fields, "_comment"));
      var vessel :- OptStr(Get(x.fields, "_vessel"));
      var xmlType :- FromEnum(XmlTypeOf, Get(x.fields, "$xml_type"));
      var amount :- FromOptional(QuantityFromJson, Get(x.fields, "_amount"));
      var reagent :- OptStr(Get(x.fields, "_reagent"));
      var temp :- FromOptional(TemperatureFromJson, Get(x.fields, "_temp"));
      var time :- FromOptional(TimeFromJson, Get(x.fields, "_time"));
      var gas :- FromOptional(GasFromJson, Get(x.fields, "_gas"));
      var solvent :- FromOptional(SolventFromJson, Get(x.fields, "_solvent"));
      var pressure :- FromOptional(PressureFromJson, Get(x.fields, "_pressure"));
      Ok(StepEntry(comment, vessel, xmlType, amount, reagent, temp, time, gas, solvent, pressure))
  }

  const StepEntryKeys: set<string> :=
    {"_comment", "_vessel", "$xml_type", "_amount", "_reagent", "_temp", "_time", "_gas", "_solvent", "_pressure"}

  function StepEntryField(e: StepEntry, key: string): Option<Json>
  {
    if key == "_comment" then MapOption(e.comment, StrJson)
    else if key == "_vessel" then MapOption(e.vessel, StrJson)
    else if key == "$xml_type" then Some(Str(XmlTypeValue(e.xmlType)))
    else if key == "_amount" then MapOption(e.amount, QuantityToJson)
    else if key == "_reagent" then MapOption(e.reagent, StrJson)
    else if key == "_temp" then MapOption(e.temp, TemperatureToJson)
    else if key == "_time" then MapOption(e.time, TimeToJson)
    else if key == "_gas" then MapOption(e.gas, GasJson)
    else if key == "_solvent" then MapOption(e.solvent, SolventJson)
    else if key == "_pressure" then MapOption(e.pressure, PressureToJson)
    else None
  }

  /** `StepEntryClass.to_dict`: `$xml_type` always, every other field only
      when it is not `None`. */
  function StepEntryToJson(e: StepEntry): (r: Json)
    ensures r.Obj? && "$xml_type" in r.fields && r.fields["$xml_type"] == Str(XmlTypeValue(e.xmlType))
    ensures ("_comment" in r.fields <==> e.comment.Some?) && ("_vessel" in r.fields <==> e.vessel.Some?)
    ensures ("_amount" in r.fields <==> e.amount.Some?) && ("_reagent" in r.fields <==> e.reagent.Some?)
    ensures ("_temp" in r.fields <==> e.temp.Some?) && ("_time" in r.fields <==> e.time.Some?)
    ensures ("_gas" in r.fields <==> e.gas.Some?) && ("_solvent" in r.fields <==> e.solvent.Some?)
    ensures "_pressure" in r.fields <==> e.pressure.Some?
  {
    Obj(Present(StepEntryKeys, StepEntryField, e))
  }

  /** The string and type fields of a step read back. */
  lemma StepEntryTextRoundTrip(e: StepEntry)
    ensures OptStr(Get(StepEntryToJson(e).fields, "_comment")) == Ok(e.comment)
    ensures OptStr(Get(StepEntryToJson(e).fields, "_vessel")) == Ok(e.vessel)
    ensures FromEnum(XmlTypeOf, Get(StepEntryToJson(e).fields, "$xml_type")) == Ok(e.xmlType)
    ensures OptStr(Get(StepEntryToJson(e).fields, "_reagent")) == Ok(e.reagent)
  {
    var m := StepEntryToJson(e).fields;
    assert OptStr(Get(m, "_comment")) == Ok(e.comment) by {
      GetPresent(StepEntryKeys, StepEntryField, e, "_comment");
      OptStrRoundTrip(e.comment);
    }
    assert OptStr(Get(m, "_vessel")) == Ok(e.vessel) by {
      GetPresent(StepEntryKeys, StepEntryField, e, "_vessel");
      OptStrRoundTrip(e.vessel);
    }
    assert FromEnum(XmlTypeOf, Get(m, "$xml_type")) == Ok(e.xmlType) by {
      GetPresent(StepEntryKeys, StepEntryField, e, "$xml_type");
      XmlTypeRoundTrip(e.xmlType);
    }
    assert OptStr(Get(m, "_reagent")) == Ok(e.reagent) by {
      GetPresent(StepEntryKeys, StepEntryField, e, "_reagent");
      OptStrRoundTrip(e.reagent);
    }
  }

  /** Each measure and condition of a step reads back. */
  lemma StepAmountRoundTrip(e: StepEntry)
    ensures FromOptional(QuantityFromJson, Get(StepEntryToJson(e).fields, "_amount")) == Ok(e.amount)
  {
    GetPresent(StepEntryKeys, StepEntryField, e, "_amount");
    if e.amount.Some? { QuantityRoundTrip(e.amount.value); }
    OptionalRoundTrip(QuantityFromJson, QuantityToJson, e.amount);
  }

  lemma StepTempRoundTrip(e: StepEntry)
    ensures FromOptional(TemperatureFromJson, Get(StepEntryToJson(e).fields, "_temp")) == Ok(e.temp)
  {
    GetPresent(StepEntryKeys, StepEntryField, e, "_temp");
    if e.temp.Some? { TemperatureRoundTrip(e.temp.value); }
    OptionalRoundTrip(TemperatureFromJson, TemperatureToJson, e.temp);
  }

  lemma StepTimeRoundTrip(e: StepEntry)
    ensures FromOptional(TimeFromJson, Get(StepEntryToJson(e).fields, "_time")) == Ok(e.time)
  {
    GetPresent(StepEntryKeys, StepEntryField, e, "_time");
    if e.time.Some? { TimeRoundTrip(e.time.value); }
    OptionalRoundTrip(TimeFromJson, TimeToJson, e.time);
  }

  lemma StepGasRoundTrip(e: StepEntry)
    ensures FromOptional(GasFromJson, Get(StepEntryToJson(e).fields, "_gas")) == Ok(e.gas)
  {
    GetPresent(StepEntryKeys, StepEntryField, e, "_gas");
    if e.gas.Some? { GasRoundTrip(e.gas.value); }
    OptionalRoundTrip(GasFromJson, GasJson, e.gas);
  }

  lemma StepSolventRoundTrip(e: StepEntry)
    ensures FromOptional(SolventFromJson, Get(StepEntryToJson(e).fields, "_solvent")) == Ok(e.solvent)
  {
    GetPresent(StepEntryKeys, StepEntryField, e, "_solvent");
    if e.solvent.Some? { SolventRoundTrip(e.solvent.value); }
    OptionalRoundTrip(SolventFromJson, SolventJson, e.solvent);
  }

  lemma StepPressureRoundTrip(e: StepEntry)
    ensures FromOptional(PressureFromJson, Get(StepEntryToJson(e).fields, "_pressure")) == Ok(e.pressure)
  {
    GetPresent(StepEntryKeys, StepEntryField, e, "_pressure");
    if e.pressure.Some? { PressureRoundTrip(e.pressure.value); }
    OptionalRoundTrip(PressureFromJson, PressureToJson, e.pressure);
  }

  lemma StepEntryRoundTrip(e: StepEntry)
    ensures StepEntryFromJson(StepEntryToJson(e)) == Ok(e)
  {
    StepEntryTextRoundTrip(e);
    StepAmountRoundTrip(e);
    StepTempRoundTrip(e);
    StepTimeRoundTrip(e);
    StepGasRoundTrip(e);
    StepSolventRoundTrip(e);
    StepPressureRoundTrip(e);
  }

  // ---------------------------------------------------------------------
  // Loosely typed members: Optional[Union[float, int, bool, str, List[Any], T]]

  datatype Loose<T> = LNone | LFloat(r: real) | LInt(i: int) | LBool(b: bool) | LStr(s: string) | LList(items: seq<Json>) | LObj(obj: T)

  function Identity(y: Json): Result<Json> { Ok(y) }

  /** `[from_none, from_float, from_int, from_bool, from_str,
      lambda x: from_list(lambda x: x, x), f]`. */
  function LooseDecoders<T>(f: Json -> Result<T>): seq<Json -> Result<Loose<T>>>
  {
    [(y: Json) => Lift(FromNone(y), (_: ()) => LNone),
     (y: Json) => Lift(FromFloat(y), (v: real) => LFloat(v)),
     (y: Json) => Lift(FromInt(y), (i: int) => LInt(i)),
     (y: Json) => Lift(FromBool(y), (b: bool) => LBool(b)),
     (y: Json) => Lift(FromStr(y), (s: string) => LStr(s)),
     (y: Json) => Lift(FromList(Identity, y), (items: seq<Json>) => LList(items)),
     (y: Json) => Lift(f(y), (t: T) => LObj(t))]
  }

  function FromLoose<T>(f: Json -> Result<T>, x: Json): Result<Loose<T>>
  {
    FromUnion(LooseDecoders(f), x)
  }

  lemma DecodeIdentity(items: seq<Json>)
    ensures DecodeAll(Identity, items) == Ok(items)
  {
    var r := DecodeAll(Identity, items);
    assert r.value == items;
  }

  /** The union picks by the JSON value's type; an integer is taken by
      `from_float` before `from_int` is tried, so it becomes a float, and
      only an object reaches `f`. */
  lemma FromLooseSpec<T>(f: Json -> Result<T>, x: Json)
    ensures FromLoose(f, x) == match x
      case Null => Ok(LNone)
      case Bool(b) => Ok(LBool(b))
      case Int(i) => Ok(LFloat(i as real))
      case Float(v) => Ok(LFloat(v))
      case Str(s) => Ok(LStr(s))
      case Arr(items) => Ok(LList(items))
      case Obj(_) => if f(x).Ok? then Ok(LObj(f(x).value)) else Err(AssertionError)
  {
    var ds := LooseDecoders(f);
    match x
    case Null => UnionTake(ds, 0, x);
    case Int(i) => UnionSkip(ds, 0, x); UnionTake(ds, 1, x);
    case Float(v) => UnionSkip(ds, 0, x); UnionTake(ds, 1, x);
    case Bool(b) =>
      UnionSkip(ds, 0, x); UnionSkip(ds, 1, x); UnionSkip(ds, 2, x); UnionTake(ds, 3, x);
    case Str(s) =>
      UnionSkip(ds, 0, x); UnionSkip(ds, 1, x); UnionSkip(ds, 2, x); UnionSkip(ds, 3, x);
      UnionTake(ds, 4, x);
    case Arr(items) =>
      DecodeIdentity(items);
      UnionSkip(ds, 0, x); UnionSkip(ds, 1, x); UnionSkip(ds, 2, x); UnionSkip(ds, 3, x);
      UnionSkip(ds, 4, x); UnionTake(ds, 5, x);
    case Obj(_) =>
      UnionSkip(ds, 0, x); UnionSkip(ds, 1, x); UnionSkip(ds, 2, x); UnionSkip(ds, 3, x);
      UnionSkip(ds, 4, x); UnionSkip(ds, 5, x);
      if f(x).Ok? {
        UnionTake(ds, 6, x);
      } else {
        UnionSkip(ds, 6, x);
      }
  }

  /** The encoding union: `None`, numbers and booleans (`to_float` accepts
      all three), strings and lists are written as they are; an object is
      written with its own `to_dict`. */
  function ToLoose<T>(g: T -> Json, v: Loose<T>): Json
  {
    match v
    case LNone => Null
    case LFloat(r) => Float(r)
    case LInt(i) => Int(i)
    case LBool(b) => Bool(b)
    case LStr(s) => Str(s)
    case LList(items) => Arr(items)
    case LObj(t) => g(t)
  }

  /** A loose value as decoding leaves it: integers become floats, and
      objects are normalised by `n`. */
  function NormalLoose<T>(v: Loose<T>, n: T -> T): (r: Loose<T>)
    ensures !r.LInt?
  {
    match v
    case LInt(i) => LFloat(i as real)
    case LObj(t) => LObj(n(t))
    case _ => v
  }

  /** Decoding an encoded loose value gives its normal form. */
  lemma LooseRoundTrip<T>(f: Json -> Result<T>, g: T -> Json, n: T -> T, v: Loose<T>)
    requires v.LObj? ==> g(v.obj).Obj? && f(g(v.obj)) == Ok(n(v.obj))
    ensures FromLoose(f, ToLoose(g, v)) == Ok(NormalLoose(v, n))
  {
    FromLooseSpec(f, ToLoose(g, v));
  }

  /** A decoded loose value is never an integer, and an object is what
      `f` made of the JSON object. */
  lemma FromLooseShape<T>(f: Json -> Result<T>, x: Json)
    requires FromLoose(f, x).Ok?
    ensures !FromLoose(f, x).value.LInt?
    ensures FromLoose(f, x).value.LObj? ==> x.Obj? && f(x) == Ok(FromLoose(f, x).value.obj)
  {
    FromLooseSpec(f, x);
  }

  function StepFromJson(x: Json): Result<Loose<StepEntry>> { FromLoose(StepEntryFromJson, x) }
  function StepToJson(v: Loose<StepEntry>): Json { ToLoose(StepEntryToJson, v) }
  function SameEntry(e: StepEntry): StepEntry { e }
  function NormalStep(v: Loose<StepEntry>): Loose<StepEntry> { NormalLoose(v, SameEntry) }

  /** A section step given as a JSON integer is read as a float, and a
      boolean stays a boolean. */
  lemma StepNumbers(i: int, b: bool)
    ensures StepFromJson(Int(i)) == Ok(LFloat(i as real))
    ensures StepFromJson(Bool(b)) == Ok(LBool(b))
  {
    FromLooseSpec(StepEntryFromJson, Int(i));
    FromLooseSpec(StepEntryFromJson, Bool(b));
  }

  lemma StepRoundTrip(v: Loose<StepEntry>)
    ensures StepFromJson(StepToJson(v)) == Ok(NormalStep(v))
  {
    if v.LObj? {
      StepEntryRoundTrip(v.obj);
    }
    LooseRoundTrip(StepEntryFromJson, StepEntryToJson, SameEntry, v);
  }

  lemma StepDecodedNormal(x: Json)
    requires StepFromJson(x).Ok?
    ensures NormalStep(StepFromJson(x).value) == StepFromJson(x).value
  {
    FromLooseShape(StepEntryFromJson, x);
  }
  // ---------------------------------------------------------------------
  // Sections

  datatype ProcedureSection = ProcedureSection(step: seq<Loose<StepEntry>>)

  /** The section a converter builds from its list of steps. */
  function SectionOf(steps: seq<StepEntry>): (r: Loose<ProcedureSection>)
    ensures r.LObj? && |r.obj.step| == |steps|
    ensures forall i :: 0 <= i < |steps| ==> r.obj.step[i] == LObj(steps[i])
  {
    LObj(ProcedureSection(seq(|steps|, i requires 0 <= i < |steps| => LObj(steps[i]))))
  }

  function SectionFromJson(x: Json): Result<ProcedureSection>
  {
    if !x.Obj? then Err(AssertionError)
    else
      var step :- FromList(StepFromJson, Get(x.fields, "Step"));
      Ok(ProcedureSection(step))
  }

  function SectionToJson(s: ProcedureSection): (r: Json)
    ensures r.Obj? && "Step" in r.fields && r.fields["Step"].Arr? && |r.fields["Step"].items| == |s.step|
  {
    Obj(map["Step" := Arr(EncodeAll(StepToJson, s.step))])
  }

  function NormalSection(s: ProcedureSection): ProcedureSection
  {
    ProcedureSection(seq(|s.step|, i requires 0 <= i < |s.step| => NormalStep(s.step[i])))
  }

  lemma SectionRoundTrip(s: ProcedureSection)
    ensures SectionFromJson(SectionToJson(s)) == Ok(NormalSection(s))
  {
    var ys := NormalSection(s).step;
    forall i | 0 <= i < |s.step| ensures StepFromJson(StepToJson(s.step[i])) == Ok(ys[i]) {
      StepRoundTrip(s.step[i]);
    }
    DecodeEncodeAll(StepFromJson, StepToJson, s.step, ys);
  }

  lemma SectionDecodedNormal(x: Json)
    requires SectionFromJson(x).Ok?
    ensures NormalSection(SectionFromJson(x).value) == SectionFromJson(x).value
  {
    var steps := SectionFromJson(x).value.step;
    forall i | 0 <= i < |steps| ensures NormalStep(steps[i]) == steps[i] {
      StepDecodedNormal(Get(x.fields, "Step").items[i]);
    }
  }

  datatype ProcedureSections = ProcedureSections(prep: Loose<ProcedureSection>, reaction: Loose<ProcedureSection>, workup: Loose<ProcedureSection>)

  function SectionsFromJson(x: Json): Result<ProcedureSections>
  {
    if !x.Obj? then Err(AssertionError)
    else
      var prep :- FromLoose(SectionFromJson, Get(x.fields, "Prep"));
      var reaction :- FromLoose(SectionFromJson, Get(x.fields, "Reaction"));
      var workup :- FromLoose(SectionFromJson, Get(x.fields, "Workup"));
      Ok(ProcedureSections(prep, reaction, workup))
  }

  function SectionJson(v: Loose<ProcedureSection>): Json { ToLoose(SectionToJson, v) }

  const SectionsKeys: set<string> := {"Prep", "Reaction", "Workup"}

  function SectionsField(p: ProcedureSections, key: string): Option<Json>
  {
    if key == "Prep" then (if p.prep.LNone? then None else Some(SectionJson(p.prep)))
    else if key == "Reaction" then Some(SectionJson(p.reaction))
    else if key == "Workup" then (if p.workup.LNone? then None else Some(SectionJson(p.workup)))
    else None
  }

  /** `ProcedureSectionsClass.to_dict`: `Reaction` always, even when it is
      `None`; `Prep` and `Workup` only when they are not `None`. */
  function SectionsToJson(p: ProcedureSections): (r: Json)
    ensures r.Obj? && "Reaction" in r.fields && r.fields["Reaction"] == SectionJson(p.reaction)
    ensures "Prep" in r.fields <==> !p.prep.LNone?
    ensures "Workup" in r.fields <==> !p.workup.LNone?
  {
    Obj(Present(SectionsKeys, SectionsField, p))
  }

  function NormalSections(p: ProcedureSections): ProcedureSections
  {
    ProcedureSections(NormalLoose(p.prep, NormalSection), NormalLoose(p.reaction, NormalSection), NormalLoose(p.workup, NormalSection))
  }

  lemma SectionsRoundTrip(p: ProcedureSections)
    ensures SectionsFromJson(SectionsToJson(p)) == Ok(NormalSections(p))
  {
    var m := SectionsToJson(p).fields;
    assert FromLoose(SectionFromJson, Get(m, "Prep")) == Ok(NormalLoose(p.prep, NormalSection)) by {
      GetPresent(SectionsKeys, SectionsField, p, "Prep");
      if p.prep.LObj? { SectionRoundTrip(p.prep.obj); }
      LooseRoundTrip(SectionFromJson, SectionToJson, NormalSection, p.prep);
    }
    assert FromLoose(SectionFromJson, Get(m, "Reaction")) == Ok(NormalLoose(p.reaction, NormalSection)) by {
      GetPresent(SectionsKeys, SectionsField, p, "Reaction");
      if p.reaction.LObj? { SectionRoundTrip(p.reaction.obj); }
      LooseRoundTrip(SectionFromJson, SectionToJson, NormalSection, p.reaction);
    }
    assert FromLoose(SectionFromJson, Get(m, "Workup")) == Ok(NormalLoose(p.workup, NormalSection)) by {
      GetPresent(SectionsKeys, SectionsField, p, "Workup");
      if p.workup.LObj? { SectionRoundTrip(p.workup.obj); }
      LooseRoundTrip(SectionFromJson, SectionToJson, NormalSection, p.workup);
    }
  }

  lemma LooseSectionDecodedNormal(x: Json)
    requires FromLoose(SectionFromJson, x).Ok?
    ensures NormalLoose(FromLoose(SectionFromJson, x).value, NormalSection) == FromLoose(SectionFromJson, x).value
  {
    FromLooseShape(SectionFromJson, x);
    if FromLoose(SectionFromJson, x).value.LObj? {
      SectionDecodedNormal(x);
    }
  }

  lemma SectionsDecodedNormal(x: Json)
    requires SectionsFromJson(x).Ok?
    ensures NormalSections(SectionsFromJson(x).value) == SectionsFromJson(x).value
  {
    LooseSectionDecodedNormal(Get(x.fields, "Prep"));
    LooseSectionDecodedNormal(Get(x.fields, "Reaction"));
    LooseSectionDecodedNormal(Get(x.fields, "Workup"));
  }

  // ---------------------------------------------------------------------
  // Reagents

  datatype ReagentElement = ReagentElement(
    cas: Option<string>, comment: Option<string>, id: Option<string>, inchi: Option<string>,
    name: Option<string>, purity: Option<string>, role: Option<Role>)

  function RoleFromJson(x: Json): Result<Role> { FromEnum(RoleOf, x) }
  function RoleJson(r: Role): Json { Str(RoleValue(r)) }

  function ReagentFromJson(x: Json): Result<ReagentElement>
  {
    if !x.Obj? then Err(AssertionError)
    else
      var cas :- OptStr(Get(x.fields, "_cas"));
      var comment :- OptStr(Get(x.fields, "_comment"));
      var id :- OptStr(Get(x.fields, "_id"));
      var inchi :- OptStr(Get(x.fields, "_inchi"));
      var name :- OptStr(Get(x.fields, "_name"));
      var purity :- OptStr(Get(x.fields, "_purity"));
      var role :- FromOptional(RoleFromJson, Get(x.fields, "_role"));
      Ok(ReagentElement(cas, comment, id, inchi, name, purity, role))
  }

  const ReagentKeys: set<string> := {"_cas", "_comment", "_id", "_inchi", "_name", "_purity", "_role"}

  function ReagentField(g: ReagentElement, key: string): Option<Json>
  {
    if key == "_cas" then MapOption(g.cas, StrJson)
    else if key == "_comment" then MapOption(g.comment, StrJson)
    else if key == "_id" then MapOption(g.id, StrJson)
    else if key == "_inchi" then MapOption(g.inchi, StrJson)
    else if key == "_name" then MapOption(g.name, StrJson)
    else if key == "_purity" then MapOption(g.purity, StrJson)
    else if key == "_role" then MapOption(g.role, RoleJson)
    else None
  }

  /** `ReagentElement.to_dict`: exactly the fields that are not `None`. */
  function ReagentToJson(g: ReagentElement): (r: Json)
    ensures r.Obj?
    ensures ("_cas" in r.fields <==> g.cas.Some?) && ("_comment" in r.fields <==> g.comment.Some?)
    ensures ("_id" in r.fields <==> g.id.Some?) && ("_inchi" in r.fields <==> g.inchi.Some?)
    ensures ("_name" in r.fields <==> g.name.Some?) && ("_purity" in r.fields <==> g.purity.Some?)
    ensures "_role" in r.fields <==> g.role.Some?
  {
    Obj(Present(ReagentKeys, ReagentField, g))
  }

  lemma ReagentRoundTrip(g: ReagentElement)
    ensures ReagentFromJson(ReagentToJson(g)) == Ok(g)
  {
    var m := ReagentToJson(g).fields;
    assert OptStr(Get(m, "_cas")) == Ok(g.cas) by {
      GetPresent(ReagentKeys, ReagentField, g, "_cas");
      OptStrRoundTrip(g.cas);
    }
    assert OptStr(Get(m, "_comment")) == Ok(g.comment) by {
      GetPresent(ReagentKeys, ReagentField, g, "_comment");
      OptStrRoundTrip(g.comment);
    }
    assert OptStr(Get(m, "_id")) == Ok(g.id) by {
      GetPresent(ReagentKeys, ReagentField, g, "_id");
      OptStrRoundTrip(g.id);
    }
    assert OptStr(Get(m, "_inchi")) == Ok(g.inchi) by {
      GetPresent(ReagentKeys, ReagentField, g, "_inchi");
      OptStrRoundTrip(g.inchi);
    }
    assert OptStr(Get(m, "_name")) == Ok(g.name) by {
      GetPresent(ReagentKeys, ReagentField, g, "_name");
      OptStrRoundTrip(g.name);
    }
    assert OptStr(Get(m, "_purity")) == Ok(g.purity) by {
      GetPresent(ReagentKeys, ReagentField, g, "_purity");
      OptStrRoundTrip(g.purity);
    }
    assert FromOptional(RoleFromJson, Get(m, "_role")) == Ok(g.role) by {
      GetPresent(ReagentKeys, ReagentField, g, "_role");
      if g.role.Some? { RoleRoundTrip(g.role.value); }
      OptionalRoundTrip(RoleFromJson, RoleJson, g.role);
    }
  }

  datatype Reagents = Reagents(reagent: seq<ReagentElement>)

  function ReagentsFromJson(x: Json): Result<Reagents>
  {
    if !x.Obj? then Err(AssertionError)
    else
      var reagent :- FromList(ReagentFromJson, Get(x.fields, "Reagent"));
      Ok(Reagents(reagent))
  }

  function ReagentsToJson(g: Reagents): (r: Json)
    ensures r.Obj? && "Reagent" in r.fields && r.fields["Reagent"].Arr? && |r.fields["Reagent"].items| == |g.reagent|
  {
    Obj(map["Reagent" := Arr(EncodeAll(ReagentToJson, g.reagent))])
  }

  lemma ReagentsRoundTrip(g: Reagents)
    ensures ReagentsFromJson(ReagentsToJson(g)) == Ok(g)
  {
    forall i | 0 <= i < |g.reagent| ensures ReagentFromJson(ReagentToJson(g.reagent[i])) == Ok(g.reagent[i]) {
      ReagentRoundTrip(g.reagent[i]);
    }
    ListRoundTrip(ReagentFromJson, ReagentToJson, g.reagent);
  }

  // ---------------------------------------------------------------------
  // The synthesis document

  datatype SynthesisElement = SynthesisElement(hardware: Option<Hardware>, metadata: Metadata, procedure: Loose<ProcedureSections>, reagents: Reagents)

  function ElementFromJson(x: Json): Result<SynthesisElement>
  {
    if !x.Obj? then Err(AssertionError)
    else
      var hardware :- FromOptional(HardwareFromJson, Get(x.fields, "Hardware"));
      var metadata :- MetadataFromJson(Get(x.fields, "Metadata"));
      var procedure :- FromLoose(SectionsFromJson, Get(x.fields, "Procedure"));
      var reagents :- ReagentsFromJson(Get(x.fields, "Reagents"));
      Ok(SynthesisElement(hardware, metadata, procedure, reagents))
  }

  const ElementKeys: set<string> := {"Hardware", "Metadata", "Procedure", "Reagents"}

  function ElementField(e: SynthesisElement, key: string): Option<Json>
  {
    if key == "Hardware" then MapOption(e.hardware, HardwareToJson)
    else if key == "Metadata" then Some(MetadataToJson(e.metadata))
    else if key == "Procedure" then Some(ToLoose(SectionsToJson, e.procedure))
    else if key == "Reagents" then Some(ReagentsToJson(e.reagents))
    else None
  }

  /** `SynthesisElement.to_dict`: `Hardware` only when present; `Procedure`
      always, `null` when it is `None`. */
  function ElementToJson(e: SynthesisElement): (r: Json)
    ensures r.Obj? && "Metadata" in r.fields && "Reagents" in r.fields
    ensures "Procedure" in r.fields && r.fields["Procedure"] == ToLoose(SectionsToJson, e.procedure)
    ensures "Hardware" in r.fields <==> e.hardware.Some?
  {
    Obj(Present(ElementKeys, ElementField, e))
  }

  function NormalElement(e: SynthesisElement): SynthesisElement
  {
    e.(procedure := NormalLoose(e.procedure, NormalSections))
  }

  lemma ElementRoundTrip(e: SynthesisElement)
    ensures ElementFromJson(ElementToJson(e)) == Ok(NormalElement(e))
  {
    ElementHardwareRoundTrip(e);
    ElementMetadataRoundTrip(e);
    ElementProcedureRoundTrip(e);
    ElementReagentsRoundTrip(e);
  }

  /** Each member of a synthesis reads back. */
  lemma ElementHardwareRoundTrip(e: SynthesisElement)
    ensures FromOptional(HardwareFromJson, Get(ElementToJson(e).fields, "Hardware")) == Ok(e.hardware)
  {
    GetPresent(ElementKeys, ElementField, e, "Hardware");
    if e.hardware.Some? { HardwareRoundTrip(e.hardware.value); }
    OptionalRoundTrip(HardwareFromJson, HardwareToJson, e.hardware);
  }

  lemma ElementMetadataRoundTrip(e: SynthesisElement)
    ensures MetadataFromJson(Get(ElementToJson(e).fields, "Metadata")) == Ok(e.metadata)
  {
    MetadataRoundTrip(e.metadata);
  }

  lemma ElementProcedureRoundTrip(e: SynthesisElement)
    ensures FromLoose(SectionsFromJson, Get(ElementToJson(e).fields, "Procedure"))
            == Ok(NormalLoose(e.procedure, NormalSections))
  {
    if e.procedure.LObj? { SectionsRoundTrip(e.procedure.obj); }
    LooseRoundTrip(SectionsFromJson, SectionsToJson, NormalSections, e.procedure);
  }

  lemma ElementReagentsRoundTrip(e: SynthesisElement)
    ensures ReagentsFromJson(Get(ElementToJson(e).fields, "Reagents")) == Ok(e.reagents)
  {
    GetPresent(ElementKeys, ElementField, e, "Reagents");
    ReagentsRoundTrip(e.reagents);
  }

  lemma ElementDecodedNormal(x: Json)
    requires ElementFromJson(x).Ok?
    ensures NormalElement(ElementFromJson(x).value) == ElementFromJson(x).value
  {
    var y := Get(x.fields, "Procedure");
    FromLooseShape(SectionsFromJson, y);
    if FromLoose(SectionsFromJson, y).value.LObj? {
      SectionsDecodedNormal(y);
    }
  }

  datatype SynthesisProcedure = SynthesisProcedure(synthesis: seq<SynthesisElement>)

  /** `synthesis_procedure_from_dict`. */
  function ProcedureFromJson(x: Json): Result<SynthesisProcedure>
  {
    if !x.Obj? then Err(AssertionError)
    else
      var synthesis :- FromList(ElementFromJson, Get(x.fields, "Synthesis"));
      Ok(SynthesisProcedure(synthesis))
  }

  /** `synthesis_procedure_to_dict`. */
  function ProcedureToJson(p: SynthesisProcedure): (r: Json)
    ensures r.Obj? && "Synthesis" in r.fields && r.fields["Synthesis"].Arr? && |r.fields["Synthesis"].items| == |p.synthesis|
  {
    Obj(map["Synthesis" := Arr(EncodeAll(ElementToJson, p.synthesis))])
  }

  function NormalProcedure(p: SynthesisProcedure): SynthesisProcedure
  {
    SynthesisProcedure(seq(|p.synthesis|, i requires 0 <= i < |p.synthesis| => NormalElement(p.synthesis[i])))
  }

  /** Writing and reading back a document gives it with its integer steps
      and sections read as floats, in the same order. */
  lemma ProcedureRoundTrip(p: SynthesisProcedure)
    ensures ProcedureFromJson(ProcedureToJson(p)) == Ok(NormalProcedure(p))
  {
    var ys := NormalProcedure(p).synthesis;
    forall i | 0 <= i < |p.synthesis| ensures ElementFromJson(ElementToJson(p.synthesis[i])) == Ok(ys[i]) {
      ElementRoundTrip(p.synthesis[i]);
    }
    DecodeEncodeAll(ElementFromJson, ElementToJson, p.synthesis, ys);
  }

  /** A decoded document is already in normal form. */
  lemma ProcedureDecodedNormal(x: Json)
    requires ProcedureFromJson(x).Ok?
    ensures NormalProcedure(ProcedureFromJson(x).value) == ProcedureFromJson(x).value
  {
    var es := ProcedureFromJson(x).value.synthesis;
    forall i | 0 <= i < |es| ensures NormalElement(es[i]) == es[i] {
      ElementDecodedNormal(Get(x.fields, "Synthesis").items[i]);
    }
  }

  /** So a document read from JSON is written and read back unchanged. */
  lemma ProcedureReread(x: Json)
    requires ProcedureFromJson(x).Ok?
    ensures ProcedureFromJson(ProcedureToJson(ProcedureFromJson(x).value)) == ProcedureFromJson(x)
  {
    ProcedureRoundTrip(ProcedureFromJson(x).value);
    ProcedureDecodedNormal(x);
  }
}
