/** The generated characterization schema
    (`characterization_data_structure.py`): PXRD measurements and weighings
    per experiment, decoded from and encoded to JSON. */
module CharacterizationSchema {
  import opened Wrappers
  import opened Json
  import opened Convert

  datatype Unit = Centimeter | Gram | Meter | Microgram | Milligram | Millimeter

  function UnitValue(u: Unit): string
  {
    match u
    case Centimeter => "centimeter"
    case Gram => "gram"
    case Meter => "meter"
    case Microgram => "microgram"
    case Milligram => "milligram"
    case Millimeter => "millimeter"
  }

  /** `Unit(s)`. */
  function UnitOf(s: string): (r: Option<Unit>)
    ensures r.Some? ==> UnitValue(r.value) == s
  {
    if s == "centimeter" then Some(Centimeter)
    else if s == "gram" then Some(Gram)
    else if s == "meter" then Some(Meter)
    else if s == "microgram" then Some(Microgram)
    else if s == "milligram" then Some(Milligram)
    else if s == "millimeter" then Some(Millimeter)
    else None
  }

  lemma UnitRoundTrip(u: Unit)
    ensures UnitOf(UnitValue(u)) == Some(u)
  {
  }

  datatype SampleHolderType = HilgenbergGlassNo14Capillary | KaptonFilms

  function SampleHolderTypeValue(t: SampleHolderType): string
  {
    match t
    case HilgenbergGlassNo14Capillary => "HILGENBERG_GLASS_NO_14_CAPILLARY"
    case KaptonFilms => "KAPTON_FILMS"
  }

  function SampleHolderTypeOf(s: string): (r: Option<SampleHolderType>)
    ensures r.Some? ==> SampleHolderTypeValue(r.value) == s
  {
    if s == "HILGENBERG_GLASS_NO_14_CAPILLARY" then Some(HilgenbergGlassNo14Capillary)
    else if s == "KAPTON_FILMS" then Some(KaptonFilms)
    else None
  }

  lemma SampleHolderTypeRoundTrip(t: SampleHolderType)
    ensures SampleHolderTypeOf(SampleHolderTypeValue(t)) == Some(t)
  {
  }

  datatype XRaySource = CoKAlpha1 | CuKAlpha1

  function XRaySourceValue(x: XRaySource): string
  {
    match x
    case CoKAlpha1 => "Co Kα1"
    case CuKAlpha1 => "Cu Kα1"
  }

  function XRaySourceOf(s: string): (r: Option<XRaySource>)
    ensures r.Some? ==> XRaySourceValue(r.value) == s
  {
    if s == "Co Kα1" then Some(CoKAlpha1)
    else if s == "Cu Kα1" then Some(CuKAlpha1)
    else None
  }

  lemma XRaySourceRoundTrip(x: XRaySource)
    ensures XRaySourceOf(XRaySourceValue(x)) == Some(x)
  {
  }

  // ---------------------------------------------------------------------
  // Classes

  datatype Quantity = Quantity(unit: Unit, value: real)

  function QuantityFromJson(x: Json): Result<Quantity>
  {
    if !x.Obj? then Err(AssertionError)
    else
      var unit :- FromEnum(UnitOf, Get(x.fields, "Unit"));
      var value :- FromFloat(Get(x.fields, "Value"));
      Ok(Quantity(unit, value))
  }

  /** A quantity needs an object whose `Unit` is one of the unit values and
      whose `Value` is a number other than a boolean; a bad unit is a
      `ValueError`, anything else an `AssertionError`. */
  lemma QuantityFromJsonSpec(x: Json)
    ensures QuantityFromJson(x).Ok? <==>
              x.Obj? && Get(x.fields, "Unit").Str? && UnitOf(Get(x.fields, "Unit").s).Some?
              && (Get(x.fields, "Value").Int? || Get(x.fields, "Value").Float?)
    ensures QuantityFromJson(x).Err? && x.Obj? && FromEnum(UnitOf, Get(x.fields, "Unit")).Err? ==>
              QuantityFromJson(x).error.ValueError?
    ensures QuantityFromJson(x).Err? && !(x.Obj? && FromEnum(UnitOf, Get(x.fields, "Unit")).Err?) ==>
              QuantityFromJson(x).error == AssertionError
  {
  }

  function QuantityToJson(q: Quantity): (r: Json)
    ensures r.Obj? && r.fields.Keys == {"Unit", "Value"}
  {
    Obj(map["Unit" := Str(UnitValue(q.unit)), "Value" := Float(q.value)])
  }

  lemma QuantityRoundTrip(q: Quantity)
    ensures QuantityFromJson(QuantityToJson(q)) == Ok(q)
  {
    UnitRoundTrip(q.unit);
  }

  datatype SampleHolder = SampleHolder(diameter: Quantity, kind: SampleHolderType)

  function SampleHolderFromJson(x: Json): Result<SampleHolder>
  {
    if !x.Obj? then Err(AssertionError)
    else
      var diameter :- QuantityFromJson(Get(x.fields, "Diameter"));
      var kind :- FromEnum(SampleHolderTypeOf, Get(x.fields, "Type"));
      Ok(SampleHolder(diameter, kind))
  }

  function SampleHolderToJson(h: SampleHolder): (r: Json)
    ensures r.Obj? && r.fields.Keys == {"Diameter", "Type"}
  {
    Obj(map["Diameter" := QuantityToJson(h.diameter), "Type" := Str(SampleHolderTypeValue(h.kind))])
  }

  lemma SampleHolderRoundTrip(h: SampleHolder)
    ensures SampleHolderFromJson(SampleHolderToJson(h)) == Ok(h)
  {
    QuantityRoundTrip(h.diameter);
    SampleHolderTypeRoundTrip(h.kind);
  }

  datatype Pxrd = Pxrd(otherMetadata: Option<string>, relativeFilePath: string, sampleHolder: SampleHolder, xRaySource: XRaySource)

  function PxrdFromJson(x: Json): Result<Pxrd>
  {
    if !x.Obj? then Err(AssertionError)
    else
      var otherMetadata :- FromOptional(FromStr, Get(x.fields, "OtherMetadata"));
      var relativeFilePath :- FromStr(Get(x.fields, "RelativeFilePath"));
      var sampleHolder :- SampleHolderFromJson(Get(x.fields, "SampleHolder"));
      var xRaySource :- FromEnum(XRaySourceOf, Get(x.fields, "XRaySource"));
      Ok(Pxrd(otherMetadata, relativeFilePath, sampleHolder, xRaySource))
  }

  function StrJson(s: string): Json { Str(s) }

  const PxrdKeys: set<string> := {"OtherMetadata", "RelativeFilePath", "SampleHolder", "XRaySource"}

  function PxrdField(p: Pxrd, key: string): Option<Json>
  {
    if key == "OtherMetadata" then MapOption(p.otherMetadata, StrJson)
    else if key == "RelativeFilePath" then Some(Str(p.relativeFilePath))
    else if key == "SampleHolder" then Some(SampleHolderToJson(p.sampleHolder))
    else if key == "XRaySource" then Some(Str(XRaySourceValue(p.xRaySource)))
    else None
  }

  /** `Pxrd.to_dict`: `OtherMetadata` only when it is not `None`. */
  function PxrdToJson(p: Pxrd): (r: Json)
    ensures r.Obj? && "RelativeFilePath" in r.fields && "SampleHolder" in r.fields && "XRaySource" in r.fields
    ensures "OtherMetadata" in r.fields <==> p.otherMetadata.Some?
  {
    Obj(Present(PxrdKeys, PxrdField, p))
  }

  lemma PxrdRoundTrip(p: Pxrd)
    ensures PxrdFromJson(PxrdToJson(p)) == Ok(p)
  {
    var m := PxrdToJson(p).fields;
    assert FromOptional(FromStr, Get(m, "OtherMetadata")) == Ok(p.otherMetadata) by {
      GetPresent(PxrdKeys, PxrdField, p, "OtherMetadata");
      OptionalRoundTrip(FromStr, StrJson, p.otherMetadata);
    }
    SampleHolderRoundTrip(p.sampleHolder);
    XRaySourceRoundTrip(p.xRaySource);
  }

  datatype Weighing = Weighing(weight: Quantity)

  function WeighingFromJson(x: Json): Result<Weighing>
  {
    if !x.Obj? then Err(AssertionError)
    else
      var weight :- QuantityFromJson(Get(x.fields, "Weight"));
      Ok(Weighing(weight))
  }

  function WeighingToJson(w: Weighing): (r: Json)
    ensures r.Obj? && r.fields.Keys == {"Weight"}
  {
    Obj(map["Weight" := QuantityToJson(w.weight)])
  }

  lemma WeighingRoundTrip(w: Weighing)
    ensures WeighingFromJson(WeighingToJson(w)) == Ok(w)
  {
    QuantityRoundTrip(w.weight);
  }

  datatype CharacterizationClass = CharacterizationClass(pxrd: seq<Pxrd>, weight: seq<Weighing>)

  function ClassFromJson(x: Json): Result<CharacterizationClass>
  {
    if !x.Obj? then Err(AssertionError)
    else
      var pxrd :- FromList(PxrdFromJson, Get(x.fields, "Pxrd"));
      var weight :- FromList(WeighingFromJson, Get(x.fields, "Weight"));
      Ok(CharacterizationClass(pxrd, weight))
  }

  function ClassToJson(c: CharacterizationClass): (r: Json)
    ensures r.Obj? && r.fields.Keys == {"Pxrd", "Weight"}
  {
    Obj(map["Pxrd" := Arr(EncodeAll(PxrdToJson, c.pxrd)), "Weight" := Arr(EncodeAll(WeighingToJson, c.weight))])
  }

  lemma ClassRoundTrip(c: CharacterizationClass)
    ensures ClassFromJson(ClassToJson(c)) == Ok(c)
  {
    forall i | 0 <= i < |c.pxrd| ensures PxrdFromJson(PxrdToJson(c.pxrd[i])) == Ok(c.pxrd[i]) {
      PxrdRoundTrip(c.pxrd[i]);
    }
    forall i | 0 <= i < |c.weight| ensures WeighingFromJson(WeighingToJson(c.weight[i])) == Ok(c.weight[i]) {
      WeighingRoundTrip(c.weight[i]);
    }
    ListRoundTrip(PxrdFromJson, PxrdToJson, c.pxrd);
    ListRoundTrip(WeighingFromJson, WeighingToJson, c.weight);
  }

  datatype CharacterizationEntry = CharacterizationEntry(characterization: CharacterizationClass, experimentId: string)

  function EntryFromJson(x: Json): Result<CharacterizationEntry>
  {
    if !x.Obj? then Err(AssertionError)
    else
      var characterization :- ClassFromJson(Get(x.fields, "Characterization"));
      var experimentId :- FromStr(Get(x.fields, "ExperimentId"));
      Ok(CharacterizationEntry(characterization, experimentId))
  }

  function EntryToJson(e: CharacterizationEntry): (r: Json)
    ensures r.Obj? && r.fields.Keys == {"Characterization", "ExperimentId"}
    ensures r.fields["ExperimentId"] == Str(e.experimentId)
  {
    Obj(map["Characterization" := ClassToJson(e.characterization), "ExperimentId" := Str(e.experimentId)])
  }

  lemma EntryRoundTrip(e: CharacterizationEntry)
    ensures EntryFromJson(EntryToJson(e)) == Ok(e)
  {
    ClassRoundTrip(e.characterization);
  }

  datatype Characterization = Characterization(productCharacterization: seq<CharacterizationEntry>)

  /** `characterization_from_dict`. */
  function CharacterizationFromJson(x: Json): Result<Characterization>
  {
    if !x.Obj? then Err(AssertionError)
    else
      var entries :- FromList(EntryFromJson, Get(x.fields, "ProductCharacterization"));
      Ok(Characterization(entries))
  }

  /** `characterization_to_dict`: the entries in order. */
  function CharacterizationToJson(c: Characterization): (r: Json)
    ensures r.Obj? && r.fields.Keys == {"ProductCharacterization"}
    ensures r.fields["ProductCharacterization"].Arr?
    ensures var items := r.fields["ProductCharacterization"].items;
            |items| == |c.productCharacterization|
            && forall i :: 0 <= i < |items| ==> items[i] == EntryToJson(c.productCharacterization[i])
  {
    Obj(map["ProductCharacterization" := Arr(EncodeAll(EntryToJson, c.productCharacterization))])
  }

  /** A characterization document reads back as written, entries in the
      same order. */
  lemma CharacterizationRoundTrip(c: Characterization)
    ensures CharacterizationFromJson(CharacterizationToJson(c)) == Ok(c)
  {
    forall i | 0 <= i < |c.productCharacterization|
      ensures EntryFromJson(EntryToJson(c.productCharacterization[i])) == Ok(c.productCharacterization[i])
    {
      EntryRoundTrip(c.productCharacterization[i]);
    }
    ListRoundTrip(EntryFromJson, EntryToJson, c.productCharacterization);
  }
}
