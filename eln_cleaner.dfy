/** The cleaning of the raw Sciformation ELN export
    (`sciformation_cleaner.py`): every record is cut down to whitelisted
    keys, empty records are dropped, reaction roles and units are
    normalised, and the list is optionally truncated. */
module ElnCleaner {
  import opened Wrappers
  import opened Json
  import opened Seqs
  import opened CamelCase

  // ---------------------------------------------------------------------
  // Whitelists

  /** The keys kept of a record, of its reaction properties and of its
      reaction components. */
  datatype Whitelists = Whitelists(item: seq<string>, properties: seq<string>, components: seq<string>)

  /** The three lists as the source spells them.  Three commas are missing,
      and Python joins adjacent string literals, so `modifier` and
      `reactionTitle`, `solventAmount` and `solvent_volume_unit`, and
      `measured`, `elnReaction`, `cdbMolecule` and `rxnRole` each become a
      single name that no key has. */
  const AsWritten: Whitelists := Whitelists(
    ["@id", "nrInLabJournal", "creator", "code", "modifierreactionTitle",
     "reactionStartedWhen", "realizationText", "observationText"],
    ["duration", "reaction_mass_unit", "reaction_volume_unit", "solventAmountsolvent_volume_unit", "temperature"],
    ["moleculeName", "casNr", "mw", "empFormula", "concentration", "concentrationUnit", "smiles", "smilesStereo",
     "inchi", "inchiKey", "density20", "rxnRole", "mass", "massUnit", "volume", "volumeUnit", "amount", "amountUnit",
     "measuredelnReactioncdbMoleculerxnRole", "labNotebookEntryAndRole"])

  /** The three lists with every name on its own line kept separate. */
  const Intended: Whitelists := Whitelists(
    ["@id", "nrInLabJournal", "creator", "code", "modifier", "reactionTitle",
     "reactionStartedWhen", "realizationText", "observationText"],
    ["duration", "reaction_mass_unit", "reaction_volume_unit", "solventAmount", "solvent_volume_unit", "temperature"],
    ["moleculeName", "casNr", "mw", "empFormula", "concentration", "concentrationUnit", "smiles", "smilesStereo",
     "inchi", "inchiKey", "density20", "rxnRole", "mass", "massUnit", "volume", "volumeUnit", "amount", "amountUnit",
     "measured", "elnReaction", "cdbMolecule", "rxnRole", "labNotebookEntryAndRole"])

  /** The whitelisted entries among `keys` whose value is not `None`. */
  function KeptAmong(fields: map<string, Json>, names: seq<string>, keys: set<string>): map<string, Json>
  {
    map k | k in keys && k in fields && k in names && fields[k] != Null :: fields[k]
  }

  /** The whitelisted entries of a record whose value is not `None`. */
  function Kept(fields: map<string, Json>, names: seq<string>): map<string, Json>
  {
    KeptAmong(fields, names, fields.Keys)
  }

  /** As written, no record keeps a `modifier` or a `reactionTitle`. */
  lemma AsWrittenDropsRecordNames(fields: map<string, Json>)
    ensures "modifier" !in Kept(fields, AsWritten.item) && "reactionTitle" !in Kept(fields, AsWritten.item)
  {
    assert "modifier" !in AsWritten.item && "reactionTitle" !in AsWritten.item;
  }

  /** As written, no component keeps a `measured`, an `elnReaction` or a
      `cdbMolecule`. */
  lemma AsWrittenDropsComponentNames(fields: map<string, Json>)
    ensures "measured" !in Kept(fields, AsWritten.components)
    ensures "elnReaction" !in Kept(fields, AsWritten.components)
    ensures "cdbMolecule" !in Kept(fields, AsWritten.components)
  {
    var names := AsWritten.components;
    assert forall i :: 0 <= i < |names| ==> names[i] != "measured" && names[i] != "elnReaction" && names[i] != "cdbMolecule";
  }

  /** As written, a reaction property named `solventAmount` adds nothing. */
  lemma AsWrittenDropsSolventAmount(m: map<string, Json>, p: Json)
    requires p.Obj? && Get(p.fields, "name") == Str("solventAmount")
    ensures AddProperty(AsWritten.properties, m, p) == Ok(m)
  {
    assert "solventAmount" !in AsWritten.properties;
  }

  /** With the lists kept apart, a set `solventAmount` is kept. */
  lemma IntendedKeepsSolventAmount(m: map<string, Json>, p: Json)
    requires p.Obj? && Get(p.fields, "name") == Str("solventAmount") && Get(p.fields, "strValue") != Null
    ensures AddProperty(Intended.properties, m, p) == Ok(m["solventAmount" := Get(p.fields, "strValue")])
  {
    assert Intended.properties[3] == "solventAmount";
    assert !HasSeparator("solventAmount") by {
      assert forall j :: 0 <= j < |"solventAmount"| ==> !IsSeparator("solventAmount"[j]);
    }
    CamelCaseUnchanged("solventAmount");
  }

  /** A record with a set `modifier` and `reactionTitle` keeps both. */
  lemma IntendedKeepsNames(fields: map<string, Json>)
    requires "modifier" in fields && fields["modifier"] != Null
    requires "reactionTitle" in fields && fields["reactionTitle"] != Null
    ensures "modifier" in Kept(fields, Intended.item) && Kept(fields, Intended.item)["modifier"] == fields["modifier"]
    ensures "reactionTitle" in Kept(fields, Intended.item)
            && Kept(fields, Intended.item)["reactionTitle"] == fields["reactionTitle"]
  {
    assert Intended.item[4] == "modifier" && Intended.item[5] == "reactionTitle";
  }

  /** A component with a set `measured`, `elnReaction` and `cdbMolecule`
      keeps all three. */
  lemma IntendedKeepsComponentNames(fields: map<string, Json>)
    requires "measured" in fields && fields["measured"] != Null
    requires "elnReaction" in fields && fields["elnReaction"] != Null
    requires "cdbMolecule" in fields && fields["cdbMolecule"] != Null
    ensures "measured" in Kept(fields, Intended.components)
            && Kept(fields, Intended.components)["measured"] == fields["measured"]
    ensures "elnReaction" in Kept(fields, Intended.components)
            && Kept(fields, Intended.components)["elnReaction"] == fields["elnReaction"]
    ensures "cdbMolecule" in Kept(fields, Intended.components)
            && Kept(fields, Intended.components)["cdbMolecule"] == fields["cdbMolecule"]
  {
    assert Intended.components[18] == "measured" && Intended.components[19] == "elnReaction"
           && Intended.components[20] == "cdbMolecule";
  }

  /** The record keys are kept under their own name: camel-casing leaves a
      name without `_` or `-` unchanged, and none of the record names has
      one. */
  lemma ItemNamesUnchanged(i: nat)
    requires i < |Intended.item|
    ensures FormatToCamelCase(Intended.item[i]) == Ok(Intended.item[i])
  {
    var n := Intended.item[i];
    assert !HasSeparator(n) by {
      assert forall j :: 0 <= j < |n| ==> !IsSeparator(n[j]);
    }
    CamelCaseUnchanged(n);
  }

  /** The same holds for the record keys as written, the joined
      `modifierreactionTitle` included. */
  lemma AsWrittenItemNamesUnchanged(i: nat)
    requires i < |AsWritten.item|
    ensures FormatToCamelCase(AsWritten.item[i]) == Ok(AsWritten.item[i])
  {
    var n := AsWritten.item[i];
    assert !HasSeparator(n) by {
      assert forall j :: 0 <= j < |n| ==> !IsSeparator(n[j]);
    }
    CamelCaseUnchanged(n);
  }

  // ---------------------------------------------------------------------
  // clean_item

  /** What `for x in v` visits.  A string or a dict yields strings, on each
      of which the loop body raises `onString`; other scalars are not
      iterable. */
  function Elements(v: Json, onString: Exception): (r: Result<seq<Json>>)
    ensures r.Ok? && |r.value| > 0 ==> v.Arr? && r.value == v.items
  {
    match v
    case Arr(items) => Ok(items)
    case Str(s) => if |s| == 0 then Ok([]) else Err(onString)
    case Obj(fields) => if |fields| == 0 then Ok([]) else Err(onString)
    case _ => Err(TypeError("object is not iterable"))
  }

  /** A key a reaction property can add: a camel-cased whitelisted name. */
  predicate IsPropertyKey(names: seq<string>, k: string)
  {
    exists i :: 0 <= i < |names| && FormatToCamelCase(names[i]) == Ok(k)
  }

  /** One reaction property: its `strValue` under its camel-cased `name`,
      when the name is whitelisted and the value set. */
  function AddProperty(names: seq<string>, m: map<string, Json>, p: Json): (r: Result<map<string, Json>>)
    ensures r.Ok? ==> forall k :: k in r.value ==> k in m || IsPropertyKey(names, k)
    ensures r.Ok? ==> forall k :: k in m && !IsPropertyKey(names, k) ==> k in r.value && r.value[k] == m[k]
  {
    if !p.Obj? then Err(AttributeError("get"))
    else
      var name := Get(p.fields, "name");
      var value := Get(p.fields, "strValue");
      if name.Str? && name.s in names && value != Null then
        var key :- FormatToCamelCase(name.s);
        assert IsPropertyKey(names, key) by {
          var i :| 0 <= i < |names| && names[i] == name.s;
        }
        Ok(m[key := value])
      else Ok(m)
  }

  function AddPropertyWith(names: seq<string>): (map<string, Json>, Json) -> Result<map<string, Json>>
  {
    (m, p) => AddProperty(names, m, p)
  }

  /** The reaction properties added to `base`, in order. */
  function PropertiesOf(names: seq<string>, v: Json, base: map<string, Json>): Result<map<string, Json>>
  {
    var ps :- Elements(v, AttributeError("get"));
    FoldResult(AddPropertyWith(names), base, ps)
  }

  /** Adding properties only adds property keys, and keeps every other key
      with its value. */
  lemma {:induction false} PropertiesKeys(names: seq<string>, base: map<string, Json>, ps: seq<Json>)
    requires FoldResult(AddPropertyWith(names), base, ps).Ok?
    ensures var r := FoldResult(AddPropertyWith(names), base, ps).value;
            (forall k :: k in r ==> k in base || IsPropertyKey(names, k))
            && (forall k :: k in base && !IsPropertyKey(names, k) ==> k in r && r[k] == base[k])
  {
    if |ps| > 0 {
      var init := ps[..|ps| - 1];
      PropertiesKeys(names, base, init);
      var m := FoldResult(AddPropertyWith(names), base, init).value;
      assert FoldResult(AddPropertyWith(names), base, ps) == AddProperty(names, m, ps[|ps| - 1]);
    }
  }

  /** One reaction component, cut down to its whitelisted keys. */
  function CleanComponent(names: seq<string>, c: Json): (r: Result<Json>)
    ensures r.Ok? <==> c.Obj?
    ensures r.Ok? ==> r.value.Obj?
    ensures r.Ok? ==> forall k :: k in r.value.fields ==> k in names && k in c.fields && r.value.fields[k] == c.fields[k] != Null
  {
    if c.Obj? then Ok(Obj(Kept(c.fields, names))) else Err(AttributeError("items"))
  }

  function CleanComponentWith(names: seq<string>): Json -> Result<Json>
  {
    c => CleanComponent(names, c)
  }

  /** The reaction components, each cut down, in order. */
  function ComponentsOf(names: seq<string>, v: Json): Result<seq<Json>>
  {
    var cs :- Elements(v, AttributeError("items"));
    MapResult(CleanComponentWith(names), cs)
  }

  /** `clean_item`: the whitelisted record keys that are set, then the
      whitelisted reaction properties, then the cut-down components under
      `reactionComponents` when the record has any. */
  function CleanedItem(w: Whitelists, item: map<string, Json>): Result<map<string, Json>>
  {
    var attributes := Kept(item, w.item);
    var properties := Get(item, "elnReactionPropertyCollection");
    var withProperties :- if Truthy(properties) then PropertiesOf(w.properties, properties, attributes) else Ok(attributes);
    var components := Get(item, "elnReactionComponentCollection");
    if Truthy(components) then
      var cleaned :- ComponentsOf(w.components, components);
      Ok(withProperties["reactionComponents" := Arr(cleaned)])
    else Ok(withProperties)
  }

  /** Every key of a cleaned record is a whitelisted record key, a
      property key or `reactionComponents`; every set whitelisted key that
      no property overwrites keeps its value. */
  lemma CleanedItemKeys(w: Whitelists, item: map<string, Json>)
    requires CleanedItem(w, item).Ok?
    ensures var r := CleanedItem(w, item).value;
            forall k :: k in r ==> k in w.item || IsPropertyKey(w.properties, k) || k == "reactionComponents"
    ensures var r := CleanedItem(w, item).value;
            forall k :: (k in item && k in w.item && item[k] != Null && !IsPropertyKey(w.properties, k)
                         && k != "reactionComponents") ==> k in r && r[k] == item[k]
  {
    var attributes := Kept(item, w.item);
    var properties := Get(item, "elnReactionPropertyCollection");
    if Truthy(properties) {
      var ps := Elements(properties, AttributeError("get")).value;
      PropertiesKeys(w.properties, attributes, ps);
    }
  }

  /** `clean_item` as the loops of the source do it. */
  method CleanItem(w: Whitelists, item: map<string, Json>) returns (r: Result<map<string, Json>>)
    ensures r == CleanedItem(w, item)
  {
    var newItem := KeepWhitelisted(item, w.item);
    var properties := Get(item, "elnReactionPropertyCollection");
    if Truthy(properties) {
      var ps := Elements(properties, AttributeError("get"));
      if ps.Err? {
        return Err(ps.error);
      }
      var added := AddProperties(w.properties, newItem, ps.value);
      if added.Err? {
        return Err(added.error);
      }
      newItem := added.value;
    }
    var components := Get(item, "elnReactionComponentCollection");
    if Truthy(components) {
      var cs := Elements(components, AttributeError("items"));
      if cs.Err? {
        return Err(cs.error);
      }
      var cleaned := MapEach(CleanComponentWith(w.components), cs.value);
      if cleaned.Err? {
        return Err(cleaned.error);
      }
      newItem := newItem["reactionComponents" := Arr(cleaned.value)];
    }
    return Ok(newItem);
  }

  /** The loop over the record's keys. */
  method KeepWhitelisted(fields: map<string, Json>, names: seq<string>) returns (kept: map<string, Json>)
    ensures kept == Kept(fields, names)
  {
    kept := map[];
    var todo := fields.Keys;
    while todo != {}
      invariant todo <= fields.Keys
      invariant kept == KeptAmong(fields, names, fields.Keys - todo)
      decreases |todo|
    {
      var key :| key in todo;
      ghost var done := fields.Keys - todo;
      KeptAmongStep(fields, names, done, key);
      if key in names && fields[key] != Null {
        kept := kept[key := fields[key]];
      }
      todo := todo - {key};
      assert fields.Keys - todo == done + {key};
    }
  }

  /** Visiting one more key adds it exactly when it is whitelisted and set. */
  lemma KeptAmongStep(fields: map<string, Json>, names: seq<string>, done: set<string>, key: string)
    requires key in fields
    ensures KeptAmong(fields, names, done + {key})
            == if key in names && fields[key] != Null then KeptAmong(fields, names, done)[key := fields[key]]
               else KeptAmong(fields, names, done)
  {
  }

  /** The loop over the reaction properties. */
  method AddProperties(names: seq<string>, base: map<string, Json>, ps: seq<Json>) returns (r: Result<map<string, Json>>)
    ensures r == FoldResult(AddPropertyWith(names), base, ps)
  {
    var newItem := base;
    for i := 0 to |ps|
      invariant FoldResult(AddPropertyWith(names), base, ps[..i]) == Ok(newItem)
    {
      assert ps[..i + 1][..i] == ps[..i];
      var added := AddProperty(names, newItem, ps[i]);
      assert AddPropertyWith(names)(newItem, ps[..i + 1][i]) == added;
      if added.Err? {
        FoldResultPrefixError(AddPropertyWith(names), base, ps, i + 1);
        return Err(added.error);
      }
      newItem := added.value;
    }
    assert ps[..|ps|] == ps;
    return Ok(newItem);
  }

  // ---------------------------------------------------------------------
  // clean_data

  /** One record of `clean_data`: kept when its cleaned form is not empty. */
  function KeepCleaned(w: Whitelists, acc: seq<map<string, Json>>, item: map<string, Json>): Result<seq<map<string, Json>>>
  {
    var cleaned :- CleanedItem(w, item);
    Ok(if |cleaned| > 0 then acc + [cleaned] else acc)
  }

  function KeepCleanedWith(w: Whitelists): (seq<map<string, Json>>, map<string, Json>) -> Result<seq<map<string, Json>>>
  {
    (acc, item) => KeepCleaned(w, acc, item)
  }

  /** `clean_data`: the cleaned records that are not empty, in order. */
  function CleanedData(w: Whitelists, data: seq<map<string, Json>>): Result<seq<map<string, Json>>>
  {
    FoldResult(KeepCleanedWith(w), [], data)
  }

  /** No kept record is empty, none is made up, and there are no more of
      them than records. */
  lemma {:induction false} CleanedDataShape(w: Whitelists, data: seq<map<string, Json>>)
    requires CleanedData(w, data).Ok?
    ensures |CleanedData(w, data).value| <= |data|
    ensures forall k :: 0 <= k < |CleanedData(w, data).value| ==> |CleanedData(w, data).value[k]| > 0
    ensures forall k :: 0 <= k < |CleanedData(w, data).value| ==>
              exists i :: 0 <= i < |data| && CleanedItem(w, data[i]) == Ok(CleanedData(w, data).value[k])
  {
    if |data| > 0 {
      var init := data[..|data| - 1];
      CleanedDataShape(w, init);
      var acc := CleanedData(w, init).value;
      var r := CleanedData(w, data).value;
      assert r == KeepCleaned(w, acc, data[|data| - 1]).value;
      forall k | 0 <= k < |r|
        ensures exists i :: 0 <= i < |data| && CleanedItem(w, data[i]) == Ok(r[k])
      {
        if k < |acc| {
          var i :| 0 <= i < |init| && CleanedItem(w, init[i]) == Ok(acc[k]);
          assert data[i] == init[i];
        } else {
          assert CleanedItem(w, data[|data| - 1]) == Ok(r[k]);
        }
      }
    }
  }

  /** A record whose cleaned form is empty contributes nothing. */
  lemma CleanedDataDropsEmpty(w: Whitelists, data: seq<map<string, Json>>, item: map<string, Json>)
    requires CleanedData(w, data).Ok? && CleanedItem(w, item) == Ok(map[])
    ensures CleanedData(w, data + [item]) == CleanedData(w, data)
  {
    assert (data + [item])[..|data|] == data;
  }

  /** `clean_data` as the loop of the source does it. */
  method CleanData(w: Whitelists, data: seq<map<string, Json>>) returns (r: Result<seq<map<string, Json>>>)
    ensures r == CleanedData(w, data)
  {
    var trimmedData: seq<map<string, Json>> := [];
    for i := 0 to |data|
      invariant FoldResult(KeepCleanedWith(w), [], data[..i]) == Ok(trimmedData)
    {
      assert data[..i + 1][..i] == data[..i];
      var result := CleanItem(w, data[i]);
      if result.Err? {
        assert KeepCleanedWith(w)(trimmedData, data[..i + 1][i]).Err?;
        FoldResultPrefixError(KeepCleanedWith(w), [], data, i + 1);
        return Err(result.error);
      }
      ghost var before := trimmedData;
      if |result.value| > 0 {
        trimmedData := trimmedData + [result.value];
      }
      assert KeepCleanedWith(w)(before, data[..i + 1][i]) == Ok(trimmedData);
    }
    assert data[..|data|] == data;
    return Ok(trimmedData);
  }

  // ---------------------------------------------------------------------
  // apply_conversions

  /** `rxnRoleMapping.get(code, 'unknown')`. */
  function MappedRole(code: int): string
  {
    if code == 1 then "reactant"
    else if code == 2 then "reagent"
    else if code == 3 then "solvent"
    else if code == 6 then "product"
    else "unknown"
  }

  /** The names a role can be given. */
  const RoleNames: seq<string> := ["reactant", "reagent", "solvent", "product", "unknown"]

  /** The dict lookup of a role code.  Python compares keys by value, so
      `True`, `1` and `1.0` all find `reactant`; a list or a dict is not
      hashable. */
  function RoleName(v: Json): (r: Result<string>)
    ensures r.Ok? ==> r.value in RoleNames
    ensures r.Err? <==> v.Arr? || v.Obj?
  {
    match v
    case Arr(_) => Err(TypeError("unhashable type"))
    case Obj(_) => Err(TypeError("unhashable type"))
    case Int(i) => Ok(MappedRole(i))
    case Bool(b) => Ok(MappedRole(if b then 1 else 0))
    case Float(x) => Ok(if x == x.Floor as real then MappedRole(x.Floor) else "unknown")
    case _ => Ok("unknown")
  }

  /** The four codes the mapping knows are told apart, and every other
      integer is `unknown`. */
  lemma MappedRoleCodes(code: int)
    ensures MappedRole(code) == "unknown" <==> code !in {1, 2, 3, 6}
    ensures forall other: int :: MappedRole(other) == MappedRole(code) && code in {1, 2, 3, 6} ==> other == code
  {
  }

  /** One component: its role code replaced by the role name and its mass
      unit forced to grams, which is what Sciformation always exports. */
  function ConvertComponent(c: Json): (r: Result<Json>)
    ensures r.Ok? ==> c.Obj? && "rxnRole" in c.fields && r.value.Obj?
    ensures r.Ok? ==> r.value.fields.Keys == c.fields.Keys + {"massUnit"}
    ensures r.Ok? ==> r.value.fields["rxnRole"].Str? && Ok(r.value.fields["rxnRole"].s) == RoleName(c.fields["rxnRole"])
    ensures r.Ok? ==> r.value.fields["massUnit"] == Str("g")
    ensures r.Ok? ==> forall k :: k in c.fields && k != "rxnRole" && k != "massUnit" ==> r.value.fields[k] == c.fields[k]
    ensures c.Obj? && "rxnRole" !in c.fields ==> r == Err(KeyError("rxnRole"))
  {
    if !c.Obj? then Err(TypeError("object is not subscriptable"))
    else
      var code :- Index(c.fields, "rxnRole");
      var name :- RoleName(code);
      Ok(Obj(c.fields["rxnRole" := Str(name)]["massUnit" := Str("g")]))
  }

  /** `value / 1000`: a start time in milliseconds as seconds.  Booleans
      divide as 0 and 1; anything that is not a number raises `TypeError`. */
  function StartSeconds(v: Json): (r: Result<real>)
    ensures r.Err? <==> !(v.Int? || v.Float? || v.Bool?)
    ensures r.Err? ==> r.error.TypeError?
    ensures v.Int? ==> r == Ok(v.i as real / 1000.0)
    ensures v.Float? ==> r == Ok(v.r / 1000.0)
  {
    match v
    case Int(i) => Ok(i as real / 1000.0)
    case Float(x) => Ok(x / 1000.0)
    case Bool(b) => Ok(if b then 0.001 else 0.0)
    case _ => Err(TypeError("unsupported operand type(s) for /"))
  }

  /** One record: its components converted, the duration and temperature
      units set to hours and Celsius, and a `reactionStartedWhen` in
      milliseconds rewritten as a date.  `formatDate` stands for
      `datetime.fromtimestamp(seconds).strftime(...)[:-3]`, which may
      raise.  A record without `reactionComponents` raises `KeyError`. */
  function ConvertItem(item: map<string, Json>, formatDate: real -> Result<string>): (r: Result<map<string, Json>>)
    ensures "reactionComponents" !in item ==> r == Err(KeyError("reactionComponents"))
    ensures r.Ok? ==> r.value.Keys == item.Keys + {"durationUnit", "temperatureUnit"}
    ensures r.Ok? ==> r.value["durationUnit"] == Str("h") && r.value["temperatureUnit"] == Str("C")
    ensures r.Ok? ==> forall k :: k in item && k !in {"reactionComponents", "durationUnit", "temperatureUnit", "reactionStartedWhen"} ==> r.value[k] == item[k]
    ensures r.Ok? && "reactionStartedWhen" in item ==>
              StartSeconds(item["reactionStartedWhen"]).Ok? && r.value["reactionStartedWhen"].Str?
              && formatDate(StartSeconds(item["reactionStartedWhen"]).value) == Ok(r.value["reactionStartedWhen"].s)
  {
    var components :- Index(item, "reactionComponents");
    var cs :- Elements(components, TypeError("string indices must be integers"));
    var converted :- MapResult(ConvertComponent, cs);
    var out := item["reactionComponents" := Arr(converted)]["durationUnit" := Str("h")]["temperatureUnit" := Str("C")];
    if "reactionStartedWhen" in item then
      var seconds :- StartSeconds(item["reactionStartedWhen"]);
      var date :- formatDate(seconds);
      Ok(out["reactionStartedWhen" := Str(date)])
    else Ok(out)
  }

  /** A record whose components convert but whose start time is text
      raises `TypeError`; a record without a start time gains none. */
  lemma ConvertItemStartTime(item: map<string, Json>, formatDate: real -> Result<string>)
    requires "reactionComponents" in item && item["reactionComponents"].Arr?
    requires MapResult(ConvertComponent, item["reactionComponents"].items).Ok?
    ensures "reactionStartedWhen" in item && item["reactionStartedWhen"].Str? ==>
              ConvertItem(item, formatDate).Err? && ConvertItem(item, formatDate).error.TypeError?
    ensures "reactionStartedWhen" !in item ==>
              ConvertItem(item, formatDate).Ok? && "reactionStartedWhen" !in ConvertItem(item, formatDate).value
  {
  }

  /** `ConvertItem` with the date formatting fixed. */
  function ConvertItemWith(formatDate: real -> Result<string>): map<string, Json> -> Result<map<string, Json>>
  {
    item => ConvertItem(item, formatDate)
  }

  /** `apply_conversions`: every record converted, in order. */
  function Converted(data: seq<map<string, Json>>, formatDate: real -> Result<string>): Result<seq<map<string, Json>>>
  {
    MapResult(ConvertItemWith(formatDate), data)
  }

  /** After the conversions, every component of every record carries a
      role name and grams as mass unit. */
  lemma ConvertedComponents(data: seq<map<string, Json>>, formatDate: real -> Result<string>, i: nat)
    requires Converted(data, formatDate).Ok? && i < |data|
    ensures var item := Converted(data, formatDate).value[i];
            "reactionComponents" in item && (item["reactionComponents"].Arr? ==>
              forall j :: 0 <= j < |item["reactionComponents"].items| ==>
                var c := item["reactionComponents"].items[j];
                c.Obj? && c.fields["massUnit"] == Str("g") && c.fields["rxnRole"].Str?
                && c.fields["rxnRole"].s in RoleNames)
  {
    var item := Converted(data, formatDate).value[i];
    assert ConvertItem(data[i], formatDate) == Ok(item);
    var cs := Elements(data[i]["reactionComponents"], TypeError("string indices must be integers")).value;
    var converted := MapResult(ConvertComponent, cs).value;
    assert item["reactionComponents"] == Arr(converted);
    forall j | 0 <= j < |converted|
      ensures converted[j].Obj? && converted[j].fields["massUnit"] == Str("g") && converted[j].fields["rxnRole"].Str?
              && converted[j].fields["rxnRole"].s in RoleNames
    {
      assert ConvertComponent(cs[j]) == Ok(converted[j]);
      assert RoleName(cs[j].fields["rxnRole"]) == Ok(converted[j].fields["rxnRole"].s);
    }
  }

  /** The body of the loop of `apply_conversions` for one record. */
  method ConvertRecord(item: map<string, Json>, formatDate: real -> Result<string>) returns (r: Result<map<string, Json>>)
    ensures r == ConvertItem(item, formatDate)
  {
    var components := Index(item, "reactionComponents");
    if components.Err? {
      return Err(components.error);
    }
    var cs := Elements(components.value, TypeError("string indices must be integers"));
    if cs.Err? {
      return Err(cs.error);
    }
    var converted := MapEach(ConvertComponent, cs.value);
    if converted.Err? {
      return Err(converted.error);
    }
    var out := item["reactionComponents" := Arr(converted.value)];
    out := out["durationUnit" := Str("h")];
    out := out["temperatureUnit" := Str("C")];
    if "reactionStartedWhen" in item {
      var seconds := StartSeconds(item["reactionStartedWhen"]);
      if seconds.Err? {
        return Err(seconds.error);
      }
      var date := formatDate(seconds.value);
      if date.Err? {
        return Err(date.error);
      }
      out := out["reactionStartedWhen" := Str(date.value)];
    }
    return Ok(out);
  }

  /** `apply_conversions` as the loops of the source do it. */
  method ApplyConversions(data: seq<map<string, Json>>, formatDate: real -> Result<string>) returns (r: Result<seq<map<string, Json>>>)
    ensures r == Converted(data, formatDate)
  {
    var items: seq<map<string, Json>> := [];
    for i := 0 to |data|
      invariant MapResult(ConvertItemWith(formatDate), data[..i]) == Ok(items)
    {
      var item := ConvertRecord(data[i], formatDate);
      MapResultNext(ConvertItemWith(formatDate), data, i, items);
      if item.Err? {
        return Err(item.error);
      }
      items := items + [item.value];
    }
    assert data[..|data|] == data;
    return Ok(items);
  }

  // ---------------------------------------------------------------------
  // clean_sciformation_eln

  /** `data[:min(max_entry_length, len(data))]` when the length is
      positive; otherwise everything. */
  function Truncated<T>(data: seq<T>, maxEntryLength: int): (r: seq<T>)
    ensures |r| <= |data| && r == data[..|r|]
    ensures maxEntryLength > 0 ==> |r| == if maxEntryLength < |data| then maxEntryLength else |data|
    ensures maxEntryLength <= 0 ==> r == data
  {
    if maxEntryLength > 0 then data[..if maxEntryLength < |data| then maxEntryLength else |data|] else data
  }

  /** The records as a JSON list. */
  function Records(data: seq<map<string, Json>>): (r: seq<Json>)
    ensures |r| == |data| && forall i :: 0 <= i < |data| ==> r[i] == Obj(data[i])
  {
    seq(|data|, i requires 0 <= i < |data| => Obj(data[i]))
  }

  /** `clean_sciformation_eln`: cleaning, the conversions, the use-case
      specific step `process` and the truncation, under `experiments`. */
  function CleanedEln(w: Whitelists, data: seq<map<string, Json>>, maxEntryLength: int,
                      process: seq<map<string, Json>> -> seq<map<string, Json>>,
                      formatDate: real -> Result<string>): Result<map<string, Json>>
  {
    var trimmed :- CleanedData(w, data);
    var converted :- Converted(trimmed, formatDate);
    Ok(map["experiments" := Arr(Records(Truncated(process(converted), maxEntryLength)))])
  }

  /** The cleaned export holds only `experiments`, at most
      `maxEntryLength` of them when that is positive. */
  lemma CleanedElnShape(w: Whitelists, data: seq<map<string, Json>>, maxEntryLength: int,
                        process: seq<map<string, Json>> -> seq<map<string, Json>>,
                        formatDate: real -> Result<string>)
    requires CleanedEln(w, data, maxEntryLength, process, formatDate).Ok?
    ensures var r := CleanedEln(w, data, maxEntryLength, process, formatDate).value;
            r.Keys == {"experiments"} && r["experiments"].Arr?
            && (maxEntryLength > 0 ==> |r["experiments"].items| <= maxEntryLength)
  {
  }

  /** `clean_sciformation_eln` as the source runs it. */
  method CleanSciformationEln(w: Whitelists, data: seq<map<string, Json>>, maxEntryLength: int,
                              process: seq<map<string, Json>> -> seq<map<string, Json>>,
                              formatDate: real -> Result<string>)
    returns (r: Result<map<string, Json>>)
    ensures r == CleanedEln(w, data, maxEntryLength, process, formatDate)
  {
    var trimmedData := CleanData(w, data);
    if trimmedData.Err? {
      return Err(trimmedData.error);
    }
    var postprocessedData := ApplyConversions(trimmedData.value, formatDate);
    if postprocessedData.Err? {
      return Err(postprocessedData.error);
    }
    var processed := process(postprocessedData.value);
    if maxEntryLength > 0 {
      processed := processed[..if maxEntryLength < |processed| then maxEntryLength else |processed|];
    }
    return Ok(map["experiments" := Arr(Records(processed))]);
  }
}
