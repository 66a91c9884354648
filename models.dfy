/**
 * Near-Earth objects (NEOs), their close approaches to Earth, and the two
 * serialised views of a close approach (models.py).
 */
module Models {
  import opened Wrappers

  /** A Python float as this layer uses it: `None` is NaN, the "unknown" value. */
  type Float = Option<real>

  /** Python's `float` applied to the text "nan" gives NaN. */
  ghost predicate ParsesNaN(toFloat: string -> Float) {
    toFloat("nan") == None
  }

  // Keyword defaults of the NearEarthObject constructor.
  const DefaultName: string := ""
  const DefaultDiameter: string := ""
  const DefaultPha: string := "N"

  /** `str(name) or None`: an empty name is stored as no name, any other name unchanged. */
  function NormalizeName(name: string): (r: Option<string>)
    ensures r == None <==> name == ""
    ensures r.Some? ==> r.value == name
    ensures r != Some("")
  {
    if name == "" then None else Some(name)
  }

  /**
   * An empty diameter is replaced by the text "nan" before conversion, so it
   * becomes the unknown value (and never zero); any other text is converted.
   */
  function NormalizeDiameter(diameter: string, toFloat: string -> Float): (r: Float)
    requires ParsesNaN(toFloat)
    ensures diameter == "" ==> r == None
    ensures diameter != "" ==> r == toFloat(diameter)
  {
    var text := if diameter == "" then "nan" else diameter;
    toFloat(text)
  }

  /** The flag "N" is first turned into "", then the flag's truthiness decides. */
  function Hazardous(pha: string): (r: bool)
    ensures !r <==> pha == "N" || pha == ""
  {
    var flag := if pha == "N" then "" else pha;
    flag != ""
  }

  lemma DefaultsNormalise(toFloat: string -> Float)
    requires ParsesNaN(toFloat)
    ensures NormalizeName(DefaultName) == None
    ensures NormalizeDiameter(DefaultDiameter, toFloat) == None
    ensures !Hazardous(DefaultPha)
  {
  }

  class NearEarthObject {
    const designation: string
    const name: Option<string>
    const diameter: Float
    const hazardous: bool
    var approaches: seq<CloseApproach>

    /** A stored name is never the empty string. */
    ghost predicate Valid() {
      name != Some("")
    }

    constructor (toFloat: string -> Float, pdes: string, name: string := DefaultName,
                 diameter: string := DefaultDiameter, pha: string := DefaultPha)
      requires ParsesNaN(toFloat)
      ensures Valid()
      ensures designation == pdes
      ensures this.name == NormalizeName(name)
      ensures this.diameter == NormalizeDiameter(diameter, toFloat)
      ensures hazardous == Hazardous(pha)
      ensures approaches == []
    {
      designation := pdes;
      this.name := NormalizeName(name);
      this.diameter := NormalizeDiameter(diameter, toFloat);
      hazardous := Hazardous(pha);
      approaches := [];
    }

    /** The designation, followed by " (name)" when the name is non-empty. */
    function Fullname(): (r: string)
      ensures designation <= r
      ensures r == designation <==> name == None || name == Some("")
      ensures name.Some? && name.value != "" ==> r[|designation|..] == " (" + name.value + ")"
    {
      var fullname := designation;
      if name.Some? && name.value != "" then fullname + " (" + name.value + ")" else fullname
    }
  }

  /**
   * `neos[key]` when `key` is a key of `neos`, and `None` otherwise.
   */
  function Resolve(neos: map<string, NearEarthObject>, key: string): (r: NearEarthObject?)
    ensures r != null <==> key in neos
    ensures key in neos ==> r == neos[key]
    ensures r != null ==> r in neos.Values
  {
    if key in neos then neos[key] else null
  }

  /** A scalar attribute value: a string, a float or a boolean. */
  datatype Scalar = Str(s: string) | Num(f: Float) | Bool(b: bool)

  /** A serialised value: a scalar or a nested mapping. */
  datatype Json = Leaf(scalar: Scalar) | Obj(fields: Dict)

  /** A Python dict, as its (key, value) pairs in insertion order. */
  type Dict = seq<(string, Json)>

  /** Errors `serialize` raises. */
  datatype SerializeError =
    | AttributeError           // the approach has no NEO, so `self.neo.name` fails
    | ValueError(extension: string)

  const FieldNames: seq<string> := ["datetime_utc", "distance_au", "velocity_km_s", "designation",
                                    "name", "diameter_km", "potentially_hazardous"]

  /** Python's `zip`: pairs up to the shorter of the two sequences. */
  function Zip<V>(keys: seq<string>, values: seq<V>): (r: seq<(string, V)>)
    ensures |r| == if |keys| < |values| then |keys| else |values|
    ensures forall i :: 0 <= i < |r| ==> r[i] == (keys[i], values[i])
  {
    if keys == [] || values == [] then [] else [(keys[0], values[0])] + Zip(keys[1..], values[1..])
  }

  /** The keys of a dict, in order. */
  function Keys(d: Dict): (r: seq<string>)
    ensures |r| == |d|
    ensures forall i :: 0 <= i < |d| ==> r[i] == d[i].0
  {
    if d == [] then [] else [d[0].0] + Keys(d[1..])
  }

  /** Python's `str` on an attribute; `floatStr` is `str` on a float. */
  function PyStr(a: Scalar, floatStr: Float -> string): string {
    match a
    case Str(s) => s
    case Num(f) => floatStr(f)
    case Bool(b) => if b then "True" else "False"
  }

  /** Each attribute as a string leaf. */
  function Stringify(attrs: seq<Scalar>, floatStr: Float -> string): (r: seq<Json>)
    ensures |r| == |attrs|
    ensures forall i :: 0 <= i < |attrs| ==> r[i] == Leaf(Str(PyStr(attrs[i], floatStr)))
  {
    if attrs == [] then [] else [Leaf(Str(PyStr(attrs[0], floatStr)))] + Stringify(attrs[1..], floatStr)
  }

  /** Each attribute as a native leaf. */
  function Leaves(attrs: seq<Scalar>): (r: seq<Json>)
    ensures |r| == |attrs|
    ensures forall i :: 0 <= i < |attrs| ==> r[i] == Leaf(attrs[i])
  {
    if attrs == [] then [] else [Leaf(attrs[0])] + Leaves(attrs[1..])
  }

  class CloseApproach {
    /** The raw designation of the approaching NEO (`_designation`), kept after linking. */
    const designationRef: string
    /** The calendar date text the time is read from. */
    const time: string
    const distance: Float
    const velocity: Float
    var neo: NearEarthObject?

    constructor (des: string, cd: string, dist: string, vRel: string, toFloat: string -> Float)
      ensures designationRef == des && time == cd
      ensures distance == toFloat(dist) && velocity == toFloat(vRel)
      ensures neo == null
    {
      designationRef := des;
      time := cd;
      distance := toFloat(dist);
      velocity := toFloat(vRel);
      neo := null;
    }

    /** `time_str`; `render` is the date helpers' parse followed by their format. */
    function TimeStr(render: string -> string): (r: string)
      ensures r == render(time)
    {
      render(time)
    }

    /** Who the human-readable form names: the NEO's full name, or the raw designation when unlinked. */
    function Subject(): (r: string)
      reads this
      ensures neo == null ==> r == designationRef
      ensures neo != null ==> r == neo.Fullname() && neo.designation <= r
    {
      if neo != null then neo.Fullname() else designationRef
    }

    /**
     * `assign_neo`: look the raw designation up in `neos`; on a hit link both
     * ways (append this approach to that NEO's list), on a miss stay unlinked.
     */
    method AssignNeo(neos: map<string, NearEarthObject>) returns (r: CloseApproach)
      modifies this`neo, neos.Values`approaches
      ensures r == this
      ensures designationRef in neos ==> neo == neos[designationRef]
      ensures designationRef in neos ==> neo.approaches == old(neos[designationRef].approaches) + [this]
      ensures designationRef !in neos ==> neo == null
      ensures forall n :: n in neos.Values && n != neo ==> n.approaches == old(n.approaches)
    {
      if designationRef in neos {
        neo := neos[designationRef];
        neo.approaches := neo.approaches + [this];
      } else {
        neo := null;
      }
      r := this;
    }

    /** The attribute tuple shared by both serialised shapes, in `FieldNames` order. */
    function Attributes(render: string -> string): (r: seq<Scalar>)
      reads this
      requires neo != null
      ensures |r| == |FieldNames|
      ensures r[0] == Str(render(time)) && r[1] == Num(distance) && r[2] == Num(velocity)
      ensures r[3] == Str(neo.designation) && r[5] == Num(neo.diameter) && r[6] == Bool(neo.hazardous)
      ensures r[4] == Str(if neo.name == None then "" else neo.name.value)
      ensures neo.Valid() ==> (r[4] == Str("") <==> neo.name == None)
    {
      var name := if neo.name == None then "" else neo.name.value;
      [Str(TimeStr(render)), Num(distance), Num(velocity), Str(neo.designation),
       Str(name), Num(neo.diameter), Bool(neo.hazardous)]
    }

    /**
     * `serialize(extension)`: "csv" gives one flat dict of seven strings,
     * "json" the first three attributes plus a nested "neo" dict of the rest.
     */
    function Serialize(extension: string, render: string -> string, floatStr: Float -> string)
      : (r: Result<Dict, SerializeError>)
      reads this
      ensures neo == null ==> r == Err(AttributeError)
      ensures neo != null && extension != "csv" && extension != "json" ==> r == Err(ValueError(extension))
      ensures neo != null && (extension == "csv" || extension == "json") ==> r.Ok?
      ensures r.Ok? && extension == "csv" ==>
        Keys(r.value) == FieldNames && forall i :: 0 <= i < |r.value| ==> r.value[i].1.Leaf? && r.value[i].1.scalar.Str?
      ensures r.Ok? && extension == "json" ==>
        Keys(r.value) == ["datetime_utc", "distance_au", "velocity_km_s", "neo"] &&
        r.value[3].1.Obj? && Keys(r.value[3].1.fields) == ["designation", "name", "diameter_km", "potentially_hazardous"]
    {
      if neo == null then Err(AttributeError)
      else
        var attributes := Attributes(render);
        if extension == "csv" then
          Ok(Zip(FieldNames, Stringify(attributes, floatStr)))
        else if extension == "json" then
          var out := Zip(FieldNames[..3], Leaves(attributes[..3]));
          Ok(out + [("neo", Obj(Zip(FieldNames[3..], Leaves(attributes[3..]))))])
        else
          Err(ValueError(extension))
    }
  }

  /** The value stored under `key` in a dict (the first one, as keys are distinct here). */
  function Lookup(d: Dict, key: string): Option<Json> {
    if d == [] then None else if d[0].0 == key then Some(d[0].1) else Lookup(d[1..], key)
  }

  /** Lookup finds the entry at `i` when no earlier entry has its key. */
  lemma {:induction false} LookupFirst(d: Dict, i: nat)
    requires i < |d|
    requires forall j :: 0 <= j < i ==> d[j].0 != d[i].0
    ensures Lookup(d, d[i].0) == Some(d[i].1)
  {
    if i > 0 {
      LookupFirst(d[1..], i - 1);
    }
  }

  /**
   * Reference flattening of a nested dict into one flat dict of strings: a
   * scalar entry becomes its `str`, a nested dict contributes its own entries
   * in place. `FlattenFrom(o, i)` flattens the entries of `o` from index `i` on.
   */
  function FlattenFrom(o: Json, i: nat, floatStr: Float -> string): Dict
    requires o.Obj?
    decreases o, |o.fields| - i
  {
    if i >= |o.fields| then []
    else
      var (key, v) := o.fields[i];
      (match v
       case Leaf(a) => [(key, Leaf(Str(PyStr(a, floatStr))))]
       case Obj(_) => FlattenFrom(v, 0, floatStr))
      + FlattenFrom(o, i + 1, floatStr)
  }

  function Flatten(d: Dict, floatStr: Float -> string): Dict {
    FlattenFrom(Obj(d), 0, floatStr)
  }

  lemma {:induction false} FlattenFromShift(d: Dict, i: nat, floatStr: Float -> string)
    requires 0 < i <= |d|
    ensures FlattenFrom(Obj(d), i, floatStr) == FlattenFrom(Obj(d[1..]), i - 1, floatStr)
    decreases |d| - i
  {
    if i < |d| {
      assert d[1..][i - 1] == d[i];
      FlattenFromShift(d, i + 1, floatStr);
    }
  }

  lemma {:induction false} FlattenAppend(a: Dict, b: Dict, floatStr: Float -> string)
    ensures Flatten(a + b, floatStr) == Flatten(a, floatStr) + Flatten(b, floatStr)
    decreases |a|
  {
    if a != [] {
      assert (a + b)[0] == a[0];
      assert (a + b)[1..] == a[1..] + b;
      FlattenFromShift(a + b, 1, floatStr);
      FlattenFromShift(a, 1, floatStr);
      FlattenAppend(a[1..], b, floatStr);
    } else {
      assert a + b == b;
    }
  }

  /** Flattening a dict of scalar leaves stringifies each value in place. */
  lemma {:induction false} FlattenLeaves(keys: seq<string>, attrs: seq<Scalar>, floatStr: Float -> string)
    requires |keys| == |attrs|
    ensures Flatten(Zip(keys, Leaves(attrs)), floatStr) == Zip(keys, Stringify(attrs, floatStr))
    decreases |keys|
  {
    var d := Zip(keys, Leaves(attrs));
    if keys != [] {
      FlattenFromShift(d, 1, floatStr);
      assert d[1..] == Zip(keys[1..], Leaves(attrs[1..]));
      FlattenLeaves(keys[1..], attrs[1..], floatStr);
      assert Zip(keys, Stringify(attrs, floatStr)) ==
        [(keys[0], Leaf(Str(PyStr(attrs[0], floatStr))))] + Zip(keys[1..], Stringify(attrs[1..], floatStr));
    }
  }

  lemma {:induction false} ZipSplit<V>(keys: seq<string>, values: seq<V>, k: nat)
    requires |keys| == |values| && k <= |keys|
    ensures Zip(keys, values) == Zip(keys[..k], values[..k]) + Zip(keys[k..], values[k..])
  {
  }

  /**
   * The json shape of a linked approach, entry by entry: three native values
   * at top level, then "neo" holding the NEO's four native values; a missing
   * name is the empty string.
   */
  lemma {:induction false} SerializeJsonShape(ca: CloseApproach, render: string -> string, floatStr: Float -> string)
    requires ca.neo != null
    ensures ca.Serialize("json", render, floatStr) == Ok([
      ("datetime_utc", Leaf(Str(render(ca.time)))),
      ("distance_au", Leaf(Num(ca.distance))),
      ("velocity_km_s", Leaf(Num(ca.velocity))),
      ("neo", Obj([
        ("designation", Leaf(Str(ca.neo.designation))),
        ("name", Leaf(Str(if ca.neo.name == None then "" else ca.neo.name.value))),
        ("diameter_km", Leaf(Num(ca.neo.diameter))),
        ("potentially_hazardous", Leaf(Bool(ca.neo.hazardous)))]))])
  {
    var attrs := ca.Attributes(render);
    assert attrs == [Str(render(ca.time)), Num(ca.distance), Num(ca.velocity), Str(ca.neo.designation),
                     Str(if ca.neo.name == None then "" else ca.neo.name.value),
                     Num(ca.neo.diameter), Bool(ca.neo.hazardous)];
    var top := Zip(FieldNames[..3], Leaves(attrs[..3]));
    var nested := Zip(FieldNames[3..], Leaves(attrs[3..]));
    assert top == [(FieldNames[0], Leaf(attrs[0])), (FieldNames[1], Leaf(attrs[1])), (FieldNames[2], Leaf(attrs[2]))];
    assert nested == [(FieldNames[3], Leaf(attrs[3])), (FieldNames[4], Leaf(attrs[4])),
                      (FieldNames[5], Leaf(attrs[5])), (FieldNames[6], Leaf(attrs[6]))];
    var whole := top + [("neo", Obj(nested))];
    assert ca.Serialize("json", render, floatStr) == Ok(whole);
    var expected: Dict := [
      ("datetime_utc", Leaf(Str(render(ca.time)))),
      ("distance_au", Leaf(Num(ca.distance))),
      ("velocity_km_s", Leaf(Num(ca.velocity))),
      ("neo", Obj([
        ("designation", Leaf(Str(ca.neo.designation))),
        ("name", Leaf(Str(if ca.neo.name == None then "" else ca.neo.name.value))),
        ("diameter_km", Leaf(Num(ca.neo.diameter))),
        ("potentially_hazardous", Leaf(Bool(ca.neo.hazardous)))]))];
    assert whole[..3] == expected[..3];
    assert whole[3] == expected[3];
    assert whole == expected;
  }

  /** The csv row is the json mapping flattened, with every value turned into its `str`. */
  lemma {:induction false} CsvIsFlattenedJson(ca: CloseApproach, render: string -> string, floatStr: Float -> string)
    requires ca.neo != null
    ensures ca.Serialize("csv", render, floatStr).Ok? && ca.Serialize("json", render, floatStr).Ok?
    ensures ca.Serialize("csv", render, floatStr).value == Flatten(ca.Serialize("json", render, floatStr).value, floatStr)
  {
    var attrs := ca.Attributes(render);
    var top := Zip(FieldNames[..3], Leaves(attrs[..3]));
    var nested := Zip(FieldNames[3..], Leaves(attrs[3..]));
    FlattenAppend(top, [("neo", Obj(nested))], floatStr);
    FlattenLeaves(FieldNames[..3], attrs[..3], floatStr);
    FlattenLeaves(FieldNames[3..], attrs[3..], floatStr);
    assert Flatten([("neo", Obj(nested))], floatStr) == Flatten(nested, floatStr) by {
      assert FlattenFrom(Obj([("neo", Obj(nested))]), 1, floatStr) == [];
    }
    var strs := Stringify(attrs, floatStr);
    ZipSplit(FieldNames, strs, 3);
    assert strs[..3] == Stringify(attrs[..3], floatStr);
    assert strs[3..] == Stringify(attrs[3..], floatStr);
  }

  /** In the csv row, "name" is the empty string exactly when the NEO has no name. */
  lemma {:induction false} CsvNameEmptyIffNoName(ca: CloseApproach, render: string -> string, floatStr: Float -> string)
    requires ca.neo != null && ca.neo.Valid()
    ensures ca.Serialize("csv", render, floatStr).Ok?
    ensures Lookup(ca.Serialize("csv", render, floatStr).value, "name") == Some(Leaf(Str("")))
            <==> ca.neo.name == None
  {
    var r := ca.Serialize("csv", render, floatStr).value;
    assert r[4] == ("name", Leaf(Str(if ca.neo.name == None then "" else ca.neo.name.value)));
    LookupFirst(r, 4);
  }
}
