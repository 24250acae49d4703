/** The vehicle edit dialog of the profile page: a draft of thirteen cells
    seeded from the `vehicle` prop, edited one cell at a time, and committed
    on Save as a complete vehicle record handed to `onSave` before
    `onClose`. */
module VehicleDialog {
  import opened Lists
  import opened Text

  datatype VehicleType = Motorcycle | Car

  /** A vehicle record: `specs` is the free-form `Record<string, string>`. */
  datatype Vehicle = Vehicle(
    id: string,
    name: string,
    vtype: VehicleType,
    make: string,
    model: string,
    year: int,
    color: string,
    images: seq<string>,
    specs: map<string, string>)

  const DefaultImage := "https://images.unsplash.com/photo-1558981806-ec527fa84c39?w=800&q=80"

  /** The seven specification keys the dialog edits and writes back. */
  const SpecKeys: set<string> :=
    {"Engine", "Power", "Torque", "Transmission", "Fuel Capacity", "Mileage", "Kerb Weight"}

  /** The thirteen draft cells. */
  datatype Draft = Draft(
    name: string,
    make: string,
    model: string,
    year: int,
    color: string,
    vtype: VehicleType,
    engine: string,
    power: string,
    torque: string,
    transmission: string,
    fuelCapacity: string,
    mileage: string,
    weight: string)

  /** The eleven text cells, each behind its own setter in the dialog. */
  datatype TextField =
    | Name | Make | Model | Color
    | Engine | Power | Torque | Transmission | FuelCapacity | Mileage | Weight

  function TextOf(d: Draft, f: TextField): string {
    match f
    case Name => d.name
    case Make => d.make
    case Model => d.model
    case Color => d.color
    case Engine => d.engine
    case Power => d.power
    case Torque => d.torque
    case Transmission => d.transmission
    case FuelCapacity => d.fuelCapacity
    case Mileage => d.mileage
    case Weight => d.weight
  }

  /** A draft whose eleven text cells are all empty. */
  predicate IsBlank(d: Draft) {
    forall f: TextField :: TextOf(d, f) == ""
  }

  /** `specs[key] || ""`: a missing key (or an empty value) reads as "". */
  function SpecOrEmpty(specs: map<string, string>, key: string): string {
    if key in specs then specs[key] else ""
  }

  /** The `useState` initialisers (the `||` fallbacks of lines 42-66). */
  function Initial(vehicle: Option<Vehicle>, currentYear: int): (d: Draft)
    ensures vehicle.None? ==> IsBlank(d) && d.vtype == Motorcycle && d.year == currentYear
    ensures vehicle.Some? ==>
      && d.year == (if vehicle.value.year != 0 then vehicle.value.year else currentYear)
      && d.(year := 0) == Seed(vehicle.value).(year := 0)
  {
    match vehicle
    case None => Draft("", "", "", currentYear, "", Motorcycle, "", "", "", "", "", "", "")
    case Some(v) =>
      Draft(v.name, v.make, v.model, if v.year != 0 then v.year else currentYear, v.color, v.vtype,
            SpecOrEmpty(v.specs, "Engine"), SpecOrEmpty(v.specs, "Power"),
            SpecOrEmpty(v.specs, "Torque"), SpecOrEmpty(v.specs, "Transmission"),
            SpecOrEmpty(v.specs, "Fuel Capacity"), SpecOrEmpty(v.specs, "Mileage"),
            SpecOrEmpty(v.specs, "Kerb Weight"))
  }

  /** The draft the re-seeding effect writes from a non-null vehicle. */
  function Seed(v: Vehicle): Draft {
    Draft(v.name, v.make, v.model, v.year, v.color, v.vtype,
          SpecOrEmpty(v.specs, "Engine"), SpecOrEmpty(v.specs, "Power"),
          SpecOrEmpty(v.specs, "Torque"), SpecOrEmpty(v.specs, "Transmission"),
          SpecOrEmpty(v.specs, "Fuel Capacity"), SpecOrEmpty(v.specs, "Mileage"),
          SpecOrEmpty(v.specs, "Kerb Weight"))
  }

  /** The id a new vehicle gets: `vehicle-${Date.now()}`. */
  function NewVehicleId(now: nat): (id: string)
    ensures |id| > 8 && id[..8] == "vehicle-"
    ensures AllDigits(id[8..]) && ParseDigits(id[8..]) == now
  {
    ParseDigitsOfDigits(now);
    "vehicle-" + Digits(now)
  }

  /** Vehicles added at different times get different ids. */
  lemma NewVehicleIdsDistinct(t1: nat, t2: nat)
    ensures NewVehicleId(t1) == NewVehicleId(t2) <==> t1 == t2
  {
    if NewVehicleId(t1) == NewVehicleId(t2) {
      assert Digits(t1) == NewVehicleId(t1)[8..] == NewVehicleId(t2)[8..] == Digits(t2);
      DigitsInjective(t1, t2);
    }
  }

  /** The `specs` object literal of `handleSave`. */
  function SpecsOf(d: Draft): map<string, string> {
    map["Engine" := d.engine, "Power" := d.power, "Torque" := d.torque,
        "Transmission" := d.transmission, "Fuel Capacity" := d.fuelCapacity,
        "Mileage" := d.mileage, "Kerb Weight" := d.weight]
  }

  /** The record `handleSave` builds from the prop and the draft. */
  function BuildVehicle(source: Option<Vehicle>, d: Draft, now: nat): (r: Vehicle)
    ensures r.id != ""
    ensures source.Some? && source.value.id != "" ==> r.id == source.value.id
    ensures source.None? || source.value.id == "" ==> r.id == NewVehicleId(now)
    ensures r.images == (if source.Some? then source.value.images else [DefaultImage])
    ensures r.specs.Keys == SpecKeys
    ensures Seed(r) == d
  {
    var id := if source.Some? && source.value.id != "" then source.value.id else NewVehicleId(now);
    var images := if source.Some? then source.value.images else [DefaultImage];
    Vehicle(id, d.name, d.vtype, d.make, d.model, d.year, d.color, images, SpecsOf(d))
  }

  /** Seeding from `v` and saving with no edits gives back `v`, as long as
      `v` has a non-empty id and exactly the seven specification keys. */
  lemma SeedThenCommit(v: Vehicle, now: nat)
    requires v.id != ""
    requires v.specs.Keys == SpecKeys
    ensures BuildVehicle(Some(v), Seed(v), now) == v
  {
    var r := BuildVehicle(Some(v), Seed(v), now);
    forall k | k in SpecKeys ensures r.specs[k] == v.specs[k] {
    }
    assert r.specs == v.specs;
  }

  /** Spec keys other than the seven are dropped on Save, so the round trip
      of SeedThenCommit fails for any vehicle that carries one. */
  lemma ExtraSpecKeyDropped(v: Vehicle, now: nat, key: string)
    requires key in v.specs && key !in SpecKeys
    ensures key !in BuildVehicle(Some(v), Seed(v), now).specs
    ensures BuildVehicle(Some(v), Seed(v), now) != v
  {
  }

  /** Saving the untouched add dialog yields the `useState` fallback values
      of the form: empty text, a motorcycle, the current year. */
  lemma CreateModeDefaults(currentYear: int, now: nat)
    ensures var r := BuildVehicle(None, Initial(None, currentYear), now);
      && r.id == NewVehicleId(now)
      && r.name == "" && r.make == "" && r.model == "" && r.color == ""
      && r.vtype == Motorcycle && r.year == currentYear
      && r.images == [DefaultImage]
      && (forall k :: k in r.specs ==> r.specs[k] == "")
  {
  }

  /** Writing one text cell leaves the other twelve as they were. */
  function WithText(d: Draft, f: TextField, value: string): (r: Draft)
    ensures forall g: TextField :: TextOf(r, g) == if g == f then value else TextOf(d, g)
    ensures r.year == d.year && r.vtype == d.vtype
  {
    match f
    case Name => d.(name := value)
    case Make => d.(make := value)
    case Model => d.(model := value)
    case Color => d.(color := value)
    case Engine => d.(engine := value)
    case Power => d.(power := value)
    case Torque => d.(torque := value)
    case Transmission => d.(transmission := value)
    case FuelCapacity => d.(fuelCapacity := value)
    case Mileage => d.(mileage := value)
    case Weight => d.(weight := value)
  }

  /** The calls the dialog makes into its parent, in order. */
  datatype Callback = OnSave(vehicle: Vehicle) | OnClose

  /** One mounted EditVehicleDialog: its `vehicle` prop and its thirteen
      draft state cells. */
  class EditVehicleDialog {
    var vehicle: Option<Vehicle>
    var name: string
    var make: string
    var model: string
    var year: int
    var color: string
    var vtype: VehicleType
    var engine: string
    var power: string
    var torque: string
    var transmission: string
    var fuelCapacity: string
    var mileage: string
    var weight: string

    /** The draft as a value. */
    function Current(): Draft
      reads this
    {
      Draft(name, make, model, year, color, vtype, engine, power, torque,
            transmission, fuelCapacity, mileage, weight)
    }

    /** Mounting: the state initialisers, then the effect's first run. */
    constructor (vehicle: Option<Vehicle>, currentYear: int)
      ensures this.vehicle == vehicle
      ensures Current() == if vehicle.Some? then Seed(vehicle.value) else Initial(None, currentYear)
    {
      this.vehicle := vehicle;
      var d := Initial(vehicle, currentYear);
      name, make, model, year, color, vtype := d.name, d.make, d.model, d.year, d.color, d.vtype;
      engine, power, torque, transmission := d.engine, d.power, d.torque, d.transmission;
      fuelCapacity, mileage, weight := d.fuelCapacity, d.mileage, d.weight;
      new;
      RunSeedEffect();
    }

    /** The effect on `[vehicle]`: re-seed every cell from a non-null
        vehicle; a null vehicle leaves the draft alone. */
    method RunSeedEffect()
      modifies this
      ensures vehicle == old(vehicle)
      ensures Current() == if vehicle.Some? then Seed(vehicle.value) else old(Current())
    {
      if vehicle.Some? {
        var v := vehicle.value;
        name := v.name;
        make := v.make;
        model := v.model;
        year := v.year;
        color := v.color;
        vtype := v.vtype;
        engine := SpecOrEmpty(v.specs, "Engine");
        power := SpecOrEmpty(v.specs, "Power");
        torque := SpecOrEmpty(v.specs, "Torque");
        transmission := SpecOrEmpty(v.specs, "Transmission");
        fuelCapacity := SpecOrEmpty(v.specs, "Fuel Capacity");
        mileage := SpecOrEmpty(v.specs, "Mileage");
        weight := SpecOrEmpty(v.specs, "Kerb Weight");
      }
    }

    /** The parent renders the dialog with a different `vehicle` prop, and
        the effect runs because its dependency changed. */
    method ReceiveVehicle(v: Option<Vehicle>)
      modifies this
      ensures vehicle == v
      ensures Current() == if v.Some? then Seed(v.value) else old(Current())
    {
      vehicle := v;
      RunSeedEffect();
    }

    /** One of the eleven text inputs' `onChange`. */
    method SetText(f: TextField, value: string)
      modifies this
      ensures vehicle == old(vehicle)
      ensures Current() == WithText(old(Current()), f, value)
    {
      match f
      case Name => name := value;
      case Make => make := value;
      case Model => model := value;
      case Color => color := value;
      case Engine => engine := value;
      case Power => power := value;
      case Torque => torque := value;
      case Transmission => transmission := value;
      case FuelCapacity => fuelCapacity := value;
      case Mileage => mileage := value;
      case Weight => weight := value;
    }

    /** The year input's `onChange`, given the number `parseInt` returned. */
    method SetYear(parsed: int)
      modifies this
      ensures vehicle == old(vehicle)
      ensures Current() == old(Current()).(year := parsed)
    {
      year := parsed;
    }

    /** The type select's `onChange`. */
    method SetType(t: VehicleType)
      modifies this
      ensures vehicle == old(vehicle)
      ensures Current() == old(Current()).(vtype := t)
    {
      vtype := t;
    }

    /** `handleSave`: builds the record, calls `onSave` with it, then
        `onClose`; the draft itself is not touched. */
    method Save(now: nat) returns (calls: seq<Callback>)
      ensures |calls| == 2 && calls[0].OnSave? && calls[1] == OnClose
      ensures calls[0].vehicle == BuildVehicle(vehicle, Current(), now)
    {
      var updated := BuildVehicle(vehicle, Current(), now);
      calls := [OnSave(updated), OnClose];
    }

    /** The Cancel button and the dialog's `onOpenChange`: `onClose` only. */
    method Cancel() returns (calls: seq<Callback>)
      ensures calls == [OnClose]
      ensures forall i :: 0 <= i < |calls| ==> !calls[i].OnSave?
    {
      calls := [OnClose];
    }
  }
}
