/**
 * The vehicle record of VehicleBase.php and its persistence: loading the
 * record's fields from a tagged-value tree (loadFromNBT) and writing them
 * back into the entity's own tree (saveIntoNBT).
 *
 * The functions Load and Save are the specification: they say, as values,
 * what the two methods of class VehicleBase do to the record's fields and
 * to the entity's tree, including the fields already assigned when a load
 * stops half-way and the "vehicle" entry already written when a save fails.
 */
module Vehicles {
  import opened Wrappers
  import opened Nbt

  const VEHICLE_TYPE_LAND: int := 0
  const VEHICLE_TYPE_WATER: int := 1
  const VEHICLE_TYPE_AIR: int := 2
  const VEHICLE_TYPE_RAIL: int := 3
  const VEHICLE_TYPE_UNKNOWN: int := 9

  /** The four entries of the `speed` array; null until loaded. */
  datatype Speed = Speed(forward: Option<real>, backward: Option<real>, left: Option<real>, right: Option<real>)

  /** The record's fields at one moment (None stands for PHP's null). */
  datatype Fields = Fields(
    uuid: Option<string>,
    name: Option<string>,
    version: Option<int>,
    vehicleType: int,
    scale: real,
    designName: Option<string>,
    gravity: real,
    bbox: seq<real>,
    driverSeat: seq<real>,
    passengerSeats: seq<seq<real>>,
    speed: Speed)

  /** The field initialisers of a VehicleBase before anything is loaded. */
  function Initial(): Fields {
    Fields(None, None, None, VEHICLE_TYPE_UNKNOWN, 1.6, None, 1.0,
           [0.0, 0.0, 0.0, 0.0, 0.0, 0.0], [], [], Speed(None, None, None, None))
  }

  // ---------------------------------------------------------------------
  // Loading

  datatype LoadError =
    | VersionMismatch(found: int)   // the stored version is not the supported one
    | TagFault(fault: TagError)     // an accessor of the tree failed
    | NotNumeric(key: string)       // a coordinate list holds a non-number
    | NotASeat                      // a passenger seat entry is not a list

  /** The fields after a load attempt, and the failure that stopped it, if any. */
  datatype LoadOutcome = LoadOutcome(fields: Fields, error: Option<LoadError>)

  /** What loadFromNBT does to the fields `f` of a record when given the tree `nbt`. */
  function Load(f: Fields, nbt: map<string, Tag>, supported: int, freshUuid: string): LoadOutcome {
    match GetInt(nbt, "vehicle", Some(-1))
    case Err(e) => LoadOutcome(f, Some(TagFault(e)))
    case Ok(found) =>
      if found != supported then LoadOutcome(f, Some(VersionMismatch(found)))
      else
        match GetInt(nbt, "vehicle", None)
        case Err(e) => LoadOutcome(f, Some(TagFault(e)))
        case Ok(v) =>
          var f1 := f.(version := Some(v));
          match GetCompound(nbt, "vehicleData")
          case Err(e) => LoadOutcome(f1, Some(TagFault(e)))
          case Ok(data) => LoadIdentity(f1, data, freshUuid)
  }

  /** The uuid, type, name and design steps of a load. */
  function LoadIdentity(f: Fields, data: map<string, Tag>, freshUuid: string): LoadOutcome {
    match GetString(data, "uuid", Some(freshUuid))
    case Err(e) => LoadOutcome(f, Some(TagFault(e)))
    case Ok(u) =>
      var f1 := f.(uuid := Some(u));
      match GetInt(data, "type", Some(VEHICLE_TYPE_UNKNOWN))
      case Err(e) => LoadOutcome(f1, Some(TagFault(e)))
      case Ok(t) =>
        var f2 := f1.(vehicleType := t);
        match GetString(data, "name", None)
        case Err(e) => LoadOutcome(f2, Some(TagFault(e)))
        case Ok(n) =>
          var f3 := f2.(name := Some(n));
          match GetString(data, "design", None)
          case Err(e) => LoadOutcome(f3, Some(TagFault(e)))
          case Ok(d) => LoadMotion(f3.(designName := Some(d)), data)
  }

  /** The gravity, scale and speed steps of a load. */
  function LoadMotion(f: Fields, data: map<string, Tag>): LoadOutcome {
    match GetDouble(data, "gravity", Some(1.0))
    case Err(e) => LoadOutcome(f, Some(TagFault(e)))
    case Ok(g) =>
      var f1 := f.(gravity := g);
      match GetFloat(data, "scale", Some(1.0))
      case Err(e) => LoadOutcome(f1, Some(TagFault(e)))
      case Ok(s) =>
        var f2 := f1.(scale := s);
        match GetDouble(data, "forwardSpeed", Some(1.0))
        case Err(e) => LoadOutcome(f2, Some(TagFault(e)))
        case Ok(fw) =>
          var f3 := f2.(speed := f2.speed.(forward := Some(fw)));
          match GetDouble(data, "backwardSpeed", Some(1.0))
          case Err(e) => LoadOutcome(f3, Some(TagFault(e)))
          case Ok(bw) =>
            var f4 := f3.(speed := f3.speed.(backward := Some(bw)));
            match GetDouble(data, "leftSpeed", Some(1.0))
            case Err(e) => LoadOutcome(f4, Some(TagFault(e)))
            case Ok(l) =>
              var f5 := f4.(speed := f4.speed.(left := Some(l)));
              match GetDouble(data, "rightSpeed", Some(1.0))
              case Err(e) => LoadOutcome(f5, Some(TagFault(e)))
              case Ok(r) => LoadGeometry(f5.(speed := f5.speed.(right := Some(r))), data)
  }

  /** The bbox, driver seat and passenger seat steps of a load. */
  function LoadGeometry(f: Fields, data: map<string, Tag>): LoadOutcome {
    match GetList(data, "bbox")
    case Err(e) => LoadOutcome(f, Some(TagFault(e)))
    case Ok(boxItems) =>
      match Numbers(boxItems)
      case None => LoadOutcome(f, Some(NotNumeric("bbox")))
      case Some(b) =>
        var f1 := f.(bbox := b);
        match GetList(data, "driverSeat")
        case Err(e) => LoadOutcome(f1, Some(TagFault(e)))
        case Ok(driverItems) =>
          match Numbers(driverItems)
          case None => LoadOutcome(f1, Some(NotNumeric("driverSeat")))
          case Some(d) =>
            var f2 := f1.(driverSeat := d);
            match GetList(data, "passengerSeats")
            case Err(e) => LoadOutcome(f2, Some(TagFault(e)))
            case Ok(stored) =>
              var appended := AppendSeats(f2.passengerSeats, stored);
              LoadOutcome(f2.(passengerSeats := appended.seats), appended.error)
  }

  /** `$ltag->getAllValues()` on one stored passenger seat. */
  function SeatOf(t: Tag): Result<seq<real>, LoadError> {
    if !t.List? then Err(NotASeat)
    else
      match Numbers(t.items)
      case None => Err(NotNumeric("passengerSeats"))
      case Some(s) => Ok(s)
  }

  /** The passenger seats after the seat loop, and the failure that stopped it, if any. */
  datatype SeatsOutcome = SeatsOutcome(seats: seq<seq<real>>, error: Option<LoadError>)

  /**
   * The foreach over the stored passenger seats: each one is appended to
   * the seats already present; a bad entry stops the loop, keeping the
   * seats appended before it.
   */
  function AppendSeats(present: seq<seq<real>>, stored: seq<Tag>): SeatsOutcome
    decreases |stored|
  {
    if stored == [] then SeatsOutcome(present, None)
    else
      match SeatOf(stored[0])
      case Err(e) => SeatsOutcome(present, Some(e))
      case Ok(s) => AppendSeats(present + [s], stored[1..])
  }

  // ---------------------------------------------------------------------
  // Saving

  datatype SaveError =
    | Unset(key: string)      // a field that is still null is written
    | TooShort(key: string)   // a coordinate list has fewer entries than are written
    | TagClash(key: string)   // an entry of another tag type is there and may not be replaced

  /** The entity's tree after a save attempt, and the failure, if any. */
  datatype SaveOutcome = SaveOutcome(nbt: map<string, Tag>, error: Option<SaveError>)

  /** The list written for one passenger seat: its first three coordinates. */
  function SeatTag(seat: seq<real>): Tag
    requires |seat| >= 3
  {
    List([Float(seat[0]), Float(seat[1]), Float(seat[2])])
  }

  /** The `$passengerSeats` list the save builds, one entry per seat in order. */
  function SeatTags(seats: seq<seq<real>>): (r: Result<seq<Tag>, SaveError>)
    ensures r.Ok? <==> forall k :: 0 <= k < |seats| ==> |seats[k]| >= 3
    ensures r.Err? ==> r.error == TooShort("passengerSeats")
    ensures r.Ok? ==> |r.value| == |seats|
    ensures r.Ok? ==> forall k :: 0 <= k < |seats| ==> |seats[k]| >= 3 && r.value[k] == SeatTag(seats[k])
  {
    if seats == [] then Ok([])
    else if |seats[0]| < 3 then Err(TooShort("passengerSeats"))
    else
      match SeatTags(seats[1..])
      case Err(e) => Err(e)
      case Ok(rest) => Ok([SeatTag(seats[0])] + rest)
  }

  /** The "vehicleData" compound written from the fields `f`. */
  function VehicleData(f: Fields): Result<map<string, Tag>, SaveError> {
    match SeatTags(f.passengerSeats)
    case Err(e) => Err(e)
    case Ok(seats) => VehicleDataWith(f, seats)
  }

  /** The compound built from the fields `f` and the passenger list `seats` built before it. */
  function VehicleDataWith(f: Fields, seats: seq<Tag>): Result<map<string, Tag>, SaveError> {
    if f.uuid.None? then Err(Unset("uuid"))
    else if f.name.None? then Err(Unset("name"))
    else if f.designName.None? then Err(Unset("design"))
    else if f.speed.forward.None? then Err(Unset("forwardSpeed"))
    else if f.speed.backward.None? then Err(Unset("backwardSpeed"))
    else if f.speed.left.None? then Err(Unset("leftSpeed"))
    else if f.speed.right.None? then Err(Unset("rightSpeed"))
    else if |f.bbox| < 6 then Err(TooShort("bbox"))
    else if |f.driverSeat| < 3 then Err(TooShort("driverSeat"))
    else
      Ok(map[
        "type" := Int(f.vehicleType),
        "uuid" := Str(f.uuid.value),
        "name" := Str(f.name.value),
        "design" := Str(f.designName.value),
        "gravity" := Double(f.gravity),
        "forwardSpeed" := Double(f.speed.forward.value),
        "backwardSpeed" := Double(f.speed.backward.value),
        "leftSpeed" := Double(f.speed.left.value),
        "rightSpeed" := Double(f.speed.right.value),
        "bbox" := List([Float(f.bbox[0]), Float(f.bbox[1]), Float(f.bbox[2]),
                        Float(f.bbox[3]), Float(f.bbox[4]), Float(f.bbox[5])]),
        "driverSeat" := List([Float(f.driverSeat[0]), Float(f.driverSeat[1]), Float(f.driverSeat[2])]),
        "passengerSeats" := List(seats)])
  }

  /**
   * What saveIntoNBT does to the entity's tree `nbt`: "vehicle" is written
   * first (setInt without the overwrite flag refuses a stored entry of
   * another tag type, and then nothing is written), then "vehicleData"
   * replaces whatever was stored under that key; when building the
   * compound fails, the "vehicle" entry stays written.
   */
  function Save(f: Fields, nbt: map<string, Tag>, supported: int): SaveOutcome {
    if !VersionWritable(nbt) then SaveOutcome(nbt, Some(TagClash("vehicle")))
    else
      var withVersion := nbt["vehicle" := Int(f.version.GetOr(supported))];
      match VehicleData(f)
      case Err(e) => SaveOutcome(withVersion, Some(e))
      case Ok(data) => SaveOutcome(withVersion["vehicleData" := Compound(data)], None)
  }

  /**
   * Whether setInt without its overwrite flag may write "vehicle": only
   * when the entry is absent or already an int.
   */
  predicate VersionWritable(nbt: map<string, Tag>) {
    "vehicle" !in nbt || nbt["vehicle"].Int?
  }

  /** The loop that builds `$passengerSeats`; it changes nothing else. */
  method PassengerSeatTags(seats: seq<seq<real>>) returns (r: Result<seq<Tag>, SaveError>)
    ensures r == SeatTags(seats)
  {
    var built: seq<Tag> := [];
    var i := 0;
    while i < |seats|
      invariant 0 <= i <= |seats|
      invariant forall k :: 0 <= k < i ==> |seats[k]| >= 3
      invariant |built| == i
      invariant forall k :: 0 <= k < i ==> built[k] == SeatTag(seats[k])
    {
      var seat := seats[i];
      if |seat| < 3 {
        return Err(TooShort("passengerSeats"));
      }
      built := built + [List([Float(seat[0]), Float(seat[1]), Float(seat[2])])];
      i := i + 1;
    }
    ghost var spec := SeatTags(seats);
    assert spec.Ok? && built == spec.value;
    return Ok(built);
  }

  // ---------------------------------------------------------------------
  // The record

  /**
   * A vehicle entity's own fields. `namedtag` is the tree the host entity
   * keeps for the vehicle (the entity base class's field), which a save
   * writes into.
   */
  class VehicleBase {
    var namedtag: map<string, Tag>
    var uuid: Option<string>
    var gravity: real
    var name: Option<string>
    var version: Option<int>
    var vehicleType: int
    var scale: real
    var designName: Option<string>
    var bbox: seq<real>
    var driverSeat: seq<real>
    var passengerSeats: seq<seq<real>>
    var speed: Speed

    /** The record's fields now. */
    function Snapshot(): Fields
      reads this
    {
      Fields(uuid, name, version, vehicleType, scale, designName, gravity,
             bbox, driverSeat, passengerSeats, speed)
    }

    /** The field initialisers, and the host entity keeping `nbt` as its tree. */
    constructor (nbt: map<string, Tag>)
      ensures Snapshot() == Initial() && namedtag == nbt
    {
      namedtag := nbt;
      uuid := None;
      gravity := 1.0;
      name := None;
      version := None;
      vehicleType := VEHICLE_TYPE_UNKNOWN;
      scale := 1.6;
      designName := None;
      bbox := [0.0, 0.0, 0.0, 0.0, 0.0, 0.0];
      driverSeat := [];
      passengerSeats := [];
      speed := Speed(None, None, None, None);
    }

    /**
     * The vehicle's construction: the record is loaded from `nbt`, and a
     * failed load means there is no vehicle.
     */
    static method Construct(nbt: map<string, Tag>, supported: int, freshUuid: string)
      returns (v: VehicleBase?, error: Option<LoadError>)
      ensures var o := Load(Initial(), nbt, supported, freshUuid);
        error == o.error &&
        (v == null <==> o.error.Some?) &&
        (v != null ==> fresh(v) && v.Snapshot() == o.fields && v.namedtag == nbt)
    {
      var b := new VehicleBase(nbt);
      error := b.LoadFromNbt(nbt, supported, freshUuid);
      v := if error.None? then b else null;
    }

    /**
     * loadFromNBT: the fields assigned one by one, stopping at the first
     * failure. The three stages below are the consecutive parts of its body.
     */
    method LoadFromNbt(nbt: map<string, Tag>, supported: int, freshUuid: string)
      returns (error: Option<LoadError>)
      modifies this
      ensures var o := Load(old(Snapshot()), nbt, supported, freshUuid);
        Snapshot() == o.fields && error == o.error
      ensures namedtag == old(namedtag)
    {
      var check := GetInt(nbt, "vehicle", Some(-1));
      if check.Err? { return Some(TagFault(check.error)); }
      if check.value != supported { return Some(VersionMismatch(check.value)); }
      var stored := GetInt(nbt, "vehicle", None);
      if stored.Err? { return Some(TagFault(stored.error)); }
      version := Some(stored.value);

      var vehicleData := GetCompound(nbt, "vehicleData");
      if vehicleData.Err? { return Some(TagFault(vehicleData.error)); }
      error := LoadIdentityFrom(vehicleData.value, freshUuid);
    }

    /** The uuid, type, name and design assignments, then the rest. */
    method LoadIdentityFrom(data: map<string, Tag>, freshUuid: string) returns (error: Option<LoadError>)
      modifies this
      ensures var o := LoadIdentity(old(Snapshot()), data, freshUuid);
        Snapshot() == o.fields && error == o.error
      ensures namedtag == old(namedtag)
    {
      var u := GetString(data, "uuid", Some(freshUuid));
      if u.Err? { return Some(TagFault(u.error)); }
      uuid := Some(u.value);
      var t := GetInt(data, "type", Some(VEHICLE_TYPE_UNKNOWN));
      if t.Err? { return Some(TagFault(t.error)); }
      vehicleType := t.value;
      var n := GetString(data, "name", None);
      if n.Err? { return Some(TagFault(n.error)); }
      name := Some(n.value);
      var d := GetString(data, "design", None);
      if d.Err? { return Some(TagFault(d.error)); }
      designName := Some(d.value);
      error := LoadMotionFrom(data);
    }

    /** The gravity, scale and speed assignments, then the rest. */
    method LoadMotionFrom(data: map<string, Tag>) returns (error: Option<LoadError>)
      modifies this
      ensures var o := LoadMotion(old(Snapshot()), data);
        Snapshot() == o.fields && error == o.error
      ensures namedtag == old(namedtag)
    {
      var g := GetDouble(data, "gravity", Some(1.0));
      if g.Err? { return Some(TagFault(g.error)); }
      gravity := g.value;
      var s := GetFloat(data, "scale", Some(1.0));
      if s.Err? { return Some(TagFault(s.error)); }
      scale := s.value;

      var fw := GetDouble(data, "forwardSpeed", Some(1.0));
      if fw.Err? { return Some(TagFault(fw.error)); }
      speed := speed.(forward := Some(fw.value));
      var bw := GetDouble(data, "backwardSpeed", Some(1.0));
      if bw.Err? { return Some(TagFault(bw.error)); }
      speed := speed.(backward := Some(bw.value));
      var l := GetDouble(data, "leftSpeed", Some(1.0));
      if l.Err? { return Some(TagFault(l.error)); }
      speed := speed.(left := Some(l.value));
      var r := GetDouble(data, "rightSpeed", Some(1.0));
      if r.Err? { return Some(TagFault(r.error)); }
      speed := speed.(right := Some(r.value));
      error := LoadGeometryFrom(data);
    }

    /** The bbox and driver seat assignments and the passenger seat loop. */
    method LoadGeometryFrom(data: map<string, Tag>) returns (error: Option<LoadError>)
      modifies this
      ensures var o := LoadGeometry(old(Snapshot()), data);
        Snapshot() == o.fields && error == o.error
      ensures namedtag == old(namedtag)
    {
      var boxList := GetList(data, "bbox");
      if boxList.Err? { return Some(TagFault(boxList.error)); }
      var box := Numbers(boxList.value);
      if box.None? { return Some(NotNumeric("bbox")); }
      bbox := box.value;

      var driverList := GetList(data, "driverSeat");
      if driverList.Err? { return Some(TagFault(driverList.error)); }
      var driver := Numbers(driverList.value);
      if driver.None? { return Some(NotNumeric("driverSeat")); }
      driverSeat := driver.value;

      var seatList := GetList(data, "passengerSeats");
      if seatList.Err? { return Some(TagFault(seatList.error)); }
      var seats := seatList.value;
      ghost var before := Snapshot();
      ghost var goal := AppendSeats(passengerSeats, seats);
      var i := 0;
      while i < |seats|
        invariant 0 <= i <= |seats|
        invariant namedtag == old(namedtag)
        invariant Snapshot() == before.(passengerSeats := passengerSeats)
        invariant AppendSeats(passengerSeats, seats[i..]) == goal
      {
        assert seats[i..][0] == seats[i] && seats[i..][1..] == seats[i + 1..];
        var ltag := seats[i];
        if !ltag.List? { return Some(NotASeat); }
        var values := Numbers(ltag.items);
        if values.None? { return Some(NotNumeric("passengerSeats")); }
        passengerSeats := passengerSeats + [values.value];
        i := i + 1;
      }
      return None;
    }

    /** saveIntoNBT: "vehicle" first, then the "vehicleData" compound. */
    method SaveIntoNbt(supported: int) returns (error: Option<SaveError>)
      modifies this`namedtag
      ensures var o := Save(old(Snapshot()), old(namedtag), supported);
        namedtag == o.nbt && error == o.error
    {
      if "vehicle" in namedtag && !namedtag["vehicle"].Int? { return Some(TagClash("vehicle")); }
      namedtag := namedtag["vehicle" := Int(version.GetOr(supported))];

      var seats := PassengerSeatTags(passengerSeats);
      if seats.Err? { return Some(seats.error); }

      var data := VehicleDataWith(Snapshot(), seats.value);
      if data.Err? { return Some(data.error); }
      namedtag := namedtag["vehicleData" := Compound(data.value)];
      return None;
    }

    function GetUuid(): Option<string> reads this { uuid }
    function GetVehicleName(): Option<string> reads this { name }
    function GetVehicleVersion(): Option<int> reads this { version }
    function GetVehicleType(): int reads this { vehicleType }
    function GetVehicleScale(): real reads this { scale }
    function GetVehicleDesignName(): Option<string> reads this { designName }
    function GetVehicleSpeed(): Speed reads this { speed }
    function GetVehicleSeats(): (seq<real>, seq<seq<real>>) reads this { (driverSeat, passengerSeats) }
    function GetVehicleDriverSeat(): seq<real> reads this { driverSeat }
    function GetVehiclePassengerSeats(): seq<seq<real>> reads this { passengerSeats }
  }
}
