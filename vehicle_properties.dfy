/**
 * What loading and saving a vehicle record guarantee: the strict version
 * gate, the per-field default policy, the order of passenger seats, the
 * shape of what is saved, and the partial round trip save-then-load.
 */
module VehicleProperties {
  import opened Wrappers
  import opened Nbt
  import opened Vehicles

  // ---------------------------------------------------------------------
  // The passenger seat loop

  /**
   * The loop only appends: the seats already present stay in front, entry
   * k of what is appended is the k-th stored seat, and the loop stops
   * exactly at the first stored entry that is not a list of numbers (the
   * seats before it stay appended).
   */
  lemma {:induction false} AppendSeatsAppends(present: seq<seq<real>>, stored: seq<Tag>)
    ensures var o := AppendSeats(present, stored);
      var n := |present|;
      var p := o.seats;
      n <= |p| <= n + |stored| &&
      p[..n] == present &&
      (forall k :: 0 <= k < |p| - n ==> SeatOf(stored[k]) == Ok(p[n + k])) &&
      (o.error.None? <==> |p| == n + |stored|) &&
      (o.error.Some? ==> SeatOf(stored[|p| - n]).Err? && o.error == Some(SeatOf(stored[|p| - n]).error))
    decreases |stored|
  {
    if stored != [] {
      match SeatOf(stored[0])
      case Err(_) =>
      case Ok(s) =>
        AppendSeatsAppends(present + [s], stored[1..]);
        var p := AppendSeats(present + [s], stored[1..]).seats;
        var n := |present|;
        assert p[..n + 1][..n] == p[..n];
        forall k | 0 <= k < |p| - n
          ensures SeatOf(stored[k]) == Ok(p[n + k])
        {
          if k > 0 {
            assert stored[1..][k - 1] == stored[k];
          }
        }
    }
  }

  // ---------------------------------------------------------------------
  // Loading

  /**
   * The version gate: unless the tree stores exactly the supported version
   * as an int under "vehicle", loading fails and assigns no field. A
   * missing version reads as -1, so it fails with a mismatch unless the
   * supported version is itself -1 (then the second read, which has no
   * default, fails).
   */
  lemma VersionGate(f: Fields, nbt: map<string, Tag>, supported: int, freshUuid: string)
    requires !("vehicle" in nbt && nbt["vehicle"] == Int(supported))
    ensures var o := Load(f, nbt, supported, freshUuid);
      o.error.Some? && o.fields == f &&
      ("vehicle" in nbt && nbt["vehicle"].Int? ==> o.error == Some(VersionMismatch(nbt["vehicle"].i))) &&
      ("vehicle" in nbt && !nbt["vehicle"].Int? ==> o.error == Some(TagFault(WrongType("vehicle")))) &&
      ("vehicle" !in nbt && supported != -1 ==> o.error == Some(VersionMismatch(-1))) &&
      ("vehicle" !in nbt && supported == -1 ==> o.error == Some(TagFault(Missing("vehicle"))))
  {
  }

  /**
   * A successful load: the tree stored the supported version and a
   * "vehicleData" compound, the version field is the supported one, name
   * and design are the stored strings, every field that may be absent is
   * the stored value or its default (uuid: the fresh one; type 9; gravity,
   * scale and the four speeds 1.0), and bbox and driver seat are the
   * stored numbers. Passenger seats are described by LoadAppendsSeats.
   */
  lemma LoadedFields(f: Fields, nbt: map<string, Tag>, supported: int, freshUuid: string)
    requires Load(f, nbt, supported, freshUuid).error.None?
    ensures "vehicle" in nbt && nbt["vehicle"] == Int(supported)
    ensures "vehicleData" in nbt && nbt["vehicleData"].Compound?
    ensures var data := nbt["vehicleData"].entries;
      var r := Load(f, nbt, supported, freshUuid).fields;
      r.version == Some(supported) &&
      r.uuid.Some? && r.name.Some? && r.designName.Some? &&
      r.speed.forward.Some? && r.speed.backward.Some? && r.speed.left.Some? && r.speed.right.Some? &&
      ("uuid" in data ==> data["uuid"] == Str(r.uuid.value)) &&
      ("uuid" !in data ==> r.uuid == Some(freshUuid)) &&
      ("type" in data ==> data["type"] == Int(r.vehicleType)) &&
      ("type" !in data ==> r.vehicleType == VEHICLE_TYPE_UNKNOWN) &&
      "name" in data && data["name"] == Str(r.name.value) &&
      "design" in data && data["design"] == Str(r.designName.value) &&
      ("gravity" in data ==> data["gravity"] == Double(r.gravity)) &&
      ("gravity" !in data ==> r.gravity == 1.0) &&
      ("scale" in data ==> data["scale"] == Float(r.scale)) &&
      ("scale" !in data ==> r.scale == 1.0) &&
      ("forwardSpeed" in data ==> data["forwardSpeed"] == Double(r.speed.forward.value)) &&
      ("forwardSpeed" !in data ==> r.speed.forward == Some(1.0)) &&
      ("backwardSpeed" in data ==> data["backwardSpeed"] == Double(r.speed.backward.value)) &&
      ("backwardSpeed" !in data ==> r.speed.backward == Some(1.0)) &&
      ("leftSpeed" in data ==> data["leftSpeed"] == Double(r.speed.left.value)) &&
      ("leftSpeed" !in data ==> r.speed.left == Some(1.0)) &&
      ("rightSpeed" in data ==> data["rightSpeed"] == Double(r.speed.right.value)) &&
      ("rightSpeed" !in data ==> r.speed.right == Some(1.0)) &&
      "bbox" in data && data["bbox"].List? && Numbers(data["bbox"].items) == Some(r.bbox) &&
      "driverSeat" in data && data["driverSeat"].List? && Numbers(data["driverSeat"].items) == Some(r.driverSeat)
  {
  }

  /**
   * Passenger seats are appended to those already in the record, one per
   * stored entry, in stored order.
   */
  lemma LoadAppendsSeats(f: Fields, nbt: map<string, Tag>, supported: int, freshUuid: string)
    requires Load(f, nbt, supported, freshUuid).error.None?
    ensures "vehicleData" in nbt && nbt["vehicleData"].Compound?
    ensures "passengerSeats" in nbt["vehicleData"].entries
    ensures nbt["vehicleData"].entries["passengerSeats"].List?
    ensures var stored := nbt["vehicleData"].entries["passengerSeats"].items;
      var p := Load(f, nbt, supported, freshUuid).fields.passengerSeats;
      var n := |f.passengerSeats|;
      |p| == n + |stored| && p[..n] == f.passengerSeats &&
      forall k :: 0 <= k < |stored| ==> SeatOf(stored[k]) == Ok(p[n + k])
  {
    var stored := nbt["vehicleData"].entries["passengerSeats"].items;
    AppendSeatsAppends(f.passengerSeats, stored);
  }

  /** Into a freshly constructed record, the seats are exactly the stored ones: seat k is entry k. */
  lemma FreshLoadSeats(nbt: map<string, Tag>, supported: int, freshUuid: string)
    requires Load(Initial(), nbt, supported, freshUuid).error.None?
    ensures "vehicleData" in nbt && nbt["vehicleData"].Compound?
    ensures "passengerSeats" in nbt["vehicleData"].entries
    ensures nbt["vehicleData"].entries["passengerSeats"].List?
    ensures var stored := nbt["vehicleData"].entries["passengerSeats"].items;
      var p := Load(Initial(), nbt, supported, freshUuid).fields.passengerSeats;
      |p| == |stored| && forall k :: 0 <= k < |stored| ==> SeatOf(stored[k]) == Ok(p[k])
  {
    LoadAppendsSeats(Initial(), nbt, supported, freshUuid);
  }

  /**
   * A tree whose version and uuid, type and name entries are acceptable
   * but which stores no design fails as the design's accessor fails (it
   * has no default, like the name's), and the load is not atomic: version, uuid, type and name have been assigned already.
   */
  lemma MissingDesignFails(f: Fields, nbt: map<string, Tag>, supported: int, freshUuid: string,
                           data: map<string, Tag>, u: string, t: int, n: string)
    requires "vehicle" in nbt && nbt["vehicle"] == Int(supported)
    requires "vehicleData" in nbt && nbt["vehicleData"] == Compound(data)
    requires GetString(data, "uuid", Some(freshUuid)) == Ok(u)
    requires GetInt(data, "type", Some(VEHICLE_TYPE_UNKNOWN)) == Ok(t)
    requires "name" in data && data["name"] == Str(n)
    requires "design" !in data
    ensures Load(f, nbt, supported, freshUuid) ==
      LoadOutcome(f.(version := Some(supported), uuid := Some(u), vehicleType := t, name := Some(n)),
                  Some(TagFault(Missing("design"))))
  {
  }

  /**
   * The getters of a vehicle whose construction succeeded: the version is
   * the supported one, and uuid, name, design and the four speeds are no
   * longer null.
   */
  lemma ConstructedGetters(v: VehicleBase, nbt: map<string, Tag>, supported: int, freshUuid: string)
    requires Load(Initial(), nbt, supported, freshUuid).error.None?
    requires v.Snapshot() == Load(Initial(), nbt, supported, freshUuid).fields
    ensures v.GetVehicleVersion() == Some(supported)
    ensures v.GetUuid().Some? && v.GetVehicleName().Some? && v.GetVehicleDesignName().Some?
    ensures var s := v.GetVehicleSpeed();
      s.forward.Some? && s.backward.Some? && s.left.Some? && s.right.Some?
    ensures var r := Load(Initial(), nbt, supported, freshUuid).fields;
      v.GetVehicleDriverSeat() == r.driverSeat && v.GetVehiclePassengerSeats() == r.passengerSeats &&
      v.GetVehicleSeats() == (r.driverSeat, r.passengerSeats) &&
      v.GetVehicleType() == r.vehicleType && v.GetVehicleScale() == r.scale
  {
    LoadedFields(Initial(), nbt, supported, freshUuid);
  }

  /** The tree of a vehicle whose construction succeeded holds an int "vehicle", so a save may write it. */
  lemma ConstructedTreeWritable(f: Fields, nbt: map<string, Tag>, supported: int, freshUuid: string)
    requires Load(f, nbt, supported, freshUuid).error.None?
    ensures VersionWritable(nbt)
  {
    LoadedFields(f, nbt, supported, freshUuid);
  }

  // ---------------------------------------------------------------------
  // Saving

  /** The fields a save needs: nothing still null, and long enough coordinate lists. */
  predicate Savable(f: Fields) {
    f.uuid.Some? && f.name.Some? && f.designName.Some? &&
    f.speed.forward.Some? && f.speed.backward.Some? && f.speed.left.Some? && f.speed.right.Some? &&
    |f.bbox| >= 6 && |f.driverSeat| >= 3 &&
    forall k :: 0 <= k < |f.passengerSeats| ==> |f.passengerSeats[k]| >= 3
  }

  /** A save succeeds exactly when the record is savable and "vehicle" may be written. */
  lemma SaveSucceedsIff(f: Fields, nbt: map<string, Tag>, supported: int)
    ensures Save(f, nbt, supported).error.None? <==> Savable(f) && VersionWritable(nbt)
  {
  }

  /**
   * A stored "vehicle" of another tag type stops the save before anything
   * is written. Otherwise "vehicle" is written as the loaded version, or
   * the supported one when none was loaded, and no other entry but
   * "vehicleData" changes; a failed save leaves "vehicleData" as it was,
   * a successful one replaces it by a compound.
   */
  lemma SaveWritesVersion(f: Fields, nbt: map<string, Tag>, supported: int)
    ensures !VersionWritable(nbt) ==> Save(f, nbt, supported) == SaveOutcome(nbt, Some(TagClash("vehicle")))
    ensures var o := Save(f, nbt, supported);
      VersionWritable(nbt) ==>
      "vehicle" in o.nbt && o.nbt["vehicle"] == Int(f.version.GetOr(supported)) &&
      o.nbt.Keys <= nbt.Keys + {"vehicle", "vehicleData"} &&
      (forall k :: k in nbt && k != "vehicle" && k != "vehicleData" ==> k in o.nbt && o.nbt[k] == nbt[k]) &&
      (o.error.Some? ==> ("vehicleData" in o.nbt <==> "vehicleData" in nbt)) &&
      (o.error.Some? && "vehicleData" in nbt ==> o.nbt["vehicleData"] == nbt["vehicleData"]) &&
      (o.error.None? ==> "vehicleData" in o.nbt && o.nbt["vehicleData"].Compound?)
  {
  }

  /**
   * The shape of a saved "vehicleData": the scalar fields as typed
   * entries, a bbox list of exactly 6 floats, a driverSeat list of exactly
   * 3, one 3-float list per passenger seat in seat order, and no scale.
   */
  lemma SaveShape(f: Fields, nbt: map<string, Tag>, supported: int)
    requires Savable(f)
    requires VersionWritable(nbt)
    ensures var o := Save(f, nbt, supported);
      "vehicleData" in o.nbt && o.nbt["vehicleData"].Compound?
    ensures Save(f, nbt, supported).nbt["vehicleData"].entries.Keys == SAVED_KEYS
    ensures var data := Save(f, nbt, supported).nbt["vehicleData"].entries;
      "scale" !in data &&
      "type" in data && data["type"] == Int(f.vehicleType) &&
      "uuid" in data && data["uuid"] == Str(f.uuid.value) &&
      "name" in data && data["name"] == Str(f.name.value) &&
      "design" in data && data["design"] == Str(f.designName.value) &&
      "gravity" in data && data["gravity"] == Double(f.gravity) &&
      "forwardSpeed" in data && data["forwardSpeed"] == Double(f.speed.forward.value) &&
      "backwardSpeed" in data && data["backwardSpeed"] == Double(f.speed.backward.value) &&
      "leftSpeed" in data && data["leftSpeed"] == Double(f.speed.left.value) &&
      "rightSpeed" in data && data["rightSpeed"] == Double(f.speed.right.value)
    ensures var data := Save(f, nbt, supported).nbt["vehicleData"].entries;
      "bbox" in data && data["bbox"].List? && |data["bbox"].items| == 6 &&
      (forall k :: 0 <= k < 6 ==> data["bbox"].items[k] == Float(f.bbox[k])) &&
      "driverSeat" in data && data["driverSeat"].List? && |data["driverSeat"].items| == 3 &&
      (forall k :: 0 <= k < 3 ==> data["driverSeat"].items[k] == Float(f.driverSeat[k]))
    ensures var data := Save(f, nbt, supported).nbt["vehicleData"].entries;
      "passengerSeats" in data && data["passengerSeats"].List? &&
      |data["passengerSeats"].items| == |f.passengerSeats| &&
      (forall k :: 0 <= k < |f.passengerSeats| ==>
         data["passengerSeats"].items[k] == SeatTag(f.passengerSeats[k]))
  {
    assert VehicleData(f).Ok?;
    assert Save(f, nbt, supported).nbt["vehicleData"] == Compound(VehicleData(f).value);
    VehicleDataKeys(f);
    VehicleDataScalars(f);
    VehicleDataLists(f);
  }

  /** The twelve entries a saved "vehicleData" compound holds, and no others. */
  const SAVED_KEYS: set<string> :=
    {"type", "uuid", "name", "design", "gravity", "forwardSpeed", "backwardSpeed",
     "leftSpeed", "rightSpeed", "bbox", "driverSeat", "passengerSeats"}

  /** The compound a save writes holds exactly the twelve saved entries. */
  lemma VehicleDataKeys(f: Fields)
    requires Savable(f)
    ensures VehicleData(f).Ok? && VehicleData(f).value.Keys == SAVED_KEYS
  {
  }

  lemma VehicleDataScalars(f: Fields)
    requires Savable(f)
    ensures VehicleData(f).Ok?
    ensures var data := VehicleData(f).value;
      "scale" !in data &&
      "type" in data && data["type"] == Int(f.vehicleType) &&
      "uuid" in data && data["uuid"] == Str(f.uuid.value) &&
      "name" in data && data["name"] == Str(f.name.value) &&
      "design" in data && data["design"] == Str(f.designName.value) &&
      "gravity" in data && data["gravity"] == Double(f.gravity) &&
      "forwardSpeed" in data && data["forwardSpeed"] == Double(f.speed.forward.value) &&
      "backwardSpeed" in data && data["backwardSpeed"] == Double(f.speed.backward.value) &&
      "leftSpeed" in data && data["leftSpeed"] == Double(f.speed.left.value) &&
      "rightSpeed" in data && data["rightSpeed"] == Double(f.speed.right.value)
  {
  }

  lemma VehicleDataLists(f: Fields)
    requires Savable(f)
    ensures VehicleData(f).Ok?
    ensures var data := VehicleData(f).value;
      "bbox" in data && data["bbox"].List? && |data["bbox"].items| == 6 &&
      (forall k :: 0 <= k < 6 ==> data["bbox"].items[k] == Float(f.bbox[k])) &&
      "driverSeat" in data && data["driverSeat"].List? && |data["driverSeat"].items| == 3 &&
      (forall k :: 0 <= k < 3 ==> data["driverSeat"].items[k] == Float(f.driverSeat[k]))
    ensures var data := VehicleData(f).value;
      "passengerSeats" in data && data["passengerSeats"].List? &&
      |data["passengerSeats"].items| == |f.passengerSeats| &&
      (forall k :: 0 <= k < |f.passengerSeats| ==>
         data["passengerSeats"].items[k] == SeatTag(f.passengerSeats[k]))
  {
    assert VehicleData(f).value["passengerSeats"] == List(SeatTags(f.passengerSeats).value);
  }

  // ---------------------------------------------------------------------
  // Round trip

  /** The first three coordinates of every seat: what a save keeps of them. */
  function FirstThree(seats: seq<seq<real>>): seq<seq<real>>
    requires forall k :: 0 <= k < |seats| ==> |seats[k]| >= 3
  {
    seq(|seats|, k requires 0 <= k < |seats| => seats[k][..3])
  }

  /** A list of float tags reads back as its numbers. */
  lemma NumbersOfFloats(items: seq<Tag>, xs: seq<real>)
    requires |items| == |xs|
    requires forall k :: 0 <= k < |items| ==> items[k] == Float(xs[k])
    ensures Numbers(items) == Some(xs)
  {
    var r := Numbers(items);
    assert forall k :: 0 <= k < |items| ==> NumberOf(items[k]) == Some(xs[k]);
    assert r.Some?;
    assert r.value == xs;
  }

  /** One saved seat reads back as its first three coordinates. */
  lemma SeatRoundTrip(seat: seq<real>)
    requires |seat| >= 3
    ensures SeatOf(SeatTag(seat)) == Ok(seat[..3])
  {
    NumbersOfFloats(SeatTag(seat).items, seat[..3]);
  }

  /** Reading back the uuid, type, name and design a save wrote. */
  lemma IdentityReadsBack(g: Fields, f: Fields, freshUuid: string)
    requires Savable(f)
    ensures VehicleData(f).Ok?
    ensures LoadIdentity(g, VehicleData(f).value, freshUuid)
         == LoadMotion(g.(uuid := f.uuid, vehicleType := f.vehicleType, name := f.name,
                          designName := f.designName), VehicleData(f).value)
  {
    VehicleDataScalars(f);
  }

  /** Reading back the gravity and speeds a save wrote; scale was not written. */
  lemma MotionReadsBack(g: Fields, f: Fields)
    requires Savable(f)
    ensures VehicleData(f).Ok?
    ensures LoadMotion(g, VehicleData(f).value)
         == LoadGeometry(g.(gravity := f.gravity, scale := 1.0, speed := f.speed), VehicleData(f).value)
  {
    VehicleDataScalars(f);
  }

  /** Reading back the bbox and driver seat a save wrote, up to the passenger seat loop. */
  lemma GeometryReadsBack(g: Fields, f: Fields)
    requires Savable(f)
    ensures VehicleData(f).Ok? && SeatTags(f.passengerSeats).Ok?
    ensures var appended := AppendSeats(g.passengerSeats, SeatTags(f.passengerSeats).value);
      LoadGeometry(g, VehicleData(f).value)
        == LoadOutcome(g.(bbox := f.bbox[..6], driverSeat := f.driverSeat[..3], passengerSeats := appended.seats),
                       appended.error)
  {
    VehicleDataLists(f);
    var data := VehicleData(f).value;
    NumbersOfFloats(data["bbox"].items, f.bbox[..6]);
    NumbersOfFloats(data["driverSeat"].items, f.driverSeat[..3]);
    assert data["passengerSeats"] == List(SeatTags(f.passengerSeats).value);
  }

  lemma SeatTagsCons(seats: seq<seq<real>>)
    requires |seats| > 0
    requires forall k :: 0 <= k < |seats| ==> |seats[k]| >= 3
    ensures SeatTags(seats).Ok?
    ensures SeatTags(seats).value == [SeatTag(seats[0])] + SeatTags(seats[1..]).value
  {
  }

  lemma FirstThreeCons(seats: seq<seq<real>>)
    requires |seats| > 0
    requires forall k :: 0 <= k < |seats| ==> |seats[k]| >= 3
    ensures FirstThree(seats) == [seats[0][..3]] + FirstThree(seats[1..])
  {
  }

  /** The passenger seat loop over saved seats appends their first three coordinates, and succeeds. */
  lemma {:induction false} SeatsReadBack(present: seq<seq<real>>, seats: seq<seq<real>>)
    requires forall k :: 0 <= k < |seats| ==> |seats[k]| >= 3
    ensures SeatTags(seats).Ok?
    ensures AppendSeats(present, SeatTags(seats).value) == SeatsOutcome(present + FirstThree(seats), None)
    decreases |seats|
  {
    if seats == [] {
      assert present + FirstThree(seats) == present;
    } else {
      SeatTagsCons(seats);
      FirstThreeCons(seats);
      var stored := SeatTags(seats).value;
      assert stored[0] == SeatTag(seats[0]) && stored[1..] == SeatTags(seats[1..]).value;
      SeatRoundTrip(seats[0]);
      SeatsReadBack(present + [seats[0][..3]], seats[1..]);
      assert (present + [seats[0][..3]]) + FirstThree(seats[1..]) == present + FirstThree(seats);
    }
  }

  /**
   * Saving a savable record whose version is the supported one (or unset)
   * and loading the saved tree into any record `into` succeeds, and gives
   * back type, uuid, name, design, gravity and the four speeds unchanged,
   * the first 6 bbox and 3 driver seat coordinates, and the first three
   * coordinates of each passenger seat appended in order; the version is
   * the supported one, and scale, which a save does not write, reads back
   * as its default 1.0.
   */
  lemma {:induction false} SaveThenLoad(f: Fields, nbt: map<string, Tag>, into: Fields, supported: int, freshUuid: string)
    requires Savable(f)
    requires VersionWritable(nbt)
    requires f.version.GetOr(supported) == supported
    ensures var saved := Save(f, nbt, supported);
      var back := Load(into, saved.nbt, supported, freshUuid);
      saved.error.None? && back.error.None? &&
      back.fields == f.(version := Some(supported), scale := 1.0,
                        bbox := f.bbox[..6], driverSeat := f.driverSeat[..3],
                        passengerSeats := into.passengerSeats + FirstThree(f.passengerSeats))
  {
    assert VehicleData(f).Ok?;
    var data := VehicleData(f).value;
    var saved := Save(f, nbt, supported);
    assert saved.error.None?;
    assert GetInt(saved.nbt, "vehicle", Some(-1)) == Ok(supported);
    assert GetInt(saved.nbt, "vehicle", None) == Ok(supported);
    assert GetCompound(saved.nbt, "vehicleData") == Ok(data);
    var g1 := into.(version := Some(supported));
    assert Load(into, saved.nbt, supported, freshUuid) == LoadIdentity(g1, data, freshUuid);
    IdentityReadsBack(g1, f, freshUuid);
    var g2 := g1.(uuid := f.uuid, vehicleType := f.vehicleType, name := f.name, designName := f.designName);
    MotionReadsBack(g2, f);
    var g3 := g2.(gravity := f.gravity, scale := 1.0, speed := f.speed);
    GeometryReadsBack(g3, f);
    SeatsReadBack(into.passengerSeats, f.passengerSeats);
  }

  /**
   * The round trip on a record with exactly 6 bbox coordinates, 3 driver
   * seat coordinates and 3 per passenger seat, loaded into a fresh
   * record: everything comes back except scale, which reads as 1.0.
   */
  lemma RoundTripExceptScale(f: Fields, nbt: map<string, Tag>, supported: int, freshUuid: string)
    requires Savable(f)
    requires VersionWritable(nbt)
    requires f.version == Some(supported)
    requires |f.bbox| == 6 && |f.driverSeat| == 3
    requires forall k :: 0 <= k < |f.passengerSeats| ==> |f.passengerSeats[k]| == 3
    ensures Load(Initial(), Save(f, nbt, supported).nbt, supported, freshUuid)
            == LoadOutcome(f.(scale := 1.0), None)
  {
    SaveThenLoad(f, nbt, Initial(), supported, freshUuid);
    SavedPrefixesWhole(f, supported);
  }

  /** For lists of the saved lengths, what SaveThenLoad gives back is the record with scale 1.0. */
  lemma SavedPrefixesWhole(f: Fields, supported: int)
    requires f.version == Some(supported)
    requires |f.bbox| == 6 && |f.driverSeat| == 3
    requires forall k :: 0 <= k < |f.passengerSeats| ==> |f.passengerSeats[k]| == 3
    ensures f.(version := Some(supported), scale := 1.0,
               bbox := f.bbox[..6], driverSeat := f.driverSeat[..3],
               passengerSeats := Initial().passengerSeats + FirstThree(f.passengerSeats))
            == f.(scale := 1.0)
  {
    FirstThreeExact(f.passengerSeats);
    assert f.bbox[..6] == f.bbox;
    assert f.driverSeat[..3] == f.driverSeat;
    assert Initial().passengerSeats + f.passengerSeats == f.passengerSeats;
  }

  /** Seats of exactly three coordinates are saved whole. */
  lemma FirstThreeExact(p: seq<seq<real>>)
    requires forall k :: 0 <= k < |p| ==> |p[k]| == 3
    ensures FirstThree(p) == p
  {
    forall k | 0 <= k < |p| ensures FirstThree(p)[k] == p[k] {
      assert p[k][..3] == p[k];
    }
  }
}
