# Vehicles: the vehicle record and the /vehicles command, in Dafny

This project models two parts of the Vehicles plugin for a PocketMine
Minecraft server:

- **The vehicle record** (`VehicleBase`). Its fields are the uuid, name,
  data version, vehicle type, scale, design name, gravity, bounding box,
  driver seat, passenger seats and the four speeds. The record is loaded
  from the entity's tagged-value tree (NBT) by `loadFromNBT` and written
  back by `saveIntoNBT`.
- **The `/vehicles` command handler** (`CommandHandler::handleCommand`).
  It dispatches on the sub-command, checks permissions and registers
  pending tap interactions. For a player who is riding, it also decides
  lock, unlock and giveaway on the spot.

The project's files:

- `wrappers.dfy`: `Option` and `Result`.
- `nbt.dfy`: the tag tree `Tag` and the compound-tag accessors the record uses.
  - `getInt`, `getDouble`, `getFloat` and `getString` return the default for an absent key. With no default, an absent key is a failure.
  - A present key of another tag type is a failure.
  - `getListTag` and `getCompoundTag` fail on an absent key, because the PHP code goes on to call a method on the `null` they return.
- `vehicle_base.dfy` (module `Vehicles`): the specification and the class.
  - The functions `Load` and `Save` say, as values, what loading and saving do to the fields and to the entity's tree.
  - The class `VehicleBase` holds the fields the PHP class assigns in place. Its methods `LoadFromNbt` and `SaveIntoNbt` are proved to do exactly what `Load` and `Save` say.
  - Neither operation is atomic:
    - a load that fails half-way keeps the fields it already assigned;
    - a save that fails while building the compound has already written `"vehicle"` (only a stored non-int `"vehicle"` stops it before any write).
- `vehicle_properties.dfy`: what loading and saving guarantee.
  - the strict version gate;
  - the default for each absent field;
  - the order of the passenger seats;
  - the shape of the saved tree;
  - the save-then-load round trip.
- `commands.dfy` (module `Commands`): the command handler.
  - `Dispatch` is the specification of one invocation: it gives the reply and the single effect.
  - `Arbitrate` is the in-vehicle decision.
  - `CommandHandler.HandleCommand` runs the switch over the plugin's `interactCommands` registry and the ridden vehicle's owner/lock state. It is proved to have exactly `Dispatch`'s effect and to change no other vehicle.
- `command_properties.dfy`: the permission gates, the registration rules, the riding asymmetry, and the case-insensitive registry key.

The following are parameters of the model:

- The supported data version `Main::$vehicleDataVersion` is `supported`.
- The random UUID used when none is stored is `freshUuid`.
- The player's permissions are `granted`.
- The preset names the factory knows are `catalog`.
- `Main::$inVehicle` is `inVehicle`.

The save-then-load round trip is not exact:

- `scale` is never saved, so it reads back as its load default 1.0. A freshly constructed record starts with 1.6.
- `version` reads back as the supported version.
- Only the first 6 bounding-box coordinates, the first 3 driver-seat coordinates and the first 3 coordinates of each passenger seat are saved.
- Passenger seats are appended to those already in the record.

`SaveThenLoad` states exactly what comes back. `RoundTripExceptScale` states that, for lists of the saved lengths loaded into a fresh record, every field except `scale` comes back unchanged.

## Model

| member | source | states |
|---|---|---|
| Vehicles.Load | src/JaxkDev/Vehicles/VehicleBase.php:86-121 | definition without a contract: the load as a value, step by step (its properties are the VehicleProperties lemmas) |
| Vehicles.AppendSeats | src/JaxkDev/Vehicles/VehicleBase.php:116-118 | definition without a contract: the passenger seat loop as a value (see AppendSeatsAppends) |
| Vehicles.Save | src/JaxkDev/Vehicles/VehicleBase.php:123-165 | definition without a contract: the save as a value, including the refused write of a non-int "vehicle" (see SaveSucceedsIff, SaveWritesVersion, SaveShape) |
| Commands.Classify | src/JaxkDev/Vehicles/CommandHandler.php:56-190 | definition without a contract: the switch's alias groups, matched exactly |
| Commands.Dispatch | src/JaxkDev/Vehicles/CommandHandler.php:45-192 | definition without a contract: one invocation's reply and effect (see the CommandProperties lemmas) |
| Nbt.Numbers | src/JaxkDev/Vehicles/VehicleBase.php:109 | a list's values are all numbers exactly when the result exists; the result has one number per element, in order, and each is that element's value |
| Vehicles.SeatTags | src/JaxkDev/Vehicles/VehicleBase.php:127-135 | the passenger seats convert exactly when every seat has at least 3 coordinates; the result has one 3-float list per seat, in order; a failure is always TooShort("passengerSeats") |
| Vehicles.PassengerSeatTags | src/JaxkDev/Vehicles/VehicleBase.php:127-135 | the loop that builds the saved passenger list computes exactly SeatTags |
| Vehicles.VehicleBase.constructor | src/JaxkDev/Vehicles/VehicleBase.php:41-73 | a new record has the field initialisers (type 9, scale 1.6, gravity 1, bbox of six zeros, no seats, the rest null) |
| Vehicles.VehicleBase.Construct | src/JaxkDev/Vehicles/VehicleBase.php:75-80 | construction loads the tree into a new record; a vehicle exists exactly when the load succeeds, and its fields are the loaded ones |
| Vehicles.VehicleBase.LoadFromNbt | src/JaxkDev/Vehicles/VehicleBase.php:86-121 | the fields after the call, including those a failing load already assigned, and the failure are exactly what Load says; the entity's tree is untouched |
| Vehicles.VehicleBase.LoadIdentityFrom | src/JaxkDev/Vehicles/VehicleBase.php:95-98 | the uuid, type, name and design assignments, and the failures of their accessors, match LoadIdentity |
| Vehicles.VehicleBase.LoadMotionFrom | src/JaxkDev/Vehicles/VehicleBase.php:101-107 | the gravity, scale and speed assignments match LoadMotion |
| Vehicles.VehicleBase.LoadGeometryFrom | src/JaxkDev/Vehicles/VehicleBase.php:109-118 | the bbox, driver seat and passenger seat loop match LoadGeometry |
| Vehicles.VehicleBase.SaveIntoNbt | src/JaxkDev/Vehicles/VehicleBase.php:123-165 | the entity's tree after the call and the failure are exactly what Save says of the fields before it, including the refused write of a non-int "vehicle" |
| VehicleProperties.AppendSeatsAppends | src/JaxkDev/Vehicles/VehicleBase.php:116-118 | the seat loop keeps the seats already present as a prefix; appended seat k is stored entry k; it stops exactly at the first entry that is not a list of numbers, with the earlier seats kept |
| VehicleProperties.VersionGate | src/JaxkDev/Vehicles/VehicleBase.php:87-90 | a tree whose "vehicle" is not exactly the supported integer fails before any field changes, with the error for each case (a mismatch, the wrong tag type, absent, or absent while -1 is supported) |
| VehicleProperties.LoadedFields | src/JaxkDev/Vehicles/VehicleBase.php:87-114 | after a successful load: the version is the supported one and name and design were stored; uuid, type, gravity, scale and each speed are the stored value when present and otherwise the fresh uuid, 9 or 1.0; bbox and driver seat are the stored numbers |
| VehicleProperties.ConstructedGetters | src/JaxkDev/Vehicles/VehicleBase.php:167-209 | after a successful construction the getters return the supported version, non-null uuid, name, design name and speeds, and the type, scale, driver seat and passenger seats Load produced |
| VehicleProperties.ConstructedTreeWritable | src/JaxkDev/Vehicles/VehicleBase.php:87-125 | a tree a load accepted holds an int "vehicle", so a later save's setInt may write it |
| VehicleProperties.LoadAppendsSeats | src/JaxkDev/Vehicles/VehicleBase.php:116-118 | a successful load appends one seat per stored entry, in stored order, after the seats already present |
| VehicleProperties.FreshLoadSeats | src/JaxkDev/Vehicles/VehicleBase.php:116-118 | loaded into a new record, passenger seat k is stored entry k, and there are as many seats as entries |
| VehicleProperties.MissingDesignFails | src/JaxkDev/Vehicles/VehicleBase.php:95-98 | a tree with no design fails as the design's accessor (no default) fails, after version, uuid, type and name are assigned |
| VehicleProperties.SaveSucceedsIff | src/JaxkDev/Vehicles/VehicleBase.php:125-161 | a save succeeds exactly when the tree's "vehicle" is absent or an int, uuid, name, design and speeds are non-null, bbox has 6 coordinates, the driver seat 3, and every passenger seat 3 |
| VehicleProperties.SaveWritesVersion | src/JaxkDev/Vehicles/VehicleBase.php:125-163 | a stored non-int "vehicle" stops the save with nothing written; otherwise "vehicle" is written, as the loaded version or the supported one, no entry but "vehicle" and "vehicleData" changes, and a failed save leaves "vehicleData" as it was |
| VehicleProperties.SaveShape | src/JaxkDev/Vehicles/VehicleBase.php:137-163 | a saved "vehicleData" holds exactly the twelve entries written, and no other (an earlier compound is replaced whole): each scalar field under its key with its tag type, bbox as 6 floats, the driver seat as 3, the passenger seats as 3-float lists, and no scale |
| VehicleProperties.VehicleDataKeys | src/JaxkDev/Vehicles/VehicleBase.php:137-161 | the compound a save builds has exactly the twelve keys type, uuid, name, design, gravity, the four speeds, bbox, driverSeat and passengerSeats |
| VehicleProperties.VehicleDataScalars | src/JaxkDev/Vehicles/VehicleBase.php:138-146 | the scalar entries of the saved compound are the record's values with their tag types |
| VehicleProperties.VehicleDataLists | src/JaxkDev/Vehicles/VehicleBase.php:147-160 | the list entries of the saved compound are the first 6, the first 3 and each seat's first 3 coordinates as floats |
| VehicleProperties.SeatsReadBack | src/JaxkDev/Vehicles/VehicleBase.php:116-135 | loading the saved passenger list appends each seat's first three coordinates, in order, with no failure |
| VehicleProperties.SaveThenLoad | src/JaxkDev/Vehicles/VehicleBase.php:86-165 | a savable record saved and loaded back gives its fields with the supported version, scale 1.0, the saved prefixes of the coordinate lists, and the seats appended to the target's |
| VehicleProperties.RoundTripExceptScale | src/JaxkDev/Vehicles/VehicleBase.php:86-165 | with lists of the saved lengths, loading the saved tree into a new record gives back every field except scale, which is 1.0 |
| Commands.Lower | src/JaxkDev/Vehicles/CommandHandler.php:107 | the registry key has the name's length, and each character is the ASCII lower case of the name's character |
| Commands.Arbitrate | src/JaxkDev/Vehicles/CommandHandler.php:121-187 | in the vehicle: lock happens exactly when the owner asks and the vehicle is unlocked, unlock exactly when the owner asks and it is locked, giveaway exactly when the owner asks; without an owner, or for anyone else, nothing happens |
| Commands.Vehicle.SetLocked | src/JaxkDev/Vehicles/CommandHandler.php:132 | the lock flag becomes the value given and the owner stays |
| Commands.Vehicle.RemoveOwner | src/JaxkDev/Vehicles/CommandHandler.php:183 | the vehicle has no owner afterwards |
| Commands.CommandHandler.HandleCommand | src/JaxkDev/Vehicles/CommandHandler.php:45-192 | the reply, the registry and the spawn requests are Dispatch's for the state of the ridden vehicle before the call; only that vehicle can change, as Dispatch says; every other vehicle is unchanged |
| Commands.CommandHandler.HandleSpawn | src/JaxkDev/Vehicles/CommandHandler.php:78-98 | the spawn case: its reply, and one spawn request for the named preset exactly when permitted and known |
| Commands.CommandHandler.HandleAction | src/JaxkDev/Vehicles/CommandHandler.php:110-188 | the lock, unlock and giveaway cases: a registration when not riding, else the arbitrated change on the ridden vehicle only |
| Commands.CommandHandler.ResolveRiding | src/JaxkDev/Vehicles/CommandHandler.php:121-187 | the ridden vehicle changes exactly as Arbitrate decides, and the reply is Arbitrate's |
| CommandProperties.RejectedEarly | src/JaxkDev/Vehicles/CommandHandler.php:46-53 | the console and an empty argument list are answered without any effect |
| CommandProperties.PermissionDenied | src/JaxkDev/Vehicles/CommandHandler.php:81-170 | a spawn, remove, lock, unlock or giveaway without its permission is refused with no effect |
| CommandProperties.EffectNeedsPermission | src/JaxkDev/Vehicles/CommandHandler.php:45-192 | every effect comes from a player's sub-command whose permission the player holds |
| CommandProperties.InformationalOnly | src/JaxkDev/Vehicles/CommandHandler.php:57-77 | help, credits, list and unknown sub-commands only reply; the reply is the unknown-command message exactly for an unknown token |
| CommandProperties.SpawnIff | src/JaxkDev/Vehicles/CommandHandler.php:78-98 | a spawn is requested exactly when a permitted player gives a spawn alias and a preset the catalog knows; it is that preset |
| CommandProperties.RemoveRegisters | src/JaxkDev/Vehicles/CommandHandler.php:99-109 | a permitted remove always registers "remove" with the remaining arguments under the sender's lower-cased name, riding or not |
| CommandProperties.NotRidingRegisters | src/JaxkDev/Vehicles/CommandHandler.php:116-120 | a permitted lock, unlock or giveaway from a player not riding registers the action with no arguments and asks for a tap |
| CommandProperties.RidingDecides | src/JaxkDev/Vehicles/CommandHandler.php:121-136 | the same from a riding player is decided at once against the ridden vehicle and never writes the registry |
| CommandProperties.VehicleChangeNeedsOwner | src/JaxkDev/Vehicles/CommandHandler.php:123-187 | a vehicle changes only through lock, unlock or giveaway from its riding owner |
| CommandProperties.RegisterIsSenders | src/JaxkDev/Vehicles/CommandHandler.php:107-173 | a registry write is keyed by the sender's lower-cased name and records the sub-command's action, with arguments only for remove |
| CommandProperties.NamesDistinct | src/JaxkDev/Vehicles/CommandHandler.php:107-173 | the four registered action names are distinct |
| CommandProperties.LowerIdempotent | src/JaxkDev/Vehicles/CommandHandler.php:107 | lower-casing a registry key again changes nothing |
| CommandProperties.CaseInsensitiveKeys | src/JaxkDev/Vehicles/CommandHandler.php:107 | two names that differ only in ASCII letter case share one registry key |
| CommandProperties.LockKeepsOwnerInvariant | src/JaxkDev/Vehicles/CommandHandler.php:127-164 | lock and unlock keep "a locked vehicle has an owner", never change the owner, and only the owner changes the lock flag |

## Left out

- The NBT library is not part of this model. The accessor semantics in `nbt.dfy` are those the record's code relies on: the default for an absent key, and a failure for a wrong type or a missing list or compound.
- Floats and doubles are carried as mathematical reals, so float rounding on save is not modelled. Integers are unbounded, so the 32-bit range of int tags is not modelled.
- A list element that is not a number makes the load fail with `NotNumeric`. PHP keeps whatever `getAllValues` returns. A save reads only the first 6 bbox entries, the first 3 driver-seat entries and the first 3 entries of each passenger seat. So a tree whose only non-numbers lie past those positions loads and saves without any error in PHP, and a tree with a non-number inside them loads and then fails to save, because the file declares strict types and the float tags refuse a non-number. The model rejects all such trees at load.
- The check `designName === null` at VehicleBase.php line 99 can never succeed: `getString("design")` has no default, so a missing design already fails inside the accessor at line 98, just as a missing name does at line 97. The model reports both as `TagFault(Missing(key))` and has no branch for line 99.
- `UUID::fromString` parsing and `UUID::fromRandom` are not modelled. The uuid is its string, and the random one is the parameter `freshUuid`.
- The design lookup `factory->getDesign` and the `SkinData` it returns are not modelled. No design is resolved, so `getVehicleDesign` is left out too.
- The `Entity` parent constructor, `saveNBT` and the width and height fields are not modelled. The NBT library's setters are modelled as the save relies on them: `setInt` at line 125 passes no overwrite flag, so a stored "vehicle" of another tag type is refused (`TagClash`) and nothing is written; `setTag` at line 163 passes the flag, so the saved compound replaces any earlier entry.
- Vehicles.VehicleBase.SaveIntoNbt: a null field or a too-short coordinate list is modelled as a failed save. The PHP code would hit a type error or an undefined offset at that point, so the exact PHP notice and any partially built value are not modelled.
- Messages are modelled as `Reply` values. Their text, colours and the preset list's contents are not modelled.
- The tap that later resolves a pending interaction is outside `handleCommand` and is not part of this model.
- The factory's spawn is recorded as a request for the preset. The level and position it spawns at are not modelled.
- Players are identified by one id, used both as the key of the riding map and for the owner comparison. The PHP code keys the riding map by the raw unique id and compares owners by UUID, which are two forms of the same UUID.
- `hasPermission` is the set `granted`. Senders other than the console and a player are not modelled.
- Commands.Vehicle.RemoveOwner: only states that the owner is cleared. `Vehicle::removeOwner` is not part of this model, so its effect on the lock flag is left unconstrained.
- The getters (`GetUuid`, `GetVehicleName` and the others) have no contract of their own. Each returns its field, and `ConstructedGetters` states what they return after a successful construction.
