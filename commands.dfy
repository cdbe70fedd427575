/**
 * The /vehicles command of CommandHandler.php: sub-command dispatch,
 * permission gates, registration of pending interactions (an action that
 * waits for the player's next tap on a vehicle) and the immediate
 * lock/unlock/giveaway decisions for a player who is riding a vehicle.
 *
 * Dispatch is the specification, as a value: the reply and the one effect
 * an invocation has. CommandHandler.HandleCommand is the handler itself,
 * a switch with early returns over the plugin's shared state and the
 * vehicles' owner/lock state, proved to have exactly that effect.
 */
module Commands {
  import opened Wrappers

  /** A player's unique id (compared for ownership, and the key of the riding map). */
  type PlayerId = string

  /** Who issued the command: the server console, or an in-world player. */
  datatype Sender = Console | Player(name: string, id: PlayerId)

  const SPAWN_PERMISSION: string := "vehicles.command.spawn"
  const REMOVE_PERMISSION: string := "vehicles.command.remove"
  const LOCK_PERMISSION: string := "vehicles.command.lock"
  const UNLOCK_PERMISSION: string := "vehicles.command.unlock"
  const GIVEAWAY_PERMISSION: string := "vehicles.command.giveaway"

  /** The actions that can wait for a tap. */
  datatype Action = Remove | Lock | Unlock | Giveaway {
    /** The action's name as stored in the registry. */
    function Name(): string {
      match this
      case Remove => "remove"
      case Lock => "lock"
      case Unlock => "un-lock"
      case Giveaway => "giveaway"
    }

    /** The permission the sub-command needs. */
    function Permission(): string {
      match this
      case Remove => REMOVE_PERMISSION
      case Lock => LOCK_PERMISSION
      case Unlock => UNLOCK_PERMISSION
      case Giveaway => GIVEAWAY_PERMISSION
    }
  }

  /** A registry entry: the action and its auxiliary arguments. */
  datatype Pending = Pending(action: Action, args: seq<seq<string>>)

  /** The message an invocation sends back (its text and colours are not modelled). */
  datatype Reply =
    | ConsoleRejected
    | Usage
    | HelpText
    | CreditsText
    | PresetList
    | NoPermission
    | SpawnUsage
    | UnknownPreset(preset: string)
    | Created(preset: string)
    | TapPrompt(action: Action)
    | NoOwner(action: Action)
    | AlreadyLocked
    | AlreadyUnlocked
    | Done(action: Action)
    | NotOwner(action: Action)
    | UnknownCommand

  /** The one change an invocation makes, if any. */
  datatype Effect =
    | NoEffect
    | Register(key: string, entry: Pending)   // interactCommands[key] = entry
    | Spawn(preset: string)                   // the factory spawns this preset at the sender
    | SetLocked(locked: bool)                 // on the sender's vehicle
    | RemoveOwner                             // on the sender's vehicle

  datatype Outcome = Outcome(reply: Reply, effect: Effect)

  /** The owner/lock state of the vehicle a player rides. */
  datatype VehicleState = VehicleState(owner: Option<PlayerId>, locked: bool)

  /** strtolower on one character (ASCII A-Z only). */
  function LowerChar(c: char): char {
    if 'A' <= c <= 'Z' then (c as int - 'A' as int + 'a' as int) as char else c
  }

  /** strtolower: every ASCII capital letter replaced by its small letter. */
  function Lower(s: string): (r: string)
    ensures |r| == |s|
    ensures forall k :: 0 <= k < |s| ==> r[k] == LowerChar(s[k])
  {
    if s == [] then [] else [LowerChar(s[0])] + Lower(s[1..])
  }

  /** The sub-commands, with the aliases the switch groups together. */
  datatype Command = Help | Credits | ListTypes | SpawnCmd | Deferred(action: Action) | UnknownCmd

  function Classify(token: string): Command {
    if token == "help" then Help
    else if token == "credits" || token == "creds" then Credits
    else if token == "list" || token == "types" || token == "type" then ListTypes
    else if token == "spawn" || token == "create" || token == "new" then SpawnCmd
    else if token == "del" || token == "rem" || token == "delete" || token == "remove" then Deferred(Remove)
    else if token == "lock" then Deferred(Lock)
    else if token == "unlock" then Deferred(Unlock)
    else if token == "giveaway" then Deferred(Giveaway)
    else UnknownCmd
  }

  /** The permission a sub-command checks before anything else, if it checks one. */
  function PermissionFor(c: Command): Option<string> {
    match c
    case SpawnCmd => Some(SPAWN_PERMISSION)
    case Deferred(a) => Some(a.Permission())
    case _ => None
  }

  /**
   * The in-vehicle decision for lock, unlock and giveaway: with no owner
   * nothing happens; the owner may lock an unlocked vehicle, unlock a
   * locked one, or give it away; anyone else is refused.
   */
  function Arbitrate(a: Action, requester: PlayerId, v: VehicleState): (o: Outcome)
    requires a != Remove
    ensures o.effect == SetLocked(true) <==> a == Lock && v.owner == Some(requester) && !v.locked
    ensures o.effect == SetLocked(false) <==> a == Unlock && v.owner == Some(requester) && v.locked
    ensures o.effect == RemoveOwner <==> a == Giveaway && v.owner == Some(requester)
    ensures o.effect.NoEffect? || o.effect.SetLocked? || o.effect.RemoveOwner?
    ensures v.owner.None? ==> o == Outcome(NoOwner(a), NoEffect)
    ensures v.owner.Some? && v.owner.value != requester ==> o == Outcome(NotOwner(a), NoEffect)
  {
    if v.owner.None? then Outcome(NoOwner(a), NoEffect)
    else if v.owner.value == requester then
      match a
      case Lock => if v.locked then Outcome(AlreadyLocked, NoEffect) else Outcome(Done(Lock), SetLocked(true))
      case Unlock => if !v.locked then Outcome(AlreadyUnlocked, NoEffect) else Outcome(Done(Unlock), SetLocked(false))
      case Giveaway => Outcome(Done(Giveaway), RemoveOwner)
    else Outcome(NotOwner(a), NoEffect)
  }

  /** The 'spawn' case: permission, then an argument, then a preset the catalog knows. */
  function SpawnOutcome(rest: seq<string>, granted: set<string>, catalog: set<string>): Outcome {
    if SPAWN_PERMISSION !in granted then Outcome(NoPermission, NoEffect)
    else if |rest| == 0 then Outcome(SpawnUsage, NoEffect)
    else if rest[0] in catalog then Outcome(Created(rest[0]), Spawn(rest[0]))
    else Outcome(UnknownPreset(rest[0]), NoEffect)
  }

  /**
   * The 'lock', 'unlock' and 'giveaway' cases: permission, then a pending
   * interaction for a sender who is not riding, or the decision against
   * the vehicle ridden.
   */
  function ActionOutcome(a: Action, name: string, id: PlayerId, granted: set<string>,
                         riding: Option<VehicleState>): Outcome
    requires a != Remove
  {
    if a.Permission() !in granted then Outcome(NoPermission, NoEffect)
    else if riding.None? then Outcome(TapPrompt(a), Register(Lower(name), Pending(a, [])))
    else Arbitrate(a, id, riding.value)
  }

  /**
   * What one invocation does. `granted` is the sender's permissions,
   * `catalog` the preset names the factory knows, `riding` the state of
   * the vehicle the sender is in, if any.
   */
  function Dispatch(sender: Sender, args: seq<string>, granted: set<string>, catalog: set<string>,
                    riding: Option<VehicleState>): Outcome
  {
    if sender.Console? then Outcome(ConsoleRejected, NoEffect)
    else if |args| == 0 then Outcome(Usage, NoEffect)
    else
      match Classify(args[0])
      case Help => Outcome(HelpText, NoEffect)
      case Credits => Outcome(CreditsText, NoEffect)
      case ListTypes => Outcome(PresetList, NoEffect)
      case SpawnCmd => SpawnOutcome(args[1..], granted, catalog)
      case Deferred(a) =>
        if a == Remove then
          if REMOVE_PERMISSION !in granted then Outcome(NoPermission, NoEffect)
          else Outcome(TapPrompt(Remove), Register(Lower(sender.name), Pending(Remove, [args[1..]])))
        else ActionOutcome(a, sender.name, sender.id, granted, riding)
      case UnknownCmd => Outcome(UnknownCommand, NoEffect)
  }

  /** The owner/lock part of a vehicle entity, as the handler uses it. */
  class Vehicle {
    var owner: Option<PlayerId>
    var locked: bool

    constructor (owner: Option<PlayerId>, locked: bool)
      ensures this.owner == owner && this.locked == locked
    {
      this.owner := owner;
      this.locked := locked;
    }

    function State(): VehicleState
      reads this
    {
      VehicleState(owner, locked)
    }

    method SetLocked(value: bool)
      modifies this
      ensures locked == value && owner == old(owner)
    {
      locked := value;
    }

    /** Clears the owner; what it does to `locked` is not part of this model. */
    method RemoveOwner()
      modifies this
      ensures owner.None?
    {
      owner := None;
    }
  }

  /** The plugin's shared state the handler writes. */
  class Plugin {
    /** Pending interactions, keyed by lower-cased player name. */
    var interactCommands: map<string, Pending>
    /** The presets the factory was asked to spawn, oldest first. */
    var spawnRequests: seq<string>

    constructor ()
      ensures interactCommands == map[] && spawnRequests == []
    {
      interactCommands := map[];
      spawnRequests := [];
    }
  }

  /** Whether an effect changes the sender's vehicle. */
  predicate TouchesVehicle(e: Effect) {
    e.SetLocked? || e.RemoveOwner?
  }

  /** The state of the vehicle `sender` rides, looked up by the sender's id. */
  function RidingState(sender: Sender, inVehicle: map<PlayerId, Vehicle>): Option<VehicleState>
    reads inVehicle.Values
  {
    if sender.Player? && sender.id in inVehicle then Some(inVehicle[sender.id].State()) else None
  }

  /** The vehicle `sender` rides, if any. */
  function RiddenBy(sender: Sender, inVehicle: map<PlayerId, Vehicle>): Option<Vehicle> {
    if sender.Player? && sender.id in inVehicle then Some(inVehicle[sender.id]) else None
  }

  class CommandHandler {
    const plugin: Plugin

    constructor (plugin: Plugin)
      ensures this.plugin == plugin
    {
      this.plugin := plugin;
    }

    /**
     * handleCommand. `inVehicle` maps a riding player's id to the vehicle
     * ridden. The reply is Dispatch's; the registry is written exactly
     * when Dispatch registers, the spawn is requested exactly when it
     * spawns, and only the sender's vehicle changes, as Dispatch says.
     */
    method HandleCommand(sender: Sender, args: seq<string>, granted: set<string>, catalog: set<string>,
                         inVehicle: map<PlayerId, Vehicle>)
      returns (reply: Reply)
      modifies plugin, inVehicle.Values
      ensures var o := Dispatch(sender, args, granted, catalog, old(RidingState(sender, inVehicle)));
        reply == o.reply &&
        plugin.interactCommands ==
          (if o.effect.Register? then old(plugin.interactCommands)[o.effect.key := o.effect.entry]
           else old(plugin.interactCommands)) &&
        plugin.spawnRequests ==
          (if o.effect.Spawn? then old(plugin.spawnRequests) + [o.effect.preset]
           else old(plugin.spawnRequests))
      ensures var o := Dispatch(sender, args, granted, catalog, old(RidingState(sender, inVehicle)));
        var ridden := RiddenBy(sender, inVehicle);
        (TouchesVehicle(o.effect) ==> ridden.Some?) &&
        (o.effect.SetLocked? ==>
           ridden.value.locked == o.effect.locked && ridden.value.owner == old(ridden.value.owner)) &&
        (o.effect.RemoveOwner? ==> ridden.value.owner.None?) &&
        (forall v :: v in inVehicle.Values && !(TouchesVehicle(o.effect) && ridden == Some(v)) ==>
           v.owner == old(v.owner) && v.locked == old(v.locked))
    {
      if sender.Console? {
        return ConsoleRejected;
      }
      if |args| == 0 {
        return Usage;
      }
      var subCommand := args[0];
      var rest := args[1..];
      if subCommand == "help" {
        assert Classify(subCommand) == Help;
        reply := HelpText;
      } else if subCommand == "credits" || subCommand == "creds" {
        assert Classify(subCommand) == Credits;
        reply := CreditsText;
      } else if subCommand == "list" || subCommand == "types" || subCommand == "type" {
        assert Classify(subCommand) == ListTypes;
        reply := PresetList;
      } else if subCommand == "spawn" || subCommand == "create" || subCommand == "new" {
        assert Classify(subCommand) == SpawnCmd;
        reply := HandleSpawn(rest, granted, catalog);
      } else if subCommand == "del" || subCommand == "rem" || subCommand == "delete" || subCommand == "remove" {
        assert Classify(subCommand) == Deferred(Remove);
        if REMOVE_PERMISSION !in granted {
          return NoPermission;
        }
        plugin.interactCommands := plugin.interactCommands[Lower(sender.name) := Pending(Remove, [rest])];
        reply := TapPrompt(Remove);
      } else if subCommand == "lock" {
        assert Classify(subCommand) == Deferred(Lock);
        reply := HandleAction(Lock, sender, granted, inVehicle);
      } else if subCommand == "unlock" {
        assert Classify(subCommand) == Deferred(Unlock);
        reply := HandleAction(Unlock, sender, granted, inVehicle);
      } else if subCommand == "giveaway" {
        assert Classify(subCommand) == Deferred(Giveaway);
        reply := HandleAction(Giveaway, sender, granted, inVehicle);
      } else {
        assert Classify(subCommand) == UnknownCmd;
        reply := UnknownCommand;
      }
    }

    /** The 'spawn', 'create' and 'new' case. */
    method HandleSpawn(rest: seq<string>, granted: set<string>, catalog: set<string>) returns (reply: Reply)
      modifies plugin
      ensures var o := SpawnOutcome(rest, granted, catalog);
        reply == o.reply &&
        plugin.interactCommands == old(plugin.interactCommands) &&
        plugin.spawnRequests ==
          (if o.effect.Spawn? then old(plugin.spawnRequests) + [o.effect.preset]
           else old(plugin.spawnRequests))
    {
      if SPAWN_PERMISSION !in granted {
        return NoPermission;
      }
      if |rest| == 0 {
        return SpawnUsage;
      }
      if rest[0] in catalog {
        plugin.spawnRequests := plugin.spawnRequests + [rest[0]];
      } else {
        return UnknownPreset(rest[0]);
      }
      reply := Created(rest[0]);
    }

    /**
     * The 'lock', 'unlock' and 'giveaway' cases, which differ only in the
     * permission, the stored action and the decision when riding.
     */
    method HandleAction(a: Action, sender: Sender, granted: set<string>, inVehicle: map<PlayerId, Vehicle>)
      returns (reply: Reply)
      requires a != Remove && sender.Player?
      modifies plugin, inVehicle.Values
      ensures var o := ActionOutcome(a, sender.name, sender.id, granted, old(RidingState(sender, inVehicle)));
        var ridden := RiddenBy(sender, inVehicle);
        reply == o.reply &&
        plugin.spawnRequests == old(plugin.spawnRequests) &&
        plugin.interactCommands ==
          (if o.effect.Register? then old(plugin.interactCommands)[o.effect.key := o.effect.entry]
           else old(plugin.interactCommands)) &&
        (TouchesVehicle(o.effect) ==> ridden.Some?) &&
        (o.effect.SetLocked? ==>
           ridden.value.locked == o.effect.locked && ridden.value.owner == old(ridden.value.owner)) &&
        (o.effect.RemoveOwner? ==> ridden.value.owner.None?) &&
        (forall v :: v in inVehicle.Values && !(TouchesVehicle(o.effect) && ridden == Some(v)) ==>
           v.owner == old(v.owner) && v.locked == old(v.locked))
    {
      if a.Permission() !in granted {
        return NoPermission;
      }
      if sender.id !in inVehicle {
        reply := TapPrompt(a);
        plugin.interactCommands := plugin.interactCommands[Lower(sender.name) := Pending(a, [])];
        return;
      }
      reply := ResolveRiding(a, sender.id, inVehicle[sender.id]);
    }

    /**
     * The part of 'lock', 'unlock' and 'giveaway' run when the sender is
     * riding `vehicle`: the owner checks, then setLocked or removeOwner.
     */
    method ResolveRiding(a: Action, id: PlayerId, vehicle: Vehicle) returns (reply: Reply)
      requires a != Remove
      modifies vehicle
      ensures var o := Arbitrate(a, id, old(vehicle.State()));
        reply == o.reply &&
        (o.effect.NoEffect? ==> vehicle.owner == old(vehicle.owner) && vehicle.locked == old(vehicle.locked)) &&
        (o.effect.SetLocked? ==> vehicle.locked == o.effect.locked && vehicle.owner == old(vehicle.owner)) &&
        (o.effect.RemoveOwner? ==> vehicle.owner.None?)
    {
      if vehicle.owner.None? {
        return NoOwner(a);
      }
      if id == vehicle.owner.value {
        match a
        case Lock =>
          if vehicle.locked {
            return AlreadyLocked;
          }
          vehicle.SetLocked(true);
          return Done(Lock);
        case Unlock =>
          if !vehicle.locked {
            return AlreadyUnlocked;
          }
          vehicle.SetLocked(false);
          return Done(Unlock);
        case Giveaway =>
          vehicle.RemoveOwner();
          return Done(Giveaway);
      }
      reply := NotOwner(a);
    }
  }
}
