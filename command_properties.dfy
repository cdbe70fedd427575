/**
 * Properties of the /vehicles command, stated over Dispatch, which
 * CommandHandler.HandleCommand is proved to carry out.
 */
module CommandProperties {
  import opened Wrappers
  import opened Commands

  /** The console and an empty argument list are answered and change nothing. */
  lemma RejectedEarly(sender: Sender, args: seq<string>, granted: set<string>, catalog: set<string>,
                      riding: Option<VehicleState>)
    requires sender.Console? || |args| == 0
    ensures var o := Dispatch(sender, args, granted, catalog, riding);
      o.effect == NoEffect && (o.reply == ConsoleRejected <==> sender.Console?) &&
      (o.reply == Usage <==> !sender.Console?)
  {
  }

  /** A sub-command whose permission the sender lacks is refused, and nothing changes. */
  lemma PermissionDenied(sender: Sender, args: seq<string>, granted: set<string>, catalog: set<string>,
                         riding: Option<VehicleState>)
    requires sender.Player? && |args| > 0
    requires PermissionFor(Classify(args[0])).Some? && PermissionFor(Classify(args[0])).value !in granted
    ensures Dispatch(sender, args, granted, catalog, riding) == Outcome(NoPermission, NoEffect)
  {
  }

  /**
   * Every effect is caused by a player's sub-command that checks a
   * permission the player holds; help, credits, list and unknown
   * sub-commands never have one.
   */
  lemma EffectNeedsPermission(sender: Sender, args: seq<string>, granted: set<string>, catalog: set<string>,
                              riding: Option<VehicleState>)
    requires !Dispatch(sender, args, granted, catalog, riding).effect.NoEffect?
    ensures sender.Player? && |args| > 0
    ensures PermissionFor(Classify(args[0])).Some? && PermissionFor(Classify(args[0])).value in granted
  {
  }

  /** Help, credits, the preset list and an unknown sub-command only reply. */
  lemma InformationalOnly(sender: Sender, args: seq<string>, granted: set<string>, catalog: set<string>,
                          riding: Option<VehicleState>)
    requires sender.Player? && |args| > 0 && PermissionFor(Classify(args[0])).None?
    ensures var o := Dispatch(sender, args, granted, catalog, riding);
      o.effect == NoEffect &&
      (o.reply == UnknownCommand <==> Classify(args[0]) == UnknownCmd) &&
      (o.reply == HelpText <==> args[0] == "help")
  {
  }

  /**
   * A spawn is requested exactly when a player with the spawn permission
   * names, after a spawn alias, a preset the catalog knows; it is that preset.
   */
  lemma SpawnIff(sender: Sender, args: seq<string>, granted: set<string>, catalog: set<string>,
                 riding: Option<VehicleState>)
    ensures var o := Dispatch(sender, args, granted, catalog, riding);
      o.effect.Spawn? <==>
        sender.Player? && |args| >= 2 && args[0] in {"spawn", "create", "new"} &&
        SPAWN_PERMISSION in granted && args[1] in catalog
    ensures var o := Dispatch(sender, args, granted, catalog, riding);
      o.effect.Spawn? ==> o.effect.preset == args[1] && o.reply == Created(args[1])
  {
  }

  /**
   * With the permission, a remove alias always registers a pending
   * removal under the sender's lower-cased name, carrying the remaining
   * arguments, whether or not the sender is riding.
   */
  lemma RemoveRegisters(sender: Sender, args: seq<string>, granted: set<string>, catalog: set<string>,
                        riding: Option<VehicleState>)
    requires sender.Player? && |args| > 0 && args[0] in {"del", "rem", "delete", "remove"}
    requires REMOVE_PERMISSION in granted
    ensures Dispatch(sender, args, granted, catalog, riding) ==
      Outcome(TapPrompt(Remove), Register(Lower(sender.name), Pending(Remove, [args[1..]])))
  {
  }

  /**
   * With the permission, lock, unlock and giveaway from a player who is
   * not riding register the action with no arguments and ask for a tap.
   */
  lemma NotRidingRegisters(sender: Sender, args: seq<string>, granted: set<string>, catalog: set<string>,
                           a: Action)
    requires sender.Player? && |args| > 0 && Classify(args[0]) == Deferred(a) && a != Remove
    requires a.Permission() in granted
    ensures Dispatch(sender, args, granted, catalog, None) ==
      Outcome(TapPrompt(a), Register(Lower(sender.name), Pending(a, [])))
  {
  }

  /**
   * Lock, unlock and giveaway from a riding player who holds the
   * permission are decided on the spot against the ridden vehicle and
   * never touch the registry.
   */
  lemma RidingDecides(sender: Sender, args: seq<string>, granted: set<string>, catalog: set<string>,
                      riding: Option<VehicleState>, a: Action)
    requires sender.Player? && |args| > 0 && Classify(args[0]) == Deferred(a) && a != Remove
    requires a.Permission() in granted && riding.Some?
    ensures Dispatch(sender, args, granted, catalog, riding) == Arbitrate(a, sender.id, riding.value)
    ensures !Dispatch(sender, args, granted, catalog, riding).effect.Register?
  {
  }

  /**
   * Only the sender's own vehicle state changes, only through lock,
   * unlock and giveaway, and only when the sender owns it.
   */
  lemma VehicleChangeNeedsOwner(sender: Sender, args: seq<string>, granted: set<string>, catalog: set<string>,
                                riding: Option<VehicleState>)
    requires TouchesVehicle(Dispatch(sender, args, granted, catalog, riding).effect)
    ensures sender.Player? && riding.Some? && riding.value.owner == Some(sender.id)
    ensures |args| > 0 && args[0] in {"lock", "unlock", "giveaway"}
  {
    var o := Dispatch(sender, args, granted, catalog, riding);
    assert sender.Player? && |args| > 0;
    var c := Classify(args[0]);
    assert c.Deferred? && c.action != Remove;
    assert o == ActionOutcome(c.action, sender.name, sender.id, granted, riding);
    assert riding.Some? && o == Arbitrate(c.action, sender.id, riding.value);
  }

  /** A registry write is always keyed by the sender's lower-cased name and records the sub-command's action. */
  lemma RegisterIsSenders(sender: Sender, args: seq<string>, granted: set<string>, catalog: set<string>,
                          riding: Option<VehicleState>)
    requires Dispatch(sender, args, granted, catalog, riding).effect.Register?
    ensures var e := Dispatch(sender, args, granted, catalog, riding).effect;
      sender.Player? && |args| > 0 && e.key == Lower(sender.name) &&
      Classify(args[0]) == Deferred(e.entry.action) &&
      (e.entry.args == if e.entry.action == Remove then [args[1..]] else [])
  {
  }

  /** The registry names of the four actions are distinct, so an entry identifies its action. */
  lemma NamesDistinct(a: Action, b: Action)
    requires a.Name() == b.Name()
    ensures a == b
  {
  }

  /** Lower-casing is idempotent: a key read back from the registry is its own key. */
  lemma {:induction false} LowerIdempotent(s: string)
    ensures Lower(Lower(s)) == Lower(s)
  {
    var once := Lower(s);
    var twice := Lower(once);
    assert |twice| == |once|;
    forall k | 0 <= k < |once|
      ensures twice[k] == once[k]
    {
      assert once[k] == LowerChar(s[k]);
    }
  }

  /** Two names that differ only in the case of ASCII letters share one registry key. */
  lemma {:induction false} CaseInsensitiveKeys(s: string, t: string)
    requires |s| == |t|
    requires forall k :: 0 <= k < |s| ==> LowerChar(s[k]) == LowerChar(t[k])
    ensures Lower(s) == Lower(t)
  {
    var ls := Lower(s);
    var lt := Lower(t);
    forall k | 0 <= k < |ls|
      ensures ls[k] == lt[k]
    {
    }
  }

  /** The state a vehicle is in after a lock or unlock decision. */
  function AfterLock(v: VehicleState, e: Effect): VehicleState
    requires e.NoEffect? || e.SetLocked?
  {
    if e.SetLocked? then v.(locked := e.locked) else v
  }

  /** A locked vehicle has an owner (the one who locked it). */
  predicate LockedHasOwner(v: VehicleState) {
    v.locked ==> v.owner.Some?
  }

  /**
   * Lock and unlock keep "a locked vehicle has an owner", and only the
   * owner moves a vehicle between locked and unlocked.
   */
  lemma LockKeepsOwnerInvariant(a: Action, requester: PlayerId, v: VehicleState)
    requires a == Lock || a == Unlock
    requires LockedHasOwner(v)
    ensures var after := AfterLock(v, Arbitrate(a, requester, v).effect);
      LockedHasOwner(after) && after.owner == v.owner &&
      (after.locked != v.locked ==> v.owner == Some(requester))
  {
  }
}
