/**
 * The tagged-value tree ("NBT") a vehicle is persisted in, and the typed
 * accessors of a compound tag the loader uses.
 *
 * The accessors follow the contract of the host's NBT library (its
 * CompoundTag getters): a key that is present with the asked-for tag type
 * yields its value; a present key of another tag type is a failure; an
 * absent key yields the caller's default, and is a failure when the caller
 * gave none. getListTag and getCompoundTag return null for an absent key,
 * and the loader then calls a method on that null, so an absent list or
 * compound is a failure as well.
 */
module Nbt {
  import opened Wrappers

  /**
   * One node of the tree. Float and Double carry their numbers as opaque
   * values (nothing here computes with them, they are only copied); the
   * 32-bit and 64-bit precisions of the format are not modelled.
   */
  datatype Tag =
    | Int(i: int)
    | Float(f: real)
    | Double(d: real)
    | Str(s: string)
    | List(items: seq<Tag>)
    | Compound(entries: map<string, Tag>)

  /** Why an accessor failed. */
  datatype TagError = Missing(key: string) | WrongType(key: string)

  /** What an absent key reads as: the default, or a failure without one. */
  function Absent<T>(key: string, default: Option<T>): Result<T, TagError>
  {
    match default
    case Some(v) => Ok(v)
    case None => Err(Missing(key))
  }

  function GetInt(c: map<string, Tag>, key: string, default: Option<int>): Result<int, TagError> {
    if key !in c then Absent(key, default)
    else if c[key].Int? then Ok(c[key].i)
    else Err(WrongType(key))
  }

  function GetDouble(c: map<string, Tag>, key: string, default: Option<real>): Result<real, TagError> {
    if key !in c then Absent(key, default)
    else if c[key].Double? then Ok(c[key].d)
    else Err(WrongType(key))
  }

  function GetFloat(c: map<string, Tag>, key: string, default: Option<real>): Result<real, TagError> {
    if key !in c then Absent(key, default)
    else if c[key].Float? then Ok(c[key].f)
    else Err(WrongType(key))
  }

  function GetString(c: map<string, Tag>, key: string, default: Option<string>): Result<string, TagError> {
    if key !in c then Absent(key, default)
    else if c[key].Str? then Ok(c[key].s)
    else Err(WrongType(key))
  }

  /** getListTag followed by a use of the result: absent is a failure. */
  function GetList(c: map<string, Tag>, key: string): Result<seq<Tag>, TagError> {
    if key !in c then Err(Missing(key))
    else if c[key].List? then Ok(c[key].items)
    else Err(WrongType(key))
  }

  /** getCompoundTag followed by a use of the result: absent is a failure. */
  function GetCompound(c: map<string, Tag>, key: string): Result<map<string, Tag>, TagError> {
    if key !in c then Err(Missing(key))
    else if c[key].Compound? then Ok(c[key].entries)
    else Err(WrongType(key))
  }

  /** The value of a numeric tag (an int widens to a number); None for any other tag. */
  function NumberOf(t: Tag): Option<real> {
    match t
    case Int(i) => Some(i as real)
    case Float(f) => Some(f)
    case Double(d) => Some(d)
    case _ => None
  }

  /**
   * ListTag::getAllValues on a list of numeric tags: the numbers, in list
   * order; None as soon as one element is not a number.
   */
  function Numbers(items: seq<Tag>): (r: Option<seq<real>>)
    ensures r.Some? <==> forall k :: 0 <= k < |items| ==> NumberOf(items[k]).Some?
    ensures r.Some? ==> |r.value| == |items|
    ensures r.Some? ==> forall k :: 0 <= k < |items| ==> NumberOf(items[k]) == Some(r.value[k])
  {
    if items == [] then Some([])
    else
      match (NumberOf(items[0]), Numbers(items[1..]))
      case (Some(x), Some(xs)) => Some([x] + xs)
      case _ => None
  }
}
