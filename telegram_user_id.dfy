/** `TelegramUserID` (internal/domain/telegram_user_id.go): a 64-bit
    integer that is valid when positive, with its constructors, accessors
    and its mapping to and from database values. */
module TelegramUserIds {
  import opened Base
  import GoStrings

  /** The Go type is a plain `int64`: any int64 can be converted into it,
      only the constructors and `Scan` enforce positivity. */
  newtype TelegramUserId = x: int | INT64_MIN <= x <= INT64_MAX

  /** The reasons wrapped around `ErrInvalidTelegramUserID`. */
  datatype UserIdError =
    | MustBePositive  // "must be positive"
    | CannotBeNil     // "cannot be nil"
    | UnsupportedType // "unsupported type %T"

  /** The values `database/sql/driver` hands to a scanner. */
  datatype DriverValue =
    | NullValue
    | Int64Value(i: Int64)
    | Float64Value
    | BoolValue(b: bool)
    | BytesValue(bytes: seq<bv8>)
    | StringValue(s: string)
    | TimeValue(t: Time)

  /** `NewTelegramUserID`: succeeds exactly for positive ids and then
      carries the id; otherwise the zero id with `MustBePositive`. */
  function NewTelegramUserId(id: Int64): (r: (TelegramUserId, Option<UserIdError>))
    ensures r.1.None? <==> id > 0
    ensures r.1.None? ==> ToInt64(r.0) == id
    ensures r.1.Some? ==> r.0 == 0 && r.1 == Some(MustBePositive)
  {
    if id <= 0 then (0, Some(MustBePositive)) else (id as TelegramUserId, None)
  }

  /** `MustNewTelegramUserID`: panics for a non-positive id, which callers
      must therefore not pass. */
  function MustNewTelegramUserId(id: Int64): (r: TelegramUserId)
    requires id > 0
    ensures ToInt64(r) == id && r > 0
  {
    var (u, err) := NewTelegramUserId(id);
    u
  }

  /** `Int64`: the underlying integer; converting back gives the id. */
  function ToInt64(id: TelegramUserId): (r: Int64)
    ensures r as TelegramUserId == id
  {
    id as int
  }

  /** `String`: the decimal rendering (`%d`). */
  function ToString(id: TelegramUserId): (r: string)
    ensures r != [] && (id < 0 <==> r[0] == '-')
  {
    GoStrings.FormatInt(id as int)
  }

  /** `Value`: the id as a driver int64 (the error result is always nil). */
  function Value(id: TelegramUserId): (r: DriverValue)
    ensures r.Int64Value? && r.i == ToInt64(id)
  {
    Int64Value(id as int)
  }

  /** `Equal`: the ids are the same integer. */
  function Equal(id: TelegramUserId, other: TelegramUserId): (r: bool)
    ensures r <==> ToInt64(id) == ToInt64(other)
  {
    id == other
  }

  /** `Scan` as a function of the receiver's current value: the new value
      of the receiver and the error returned. Only a positive int64 is
      accepted; every rejection leaves the receiver as it was. */
  function ScanInto(current: TelegramUserId, value: DriverValue): (r: (TelegramUserId, Option<UserIdError>))
    ensures r.1.None? <==> value.Int64Value? && value.i > 0
    ensures r.1.None? ==> ToInt64(r.0) == value.i
    ensures r.1.Some? ==> r.0 == current
    ensures value.NullValue? ==> r.1 == Some(CannotBeNil)
    ensures value.Int64Value? && value.i <= 0 ==> r.1 == Some(MustBePositive)
    ensures !value.NullValue? && !value.Int64Value? ==> r.1 == Some(UnsupportedType)
  {
    match value
    case NullValue => (current, Some(CannotBeNil))
    case Int64Value(v) =>
      if v <= 0 then (current, Some(MustBePositive)) else (v as TelegramUserId, None)
    case _ => (current, Some(UnsupportedType))
  }

  /** A `*TelegramUserID` that `Scan` writes through. */
  class TelegramUserIdRef {
    var id: TelegramUserId

    constructor (id: TelegramUserId)
      ensures this.id == id
    {
      this.id := id;
    }

    /** `Scan`: stores a positive int64 and reports nothing; otherwise
        reports why and leaves the id alone. */
    method Scan(value: DriverValue) returns (err: Option<UserIdError>)
      modifies this
      ensures (id, err) == ScanInto(old(id), value)
    {
      match value {
        case NullValue =>
          err := Some(CannotBeNil);
        case Int64Value(v) =>
          if v <= 0 {
            err := Some(MustBePositive);
          } else {
            id := v as TelegramUserId;
            err := None;
          }
        case _ =>
          err := Some(UnsupportedType);
      }
    }
  }

  /** Storing a valid id and scanning it back restores it, whatever the
      receiver held before. */
  lemma ValueScanRoundTrip(id: TelegramUserId, receiver: TelegramUserId)
    requires id > 0
    ensures ScanInto(receiver, Value(id)) == (id, None)
  {
  }

  /** Every id `NewTelegramUserId` accepts survives the database round trip. */
  lemma NewIdSurvivesStorage(n: Int64, receiver: TelegramUserId)
    requires NewTelegramUserId(n).1.None?
    ensures ScanInto(receiver, Value(NewTelegramUserId(n).0)) == (n as TelegramUserId, None)
  {
  }

  /** The decimal rendering parses back to the same integer. */
  lemma StringParsesBack(id: TelegramUserId)
    ensures GoStrings.ParseInt(ToString(id)) == Some(ToInt64(id))
  {
    GoStrings.ParseFormatRoundTrip(id as int);
  }
}
