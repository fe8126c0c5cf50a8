/** Vocabulary shared by every component: identifiers, plans and the status enumerations of the stored models. */
module Types {

  datatype Option<T> = None | Some(value: T) {
    /** The value, or `d` when there is none. */
    function GetOr(d: T): T {
      if Some? then value else d
    }
  }

  datatype Result<T, E> = Ok(value: T) | Err(error: E)

  type UserId = string
  type SessionId = string

  /** The session label every account starts with; also the only one the WhatsApp facade ever uses. */
  const DefaultSession: string := "default"

  /** An abstract calendar day: two instants are on the same day iff their `Day` values are equal. */
  type Day = int

  /** An abstract clock reading in milliseconds. */
  type Instant = int

  datatype Plan = Free | Pro {
    function Name(): string {
      match this
      case Free => "free"
      case Pro => "pro"
    }
  }

  /** The status of an OTP log row. */
  datatype OtpLogStatus = Pending | Delivered | Failed | Verified

  /** The status of a transactional message log row. */
  datatype MessageLogStatus = Pending | Delivered | Failed

  /** The coarse connection status kept on connection rows and on the user record. */
  datatype ConnStatus = Connected | Disconnected | Connecting

  /** A bcrypt hash. The constructor stands in for bcrypt: equal hashes mean equal inputs. */
  datatype Digest = Bcrypt(secret: string)
}
