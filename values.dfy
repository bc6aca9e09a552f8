/**
 * Python values as the BARS library sees them after `response.json()`:
 * JSON scalars, lists and dicts, plus the dataclass records that the
 * decoders put back into those dicts and lists.  Also the error taxonomy
 * shared by the decoders, the client and the bot.
 */
module Values {

  datatype Option<+T> = None | Some(value: T)

  /** A Python value reachable from a decoded JSON document. */
  datatype Value =
    | Null
    | Bool(b: bool)
    | Int(i: int)
    | Float(r: real)
    | Str(s: string)
    | Arr(items: seq<Value>)
    | Obj(entries: map<string, Value>)
      /** An instance of the dataclass named `kind`, with its attributes. */
    | Rec(kind: string, attrs: map<string, Value>)

  /** The exceptions the modelled code raises, one constructor per cause. */
  datatype Error =
      /** `d[key]` on a dict without `key`. */
    | KeyError(key: string)
      /** `cls(**data)` without some required dataclass fields (a TypeError). */
    | MissingFields(kind: string, fields: set<string>)
      /** `cls(**data)` with keywords the dataclass does not declare (a TypeError). */
    | UnexpectedFields(kind: string, fields: set<string>)
      /** `int(v)` refused `v` (ValueError for text, TypeError for other kinds). */
    | BadInt(arg: Value)
      /** `float(v)` refused `v`. */
    | BadFloat(arg: Value)
      /** A dict operation applied to something that is not a dict. */
    | NotADict(arg: Value)
      /** `enumerate` over something that is not a list. */
    | NotAList(arg: Value)
      /** BARS.exceptions.InternalError: the body was not JSON. */
    | InternalError
      /** BARS.exceptions.Unauthorized: the session id was refused. */
    | Unauthorized
      /** BARS.exceptions.BClientException for any other fault code. */
    | ServiceFault(code: Value, text: Value)
      /** ValueError / TypeError raised by a client method for an unforeseen response shape. */
    | UnexpectedShape(arg: Value)
      /** `xs[i]` out of range. */
    | IndexError
      /** `strptime` refused a date text (ValueError). */
    | BadDate(dateText: string)
      /** The bot's own TelegramBotError: an update without the message or user it needs. */
    | BotError

  datatype Result<+T> = Ok(value: T) | Err(error: Error) {
    predicate IsFailure() { Err? }
    function PropagateFailure<U>(): Result<U>
      requires Err?
    {
      Err(error)
    }
    function Extract(): T
      requires Ok?
    {
      value
    }
  }
}
