/** The records main.py keeps in the framework's session-state bag. */
module Types {

  datatype Option<+T> = None | Some(value: T) {
    /** `d.get(key, default)` on a key that may be missing. */
    function GetOr(default: T): T {
      match this
      case Some(v) => v
      case None => default
    }
  }

  /** The stress label shown, and stored, when the agent gave none. */
  const NotAssessed := "Not assessed"

  /** The text of a uuid4; opaque to the model. */
  type SessionId = string

  /** The closed two-value `sender` tag of a message. */
  datatype Sender = User | Assistant

  /** `{"sender": ..., "text": ..., "timestamp": ...}` */
  datatype Message = Message(sender: Sender, text: string, timestamp: string)

  /** `{"session_id": ..., "date": ..., "messages": [...], "stress_level": ...}` */
  datatype Session = Session(id: SessionId, date: string, messages: seq<Message>, stressLevel: Option<string>)
}
