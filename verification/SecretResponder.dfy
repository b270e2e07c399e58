/** The reply side of a secret request: a responder owns the sending half of a one-shot
    channel and gives it up on the first reply or on drop. */
module SecretResponder {
  import opened Wrappers
  import opened Errors

  datatype SecretValue = Text(text: string) | TextMap(entries: map<string, string>)

  /** Setting section to key to secret. */
  type SecretDict = map<string, map<string, SecretValue>>

  datatype SecretReply = Secrets(dict: SecretDict) | UserCanceled | NoSecrets

  /** What the consumer can do with a responder; `Discard` is dropping it unused. */
  datatype Action =
    | WifiPsk(psk: string)
    | WifiEap(identity: Option<string>, password: string)
    | VpnSecrets(secrets: map<string, string>)
    | Raw(settingName: string, data: map<string, SecretValue>)
    | Cancel
    | RefuseSecrets
    | Discard

  function ReplyFor(action: Action): SecretReply {
    match action
    case WifiPsk(psk) => Secrets(map["802-11-wireless-security" := map["psk" := Text(psk)]])
    case WifiEap(identity, password) =>
      var inner := map["password" := Text(password)];
      Secrets(map["802-1x" := if identity.Some? then inner["identity" := Text(identity.value)] else inner])
    case VpnSecrets(secrets) => Secrets(map["vpn" := map["secrets" := TextMap(secrets)]])
    case Raw(name, data) => Secrets(map[name := data])
    case Cancel => UserCanceled
    case RefuseSecrets => NoSecrets
    case Discard => NoSecrets
  }

  /** The responder as a value: whether it still holds the sender, and what was sent. */
  datatype ResponderState = ResponderState(hasTx: bool, sent: seq<SecretReply>)

  const FRESH := ResponderState(true, [])

  function SendReply(r: ResponderState, reply: SecretReply): ResponderState {
    if r.hasTx then ResponderState(false, r.sent + [reply]) else r
  }

  /** `Drop` replies `NoSecrets` if nothing took the sender before. */
  function DropResponder(r: ResponderState): ResponderState {
    SendReply(r, NoSecrets)
  }

  /** A responder's whole remaining life: one action, then the drop that always follows. */
  function Consume(r: ResponderState, action: Action): ResponderState {
    DropResponder(if action.Discard? then r else SendReply(r, ReplyFor(action)))
  }

  /** Exactly one send per life, never zero and never two, and it is the reply of the
      chosen action; a consumed responder stays silent whatever is done to it again. */
  lemma ExactlyOneSend(action: Action, again: Action)
    ensures Consume(FRESH, action) == ResponderState(false, [ReplyFor(action)])
    ensures Consume(Consume(FRESH, action), again) == Consume(FRESH, action)
  {
  }

  /** The one setting and the entries that a reply with secrets carries. */
  predicate Carries(reply: SecretReply, setting: string, entries: map<string, SecretValue>) {
    reply.Secrets? && reply.dict.Keys == {setting} && reply.dict[setting] == entries
  }

  /** What each response puts into its reply, in NetworkManager's own names. */
  lemma RepliesSpelledOut(action: Action)
    ensures match action
            case WifiPsk(psk) => Carries(ReplyFor(action), "802-11-wireless-security", map["psk" := Text(psk)])
            case WifiEap(None, password) => Carries(ReplyFor(action), "802-1x", map["password" := Text(password)])
            case WifiEap(Some(identity), password) =>
              Carries(ReplyFor(action), "802-1x", map["password" := Text(password), "identity" := Text(identity)])
            case VpnSecrets(secrets) => Carries(ReplyFor(action), "vpn", map["secrets" := TextMap(secrets)])
            case Raw(name, data) => Carries(ReplyFor(action), name, data)
            case Cancel => ReplyFor(action) == UserCanceled
            case RefuseSecrets => ReplyFor(action) == NoSecrets
            case Discard => ReplyFor(action) == NoSecrets
  {
  }

  /** The receiving end shared with the waiting call. */
  class ReplyChannel {
    var sent: seq<SecretReply>
    var receiverAlive: bool

    constructor ()
      ensures sent == [] && receiverAlive
    {
      sent, receiverAlive := [], true;
    }
  }

  class Responder {
    var replyTx: ReplyChannel?
    ghost const channel: ReplyChannel

    ghost predicate Valid() reads this {
      replyTx == null || replyTx == channel
    }

    ghost function State(): ResponderState
      reads this, channel
    {
      ResponderState(replyTx != null, channel.sent)
    }

    constructor (tx: ReplyChannel)
      ensures Valid() && channel == tx && State() == ResponderState(true, tx.sent)
    {
      replyTx, channel := tx, tx;
    }

    method Send(reply: SecretReply) returns (result: Result<(), ConnectionError>)
      requires Valid()
      modifies this`replyTx, channel`sent
      ensures Valid() && State() == SendReply(old(State()), reply)
      ensures result.Ok? <==> old(replyTx) != null && channel.receiverAlive
      ensures result.Err? ==> result.error == AgentNotRegistered
    {
      if replyTx == null {
        return Err(AgentNotRegistered);
      }
      var tx := replyTx;
      replyTx := null;
      tx.sent := tx.sent + [reply];
      result := if tx.receiverAlive then Ok(()) else Err(AgentNotRegistered);
    }

    method Drop()
      requires Valid()
      modifies this`replyTx, channel`sent
      ensures Valid() && State() == DropResponder(old(State()))
    {
      if replyTx != null {
        var tx := replyTx;
        replyTx := null;
        tx.sent := tx.sent + [NoSecrets];
      }
    }

    /** A response method takes `self` by value, so the drop runs when it returns. */
    method Respond(action: Action) returns (result: Result<(), ConnectionError>)
      requires Valid() && !action.Discard?
      modifies this`replyTx, channel`sent
      ensures Valid() && State() == Consume(old(State()), action)
      ensures old(State()) == FRESH ==> channel.sent == [ReplyFor(action)]
    {
      result := Send(ReplyFor(action));
      Drop();
    }
  }
}
