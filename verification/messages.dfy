/** What a command plugin receives, what the provider answers, what the
    plugin replies, and `send_friend_or_group`, which puts a reply on the
    wire for a private or a group chat. */
module Messages {
  import opened Ledger

  datatype Option<T> = None | Some(value: T)

  type RoomId = string

  /** One incoming command: sender, the chat it came from (the group's id for
      a group chat), whether that chat is a group, and the raw text. */
  datatype Request = Request(sender: UserId, room: RoomId, fromGroup: bool, content: string)

  /** What a provider call came back with: the answer (for the image plugin,
      the saved file's path) or a diagnostic. */
  datatype Outcome = Ok(text: string) | Err(diag: string)

  /** Why a command was refused before any provider call. */
  datatype Rejection =
    | InsufficientPoints(price: int)   // "not enough points, need <price>"
    | BadUsage(menu: string)           // "wrong arguments" and the help text
    | SensitiveContent                 // "the content holds a sensitive word"
    | BlankPrompt(menu: string)        // "please describe the image" and the help text

  /** The replies a plugin sends, by kind; the wording is left to `render`. */
  datatype Reply =
    | Rejected(why: Rejection)
    | Received                                            // "received, processing, do not resend"
    | WaivedAnswer(answer: string)                        // whitelisted or admin: nothing deducted
    | Failed(diag: string)                                // error, no refund wording
    | PaidAnswer(price: int, remaining: int, answer: string)
    | RefundedFailure(diag: string)                       // error, the points were given back
    | Generating                                          // "generating the image, please wait"
    | GenerationFailed(diag: string)                      // error, nothing was deducted
    | ImageCharged(price: int)                            // "image done, <price> points deducted"

  datatype Action = Say(reply: Reply) | SendImage(path: string)

  /** The effect of one `run`: the database afterwards, the `add_points`
      deltas made on the sender in order, what was sent in order, and the
      prompt the provider was called with, if it was called. */
  datatype RunResult = RunResult(db: Db, adjustments: seq<int>, actions: seq<Action>, prompt: Option<string>)

  /** What the chat transport is asked to do: `send_text(text, room, mention?)`
      or `send_image(path, room)`. */
  datatype Outgoing =
    | TextTo(text: string, room: RoomId, mention: Option<UserId>)
    | ImageTo(path: string, room: RoomId)

  /** `text` is `"@" + nickname + "\n" + msg`, read piece by piece. */
  predicate MentionPrefixed(text: string, nickname: string, msg: string) {
    && |text| == |nickname| + |msg| + 2
    && text[0] == '@'
    && text[1..|nickname| + 1] == nickname
    && text[|nickname| + 1] == '\n'
    && text[|nickname| + 2..] == msg
  }

  /** `send_friend_or_group`: in a group the reply is addressed to the sender
      by the nickname the database holds for them and carries the sender as
      mention target; in a private chat it goes out unchanged. Either way it
      goes to the chat it came from. */
  function SendFriendOrGroup(req: Request, db: Db, msg: string): (o: Outgoing)
    ensures o.TextTo? && o.room == req.room
    ensures req.fromGroup ==>
      o.mention == Some(req.sender) && MentionPrefixed(o.text, GetNickname(db, req.sender), msg)
    ensures !req.fromGroup ==> o.mention == None && o.text == msg
  {
    if req.fromGroup then TextTo("@" + GetNickname(db, req.sender) + "\n" + msg, req.room, Some(req.sender))
    else TextTo(msg, req.room, None)
  }

  /** Reading a group message back: the reply body after the mention line. */
  function Unmention(text: string, nickname: string): Option<string> {
    if |text| >= |nickname| + 2 && text[0] == '@' && text[1..|nickname| + 1] == nickname
       && text[|nickname| + 1] == '\n'
    then Some(text[|nickname| + 2..])
    else None
  }

  /** The mention prefix hides nothing: the reply is recovered from what was
      sent by removing the line that names the sender. */
  lemma UnmentionRecovers(req: Request, db: Db, msg: string)
    requires req.fromGroup
    ensures Unmention(SendFriendOrGroup(req, db, msg).text, GetNickname(db, req.sender)) == Some(msg)
  {
  }

  /** Puts a run's actions on the wire, in order: each reply through
      `send_friend_or_group`, each image straight to the chat with no mention. */
  function Deliver(req: Request, db: Db, render: Reply -> string, actions: seq<Action>): (out: seq<Outgoing>)
    ensures |out| == |actions|
    ensures forall i :: 0 <= i < |actions| ==> (out[i].TextTo? <==> actions[i].Say?) && out[i].room == req.room
    ensures forall i :: 0 <= i < |actions| && actions[i].Say? && req.fromGroup ==>
      && out[i].mention == Some(req.sender)
      && MentionPrefixed(out[i].text, GetNickname(db, req.sender), render(actions[i].reply))
    ensures forall i :: 0 <= i < |actions| && actions[i].Say? && !req.fromGroup ==>
      out[i].mention == None && out[i].text == render(actions[i].reply)
    ensures forall i :: 0 <= i < |actions| && actions[i].SendImage? ==> out[i].path == actions[i].path
  {
    if |actions| == 0 then []
    else
      var first := match actions[0]
        case Say(reply) => SendFriendOrGroup(req, db, render(reply))
        case SendImage(path) => ImageTo(path, req.room);
      var rest := Deliver(req, db, render, actions[1..]);
      assert forall i :: 1 <= i < |actions| ==> actions[i] == actions[1..][i - 1];
      [first] + rest
  }
}
