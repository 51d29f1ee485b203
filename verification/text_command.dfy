/** The `run` pipeline the three text plugins (big_model, qwen, kimi) share:
    admission with last-write-wins error precedence, an acknowledgement,
    then either a free call for privileged users or a debit before the
    provider call that is refunded by the same amount when the call fails. */
module TextCommand {
  import opened Tokenise
  import opened Denylist
  import opened Ledger
  import opened Messages

  /** Per-plugin settings: the help text, the sensitive words and the admins. */
  datatype Settings = Settings(menu: string, denylist: seq<string>, admins: set<UserId>)

  /** Whitelist value exactly 1, or an admin: never charged. */
  predicate Privileged(s: Settings, db: Db, u: UserId) {
    GetWhitelist(db, u) == 1 || u in s.admins
  }

  predicate ShortOfPoints(s: Settings, price: int, db: Db, u: UserId) {
    !Privileged(s, db, u) && GetPoints(db, u) < price
  }

  /** A command passes admission when its argument is clean, the sender can
      pay (or need not) and the text holds a separator at all. */
  ghost predicate Admitted(s: Settings, price: int, db: Db, sender: UserId, content: string) {
    && !Flagged(s.denylist, Argument(content))
    && !ShortOfPoints(s, price, db, sender)
    && HasSeparator(content)
  }

  /** The error message `run` settles on: the balance check, else the token
      count, both overwritten by the sensitive-word check. The net
      precedence is sensitive word, then points, then usage. */
  function Admission(s: Settings, price: int, db: Db, sender: UserId, content: string): (r: Option<Rejection>)
    ensures r == Some(SensitiveContent) <==> Flagged(s.denylist, Argument(content))
    ensures !Flagged(s.denylist, Argument(content)) && ShortOfPoints(s, price, db, sender) ==>
      r == Some(InsufficientPoints(price))
    ensures !Flagged(s.denylist, Argument(content)) && !ShortOfPoints(s, price, db, sender) && !HasSeparator(content) ==>
      r == Some(BadUsage(s.menu))
    ensures r == None <==> Admitted(s, price, db, sender, content)
  {
    FewTokensIffNoSeparator(content);
    var tokens := Split(content);
    var error :=
      if GetPoints(db, sender) < price && GetWhitelist(db, sender) != 1 && sender !in s.admins then
        Some(InsufficientPoints(price))
      else if |tokens| < 2 then Some(BadUsage(s.menu))
      else None;
    var request := JoinSpace(tokens[1..]);
    if !SensitiveWordCheck(s.denylist, request) then Some(SensitiveContent) else error
  }

  /** One `run`, with the provider's answer given as `outcome`. */
  function Run(s: Settings, price: int, db: Db, req: Request, outcome: Outcome): (r: RunResult)
    // credit conservation: the balance moves only through the logged adjustments
    ensures r.db == ApplyAll(db, req.sender, r.adjustments)
    // at most one debit, and a refund is always of the amount debited
    ensures r.adjustments == [] || r.adjustments == [-price] || r.adjustments == [-price, price]
    // the net charge is the price exactly when a paying sender got an answer
    ensures Sum(r.adjustments) ==
      if Admission(s, price, db, req.sender, req.content) == None && !Privileged(s, db, req.sender) && outcome.Ok?
      then -price else 0
    // a refused command gets its one error reply, no ledger call and no provider call
    ensures Admission(s, price, db, req.sender, req.content) != None ==>
      && r.actions == [Say(Rejected(Admission(s, price, db, req.sender, req.content).value))]
      && r.adjustments == [] && r.prompt == None
    // an admitted command is acknowledged first, then answered once,
    // and the provider gets the text after the first separator
    ensures Admission(s, price, db, req.sender, req.content) == None ==>
      && |r.actions| == 2 && r.actions[0] == Say(Received)
      && r.prompt == Some(Argument(req.content))
    // privileged senders are never charged, whatever the provider does
    ensures Privileged(s, db, req.sender) ==> r.adjustments == []
    // a paid answer is one debit of the price, even a price of 0, and
    // reports the balance left after it
    ensures Admission(s, price, db, req.sender, req.content) == None && !Privileged(s, db, req.sender) && outcome.Ok? ==>
      && r.adjustments == [-price]
      && r.actions[1] == Say(PaidAnswer(price, GetPoints(db, req.sender) - price, outcome.text))
    // a paid failure is debited, refunded by the same amount and says so
    ensures Admission(s, price, db, req.sender, req.content) == None && !Privileged(s, db, req.sender) && outcome.Err? ==>
      && r.adjustments == [-price, price]
      && r.actions[1] == Say(RefundedFailure(outcome.diag))
    // a privileged sender gets the answer marked as free, or the error without
    // refund wording
    ensures Admission(s, price, db, req.sender, req.content) == None && Privileged(s, db, req.sender) ==>
      r.actions[1] == Say(if outcome.Ok? then WaivedAnswer(outcome.text) else Failed(outcome.diag))
  {
    var sender := req.sender;
    match Admission(s, price, db, sender, req.content)
    case Some(error) => RunResult(db, [], [Say(Rejected(error))], None)
    case None =>
      var request := Argument(req.content);
      if GetWhitelist(db, sender) == 1 || sender in s.admins then
        var answer := match outcome
          case Ok(text) => WaivedAnswer(text)
          case Err(diag) => Failed(diag);
        RunResult(db, [], [Say(Received), Say(answer)], Some(request))
      else if GetPoints(db, sender) >= price then
        var charged := AddPoints(db, sender, -price);
        match outcome
        case Ok(text) =>
          RunResult(charged, [-price], [Say(Received), Say(PaidAnswer(price, GetPoints(charged, sender), text))], Some(request))
        case Err(diag) =>
          var refunded := AddPoints(charged, sender, price);
          assert [-price, price][1..] == [price] && [price][1..] == [];
          assert ApplyAll(charged, sender, [price]) == ApplyAll(refunded, sender, []);
          assert ApplyAll(db, sender, [-price, price]) == ApplyAll(charged, sender, [price]);
          RunResult(refunded, [-price, price], [Say(Received), Say(RefundedFailure(diag))], Some(request))
      else
        // unreachable: admission already required the points
        RunResult(db, [], [Say(Received)], None)
  }

  /** After admission exactly one of the privileged and the paid branches
      runs: an admitted sender who is not privileged can pay. */
  lemma AdmittedCanPay(s: Settings, price: int, db: Db, sender: UserId, content: string)
    requires Admission(s, price, db, sender, content) == None
    ensures Privileged(s, db, sender) || GetPoints(db, sender) >= price
  {
  }

  /** A failed provider call leaves every balance where it was, whoever sent
      the command. */
  lemma FailureCostsNothing(s: Settings, price: int, db: Db, req: Request, diag: string)
    ensures forall v :: GetPoints(Run(s, price, db, req, Err(diag)).db, v) == GetPoints(db, v)
  {
  }

  /** The split in `run` lets an argument of nothing but spaces through:
      "ask " is admitted, sent to the provider as the empty prompt and charged
      on success. The image plugin refuses such a prompt. */
  lemma BlankArgumentIsCharged(s: Settings, price: int, db: Db, req: Request, answer: string)
    requires req.content == "ask "
    requires !Privileged(s, db, req.sender) && GetPoints(db, req.sender) >= price
    requires SensitiveWordCheck(s.denylist, "")
    ensures Run(s, price, db, req, Ok(answer)).prompt == Some("")
    ensures GetPoints(Run(s, price, db, req, Ok(answer)).db, req.sender) == GetPoints(db, req.sender) - price
  {
    ArgumentAfterFirstSeparator(req.content, 3);
    assert req.content[4..] == "";
  }

  /** A sender with exactly the price who gets an answer is left with 0
      points, and the reply says 0 remain. */
  lemma PaidDownToZero(s: Settings, db: Db, req: Request, answer: string)
    requires req.content == "bm hello" && s.denylist == []
    requires !Privileged(s, db, req.sender) && GetPoints(db, req.sender) == 5
    ensures GetPoints(Run(s, 5, db, req, Ok(answer)).db, req.sender) == 0
    ensures Run(s, 5, db, req, Ok(answer)).actions[1] == Say(PaidAnswer(5, 0, answer))
  {
    assert IsSeparator(req.content[2]);
  }
}
