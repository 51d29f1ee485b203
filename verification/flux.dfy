/** The FLUX image command. It differs from the text commands in three ways.
    Admission is a strict if/elif chain where the first failing check wins.
    The points are taken only after the image was generated, so a failure
    costs nothing. Any non-zero whitelist value exempts the sender. */
module Flux {
  import opened Tokenise
  import opened Whitespace
  import opened Denylist
  import opened Ledger
  import opened Messages

  /** The settings `__init__` loads that `run` reads. */
  datatype Config = Config(price: int, commandFormatMenu: string, admins: set<UserId>, sensitiveWords: seq<string>)

  /** An admin, or any whitelist value other than 0: never charged. */
  predicate Exempt(c: Config, db: Db, u: UserId) {
    u in c.admins || GetWhitelist(db, u) != 0
  }

  predicate ShortOfPoints(c: Config, db: Db, u: UserId) {
    !Exempt(c, db, u) && GetPoints(db, u) < c.price
  }

  ghost predicate Admitted(c: Config, db: Db, sender: UserId, content: string) {
    && HasSeparator(content)
    && !ShortOfPoints(c, db, sender)
    && !Flagged(c.sensitiveWords, Argument(content))
    && !IsBlank(Argument(content))
  }

  /** The first failing check, in the order usage, points, sensitive word,
      blank prompt; each is looked at only when all before it passed. */
  function Admission(c: Config, db: Db, sender: UserId, content: string): (r: Option<Rejection>)
    ensures !HasSeparator(content) ==> r == Some(BadUsage(c.commandFormatMenu))
    ensures HasSeparator(content) && ShortOfPoints(c, db, sender) ==> r == Some(InsufficientPoints(c.price))
    ensures HasSeparator(content) && !ShortOfPoints(c, db, sender) && Flagged(c.sensitiveWords, Argument(content)) ==>
      r == Some(SensitiveContent)
    ensures HasSeparator(content) && !ShortOfPoints(c, db, sender) && !Flagged(c.sensitiveWords, Argument(content))
            && IsBlank(Argument(content)) ==>
      r == Some(BlankPrompt(c.commandFormatMenu))
    ensures r == None <==> Admitted(c, db, sender, content)
  {
    var tokens := Split(content);
    var prompt := JoinSpace(tokens[1..]);
    var missing := |tokens| < 2;
    var short := sender !in c.admins && GetWhitelist(db, sender) == 0 && GetPoints(db, sender) < c.price;
    var clean := SensitiveWordCheck(c.sensitiveWords, prompt);
    var blank := Strip(prompt) == "";
    assert missing == !HasSeparator(content) by { FewTokensIffNoSeparator(content); }
    assert blank == IsBlank(Argument(content)) by { StripEmptyIffBlank(prompt); }
    if missing then Some(BadUsage(c.commandFormatMenu))
    else if short then Some(InsufficientPoints(c.price))
    else if !clean then Some(SensitiveContent)
    else if blank then Some(BlankPrompt(c.commandFormatMenu))
    else None
  }

  /** One `run`, with the image generator's result given as `outcome`
      (the saved image's path, or the error). */
  function Run(c: Config, db: Db, req: Request, outcome: Outcome): (r: RunResult)
    // credit conservation, and at most one debit, of exactly `price`
    ensures r.db == ApplyAll(db, req.sender, r.adjustments)
    ensures r.adjustments == [] || r.adjustments == [-c.price]
    // the debit happens exactly when a non-exempt sender's image was made
    ensures r.adjustments == [-c.price] <==>
      Admission(c, db, req.sender, req.content) == None && !Exempt(c, db, req.sender) && outcome.Ok?
    // a refused command: its one error reply, nothing generated, the ledger untouched
    ensures Admission(c, db, req.sender, req.content) != None ==>
      && r.actions == [Say(Rejected(Admission(c, db, req.sender, req.content).value))]
      && r.prompt == None && r.adjustments == []
    // an admitted command: "generating" first, then the generator gets the prompt
    ensures Admission(c, db, req.sender, req.content) == None ==>
      && |r.actions| >= 2 && r.actions[0] == Say(Generating)
      && r.prompt == Some(Argument(req.content))
    // a failed generation says nothing was deducted, and nothing was
    ensures Admission(c, db, req.sender, req.content) == None && outcome.Err? ==>
      r.actions == [Say(Generating), Say(GenerationFailed(outcome.diag))]
    // a made image is always sent, last; only a charged sender is told
    // about the charge before it
    ensures Admission(c, db, req.sender, req.content) == None && outcome.Ok? ==>
      r.actions == [Say(Generating)] + (if Exempt(c, db, req.sender) then [] else [Say(ImageCharged(c.price))])
                   + [SendImage(outcome.text)]
    // the charge notice is sent exactly when the charge is made
    ensures Say(ImageCharged(c.price)) in r.actions <==> r.adjustments == [-c.price]
    // a charged sender cannot go below zero: admission saw enough points
    ensures r.adjustments == [-c.price] ==> GetPoints(r.db, req.sender) >= 0
  {
    var sender := req.sender;
    var prompt := Argument(req.content);
    match Admission(c, db, sender, req.content)
    case Some(error) => RunResult(db, [], [Say(Rejected(error))], None)
    case None =>
      match outcome
      case Err(diag) => RunResult(db, [], [Say(Generating), Say(GenerationFailed(diag))], Some(prompt))
      case Ok(path) =>
        if sender !in c.admins && GetWhitelist(db, sender) == 0 then
          var charged := AddPoints(db, sender, -c.price);
          var actions := [Say(Generating), Say(ImageCharged(c.price)), SendImage(path)];
          assert [-c.price][1..] == [];
          assert ApplyAll(db, sender, [-c.price]) == ApplyAll(charged, sender, []);
          assert actions == [Say(Generating)] + [Say(ImageCharged(c.price))] + [SendImage(path)];
          RunResult(charged, [-c.price], actions, Some(prompt))
        else
          var actions := [Say(Generating), SendImage(path)];
          assert actions == [Say(Generating)] + [] + [SendImage(path)];
          assert Say(ImageCharged(c.price)) !in actions;
          RunResult(db, [], actions, Some(prompt))
  }

  /** A prompt that is empty or only whitespace after the command word is
      refused with the help text, once usage, points and words have passed. */
  lemma BlankPromptRefused(c: Config, db: Db, req: Request, outcome: Outcome, i: nat)
    requires i < |req.content| && IsSeparator(req.content[i])
    requires forall j :: 0 <= j < i ==> !IsSeparator(req.content[j])
    requires IsBlank(req.content[i + 1..])
    requires !ShortOfPoints(c, db, req.sender) && !Flagged(c.sensitiveWords, Argument(req.content))
    ensures Run(c, db, req, outcome).actions == [Say(Rejected(BlankPrompt(c.commandFormatMenu)))]
    ensures Run(c, db, req, outcome).db == db
  {
    ArgumentAfterFirstSeparator(req.content, i);
    AsciiSpacedKeepsBlank(req.content[i + 1..]);
  }

  /** Turning separators into ASCII spaces keeps a blank text blank: both
      separators are whitespace. */
  lemma {:induction false} AsciiSpacedKeepsBlank(s: string)
    requires IsBlank(s)
    ensures IsBlank(AsciiSpaced(s))
  {
    if |s| > 0 {
      AsciiSpacedKeepsBlank(s[1..]);
      var t := AsciiSpaced(s);
      assert t == [t[0]] + AsciiSpaced(s[1..]);
      assert forall i :: 1 <= i < |t| ==> t[i] == AsciiSpaced(s[1..])[i - 1];
    }
  }
}
