/**
 * FinalPhase.py: the full conversation state machine. Existing customers are
 * verified by phone and ZIP and reach `ok_exist`; new users leave a name, a phone
 * and an e-mail address and reach `ok_new`; both can ask about savings and about
 * an uploaded document, only `ok_exist` about balance and transactions; `exit`
 * asks for confirmation, `bye` ends the session at once.
 *
 * `Turn` is the handler as a function of the session and the utterance; the
 * `Session` class holds the two module globals and its `Chat` method updates them
 * step by step as `chat` does, proved to agree with `Turn`.
 */
module FinalPhase {
  import opened Text
  import opened Backends
  import opened Replies
  import opened Dialogue

  // ---------------------------------------------------------------- intent tests

  const EXISTING_STEMS := ["exist", "current", "old", "return"]
  const NEW_STEMS := ["new", "sign", "open", "join"]

  /** `re_existing.search(text)` with `re_existing = \b(exist|current|old|return)\w*`, `re.I`. */
  function LooksLikeExisting(text: string): (r: bool)
    ensures r <==> exists j :: 0 <= j <= |text| && WordStart(text, j) &&
                     (PrefixAt(text, j, "exist") || PrefixAt(text, j, "current") ||
                      PrefixAt(text, j, "old") || PrefixAt(text, j, "return"))
  {
    var r := SearchFrom(text, 0, EXISTING_STEMS);
    assert forall j | 0 <= j <= |text| :: KeywordAt(text, j, EXISTING_STEMS) <==>
      WordStart(text, j) &&
      (PrefixAt(text, j, EXISTING_STEMS[0]) || PrefixAt(text, j, EXISTING_STEMS[1]) ||
       PrefixAt(text, j, EXISTING_STEMS[2]) || PrefixAt(text, j, EXISTING_STEMS[3]));
    r
  }

  /** `re_new.search(text)` with `re_new = \b(new|sign|open|join)\w*`, `re.I`. */
  function LooksLikeNew(text: string): (r: bool)
    ensures r <==> exists j :: 0 <= j <= |text| && WordStart(text, j) &&
                     (PrefixAt(text, j, "new") || PrefixAt(text, j, "sign") ||
                      PrefixAt(text, j, "open") || PrefixAt(text, j, "join"))
  {
    var r := SearchFrom(text, 0, NEW_STEMS);
    assert forall j | 0 <= j <= |text| :: KeywordAt(text, j, NEW_STEMS) <==>
      WordStart(text, j) &&
      (PrefixAt(text, j, NEW_STEMS[0]) || PrefixAt(text, j, NEW_STEMS[1]) ||
       PrefixAt(text, j, NEW_STEMS[2]) || PrefixAt(text, j, NEW_STEMS[3]));
    r
  }

  // ---------------------------------------------------------------- the handler


  /** One call of `chat(user, hist)`: the utterance is stripped, and lower-cased for matching. */
  function Turn(s: Snapshot, user: string, db: Store, ask: Oracle): Outcome
  {
    Handle(s, Strip(user), Lower(Strip(user)), db, ask)
  }

  /** The dispatch on `state["step"]`, given the stripped utterance `msg` and its lower-case form `low`. */
  function Handle(s: Snapshot, msg: string, low: string, db: Store, ask: Oracle): Outcome
  {
    var st := s.state;
    match st.step
    case Start =>
      Outcome(Reply(Welcome, NoPrompt), s.(state := st.(step := Type)))
    case Type =>
      if LooksLikeExisting(low) then Outcome(Reply(AskPhone, NoPrompt), s.(state := st.(step := Phone)))
      else if LooksLikeNew(low) then Outcome(Reply(AskName, NoPrompt), s.(state := st.(step := NewName)))
      else Outcome(Reply(ChooseType, NoPrompt), s)
    case NewName =>
      Outcome(Reply(AskContactPhone, NoPrompt),
              s.(state := st.(prospectName := Some(Title(msg)), step := NewPhone)))
    case NewPhone =>
      Outcome(Reply(AskEmail, NoPrompt), s.(state := st.(prospectPhone := Some(msg), step := NewEmail)))
    case NewEmail =>
      if st.prospectName.None? then Raise()
      else Outcome(Reply(LeadThanks(st.prospectName.value), Again), s.(state := Only(OkNew)))
    case Phone =>
      var row := FindByPhone(db, msg);
      if row.None? then Outcome(Reply(PhoneNotFound, NoPrompt), s)
      else Outcome(Reply(AskZip, NoPrompt),
                   s.(state := st.(cid := Some(row.value.id), first := Some(row.value.first),
                                   last := Some(row.value.last), step := Zip)))
    case Zip =>
      if st.cid.None? || st.cid.value !in db.customers then Raise()
      else if msg != db.customers[st.cid.value].zip then Outcome(Reply(ZipMismatch, NoPrompt), s)
      else if st.first.None? then Raise()
      else Outcome(Reply(WelcomeBack(st.first.value), Again), s.(state := st.(step := OkExist)))
    case OkExist => Serve(s, msg, low, db, ask)
    case OkNew => Serve(s, msg, low, db, ask)
    case ConfirmExit =>
      if StartsWith(low, "y") then Outcome(Reply(SessionClosed, NoPrompt), Fresh)
      else Outcome(Reply(StillConnected, Again),
                   s.(state := st.(step := if st.cid.Some? then OkExist else OkNew)))
    case Unknown(_) =>
      Outcome(Reply(StartOver, NoPrompt), Fresh)
  }

  /** The main-actions block, entered in `ok_exist` and `ok_new`. */
  function Serve(s: Snapshot, msg: string, low: string, db: Store, ask: Oracle): Outcome
    requires s.state.step == OkExist || s.state.step == OkNew
  {
    var st := s.state;
    if low in {"exit", "quit", "leave"} then
      Outcome(Reply(ConfirmExitPrompt, NoPrompt), s.(state := st.(step := ConfirmExit)))
    else if low in {"bye", "thanks", "thank you"} then
      Outcome(Reply(Goodbye, NoPrompt), Fresh)
    else if low == "upload" then
      Outcome(Reply(UploadHint, NoPrompt), s)
    else if st.step == OkExist && Contains(low, "balance") then
      if st.cid.None? || st.cid.value !in db.customers then Raise()
      else Outcome(Reply(Balance(db.customers[st.cid.value].balance), Again), s)
    else if st.step == OkExist && (Contains(low, "transaction") || Contains(low, "recent")) then
      if st.cid.None? then Raise()
      else
        var rows := RecentTransactions(db, st.cid.value);
        Outcome(Reply(if rows == [] then NoTransactions else Transactions(rows), Again), s)
    else if Contains(low, "saving") then
      Outcome(Reply(SavingsOffer, Again), s)
    else if low == "yes" then
      Outcome(Reply(SavingsLink, Again), s)
    else if HasText(s.pdfText) then
      var answer := ask(msg, s.pdfText.value);
      if answer.Failed? then Raise()
      else Outcome(Reply(DocumentAnswer(answer.text), Again), s)
    else
      Outcome(Reply(Blank, Again), s)
  }

  // ---------------------------------------------------------------- sessions over time

  /** The session after one inbound event. */
  function Apply(s: Snapshot, e: Event, db: Store, files: Files, ask: Oracle): Snapshot
  {
    match e
    case Said(u) => Turn(s, u, db, ask).after
    case Changed(p) => s.(pdfText := Attach(s.pdfText, p, files).pdfText)
  }

  /** The session after a sequence of events, processed one at a time. */
  function Run(s: Snapshot, events: seq<Event>, db: Store, files: Files, ask: Oracle): Snapshot
    decreases |events|
  {
    if events == [] then s else Run(Apply(s, events[0], db, files, ask), events[1..], db, files, ask)
  }

  // ---------------------------------------------------------------- properties of one turn
  //
  // The lemmas below are stated about `Handle`, for any stripped utterance `msg`
  // and any lower-case form `low`; `Turn` is `Handle` applied to `Strip(user)`
  // and `Lower(Strip(user))`.

  /** From `start`, any utterance moves to `type` and changes nothing else. */
  lemma StartAlwaysAdvances(s: Snapshot, msg: string, low: string, db: Store, ask: Oracle)
    requires s.state.step == Start
    ensures Handle(s, msg, low, db, ask) == Outcome(Reply(Welcome, NoPrompt), s.(state := s.state.(step := Type)))
  {
  }

  /**
   * In `type` the existing-customer test is tried first: it wins even when the
   * new-user test also matches; with neither, the session is unchanged.
   */
  lemma TypeChoicePriority(s: Snapshot, msg: string, low: string, db: Store, ask: Oracle)
    requires s.state.step == Type
    ensures var after := Handle(s, msg, low, db, ask).after;
            && (LooksLikeExisting(low) ==> after == s.(state := s.state.(step := Phone)))
            && (!LooksLikeExisting(low) && LooksLikeNew(low) ==> after == s.(state := s.state.(step := NewName)))
            && (!LooksLikeExisting(low) && !LooksLikeNew(low) ==> after == s)
  {
  }

  /** "new or existing": both tests match, and the existing-customer branch is taken. */
  lemma ExistingBeatsNew(s: Snapshot, msg: string, db: Store, ask: Oracle)
    requires s.state.step == Type
    ensures Handle(s, msg, "new or existing", db, ask).after.state.step == Phone
  {
    var text := "new or existing";
    LowerIdentity(text[7..12]);
    assert WordStart(text, 7) && PrefixAt(text, 7, "exist");
  }

  /** The new-user test alone also matches "new or existing". */
  lemma NewAlsoMatches()
    ensures LooksLikeNew("new or existing")
  {
    var text := "new or existing";
    LowerIdentity(text[0..3]);
    assert WordStart(text, 0) && PrefixAt(text, 0, "new");
  }

  /**
   * New-user capture: name, phone and e-mail in three turns reach `ok_new`, thank
   * the user by the title-cased name, and leave a state holding only `step`.
   */
  lemma LeadCapture(s: Snapshot, name: string, low1: string, phone: string, low2: string,
                    email: string, low3: string, db: Store, ask: Oracle)
    requires s.state.step == NewName
    ensures var o1 := Handle(s, name, low1, db, ask);
            var o2 := Handle(o1.after, phone, low2, db, ask);
            var o3 := Handle(o2.after, email, low3, db, ask);
            && o1.after.state.step == NewPhone
            && o2.after.state.step == NewEmail
            && o2.after.state.prospectPhone == Some(phone)
            && o3.after == Snapshot(Only(OkNew), s.pdfText)
            && o3.reply == Reply(LeadThanks(Title(name)), Again)
  {
  }

  /** A phone that is not found changes nothing; a found one records the customer and asks for the ZIP. */
  lemma PhoneStep(s: Snapshot, msg: string, low: string, db: Store, ask: Oracle)
    requires s.state.step == Phone
    ensures var row := FindByPhone(db, msg);
            var o := Handle(s, msg, low, db, ask);
            && (row.None? ==> o == Outcome(Reply(PhoneNotFound, NoPrompt), s))
            && (row.Some? ==> o.after == s.(state := s.state.(cid := Some(row.value.id),
                                 first := Some(row.value.first), last := Some(row.value.last), step := Zip)))
  {
  }

  /**
   * A wrong ZIP keeps the step at `zip` with the customer id in place, any number
   * of times; the exact ZIP of that customer moves to `ok_exist`.
   */
  lemma ZipStep(s: Snapshot, msg: string, low: string, db: Store, ask: Oracle)
    requires s.state.step == Zip && s.state.cid.Some? && s.state.first.Some?
    requires s.state.cid.value in db.customers
    ensures var o := Handle(s, msg, low, db, ask);
            && (msg != db.customers[s.state.cid.value].zip ==> o == Outcome(Reply(ZipMismatch, NoPrompt), s))
            && (msg == db.customers[s.state.cid.value].zip ==>
                  o == Outcome(Reply(WelcomeBack(s.state.first.value), Again), s.(state := s.state.(step := OkExist))))
  {
  }

  /** Balance and transaction replies are given only in `ok_exist`. */
  lemma AccountRepliesNeedVerifiedCustomer(s: Snapshot, msg: string, low: string, db: Store, ask: Oracle)
    ensures var m := Handle(s, msg, low, db, ask).reply.msg;
            m.Balance? || m.Transactions? || m.NoTransactions? ==> s.state.step == OkExist
  {
    match s.state.step
    case OkNew => ServeGatesAccounts(s, msg, low, db, ask);
    case Start =>
    case Type =>
    case NewName =>
    case NewPhone =>
    case NewEmail =>
    case Phone =>
    case Zip =>
    case OkExist =>
    case ConfirmExit =>
    case Unknown(_) =>
  }

  lemma ServeGatesAccounts(s: Snapshot, msg: string, low: string, db: Store, ask: Oracle)
    requires s.state.step == OkNew
    ensures var m := Serve(s, msg, low, db, ask).reply.msg;
            !m.Balance? && !m.Transactions? && !m.NoTransactions?
  {
  }

  /**
   * In `ok_exist`, a balance request reports the stored balance of the verified
   * customer, and a transaction request the customer's most recent transactions.
   */
  lemma AccountReplies(s: Snapshot, msg: string, low: string, db: Store, ask: Oracle)
    requires s.state.step == OkExist && s.state.cid.Some? && s.state.cid.value in db.customers
    requires low !in {"exit", "quit", "leave", "bye", "thanks", "thank you", "upload"}
    ensures var o := Handle(s, msg, low, db, ask);
            var id := s.state.cid.value;
            && (Contains(low, "balance") ==> o == Outcome(Reply(Balance(db.customers[id].balance), Again), s))
            && (!Contains(low, "balance") && (Contains(low, "transaction") || Contains(low, "recent")) ==>
                  o.after == s &&
                  (o.reply.msg == NoTransactions <==> RecentTransactions(db, id) == []) &&
                  (o.reply.msg.Transactions? ==> o.reply.msg.rows == RecentTransactions(db, id)))
  {
  }

  /**
   * In `ok_new`, an utterance that is not an exit word or `upload` goes to savings,
   * the link, the document or the fallback, whatever account words it contains,
   * and leaves the session unchanged unless the answer engine fails.
   */
  lemma NewUserFallsThrough(s: Snapshot, msg: string, low: string, db: Store, ask: Oracle)
    requires s.state.step == OkNew
    requires low !in {"exit", "quit", "leave", "bye", "thanks", "thank you", "upload"}
    ensures var o := Handle(s, msg, low, db, ask);
            && (Contains(low, "saving") ==> o == Outcome(Reply(SavingsOffer, Again), s))
            && (!Contains(low, "saving") && low == "yes" ==> o == Outcome(Reply(SavingsLink, Again), s))
            && (!Contains(low, "saving") && low != "yes" && !HasText(s.pdfText) ==>
                  o == Outcome(Reply(Blank, Again), s))
            && (!Contains(low, "saving") && low != "yes" && HasText(s.pdfText) ==>
                  (ask(msg, s.pdfText.value).Answered? ==>
                     o == Outcome(Reply(DocumentAnswer(ask(msg, s.pdfText.value).text), Again), s))
                  && (ask(msg, s.pdfText.value).Failed? ==> o == Raise()))
  {
  }

  /**
   * In the served states `exit`, `quit` or `leave` (exactly) asks for confirmation,
   * while `bye`, `thanks` or `thank you` (exactly) resets at once, document included.
   */
  lemma ExitWords(s: Snapshot, msg: string, low: string, db: Store, ask: Oracle)
    requires s.state.step == OkExist || s.state.step == OkNew
    ensures var o := Handle(s, msg, low, db, ask);
            && (low in {"exit", "quit", "leave"} ==>
                  o == Outcome(Reply(ConfirmExitPrompt, NoPrompt), s.(state := s.state.(step := ConfirmExit))))
            && (low in {"bye", "thanks", "thank you"} ==> o == Outcome(Reply(Goodbye, NoPrompt), Fresh))
  {
  }

  /**
   * In `confirm_exit` a reply starting with `y` closes the session and drops the
   * document; any other reply returns to `ok_exist` exactly when a customer id is
   * present, else to `ok_new`.
   */
  lemma ConfirmExitResolves(s: Snapshot, msg: string, low: string, db: Store, ask: Oracle)
    requires s.state.step == ConfirmExit
    ensures var o := Handle(s, msg, low, db, ask);
            && (StartsWith(low, "y") ==> o == Outcome(Reply(SessionClosed, NoPrompt), Fresh))
            && (!StartsWith(low, "y") ==>
                  o.after == s.(state := s.state.(step := if s.state.cid.Some? then OkExist else OkNew)))
  {
  }

  /** Asking to exit and then declining returns to exactly the session before. */
  lemma DeclinedExitRestores(s: Snapshot, msg1: string, msg2: string, low2: string, db: Store, ask: Oracle)
    requires (s.state.step == OkExist && s.state.cid.Some?) || (s.state.step == OkNew && s.state.cid.None?)
    requires !StartsWith(low2, "y")
    ensures Handle(Handle(s, msg1, "exit", db, ask).after, msg2, low2, db, ask).after == s
  {
    var asked := Handle(s, msg1, "exit", db, ask).after;
    assert asked == s.(state := s.state.(step := ConfirmExit));
  }

  /** An unknown step, and every caught exception, leave `{step: start}` and no document. */
  lemma ResetsAreComplete(s: Snapshot, msg: string, low: string, db: Store, ask: Oracle)
    ensures s.state.step.Unknown? ==> Handle(s, msg, low, db, ask) == Outcome(Reply(StartOver, NoPrompt), Fresh)
    ensures Handle(s, msg, low, db, ask).reply.msg == InternalError ==> Handle(s, msg, low, db, ask).after == Fresh
    ensures var o := Handle(s, msg, low, db, ask);
            o.after.pdfText == s.pdfText || o.after == Fresh
  {
    match s.state.step
    case OkExist => ServeResetsCompletely(s, msg, low, db, ask);
    case OkNew => ServeResetsCompletely(s, msg, low, db, ask);
    case Start =>
    case Type =>
    case NewName =>
    case NewPhone =>
    case NewEmail =>
    case Phone =>
    case Zip =>
    case ConfirmExit =>
    case Unknown(_) =>
  }

  lemma ServeResetsCompletely(s: Snapshot, msg: string, low: string, db: Store, ask: Oracle)
    requires s.state.step == OkExist || s.state.step == OkNew
    ensures var o := Serve(s, msg, low, db, ask);
            o.reply.msg in {InternalError, Goodbye} ==> o.after == Fresh
    ensures var o := Serve(s, msg, low, db, ask);
            o.after.pdfText == s.pdfText || o.after == Fresh
    ensures var o := Serve(s, msg, low, db, ask);
            o.reply.msg !in {InternalError, Goodbye} ==> o.after.pdfText == s.pdfText
  {
  }

  // ---------------------------------------------------------------- properties of whole sessions

  lemma HandleKeepsValid(s: Snapshot, msg: string, low: string, db: Store, ask: Oracle)
    requires Valid(s, db)
    ensures Valid(Handle(s, msg, low, db, ask).after, db)
  {
    match s.state.step
    case OkExist => ServeKeepsValid(s, msg, low, db, ask);
    case OkNew => ServeKeepsValid(s, msg, low, db, ask);
    case Start =>
    case Type =>
    case NewName =>
    case NewPhone =>
    case NewEmail =>
    case Phone =>
    case Zip =>
    case ConfirmExit =>
    case Unknown(_) =>
  }

  lemma ServeKeepsValid(s: Snapshot, msg: string, low: string, db: Store, ask: Oracle)
    requires Valid(s, db) && (s.state.step == OkExist || s.state.step == OkNew)
    ensures Valid(Serve(s, msg, low, db, ask).after, db)
    ensures Serve(s, msg, low, db, ask).reply.msg == InternalError ==>
              HasText(s.pdfText) && ask(msg, s.pdfText.value).Failed?
  {
  }

  lemma ApplyKeepsValid(s: Snapshot, e: Event, db: Store, files: Files, ask: Oracle)
    requires Valid(s, db)
    ensures Valid(Apply(s, e, db, files, ask), db)
  {
    match e
    case Said(u) => HandleKeepsValid(s, Strip(u), Lower(Strip(u)), db, ask);
    case Changed(p) => AttachContract(s.pdfText, p, files);
  }

  /** Whatever the events, a `Valid` session (`Fresh` is one) stays `Valid`. */
  lemma {:induction false} RunKeepsValid(s: Snapshot, events: seq<Event>, db: Store, files: Files, ask: Oracle)
    requires Valid(s, db)
    ensures Valid(Run(s, events, db, files, ask), db)
    decreases |events|
  {
    if events != [] {
      ApplyKeepsValid(s, events[0], db, files, ask);
      RunKeepsValid(Apply(s, events[0], db, files, ask), events[1..], db, files, ask);
    }
  }

  /**
   * In a `Valid` session the handler never resets on its own: the unknown-step
   * branch is unreachable and an exception comes only from the answer engine.
   */
  lemma OnlyTheEngineRaises(s: Snapshot, msg: string, low: string, db: Store, ask: Oracle)
    requires Valid(s, db)
    ensures Handle(s, msg, low, db, ask).reply.msg != StartOver
    ensures Handle(s, msg, low, db, ask).reply.msg == InternalError ==>
              s.state.step in {OkExist, OkNew} && HasText(s.pdfText) && ask(msg, s.pdfText.value).Failed?
  {
    if s.state.step in {OkExist, OkNew} {
      ServeKeepsValid(s, msg, low, db, ask);
    } else {
      DialogueStepsSucceed(s, msg, low, db, ask);
    }
  }

  lemma DialogueStepsSucceed(s: Snapshot, msg: string, low: string, db: Store, ask: Oracle)
    requires Valid(s, db) && s.state.step !in {OkExist, OkNew}
    ensures Handle(s, msg, low, db, ask).reply.msg !in {StartOver, InternalError}
  {
    match s.state.step
    case Start =>
    case Type =>
    case NewName =>
    case NewPhone =>
    case NewEmail =>
    case Phone =>
    case Zip =>
    case ConfirmExit =>
  }

  /** Upload events never change `state`, in any number and order. */
  lemma {:induction false} UploadsNeverTouchState(s: Snapshot, paths: seq<Option<string>>, db: Store, files: Files, ask: Oracle)
    ensures Run(s, seq(|paths|, i requires 0 <= i < |paths| => Changed(paths[i])), db, files, ask).state == s.state
    decreases |paths|
  {
    var events := seq(|paths|, i requires 0 <= i < |paths| => Changed(paths[i]));
    if paths != [] {
      assert events[1..] == seq(|paths[1..]|, i requires 0 <= i < |paths[1..]| => Changed(paths[1..][i]));
      UploadsNeverTouchState(Apply(s, events[0], db, files, ask), paths[1..], db, files, ask);
    }
  }

  // ---------------------------------------------------------------- the module globals

  class Session {
    var state: State
    var pdfText: Option<string>

    constructor ()
      ensures state == Only(Start) && pdfText == None
    {
      state := Only(Start);
      pdfText := None;
    }

    function Snap(): Snapshot
      reads this
    {
      Snapshot(state, pdfText)
    }

    /** The body of `except Exception`: clear the state and the document. */
    method Recover() returns (reply: Reply)
      modifies this
      ensures Snap() == Fresh && reply == Reply(InternalError, NoPrompt)
    {
      state := Only(Start);
      pdfText := None;
      reply := Reply(InternalError, NoPrompt);
    }

    /** `chat(user, hist)` */
    method Chat(user: string, db: Store, ask: Oracle) returns (reply: Reply)
      modifies this
      ensures Outcome(reply, Snap()) == Turn(old(Snap()), user, db, ask)
    {
      var msg := Strip(user);
      var low := Lower(msg);
      var step := state.step;
      ghost var s0 := Snap();
      assert Turn(s0, user, db, ask) == Handle(s0, msg, low, db, ask);

      if step == Start {
        state := state.(step := Type);
        return Reply(Welcome, NoPrompt);
      }

      if step == Type {
        if LooksLikeExisting(low) {
          state := state.(step := Phone);
          return Reply(AskPhone, NoPrompt);
        }
        if LooksLikeNew(low) {
          state := state.(step := NewName);
          return Reply(AskName, NoPrompt);
        }
        return Reply(ChooseType, NoPrompt);
      }

      if step == NewName {
        state := state.(prospectName := Some(Title(msg)));
        state := state.(step := NewPhone);
        return Reply(AskContactPhone, NoPrompt);
      }

      if step == NewPhone {
        state := state.(prospectPhone := Some(msg));
        state := state.(step := NewEmail);
        return Reply(AskEmail, NoPrompt);
      }

      if step == NewEmail {
        if state.prospectName.None? {      // `state.pop("prospect_name")` raises KeyError
          reply := Recover();
          return;
        }
        var name := state.prospectName.value;
        state := Only(OkNew);
        return Reply(LeadThanks(name), Again);
      }

      if step == Phone {
        var row := FindByPhone(db, msg);
        if row.None? {
          return Reply(PhoneNotFound, NoPrompt);
        }
        state := state.(cid := Some(row.value.id), first := Some(row.value.first),
                        last := Some(row.value.last), step := Zip);
        return Reply(AskZip, NoPrompt);
      }

      if step == Zip {
        if state.cid.None? || state.cid.value !in db.customers {   // KeyError / no row
          reply := Recover();
          return;
        }
        var realZip := db.customers[state.cid.value].zip;
        if msg != realZip {
          return Reply(ZipMismatch, NoPrompt);
        }
        state := state.(step := OkExist);
        if state.first.None? {             // `state['fn']` raises KeyError
          reply := Recover();
          return;
        }
        return Reply(WelcomeBack(state.first.value), Again);
      }

      if step == OkExist || step == OkNew {
        reply := MainActions(msg, low, db, ask);
        return;
      }

      if step == ConfirmExit {
        if StartsWith(low, "y") {
          state := Only(Start);
          pdfText := None;
          return Reply(SessionClosed, NoPrompt);
        }
        state := state.(step := if state.cid.Some? then OkExist else OkNew);
        return Reply(StillConnected, Again);
      }

      state := Only(Start);
      pdfText := None;
      return Reply(StartOver, NoPrompt);
    }

    /** The main-actions block of `chat`, in `ok_exist` and `ok_new`. */
    method MainActions(msg: string, low: string, db: Store, ask: Oracle) returns (reply: Reply)
      requires state.step == OkExist || state.step == OkNew
      modifies this
      ensures Outcome(reply, Snap()) == Serve(old(Snap()), msg, low, db, ask)
    {
      if low in {"exit", "quit", "leave"} {
        state := state.(step := ConfirmExit);
        return Reply(ConfirmExitPrompt, NoPrompt);
      }
      if low in {"bye", "thanks", "thank you"} {
        state := Only(Start);
        pdfText := None;
        return Reply(Goodbye, NoPrompt);
      }
      if low == "upload" {
        return Reply(UploadHint, NoPrompt);
      }
      if state.step == OkExist {
        if Contains(low, "balance") {
          if state.cid.None? || state.cid.value !in db.customers {
            reply := Recover();
            return;
          }
          var bal := db.customers[state.cid.value].balance;
          return Reply(Balance(bal), Again);
        }
        if Contains(low, "transaction") || Contains(low, "recent") {
          if state.cid.None? {
            reply := Recover();
            return;
          }
          var rows := RecentTransactions(db, state.cid.value);
          if rows == [] {
            return Reply(NoTransactions, Again);
          }
          return Reply(Transactions(rows), Again);
        }
      }
      if Contains(low, "saving") {
        return Reply(SavingsOffer, Again);
      }
      if low == "yes" {
        return Reply(SavingsLink, Again);
      }
      if HasText(pdfText) {
        var answer := ask(msg, pdfText.value);
        if answer.Failed? {
          reply := Recover();
          return;
        }
        return Reply(DocumentAnswer(answer.text), Again);
      }
      return Reply(Blank, Again);
    }

    /** `upload(path)`: writes `pdf_text` only. */
    method Upload(path: Option<string>, files: Files) returns (status: Status)
      modifies this`pdfText
      ensures UploadOutcome(status, pdfText) == Attach(old(pdfText), path, files)
    {
      if path.None? || path.value == "" {
        pdfText := None;
        return Silent;
      }
      if path.value !in files {
        return Raised;
      }
      var text := Extract(files[path.value]);
      pdfText := Some(text);
      return Uploaded(path.value);
    }
  }
}
