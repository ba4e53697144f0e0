/**
 * Phase6.py: existing customers only. "new" ends the conversation with a thank
 * you and no capture; a verified customer reaches the single served state `ok`,
 * where every farewell word asks for confirmation and a declined confirmation
 * returns to `ok`. The document slot and `upload` are those of FinalPhase.py.
 */
module Phase6 {
  import opened Text
  import opened Backends
  import opened Replies
  import Dialogue

  // ---------------------------------------------------------------- session state

  datatype Step =
    | Start | Type | Phone | Zip | Ok | ConfirmExit
    | Unknown(name: string)   // any other value of the `step` key

  /** The `state` dict: `step` and the keys written at phone verification. */
  datatype State = State(step: Step, cid: Option<CustomerId>, first: Option<string>, last: Option<string>)

  /** `state.clear(); state["step"] = step` */
  function Only(step: Step): State
  {
    State(step, None, None, None)
  }

  /** Both globals: `state` and `pdf_text`. */
  datatype Snapshot = Snapshot(state: State, pdfText: Option<string>)

  const Fresh := Snapshot(Only(Start), None)

  datatype Outcome = Outcome(reply: Reply, after: Snapshot)

  /** The `except Exception` branch. */
  function Raise(): Outcome
  {
    Outcome(Reply(InternalError, NoPrompt), Fresh)
  }

  const EXIT_WORDS: set<string> := {"bye", "exit", "close", "thanks", "thank you"}

  // ---------------------------------------------------------------- the handler

  /** One call of `chat(user, hist)`. */
  function Turn(s: Snapshot, user: string, db: Store, ask: Oracle): Outcome
  {
    Handle(s, Strip(user), Lower(Strip(user)), db, ask)
  }

  /** The dispatch on `state["step"]`, given the stripped utterance and its lower-case form. */
  function Handle(s: Snapshot, msg: string, low: string, db: Store, ask: Oracle): Outcome
  {
    var st := s.state;
    match st.step
    case Start =>
      Outcome(Reply(Welcome, NoPrompt), s.(state := st.(step := Type)))
    case Type =>
      if Contains(low, "existing") then Outcome(Reply(AskPhone, NoPrompt), s.(state := st.(step := Phone)))
      else if Contains(low, "new") then Outcome(Reply(InterestThanks, NoPrompt), s.(state := st.(step := Start)))
      else Outcome(Reply(ChooseType, NoPrompt), s)
    case Phone =>
      var row := FindByPhone(db, msg);
      if row.None? then Outcome(Reply(PhoneNotFound, NoPrompt), s)
      else Outcome(Reply(AskZip, NoPrompt),
                   s.(state := st.(cid := Some(row.value.id), first := Some(row.value.first),
                                   last := Some(row.value.last), step := Zip)))
    case Zip =>
      if st.cid.None? || st.cid.value !in db.customers then Raise()
      else if msg != db.customers[st.cid.value].zip then Outcome(Reply(ZipMismatch, NoPrompt), s)
      else if st.first.None? then Raise()
      else Outcome(Reply(WelcomeBack(st.first.value), Again), s.(state := st.(step := Ok)))
    case Ok => Serve(s, msg, low, db, ask)
    case ConfirmExit =>
      if StartsWith(low, "y") then Outcome(Reply(SessionClosed, NoPrompt), Fresh)
      else Outcome(Reply(StillConnected, Again), s.(state := st.(step := Ok)))
    case Unknown(_) =>
      Outcome(Reply(StartOver, NoPrompt), Fresh)
  }

  /** The main-actions block of the `ok` state. */
  function Serve(s: Snapshot, msg: string, low: string, db: Store, ask: Oracle): Outcome
    requires s.state.step == Ok
  {
    var st := s.state;
    if low in EXIT_WORDS then
      Outcome(Reply(ConfirmExitPrompt, NoPrompt), s.(state := st.(step := ConfirmExit)))
    else if low == "upload" then
      Outcome(Reply(UploadHint, NoPrompt), s)
    else if Contains(low, "balance") then
      if st.cid.None? || st.cid.value !in db.customers then Raise()
      else Outcome(Reply(Balance(db.customers[st.cid.value].balance), Again), s)
    else if Contains(low, "transaction") || Contains(low, "recent") then
      if st.cid.None? then Raise()
      else
        var rows := RecentTransactions(db, st.cid.value);
        Outcome(Reply(if rows == [] then NoTransactions else Transactions(rows), Again), s)
    else if Contains(low, "saving") then
      Outcome(Reply(SavingsOffer, Again), s)
    else if low == "yes" then
      Outcome(Reply(SavingsLink, Again), s)
    else if Dialogue.HasText(s.pdfText) then
      var answer := ask(msg, s.pdfText.value);
      if answer.Failed? then Raise()
      else Outcome(Reply(DocumentAnswer(answer.text), Again), s)
    else
      Outcome(Reply(Blank, Again), s)
  }

  // ---------------------------------------------------------------- sessions over time

  function Apply(s: Snapshot, e: Dialogue.Event, db: Store, files: Files, ask: Oracle): Snapshot
  {
    match e
    case Said(u) => Turn(s, u, db, ask).after
    case Changed(p) => s.(pdfText := Dialogue.Attach(s.pdfText, p, files).pdfText)
  }

  function Run(s: Snapshot, events: seq<Dialogue.Event>, db: Store, files: Files, ask: Oracle): Snapshot
    decreases |events|
  {
    if events == [] then s else Run(Apply(s, events[0], db, files, ask), events[1..], db, files, ask)
  }

  /**
   * The sessions the handler produces: a known step, a customer id (with its
   * row) in every state past phone verification, a first name at `zip`, and a
   * document within `MAX_CHARS`.
   */
  predicate Valid(s: Snapshot, db: Store)
  {
    var st := s.state;
    && !st.step.Unknown?
    && (st.step == Zip ==> st.cid.Some? && st.first.Some?)
    && (st.step in {Ok, ConfirmExit} ==> st.cid.Some?)
    && (st.cid.Some? ==> st.cid.value in db.customers)
    && (s.pdfText.Some? ==> |s.pdfText.value| <= MAX_CHARS)
  }

  // ---------------------------------------------------------------- properties of one turn

  /** From `start`, any utterance moves to `type`. */
  lemma StartAlwaysAdvances(s: Snapshot, msg: string, low: string, db: Store, ask: Oracle)
    requires s.state.step == Start
    ensures Handle(s, msg, low, db, ask) == Outcome(Reply(Welcome, NoPrompt), s.(state := s.state.(step := Type)))
  {
  }

  /**
   * In `type`, "existing" leads to phone verification; otherwise "new" thanks
   * the user and returns to `start` without capturing anything; otherwise the
   * session is unchanged.
   */
  lemma NewUserIsNotCaptured(s: Snapshot, msg: string, low: string, db: Store, ask: Oracle)
    requires s.state.step == Type
    ensures var o := Handle(s, msg, low, db, ask);
            && (Contains(low, "existing") ==> o.after == s.(state := s.state.(step := Phone)))
            && (!Contains(low, "existing") && Contains(low, "new") ==>
                  o == Outcome(Reply(InterestThanks, NoPrompt), s.(state := s.state.(step := Start))))
            && (!Contains(low, "existing") && !Contains(low, "new") ==> o == Outcome(Reply(ChooseType, NoPrompt), s))
  {
  }

  /** Only a ZIP that matches the record moves to `ok`; a wrong one changes nothing. */
  lemma OnlyZipMatchEntersOk(s: Snapshot, msg: string, low: string, db: Store, ask: Oracle)
    requires Valid(s, db) && s.state.step != Ok && s.state.step != ConfirmExit
    ensures var o := Handle(s, msg, low, db, ask);
            o.after.state.step == Ok ==>
              s.state.step == Zip && msg == db.customers[s.state.cid.value].zip &&
              o.after == s.(state := s.state.(step := Ok))
    ensures s.state.step == Zip && msg != db.customers[s.state.cid.value].zip ==>
              Handle(s, msg, low, db, ask) == Outcome(Reply(ZipMismatch, NoPrompt), s)
  {
    match s.state.step
    case Start =>
    case Type =>
    case Phone =>
    case Zip =>
  }

  /**
   * In `ok` the branches are tried in a fixed order and the first that matches
   * decides: farewell, `upload`, balance, transactions, savings, `yes`, document,
   * fallback. Balance and transactions report the verified customer's data.
   */
  lemma ServeOrder(s: Snapshot, msg: string, low: string, db: Store, ask: Oracle)
    requires Valid(s, db) && s.state.step == Ok
    ensures var o := Handle(s, msg, low, db, ask);
            var id := s.state.cid.value;
            var rows := RecentTransactions(db, id);
            && (low in EXIT_WORDS ==>
                  o == Outcome(Reply(ConfirmExitPrompt, NoPrompt), s.(state := s.state.(step := ConfirmExit))))
            && (low !in EXIT_WORDS && low == "upload" ==> o == Outcome(Reply(UploadHint, NoPrompt), s))
            && (low !in EXIT_WORDS && low != "upload" && Contains(low, "balance") ==>
                  o == Outcome(Reply(Balance(db.customers[id].balance), Again), s))
            && (low !in EXIT_WORDS && low != "upload" && !Contains(low, "balance") &&
                (Contains(low, "transaction") || Contains(low, "recent")) ==>
                  o == Outcome(Reply(if rows == [] then NoTransactions else Transactions(rows), Again), s))
            && (low !in EXIT_WORDS && low != "upload" && !Contains(low, "balance") &&
                !Contains(low, "transaction") && !Contains(low, "recent") ==>
                  && (Contains(low, "saving") ==> o == Outcome(Reply(SavingsOffer, Again), s))
                  && (!Contains(low, "saving") && low == "yes" ==> o == Outcome(Reply(SavingsLink, Again), s))
                  && (!Contains(low, "saving") && low != "yes" && !Dialogue.HasText(s.pdfText) ==>
                        o == Outcome(Reply(Blank, Again), s))
                  && (!Contains(low, "saving") && low != "yes" && Dialogue.HasText(s.pdfText) ==>
                        (ask(msg, s.pdfText.value).Failed? ==> o == Raise()) &&
                        (ask(msg, s.pdfText.value).Answered? ==>
                           o == Outcome(Reply(DocumentAnswer(ask(msg, s.pdfText.value).text), Again), s))))
  {
  }

  /** In `confirm_exit` a `y` reply clears everything; any other reply returns to exactly `ok`. */
  lemma ConfirmExitResolves(s: Snapshot, msg: string, low: string, db: Store, ask: Oracle)
    requires s.state.step == ConfirmExit
    ensures var o := Handle(s, msg, low, db, ask);
            && (StartsWith(low, "y") ==> o == Outcome(Reply(SessionClosed, NoPrompt), Fresh))
            && (!StartsWith(low, "y") ==> o == Outcome(Reply(StillConnected, Again), s.(state := s.state.(step := Ok))))
  {
  }

  /** A farewell word followed by a declining reply returns to exactly the session before. */
  lemma DeclinedExitRestores(s: Snapshot, msg1: string, low1: string, msg2: string, low2: string,
                             db: Store, ask: Oracle)
    requires s.state.step == Ok && low1 in EXIT_WORDS && !StartsWith(low2, "y")
    ensures Handle(Handle(s, msg1, low1, db, ask).after, msg2, low2, db, ask).after == s
  {
    var asked := Handle(s, msg1, low1, db, ask).after;
    assert asked == s.(state := s.state.(step := ConfirmExit));
  }

  /** An unknown step, and every caught exception, leave `{step: start}` and no document. */
  lemma ResetsAreComplete(s: Snapshot, msg: string, low: string, db: Store, ask: Oracle)
    ensures s.state.step.Unknown? ==> Handle(s, msg, low, db, ask) == Outcome(Reply(StartOver, NoPrompt), Fresh)
    ensures var o := Handle(s, msg, low, db, ask);
            (o.reply.msg == InternalError ==> o.after == Fresh) &&
            (o.after.pdfText == s.pdfText || o.after == Fresh)
  {
    match s.state.step
    case Ok => ServeResetsCompletely(s, msg, low, db, ask);
    case Start =>
    case Type =>
    case Phone =>
    case Zip =>
    case ConfirmExit =>
    case Unknown(_) =>
  }

  lemma ServeResetsCompletely(s: Snapshot, msg: string, low: string, db: Store, ask: Oracle)
    requires s.state.step == Ok
    ensures var o := Serve(s, msg, low, db, ask);
            (o.reply.msg == InternalError ==> o.after == Fresh) &&
            (o.after.pdfText == s.pdfText || o.after == Fresh)
    ensures var o := Serve(s, msg, low, db, ask);
            o.after == Fresh ==> o.reply.msg == InternalError
  {
  }

  // ---------------------------------------------------------------- properties of whole sessions

  /**
   * A `Valid` session stays `Valid`, and in it the handler never resets on its
   * own: only a failing answer engine raises.
   */
  lemma HandleKeepsValid(s: Snapshot, msg: string, low: string, db: Store, ask: Oracle)
    requires Valid(s, db)
    ensures Valid(Handle(s, msg, low, db, ask).after, db)
    ensures Handle(s, msg, low, db, ask).reply.msg != StartOver
    ensures Handle(s, msg, low, db, ask).reply.msg == InternalError ==>
              s.state.step == Ok && Dialogue.HasText(s.pdfText) && ask(msg, s.pdfText.value).Failed?
  {
    match s.state.step
    case Ok => ServeKeepsValid(s, msg, low, db, ask);
    case Start =>
    case Type =>
    case Phone =>
    case Zip =>
    case ConfirmExit =>
  }

  lemma ServeKeepsValid(s: Snapshot, msg: string, low: string, db: Store, ask: Oracle)
    requires Valid(s, db) && s.state.step == Ok
    ensures Valid(Serve(s, msg, low, db, ask).after, db)
    ensures Serve(s, msg, low, db, ask).reply.msg == InternalError ==>
              Dialogue.HasText(s.pdfText) && ask(msg, s.pdfText.value).Failed?
  {
  }

  lemma ApplyKeepsValid(s: Snapshot, e: Dialogue.Event, db: Store, files: Files, ask: Oracle)
    requires Valid(s, db)
    ensures Valid(Apply(s, e, db, files, ask), db)
  {
    match e
    case Said(u) => HandleKeepsValid(s, Strip(u), Lower(Strip(u)), db, ask);
    case Changed(p) => Dialogue.AttachContract(s.pdfText, p, files);
  }

  /**
   * Whatever the events, a `Valid` session (`Fresh` is one) stays `Valid`, so it
   * holds an existing customer id whenever its step is `ok`.
   */
  lemma {:induction false} RunKeepsValid(s: Snapshot, events: seq<Dialogue.Event>, db: Store, files: Files, ask: Oracle)
    requires Valid(s, db)
    ensures Valid(Run(s, events, db, files, ask), db)
    decreases |events|
  {
    if events != [] {
      ApplyKeepsValid(s, events[0], db, files, ask);
      RunKeepsValid(Apply(s, events[0], db, files, ask), events[1..], db, files, ask);
    }
  }

  // ---------------------------------------------------------------- the module globals

  class Session {
    var state: State
    var pdfText: Option<string>

    constructor ()
      ensures state == Only(Start) && pdfText == None
    {
      state := Only(Start);
      pdfText := None;
    }

    function Snap(): Snapshot
      reads this
    {
      Snapshot(state, pdfText)
    }

    /** The body of `except Exception`. */
    method Recover() returns (reply: Reply)
      modifies this
      ensures Snap() == Fresh && reply == Reply(InternalError, NoPrompt)
    {
      state := Only(Start);
      pdfText := None;
      reply := Reply(InternalError, NoPrompt);
    }

    /** `chat(user, hist)` */
    method Chat(user: string, db: Store, ask: Oracle) returns (reply: Reply)
      modifies this
      ensures Outcome(reply, Snap()) == Turn(old(Snap()), user, db, ask)
    {
      var msg := Strip(user);
      var low := Lower(msg);
      var step := state.step;
      ghost var s0 := Snap();
      assert Turn(s0, user, db, ask) == Handle(s0, msg, low, db, ask);

      if step == Start {
        state := state.(step := Type);
        return Reply(Welcome, NoPrompt);
      }

      if step == Type {
        if Contains(low, "existing") {
          state := state.(step := Phone);
          return Reply(AskPhone, NoPrompt);
        }
        if Contains(low, "new") {
          state := state.(step := Start);
          return Reply(InterestThanks, NoPrompt);
        }
        return Reply(ChooseType, NoPrompt);
      }

      if step == Phone {
        var row := FindByPhone(db, msg);
        if row.None? {
          return Reply(PhoneNotFound, NoPrompt);
        }
        state := state.(cid := Some(row.value.id), first := Some(row.value.first),
                        last := Some(row.value.last), step := Zip);
        return Reply(AskZip, NoPrompt);
      }

      if step == Zip {
        if state.cid.None? || state.cid.value !in db.customers {   // KeyError / no row
          reply := Recover();
          return;
        }
        var trueZip := db.customers[state.cid.value].zip;
        if msg != trueZip {
          return Reply(ZipMismatch, NoPrompt);
        }
        state := state.(step := Ok);
        if state.first.None? {             // `state['fn']` raises KeyError
          reply := Recover();
          return;
        }
        return Reply(WelcomeBack(state.first.value), Again);
      }

      if step == Ok {
        reply := MainActions(msg, low, db, ask);
        return;
      }

      if step == ConfirmExit {
        if StartsWith(low, "y") {
          state := Only(Start);
          pdfText := None;
          return Reply(SessionClosed, NoPrompt);
        }
        state := state.(step := Ok);
        return Reply(StillConnected, Again);
      }

      state := Only(Start);
      pdfText := None;
      return Reply(StartOver, NoPrompt);
    }

    /** The main-actions block of `chat`. */
    method MainActions(msg: string, low: string, db: Store, ask: Oracle) returns (reply: Reply)
      requires state.step == Ok
      modifies this
      ensures Outcome(reply, Snap()) == Serve(old(Snap()), msg, low, db, ask)
    {
      if low in EXIT_WORDS {
        state := state.(step := ConfirmExit);
        return Reply(ConfirmExitPrompt, NoPrompt);
      }
      if low == "upload" {
        return Reply(UploadHint, NoPrompt);
      }
      if Contains(low, "balance") {
        if state.cid.None? || state.cid.value !in db.customers {
          reply := Recover();
          return;
        }
        var bal := db.customers[state.cid.value].balance;
        return Reply(Balance(bal), Again);
      }
      if Contains(low, "transaction") || Contains(low, "recent") {
        if state.cid.None? {
          reply := Recover();
          return;
        }
        var tx := RecentTransactions(db, state.cid.value);
        if tx == [] {
          return Reply(NoTransactions, Again);
        }
        return Reply(Transactions(tx), Again);
      }
      if Contains(low, "saving") {
        return Reply(SavingsOffer, Again);
      }
      if low == "yes" {
        return Reply(SavingsLink, Again);
      }
      if pdfText.Some? && pdfText.value != "" {
        var ans := ask(msg, pdfText.value);
        if ans.Failed? {
          reply := Recover();
          return;
        }
        return Reply(DocumentAnswer(ans.text), Again);
      }
      return Reply(Blank, Again);
    }

    /** `upload(path)`: writes `pdf_text` only. */
    method Upload(path: Option<string>, files: Files) returns (status: Status)
      modifies this`pdfText
      ensures Dialogue.UploadOutcome(status, pdfText) == Dialogue.Attach(old(pdfText), path, files)
    {
      if path.None? || path.value == "" {
        pdfText := None;
        return Silent;
      }
      if path.value !in files {
        return Raised;
      }
      var text := Extract(files[path.value]);
      pdfText := Some(text);
      return Uploaded(path.value);
    }
  }
}
