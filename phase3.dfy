/**
 * Phase3.py: the first revision with a document. The handler only reads the
 * remembered file path: a verified customer's question goes to the answer engine
 * when the path ends in `.pdf` and the utterance holds a question keyword, and
 * no reset forgets the path.
 */
module Phase3 {
  import opened Text
  import opened Backends
  import opened Replies
  import Dialogue

  // ---------------------------------------------------------------- session state

  datatype Step =
    | Start | AwaitType | NewName | NewEmail | AwaitPhone | AwaitZip | Verified
    | Unknown(name: string)   // any other value of the `step` key

  /** The `user_state` dict. */
  datatype State = State(
    step: Step,
    newName: Option<string>,
    customerId: Option<CustomerId>,
    first: Option<string>,
    last: Option<string>)

  /** `user_state.clear(); user_state["step"] = step` */
  function Only(step: Step): State
  {
    State(step, None, None, None, None)
  }

  /** Both globals: `user_state` and `uploaded_file_path`. */
  datatype Snapshot = Snapshot(state: State, path: Option<string>)

  datatype Outcome = Outcome(reply: Reply, after: Snapshot)

  const QUESTION_WORDS := ["what", "how much", "profit", "revenue", "summary", "explain", "detail"]
  const EXIT_WORDS := ["bye", "thank", "thanks", "exit", "close"]
  const YES_WORDS: set<string> := {"yes", "yes please", "yes, please", "yep"}

  /** The `except Exception` branch: `user_state` is reset; the handler never writes the path. */
  function Raise(s: Snapshot): Outcome
  {
    Outcome(Reply(InternalError, NoPrompt), s.(state := Only(Start)))
  }

  /** `uploaded_file_path and uploaded_file_path.lower().endswith(".pdf")` */
  predicate HoldsPdf(path: Option<string>)
  {
    path.Some? && path.value != "" && EndsWith(Lower(path.value), ".pdf")
  }

  // ---------------------------------------------------------------- the handler

  /** One call of `bot(user_msg, history)`. */
  function Turn(s: Snapshot, user: string, db: Store, docs: Files, ask: Oracle): Outcome
  {
    Handle(s, Strip(user), Lower(Strip(user)), db, docs, ask)
  }

  /** The dispatch on `user_state["step"]`, given the stripped utterance and its lower-case form. */
  function Handle(s: Snapshot, msg: string, lower: string, db: Store, docs: Files, ask: Oracle): Outcome
  {
    var st := s.state;
    match st.step
    case Start =>
      Outcome(Reply(Welcome, NoPrompt), s.(state := st.(step := AwaitType)))
    case AwaitType =>
      if Contains(lower, "existing") then Outcome(Reply(AskPhone, NoPrompt), s.(state := st.(step := AwaitPhone)))
      else if Contains(lower, "new") then Outcome(Reply(AskName, NoPrompt), s.(state := st.(step := NewName)))
      else Outcome(Reply(ChooseType, NoPrompt), s)
    case NewName =>
      Outcome(Reply(AskEmail, NoPrompt), s.(state := st.(newName := Some(msg), step := NewEmail)))
    case NewEmail =>
      var name := if st.newName.Some? then st.newName.value else "";
      Outcome(Reply(LeadThanks(name), NoPrompt), s.(state := Only(Start)))
    case AwaitPhone =>
      var row := FindByPhone(db, msg);
      if row.Some? then
        Outcome(Reply(AskZip, NoPrompt),
                s.(state := st.(customerId := Some(row.value.id), first := Some(row.value.first),
                                last := Some(row.value.last), step := AwaitZip)))
      else Outcome(Reply(PhoneNotFound, NoPrompt), s)
    case AwaitZip =>
      if st.customerId.None? || st.customerId.value !in db.customers then Raise(s)
      else if msg == db.customers[st.customerId.value].zip then
        if st.first.None? || st.last.None? then Raise(s)
        else Outcome(Reply(WelcomeBackFull(st.first.value, st.last.value), NoPrompt),
                     s.(state := st.(step := Verified)))
      else Outcome(Reply(ZipMismatch, NoPrompt), s)
    case Verified =>
      if st.customerId.None? then Raise(s)
      else Serve(s, msg, lower, st.customerId.value, db, docs, ask)
    case Unknown(_) =>
      Outcome(Reply(StartOver, NoPrompt), s.(state := Only(Start)))
  }

  /** The `verified` block, once `cid` has been read. */
  function Serve(s: Snapshot, msg: string, lower: string, cid: CustomerId, db: Store, docs: Files, ask: Oracle): Outcome
  {
    if Contains(lower, "balance") then
      if cid !in db.customers then Raise(s)
      else Outcome(Reply(Balance(db.customers[cid].balance), NoPrompt), s)
    else if Contains(lower, "transaction") || Contains(lower, "recent") then
      var rows := RecentTransactions(db, cid);
      Outcome(Reply(if rows == [] then NoTransactions else Transactions(rows), NoPrompt), s)
    else if Contains(lower, "saving") then
      Outcome(Reply(SavingsOffer, NoPrompt), s)
    else if lower in YES_WORDS then
      Outcome(Reply(SavingsLink, NoPrompt), s)
    else if HoldsPdf(s.path) && ContainsAny(lower, QUESTION_WORDS) then
      if s.path.value !in docs then Raise(s)
      else
        var answer := ask(msg, ExtractedText(docs[s.path.value]));
        if answer.Failed? then Raise(s)
        else Outcome(Reply(DocumentAnswer(answer.text), NoPrompt), s)
    else if ContainsAny(lower, EXIT_WORDS) then
      Outcome(Reply(Goodbye, NoPrompt), s.(state := Only(Start)))
    else
      Outcome(Reply(HelpTopics, NoPrompt), s)
  }

  // ---------------------------------------------------------------- sessions over time

  /** `handle_upload(file)` overwrites the path with whatever it is given. */
  function Apply(s: Snapshot, e: Dialogue.Event, db: Store, docs: Files, ask: Oracle): Snapshot
  {
    match e
    case Said(u) => Turn(s, u, db, docs, ask).after
    case Changed(p) => s.(path := p)
  }

  function Run(s: Snapshot, events: seq<Dialogue.Event>, db: Store, docs: Files, ask: Oracle): Snapshot
    decreases |events|
  {
    if events == [] then s else Run(Apply(s, events[0], db, docs, ask), events[1..], db, docs, ask)
  }

  /** The sessions the handler produces: a known step, and the keys `await_zip` and `verified` read. */
  predicate Valid(s: Snapshot, db: Store)
  {
    var st := s.state;
    && !st.step.Unknown?
    && (st.step == AwaitZip ==> st.customerId.Some? && st.first.Some? && st.last.Some?)
    && (st.step == Verified ==> st.customerId.Some?)
    && (st.customerId.Some? ==> st.customerId.value in db.customers)
  }

  // ---------------------------------------------------------------- properties of one turn

  /** `new_email` thanks the user by the captured name and returns to `start` with the state cleared. */
  lemma NewUserFlow(s: Snapshot, name: string, low1: string, email: string, low2: string,
                    db: Store, docs: Files, ask: Oracle)
    requires s.state.step == NewName
    ensures var o1 := Handle(s, name, low1, db, docs, ask);
            var o2 := Handle(o1.after, email, low2, db, docs, ask);
            && o1.after.state == s.state.(newName := Some(name), step := NewEmail)
            && o2 == Outcome(Reply(LeadThanks(name), NoPrompt), Snapshot(Only(Start), s.path))
  {
  }

  /**
   * In `verified`, past the account, savings and yes tests, the engine is asked
   * exactly when the path ends in `.pdf` and a question keyword occurs; otherwise
   * control reaches the farewell test and the fallback.
   */
  lemma DocumentGate(s: Snapshot, msg: string, lower: string, db: Store, docs: Files, ask: Oracle)
    requires s.state.step == Verified && s.state.customerId.Some?
    requires !Contains(lower, "balance") && !Contains(lower, "transaction") && !Contains(lower, "recent")
    requires !Contains(lower, "saving") && lower !in YES_WORDS
    ensures var o := Handle(s, msg, lower, db, docs, ask);
            && (HoldsPdf(s.path) && ContainsAny(lower, QUESTION_WORDS) ==>
                  (s.path.value !in docs ==> o == Raise(s)) &&
                  (s.path.value in docs ==>
                     var answer := ask(msg, ExtractedText(docs[s.path.value]));
                     (answer.Failed? ==> o == Raise(s)) &&
                     (answer.Answered? ==> o == Outcome(Reply(DocumentAnswer(answer.text), NoPrompt), s))))
            && (!(HoldsPdf(s.path) && ContainsAny(lower, QUESTION_WORDS)) ==>
                  (ContainsAny(lower, EXIT_WORDS) ==> o == Outcome(Reply(Goodbye, NoPrompt), s.(state := Only(Start)))) &&
                  (!ContainsAny(lower, EXIT_WORDS) ==> o == Outcome(Reply(HelpTopics, NoPrompt), s)))
  {
  }

  /** "thanks" with a `.pdf` path: no question keyword, so the session ends; the path survives. */
  lemma ThanksEndsDespitePdf(s: Snapshot, msg: string, db: Store, docs: Files, ask: Oracle)
    requires s.state.step == Verified && s.state.customerId.Some? && HoldsPdf(s.path)
    ensures Handle(s, msg, "thanks", db, docs, ask) == Outcome(Reply(Goodbye, NoPrompt), Snapshot(Only(Start), s.path))
  {
    var lower := "thanks";
    assert OccursAt(lower, "thank", 0);
    assert Contains(lower, EXIT_WORDS[1]);
    FirstCharAbsent(lower, "balance");
    FirstCharAbsent(lower, "recent");
    FirstCharAbsent(lower, "saving");
    FirstCharAbsent(lower, "what");
    FirstCharAbsent(lower, "profit");
    FirstCharAbsent(lower, "detail");
    assert !ContainsAny(lower, QUESTION_WORDS);
  }

  /** No turn writes the path; every reset clears `user_state` only. */
  lemma TurnsKeepPath(s: Snapshot, msg: string, lower: string, db: Store, docs: Files, ask: Oracle)
    ensures Handle(s, msg, lower, db, docs, ask).after.path == s.path
    ensures var o := Handle(s, msg, lower, db, docs, ask);
            o.reply.msg in {Goodbye, StartOver, InternalError} ==> o.after.state == Only(Start)
    ensures s.state.step.Unknown? ==>
              Handle(s, msg, lower, db, docs, ask) == Outcome(Reply(StartOver, NoPrompt), s.(state := Only(Start)))
  {
    match s.state.step
    case Verified =>
    case Start =>
    case AwaitType =>
    case NewName =>
    case NewEmail =>
    case AwaitPhone =>
    case AwaitZip =>
    case Unknown(_) =>
  }

  /** `handle_upload` replaces the path whatever it is given, `None` included, and nothing else. */
  lemma UploadOverwrites(s: Snapshot, file: Option<string>, db: Store, docs: Files, ask: Oracle)
    ensures Apply(s, Dialogue.Changed(file), db, docs, ask) == Snapshot(s.state, file)
  {
  }

  // ---------------------------------------------------------------- properties of whole sessions

  /**
   * A `Valid` session stays `Valid`; in it the unknown-step branch is
   * unreachable and an exception comes only from the document question.
   */
  lemma HandleKeepsValid(s: Snapshot, msg: string, lower: string, db: Store, docs: Files, ask: Oracle)
    requires Valid(s, db)
    ensures Valid(Handle(s, msg, lower, db, docs, ask).after, db)
    ensures Handle(s, msg, lower, db, docs, ask).reply.msg != StartOver
    ensures Handle(s, msg, lower, db, docs, ask).reply.msg == InternalError ==>
              s.state.step == Verified && HoldsPdf(s.path) && ContainsAny(lower, QUESTION_WORDS)
  {
    match s.state.step
    case Verified =>
    case Start =>
    case AwaitType =>
    case NewName =>
    case NewEmail =>
    case AwaitPhone =>
    case AwaitZip =>
  }

  lemma ApplyKeepsValid(s: Snapshot, e: Dialogue.Event, db: Store, docs: Files, ask: Oracle)
    requires Valid(s, db)
    ensures Valid(Apply(s, e, db, docs, ask), db)
  {
    match e
    case Said(u) => HandleKeepsValid(s, Strip(u), Lower(Strip(u)), db, docs, ask);
    case Changed(p) =>
  }

  /** Whatever the events, a session from the initial one stays `Valid`. */
  lemma {:induction false} RunKeepsValid(s: Snapshot, events: seq<Dialogue.Event>, db: Store, docs: Files, ask: Oracle)
    requires Valid(s, db)
    ensures Valid(Run(s, events, db, docs, ask), db)
    decreases |events|
  {
    if events != [] {
      ApplyKeepsValid(s, events[0], db, docs, ask);
      RunKeepsValid(Apply(s, events[0], db, docs, ask), events[1..], db, docs, ask);
    }
  }

  // ---------------------------------------------------------------- the module globals

  class Session {
    var userState: State
    var uploadedFilePath: Option<string>

    constructor ()
      ensures userState == Only(Start) && uploadedFilePath == None
    {
      userState := Only(Start);
      uploadedFilePath := None;
    }

    function Snap(): Snapshot
      reads this
    {
      Snapshot(userState, uploadedFilePath)
    }

    /** The body of `except Exception`. */
    method Recover() returns (reply: Reply)
      modifies this`userState
      ensures userState == Only(Start) && reply == Reply(InternalError, NoPrompt)
    {
      userState := Only(Start);
      reply := Reply(InternalError, NoPrompt);
    }

    /** `bot(user_msg, history)`: writes `user_state` only. */
    method Bot(user: string, db: Store, docs: Files, ask: Oracle) returns (reply: Reply)
      modifies this`userState
      ensures Outcome(reply, Snap()) == Turn(old(Snap()), user, db, docs, ask)
    {
      var msg := Strip(user);
      var lower := Lower(msg);
      var step := userState.step;
      ghost var s0 := Snap();
      assert Turn(s0, user, db, docs, ask) == Handle(s0, msg, lower, db, docs, ask);

      if step == Start {
        userState := userState.(step := AwaitType);
        return Reply(Welcome, NoPrompt);
      }

      if step == AwaitType {
        if Contains(lower, "existing") {
          userState := userState.(step := AwaitPhone);
          return Reply(AskPhone, NoPrompt);
        }
        if Contains(lower, "new") {
          userState := userState.(step := NewName);
          return Reply(AskName, NoPrompt);
        }
        return Reply(ChooseType, NoPrompt);
      }

      if step == NewName {
        userState := userState.(newName := Some(msg));
        userState := userState.(step := NewEmail);
        return Reply(AskEmail, NoPrompt);
      }

      if step == NewEmail {
        var name := if userState.newName.Some? then userState.newName.value else "";
        userState := Only(Start);
        return Reply(LeadThanks(name), NoPrompt);
      }

      if step == AwaitPhone {
        var row := FindByPhone(db, msg);
        if row.Some? {
          userState := userState.(customerId := Some(row.value.id), first := Some(row.value.first),
                                  last := Some(row.value.last), step := AwaitZip);
          return Reply(AskZip, NoPrompt);
        }
        return Reply(PhoneNotFound, NoPrompt);
      }

      if step == AwaitZip {
        if userState.customerId.None? || userState.customerId.value !in db.customers {
          reply := Recover();
          return;
        }
        var zipCode := db.customers[userState.customerId.value].zip;
        if msg == zipCode {
          userState := userState.(step := Verified);
          if userState.first.None? || userState.last.None? {
            reply := Recover();
            return;
          }
          return Reply(WelcomeBackFull(userState.first.value, userState.last.value), NoPrompt);
        }
        return Reply(ZipMismatch, NoPrompt);
      }

      if step == Verified {
        if userState.customerId.None? {
          reply := Recover();
          return;
        }
        reply := MainActions(msg, lower, userState.customerId.value, db, docs, ask);
        return;
      }

      userState := Only(Start);
      return Reply(StartOver, NoPrompt);
    }

    /** The `verified` block once the customer id has been read. */
    method MainActions(msg: string, lower: string, cid: CustomerId, db: Store, docs: Files, ask: Oracle)
      returns (reply: Reply)
      modifies this`userState
      ensures Outcome(reply, Snap()) == Serve(old(Snap()), msg, lower, cid, db, docs, ask)
    {
      if Contains(lower, "balance") {
        if cid !in db.customers {
          reply := Recover();
          return;
        }
        return Reply(Balance(db.customers[cid].balance), NoPrompt);
      }
      if Contains(lower, "transaction") || Contains(lower, "recent") {
        var rows := RecentTransactions(db, cid);
        if rows == [] {
          return Reply(NoTransactions, NoPrompt);
        }
        return Reply(Transactions(rows), NoPrompt);
      }
      if Contains(lower, "saving") {
        return Reply(SavingsOffer, NoPrompt);
      }
      if lower in YES_WORDS {
        return Reply(SavingsLink, NoPrompt);
      }
      if HoldsPdf(uploadedFilePath) {
        if ContainsAny(lower, QUESTION_WORDS) {
          if uploadedFilePath.value !in docs {
            reply := Recover();
            return;
          }
          var ctx := Extract(docs[uploadedFilePath.value]);
          var answer := ask(msg, ctx);
          if answer.Failed? {
            reply := Recover();
            return;
          }
          return Reply(DocumentAnswer(answer.text), NoPrompt);
        }
      }
      if ContainsAny(lower, EXIT_WORDS) {
        userState := Only(Start);
        return Reply(Goodbye, NoPrompt);
      }
      return Reply(HelpTopics, NoPrompt);
    }

    /** `handle_upload(file)`: the path is overwritten unconditionally. */
    method HandleUpload(file: Option<string>)
      modifies this`uploadedFilePath
      ensures uploadedFilePath == file
    {
      uploadedFilePath := file;
    }
  }
}
