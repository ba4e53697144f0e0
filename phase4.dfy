/**
 * Phase4.py: the `verified`-state revision with one remembered file path. Once a
 * path ending in `.pdf` is held, every verified utterance that no account or
 * savings test catches goes to the answer engine. Every reset (farewell, unknown
 * step, exception) forgets the path as well as the state.
 */
module Phase4 {
  import opened Text
  import opened Backends
  import opened Replies
  import Dialogue

  // ---------------------------------------------------------------- session state

  datatype Step =
    | Start | AwaitType | NewName | NewEmail | AwaitPhone | AwaitZip | Verified
    | Unknown(name: string)   // any other value of the `step` key

  /** The `user_state` dict. */
  datatype State = State(
    step: Step,
    newName: Option<string>,
    customerId: Option<CustomerId>,
    first: Option<string>,
    last: Option<string>)

  /** `user_state.clear(); user_state["step"] = step` */
  function Only(step: Step): State
  {
    State(step, None, None, None, None)
  }

  /** Both globals: `user_state` and `uploaded_file_path`. */
  datatype Snapshot = Snapshot(state: State, path: Option<string>)

  const Fresh := Snapshot(Only(Start), None)

  datatype Outcome = Outcome(reply: Reply, after: Snapshot)

  const EXIT_WORDS := ["bye", "exit", "close", "thank"]
  const YES_WORDS: set<string> := {"yes", "yes please", "y", "yep"}

  /** The `except Exception` branch: the state and the path are both cleared. */
  function Raise(): Outcome
  {
    Outcome(Reply(InternalError, NoPrompt), Fresh)
  }

  /** Python truthiness of `uploaded_file_path`. */
  predicate HasPath(path: Option<string>)
  {
    path.Some? && path.value != ""
  }

  /** `uploaded_file_path and uploaded_file_path.lower().endswith(".pdf")` */
  predicate HoldsPdf(path: Option<string>)
  {
    HasPath(path) && EndsWith(Lower(path.value), ".pdf")
  }

  /** `SELECT 1 FROM customers WHERE id=? AND zip_code=?` finds a row. */
  predicate ZipMatches(db: Store, id: CustomerId, zip: string)
  {
    id in db.customers && db.customers[id].zip == zip
  }

  // ---------------------------------------------------------------- the handler

  /** One call of `bot(user_msg, history)`. */
  function Turn(s: Snapshot, user: string, db: Store, docs: Files, ask: Oracle): Outcome
  {
    Handle(s, Strip(user), Lower(Strip(user)), db, docs, ask)
  }

  /** The dispatch on `user_state["step"]`, given the stripped utterance and its lower-case form. */
  function Handle(s: Snapshot, msg: string, lower: string, db: Store, docs: Files, ask: Oracle): Outcome
  {
    var st := s.state;
    match st.step
    case Start =>
      Outcome(Reply(Welcome, NoPrompt), s.(state := st.(step := AwaitType)))
    case AwaitType =>
      if Contains(lower, "existing") then Outcome(Reply(AskPhone, NoPrompt), s.(state := st.(step := AwaitPhone)))
      else if Contains(lower, "new") then Outcome(Reply(AskName, NoPrompt), s.(state := st.(step := NewName)))
      else Outcome(Reply(ChooseType, NoPrompt), s)
    case NewName =>
      Outcome(Reply(AskEmail, NoPrompt), s.(state := st.(newName := Some(Title(msg)), step := NewEmail)))
    case NewEmail =>
      var name := if st.newName.Some? then st.newName.value else "";
      Outcome(Reply(LeadThanks(name), NoPrompt), s.(state := Only(Start)))
    case AwaitPhone =>
      var row := FindByPhone(db, msg);
      if row.Some? then
        Outcome(Reply(AskZip, NoPrompt),
                s.(state := st.(customerId := Some(row.value.id), first := Some(row.value.first),
                                last := Some(row.value.last), step := AwaitZip)))
      else Outcome(Reply(PhoneNotFound, NoPrompt), s)
    case AwaitZip =>
      if st.customerId.None? then Raise()
      else if ZipMatches(db, st.customerId.value, msg) then
        if st.first.None? || st.last.None? then Raise()
        else Outcome(Reply(WelcomeBackFull(st.first.value, st.last.value), NoPrompt),
                     s.(state := st.(step := Verified)))
      else Outcome(Reply(ZipMismatch, NoPrompt), s)
    case Verified =>
      if st.customerId.None? then Raise()
      else Serve(s, msg, lower, st.customerId.value, db, docs, ask)
    case Unknown(_) =>
      Outcome(Reply(StartOver, NoPrompt), Fresh)
  }

  /** The `verified` block, once `cid` has been read. */
  function Serve(s: Snapshot, msg: string, lower: string, cid: CustomerId, db: Store, docs: Files, ask: Oracle): Outcome
  {
    if Contains(lower, "balance") then
      if cid !in db.customers then Raise()
      else Outcome(Reply(Balance(db.customers[cid].balance), NoPrompt), s)
    else if Contains(lower, "transaction") || Contains(lower, "recent") then
      var rows := RecentTransactions(db, cid);
      Outcome(Reply(if rows == [] then NoTransactions else Transactions(rows), NoPrompt), s)
    else if Contains(lower, "saving") then
      Outcome(Reply(SavingsOffer, NoPrompt), s)
    else if lower in YES_WORDS then
      Outcome(Reply(SavingsLink, NoPrompt), s)
    else if Contains(lower, "upload") && Contains(lower, "pdf") && !HasPath(s.path) then
      Outcome(Reply(UploadHint, NoPrompt), s)
    else if HoldsPdf(s.path) then
      if s.path.value !in docs then Raise()
      else
        var answer := ask(msg, ExtractedText(docs[s.path.value]));
        if answer.Failed? then Raise()
        else Outcome(Reply(DocumentAnswer(answer.text), NoPrompt), s)
    else if ContainsAny(lower, EXIT_WORDS) then
      Outcome(Reply(Goodbye, NoPrompt), Fresh)
    else
      Outcome(Reply(HelpTopics, NoPrompt), s)
  }

  datatype UploadOutcome = UploadOutcome(status: Status, path: Option<string>)

  /** `handle_upload(file)`: `None` (a removed file) changes nothing; any other value is stored. */
  function Remember(stored: Option<string>, file: Option<string>): UploadOutcome
  {
    if file.None? then UploadOutcome(Silent, stored)
    else UploadOutcome(Uploaded(file.value), file)
  }

  // ---------------------------------------------------------------- sessions over time

  function Apply(s: Snapshot, e: Dialogue.Event, db: Store, docs: Files, ask: Oracle): Snapshot
  {
    match e
    case Said(u) => Turn(s, u, db, docs, ask).after
    case Changed(p) => s.(path := Remember(s.path, p).path)
  }

  function Run(s: Snapshot, events: seq<Dialogue.Event>, db: Store, docs: Files, ask: Oracle): Snapshot
    decreases |events|
  {
    if events == [] then s else Run(Apply(s, events[0], db, docs, ask), events[1..], db, docs, ask)
  }

  /** The sessions the handler produces: a known step, and the keys `await_zip` and `verified` read. */
  predicate Valid(s: Snapshot, db: Store)
  {
    var st := s.state;
    && !st.step.Unknown?
    && (st.step == AwaitZip ==> st.customerId.Some? && st.first.Some? && st.last.Some?)
    && (st.step == Verified ==> st.customerId.Some?)
    && (st.customerId.Some? ==> st.customerId.value in db.customers)
  }

  // ---------------------------------------------------------------- properties of one turn

  /** The new-user flow stores the title-cased name, thanks the user by it and returns to `start`. */
  lemma NewUserFlow(s: Snapshot, name: string, low1: string, email: string, low2: string,
                    db: Store, docs: Files, ask: Oracle)
    requires s.state.step == NewName
    ensures var o1 := Handle(s, name, low1, db, docs, ask);
            var o2 := Handle(o1.after, email, low2, db, docs, ask);
            && o1.after.state.newName == Some(Title(name))
            && o2 == Outcome(Reply(LeadThanks(Title(name)), NoPrompt), Snapshot(Only(Start), s.path))
  {
  }

  /**
   * ZIP verification succeeds exactly when a customer row has both the session's
   * id and that ZIP; otherwise the session is unchanged and the step stays `await_zip`.
   */
  lemma ZipStep(s: Snapshot, msg: string, lower: string, db: Store, docs: Files, ask: Oracle)
    requires Valid(s, db) && s.state.step == AwaitZip
    ensures var o := Handle(s, msg, lower, db, docs, ask);
            && (o.after.state.step == Verified <==> ZipMatches(db, s.state.customerId.value, msg))
            && (!ZipMatches(db, s.state.customerId.value, msg) ==> o == Outcome(Reply(ZipMismatch, NoPrompt), s))
            && (ZipMatches(db, s.state.customerId.value, msg) ==> o.after == s.(state := s.state.(step := Verified)))
  {
  }

  /**
   * In `verified`, the yes-set is tested only after the savings test: "yes"
   * gives the link, but "yes, savings" gets the savings offer.
   */
  lemma YesAfterSavings(s: Snapshot, msg: string, lower: string, db: Store, docs: Files, ask: Oracle)
    requires s.state.step == Verified && s.state.customerId.Some?
    requires !Contains(lower, "balance") && !Contains(lower, "transaction") && !Contains(lower, "recent")
    ensures var o := Handle(s, msg, lower, db, docs, ask);
            && (Contains(lower, "saving") ==> o == Outcome(Reply(SavingsOffer, NoPrompt), s))
            && (!Contains(lower, "saving") && lower in YES_WORDS ==> o == Outcome(Reply(SavingsLink, NoPrompt), s))
  {
  }

  /**
   * Once a `.pdf` path is held, every verified utterance that the account,
   * savings and yes tests do not catch goes to the answer engine: the farewell
   * branch cannot be reached.
   */
  lemma PdfCapturesEverything(s: Snapshot, msg: string, lower: string, db: Store, docs: Files, ask: Oracle)
    requires s.state.step == Verified && s.state.customerId.Some? && HoldsPdf(s.path)
    requires !Contains(lower, "balance") && !Contains(lower, "transaction") && !Contains(lower, "recent")
    requires !Contains(lower, "saving") && lower !in YES_WORDS
    ensures var o := Handle(s, msg, lower, db, docs, ask);
            && o.reply.msg != Goodbye
            && (s.path.value !in docs ==> o == Raise())
            && (s.path.value in docs ==>
                  var answer := ask(msg, ExtractedText(docs[s.path.value]));
                  (answer.Failed? ==> o == Raise()) &&
                  (answer.Answered? ==> o == Outcome(Reply(DocumentAnswer(answer.text), NoPrompt), s)))
  {
    assert HasPath(s.path);
  }

  /** Without a `.pdf` path, a farewell word (not caught before) ends the session and forgets the path. */
  lemma FarewellWithoutPdf(s: Snapshot, msg: string, lower: string, db: Store, docs: Files, ask: Oracle)
    requires s.state.step == Verified && s.state.customerId.Some? && !HoldsPdf(s.path)
    requires !Contains(lower, "balance") && !Contains(lower, "transaction") && !Contains(lower, "recent")
    requires !Contains(lower, "saving") && lower !in YES_WORDS
    requires !(Contains(lower, "upload") && Contains(lower, "pdf") && !HasPath(s.path))
    ensures var o := Handle(s, msg, lower, db, docs, ask);
            && (ContainsAny(lower, EXIT_WORDS) ==> o == Outcome(Reply(Goodbye, NoPrompt), Fresh))
            && (!ContainsAny(lower, EXIT_WORDS) ==> o == Outcome(Reply(HelpTopics, NoPrompt), s))
  {
  }

  /** Farewell, unknown step and exception all clear the state and forget the path. */
  lemma ResetsForgetPath(s: Snapshot, msg: string, lower: string, db: Store, docs: Files, ask: Oracle)
    ensures var o := Handle(s, msg, lower, db, docs, ask);
            o.reply.msg in {Goodbye, StartOver, InternalError} ==> o.after == Fresh
    ensures var o := Handle(s, msg, lower, db, docs, ask);
            o.after.path == s.path || o.after == Fresh
    ensures var o := Handle(s, msg, lower, db, docs, ask);
            o.reply.msg !in {Goodbye, StartOver, InternalError} ==> o.after.path == s.path
  {
    match s.state.step
    case Verified =>
    case Start =>
    case AwaitType =>
    case NewName =>
    case NewEmail =>
    case AwaitPhone =>
    case AwaitZip =>
    case Unknown(_) =>
  }

  /** `handle_upload(None)` keeps the stored path; any other value replaces it, even an empty one. */
  lemma RememberContract(stored: Option<string>, file: Option<string>)
    ensures file.None? ==> Remember(stored, file) == UploadOutcome(Silent, stored)
    ensures file.Some? ==> Remember(stored, file).path == file
  {
  }

  // ---------------------------------------------------------------- properties of whole sessions

  /**
   * A `Valid` session stays `Valid`; in it the unknown-step branch is
   * unreachable and an exception comes only from the document: an unopenable
   * file or a failing answer engine.
   */
  lemma HandleKeepsValid(s: Snapshot, msg: string, lower: string, db: Store, docs: Files, ask: Oracle)
    requires Valid(s, db)
    ensures Valid(Handle(s, msg, lower, db, docs, ask).after, db)
    ensures Handle(s, msg, lower, db, docs, ask).reply.msg != StartOver
    ensures Handle(s, msg, lower, db, docs, ask).reply.msg == InternalError ==>
              s.state.step == Verified && HoldsPdf(s.path)
  {
    match s.state.step
    case Verified =>
    case Start =>
    case AwaitType =>
    case NewName =>
    case NewEmail =>
    case AwaitPhone =>
    case AwaitZip =>
  }

  lemma ApplyKeepsValid(s: Snapshot, e: Dialogue.Event, db: Store, docs: Files, ask: Oracle)
    requires Valid(s, db)
    ensures Valid(Apply(s, e, db, docs, ask), db)
  {
    match e
    case Said(u) => HandleKeepsValid(s, Strip(u), Lower(Strip(u)), db, docs, ask);
    case Changed(p) =>
  }

  /** Whatever the events, a `Valid` session (`Fresh` is one) stays `Valid`. */
  lemma {:induction false} RunKeepsValid(s: Snapshot, events: seq<Dialogue.Event>, db: Store, docs: Files, ask: Oracle)
    requires Valid(s, db)
    ensures Valid(Run(s, events, db, docs, ask), db)
    decreases |events|
  {
    if events != [] {
      ApplyKeepsValid(s, events[0], db, docs, ask);
      RunKeepsValid(Apply(s, events[0], db, docs, ask), events[1..], db, docs, ask);
    }
  }

  // ---------------------------------------------------------------- the module globals

  class Session {
    var userState: State
    var uploadedFilePath: Option<string>

    constructor ()
      ensures userState == Only(Start) && uploadedFilePath == None
    {
      userState := Only(Start);
      uploadedFilePath := None;
    }

    function Snap(): Snapshot
      reads this
    {
      Snapshot(userState, uploadedFilePath)
    }

    /** The body of `except Exception`. */
    method Recover() returns (reply: Reply)
      modifies this
      ensures Snap() == Fresh && reply == Reply(InternalError, NoPrompt)
    {
      userState := Only(Start);
      uploadedFilePath := None;
      reply := Reply(InternalError, NoPrompt);
    }

    /** `bot(user_msg, history)` */
    method Bot(user: string, db: Store, docs: Files, ask: Oracle) returns (reply: Reply)
      modifies this
      ensures Outcome(reply, Snap()) == Turn(old(Snap()), user, db, docs, ask)
    {
      var msg := Strip(user);
      var lower := Lower(msg);
      var step := userState.step;
      ghost var s0 := Snap();
      assert Turn(s0, user, db, docs, ask) == Handle(s0, msg, lower, db, docs, ask);

      if step == Start {
        userState := userState.(step := AwaitType);
        return Reply(Welcome, NoPrompt);
      }

      if step == AwaitType {
        if Contains(lower, "existing") {
          userState := userState.(step := AwaitPhone);
          return Reply(AskPhone, NoPrompt);
        }
        if Contains(lower, "new") {
          userState := userState.(step := NewName);
          return Reply(AskName, NoPrompt);
        }
        return Reply(ChooseType, NoPrompt);
      }

      if step == NewName {
        userState := userState.(newName := Some(Title(msg)));
        userState := userState.(step := NewEmail);
        return Reply(AskEmail, NoPrompt);
      }

      if step == NewEmail {
        var name := if userState.newName.Some? then userState.newName.value else "";
        userState := Only(Start);
        return Reply(LeadThanks(name), NoPrompt);
      }

      if step == AwaitPhone {
        var row := FindByPhone(db, msg);
        if row.Some? {
          userState := userState.(customerId := Some(row.value.id), first := Some(row.value.first),
                                  last := Some(row.value.last), step := AwaitZip);
          return Reply(AskZip, NoPrompt);
        }
        return Reply(PhoneNotFound, NoPrompt);
      }

      if step == AwaitZip {
        if userState.customerId.None? {
          reply := Recover();
          return;
        }
        var zipOk := ZipMatches(db, userState.customerId.value, msg);
        if zipOk {
          userState := userState.(step := Verified);
          if userState.first.None? || userState.last.None? {
            reply := Recover();
            return;
          }
          return Reply(WelcomeBackFull(userState.first.value, userState.last.value), NoPrompt);
        }
        return Reply(ZipMismatch, NoPrompt);
      }

      if step == Verified {
        if userState.customerId.None? {
          reply := Recover();
          return;
        }
        reply := MainActions(msg, lower, userState.customerId.value, db, docs, ask);
        return;
      }

      userState := Only(Start);
      uploadedFilePath := None;
      return Reply(StartOver, NoPrompt);
    }

    /** The `verified` block once the customer id has been read. */
    method MainActions(msg: string, lower: string, cid: CustomerId, db: Store, docs: Files, ask: Oracle)
      returns (reply: Reply)
      modifies this
      ensures Outcome(reply, Snap()) == Serve(old(Snap()), msg, lower, cid, db, docs, ask)
    {
      if Contains(lower, "balance") {
        if cid !in db.customers {
          reply := Recover();
          return;
        }
        return Reply(Balance(db.customers[cid].balance), NoPrompt);
      }
      if Contains(lower, "transaction") || Contains(lower, "recent") {
        var rows := RecentTransactions(db, cid);
        if rows == [] {
          return Reply(NoTransactions, NoPrompt);
        }
        return Reply(Transactions(rows), NoPrompt);
      }
      if Contains(lower, "saving") {
        return Reply(SavingsOffer, NoPrompt);
      }
      if lower in YES_WORDS {
        return Reply(SavingsLink, NoPrompt);
      }
      if Contains(lower, "upload") && Contains(lower, "pdf") && !HasPath(uploadedFilePath) {
        return Reply(UploadHint, NoPrompt);
      }
      if HoldsPdf(uploadedFilePath) {
        if uploadedFilePath.value !in docs {
          reply := Recover();
          return;
        }
        var ctx := Extract(docs[uploadedFilePath.value]);
        var answer := ask(msg, ctx);
        if answer.Failed? {
          reply := Recover();
          return;
        }
        return Reply(DocumentAnswer(answer.text), NoPrompt);
      }
      if ContainsAny(lower, EXIT_WORDS) {
        userState := Only(Start);
        uploadedFilePath := None;
        return Reply(Goodbye, NoPrompt);
      }
      return Reply(HelpTopics, NoPrompt);
    }

    /** `handle_upload(file)`: writes `uploaded_file_path` only. */
    method HandleUpload(file: Option<string>) returns (status: Status)
      modifies this`uploadedFilePath
      ensures UploadOutcome(status, uploadedFilePath) == Remember(old(uploadedFilePath), file)
    {
      if file.None? {
        return Silent;
      }
      uploadedFilePath := file;
      return Uploaded(file.value);
    }
  }
}
