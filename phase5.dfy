/**
 * Phase5.py: the `verified`-state revision with several documents. A verified
 * customer's utterance is routed by an ordered chain of keyword tests; a
 * document question joins the extracted text of every uploaded file; a farewell
 * word ends the session at once. Up to `MAX_PDFS` file paths are kept, and no
 * reset ever clears them.
 */
module Phase5 {
  import opened Text
  import opened Backends
  import opened Replies
  import Dialogue

  // ---------------------------------------------------------------- session state

  datatype Step =
    | Start | AwaitType | NewName | NewEmail | AwaitPhone | AwaitZip | Verified
    | Unknown(name: string)   // any other value of the `step` key

  /** The `user_state` dict. */
  datatype State = State(
    step: Step,
    tmpName: Option<string>,
    customerId: Option<CustomerId>,
    first: Option<string>,
    last: Option<string>)

  /** `user_state.clear(); user_state["step"] = step` */
  function Only(step: Step): State
  {
    State(step, None, None, None, None)
  }

  /** Both globals: `user_state` and the `uploaded_files` list of paths. */
  datatype Snapshot = Snapshot(state: State, files: seq<string>)

  datatype Outcome = Outcome(reply: Reply, after: Snapshot)

  /** The capacity of `uploaded_files`. */
  const MAX_PDFS := 3

  const PDF_WORDS := ["pdf", "report", "profit", "revenue", "expense", "summary", "detail"]
  const EXIT_WORDS := ["bye", "exit", "close", "thank"]
  const YES_WORDS: set<string> := {"yes", "yes please", "yes, please", "yep"}

  /** `follow_up()`: the upload tip is offered only while there is room for another file. */
  function FollowUpPrompt(files: seq<string>): Prompt
  {
    FollowUp(|files| < MAX_PDFS)
  }

  /** The `except Exception` branch: `user_state` is reset, the files are kept. */
  function Raise(s: Snapshot): Outcome
  {
    Outcome(Reply(InternalError, NoPrompt), Snapshot(Only(Start), s.files))
  }

  // ---------------------------------------------------------------- document context

  /**
   * `[extract_pdf(p) for p in uploaded_files]`: the extracted text of each file,
   * or `None` when some file cannot be opened (the comprehension raises).
   */
  function Chunks(paths: seq<string>, docs: Files): (r: Option<seq<string>>)
    ensures r.Some? <==> forall k :: 0 <= k < |paths| ==> paths[k] in docs
    ensures r.Some? ==> |r.value| == |paths|
    ensures r.Some? ==> forall k :: 0 <= k < |paths| ==> r.value[k] == ExtractedText(docs[paths[k]])
  {
    if paths == [] then Some([])
    else
      var init := Chunks(paths[..|paths| - 1], docs);
      var last := paths[|paths| - 1];
      if init.None? || last !in docs then None
      else Some(init.value + [ExtractedText(docs[last])])
  }

  /** The combined context: the chunks joined by blank lines. */
  function Context(paths: seq<string>, docs: Files): Option<string>
  {
    var c := Chunks(paths, docs);
    if c.None? then None else Some(Join(c.value, "\n\n"))
  }

  /** The chunks of one more path: those before it, then its own text, unless it cannot be opened. */
  lemma ChunksStep(paths: seq<string>, i: nat, docs: Files)
    requires i < |paths|
    ensures Chunks(paths[..i + 1], docs) ==
              if Chunks(paths[..i], docs).None? || paths[i] !in docs then None
              else Some(Chunks(paths[..i], docs).value + [ExtractedText(docs[paths[i]])])
  {
    assert paths[..i + 1][..i] == paths[..i];
  }

  /** Builds the combined context one file at a time. */
  method BuildContext(paths: seq<string>, docs: Files) returns (ctx: Option<string>)
    ensures ctx == Context(paths, docs)
    ensures ctx.None? <==> exists k :: 0 <= k < |paths| && paths[k] !in docs
  {
    var chunks: seq<string> := [];
    var i := 0;
    while i < |paths|
      invariant 0 <= i <= |paths|
      invariant Chunks(paths[..i], docs) == Some(chunks)
    {
      ChunksStep(paths, i, docs);
      if paths[i] !in docs {
        return None;
      }
      var text := Extract(docs[paths[i]]);
      chunks := chunks + [text];
      i := i + 1;
    }
    assert paths[..i] == paths;
    ctx := Some(Join(chunks, "\n\n"));
  }

  // ---------------------------------------------------------------- the handler

  /** One call of `bot(user_msg, history)`. */
  function Turn(s: Snapshot, user: string, db: Store, docs: Files, ask: Oracle): Outcome
  {
    Handle(s, Strip(user), Lower(Strip(user)), db, docs, ask)
  }

  /** The dispatch on `user_state["step"]`, given the stripped utterance and its lower-case form. */
  function Handle(s: Snapshot, msg: string, lower: string, db: Store, docs: Files, ask: Oracle): Outcome
  {
    var st := s.state;
    match st.step
    case Start =>
      Outcome(Reply(Welcome, NoPrompt), s.(state := st.(step := AwaitType)))
    case AwaitType =>
      if Contains(lower, "existing") then Outcome(Reply(AskPhone, NoPrompt), s.(state := st.(step := AwaitPhone)))
      else if Contains(lower, "new") then Outcome(Reply(AskName, NoPrompt), s.(state := st.(step := NewName)))
      else Outcome(Reply(ChooseType, NoPrompt), s)
    case NewName =>
      Outcome(Reply(AskEmail, NoPrompt), s.(state := st.(tmpName := Some(msg), step := NewEmail)))
    case NewEmail =>
      var name := if st.tmpName.Some? then st.tmpName.value else "";
      Outcome(Reply(LeadThanks(name), NoPrompt), s.(state := Only(Start)))
    case AwaitPhone =>
      var row := FindByPhone(db, msg);
      if row.None? then Outcome(Reply(PhoneNotFound, NoPrompt), s)
      else Outcome(Reply(AskZip, NoPrompt),
                   s.(state := st.(customerId := Some(row.value.id), first := Some(row.value.first),
                                   last := Some(row.value.last), step := AwaitZip)))
    case AwaitZip =>
      if st.customerId.None? || st.customerId.value !in db.customers then Raise(s)
      else if msg != db.customers[st.customerId.value].zip then Outcome(Reply(ZipMismatch, NoPrompt), s)
      else if st.first.None? || st.last.None? then Raise(s)
      else Outcome(Reply(WelcomeBackFull(st.first.value, st.last.value), NoPrompt),
                   s.(state := st.(step := Verified)))
    case Verified =>
      if st.customerId.None? then Raise(s)
      else Serve(s, msg, lower, st.customerId.value, db, docs, ask)
    case Unknown(_) =>
      Outcome(Reply(StartOver, NoPrompt), s.(state := Only(Start)))
  }

  /** The `verified` block, once `cid` has been read. */
  function Serve(s: Snapshot, msg: string, lower: string, cid: CustomerId, db: Store, docs: Files, ask: Oracle): Outcome
  {
    var tip := FollowUpPrompt(s.files);
    if lower == "upload" then
      Outcome(Reply(UploadHint, NoPrompt), s)
    else if Contains(lower, "balance") then
      if cid !in db.customers then Raise(s)
      else Outcome(Reply(Balance(db.customers[cid].balance), tip), s)
    else if Contains(lower, "transaction") || Contains(lower, "recent") then
      var rows := RecentTransactions(db, cid);
      Outcome(Reply(if rows == [] then NoTransactions else Transactions(rows), tip), s)
    else if Contains(lower, "saving") then
      Outcome(Reply(SavingsOffer, tip), s)
    else if lower in YES_WORDS then
      Outcome(Reply(SavingsLink, tip), s)
    else if s.files != [] && ContainsAny(lower, PDF_WORDS) then
      var ctx := Context(s.files, docs);
      if ctx.None? then Raise(s)
      else
        var answer := ask(msg, ctx.value);
        if answer.Failed? then Raise(s)
        else Outcome(Reply(DocumentAnswer(answer.text), tip), s)
    else if ContainsAny(lower, EXIT_WORDS) then
      Outcome(Reply(Goodbye, NoPrompt), s.(state := Only(Start)))
    else
      Outcome(Reply(Blank, tip), s)
  }

  datatype UploadOutcome = UploadOutcome(status: Status, files: seq<string>)

  /**
   * `handle_upload(file_path)`: an empty path changes nothing; a full list
   * rejects the file; otherwise its path is appended (it is opened only when a
   * question is asked).
   */
  function AddFile(files: seq<string>, path: Option<string>): UploadOutcome
  {
    if path.None? || path.value == "" then UploadOutcome(Silent, files)
    else if |files| >= MAX_PDFS then UploadOutcome(Rejected, files)
    else UploadOutcome(Uploaded(path.value), files + [path.value])
  }

  // ---------------------------------------------------------------- sessions over time

  function Apply(s: Snapshot, e: Dialogue.Event, db: Store, docs: Files, ask: Oracle): Snapshot
  {
    match e
    case Said(u) => Turn(s, u, db, docs, ask).after
    case Changed(p) => s.(files := AddFile(s.files, p).files)
  }

  function Run(s: Snapshot, events: seq<Dialogue.Event>, db: Store, docs: Files, ask: Oracle): Snapshot
    decreases |events|
  {
    if events == [] then s else Run(Apply(s, events[0], db, docs, ask), events[1..], db, docs, ask)
  }

  /**
   * The sessions the handler produces: a known step, the keys `await_zip` and
   * `verified` read are present, a customer id has a row, and at most
   * `MAX_PDFS` files.
   */
  predicate Valid(s: Snapshot, db: Store)
  {
    var st := s.state;
    && !st.step.Unknown?
    && (st.step == AwaitZip ==> st.customerId.Some? && st.first.Some? && st.last.Some?)
    && (st.step == Verified ==> st.customerId.Some?)
    && (st.customerId.Some? ==> st.customerId.value in db.customers)
    && |s.files| <= MAX_PDFS
  }

  // ---------------------------------------------------------------- properties of one turn

  /**
   * The new-user flow takes a name and an e-mail address, thanks the user by
   * the name and returns to `start` with the state cleared; the files are kept.
   */
  lemma NewUserFlow(s: Snapshot, name: string, low1: string, email: string, low2: string,
                    db: Store, docs: Files, ask: Oracle)
    requires s.state.step == NewName
    ensures var o1 := Handle(s, name, low1, db, docs, ask);
            var o2 := Handle(o1.after, email, low2, db, docs, ask);
            && o1.after.state.step == NewEmail
            && o2 == Outcome(Reply(LeadThanks(name), NoPrompt), Snapshot(Only(Start), s.files))
  {
  }

  /** `new_email` reached without a name thanks an empty name rather than failing. */
  lemma MissingNameDefaultsToEmpty(s: Snapshot, msg: string, lower: string, db: Store, docs: Files, ask: Oracle)
    requires s.state.step == NewEmail && s.state.tmpName.None?
    ensures Handle(s, msg, lower, db, docs, ask) == Outcome(Reply(LeadThanks(""), NoPrompt), s.(state := Only(Start)))
  {
  }

  /**
   * In `verified` the first matching test decides, in the order: exact `upload`,
   * balance, transactions, savings, the yes-set, a document question (only with
   * files), a farewell word, the fallback.
   */
  lemma VerifiedOrder(s: Snapshot, msg: string, lower: string, db: Store, docs: Files, ask: Oracle)
    requires Valid(s, db) && s.state.step == Verified
    ensures var o := Handle(s, msg, lower, db, docs, ask);
            var id := s.state.customerId.value;
            var rows := RecentTransactions(db, id);
            var tip := FollowUp(|s.files| < MAX_PDFS);
            && (lower == "upload" ==> o == Outcome(Reply(UploadHint, NoPrompt), s))
            && (lower != "upload" && Contains(lower, "balance") ==>
                  o == Outcome(Reply(Balance(db.customers[id].balance), tip), s))
            && (lower != "upload" && !Contains(lower, "balance") &&
                (Contains(lower, "transaction") || Contains(lower, "recent")) ==>
                  o == Outcome(Reply(if rows == [] then NoTransactions else Transactions(rows), tip), s))
            && (lower != "upload" && !Contains(lower, "balance") &&
                !Contains(lower, "transaction") && !Contains(lower, "recent") ==>
                  && (Contains(lower, "saving") ==> o == Outcome(Reply(SavingsOffer, tip), s))
                  && (!Contains(lower, "saving") && lower in YES_WORDS ==> o == Outcome(Reply(SavingsLink, tip), s))
                  && (!Contains(lower, "saving") && lower !in YES_WORDS ==>
                        && (s.files != [] && ContainsAny(lower, PDF_WORDS) ==>
                              o.reply.msg.DocumentAnswer? || o == Raise(s))
                        && (!(s.files != [] && ContainsAny(lower, PDF_WORDS)) && ContainsAny(lower, EXIT_WORDS) ==>
                              o == Outcome(Reply(Goodbye, NoPrompt), Snapshot(Only(Start), s.files)))
                        && (!(s.files != [] && ContainsAny(lower, PDF_WORDS)) && !ContainsAny(lower, EXIT_WORDS) ==>
                              o == Outcome(Reply(Blank, tip), s))))
  {
  }

  /**
   * A document question is answered from the texts of all files joined by blank
   * lines; a file that cannot be opened, or a failing engine, resets the state.
   */
  lemma DocumentQuestion(s: Snapshot, msg: string, lower: string, db: Store, docs: Files, ask: Oracle)
    requires s.state.step == Verified && s.state.customerId.Some?
    requires lower != "upload" && !Contains(lower, "balance") && !Contains(lower, "transaction")
    requires !Contains(lower, "recent") && !Contains(lower, "saving") && lower !in YES_WORDS
    requires s.files != [] && ContainsAny(lower, PDF_WORDS)
    ensures var o := Handle(s, msg, lower, db, docs, ask);
            && ((exists k :: 0 <= k < |s.files| && s.files[k] !in docs) ==> o == Raise(s))
            && ((forall k :: 0 <= k < |s.files| ==> s.files[k] in docs) ==>
                  var ctx := Join(seq(|s.files|, k requires 0 <= k < |s.files| => ExtractedText(docs[s.files[k]])), "\n\n");
                  && (ask(msg, ctx).Failed? ==> o == Raise(s))
                  && (ask(msg, ctx).Answered? ==>
                        o == Outcome(Reply(DocumentAnswer(ask(msg, ctx).text), FollowUp(|s.files| < MAX_PDFS)), s)))
  {
    var c := Chunks(s.files, docs);
    if c.Some? {
      assert c.value == seq(|s.files|, k requires 0 <= k < |s.files| => ExtractedText(docs[s.files[k]]));
    }
  }

  /**
   * Without files no utterance reaches the engine: a document keyword falls
   * through to the farewell test and the fallback.
   */
  lemma NoFilesNoEngine(s: Snapshot, msg: string, lower: string, db: Store, docs: Files, ask: Oracle)
    requires s.files == []
    ensures !Handle(s, msg, lower, db, docs, ask).reply.msg.DocumentAnswer?
  {
    match s.state.step
    case Verified =>
    case Start =>
    case AwaitType =>
    case NewName =>
    case NewEmail =>
    case AwaitPhone =>
    case AwaitZip =>
    case Unknown(_) =>
  }

  /** Every follow-up prompt carries the upload tip exactly when fewer than `MAX_PDFS` files are held. */
  lemma TipIffRoom(s: Snapshot, msg: string, lower: string, db: Store, docs: Files, ask: Oracle)
    ensures var p := Handle(s, msg, lower, db, docs, ask).reply.prompt;
            p.FollowUp? ==> (p.uploadTip <==> |s.files| < MAX_PDFS)
  {
    match s.state.step
    case Verified =>
    case Start =>
    case AwaitType =>
    case NewName =>
    case NewEmail =>
    case AwaitPhone =>
    case AwaitZip =>
    case Unknown(_) =>
  }

  /**
   * No turn changes the file list: the farewell, unknown-step and exception
   * resets clear `user_state` only.
   */
  lemma TurnsKeepFiles(s: Snapshot, msg: string, lower: string, db: Store, docs: Files, ask: Oracle)
    ensures Handle(s, msg, lower, db, docs, ask).after.files == s.files
    ensures var o := Handle(s, msg, lower, db, docs, ask);
            o.reply.msg in {Goodbye, StartOver, InternalError} ==> o.after == Snapshot(Only(Start), s.files)
  {
    match s.state.step
    case Verified =>
    case Start =>
    case AwaitType =>
    case NewName =>
    case NewEmail =>
    case AwaitPhone =>
    case AwaitZip =>
    case Unknown(_) =>
  }

  /**
   * `handle_upload`: no path changes nothing; a full list rejects the file and
   * stays as it is; otherwise the path is appended. The capacity is never exceeded.
   */
  lemma AddFileContract(files: seq<string>, path: Option<string>)
    ensures var u := AddFile(files, path);
            && (path.None? || path.value == "" ==> u == UploadOutcome(Silent, files))
            && (path.Some? && path.value != "" && |files| >= MAX_PDFS ==> u == UploadOutcome(Rejected, files))
            && (path.Some? && path.value != "" && |files| < MAX_PDFS ==>
                  u == UploadOutcome(Uploaded(path.value), files + [path.value]))
            && (|files| <= MAX_PDFS ==> |u.files| <= MAX_PDFS)
            && u.files[..|files|] == files
  {
  }

  // ---------------------------------------------------------------- properties of whole sessions

  lemma HandleKeepsValid(s: Snapshot, msg: string, lower: string, db: Store, docs: Files, ask: Oracle)
    requires Valid(s, db)
    ensures Valid(Handle(s, msg, lower, db, docs, ask).after, db)
    ensures Handle(s, msg, lower, db, docs, ask).reply.msg != StartOver
  {
    match s.state.step
    case Verified =>
    case Start =>
    case AwaitType =>
    case NewName =>
    case NewEmail =>
    case AwaitPhone =>
    case AwaitZip =>
  }

  lemma ApplyKeepsValid(s: Snapshot, e: Dialogue.Event, db: Store, docs: Files, ask: Oracle)
    requires Valid(s, db)
    ensures Valid(Apply(s, e, db, docs, ask), db)
    ensures var t := Apply(s, e, db, docs, ask);
            |s.files| <= |t.files| && t.files[..|s.files|] == s.files
  {
    match e
    case Said(u) =>
      var msg := Strip(u);
      var lower := Lower(msg);
      assert Apply(s, e, db, docs, ask) == Handle(s, msg, lower, db, docs, ask).after;
      HandleKeepsValid(s, msg, lower, db, docs, ask);
      TurnsKeepFiles(s, msg, lower, db, docs, ask);
    case Changed(p) => AddFileContract(s.files, p);
  }

  /**
   * Whatever the events, the file list only grows by appending, never beyond
   * `MAX_PDFS`, and the session stays `Valid`.
   */
  lemma {:induction false} RunKeepsFiles(s: Snapshot, events: seq<Dialogue.Event>, db: Store, docs: Files, ask: Oracle)
    requires Valid(s, db)
    ensures var t := Run(s, events, db, docs, ask);
            Valid(t, db) && |t.files| <= MAX_PDFS && |s.files| <= |t.files| && t.files[..|s.files|] == s.files
    decreases |events|
  {
    if events != [] {
      var next := Apply(s, events[0], db, docs, ask);
      ApplyKeepsValid(s, events[0], db, docs, ask);
      RunKeepsFiles(next, events[1..], db, docs, ask);
      var t := Run(next, events[1..], db, docs, ask);
      assert t.files[..|s.files|] == t.files[..|next.files|][..|s.files|];
    }
  }

  // ---------------------------------------------------------------- the module globals

  class Session {
    var userState: State
    var uploadedFiles: seq<string>

    constructor ()
      ensures userState == Only(Start) && uploadedFiles == []
    {
      userState := Only(Start);
      uploadedFiles := [];
    }

    function Snap(): Snapshot
      reads this
    {
      Snapshot(userState, uploadedFiles)
    }

    /** The body of `except Exception`: `user_state` only. */
    method Recover() returns (reply: Reply)
      modifies this`userState
      ensures userState == Only(Start) && reply == Reply(InternalError, NoPrompt)
    {
      userState := Only(Start);
      reply := Reply(InternalError, NoPrompt);
    }

    /** `bot(user_msg, history)`: changes `user_state` only. */
    method Bot(user: string, db: Store, docs: Files, ask: Oracle) returns (reply: Reply)
      modifies this`userState
      ensures Outcome(reply, Snap()) == Turn(old(Snap()), user, db, docs, ask)
    {
      var msg := Strip(user);
      var lower := Lower(msg);
      var step := userState.step;
      ghost var s0 := Snap();
      assert Turn(s0, user, db, docs, ask) == Handle(s0, msg, lower, db, docs, ask);

      if step == Start {
        userState := userState.(step := AwaitType);
        return Reply(Welcome, NoPrompt);
      }

      if step == AwaitType {
        if Contains(lower, "existing") {
          userState := userState.(step := AwaitPhone);
          return Reply(AskPhone, NoPrompt);
        }
        if Contains(lower, "new") {
          userState := userState.(step := NewName);
          return Reply(AskName, NoPrompt);
        }
        return Reply(ChooseType, NoPrompt);
      }

      if step == NewName {
        userState := userState.(tmpName := Some(msg));
        userState := userState.(step := NewEmail);
        return Reply(AskEmail, NoPrompt);
      }

      if step == NewEmail {
        var name := if userState.tmpName.Some? then userState.tmpName.value else "";
        userState := Only(Start);
        return Reply(LeadThanks(name), NoPrompt);
      }

      if step == AwaitPhone {
        var row := FindByPhone(db, msg);
        if row.None? {
          return Reply(PhoneNotFound, NoPrompt);
        }
        userState := userState.(customerId := Some(row.value.id), first := Some(row.value.first),
                                last := Some(row.value.last), step := AwaitZip);
        return Reply(AskZip, NoPrompt);
      }

      if step == AwaitZip {
        if userState.customerId.None? || userState.customerId.value !in db.customers {
          reply := Recover();
          return;
        }
        var zipCode := db.customers[userState.customerId.value].zip;
        if msg != zipCode {
          return Reply(ZipMismatch, NoPrompt);
        }
        userState := userState.(step := Verified);
        if userState.first.None? || userState.last.None? {
          reply := Recover();
          return;
        }
        return Reply(WelcomeBackFull(userState.first.value, userState.last.value), NoPrompt);
      }

      if step == Verified {
        if userState.customerId.None? {
          reply := Recover();
          return;
        }
        reply := MainActions(msg, lower, userState.customerId.value, db, docs, ask);
        return;
      }

      userState := Only(Start);
      return Reply(StartOver, NoPrompt);
    }

    /** The `verified` block once the customer id has been read. */
    method MainActions(msg: string, lower: string, cid: CustomerId, db: Store, docs: Files, ask: Oracle)
      returns (reply: Reply)
      modifies this`userState
      ensures Outcome(reply, Snap()) == Serve(old(Snap()), msg, lower, cid, db, docs, ask)
    {
      var tip := FollowUp(|uploadedFiles| < MAX_PDFS);
      if lower == "upload" {
        return Reply(UploadHint, NoPrompt);
      }
      if Contains(lower, "balance") {
        if cid !in db.customers {
          reply := Recover();
          return;
        }
        return Reply(Balance(db.customers[cid].balance), tip);
      }
      if Contains(lower, "transaction") || Contains(lower, "recent") {
        var rows := RecentTransactions(db, cid);
        if rows == [] {
          return Reply(NoTransactions, tip);
        }
        return Reply(Transactions(rows), tip);
      }
      if Contains(lower, "saving") {
        return Reply(SavingsOffer, tip);
      }
      if lower in YES_WORDS {
        return Reply(SavingsLink, tip);
      }
      if uploadedFiles != [] && ContainsAny(lower, PDF_WORDS) {
        var ctx := BuildContext(uploadedFiles, docs);
        if ctx.None? {
          reply := Recover();
          return;
        }
        var answer := ask(msg, ctx.value);
        if answer.Failed? {
          reply := Recover();
          return;
        }
        return Reply(DocumentAnswer(answer.text), tip);
      }
      if ContainsAny(lower, EXIT_WORDS) {
        userState := Only(Start);
        return Reply(Goodbye, NoPrompt);
      }
      return Reply(Blank, tip);
    }

    /** `handle_upload(file_path)`: appends to `uploaded_files` under the capacity check. */
    method HandleUpload(path: Option<string>) returns (status: Status)
      modifies this`uploadedFiles
      ensures UploadOutcome(status, uploadedFiles) == AddFile(old(uploadedFiles), path)
    {
      if path.None? || path.value == "" {
        return Silent;
      }
      if |uploadedFiles| >= MAX_PDFS {
        return Rejected;
      }
      uploadedFiles := uploadedFiles + [path.value];
      return Uploaded(path.value);
    }
  }
}
