/**
 * Phase2.py: a linear lead-capture machine. The module globals `user_info`
 * (name, phone, e-mail, completed) and `uploaded_file` are filled one call at a
 * time; once the three fields are in, the lead is inserted into the `customers`
 * table and every further message is a question about the uploaded document.
 */
module Phase2 {
  import opened Backends
  import opened Replies
  import Dialogue

  // ---------------------------------------------------------------- session state

  /** The `user_info` dict. */
  datatype Info = Info(name: Option<string>, phone: Option<string>, email: Option<string>, completed: bool)

  /** `user_info` as the module initialises it. */
  const Empty := Info(None, None, None, false)

  /** One row `save_customer_info` inserts into the `customers` table. */
  datatype Lead = Lead(name: string, phone: string, email: string)

  /** Both globals, and the rows inserted into the `customers` table so far. */
  datatype Snapshot = Snapshot(info: Info, file: Option<string>, leads: seq<Lead>)

  datatype Outcome = Outcome(reply: Reply, after: Snapshot)

  /** The three fields, in the order the handler asks for them. */
  datatype Field = NameField | PhoneField | EmailField

  function Get(i: Info, f: Field): Option<string>
  {
    match f
    case NameField => i.name
    case PhoneField => i.phone
    case EmailField => i.email
  }

  /** The field the next message fills, if any is still `None`. */
  function FirstMissing(i: Info): (f: Option<Field>)
    ensures f.None? <==> (forall g: Field :: Get(i, g).Some?)
    ensures f.Some? ==> Get(i, f.value).None?
    ensures f == Some(PhoneField) ==> i.name.Some?
    ensures f == Some(EmailField) ==> i.name.Some? && i.phone.Some?
  {
    if i.name.None? then assert Get(i, NameField).None?; Some(NameField)
    else if i.phone.None? then assert Get(i, PhoneField).None?; Some(PhoneField)
    else if i.email.None? then assert Get(i, EmailField).None?; Some(EmailField)
    else None
  }

  /** Python truthiness of `uploaded_file`: a path that is neither `None` nor empty. */
  predicate HasFile(file: Option<string>)
  {
    file.Some? && file.value != ""
  }

  // ---------------------------------------------------------------- the handler

  /** A reply with no follow-up. */
  function Say(m: Msg): Reply
  {
    Reply(m, NoPrompt)
  }

  /** One call of `chatbot(message, history)`; the message is used as typed. */
  function Turn(s: Snapshot, message: string, docs: Files, ask: Oracle): Outcome
  {
    var i := s.info;
    if !i.completed && i.name.None? then
      Outcome(Say(AskContactPhone), s.(info := i.(name := Some(message))))
    else if !i.completed && i.phone.None? then
      Outcome(Say(AskEmail), s.(info := i.(phone := Some(message))))
    else if !i.completed && i.email.None? then
      Outcome(Say(Registered(i.name.value)),
              Snapshot(i.(email := Some(message), completed := true), s.file,
                       s.leads + [Lead(i.name.value, i.phone.value, message)]))
    else
      Answer(s, message, docs, ask)
  }

  /**
   * The conversation after the details are collected: the document is read and
   * the question sent with it to the answer engine. Neither call is guarded, so
   * an unopenable file or a failing engine escapes as an exception.
   */
  function Answer(s: Snapshot, message: string, docs: Files, ask: Oracle): Outcome
  {
    if !HasFile(s.file) then Outcome(Say(UploadFirst), s)
    else if s.file.value !in docs then Outcome(Say(Crashed), s)
    else
      match ask(message, Concat(docs[s.file.value]))
      case Failed => Outcome(Say(Crashed), s)
      case Answered(text) => Outcome(Say(DocumentAnswer(text)), s)
  }

  /** `upload_file(file)`: the global is reassigned, whatever the file. */
  function Upload(s: Snapshot, file: Option<string>): (t: Snapshot)
    ensures t.info == s.info && t.leads == s.leads && t.file == file
  {
    s.(file := file)
  }

  // ---------------------------------------------------------------- properties of one call

  /**
   * Before completion a call fills exactly one field, the first one still
   * missing, with the message; the others keep their values.
   */
  lemma FillsFirstMissing(s: Snapshot, message: string, docs: Files, ask: Oracle, f: Field)
    requires !s.info.completed && FirstMissing(s.info) == Some(f)
    ensures Get(Turn(s, message, docs, ask).after.info, f) == Some(message)
    ensures forall g: Field :: g != f ==> Get(Turn(s, message, docs, ask).after.info, g) == Get(s.info, g)
    ensures Turn(s, message, docs, ask).after.file == s.file
  {
    var t := Turn(s, message, docs, ask).after.info;
    forall g: Field | g != f
      ensures Get(t, g) == Get(s.info, g)
    {
      match g
      case NameField =>
      case PhoneField =>
      case EmailField =>
    }
  }

  /**
   * `completed` turns true only on the call that stores the e-mail, and only
   * after the name and phone are in; that call inserts exactly that lead.
   */
  lemma CompletesOnlyWithEmail(s: Snapshot, message: string, docs: Files, ask: Oracle)
    requires !s.info.completed && Turn(s, message, docs, ask).after.info.completed
    ensures s.info.name.Some? && s.info.phone.Some? && s.info.email.None?
    ensures Turn(s, message, docs, ask).after.info.email == Some(message)
    ensures Turn(s, message, docs, ask).after.leads
              == s.leads + [Lead(s.info.name.value, s.info.phone.value, message)]
  {
  }

  /** A field once set keeps its value, `completed` never goes back, and the file is never written. */
  lemma NeverOverwritten(s: Snapshot, message: string, docs: Files, ask: Oracle)
    ensures forall f: Field :: Get(s.info, f).Some? ==> Get(Turn(s, message, docs, ask).after.info, f) == Get(s.info, f)
    ensures s.info.completed ==> Turn(s, message, docs, ask).after == s
    ensures Turn(s, message, docs, ask).after.file == s.file
    ensures s.leads <= Turn(s, message, docs, ask).after.leads
  {
    var t := Turn(s, message, docs, ask).after.info;
    forall f: Field | Get(s.info, f).Some?
      ensures Get(t, f) == Get(s.info, f)
    {
      match f
      case NameField =>
      case PhoneField =>
      case EmailField =>
    }
  }

  /**
   * Once the details are collected, the reply is the engine's answer on the
   * document exactly when a file is set (and can be read, and the engine
   * answers); with no file it is the fixed request for one.
   */
  lemma AnswerIffFile(s: Snapshot, message: string, docs: Files, ask: Oracle)
    requires s.info.completed
    ensures Turn(s, message, docs, ask).after == s
    ensures Turn(s, message, docs, ask).reply.msg == UploadFirst <==> !HasFile(s.file)
    ensures Turn(s, message, docs, ask).reply.msg.DocumentAnswer? ==> HasFile(s.file)
    ensures HasFile(s.file) && s.file.value in docs && ask(message, Concat(docs[s.file.value])).Answered? ==>
              Turn(s, message, docs, ask).reply.msg == DocumentAnswer(ask(message, Concat(docs[s.file.value])).text)
    ensures Turn(s, message, docs, ask).reply.msg == Crashed <==>
              HasFile(s.file) && (s.file.value !in docs || ask(message, Concat(docs[s.file.value])).Failed?)
  {
  }

  /** An upload followed by a question answers on that file. */
  lemma UploadThenAsk(s: Snapshot, file: string, message: string, docs: Files, ask: Oracle)
    requires s.info.completed && file != "" && file in docs
    requires ask(message, Concat(docs[file])).Answered?
    ensures Turn(Upload(s, Some(file)), message, docs, ask)
              == Outcome(Say(DocumentAnswer(ask(message, Concat(docs[file])).text)), Upload(s, Some(file)))
  {
  }

  // ---------------------------------------------------------------- sessions over time

  /**
   * What `chatbot` and `upload_file` maintain from the initial globals, over a
   * table that held `base` before: each field is set only after the ones before
   * it, `completed` means exactly that the e-mail is in (so all three are), and
   * the one row inserted is the collected lead.
   */
  predicate Valid(s: Snapshot, base: seq<Lead>)
  {
    var i := s.info;
    (i.phone.Some? ==> i.name.Some?)
    && (i.email.Some? ==> i.phone.Some?)
    && (i.completed <==> i.email.Some?)
    && s.leads == base + (if i.completed then [Lead(i.name.value, i.phone.value, i.email.value)] else [])
  }

  lemma FreshIsValid(file: Option<string>, base: seq<Lead>)
    ensures Valid(Snapshot(Empty, file, base), base)
  {
  }

  function Apply(s: Snapshot, e: Dialogue.Event, docs: Files, ask: Oracle): Snapshot
  {
    match e
    case Said(u) => Turn(s, u, docs, ask).after
    case Changed(p) => Upload(s, p)
  }

  function Run(s: Snapshot, events: seq<Dialogue.Event>, docs: Files, ask: Oracle): Snapshot
    decreases |events|
  {
    if events == [] then s else Run(Apply(s, events[0], docs, ask), events[1..], docs, ask)
  }

  lemma TurnKeepsValid(s: Snapshot, message: string, docs: Files, ask: Oracle, base: seq<Lead>)
    requires Valid(s, base)
    ensures Valid(Turn(s, message, docs, ask).after, base)
    ensures Turn(s, message, docs, ask).after.info.completed ==>
              |Turn(s, message, docs, ask).after.leads| == |base| + 1
  {
  }

  lemma ApplyKeepsValid(s: Snapshot, e: Dialogue.Event, docs: Files, ask: Oracle, base: seq<Lead>)
    requires Valid(s, base)
    ensures Valid(Apply(s, e, docs, ask), base)
  {
    match e
    case Said(u) => TurnKeepsValid(s, u, docs, ask, base);
    case Changed(p) =>
  }

  /** Whatever the messages and uploads, a `Valid` session stays `Valid`: one lead at most is ever saved. */
  lemma {:induction false} RunKeepsValid(s: Snapshot, events: seq<Dialogue.Event>, docs: Files, ask: Oracle, base: seq<Lead>)
    requires Valid(s, base)
    ensures Valid(Run(s, events, docs, ask), base)
    ensures |Run(s, events, docs, ask).leads| <= |base| + 1
    decreases |events|
  {
    if events != [] {
      ApplyKeepsValid(s, events[0], docs, ask, base);
      RunKeepsValid(Apply(s, events[0], docs, ask), events[1..], docs, ask, base);
    }
  }

  /** Over any run, a field once set is never overwritten and completion is never undone. */
  lemma {:induction false} RunNeverOverwrites(s: Snapshot, events: seq<Dialogue.Event>, docs: Files, ask: Oracle, f: Field)
    ensures Get(s.info, f).Some? ==> Get(Run(s, events, docs, ask).info, f) == Get(s.info, f)
    ensures s.info.completed ==> Run(s, events, docs, ask).info == s.info
    ensures s.leads <= Run(s, events, docs, ask).leads
    decreases |events|
  {
    if events != [] {
      var s1 := Apply(s, events[0], docs, ask);
      if events[0].Said? {
        NeverOverwritten(s, events[0].utterance, docs, ask);
      }
      RunNeverOverwrites(s1, events[1..], docs, ask, f);
    }
  }

  // ---------------------------------------------------------------- the module globals

  /** The globals `user_info` and `uploaded_file`, and the `customers` table the leads go to. */
  class Session {
    var userInfo: Info
    var uploadedFile: Option<string>
    var leads: seq<Lead>

    constructor (table: seq<Lead>)
      ensures userInfo == Empty && uploadedFile == None && leads == table
    {
      userInfo := Empty;
      uploadedFile := None;
      leads := table;
    }

    function Snap(): Snapshot
      reads this
    {
      Snapshot(userInfo, uploadedFile, leads)
    }

    /** `save_customer_info(name, phone, email)`: one `INSERT` into `customers`. */
    method SaveCustomerInfo(name: string, phone: string, email: string)
      modifies this`leads
      ensures leads == old(leads) + [Lead(name, phone, email)]
    {
      leads := leads + [Lead(name, phone, email)];
    }

    /** `chatbot(message, history)`: writes `user_info` and, once, the table. */
    method Chatbot(message: string, docs: Files, ask: Oracle) returns (reply: Reply)
      modifies this`userInfo, this`leads
      ensures Outcome(reply, Snap()) == Turn(old(Snap()), message, docs, ask)
    {
      if !userInfo.completed {
        if userInfo.name.None? {
          userInfo := userInfo.(name := Some(message));
          return Say(AskContactPhone);
        } else if userInfo.phone.None? {
          userInfo := userInfo.(phone := Some(message));
          return Say(AskEmail);
        } else if userInfo.email.None? {
          userInfo := userInfo.(email := Some(message));
          userInfo := userInfo.(completed := true);
          SaveCustomerInfo(userInfo.name.value, userInfo.phone.value, userInfo.email.value);
          return Say(Registered(userInfo.name.value));
        }
      }

      if HasFile(uploadedFile) {
        if uploadedFile.value !in docs {
          return Say(Crashed);
        }
        var extracted := ExtractAll(docs[uploadedFile.value]);
        var answer := ask(message, extracted);
        if answer.Failed? {
          return Say(Crashed);
        }
        return Say(DocumentAnswer(answer.text));
      } else {
        return Say(UploadFirst);
      }
    }

    /** `upload_file(file)`: only `uploaded_file` changes. */
    method UploadFile(file: Option<string>)
      modifies this`uploadedFile
      ensures Snap() == Upload(old(Snap()), file)
    {
      uploadedFile := file;
    }
  }
}
