/**
 * The session shape shared by FinalPhase.py and Phase7.py: the `state` dict
 * with its `step` key and optional keys, the `pdf_text` document slot, the
 * full reset both revisions perform, and their identical `upload` callback.
 */
module Dialogue {
  import opened Text
  import opened Backends
  import opened Replies

  // ---------------------------------------------------------------- session state

  datatype Step =
    | Start | Type | NewName | NewPhone | NewEmail | Phone | Zip
    | OkExist | OkNew | ConfirmExit
    | Unknown(name: string)   // any other value of the `step` key

  /** The `state` dict: its `step` key and each optional key the handler writes. */
  datatype State = State(
    step: Step,
    prospectName: Option<string>,
    prospectPhone: Option<string>,
    cid: Option<CustomerId>,
    first: Option<string>,
    last: Option<string>)

  /** `state.clear(); state["step"] = step` */
  function Only(step: Step): State
  {
    State(step, None, None, None, None, None)
  }

  /** Both globals: `state` and `pdf_text`. */
  datatype Snapshot = Snapshot(state: State, pdfText: Option<string>)

  /** The session as the module starts and as every reset leaves it. */
  const Fresh := Snapshot(Only(Start), None)

  datatype Outcome = Outcome(reply: Reply, after: Snapshot)

  /** Python truthiness of `pdf_text`: set and non-empty. */
  predicate HasText(pdf: Option<string>)
  {
    pdf.Some? && pdf.value != ""
  }

  /** The `except Exception` branch: full reset and a generic apology. */
  function Raise(): Outcome
  {
    Outcome(Reply(InternalError, NoPrompt), Fresh)
  }

  datatype UploadOutcome = UploadOutcome(status: Status, pdfText: Option<string>)

  /**
   * `upload(path)`: no path clears the document; otherwise the extracted text
   * replaces it. `extract` runs outside any `try`, so a document that cannot be
   * opened raises out of the callback and `pdf_text` keeps its value.
   */
  function Attach(pdf: Option<string>, path: Option<string>, files: Files): UploadOutcome
  {
    if path.None? || path.value == "" then UploadOutcome(Silent, None)
    else if path.value !in files then UploadOutcome(Raised, pdf)
    else UploadOutcome(Uploaded(path.value), Some(ExtractedText(files[path.value])))
  }

  // ---------------------------------------------------------------- sessions over time

  /** The two inbound events: an utterance for `chat`, a file change for `upload`. */
  datatype Event = Said(utterance: string) | Changed(path: Option<string>)

  /**
   * The shapes of session the handler itself produces: the step is one it
   * knows, every key a step reads is present, a looked-up customer id has a row,
   * `ok_new` has no customer id, and the document text is within `MAX_CHARS`.
   */
  predicate Valid(s: Snapshot, db: Store)
  {
    var st := s.state;
    && !st.step.Unknown?
    && (st.step in {NewPhone, NewEmail} ==> st.prospectName.Some?)
    && (st.step == Zip ==> st.cid.Some? && st.first.Some?)
    && (st.step == OkExist ==> st.cid.Some?)
    && (st.step == OkNew ==> st.cid.None?)
    && (st.cid.Some? ==> st.cid.value in db.customers)
    && (s.pdfText.Some? ==> |s.pdfText.value| <= MAX_CHARS)
  }

  /**
   * `upload` clears the document for an empty path, stores the extracted text
   * (at most `MAX_CHARS` long) otherwise, and keeps it when the file cannot be opened.
   */
  lemma AttachContract(pdf: Option<string>, path: Option<string>, files: Files)
    ensures var u := Attach(pdf, path, files);
            && (path.None? || path.value == "" ==> u == UploadOutcome(Silent, None))
            && (path.Some? && path.value != "" && path.value in files ==>
                  u.status == Uploaded(path.value) &&
                  u.pdfText == Some(ExtractedText(files[path.value])) && |u.pdfText.value| <= MAX_CHARS)
            && (path.Some? && path.value != "" && path.value !in files ==> u == UploadOutcome(Raised, pdf))
  {
    if path.Some? && path.value in files {
      ExtractedTextIsBoundedPrefix(files[path.value]);
    }
  }

}
