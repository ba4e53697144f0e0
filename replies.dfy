/**
 * What the handlers answer. Reply wording (markdown, emoji, currency formatting)
 * is not modelled: a reply is the kind of message plus the payload it reports,
 * and the follow-up prompt appended to it.
 */
module Replies {
  import opened Backends

  datatype Msg =
    | Welcome                           // greeting, asks "existing customer or new user?"
    | ChooseType                        // re-prompt: "type existing or new"
    | AskPhone                          // asks for the registered phone number
    | AskName                           // asks a new user for their name
    | AskContactPhone                   // asks a new user for a phone number
    | AskEmail                          // asks a new user for an e-mail address
    | LeadThanks(name: string)          // "Thanks {name}! A banker will contact you"
    | InterestThanks                    // "new" without capture: a banker will contact you
    | PhoneNotFound                     // phone lookup found no row
    | AskZip                            // asks for the ZIP code
    | ZipMismatch                       // ZIP does not match the record
    | WelcomeBack(first: string)        // verified, greeted by first name
    | WelcomeBackFull(first: string, last: string)  // verified, greeted by full name
    | ConfirmExitPrompt                 // "Are you sure you want to end the chat?"
    | Goodbye                           // farewell, the session is reset
    | UploadHint                        // tells the user where the upload button is
    | Balance(amount: real)             // the stored balance
    | NoTransactions                    // the transaction query returned no row
    | Transactions(rows: seq<Txn>)      // the rows the transaction query returned
    | SavingsOffer                      // the savings products
    | SavingsLink                       // the savings application link
    | DocumentAnswer(text: string)      // the answer engine's text
    | HelpTopics                        // fixed fallback listing the topics
    | Blank                             // no text of its own: only the follow-up prompt
    | StillConnected                    // exit declined
    | SessionClosed                     // exit confirmed
    | StartOver                         // the step was not recognised
    | InternalError                     // an exception was caught
    | UploadFirst                       // asks for a document before any question
    | Registered(name: string)          // "Thank you {name}!": questions and uploads are open
    | Crashed                           // an exception escaped the handler; the interface shows an error

  /** The follow-up appended to a reply: none, `again()`, or `follow_up()` with or without its upload tip. */
  datatype Prompt = NoPrompt | Again | FollowUp(uploadTip: bool)

  datatype Reply = Reply(msg: Msg, prompt: Prompt)

  /** What an upload callback reports in the status box. */
  datatype Status =
    | Silent                 // returns "" (or nothing)
    | Uploaded(path: string) // confirms the upload of the named file
    | Rejected               // the document capacity is reached
    | Raised                 // the document could not be opened: the callback raises
}
