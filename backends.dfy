/**
 * The collaborators every revision of the chat handler calls, made abstract:
 *  - the Identity Store (the SQLite `customers` and `transactions` tables),
 *  - the Document Extractor (pdfplumber's page texts, joined and truncated),
 *  - the Answer Engine (`ask_llm` / `ask_ai`), an oracle that answers or fails.
 */
module Backends {

  datatype Option<+T> = None | Some(value: T)

  // ---------------------------------------------------------------- identity store

  type CustomerId = int

  /** One row of the `customers` table, as far as the handlers read it. */
  datatype Customer = Customer(first: string, last: string, zip: string, balance: real)

  /** One row of the `transactions` table. */
  datatype Txn = Txn(date: string, description: string, amount: real)

  /**
   * The database. `customers` is the table keyed by its primary key `id`;
   * `phones` is its `phone` column read as an index (phone values are unique);
   * `history` holds each customer's transactions, newest first (the order of
   * `ORDER BY date DESC`).
   */
  datatype Store = Store(
    customers: map<CustomerId, Customer>,
    phones: map<string, CustomerId>,
    history: map<CustomerId, seq<Txn>>)

  /** The row `SELECT id, first_name, last_name FROM customers WHERE phone=?` fetches. */
  datatype Identity = Identity(id: CustomerId, first: string, last: string)

  /** `... WHERE phone=?` then `fetchone()`: `None` when no row has that phone. */
  function FindByPhone(db: Store, phone: string): (row: Option<Identity>)
    ensures row.Some? <==> phone in db.phones && db.phones[phone] in db.customers
    ensures row.Some? ==> row.value.id == db.phones[phone]
                          && row.value.first == db.customers[row.value.id].first
                          && row.value.last == db.customers[row.value.id].last
  {
    if phone in db.phones && db.phones[phone] in db.customers then
      var id := db.phones[phone];
      Some(Identity(id, db.customers[id].first, db.customers[id].last))
    else None
  }

  /** The `LIMIT` of the recent-transactions query. */
  const TX_LIMIT := 5

  /**
   * `SELECT date, description, amount FROM transactions WHERE customer_id=?
   *  ORDER BY date DESC LIMIT 5`, then `fetchall()`.
   */
  function RecentTransactions(db: Store, id: CustomerId): (rows: seq<Txn>)
    ensures |rows| <= TX_LIMIT
    ensures id !in db.history ==> rows == []
    ensures id in db.history ==>
              |rows| <= |db.history[id]| && rows == db.history[id][..|rows|]
              && (|rows| == TX_LIMIT || rows == db.history[id])
  {
    if id !in db.history then []
    else if |db.history[id]| <= TX_LIMIT then db.history[id]
    else db.history[id][..TX_LIMIT]
  }

  // ---------------------------------------------------------------- answer engine

  /** What one call of the language model produces: its stripped text, or a raised error. */
  datatype Answer = Answered(text: string) | Failed

  /** The Answer Engine: `ask_llm(question, context)`. */
  type Oracle = (string, string) -> Answer

  // ---------------------------------------------------------------- document extractor

  /** Text sent to the language model is cut to this many characters. */
  const MAX_CHARS := 8000

  /**
   * The documents the extractor can open: a path maps to the text of each of its
   * pages ("" for a page that yields no text). A path that is not here makes
   * `pdfplumber.open` raise.
   */
  type Files = map<string, seq<string>>

  /** The pages that yielded text, in order (the `if txt:` filter of the extraction loop). */
  function TextPages(pages: seq<string>): (parts: seq<string>)
    ensures |parts| <= |pages|
    ensures forall k :: 0 <= k < |parts| ==> parts[k] != "" && parts[k] in pages
  {
    if pages == [] then []
    else
      var last := pages[|pages| - 1];
      TextPages(pages[..|pages| - 1]) + (if last != "" then [last] else [])
  }

  /** Python's `sep.join(parts)`. */
  function Join(parts: seq<string>, sep: string): string
  {
    if parts == [] then ""
    else if |parts| == 1 then parts[0]
    else Join(parts[..|parts| - 1], sep) + sep + parts[|parts| - 1]
  }

  /** Python's slice `s[:n]`. */
  function Truncate(s: string, n: nat): string
  {
    if |s| <= n then s else s[..n]
  }

  /** What `extract` returns: the texts of the pages, joined by newlines, cut to `MAX_CHARS`. */
  function ExtractedText(pages: seq<string>): string
  {
    Truncate(Join(TextPages(pages), "\n"), MAX_CHARS)
  }

  lemma ExtractedTextIsBoundedPrefix(pages: seq<string>)
    ensures |ExtractedText(pages)| <= MAX_CHARS
    ensures ExtractedText(pages) <= Join(TextPages(pages), "\n")
    ensures |Join(TextPages(pages), "\n")| <= MAX_CHARS ==>
              ExtractedText(pages) == Join(TextPages(pages), "\n")
  {
  }

  lemma {:induction false} NoTextNoExtract(pages: seq<string>)
    requires forall k :: 0 <= k < |pages| ==> pages[k] == ""
    ensures TextPages(pages) == []
    ensures ExtractedText(pages) == ""
  {
    if pages != [] {
      NoTextNoExtract(pages[..|pages| - 1]);
    }
  }

  /**
   * `extract(path)` of FinalPhase.py (and `extract_pdf` of Phase3.py-Phase5.py) once
   * the document is open: collect the page texts in a loop, then join and truncate.
   */
  method Extract(pages: seq<string>) returns (text: string)
    ensures text == ExtractedText(pages)
    ensures |text| <= MAX_CHARS
  {
    var parts: seq<string> := [];
    var i := 0;
    while i < |pages|
      invariant 0 <= i <= |pages|
      invariant parts == TextPages(pages[..i])
    {
      assert pages[..i + 1][..i] == pages[..i];
      if pages[i] != "" {
        parts := parts + [pages[i]];
      }
      i := i + 1;
    }
    assert pages[..i] == pages;
    var joined := Join(parts, "\n");
    text := if |joined| <= MAX_CHARS then joined else joined[..MAX_CHARS];
  }

  /** Concatenation of all page texts, with no separator and no truncation. */
  function Concat(pages: seq<string>): string
  {
    if pages == [] then "" else Concat(pages[..|pages| - 1]) + pages[|pages| - 1]
  }

  /** Joining one more part appends the separator and that part (none before the first). */
  lemma JoinSnoc(parts: seq<string>, x: string, sep: string)
    ensures Join(parts + [x], sep) == if parts == [] then x else Join(parts, sep) + sep + x
  {
    assert (parts + [x])[..|parts|] == parts;
  }

  /**
   * The older extraction is the newer one without its newline separators and
   * without truncation: the same pages contribute, in the same order.
   */
  lemma {:induction false} ConcatIsUnseparatedJoin(pages: seq<string>)
    ensures Concat(pages) == Join(TextPages(pages), "")
  {
    if pages != [] {
      var init := pages[..|pages| - 1];
      var last := pages[|pages| - 1];
      ConcatIsUnseparatedJoin(init);
      assert Concat(pages) == Concat(init) + last;
      if last != "" {
        assert TextPages(pages) == TextPages(init) + [last];
        JoinSnoc(TextPages(init), last, "");
        if TextPages(init) == [] {
          assert Concat(init) + last == last;
        }
      } else {
        assert TextPages(pages) == TextPages(init) + [];
        assert TextPages(init) + [] == TextPages(init);
        assert Concat(init) + last == Concat(init);
      }
    }
  }

  /**
   * `extract_text_from_pdf` of Phase1.py and Phase2.py: `text += page_text` for
   * every page that yields text.
   */
  method ExtractAll(pages: seq<string>) returns (text: string)
    ensures text == Concat(pages)
  {
    text := "";
    var i := 0;
    while i < |pages|
      invariant 0 <= i <= |pages|
      invariant text == Concat(pages[..i])
    {
      assert pages[..i + 1][..i] == pages[..i];
      if pages[i] != "" {
        text := text + pages[i];
      }
      i := i + 1;
    }
    assert pages[..i] == pages;
  }
}
