/** The transaction history screen (src/screens/HistoryScreen.jsx): a fixed
    list of transactions, a type filter chosen by buttons, the icon, title and
    optional lines of each row, and a detail panel opened by tapping a row.

    Amounts and fees are whole cents; the date formatting is not modelled.
    The icon literals are kept with exactly the code points the source file
    holds: the file stores them double-encoded, so they are the Windows-1252
    reading of the UTF-8 bytes of the intended arrows, bank, division sign and
    bullet. The bank's byte 0x8F has no Windows-1252 character and is missing
    from the file, so its glyph has three characters for four bytes. */
module History {
  import opened Wrappers
  import JsValue

  /** A transaction record; a field the record does not have is "" (or 0 for
      the fee), which the screen treats the same as a missing one. */
  datatype Transaction = Transaction(
    id: string,
    kind: string,
    amountCents: int,
    recipient: string,
    recipientId: string,
    sender: string,
    senderId: string,
    payoutMethod: string,
    group: string,
    status: string,
    note: string,
    details: string,
    feeCents: int,
    transactionId: string)

  /** The mock list the screen shows. */
  const MockTransactions: seq<Transaction> := [
    Transaction("1", "send", 5000, "Alice Smith", "alice@cycles.app", "", "", "", "",
                "completed", "Lunch", "", 0, "tx_1234567890"),
    Transaction("2", "receive", 2550, "", "", "Bob Johnson", "bob@cycles.app", "", "",
                "completed", "Coffee and snacks", "", 0, "tx_0987654321"),
    Transaction("3", "cashout", 10000, "", "", "", "", "Bank Transfer", "",
                "processing", "", "IBAN: DE89 ****", 50, "tx_5432167890"),
    Transaction("4", "split", 12000, "", "", "", "", "", "Weekend Trip",
                "completed", "Dinner", "", 0, "tx_6789054321")
  ]

  /** The ids of the filter buttons, the only values the filter is set to. */
  const FilterIds: seq<string> := ["all", "send", "receive", "cashout", "split"]

  const KnownKinds: set<string> := {"send", "receive", "cashout", "split"}

  const SendGlyph: string := "\U{E2}\U{2020}\U{2018}"
  const ReceiveGlyph: string := "\U{E2}\U{2020}\U{201C}"
  const CashoutGlyph: string := "\U{F0}\U{178}\U{A6}"
  const SplitGlyph: string := "\U{C3}\U{B7}"
  const DefaultGlyph: string := "\U{E2}\U{20AC}\U{A2}"

  // ---------------------------------------------------------------------------
  // Icons

  /** One glyph per known transaction type and the bullet for any other. */
  function TransactionIcon(kind: string): (glyph: string)
    ensures glyph == DefaultGlyph <==> kind !in KnownKinds
    ensures glyph in {SendGlyph, ReceiveGlyph, CashoutGlyph, SplitGlyph, DefaultGlyph}
  {
    match kind
    case "send" => SendGlyph
    case "receive" => ReceiveGlyph
    case "cashout" => CashoutGlyph
    case "split" => SplitGlyph
    case _ => DefaultGlyph
  }

  /** Different known types get different glyphs. */
  lemma IconsDistinct(a: string, b: string)
    requires a in KnownKinds && b in KnownKinds && a != b
    ensures TransactionIcon(a) != TransactionIcon(b)
  {
  }

  // ---------------------------------------------------------------------------
  // The filter

  /** The filter's test for one transaction. */
  predicate Matches(t: Transaction, filter: string) {
    filter == "all" || t.kind == filter
  }

  /** How many transactions of the list the filter keeps, counted on its own. */
  function CountMatching(txs: seq<Transaction>, filter: string): (n: nat)
    ensures n <= |txs|
  {
    if txs == [] then 0
    else (if Matches(txs[0], filter) then 1 else 0) + CountMatching(txs[1..], filter)
  }

  /** a is b with some elements left out, the rest kept in order. */
  predicate IsSubsequence<T(==)>(a: seq<T>, b: seq<T>)
    decreases |b|
  {
    if a == [] then true
    else if b == [] then false
    else (a[0] == b[0] && IsSubsequence(a[1..], b[1..])) || IsSubsequence(a, b[1..])
  }

  /** The rows shown for a filter: 'all' keeps the list as it is; any other
      filter keeps, in their order, the transactions of exactly that type and
      all of them. */
  function FilterTransactions(txs: seq<Transaction>, filter: string): (shown: seq<Transaction>)
    ensures filter == "all" ==> shown == txs
    ensures IsSubsequence(shown, txs)
    ensures forall i :: 0 <= i < |shown| ==> Matches(shown[i], filter) && shown[i] in txs
    ensures |shown| == CountMatching(txs, filter) <= |txs|
  {
    if txs == [] then []
    else if Matches(txs[0], filter) then [txs[0]] + FilterTransactions(txs[1..], filter)
    else FilterTransactions(txs[1..], filter)
  }

  /** A subsequence made only of matching transactions is no longer than the
      number of matching ones. */
  lemma {:induction false} MatchingSubsequenceBounded(r: seq<Transaction>, txs: seq<Transaction>, filter: string)
    requires IsSubsequence(r, txs)
    requires forall i :: 0 <= i < |r| ==> Matches(r[i], filter)
    ensures |r| <= CountMatching(txs, filter)
    decreases |txs|
  {
    if r != [] && txs != [] {
      if r[0] == txs[0] && IsSubsequence(r[1..], txs[1..]) {
        MatchingSubsequenceBounded(r[1..], txs[1..], filter);
      } else {
        MatchingSubsequenceBounded(r, txs[1..], filter);
      }
    }
  }

  /** The filter's contract pins its result down: two selections that are
      both ordered subsequences of matching transactions, as many as there
      are matching ones, are the same list. */
  lemma {:induction false} SelectionIsUnique(r1: seq<Transaction>, r2: seq<Transaction>, txs: seq<Transaction>, filter: string)
    requires IsSubsequence(r1, txs) && IsSubsequence(r2, txs)
    requires forall i :: 0 <= i < |r1| ==> Matches(r1[i], filter)
    requires forall i :: 0 <= i < |r2| ==> Matches(r2[i], filter)
    requires |r1| == CountMatching(txs, filter) == |r2|
    ensures r1 == r2
    decreases |txs|
  {
    if txs == [] {
    } else if Matches(txs[0], filter) {
      var rest := txs[1..];
      if IsSubsequence(r1, rest) {
        MatchingSubsequenceBounded(r1, rest, filter);
        assert false;
      }
      if IsSubsequence(r2, rest) {
        MatchingSubsequenceBounded(r2, rest, filter);
        assert false;
      }
      SelectionIsUnique(r1[1..], r2[1..], rest, filter);
      assert r1 == [r1[0]] + r1[1..] && r2 == [r2[0]] + r2[1..];
    } else {
      SelectionIsUnique(r1, r2, txs[1..], filter);
    }
  }

  /** Hence the filter returns the one ordered selection of matching
      transactions: any list meeting that description is its result. */
  lemma FilterIsTheOrderedSelection(r: seq<Transaction>, txs: seq<Transaction>, filter: string)
    requires IsSubsequence(r, txs)
    requires forall i :: 0 <= i < |r| ==> Matches(r[i], filter)
    requires |r| == CountMatching(txs, filter)
    ensures r == FilterTransactions(txs, filter)
  {
    SelectionIsUnique(r, FilterTransactions(txs, filter), txs, filter);
  }

  // ---------------------------------------------------------------------------
  // Row and panel contents

  /** The first non-empty candidate, or "" when all are empty. */
  function FirstNonEmpty(candidates: seq<string>): (first: string)
    ensures first == "" <==> forall i :: 0 <= i < |candidates| ==> candidates[i] == ""
    ensures first != "" ==>
      exists i :: 0 <= i < |candidates| && candidates[i] == first &&
        forall j :: 0 <= j < i ==> candidates[j] == ""
  {
    if candidates == [] then ""
    else if candidates[0] != "" then candidates[0]
    else
      var rest := FirstNonEmpty(candidates[1..]);
      assert rest != "" ==>
        exists i :: 1 <= i < |candidates| && candidates[i] == rest && (forall j :: 0 <= j < i ==> candidates[j] == "")
      by {
        if rest != "" {
          var k :| 0 <= k < |candidates[1..]| && candidates[1..][k] == rest &&
            forall j :: 0 <= j < k ==> candidates[1..][j] == "";
          assert candidates[k + 1] == rest;
        }
      }
      rest
  }

  /** JavaScript's `a || b` on two strings: the left one unless it is empty. */
  function OrElse(a: string, b: string): (r: string)
    ensures a != "" ==> r == a
    ensures a == "" ==> r == b
  {
    JsValue.Or(JsValue.Str(a), JsValue.Str(b)).s
  }

  /** The row title: recipient || sender || method || group. */
  function ListTitle(t: Transaction): string {
    OrElse(OrElse(OrElse(t.recipient, t.sender), t.payoutMethod), t.group)
  }

  lemma FirstNonEmptyCons(c: string, rest: seq<string>)
    ensures FirstNonEmpty([c] + rest) == OrElse(c, FirstNonEmpty(rest))
  {
    assert ([c] + rest)[1..] == rest;
  }

  /** The `||` chain of the title picks the first non-empty of the four. */
  lemma ListTitleIsFirstNonEmpty(t: Transaction)
    ensures ListTitle(t) == FirstNonEmpty([t.recipient, t.sender, t.payoutMethod, t.group])
  {
    FirstNonEmptyCons(t.group, []);
    FirstNonEmptyCons(t.payoutMethod, [t.group]);
    FirstNonEmptyCons(t.sender, [t.payoutMethod, t.group]);
    FirstNonEmptyCons(t.recipient, [t.sender, t.payoutMethod, t.group]);
    assert [t.group] == [t.group] + [];
    assert [t.payoutMethod, t.group] == [t.payoutMethod] + [t.group];
    assert [t.sender, t.payoutMethod, t.group] == [t.sender] + [t.payoutMethod, t.group];
    assert [t.recipient, t.sender, t.payoutMethod, t.group] == [t.recipient] + [t.sender, t.payoutMethod, t.group];
  }

  datatype Row = Row(
    icon: string,
    title: string,
    amountPrefix: string,
    noteLine: Option<string>,
    detailsLine: Option<string>)

  /** What a list row shows besides the amount, date and status. */
  function RowOf(t: Transaction): (row: Row)
    ensures row.icon == TransactionIcon(t.kind)
    ensures row.title == FirstNonEmpty([t.recipient, t.sender, t.payoutMethod, t.group])
    ensures row.amountPrefix == "+" <==> t.kind == "receive"
    ensures row.amountPrefix == "" <==> t.kind != "receive"
    ensures row.noteLine.Some? <==> t.note != ""
    ensures row.noteLine.Some? ==> row.noteLine.value == t.note
    ensures row.detailsLine.Some? <==> t.details != ""
    ensures row.detailsLine.Some? ==> row.detailsLine.value == t.details
  {
    ListTitleIsFirstNonEmpty(t);
    Row(TransactionIcon(t.kind),
        ListTitle(t),
        if t.kind == "receive" then "+" else "",
        if t.note != "" then Some(t.note) else None,
        if t.details != "" then Some(t.details) else None)
  }

  datatype Counterparty = Counterparty(heading: string, name: string, handle: string)

  datatype Detail = Detail(
    icon: string,
    transactionId: string,
    splitShares: bool,
    bankDetails: bool,
    counterparty: Option<Counterparty>,
    noteRow: Option<string>,
    feeRow: Option<int>)

  /** What the detail panel shows besides the amount, category, status and
      date. For a cashout only the presence of the bank details block is
      kept: its bank name, reference and estimated arrival are not fields of
      the model's transactions. */
  function DetailOf(t: Transaction): (d: Detail)
    ensures d.icon == TransactionIcon(t.kind) && d.transactionId == t.transactionId
    ensures d.splitShares <==> t.kind == "split"
    ensures d.bankDetails <==> t.kind == "cashout"
    ensures d.counterparty.Some? <==> t.kind == "send" || t.kind == "receive"
    ensures d.counterparty.Some? ==>
      && d.counterparty.value.heading == (if t.kind == "send" then "Recipient" else "Sender")
      && d.counterparty.value.name == FirstNonEmpty([t.recipient, t.sender])
      && d.counterparty.value.handle == FirstNonEmpty([t.recipientId, t.senderId])
    ensures d.noteRow.Some? <==> t.note != ""
    ensures d.noteRow.Some? ==> d.noteRow.value == t.note
    ensures d.feeRow.Some? <==> t.feeCents > 0
    ensures d.feeRow.Some? ==> d.feeRow.value == t.feeCents
  {
    assert [t.recipient, t.sender][1..] == [t.sender];
    assert [t.recipientId, t.senderId][1..] == [t.senderId];
    var party :=
      if t.kind == "send" || t.kind == "receive" then
        Some(Counterparty(if t.kind == "send" then "Recipient" else "Sender",
                          OrElse(t.recipient, t.sender), OrElse(t.recipientId, t.senderId)))
      else None;
    Detail(TransactionIcon(t.kind), t.transactionId, t.kind == "split", t.kind == "cashout", party,
           if t.note != "" then Some(t.note) else None,
           if t.feeCents > 0 then Some(t.feeCents) else None)
  }

  // ---------------------------------------------------------------------------
  // The screen's state

  class HistoryScreen {
    var filter: string
    var selected: Option<Transaction>

    /** The filter is one of the buttons' ids, and an open panel always shows
        one of the listed transactions. */
    ghost predicate Valid()
      reads this
    {
      && filter in FilterIds
      && (selected.Some? ==> selected.value in MockTransactions)
    }

    constructor ()
      ensures Valid() && filter == "all" && selected == None
    {
      filter := "all";
      selected := None;
    }

    /** The rows on screen. */
    function Visible(): (shown: seq<Transaction>)
      reads this
      ensures filter == "all" ==> shown == MockTransactions
      ensures forall i :: 0 <= i < |shown| ==> Matches(shown[i], filter) && shown[i] in MockTransactions
    {
      FilterTransactions(MockTransactions, filter)
    }

    /** The detail panel: shown exactly while a transaction is selected. */
    function Panel(): (panel: Option<Detail>)
      reads this
      ensures panel.Some? <==> selected.Some?
      ensures panel.Some? ==> panel.value == DetailOf(selected.value)
    {
      match selected
      case Some(t) => Some(DetailOf(t))
      case None => None
    }

    /** A filter button, which passes its own id. */
    method SetFilter(id: string)
      requires Valid() && id in FilterIds
      modifies this
      ensures Valid() && filter == id && selected == old(selected)
    {
      filter := id;
    }

    /** Tapping the row at position i opens its details. */
    method Tap(i: nat)
      requires Valid() && i < |Visible()|
      modifies this
      ensures Valid() && selected == Some(old(Visible())[i]) && filter == old(filter)
    {
      selected := Some(Visible()[i]);
    }

    /** The panel's close button. */
    method CloseDetails()
      requires Valid()
      modifies this
      ensures Valid() && selected == None && filter == old(filter)
    {
      selected := None;
    }
  }
}
