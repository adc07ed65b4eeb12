/**
 * A company's ledger: `findCompanyLedger` of apps/api/src/modules/companies/repo.ts.
 * Money is integer paise.  The running balance is a window sum over the rows newest
 * first; here it is tied to the balance computed from the documents in any order.
 */
module Ledger {
  import Sorting

  datatype SaleStatus = Draft | Confirmed | SaleVoid
  datatype PaymentStatus = Collected | PaymentVoid | NotCollected

  datatype Document =
    | Sale(id: nat, at: int, total: int, saleStatus: SaleStatus)
    | Payment(id: nat, at: int, amount: int, status: PaymentStatus)

  datatype Entry = Entry(at: int, id: nat, amount: int, voided: bool, effect: int)

  /** A draft is not money yet and does not appear; a void appears and weighs nothing. */
  function EntryOf(d: Document): seq<Entry> {
    match d
    case Sale(id, at, total, status) =>
      if status.Draft? then [] else [Entry(at, id, total, status.SaleVoid?, if status.SaleVoid? then 0 else total)]
    case Payment(id, at, amount, status) =>
      if status.NotCollected? then []
      else [Entry(at, id, -amount, status.PaymentVoid?, if status.PaymentVoid? then 0 else -amount)]
  }

  function Entries(docs: seq<Document>): seq<Entry> {
    if docs == [] then [] else EntryOf(docs[0]) + Entries(docs[1..])
  }

  predicate NotNewer(a: Entry, at: int, id: nat) {
    a.at < at || (a.at == at && a.id <= id)
  }

  const NEWEST_FIRST: (Entry, Entry) -> bool := (a: Entry, b: Entry) => NotNewer(b, a.at, a.id)

  /** `ORDER BY recorded_at DESC, id DESC`. */
  function Rows(docs: seq<Document>): seq<Entry> {
    Sorting.Sort(Entries(docs), NEWEST_FIRST)
  }

  function SumEffects(es: seq<Entry>): int {
    if es == [] then 0 else es[0].effect + SumEffects(es[1..])
  }

  /** `SUM(effect) OVER (ORDER BY ... ROWS BETWEEN CURRENT ROW AND UNBOUNDED FOLLOWING)`. */
  function Running(rows: seq<Entry>, i: nat): int
    requires i < |rows|
  {
    SumEffects(rows[i..])
  }

  // ----- the reference: what the account is worth -----

  function ConfirmedSales(docs: seq<Document>): int {
    if docs == [] then 0
    else (if docs[0].Sale? && docs[0].saleStatus.Confirmed? then docs[0].total else 0) + ConfirmedSales(docs[1..])
  }

  function CollectedPayments(docs: seq<Document>): int {
    if docs == [] then 0
    else (if docs[0].Payment? && docs[0].status.Collected? then docs[0].amount else 0) + CollectedPayments(docs[1..])
  }

  function Balance(docs: seq<Document>): int {
    ConfirmedSales(docs) - CollectedPayments(docs)
  }

  /** The effect of everything recorded up to a moment, in whatever order it is stored. */
  function BalanceAsOf(es: seq<Entry>, at: int, id: nat): int {
    if es == [] then 0
    else (if NotNewer(es[0], at, id) then es[0].effect else 0) + BalanceAsOf(es[1..], at, id)
  }

  // ----- the window sum is the balance as of its row -----

  lemma NewestFirstIsTotal()
    ensures Sorting.TotalOrder(NEWEST_FIRST)
  {
  }

  lemma {:induction false} InsertAddsItsEffect(e: Entry, es: seq<Entry>, at: int, id: nat)
    ensures BalanceAsOf(Sorting.Insert(e, es, NEWEST_FIRST), at, id) ==
            (if NotNewer(e, at, id) then e.effect else 0) + BalanceAsOf(es, at, id)
  {
    if es == [] {
      assert [e][1..] == [];
    } else if NEWEST_FIRST(e, es[0]) {
      assert ([e] + es)[1..] == es;
    } else {
      InsertAddsItsEffect(e, es[1..], at, id);
      var r := Sorting.Insert(e, es[1..], NEWEST_FIRST);
      assert ([es[0]] + r)[1..] == r;
    }
  }

  lemma {:induction false} SortingKeepsBalances(es: seq<Entry>, at: int, id: nat)
    ensures BalanceAsOf(Sorting.Sort(es, NEWEST_FIRST), at, id) == BalanceAsOf(es, at, id)
  {
    if es == [] {
    } else {
      SortingKeepsBalances(es[1..], at, id);
      InsertAddsItsEffect(es[0], Sorting.Sort(es[1..], NEWEST_FIRST), at, id);
    }
  }

  lemma {:induction false} OlderRowsAllCount(rows: seq<Entry>, at: int, id: nat)
    requires forall j :: 0 <= j < |rows| ==> NotNewer(rows[j], at, id)
    ensures BalanceAsOf(rows, at, id) == SumEffects(rows)
  {
    if rows == [] {
    } else {
      OlderRowsAllCount(rows[1..], at, id);
    }
  }

  lemma {:induction false} NewerRowsDoNotCount(rows: seq<Entry>, i: nat, at: int, id: nat)
    requires i <= |rows| && forall j :: 0 <= j < i ==> !NotNewer(rows[j], at, id)
    ensures BalanceAsOf(rows, at, id) == BalanceAsOf(rows[i..], at, id)
  {
    if i > 0 {
      NewerRowsDoNotCount(rows[1..], i - 1, at, id);
      assert rows[1..][i - 1..] == rows[i..];
    } else {
      assert rows[0..] == rows;
    }
  }

  /** No two entries share moment and id. */
  predicate Told(es: seq<Entry>) {
    forall i, j :: 0 <= i < j < |es| ==> es[i].at != es[j].at || es[i].id != es[j].id
  }

  lemma RowsAreStrict(docs: seq<Document>)
    requires Told(Entries(docs))
    ensures Sorting.Strict(Rows(docs), NEWEST_FIRST)
  {
    NewestFirstIsTotal();
    Sorting.SortIsStrict(Entries(docs), NEWEST_FIRST);
  }

  /** The running balance of a row is the effect of everything recorded up to it. */
  lemma RunningIsBalanceAsOf(docs: seq<Document>, i: nat)
    requires Told(Entries(docs)) && i < |Rows(docs)|
    ensures Running(Rows(docs), i) == BalanceAsOf(Entries(docs), Rows(docs)[i].at, Rows(docs)[i].id)
  {
    var rows := Rows(docs);
    var at, id := rows[i].at, rows[i].id;
    RowsAreStrict(docs);
    forall j | 0 <= j < |rows|
      ensures NotNewer(rows[j], at, id) <==> i <= j
    {
      if j < i {
        assert NEWEST_FIRST(rows[j], rows[i]) && !NEWEST_FIRST(rows[i], rows[j]);
      } else if i < j {
        assert NEWEST_FIRST(rows[i], rows[j]);
      }
    }
    SortingKeepsBalances(Entries(docs), at, id);
    NewerRowsDoNotCount(rows, i, at, id);
    OlderRowsAllCount(rows[i..], at, id);
  }

  // ----- the theorems -----

  lemma {:induction false} EffectsAreTheBalance(docs: seq<Document>)
    ensures SumEffects(Entries(docs)) == Balance(docs)
  {
    if docs == [] {
    } else {
      EffectsAreTheBalance(docs[1..]);
      SumSplits(EntryOf(docs[0]), Entries(docs[1..]));
      assert EntryOf(docs[0]) != [] ==> EntryOf(docs[0])[1..] == [];
    }
  }

  lemma {:induction false} SumSplits(a: seq<Entry>, b: seq<Entry>)
    ensures SumEffects(a + b) == SumEffects(a) + SumEffects(b)
  {
    if a == [] {
      assert a + b == b;
    } else {
      assert (a + b)[1..] == a[1..] + b;
      SumSplits(a[1..], b);
    }
  }

  /** The newest running balance is confirmed sales minus collected payments, to the paisa;
      an account without rows is worth nothing. */
  lemma NewestRunningIsTheBalance(docs: seq<Document>)
    requires Told(Entries(docs))
    ensures Rows(docs) == [] ==> Balance(docs) == 0
    ensures Rows(docs) != [] ==> Running(Rows(docs), 0) == Balance(docs)
  {
    EffectsAreTheBalance(docs);
    Sorting.SortPermutes(Entries(docs), NEWEST_FIRST);
    if Rows(docs) == [] {
      assert multiset(Entries(docs)) == multiset{};
      assert |Entries(docs)| == |multiset(Entries(docs))|;
    } else {
      var newest := Rows(docs)[0];
      RunningIsBalanceAsOf(docs, 0);
      RowsAreStrict(docs);
      forall j | 0 <= j < |Entries(docs)|
        ensures NotNewer(Entries(docs)[j], newest.at, newest.id)
      {
        Sorting.SortKeepsMembers(Entries(docs), NEWEST_FIRST, Entries(docs)[j]);
        var i :| 0 <= i < |Rows(docs)| && Rows(docs)[i] == Entries(docs)[j];
        assert i > 0 ==> NEWEST_FIRST(Rows(docs)[0], Rows(docs)[i]);
      }
      OlderRowsAllCount(Entries(docs), newest.at, newest.id);
    }
  }

  /** Neighbouring balances differ by exactly the newer row's effect. */
  lemma NeighboursDifferByEffect(docs: seq<Document>, i: nat)
    requires i + 1 < |Rows(docs)|
    ensures Running(Rows(docs), i) - Running(Rows(docs), i + 1) == Rows(docs)[i].effect
  {
    assert Rows(docs)[i..][1..] == Rows(docs)[i + 1..];
  }

  predicate CanVoid(d: Document) {
    (d.Sale? && d.saleStatus.Confirmed?) || (d.Payment? && d.status.Collected?)
  }

  function Voided(d: Document): Document
    requires CanVoid(d)
  {
    if d.Sale? then d.(saleStatus := SaleVoid) else d.(status := PaymentVoid)
  }

  /** What a document moved before it was voided. */
  function EffectOf(d: Document): int {
    if d.Sale? then (if d.saleStatus.Confirmed? then d.total else 0)
    else if d.status.Collected? then -d.amount else 0
  }

  lemma {:induction false} VoidingShifts(docs: seq<Document>, k: nat, at: int, id: nat)
    requires k < |docs| && CanVoid(docs[k])
    ensures BalanceAsOf(Entries(docs[k := Voided(docs[k])]), at, id) ==
            BalanceAsOf(Entries(docs), at, id)
            - (if NotNewer(EntryOf(docs[k])[0], at, id) then EffectOf(docs[k]) else 0)
  {
    var docs' := docs[k := Voided(docs[k])];
    if k == 0 {
      assert docs'[1..] == docs[1..];
      assert (EntryOf(docs[0]) + Entries(docs[1..]))[1..] == Entries(docs[1..]);
      assert (EntryOf(docs'[0]) + Entries(docs[1..]))[1..] == Entries(docs[1..]);
    } else {
      assert docs'[1..] == docs[1..][k - 1 := Voided(docs[1..][k - 1])];
      VoidingShifts(docs[1..], k - 1, at, id);
      BalanceSplits(EntryOf(docs[0]), Entries(docs[1..]), at, id);
      BalanceSplits(EntryOf(docs[0]), Entries(docs'[1..]), at, id);
    }
  }

  predicate SameMoments(a: seq<Entry>, b: seq<Entry>) {
    |a| == |b| && forall i :: 0 <= i < |a| ==> a[i].at == b[i].at && a[i].id == b[i].id
  }

  lemma {:induction false} VoidingKeepsMoments(docs: seq<Document>, k: nat)
    requires k < |docs| && CanVoid(docs[k])
    ensures SameMoments(Entries(docs), Entries(docs[k := Voided(docs[k])]))
  {
    var docs' := docs[k := Voided(docs[k])];
    if k == 0 {
      assert docs'[1..] == docs[1..];
    } else {
      assert docs'[1..] == docs[1..][k - 1 := Voided(docs[1..][k - 1])];
      VoidingKeepsMoments(docs[1..], k - 1);
    }
  }

  lemma MomentsTell(a: seq<Entry>, b: seq<Entry>)
    requires Told(a) && SameMoments(a, b)
    ensures Told(b)
  {
  }

  lemma {:induction false} BalanceSplits(a: seq<Entry>, b: seq<Entry>, at: int, id: nat)
    ensures BalanceAsOf(a + b, at, id) == BalanceAsOf(a, at, id) + BalanceAsOf(b, at, id)
  {
    if a == [] {
      assert a + b == b;
    } else {
      assert (a + b)[1..] == a[1..] + b;
      BalanceSplits(a[1..], b, at, id);
    }
  }

  lemma {:induction false} InsertKeepsMoments(e: Entry, f: Entry, es: seq<Entry>, fs: seq<Entry>)
    requires e.at == f.at && e.id == f.id && SameMoments(es, fs)
    ensures SameMoments(Sorting.Insert(e, es, NEWEST_FIRST), Sorting.Insert(f, fs, NEWEST_FIRST))
  {
    if es == [] || NEWEST_FIRST(e, es[0]) {
    } else {
      InsertKeepsMoments(e, f, es[1..], fs[1..]);
    }
  }

  /** The order of the ledger depends on the moments alone. */
  lemma {:induction false} SortKeepsMoments(es: seq<Entry>, fs: seq<Entry>)
    requires SameMoments(es, fs)
    ensures SameMoments(Sorting.Sort(es, NEWEST_FIRST), Sorting.Sort(fs, NEWEST_FIRST))
  {
    if es == [] {
    } else {
      SortKeepsMoments(es[1..], fs[1..]);
      InsertKeepsMoments(es[0], fs[0], Sorting.Sort(es[1..], NEWEST_FIRST), Sorting.Sort(fs[1..], NEWEST_FIRST));
    }
  }

  /** Voiding a document keeps every row in its place, and moves its own row and every
      newer one by its effect, and no older row. */
  lemma VoidingMovesNewerRowsOnly(docs: seq<Document>, k: nat, i: nat)
    requires k < |docs| && CanVoid(docs[k]) && Told(Entries(docs)) && i < |Rows(docs)|
    ensures var docs' := docs[k := Voided(docs[k])]; var row := Rows(docs)[i];
            && |Rows(docs')| == |Rows(docs)| && Rows(docs')[i].at == row.at && Rows(docs')[i].id == row.id
            && Running(Rows(docs'), i) ==
               Running(Rows(docs), i) - (if NotNewer(EntryOf(docs[k])[0], row.at, row.id) then EffectOf(docs[k]) else 0)
  {
    var row := Rows(docs)[i];
    var docs' := docs[k := Voided(docs[k])];
    VoidingShifts(docs, k, row.at, row.id);
    VoidingKeepsMoments(docs, k);
    SortKeepsMoments(Entries(docs), Entries(docs'));
    MomentsTell(Entries(docs), Entries(docs'));
    RunningIsBalanceAsOf(docs, i);
    RunningIsBalanceAsOf(docs', i);
  }

  /** A new document leaves every older row in the ledger, with its balance unchanged. */
  lemma NewDocumentsLeaveOlderRows(docs: seq<Document>, d: Document, i: nat) returns (i': nat)
    requires Told(Entries(docs + [d])) && i < |Rows(docs)|
    requires forall j :: 0 <= j < |EntryOf(d)| ==> !NotNewer(EntryOf(d)[j], Rows(docs)[i].at, Rows(docs)[i].id)
    ensures i' < |Rows(docs + [d])| && Rows(docs + [d])[i'] == Rows(docs)[i]
    ensures Running(Rows(docs + [d]), i') == Running(Rows(docs), i)
  {
    var row := Rows(docs)[i];
    EntriesAppend(docs, d);
    ToldStays(Entries(docs), EntryOf(d));
    Sorting.SortKeepsMembers(Entries(docs), NEWEST_FIRST, row);
    assert row in Entries(docs) + EntryOf(d);
    Sorting.SortKeepsMembers(Entries(docs + [d]), NEWEST_FIRST, row);
    i' :| 0 <= i' < |Rows(docs + [d])| && Rows(docs + [d])[i'] == row;
    RunningIsBalanceAsOf(docs, i);
    RunningIsBalanceAsOf(docs + [d], i');
    BalanceSplits(Entries(docs), EntryOf(d), row.at, row.id);
    NewerRowsDoNotCount(EntryOf(d), |EntryOf(d)|, row.at, row.id);
  }

  lemma ToldStays(a: seq<Entry>, b: seq<Entry>)
    requires Told(a + b)
    ensures Told(a)
  {
    assert forall i :: 0 <= i < |a| ==> (a + b)[i] == a[i];
  }

  lemma {:induction false} EntriesAppend(docs: seq<Document>, d: Document)
    ensures Entries(docs + [d]) == Entries(docs) + EntryOf(d)
  {
    if docs == [] {
      assert [] + [d] == [d] && [d][1..] == [];
    } else {
      assert (docs + [d])[1..] == docs[1..] + [d];
      EntriesAppend(docs[1..], d);
    }
  }

  // ----- the rows themselves -----

  /** The row a document is shown as: drafts and uncollected payments are not shown, a
      payment counts against the account, and a voided document keeps its amount and
      weighs nothing. */
  predicate ShownAs(d: Document, row: Entry) {
    && row.at == d.at && row.id == d.id
    && match d
       case Sale(_, _, total, status) =>
         && row.amount == total
         && ((status == Confirmed && !row.voided && row.effect == total)
             || (status == SaleVoid && row.voided && row.effect == 0))
       case Payment(_, _, amount, status) =>
         && row.amount == -amount
         && ((status == Collected && !row.voided && row.effect == -amount)
             || (status == PaymentVoid && row.voided && row.effect == 0))
  }

  lemma {:induction false} EntriesAreShown(docs: seq<Document>, row: Entry)
    ensures row in Entries(docs) <==> exists d :: d in docs && ShownAs(d, row)
  {
    if docs != [] {
      EntriesAreShown(docs[1..], row);
      assert row in EntryOf(docs[0]) <==> ShownAs(docs[0], row);
      assert docs == [docs[0]] + docs[1..];
    }
  }

  lemma RunningStep(rows: seq<Entry>, i: nat)
    requires i < |rows|
    ensures Running(rows, i) == rows[i].effect + if i + 1 < |rows| then Running(rows, i + 1) else 0
  {
    assert rows[i..][1..] == rows[i + 1..];
    assert SumEffects(rows[i..]) == rows[i].effect + SumEffects(rows[i + 1..]);
    if i + 1 == |rows| {
      assert rows[i + 1..] == [];
    }
  }

  /** The ledger has one row for each document that is shown, latest first and the higher
      id first among equals, and its balance counts it and every row below it. */
  lemma RowsAreDecided(docs: seq<Document>)
    requires Told(Entries(docs))
    ensures forall row :: row in Rows(docs) <==> exists d :: d in docs && ShownAs(d, row)
    ensures forall i, j :: 0 <= i < j < |Rows(docs)| ==>
              Rows(docs)[j].at < Rows(docs)[i].at
              || (Rows(docs)[j].at == Rows(docs)[i].at && Rows(docs)[j].id < Rows(docs)[i].id)
    ensures forall i :: 0 <= i < |Rows(docs)| ==>
              Running(Rows(docs), i)
              == Rows(docs)[i].effect + if i + 1 < |Rows(docs)| then Running(Rows(docs), i + 1) else 0
  {
    RowsAreStrict(docs);
    forall row
      ensures row in Rows(docs) <==> exists d :: d in docs && ShownAs(d, row)
    {
      Sorting.SortKeepsMembers(Entries(docs), NEWEST_FIRST, row);
      EntriesAreShown(docs, row);
    }
    forall i, j | 0 <= i < j < |Rows(docs)|
      ensures Rows(docs)[j].at < Rows(docs)[i].at
              || (Rows(docs)[j].at == Rows(docs)[i].at && Rows(docs)[j].id < Rows(docs)[i].id)
    {
      assert NEWEST_FIRST(Rows(docs)[i], Rows(docs)[j]) && !NEWEST_FIRST(Rows(docs)[j], Rows(docs)[i]);
    }
    forall i | 0 <= i < |Rows(docs)|
      ensures Running(Rows(docs), i)
              == Rows(docs)[i].effect + if i + 1 < |Rows(docs)| then Running(Rows(docs), i + 1) else 0
    {
      RunningStep(Rows(docs), i);
    }
  }
}
