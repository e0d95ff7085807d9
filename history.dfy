/**
 * The history context: a list of transactions held in memory, newest
 * first. `addTransaction` stamps the caller's entry with an id and a date
 * taken from the clock and puts it in front; nothing removes or edits an
 * entry.
 */
module History {

  datatype TxType = Tip | Fund

  datatype Transaction = Transaction(
    id: string,
    name: string,
    username: string,
    amount: real,
    date: string,
    avatar: string,
    txType: TxType)

  /** `Omit<Transaction, 'id' | 'date'>`: what a caller can supply. */
  datatype TxDraft = TxDraft(name: string, username: string, amount: real, avatar: string, txType: TxType)

  /**
   * `{...transaction, id: Date.now().toString(), date: ...}`: the clock's
   * values are parameters, and they alone decide the id and the date.
   */
  function Stamp(draft: TxDraft, id: string, date: string): (t: Transaction)
    ensures t.id == id && t.date == date
    ensures TxDraft(t.name, t.username, t.amount, t.avatar, t.txType) == draft
  {
    Transaction(id, draft.name, draft.username, draft.amount, date, draft.avatar, draft.txType)
  }

  /** The three seeded tips. */
  const InitialTransactions: seq<Transaction> := [
    Transaction("1", "Chris Brendler", "@cbrendler", -5.0, "1/4/2026", "https://i.pravatar.cc/150?img=1", Tip),
    Transaction("2", "James Gallow", "@jgallow", -20.0, "5/23/2025", "https://i.pravatar.cc/150?img=12", Tip),
    Transaction("3", "Stacy Menken", "@stacy", -5.0, "4/27/2025", "https://i.pravatar.cc/150?img=5", Tip)
  ]

  /** The seed: three tips with ids "1", "2" and "3", every amount negative. */
  lemma InitialHistory()
    ensures |InitialTransactions| == 3
    ensures forall t :: t in InitialTransactions ==> t.txType == Tip && t.amount < 0.0
    ensures InitialTransactions[0].id == "1" && InitialTransactions[1].id == "2" && InitialTransactions[2].id == "3"
  {
  }

  /** `later` is `earlier` with entries put in front: nothing removed, edited or reordered. */
  predicate Extends(later: seq<Transaction>, earlier: seq<Transaction>) {
    |earlier| <= |later| && later[|later| - |earlier|..] == earlier
  }

  /** Extension composes, so any sequence of additions keeps every older entry in place. */
  lemma ExtendsTransitive(a: seq<Transaction>, b: seq<Transaction>, c: seq<Transaction>)
    requires Extends(b, a) && Extends(c, b)
    ensures Extends(c, a)
  {
    assert c[|c| - |a|..] == c[|c| - |b|..][|b| - |a|..];
  }

  class HistoryStore {
    var transactions: seq<Transaction>

    constructor()
      ensures transactions == InitialTransactions
    {
      transactions := InitialTransactions;
    }

    /** `addTransaction`: the new list is the stamped entry followed by the old list. */
    method AddTransaction(draft: TxDraft, now: string, today: string)
      modifies this
      ensures transactions == [Stamp(draft, now, today)] + old(transactions)
      ensures |transactions| == |old(transactions)| + 1 && Extends(transactions, old(transactions))
    {
      var entry := Transaction(now, draft.name, draft.username, draft.amount, today, draft.avatar, draft.txType);
      transactions := [entry] + transactions;
    }
  }
}
