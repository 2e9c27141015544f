/** Data model shared by the registration form and the monthly summary:
    a stored transaction record and the (month, year) pair it is filed under. */
module Finance {

  datatype Option<T> = None | Some(value: T)

  /** The outcome of an operation that can be refused with a user-facing message. */
  datatype Result<T> = Success(value: T) | Failure(error: string)

  /** `'positive'` (income) or `'negative'` (expense); the sign of a record lives here, not in its amount. */
  datatype TransactionType = Positive | Negative

  /** A month as JavaScript's `Date.getMonth` numbers it: 0 is January, 11 is December. */
  type MonthIndex = m: int | 0 <= m < 12

  /** The part of a record's timestamp that the summary looks at. */
  datatype MonthYear = MonthYear(month: MonthIndex, year: int)

  /** Months elapsed since January of year 0: a total order on (month, year) pairs. */
  function MonthNumber(d: MonthYear): int
  {
    12 * d.year + d.month
  }

  /** Two pairs that are the same number of months from the origin are the same pair. */
  lemma MonthNumberInjective(d: MonthYear, e: MonthYear)
    requires MonthNumber(d) == MonthNumber(e)
    ensures d == e
  {
  }

  /** A stored transaction. The amount is a whole number of cents; the date keeps only its month
      and year; `category` holds the category's key. */
  datatype Transaction = Transaction(
    id: string,
    name: string,
    amount: nat,
    kind: TransactionType,
    category: string,
    date: MonthYear)

  /** Sum of the amounts, folded from the left as `reduce` does. */
  function Sum(ts: seq<Transaction>): (r: nat)
    ensures ts == [] ==> r == 0
    ensures forall i :: 0 <= i < |ts| ==> ts[i].amount <= r
  {
    if ts == [] then 0 else Sum(ts[..|ts| - 1]) + ts[|ts| - 1].amount
  }

  /** Summing distributes over concatenation. */
  lemma {:induction false} SumAppend(a: seq<Transaction>, b: seq<Transaction>)
    ensures Sum(a + b) == Sum(a) + Sum(b)
  {
    if b == [] {
      assert a + b == a;
    } else {
      var b' := b[..|b| - 1];
      assert (a + b)[..|a + b| - 1] == a + b';
      SumAppend(a, b');
    }
  }
}
