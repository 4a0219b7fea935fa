/** The dashboard's savings card: income minus expense, shown in red with a
    warning when it is below zero, in green with a note when it is growing,
    and in green without a note when it is exactly zero. */
module SavingsCard {
  import opened Transactions
  import ExpenseReport

  /** The three cases of the savings figure. */
  datatype SavingsStatus = Negative | Growing | Flat

  /** The colours the card picks between (`*-red-500`, `bg-green-500`,
      `text-lime-500`). */
  datatype Tone = Red | Green | Lime

  /** The two notes the card can show under the figure. */
  datatype Message = BelowZeroWarning | GrowingNote

  /** What the card renders, down to the choices it makes. */
  datatype CardView = CardView(
    savings: int,
    isNegative: bool,
    iconTone: Tone,
    amountTone: Tone,
    message: Option<Message>)

  /** The sign of the savings figure, as a three-way case. */
  function Classify(savings: int): (s: SavingsStatus)
    ensures s == Negative <==> savings < 0
    ensures s == Growing <==> savings > 0
    ensures s == Flat <==> savings == 0
  {
    if savings < 0 then Negative else if savings > 0 then Growing else Flat
  }

  /** The card for the given totals. */
  function RenderCard(totalIncome: int, totalExpense: int): (v: CardView)
    ensures v.savings == totalIncome - totalExpense
    ensures v.isNegative <==> totalIncome < totalExpense
    ensures v.iconTone == Red <==> v.isNegative
    ensures v.iconTone == Green <==> !v.isNegative
    ensures v.amountTone == Red <==> v.isNegative
    ensures v.amountTone == Lime <==> !v.isNegative
    ensures v.message == Some(BelowZeroWarning) <==> v.savings < 0
    ensures v.message == Some(GrowingNote) <==> v.savings > 0
    ensures v.message == None <==> v.savings == 0
  {
    var savings := totalIncome - totalExpense;
    var isNegative := savings < 0;
    CardView(
      savings,
      isNegative,
      if isNegative then Red else Green,
      if isNegative then Red else Lime,
      if isNegative then Some(BelowZeroWarning)
      else if savings > 0 then Some(GrowingNote)
      else None)
  }

  /** The note each case calls for. */
  function NoteFor(s: SavingsStatus): Option<Message> {
    match s
    case Negative => Some(BelowZeroWarning)
    case Growing => Some(GrowingNote)
    case Flat => None
  }

  /** The card's note and colours are decided by the case its figure falls
      in, and by nothing else: every figure falls in exactly one case. */
  lemma CardFollowsStatus(totalIncome: int, totalExpense: int)
    ensures var v := RenderCard(totalIncome, totalExpense);
            && v.message == NoteFor(Classify(v.savings))
            && (v.iconTone == Red <==> Classify(v.savings) == Negative)
            && (Classify(v.savings) == Flat ==> v.iconTone == Green && v.amountTone == Lime)
  {
  }

  /** The card fed with the report's totals shows the report's balance, and
      its note reports the balance's sign. */
  lemma CardShowsBalance(records: seq<Transaction>, year: string)
    ensures var s := ExpenseReport.Summarize(records, year);
            var v := RenderCard(s.totalIncome, s.totalExpense);
            && v.savings == s.balance
            && v.message == NoteFor(Classify(s.balance))
  {
  }
}
