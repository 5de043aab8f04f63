/** The plain indicator card built directly from Mantine components. */
module DmcBased {

  /** What indicator_card shows: a title, an arrow, a text colour and the signed value. */
  datatype DmcCard = DmcCard(title: string, arrow: string, textColor: string, shown: real)

  /** indicator_card: arrow up only for positive values, red text only for negative ones. */
  function IndicatorCard(title: string, value: real): (card: DmcCard)
    ensures card.arrow == "▲" <==> value > 0.0
    ensures card.arrow == "▼" <==> value <= 0.0
    ensures card.textColor == "red" <==> value < 0.0
    ensures card.textColor == "green" <==> value >= 0.0
    ensures card.shown == value && card.title == title
  {
    var arrow := if value > 0.0 then "▲" else "▼";
    var textColor := if value < 0.0 then "red" else "green";
    DmcCard(title, arrow, textColor, value)
  }

  /** Zero falls between the two tests: it gets the down arrow but the green colour. */
  lemma ZeroIsDownButGreen(title: string)
    ensures IndicatorCard(title, 0.0).arrow == "▼"
    ensures IndicatorCard(title, 0.0).textColor == "green"
  {
  }

  /** The printed number keeps its sign, so arrow and text agree for every non-zero value. */
  lemma ArrowAgreesWithPrintedSign(title: string, value: real)
    requires value != 0.0
    ensures (IndicatorCard(title, value).arrow == "▲") == (IndicatorCard(title, value).shown > 0.0)
    ensures (IndicatorCard(title, value).textColor == "red") == (IndicatorCard(title, value).shown < 0.0)
  {
  }
}
