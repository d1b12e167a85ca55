/** The shipped vocabulary at work. */
module ColorShipped {
  import opened ColorMarkup
  import opened ColorVocabulary
  import opened ColorPaint
  import opened ColorExamples
  import Decimal

  lemma RedIs31()
    ensures "FG_RED" in SGR_TOKENS && SGR_TOKENS["FG_RED"] == "31"
  {
    hide Table;
    ColoursAreSystematic(1);
    assert "FG_" + COLOURS[1] == "FG_RED";
    assert Decimal.Text(31) == Decimal.Text(3) + ['1'] == "31";
  }

  /** With the shipped table the edge paints `{{ fg_Red }}hi` as two red letters. */
  lemma ShippedRedIsRed()
    ensures Painted(RenderSpec(SGR_TOKENS, RED_HI, true), []) == [Cell('h', ["31"]), Cell('i', ["31"])]
  {
    hide Table, Painted, RenderSpec, Legal;
    TableIsLegal();
    RedIs31();
    RedIsPaintedRed(SGR_TOKENS);
  }

  /** And writes exactly this. */
  lemma ShippedRedIsWritten()
    ensures RenderSpec(SGR_TOKENS, RED_HI, true) == ['\U{1B}'] + "[31mhi" + ['\U{1B}'] + "[0m"
  {
    hide Table, RenderSpec, Legal;
    TableIsLegal();
    RedIs31();
    RedIsWritten(SGR_TOKENS);
  }
}
