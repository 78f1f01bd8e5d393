/** The records every part of the journal works on: a logged trade as the
    store returns it, and the loosely typed field values that the trade form
    edits and sends back to the store. */
module Journal {

  datatype Option<+T> = None | Some(value: T)

  /** A field value as the form holds it: inputs always yield text, while a
      trade copied into the form keeps its numbers. */
  datatype Value = Text(s: string) | Number(x: real)

  /** A plain object keyed by field name, as sent to the store. */
  type Record = map<string, Value>

  /** One row of the `trades` table. Text columns hold "" where the row has no
      value; the optional numeric columns and the chart link are `None` then. */
  datatype Trade = Trade(
    id: string,
    date: string,
    time: string,
    pair: string,
    direction: string,
    entryPrice: Option<real>,
    stopLoss: Option<real>,
    timeframe: string,
    targetRr: Option<real>,
    pnl: Option<real>,
    setup: string,
    strategy: string,
    result: string,
    comment: string,
    chartUrl: Option<string>)

  /** The P&L a trade adds to a sum: its number, or 0 when it has none. */
  function PnlOrZero(t: Trade): real
  {
    match t.pnl
    case Some(x) => x
    case None => 0.0
  }

  function Min(a: int, b: int): int
  {
    if a <= b then a else b
  }
}
