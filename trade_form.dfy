/** The trade form: a record of field values the inputs edit, pre-filled
    from the cached trade in edit mode, and submitted through the trade
    cache. The current date and time are parameters. */
module TradeForm {
  import opened Journal
  import TradeContext

  /** The character of a decimal digit. */
  function DigitChar(d: nat): (c: char)
    requires d < 10
    ensures '0' <= c <= '9'
    ensures c as int - '0' as int == d
  {
    (d + '0' as int) as char
  }

  predicate IsDigits(s: string)
  {
    forall i :: 0 <= i < |s| ==> '0' <= s[i] <= '9'
  }

  /** A number written in decimal without leading zeros, as `String(n)`. */
  function NatToString(n: nat): (s: string)
    ensures 1 <= |s| && IsDigits(s)
    ensures n < 10 <==> |s| == 1
    ensures n < 10 ==> s == [DigitChar(n)]
    ensures |s| > 1 ==> s[0] != '0'
  {
    if n < 10 then [DigitChar(n)] else NatToString(n / 10) + [DigitChar(n % 10)]
  }

  /** The value of a string of decimal digits. */
  function ParseNat(s: string): nat
    requires IsDigits(s)
  {
    if s == [] then 0 else ParseNat(s[..|s| - 1]) * 10 + (s[|s| - 1] as int - '0' as int)
  }

  /** Reading back a written number gives the number. */
  lemma {:induction false} ParseNatToString(n: nat)
    ensures ParseNat(NatToString(n)) == n
  {
    if n >= 10 {
      var s := NatToString(n);
      assert s[..|s| - 1] == NatToString(n / 10);
      ParseNatToString(n / 10);
    }
  }

  /** The number of decimal digits of `n`. */
  lemma {:induction false} NatToStringLength(n: nat)
    ensures n < 100 ==> |NatToString(n)| <= 2
    ensures 1000 <= n < 10000 ==> |NatToString(n)| == 4
  {
    if n >= 10 {
      NatToStringLength(n / 10);
    }
  }

  /** `String(n).padStart(2, '0')`: a one-character text gets a leading
      zero; longer texts stay as they are. */
  function PadStart2(s: string): (r: string)
    ensures |s| >= 2 ==> r == s
    ensures |s| < 2 ==> |r| == 2 && r[2 - |s|..] == s && forall i :: 0 <= i < 2 - |s| ==> r[i] == '0'
    decreases 2 - |s|
  {
    if |s| >= 2 then s else PadStart2(['0'] + s)
  }

  /** The form's default date, `YYYY-MM-DD` from the year, the 0-based month
      index and the day of the month. */
  function DefaultDate(year: nat, monthIndex: nat, day: nat): (r: string)
    requires monthIndex < 12 && 1 <= day <= 31
    ensures 1000 <= year < 10000 ==> |r| == 10 && r[4] == '-' && r[7] == '-'
  {
    NatToStringLength(year);
    NatToStringLength(monthIndex + 1);
    NatToStringLength(day);
    NatToString(year) + "-" + PadStart2(NatToString(monthIndex + 1)) + "-" + PadStart2(NatToString(day))
  }

  /** A number below 100, padded to two digits, reads back as itself. */
  lemma Pad2RoundTrip(n: nat)
    requires n < 100
    ensures |PadStart2(NatToString(n))| == 2
    ensures IsDigits(PadStart2(NatToString(n)))
    ensures ParseNat(PadStart2(NatToString(n))) == n
  {
    NatToStringLength(n);
    ParseNatToString(n);
    var p := PadStart2(NatToString(n));
    if n < 10 {
      assert p == ['0', DigitChar(n)];
      assert p[..1] == ['0'];
    }
  }

  /** The default date carries the year, the 1-based month and the day, each
      readable back from its position, for four-digit years. */
  lemma DefaultDateRoundTrip(year: nat, monthIndex: nat, day: nat)
    requires 1000 <= year < 10000 && monthIndex < 12 && 1 <= day <= 31
    ensures var r := DefaultDate(year, monthIndex, day);
      IsDigits(r[..4]) && IsDigits(r[5..7]) && IsDigits(r[8..]) &&
      ParseNat(r[..4]) == year && ParseNat(r[5..7]) == monthIndex + 1 && ParseNat(r[8..]) == day
  {
    var r := DefaultDate(year, monthIndex, day);
    NatToStringLength(year);
    ParseNatToString(year);
    Pad2RoundTrip(monthIndex + 1);
    Pad2RoundTrip(day);
    var y, m, d := NatToString(year), PadStart2(NatToString(monthIndex + 1)), PadStart2(NatToString(day));
    assert r == y + "-" + m + "-" + d;
    assert r[..4] == y;
    assert r[5..7] == m;
    assert r[8..] == d;
  }

  /** The fields the form's inputs edit. */
  const InputNames: set<string> := {
    "date", "time", "pair", "direction", "entry_price", "stop_loss", "timeframe",
    "target_rr", "pnl", "setup", "strategy", "result", "comment", "chart_url"}

  /** The blank form: today's date, the current time, a long winning trade. */
  function InitialForm(date: string, time: string): (r: Record)
    ensures r.Keys == InputNames
    ensures r["date"] == Text(date) && r["time"] == Text(time)
    ensures r["direction"] == Text("Long") && r["result"] == Text("Win")
    ensures forall k :: k in r && k !in {"date", "time", "direction", "result"} ==> r[k] == Text("")
  {
    map[
      "date" := Text(date), "time" := Text(time), "pair" := Text(""), "direction" := Text("Long"),
      "entry_price" := Text(""), "stop_loss" := Text(""), "timeframe" := Text(""),
      "target_rr" := Text(""), "pnl" := Text(""), "setup" := Text(""), "strategy" := Text(""),
      "result" := Text("Win"), "comment" := Text(""), "chart_url" := Text("")]
  }

  /** The first trade whose identifier is `id`, if any. */
  function FindById(ts: seq<Trade>, id: string): (r: Option<Trade>)
    ensures r.None? <==> forall i :: 0 <= i < |ts| ==> ts[i].id != id
    ensures r.Some? ==> exists i :: 0 <= i < |ts| && ts[i] == r.value &&
                          forall j :: 0 <= j < i ==> ts[j].id != id
    ensures r.Some? ==> r.value.id == id
  {
    if ts == [] then None
    else if ts[0].id == id then Some(ts[0])
    else
      var r := FindById(ts[1..], id);
      assert forall i :: 1 <= i < |ts| ==> ts[i] == ts[1..][i - 1];
      if r.Some? then
        var k :| 0 <= k < |ts[1..]| && ts[1..][k] == r.value && forall j :: 0 <= j < k ==> ts[1..][j].id != id;
        assert ts[k + 1] == r.value;
        r
      else r
  }

  /** `x || ''` on a numeric column: a null or zero value becomes "". */
  function NumberOrBlank(x: Option<real>): (v: Value)
    ensures v == Text("") <==> x.None? || x == Some(0.0)
    ensures v.Number? <==> x.Some? && x.value != 0.0
  {
    match x
    case Some(n) => if n != 0.0 then Number(n) else Text("")
    case None => Text("")
  }

  /** The columns a trade row brings into the form. */
  const TradeColumns: set<string> := InputNames + {"id"}

  /** The number a field holds, if it holds one. */
  function NumberIn(v: Value): Option<real>
  {
    match v
    case Number(x) => Some(x)
    case Text(_) => None
  }

  /** The form pre-filled from a trade: every column copied, except that a
      falsy P&L, target R:R, entry price, stop loss or chart link becomes "". */
  function Prefill(t: Trade): (r: Record)
    ensures r.Keys == TradeColumns
  {
    map[
      "id" := Text(t.id), "date" := Text(t.date), "time" := Text(t.time), "pair" := Text(t.pair),
      "direction" := Text(t.direction), "entry_price" := NumberOrBlank(t.entryPrice),
      "stop_loss" := NumberOrBlank(t.stopLoss), "timeframe" := Text(t.timeframe),
      "target_rr" := NumberOrBlank(t.targetRr), "pnl" := NumberOrBlank(t.pnl),
      "setup" := Text(t.setup), "strategy" := Text(t.strategy), "result" := Text(t.result),
      "comment" := Text(t.comment),
      "chart_url" := Text(match t.chartUrl case Some(u) => u case None => "")]
  }

  /** The pre-filled form copies the trade's identity and timing columns. */
  lemma PrefillCopiesIdentity(t: Trade)
    ensures var r := Prefill(t);
      && r["id"] == Text(t.id) && r["date"] == Text(t.date) && r["time"] == Text(t.time)
      && r["pair"] == Text(t.pair) && r["direction"] == Text(t.direction)
  {
  }

  /** The pre-filled form copies the trade's descriptive columns, and a
      missing chart link becomes "". */
  lemma PrefillCopiesNotes(t: Trade)
    ensures var r := Prefill(t);
      && r["timeframe"] == Text(t.timeframe) && r["setup"] == Text(t.setup)
      && r["strategy"] == Text(t.strategy) && r["result"] == Text(t.result)
      && r["comment"] == Text(t.comment)
      && r["chart_url"] == Text(if t.chartUrl.Some? then t.chartUrl.value else "")
  {
  }

  /** The numbers a pre-filled form holds are the trade's numbers, except
      that a zero reads as no number at all. */
  lemma PrefillKeepsNonZeroNumbers(t: Trade)
    ensures NumberIn(Prefill(t)["pnl"]) == (if t.pnl == Some(0.0) then None else t.pnl)
    ensures NumberIn(Prefill(t)["target_rr"]) == (if t.targetRr == Some(0.0) then None else t.targetRr)
    ensures NumberIn(Prefill(t)["entry_price"]) == (if t.entryPrice == Some(0.0) then None else t.entryPrice)
    ensures NumberIn(Prefill(t)["stop_loss"]) == (if t.stopLoss == Some(0.0) then None else t.stopLoss)
  {
    var r := Prefill(t);
    assert r["pnl"] == NumberOrBlank(t.pnl);
    assert r["target_rr"] == NumberOrBlank(t.targetRr);
    assert r["entry_price"] == NumberOrBlank(t.entryPrice);
    assert r["stop_loss"] == NumberOrBlank(t.stopLoss);
  }

  /** The text a field holds; a number holds none. */
  function TextIn(v: Value): string
  {
    match v
    case Text(s) => s
    case Number(_) => ""
  }

  /** The trade a submitted record describes, read column by column: text
      columns as their text, numeric columns as their number if they hold
      one, and the chart link when it is not blank. */
  function TradeOf(r: Record): (t: Trade)
    requires TradeColumns <= r.Keys
    ensures t.chartUrl.Some? ==> t.chartUrl.value != ""
  {
    Trade(TextIn(r["id"]), TextIn(r["date"]), TextIn(r["time"]), TextIn(r["pair"]),
          TextIn(r["direction"]), NumberIn(r["entry_price"]), NumberIn(r["stop_loss"]),
          TextIn(r["timeframe"]), NumberIn(r["target_rr"]), NumberIn(r["pnl"]),
          TextIn(r["setup"]), TextIn(r["strategy"]), TextIn(r["result"]), TextIn(r["comment"]),
          if TextIn(r["chart_url"]) != "" then Some(TextIn(r["chart_url"])) else None)
  }

  /** A zero number reads as no number at all. */
  function NonZero(x: Option<real>): Option<real>
  {
    if x == Some(0.0) then None else x
  }

  /** Reading a pre-filled form back gives the trade it came from, except
      for what prefill blanks: a zero number and an empty chart link come
      back absent. Every other column survives the round trip. */
  lemma PrefillRoundTrip(t: Trade)
    ensures TradeOf(Prefill(t)) ==
      t.(entryPrice := NonZero(t.entryPrice), stopLoss := NonZero(t.stopLoss),
         targetRr := NonZero(t.targetRr), pnl := NonZero(t.pnl),
         chartUrl := if t.chartUrl == Some("") then None else t.chartUrl)
  {
    PrefillCopiesIdentity(t);
    PrefillCopiesNotes(t);
    PrefillKeepsNonZeroNumbers(t);
  }

  /** The message shown when saving fails without one. */
  const DefaultError: string := "Failed to save trade"

  /** The error text for a failed save: its message, or the default. */
  function ErrorText(message: string): (r: string)
    ensures r != ""
    ensures message != "" ==> r == message
  {
    if message != "" then message else DefaultError
  }

  class Form {
    /** The route's `id` parameter, "" when the route has none. */
    const routeId: string
    var formData: Record
    var loading: bool
    var error: string
    /** The pages navigated to, oldest first. */
    var navigations: seq<string>

    /** Every input has a value to show. */
    predicate Valid()
      reads this
    {
      InputNames <= formData.Keys
    }

    /** Edit mode: the route names a trade. */
    predicate IsEditMode()
      reads this
    {
      routeId != ""
    }

    /** The form as first rendered, given the route parameter, today's date
        and the current time. */
    constructor (id: string, year: nat, monthIndex: nat, day: nat, time: string)
      requires monthIndex < 12 && 1 <= day <= 31
      ensures Valid()
      ensures routeId == id
      ensures formData == InitialForm(DefaultDate(year, monthIndex, day), time)
      ensures !loading && error == "" && navigations == []
    {
      routeId := id;
      formData := InitialForm(DefaultDate(year, monthIndex, day), time);
      loading := false;
      error := "";
      navigations := [];
    }

    /** The prefill effect: in edit mode, with trades cached, the first trade
        with the route's identifier replaces the form; otherwise the form
        stays as it is. */
    method PrefillEffect(trades: seq<Trade>)
      requires Valid()
      modifies this`formData
      ensures Valid()
      ensures IsEditMode() && FindById(trades, routeId).Some? ==>
                formData == Prefill(FindById(trades, routeId).value)
      ensures !IsEditMode() || FindById(trades, routeId).None? ==> formData == old(formData)
    {
      if IsEditMode() && |trades| > 0 {
        var tradeToEdit := FindById(trades, routeId);
        if tradeToEdit.Some? {
          formData := Prefill(tradeToEdit.value);
        }
      }
    }

    /** An input changed: exactly that field takes the new text. */
    method HandleChange(name: string, value: string)
      requires Valid()
      modifies this`formData
      ensures Valid()
      ensures formData == old(formData)[name := Text(value)]
      ensures forall k :: k in old(formData) && k != name ==> k in formData && formData[k] == old(formData)[k]
    {
      formData := formData[name := Text(value)];
    }

    /** Submit: update the route's trade in edit mode, add a trade otherwise;
        go to the trade list on success, show the error on failure. The
        form's loading flag is off again at the end. */
    method HandleSubmit(cache: TradeContext.TradeCache, reply: TradeContext.WriteReply)
      modifies this`loading, this`error, this`navigations, cache`trades, cache`sent
      ensures formData == old(formData) && !loading
      ensures IsEditMode() ==>
                cache.sent == old(cache.sent) + [TradeContext.Update(routeId, formData)] &&
                (reply.Written? ==> cache.trades == TradeContext.ReplaceById(old(cache.trades), routeId, reply.row))
      ensures !IsEditMode() ==>
                cache.sent == old(cache.sent) + [TradeContext.Insert(formData)] &&
                (reply.Written? ==> cache.trades == [reply.row] + old(cache.trades))
      ensures reply.Written? ==> navigations == old(navigations) + ["/trades"] && error == ""
      ensures reply.WriteError? ==>
                navigations == old(navigations) && cache.trades == old(cache.trades) &&
                error == ErrorText(reply.message)
    {
      loading := true;
      error := "";
      var o: TradeContext.Outcome;
      if IsEditMode() {
        o := cache.UpdateTrade(routeId, formData, reply);
      } else {
        o := cache.AddTrade(formData, reply);
      }
      match o {
        case Success =>
          navigations := navigations + ["/trades"];
        case Failure(message) =>
          error := ErrorText(message);
      }
      loading := false;
    }
  }
}
